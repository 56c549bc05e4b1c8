/** The wafw00f adapter: a `waf` asset and an informational finding for each line that
    reports a detected firewall with its name in parentheses. */
module Wafw00f {
  import opened Outcomes
  import opened Models
  import opened Base
  import Strings
  import Patterns
  import Seqs

  const Config := ToolConfig("wafw00f", "wafw00f", Technology, "Web application firewall detector",
                             produces := ["waf"], consumes := ["http_service"])

  /** `wafw00f <target>` */
  function BuildCommand(target: string): (argv: seq<string>)
    ensures |argv| == 2 && argv[0] == Config.binary && argv[1] == target
  {
    ["wafw00f", target]
  }

  /** A line that reports a firewall and carries both parentheses. */
  predicate IsDetection(line: string)
  {
    (Strings.Contains(Strings.Lower(line), "is behind") || Strings.Contains(Strings.Lower(line), "detected"))
    && '(' in line && ')' in line
  }

  /** `line.split("(")[1].split(")")[0]`: the text after the first `(` up to the next
      `(` or `)`, whichever comes first. */
  function WafName(line: string): (name: string)
    requires '(' in line
    ensures ')' !in name && '(' !in name
    ensures exists i :: 0 <= i < |line| && line[i] == '(' && '(' !in line[..i]
                        && i + 1 + |name| <= |line| && name == line[i + 1..i + 1 + |name|]
                        && (i + 1 + |name| == |line| || line[i + 1 + |name|] in "()")
  {
    var pieces := Strings.Split(line, '(');
    var i := |pieces[0]|;
    Strings.SplitFirstEnds(line, '(');
    Strings.SplitSecondPiece(line, '(');
    var rest := line[i + 1..];
    var after := pieces[1];
    Strings.SplitFirstEnds(rest, '(');
    Strings.SplitFirstEnds(after, ')');
    var name := Strings.Split(after, ')')[0];
    assert name == rest[..|name|];
    assert line[i + 1..i + 1 + |name|] == rest[..|name|];
    assert i + 1 + |name| < |line| ==> line[i + 1 + |name|] == rest[|name|];
    assert '(' !in name by {
      assert forall k :: 0 <= k < |name| ==> name[k] == after[k];
    }
    name
  }

  /** The first URL of the whole output, `unknown` without one. */
  function Host(output: string): string
  {
    Patterns.SearchUrl(output, 0).GetOr("unknown")
  }

  function WafFinding(output: string, line: string, name: string): Finding
  {
    Finding(Info, "WAF Detected: " + name, Host(output), "Web application firewall detected: " + name, "wafw00f",
            evidence := Some(Strings.Strip(line)),
            recommendations := ["WAF may block certain security testing", "Consider WAF bypass techniques if authorized"])
  }

  /** What one line of `output` gives. */
  function LineFound(output: string, line: string): Found
  {
    if IsDetection(line) then
      var name := WafName(line);
      Found([Asset("waf", name, "wafw00f")], [WafFinding(output, line, name)])
    else Found([], [])
  }

  function LineFn(output: string): string -> Found
  {
    line => LineFound(output, line)
  }

  function Parsed(output: string): ToolResult
  {
    var found := Gather(Strings.Split(output, '\n'), LineFn(output));
    ToolResult("wafw00f", true, found.assets, found.findings, rawOutput := output)
  }

  /** The line loop of `parse_output`. */
  method ParseOutput(output: string) returns (r: ToolResult)
    ensures r == Parsed(output)
  {
    var lines := Strings.Split(output, '\n');
    var assets: seq<Asset> := [];
    var findings: seq<Finding> := [];
    for i := 0 to |lines|
      invariant Gather(lines[..i], LineFn(output)) == Found(assets, findings)
    {
      GatherStep(lines, i, LineFn(output));
      var line := lines[i];
      if IsDetection(line) {
        var name := WafName(line);
        assets := assets + [Asset("waf", name, "wafw00f")];
        findings := findings + [WafFinding(output, line, name)];
      }
    }
    assert lines[..|lines|] == lines;
    r := ToolResult("wafw00f", true, assets, findings, rawOutput := output);
  }

  // ---------------------------------------------------------------------------
  // properties

  /** Assets and findings come in pairs: the k-th finding reports the k-th firewall,
      at the output's first URL. */
  lemma {:induction false} FindingsMatchAssets(output: string, lines: seq<string>)
    ensures var g := Gather(lines, LineFn(output));
            |g.assets| == |g.findings|
            && forall k :: 0 <= k < |g.assets| ==>
                 g.assets[k].assetType == "waf" && g.findings[k].severity == Info
                 && g.findings[k].title == "WAF Detected: " + g.assets[k].value
                 && g.findings[k].host == Host(output)
  {
    if lines != [] {
      FindingsMatchAssets(output, lines[..|lines| - 1]);
    }
  }

  /** One asset per detection line, named by the parenthesised text. */
  lemma {:induction false} AssetsAreDetections(output: string, lines: seq<string>)
    ensures Gather(lines, LineFn(output)).assets == Seqs.Map(Seqs.Filter(lines, IsDetection), WafAsset)
  {
    if lines != [] {
      var n := |lines| - 1;
      AssetsAreDetections(output, lines[..n]);
      Seqs.MapConcat(Seqs.Filter(lines[..n], IsDetection), if IsDetection(lines[n]) then [lines[n]] else [], WafAsset);
    }
  }

  function WafAsset(line: string): Asset
  {
    if '(' in line then Asset("waf", WafName(line), "wafw00f") else Asset("waf", "", "wafw00f")
  }

  /** The host of every finding is a URL of the output or `unknown`. */
  lemma HostIsUrlOrUnknown(output: string)
    ensures Host(output) == "unknown" || Strings.StartsWith(Host(output), "http")
  {
  }
}
