/** The line parser shared by the passive subdomain enumerators (subfinder, amass,
    assetfinder): the output is stripped and split into lines, and every stripped line
    that is non-empty and contains a dot is one `subdomain` asset. */
module SubdomainLines {
  import opened Models
  import opened Base
  import Strings
  import Seqs

  /** A stripped line worth keeping. */
  predicate LooksLikeHost(s: string)
  {
    s != [] && '.' in s
  }

  /** `output.strip().split("\n")` */
  function OutputLines(output: string): (lines: seq<string>)
    ensures |lines| >= 1
  {
    Strings.Split(Strings.Strip(output), '\n')
  }

  /** The asset one output line contributes. */
  function LineAssets(tool: string, line: string): (r: seq<Asset>)
    ensures |r| <= 1
    ensures r != [] <==> LooksLikeHost(Strings.Strip(line))
    ensures r != [] ==> r[0] == Asset("subdomain", Strings.Strip(line), tool)
  {
    var sub := Strings.Strip(line);
    if LooksLikeHost(sub) then [Asset("subdomain", sub, tool)] else []
  }

  /** The assets of `lines`, line after line. */
  function Assets(tool: string, lines: seq<string>): seq<Asset>
  {
    if lines == [] then [] else Assets(tool, lines[..|lines| - 1]) + LineAssets(tool, lines[|lines| - 1])
  }

  /** What `parse_output` returns: always successful, assets only. */
  function Parsed(tool: string, output: string): ToolResult
  {
    ToolResult(tool, true, Assets(tool, OutputLines(output)), rawOutput := output)
  }

  /** The line loop of `parse_output` for the tool named `tool`. */
  method Parse(tool: string, output: string) returns (r: ToolResult)
    ensures r == Parsed(tool, output)
    ensures r.success && r.findings == [] && r.toolName == tool && r.rawOutput == output
  {
    var lines := OutputLines(output);
    var assets: seq<Asset> := [];
    for i := 0 to |lines|
      invariant assets == Assets(tool, lines[..i])
    {
      var sub := Strings.Strip(lines[i]);
      if sub != [] && '.' in sub {
        assets := assets + [Asset("subdomain", sub, tool)];
      }
      assert lines[..i + 1][..i] == lines[..i];
    }
    assert lines[..|lines|] == lines;
    r := ToolResult(tool, true, assets, rawOutput := output);
  }

  // ---------------------------------------------------------------------------
  // properties of the line rule

  /** At most one asset per line. */
  lemma {:induction false} AssetsBound(tool: string, lines: seq<string>)
    ensures |Assets(tool, lines)| <= |lines|
  {
    if lines != [] {
      AssetsBound(tool, lines[..|lines| - 1]);
    }
  }

  /** The asset values are the stripped lines that look like hosts, in line order:
      one asset for each such line and none for any other. */
  lemma {:induction false} AssetValuesInLineOrder(tool: string, lines: seq<string>)
    ensures Seqs.Map(Assets(tool, lines), AssetValue)
            == Seqs.Filter(Seqs.Map(lines, Strings.Strip), LooksLikeHost)
  {
    if lines != [] {
      var pre := lines[..|lines| - 1];
      var last := lines[|lines| - 1];
      AssetValuesInLineOrder(tool, pre);
      assert lines == pre + [last];
      Seqs.MapConcat(Assets(tool, pre), LineAssets(tool, last), AssetValue);
      Seqs.MapConcat(pre, [last], Strings.Strip);
      Seqs.FilterConcat(Seqs.Map(pre, Strings.Strip), Seqs.Map([last], Strings.Strip), LooksLikeHost);
      var m := Seqs.Map([last], Strings.Strip);
      assert m == [Strings.Strip(last)];
      assert m[..0] == [];
    }
  }

  function AssetValue(a: Asset): string { a.value }

  /** The asset a line gives, when it gives one. */
  predicate GivesAsset(tool: string, line: string, a: Asset)
  {
    LooksLikeHost(Strings.Strip(line)) && a == Asset("subdomain", Strings.Strip(line), tool)
  }

  /** Every asset is a `subdomain` discovered by `tool`, valued by a stripped line that
      looks like a host. */
  lemma {:induction false} AssetsFromLines(tool: string, lines: seq<string>, a: Asset)
    requires a in Assets(tool, lines)
    ensures exists i :: 0 <= i < |lines| && GivesAsset(tool, lines[i], a)
  {
    var n := |lines| - 1;
    var pre := lines[..n];
    if a in Assets(tool, pre) {
      AssetsFromLines(tool, pre, a);
      var i :| 0 <= i < |pre| && GivesAsset(tool, pre[i], a);
      assert lines[i] == pre[i];
    } else {
      assert GivesAsset(tool, lines[n], a);
    }
  }

  /** Every stripped line that looks like a host gives an asset. */
  lemma {:induction false} LinesGiveAssets(tool: string, lines: seq<string>, i: int)
    requires 0 <= i < |lines| && LooksLikeHost(Strings.Strip(lines[i]))
    ensures Asset("subdomain", Strings.Strip(lines[i]), tool) in Assets(tool, lines)
  {
    var n := |lines| - 1;
    var pre := lines[..n];
    if i < n {
      LinesGiveAssets(tool, pre, i);
      assert pre[i] == lines[i];
    } else {
      assert LineAssets(tool, lines[n]) == [Asset("subdomain", Strings.Strip(lines[i]), tool)];
    }
  }
}
