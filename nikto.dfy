/** The nikto adapter: one finding per `+` line of the report, with a severity guessed
    from its wording and the OSVDB reference it cites. */
module Nikto {
  import opened Outcomes
  import opened Json
  import opened Models
  import opened Base
  import Strings
  import Patterns

  const Config := ToolConfig("nikto", "nikto", Vulnerability, "Web server scanner",
                             timeout := 600, produces := ["vulnerability"], consumes := ["http_service"])

  /** `nikto -h <target> -nointeractive` */
  function BuildCommand(target: string): (argv: seq<string>)
    ensures |argv| == 4 && argv[0] == Config.binary && argv[1] == "-h" && argv[2] == target && argv[3] == "-nointeractive"
  {
    ["nikto", "-h", target, "-nointeractive"]
  }

  /** The scanned host: the first `Target:` value, stripped, `unknown` without one. */
  function TargetHost(output: string): string
  {
    match Patterns.LabelValue(output, "Target:")
    case None => "unknown"
    case Some(g) => Strings.Strip(g)
  }

  const HighWords: seq<string> := ["vulnerable", "exploit", "exposed"]
  const MediumWords: seq<string> := ["outdated", "deprecated", "old"]
  const LowWords: seq<string> := ["missing", "weak"]

  /** The keyword severity of a report item, the first matching group winning. */
  function SeverityOf(item: string): Severity
  {
    var lowered := Strings.Lower(item);
    if Strings.ContainsAny(lowered, HighWords) then High
    else if Strings.ContainsAny(lowered, MediumWords) then Medium
    else if Strings.ContainsAny(lowered, LowWords) then Low
    else Info
  }

  /** `{"osvdb": <digits>}` when the item cites an OSVDB entry, else `{}`. */
  function OsvdbMetadata(item: string): map<string, Json>
  {
    match Patterns.SearchOsvdb(item, 0)
    case None => map[]
    case Some(id) => map["osvdb" := JStr(id)]
  }

  predicate IsItemLine(line: string)
  {
    Strings.StartsWith(Strings.Strip(line), "+")
  }

  /** The text of a report line after its `+`, stripped. */
  function Item(line: string): string
    requires IsItemLine(line)
  {
    Strings.Strip(Strings.Strip(line)[1..])
  }

  function ItemFinding(host: string, item: string): Finding
  {
    Finding(SeverityOf(item), "Nikto Finding", host, item, "nikto", evidence := Some(item),
            metadata := OsvdbMetadata(item))
  }

  /** What one line gives: a finding for a `+` line whose text is longer than ten
      characters. */
  function LineFindings(host: string, line: string): seq<Finding>
  {
    if IsItemLine(line) && |Item(line)| > 10 then [ItemFinding(host, Item(line))] else []
  }

  function Findings(host: string, lines: seq<string>): seq<Finding>
  {
    if lines == [] then [] else Findings(host, lines[..|lines| - 1]) + LineFindings(host, lines[|lines| - 1])
  }

  function Parsed(output: string): ToolResult
  {
    ToolResult("nikto", true, findings := Findings(TargetHost(output), Strings.Split(output, '\n')), rawOutput := output)
  }

  /** The line loop of `parse_output`. */
  method ParseOutput(output: string) returns (r: ToolResult)
    ensures r == Parsed(output)
  {
    var host := TargetHost(output);
    var lines := Strings.Split(output, '\n');
    var findings: seq<Finding> := [];
    for i := 0 to |lines|
      invariant findings == Findings(host, lines[..i])
    {
      assert lines[..i + 1][..i] == lines[..i];
      var stripped := Strings.Strip(lines[i]);
      if Strings.StartsWith(stripped, "+") {
        var item := Strings.Strip(stripped[1..]);
        if |item| > 10 {
          findings := findings + [ItemFinding(host, item)];
        }
      }
    }
    assert lines[..|lines|] == lines;
    r := ToolResult("nikto", true, findings := findings, rawOutput := output);
  }

  // ---------------------------------------------------------------------------
  // properties

  /** An item naming a vulnerability is high whatever else it says; one that only
      mentions a missing or weak setting is low. */
  lemma SeverityPrecedence(item: string)
    ensures Strings.ContainsAny(Strings.Lower(item), HighWords) ==> SeverityOf(item) == High
    ensures (!Strings.ContainsAny(Strings.Lower(item), HighWords) && !Strings.ContainsAny(Strings.Lower(item), MediumWords)
             && Strings.ContainsAny(Strings.Lower(item), LowWords)) ==> SeverityOf(item) == Low
    ensures SeverityOf(item) == Info <==>
              !Strings.ContainsAny(Strings.Lower(item), HighWords + MediumWords + LowWords)
  {
    var l := Strings.Lower(item);
    if Strings.ContainsAny(l, HighWords + MediumWords + LowWords) {
      var k :| k in HighWords + MediumWords + LowWords && Strings.Contains(l, k);
    }
    if Strings.ContainsAny(l, HighWords) {
      var k :| k in HighWords && Strings.Contains(l, k);
      assert k in HighWords + MediumWords + LowWords;
    }
    if Strings.ContainsAny(l, MediumWords) {
      var k :| k in MediumWords && Strings.Contains(l, k);
      assert k in HighWords + MediumWords + LowWords;
    }
    if Strings.ContainsAny(l, LowWords) {
      var k :| k in LowWords && Strings.Contains(l, k);
      assert k in HighWords + MediumWords + LowWords;
    }
  }

  /** A cited OSVDB entry is kept as its digits, the only metadata. */
  lemma OsvdbKept(item: string)
    ensures var m := OsvdbMetadata(item);
            (m == map[] <==> Patterns.SearchOsvdb(item, 0).None?)
            && ("osvdb" in m ==> m["osvdb"].JStr? && Strings.IsDigits(m["osvdb"].s))
  {
  }

  /** Every finding is a `+` item of more than ten characters, filed under the target,
      with the item as both description and evidence. */
  lemma {:induction false} FindingsAreItems(host: string, lines: seq<string>)
    ensures |Findings(host, lines)| <= |lines|
    ensures forall f :: f in Findings(host, lines) ==>
              f.host == host && f.title == "Nikto Finding" && |f.description| > 10 && f.evidence == Some(f.description)
  {
    if lines != [] {
      FindingsAreItems(host, lines[..|lines| - 1]);
    }
  }

  /** A `+` line with a long enough item gives exactly its finding. */
  lemma ItemLineGivesFinding(host: string, line: string)
    requires IsItemLine(line) && |Item(line)| > 10
    ensures LineFindings(host, line) == [Finding(SeverityOf(Item(line)), "Nikto Finding", host, Item(line), "nikto",
                                                 evidence := Some(Item(line)), metadata := OsvdbMetadata(Item(line)))]
  {
  }
}
