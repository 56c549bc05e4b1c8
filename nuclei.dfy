/** The nuclei adapter: one finding per reported template match. `json.dumps(data,
    indent=2)`, the evidence, is the parameter `dumps`. */
module Nuclei {
  import opened Outcomes
  import opened Json
  import opened Models
  import opened Base
  import Strings

  const Config := ToolConfig("nuclei", "nuclei", Vulnerability, "Vulnerability scanner",
                             timeout := 600, produces := ["vulnerability"], consumes := ["http_service"])

  /** `nuclei -u <target> -json -silent` */
  function BuildCommand(target: string): (argv: seq<string>)
    ensures |argv| == 5 && argv[0] == Config.binary && argv[1] == "-u" && argv[2] == target
    ensures argv[3..] == ["-json", "-silent"]
  {
    ["nuclei", "-u", target, "-json", "-silent"]
  }

  /** The severity map: the five severity names, anything else informational. */
  function SeverityOf(s: string): Severity
  {
    if s == "critical" then Critical
    else if s == "high" then High
    else if s == "medium" then Medium
    else if s == "low" then Low
    else Info
  }

  const Recommendations: seq<string> :=
    ["Review the vulnerability details", "Apply patches or mitigations", "Verify the finding manually"]

  /** The finding of one decoded record: a record that is not an object raises
      before anything is read; a finding made is the scanner's, with the record as its
      evidence, the fixed recommendations and the template id in its metadata. */
  function RecordFinding(dumps: Json -> string, data: Json): (r: Outcome<Finding>)
    ensures !data.JObj? ==> r == Raised("AttributeError")
    ensures r.Done? ==>
              r.value.discoveredBy == Config.name && r.value.evidence == Some(dumps(data))
              && r.value.recommendations == Recommendations
              && r.value.metadata == map["template_id" := Lookup(data.members, "template-id").GetOr(JStr(""))]
  {
    // Once the first `.get` on a dictionary has succeeded, the later ones on it
    // cannot fail, so they are plain lookups.
    var info :- Get(data, "info", JObj([]));
    var templateId := Lookup(data.members, "template-id").GetOr(JStr(""));
    var matchedAt := Lookup(data.members, "matched-at").GetOr(JStr(""));
    var severityField :- Get(info, "severity", JStr("info"));
    var severity :- LowerOf(severityField);
    var name := Lookup(info.members, "name").GetOr(templateId);
    var description := Lookup(info.members, "description").GetOr(JStr(""));
    Done(Finding(SeverityOf(severity), Str(name), Str(matchedAt),
                 if Truthy(description) then Str(description) else "Nuclei template: " + Str(templateId),
                 "nuclei", evidence := Some(dumps(data)), recommendations := Recommendations,
                 metadata := map["template_id" := templateId]))
  }

  /** What one line gives; empty and undecodable lines give nothing. */
  function LineFindings(decode: string -> Option<Json>, dumps: Json -> string, line: string): Outcome<seq<Finding>>
  {
    if line == [] then Done([])
    else
      match decode(line)
      case None => Done([])
      case Some(data) =>
        var f :- RecordFinding(dumps, data);
        Done([f])
  }

  function LineFn(decode: string -> Option<Json>, dumps: Json -> string): string -> Outcome<seq<Finding>>
  {
    line => LineFindings(decode, dumps, line)
  }

  function Lines(output: string): seq<string>
  {
    Strings.Split(Strings.Strip(output), '\n')
  }

  function Parsed(decode: string -> Option<Json>, dumps: Json -> string, output: string): Outcome<ToolResult>
  {
    var findings :- Collect(Lines(output), LineFn(decode, dumps));
    Done(ToolResult("nuclei", true, findings := findings, rawOutput := output))
  }

  /** The line loop of `parse_output`. */
  method ParseOutput(decode: string -> Option<Json>, dumps: Json -> string, output: string) returns (r: Outcome<ToolResult>)
    ensures r == Parsed(decode, dumps, output)
  {
    var lines := Lines(output);
    var findings: seq<Finding> := [];
    for i := 0 to |lines|
      invariant Collect(lines[..i], LineFn(decode, dumps)) == Done(findings)
    {
      var here := LineFindings(decode, dumps, lines[i]);
      CollectStep(lines, i, LineFn(decode, dumps), findings);
      if here.Raised? {
        CollectRaisedStays(lines, i + 1, LineFn(decode, dumps));
        return Raised(here.exception);
      }
      findings := findings + here.value;
    }
    assert lines[..|lines|] == lines;
    r := Done(ToolResult("nuclei", true, findings := findings, rawOutput := output));
  }

  /** Partial output is parsed like the whole output. */
  method ParsePartial(decode: string -> Option<Json>, dumps: Json -> string, output: string) returns (r: Outcome<ToolResult>)
    ensures r == Parsed(decode, dumps, output)
  {
    r := ParseOutput(decode, dumps, output);
  }

  // ---------------------------------------------------------------------------
  // properties

  /** Each severity's own name maps back to it. */
  lemma SeverityNamesRoundTrip(sev: Severity)
    ensures SeverityOf(sev.Value()) == sev
  {
  }

  /** A name that is none of the five severities' is informational. */
  lemma UnknownSeverityIsInfo(s: string)
    requires forall sev: Severity :: sev.Value() != s
    ensures SeverityOf(s) == Info
  {
    assert Critical.Value() != s && High.Value() != s && Medium.Value() != s && Low.Value() != s;
  }

  /** A record whose `info` is an object with a string severity gives one finding: its
      severity read case-insensitively, titled by the template name (the template id
      without one), at the matched location, described by the template description or
      else by the id, with the record as evidence. */
  lemma RecordGivesFinding(dumps: Json -> string, data: Json)
    requires data.JObj?
    requires var info := Lookup(data.members, "info").GetOr(JObj([]));
             info.JObj? && Lookup(info.members, "severity").GetOr(JStr("info")).JStr?
    ensures var info := Lookup(data.members, "info").GetOr(JObj([]));
            var id := Lookup(data.members, "template-id").GetOr(JStr(""));
            var description := Lookup(info.members, "description").GetOr(JStr(""));
            var r := RecordFinding(dumps, data);
            r.Done?
            && r.value.severity == SeverityOf(Strings.Lower(Lookup(info.members, "severity").GetOr(JStr("info")).s))
            && r.value.title == Str(Lookup(info.members, "name").GetOr(id))
            && r.value.host == Str(Lookup(data.members, "matched-at").GetOr(JStr("")))
            && r.value.description == (if Truthy(description) then Str(description) else "Nuclei template: " + Str(id))
            && r.value.evidence == Some(dumps(data))
            && r.value.metadata == map["template_id" := id]
            && r.value.discoveredBy == "nuclei" && |r.value.recommendations| == 3
  {
  }

  /** A record that is not an object raises instead of being skipped. */
  lemma NonObjectRecordRaises(dumps: Json -> string, data: Json)
    requires !data.JObj?
    ensures RecordFinding(dumps, data) == Raised("AttributeError")
  {
  }

  /** A completed parse has at most one finding per line, each from a line of the
      output, and no assets. */
  lemma {:induction false} ParsedFindings(decode: string -> Option<Json>, dumps: Json -> string, lines: seq<string>)
    requires Collect(lines, LineFn(decode, dumps)).Done?
    ensures |Collect(lines, LineFn(decode, dumps)).value| <= |lines|
    ensures forall f :: f in Collect(lines, LineFn(decode, dumps)).value ==> f.discoveredBy == "nuclei"
  {
    if lines != [] {
      ParsedFindings(decode, dumps, lines[..|lines| - 1]);
    }
  }
}
