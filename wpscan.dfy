/** The wpscan adapter: the WordPress version as a `technology` asset, a finding for an
    insecure version, and one finding per known vulnerability of each plugin and theme.
    The whole output is one JSON document; `json.dumps(vuln, indent=2)`, the evidence,
    is the parameter `dumps`. */
module Wpscan {
  import opened Outcomes
  import opened Json
  import opened Models
  import opened Base

  const Config := ToolConfig("wpscan", "wpscan", Vulnerability, "WordPress vulnerability scanner",
                             timeout := 600, produces := ["vulnerability"], consumes := ["http_service"])

  /** `wpscan --url <target> --format json --random-user-agent` */
  function BuildCommand(target: string): (argv: seq<string>)
    ensures |argv| == 6 && argv[0] == Config.binary && argv[1] == "--url" && argv[2] == target
    ensures argv[3..] == ["--format", "json", "--random-user-agent"]
  {
    ["wpscan", "--url", target, "--format", "json", "--random-user-agent"]
  }

  /** The two kinds of component whose vulnerabilities are reported. */
  datatype Component = Plugin | Theme
  {
    /** The key of the report's section for this kind. */
    function Key(): string
    {
      match this
      case Plugin => "plugins"
      case Theme => "themes"
    }

    function VulnSeverity(): Severity
    {
      match this
      case Plugin => High
      case Theme => Medium
    }

    function DefaultTitle(): string
    {
      match this
      case Plugin => "WordPress Plugin Vulnerability"
      case Theme => "WordPress Theme Vulnerability"
    }

    function Noun(): string
    {
      match this
      case Plugin => "Plugin"
      case Theme => "Theme"
    }

    function Recommendations(name: string): seq<string>
    {
      match this
      case Plugin => ["Update or remove plugin: " + name, "Review plugin security advisory"]
      case Theme => ["Update or change theme: " + name, "Review theme security advisory"]
    }
  }

  /** The version asset and the insecure-version finding. A truthy version is read as
      an object; `number` and `status` are read before either is reported. */
  function VersionFound(target: Json, version: Json): Outcome<Found>
  {
    if !Truthy(version) then Done(Found([], []))
    else
      var number :- Get(version, "number", JStr(""));
      var status :- Get(version, "status", JNull);
      Done(Found(if Truthy(number) then [Asset("technology", "WordPress " + Str(number), "wpscan", map["version" := number])] else [],
                 if status == JStr("insecure") then [OutdatedFinding(target, number)] else []))
  }

  function OutdatedFinding(target: Json, number: Json): Finding
  {
    Finding(High, "Outdated WordPress Version", Str(target), "WordPress version " + Str(number) + " is outdated", "wpscan",
            recommendations := ["Update WordPress to the latest version"])
  }

  /** The finding of one vulnerability of component `name`. */
  function VulnFindings(kind: Component, dumps: Json -> string, target: Json, name: string, vuln: Json): Outcome<seq<Finding>>
  {
    var title :- Get(vuln, "title", JStr(kind.DefaultTitle()));
    Done([Finding(kind.VulnSeverity(), Str(title), Str(target), kind.Noun() + " " + name + ": " + Str(title), "wpscan",
                  evidence := Some(dumps(vuln)), recommendations := kind.Recommendations(name))])
  }

  function VulnFn(kind: Component, dumps: Json -> string, target: Json, name: string): Json -> Outcome<seq<Finding>>
  {
    vuln => VulnFindings(kind, dumps, target, name, vuln)
  }

  /** The findings of one component: one per entry of its `vulnerabilities`. */
  function ComponentFindings(kind: Component, dumps: Json -> string, target: Json, component: (string, Json)): Outcome<seq<Finding>>
  {
    var vulns :- Get(component.1, "vulnerabilities", JArr([]));
    var entries :- Iter(vulns);
    Collect(entries, VulnFn(kind, dumps, target, component.0))
  }

  function ComponentFn(kind: Component, dumps: Json -> string, target: Json): ((string, Json)) -> Outcome<seq<Finding>>
  {
    component => ComponentFindings(kind, dumps, target, component)
  }

  /** The findings of a whole section, component by component. */
  function SectionFindings(kind: Component, dumps: Json -> string, target: Json, data: Json): Outcome<seq<Finding>>
  {
    var section :- Get(data, kind.Key(), JObj([]));
    var components :- Items(section);
    Collect(components, ComponentFn(kind, dumps, target))
  }

  /** What the decoded report gives: the version's asset and finding, then the plugin
      findings, then the theme findings. */
  function ReportFound(dumps: Json -> string, data: Json): Outcome<Found>
  {
    var target :- Get(data, "target_url", JStr("unknown"));
    var version :- Get(data, "version", JObj([]));
    var v :- VersionFound(target, version);
    var plugins :- SectionFindings(Plugin, dumps, target, data);
    var themes :- SectionFindings(Theme, dumps, target, data);
    Done(Found(v.assets, v.findings + plugins + themes))
  }

  /** An output that does not decode gives an empty result. */
  function Parsed(decode: string -> Option<Json>, dumps: Json -> string, output: string): Outcome<ToolResult>
  {
    match decode(output)
    case None => Done(ToolResult("wpscan", true, rawOutput := output))
    case Some(data) =>
      var found :- ReportFound(dumps, data);
      Done(ToolResult("wpscan", true, found.assets, found.findings, rawOutput := output))
  }

  method ParseOutput(decode: string -> Option<Json>, dumps: Json -> string, output: string) returns (r: Outcome<ToolResult>)
    ensures r == Parsed(decode, dumps, output)
  {
    var decoded := decode(output);
    if decoded.None? {
      return Done(ToolResult("wpscan", true, rawOutput := output));
    }
    var data := decoded.value;
    var target :- Get(data, "target_url", JStr("unknown"));
    var version := Get(data, "version", JObj([])).value;
    var v :- VersionFound(target, version);
    var plugins :- ParseSection(Plugin, dumps, target, data);
    var themes :- ParseSection(Theme, dumps, target, data);
    r := Done(ToolResult("wpscan", true, v.assets, v.findings + plugins + themes, rawOutput := output));
  }

  /** The component loop of one section. */
  method ParseSection(kind: Component, dumps: Json -> string, target: Json, data: Json) returns (r: Outcome<seq<Finding>>)
    ensures r == SectionFindings(kind, dumps, target, data)
  {
    var section :- Get(data, kind.Key(), JObj([]));
    var components :- Items(section);
    var findings: seq<Finding> := [];
    for i := 0 to |components|
      invariant Collect(components[..i], ComponentFn(kind, dumps, target)) == Done(findings)
    {
      var here := ParseComponent(kind, dumps, target, components[i]);
      CollectStep(components, i, ComponentFn(kind, dumps, target), findings);
      if here.Raised? {
        CollectRaisedStays(components, i + 1, ComponentFn(kind, dumps, target));
        return Raised(here.exception);
      }
      findings := findings + here.value;
    }
    assert components[..|components|] == components;
    r := Done(findings);
  }

  /** The vulnerability loop of one component. */
  method ParseComponent(kind: Component, dumps: Json -> string, target: Json, component: (string, Json)) returns (r: Outcome<seq<Finding>>)
    ensures r == ComponentFindings(kind, dumps, target, component)
  {
    var vulns :- Get(component.1, "vulnerabilities", JArr([]));
    var entries :- Iter(vulns);
    var findings: seq<Finding> := [];
    for j := 0 to |entries|
      invariant Collect(entries[..j], VulnFn(kind, dumps, target, component.0)) == Done(findings)
    {
      var here := VulnFindings(kind, dumps, target, component.0, entries[j]);
      CollectStep(entries, j, VulnFn(kind, dumps, target, component.0), findings);
      if here.Raised? {
        CollectRaisedStays(entries, j + 1, VulnFn(kind, dumps, target, component.0));
        return Raised(here.exception);
      }
      findings := findings + here.value;
    }
    assert entries[..|entries|] == entries;
    r := Done(findings);
  }

  // ---------------------------------------------------------------------------
  // properties

  /** An output that is not JSON gives a successful, empty result. */
  lemma UndecodableOutput(decode: string -> Option<Json>, dumps: Json -> string, output: string)
    requires decode(output).None?
    ensures Parsed(decode, dumps, output) == Done(ToolResult("wpscan", true, [], [], output))
  {
  }

  /** An object version gives the `WordPress <number>` asset exactly when the number is
      truthy, and the high outdated-version finding exactly when its status is
      `insecure`. */
  lemma VersionReport(target: Json, ms: seq<(string, Json)>)
    requires ms != []
    ensures var number := Lookup(ms, "number").GetOr(JStr(""));
            var r := VersionFound(target, JObj(ms));
            r.Done?
            && (r.value.assets != [] <==> Truthy(number))
            && (r.value.assets != [] ==> r.value.assets == [Asset("technology", "WordPress " + Str(number), "wpscan", map["version" := number])])
            && (r.value.findings != [] <==> Lookup(ms, "status") == Some(JStr("insecure")))
            && (forall f :: f in r.value.findings ==> f.severity == High && f.host == Str(target))
  {
  }

  /** A vulnerability gives one finding of its component kind's severity, titled by its
      `title` or the kind's default, and naming the component. */
  lemma VulnReport(kind: Component, dumps: Json -> string, target: Json, name: string, ms: seq<(string, Json)>)
    ensures var title := Lookup(ms, "title").GetOr(JStr(kind.DefaultTitle()));
            VulnFindings(kind, dumps, target, name, JObj(ms))
            == Done([Finding(kind.VulnSeverity(), Str(title), Str(target), kind.Noun() + " " + name + ": " + Str(title), "wpscan",
                             evidence := Some(dumps(JObj(ms))), recommendations := kind.Recommendations(name))])
  {
  }

  /** Every finding of a component has its kind's severity. */
  lemma ComponentSeverity(kind: Component, dumps: Json -> string, target: Json, c: (string, Json), f: Finding)
    requires ComponentFindings(kind, dumps, target, c).Done?
    requires f in ComponentFindings(kind, dumps, target, c).value
    ensures f.severity == kind.VulnSeverity() && f.host == Str(target) && f.discoveredBy == "wpscan"
  {
    var entries := Iter(Get(c.1, "vulnerabilities", JArr([])).value).value;
    CollectDone(entries, VulnFn(kind, dumps, target, c.0), f);
  }

  /** Every finding of a section has the section's severity: high for plugins, medium
      for themes. */
  lemma SectionSeverity(kind: Component, dumps: Json -> string, target: Json, data: Json, f: Finding)
    requires SectionFindings(kind, dumps, target, data).Done?
    requires f in SectionFindings(kind, dumps, target, data).value
    ensures f.severity == kind.VulnSeverity() && f.host == Str(target) && f.discoveredBy == "wpscan"
  {
    var components := Items(Get(data, kind.Key(), JObj([])).value).value;
    CollectDone(components, ComponentFn(kind, dumps, target), f);
    var i :| 0 <= i < |components| && f in ComponentFn(kind, dumps, target)(components[i]).value;
    ComponentSeverity(kind, dumps, target, components[i], f);
  }

  /** A section entry that is not an object raises out of the parse. */
  lemma NonObjectComponentRaises(kind: Component, dumps: Json -> string, target: Json, component: (string, Json))
    requires !component.1.JObj?
    ensures ComponentFindings(kind, dumps, target, component) == Raised("AttributeError")
  {
  }
}
