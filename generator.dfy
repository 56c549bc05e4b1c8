/** The report generator: the template context (findings grouped by severity, assets
    grouped by type), the JSON report and the choice of output path and format. Template
    rendering and file writing are outside the model; a rendered report is represented
    by the template it names and the context it is given. */
module Generator {
  import opened Outcomes
  import opened Json
  import opened Models
  import Seqs

  // ---------------------------------------------------------------------------
  // the template context

  function SeverityIs(sev: Severity): Finding -> bool
  {
    (f: Finding) => f.severity == sev
  }

  function TypeIs(t: string): Asset -> bool
  {
    (a: Asset) => a.assetType == t
  }

  /** `findings_by_severity`: one list per severity, holding that severity's findings. */
  function SeverityGroups(findings: seq<Finding>): map<Severity, seq<Finding>>
  {
    map[Critical := Seqs.Filter(findings, SeverityIs(Critical)),
        High := Seqs.Filter(findings, SeverityIs(High)),
        Medium := Seqs.Filter(findings, SeverityIs(Medium)),
        Low := Seqs.Filter(findings, SeverityIs(Low)),
        Info := Seqs.Filter(findings, SeverityIs(Info))]
  }

  function TypesOf(assets: seq<Asset>): set<string>
  {
    set a | a in assets :: a.assetType
  }

  /** `assets_by_type`: one list per asset type present, holding the assets of that type. */
  function TypeGroups(assets: seq<Asset>): map<string, seq<Asset>>
  {
    map t | t in TypesOf(assets) :: Seqs.Filter(assets, TypeIs(t))
  }

  /** What `_prepare_context` hands to the templates. `generated_at` is a clock reading
      and is left out; `duration` is the difference of two opaque timestamps. */
  datatype Context = Context(
    session: ScanSession,
    findingsBySeverity: map<Severity, seq<Finding>>,
    assetsByType: map<string, seq<Asset>>,
    duration: Option<int>)

  /** The loop over the findings: each is appended to the list of its severity. */
  method FindingsBySeverity(findings: seq<Finding>) returns (groups: map<Severity, seq<Finding>>)
    ensures groups == SeverityGroups(findings)
  {
    groups := map[Critical := [], High := [], Medium := [], Low := [], Info := []];
    for i := 0 to |findings|
      invariant groups == SeverityGroups(findings[..i])
    {
      var f := findings[i];
      SeverityGroupsStep(findings[..i], f);
      assert findings[..i + 1] == findings[..i] + [f];
      groups := groups[f.severity := groups[f.severity] + [f]];
    }
    assert findings[..|findings|] == findings;
  }

  lemma SeverityGroupsStep(s: seq<Finding>, f: Finding)
    ensures var g := SeverityGroups(s);
            f.severity in g && SeverityGroups(s + [f]) == g[f.severity := g[f.severity] + [f]]
  {
    assert (s + [f])[..|s|] == s;
    var g := SeverityGroups(s);
    var g' := SeverityGroups(s + [f]);
    var h := g[f.severity := g[f.severity] + [f]];
    assert g'.Keys == h.Keys;
    forall sev | sev in g'
      ensures g'[sev] == h[sev]
    {
      assert g'[sev] == Seqs.Filter(s + [f], SeverityIs(sev));
      assert g[sev] == Seqs.Filter(s, SeverityIs(sev));
    }
  }

  /** The loop over the assets: a list is created for a type on its first asset, and
      each asset is appended to the list of its type. */
  method AssetsByType(assets: seq<Asset>) returns (groups: map<string, seq<Asset>>)
    ensures groups == TypeGroups(assets)
  {
    groups := map[];
    for i := 0 to |assets|
      invariant groups == TypeGroups(assets[..i])
    {
      TypeGroupsStep(assets[..i], assets[i]);
      assert assets[..i + 1] == assets[..i] + [assets[i]];
      groups := AppendToGroup(groups, assets[i]);
    }
    assert assets[..|assets|] == assets;
  }

  /** One turn of that loop: the asset's type gets an empty list when it has none, and
      the asset is appended to it. */
  method AppendToGroup(groups: map<string, seq<Asset>>, a: Asset) returns (g: map<string, seq<Asset>>)
    ensures g == groups[a.assetType := (if a.assetType in groups then groups[a.assetType] else []) + [a]]
  {
    g := groups;
    if a.assetType !in g {
      g := g[a.assetType := []];
    }
    g := g[a.assetType := g[a.assetType] + [a]];
  }

  lemma TypeGroupsStep(s: seq<Asset>, a: Asset)
    ensures var g := TypeGroups(s);
            TypeGroups(s + [a]) == g[a.assetType := (if a.assetType in g then g[a.assetType] else []) + [a]]
  {
    var g := TypeGroups(s);
    var g' := TypeGroups(s + [a]);
    var h := g[a.assetType := (if a.assetType in g then g[a.assetType] else []) + [a]];
    assert (s + [a])[..|s|] == s;
    assert TypesOf(s + [a]) == TypesOf(s) + {a.assetType};
    if a.assetType !in g {
      Seqs.FilterNone(s, TypeIs(a.assetType));
    }
    assert g'.Keys == h.Keys;
    forall t | t in g'
      ensures g'[t] == h[t]
    {
      assert g'[t] == Seqs.Filter(s + [a], TypeIs(t));
    }
  }

  /** `_prepare_context(session)` */
  method PrepareContext(session: ScanSession) returns (c: Context)
    ensures c == ContextOf(session)
  {
    var bySeverity := FindingsBySeverity(session.findings);
    var byType := AssetsByType(session.assets);
    var duration := if session.completedAt.Some? then Some(session.completedAt.value - session.startedAt) else None;
    c := Context(session, bySeverity, byType, duration);
  }

  /** The context `PrepareContext` builds. */
  function ContextOf(session: ScanSession): Context
  {
    Context(
      session,
      SeverityGroups(session.findings),
      TypeGroups(session.assets),
      if session.completedAt.Some? then Some(session.completedAt.value - session.startedAt) else None)
  }

  // ---------------------------------------------------------------------------
  // properties of the grouping

  /** Every severity has a list, even an empty one, and each list holds exactly the
      findings of its severity. */
  lemma SeverityGroupsSpec(findings: seq<Finding>, sev: Severity, f: Finding)
    ensures sev in SeverityGroups(findings)
    ensures f in SeverityGroups(findings)[sev] <==> f in findings && f.severity == sev
  {
    Seqs.FilterMembership(findings, SeverityIs(sev), f);
  }

  /** Adding up the five lists gives the number of findings: every finding lands in
      exactly one list. */
  lemma {:induction false} SeverityGroupsPartition(findings: seq<Finding>)
    ensures var g := SeverityGroups(findings);
            |g[Critical]| + |g[High]| + |g[Medium]| + |g[Low]| + |g[Info]| == |findings|
  {
    if findings != [] {
      SeverityGroupsPartition(findings[..|findings| - 1]);
    }
  }

  /** The critical and high lists have the session's counter values. */
  lemma {:induction false} SeverityGroupsMatchCounters(findings: seq<Finding>)
    ensures |SeverityGroups(findings)[Critical]| == Seqs.Count(findings, IsCritical)
    ensures |SeverityGroups(findings)[High]| == Seqs.Count(findings, IsHigh)
  {
    if findings != [] {
      SeverityGroupsMatchCounters(findings[..|findings| - 1]);
    }
  }

  /** The keys are exactly the asset types present, and each list holds exactly the
      assets of its type. */
  lemma TypeGroupsSpec(assets: seq<Asset>, t: string, a: Asset)
    ensures t in TypeGroups(assets) <==> exists i :: 0 <= i < |assets| && assets[i].assetType == t
    ensures t in TypeGroups(assets) ==> (a in TypeGroups(assets)[t] <==> a in assets && a.assetType == t)
  {
    if exists i :: 0 <= i < |assets| && assets[i].assetType == t {
      var i :| 0 <= i < |assets| && assets[i].assetType == t;
      assert assets[i] in assets;
    }
    Seqs.FilterMembership(assets, TypeIs(t), a);
  }

  // ---------------------------------------------------------------------------
  // the JSON report

  /** How the model renders what it keeps opaque: ISO timestamps, a metadata dict as a
      JSON object (in its insertion order), and `json.dumps(..., indent=2)`. */
  datatype Env = Env(
    reportsDir: string,
    timestamp: string,
    iso: int -> string,
    metadata: map<string, Json> -> Json,
    dumps: Json -> string)

  function AssetJson(env: Env, a: Asset): Json
  {
    JObj([
      ("type", JStr(a.assetType)),
      ("value", JStr(a.value)),
      ("discovered_by", JStr(a.discoveredBy)),
      ("score", JInt(a.score)),
      ("metadata", env.metadata(a.metadata))])
  }

  function FindingJson(env: Env, f: Finding): Json
  {
    JObj([
      ("severity", JStr(f.severity.Value())),
      ("title", JStr(f.title)),
      ("host", JStr(f.host)),
      ("description", JStr(f.description)),
      ("discovered_by", JStr(f.discoveredBy)),
      ("evidence", if f.evidence.Some? then JStr(f.evidence.value) else JNull),
      ("recommendations", JArr(Seqs.Map(f.recommendations, (r: string) => JStr(r)))),
      ("metadata", env.metadata(f.metadata))])
  }

  function AssetFn(env: Env): Asset -> Json { (a: Asset) => AssetJson(env, a) }

  function FindingFn(env: Env): Finding -> Json { (f: Finding) => FindingJson(env, f) }

  /** The `statistics` object. */
  function Statistics(session: ScanSession): Json
  {
    JObj([
      ("total_assets", JInt(|session.assets|)),
      ("total_findings", JInt(|session.findings|)),
      ("critical", JInt(session.CriticalCount())),
      ("high", JInt(session.HighCount()))])
  }

  /** The data `_generate_json` serialises. */
  function JsonReport(env: Env, sessionId: string, session: ScanSession): (r: Json)
    ensures r.JObj? && |r.members| == 7
    ensures r.members[0] == ("session_id", JStr(sessionId)) && r.members[1] == ("target", JStr(session.target))
    ensures r.members[2].0 == "started_at" && r.members[3].0 == "completed_at" && r.members[4].0 == "statistics"
    ensures r.members[5].0 == "assets" && r.members[6].0 == "findings"
    ensures r.members[3].1 == JNull <==> session.completedAt.None?
  {
    JObj([
      ("session_id", JStr(sessionId)),
      ("target", JStr(session.target)),
      ("started_at", JStr(env.iso(session.startedAt))),
      ("completed_at", if session.completedAt.Some? then JStr(env.iso(session.completedAt.value)) else JNull),
      ("statistics", Statistics(session)),
      ("assets", JArr(Seqs.Map(session.assets, AssetFn(env)))),
      ("findings", JArr(Seqs.Map(session.findings, FindingFn(env))))])
  }

  /** The value of the first member named `key`. */
  lemma LookupAt(members: seq<(string, Json)>, i: nat, key: string)
    requires i < |members| && members[i].0 == key
    requires forall j :: 0 <= j < i ==> members[j].0 != key
    ensures Lookup(members, key) == Some(members[i].1)
  {
    if i > 0 {
      LookupAt(members[1..], i - 1, key);
    }
  }

  /** The statistics count the session's assets and findings and agree with its
      critical and high counters. */
  lemma StatisticsCounts(session: ScanSession)
    ensures var stats := Statistics(session).members;
            Lookup(stats, "total_assets") == Some(JInt(|session.assets|))
            && Lookup(stats, "total_findings") == Some(JInt(|session.findings|))
            && Lookup(stats, "critical") == Some(JInt(Seqs.Count(session.findings, IsCritical)))
            && Lookup(stats, "high") == Some(JInt(Seqs.Count(session.findings, IsHigh)))
  {
    var stats := Statistics(session).members;
    LookupAt(stats, 1, "total_findings");
    LookupAt(stats, 2, "critical");
    LookupAt(stats, 3, "high");
  }

  /** The report carries the statistics object. */
  lemma ReportStatistics(env: Env, sessionId: string, session: ScanSession)
    ensures Lookup(JsonReport(env, sessionId, session).members, "statistics") == Some(Statistics(session))
  {
    LookupAt(JsonReport(env, sessionId, session).members, 4, "statistics");
  }

  /** The assets array lists the session's assets one for one, in session order. */
  lemma ReportAssets(env: Env, sessionId: string, session: ScanSession)
    ensures Lookup(JsonReport(env, sessionId, session).members, "assets") == Some(JArr(Seqs.Map(session.assets, AssetFn(env))))
  {
    LookupAt(JsonReport(env, sessionId, session).members, 5, "assets");
  }

  /** The findings array lists the session's findings one for one, in session order. */
  lemma ReportFindings(env: Env, sessionId: string, session: ScanSession)
    ensures Lookup(JsonReport(env, sessionId, session).members, "findings") == Some(JArr(Seqs.Map(session.findings, FindingFn(env))))
  {
    LookupAt(JsonReport(env, sessionId, session).members, 6, "findings");
  }

  /** An asset's JSON entry carries its type and value; a finding's, its severity
      name and title. */
  lemma EntryFields(env: Env, a: Asset, f: Finding)
    ensures Lookup(AssetJson(env, a).members, "type") == Some(JStr(a.assetType))
    ensures Lookup(AssetJson(env, a).members, "value") == Some(JStr(a.value))
    ensures Lookup(FindingJson(env, f).members, "severity") == Some(JStr(f.severity.Value()))
    ensures Lookup(FindingJson(env, f).members, "title") == Some(JStr(f.title))
  {
    LookupAt(AssetJson(env, a).members, 1, "value");
    LookupAt(FindingJson(env, f).members, 1, "title");
  }

  // ---------------------------------------------------------------------------
  // generate

  datatype Format = Html | Markdown | JsonFormat

  /** The formats `generate` accepts. */
  function ParseFormat(format: string): (r: Option<Format>)
    ensures r.Some? <==> format in {"html", "md", "json"}
  {
    if format == "html" then Some(Html)
    else if format == "md" then Some(Markdown)
    else if format == "json" then Some(JsonFormat)
    else None
  }

  /** What is written: a template rendered over the context, or the JSON text. */
  datatype Content = Rendered(template: string, context: Context) | Text(text: string)

  datatype Report = Report(path: string, content: Content)

  /** An explicit, non-empty output file is used as given; otherwise the report is
      `report_<target>_<timestamp>.<format>` in the reports directory. */
  function OutputPath(env: Env, target: string, format: string, outputFile: Option<string>): (p: string)
    ensures outputFile.Some? && outputFile.value != [] ==> p == outputFile.value
    ensures outputFile.None? || outputFile.value == [] ==>
              var dir := env.reportsDir + "/report_" + target;
              var ext := "." + format;
              |p| >= |dir| + |ext| && p[..|dir|] == dir && p[|p| - |ext|..] == ext
  {
    if outputFile.Some? && outputFile.value != [] then outputFile.value
    else env.reportsDir + "/" + "report_" + target + "_" + env.timestamp + "." + format
  }

  /** `generate(session_id, format, output_file)`, with the session as the database
      returned it. A missing session and an unknown format raise `ValueError`.
      `openError(path)` is the exception `open(path, "w")` raises, if any: which
      directories exist is the file system's, so it is a parameter. */
  method Generate(env: Env, sessionId: string, session: Option<ScanSession>, format: string, outputFile: Option<string>,
                  openError: string -> Option<string>)
    returns (r: Outcome<Report>)
    ensures session.None? ==> r == Raised("ValueError")
    ensures session.Some? && ParseFormat(format).None? ==> r == Raised("ValueError")
    ensures session.Some? && ParseFormat(format).Some? ==>
              var path := OutputPath(env, session.value.target, format, outputFile);
              if openError(path).Some? then r == Raised(openError(path).value)
              else r.Done? && r.value.path == path
    ensures session.Some? && ParseFormat(format) == Some(Html) && r.Done? ==>
              r == Done(Report(r.value.path, Rendered("report.html.j2", ContextOf(session.value))))
    ensures session.Some? && ParseFormat(format) == Some(Markdown) && r.Done? ==>
              r == Done(Report(r.value.path, Rendered("report.md.j2", ContextOf(session.value))))
    ensures session.Some? && ParseFormat(format) == Some(JsonFormat) && r.Done? ==>
              r == Done(Report(r.value.path, Text(env.dumps(JsonReport(env, sessionId, session.value)))))
  {
    if session.None? {
      return Raised("ValueError");
    }
    var s := session.value;
    var path := OutputPath(env, s.target, format, outputFile);
    var content: Content;
    if format == "html" {
      var c := PrepareContext(s);
      content := Rendered("report.html.j2", c);
    } else if format == "md" {
      var c := PrepareContext(s);
      content := Rendered("report.md.j2", c);
    } else if format == "json" {
      content := Text(env.dumps(JsonReport(env, sessionId, s)));
    } else {
      return Raised("ValueError");
    }
    if openError(path).Some? {
      return Raised(openError(path).value);
    }
    r := Done(Report(path, content));
  }

  /** A target holding a `/`, as every URL target does, puts a `/` inside the default
      file name: the report then lies in a directory `report_<...>` below the reports
      directory, which `generate` does not create, so `open` fails there. */
  lemma SlashTargetNestsTheReport(env: Env, target: string, format: string, k: nat)
    requires k < |target| && target[k] == '/'
    ensures var p := OutputPath(env, target, format, None);
            var at := |env.reportsDir| + |"/report_"| + k;
            at < |p| && p[at] == '/' && p[..|env.reportsDir| + 1] == env.reportsDir + "/"
  {
    var p := OutputPath(env, target, format, None);
    var dir := env.reportsDir + "/report_" + target;
    assert p[..|dir|] == dir;
    assert dir[|env.reportsDir| + |"/report_"| + k] == target[k];
    assert p[..|env.reportsDir| + 1] == dir[..|env.reportsDir| + 1];
  }
}
