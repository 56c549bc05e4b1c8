/** The httpx adapter: one `http_service` asset per probed URL, and findings for
    protected resources and sensitive page titles. */
module Httpx {
  import opened Outcomes
  import opened Json
  import opened Models
  import opened Base
  import Strings
  import Rules

  const Config := ToolConfig("httpx", "httpx", WebProbe, "HTTP probe tool",
                             produces := ["http_service"], consumes := ["domain", "subdomain", "ip"])

  /** `httpx -silent -json -status-code -tech-detect -title -host <target>` */
  function BuildCommand(target: string): (argv: seq<string>)
    ensures |argv| == 8 && argv[0] == Config.binary && argv[7] == target
    ensures argv[1..7] == ["-silent", "-json", "-status-code", "-tech-detect", "-title", "-host"]
  {
    ["httpx", "-silent", "-json", "-status-code", "-tech-detect", "-title", "-host", target]
  }

  const SensitiveKeywords: seq<string> := ["admin", "login", "dashboard", "panel", "console"]

  /** `status_code in [401, 403]` */
  predicate IsProtected(status: Json)
  {
    status == JInt(401) || status == JInt(403)
  }

  function ProtectedFinding(url: Json, status: Json, title: Json): Finding
  {
    Finding(Medium, "Protected Resource (" + Str(status) + ")", Str(url),
            "Found protected resource with status " + Str(status), "httpx",
            evidence := Some("Status: " + Str(status) + ", Title: " + Str(title)))
  }

  function SensitiveFinding(url: Json, title: Json): Finding
  {
    Finding(Medium, "Sensitive Page Detected", Str(url), "Found potentially sensitive page: " + Str(title),
            "httpx", evidence := Some("Title: " + Str(title)))
  }

  function ServiceAsset(url: Json, status: Json, title: Json, tech: Json): Asset
  {
    Asset("http_service", Str(url), "httpx", map["status_code" := status, "title" := title, "technologies" := tech])
  }

  /** What a decoded line gives: its four fields, read with their defaults (raising
      when the line is not an object), then what those fields give. */
  function DataFound(data: Json): Outcome<Found>
  {
    var url :- Get(data, "url", JStr(""));
    var status :- Get(data, "status_code", JInt(0));
    var title :- Get(data, "title", JStr(""));
    var tech :- Get(data, "tech", JArr([]));
    FieldsFound(url, status, title, tech)
  }

  /** The title is lowercased only for a record with a URL, and raises when it is not
      a string. */
  function FieldsFound(url: Json, status: Json, title: Json, tech: Json): Outcome<Found>
  {
    if !Truthy(url) then Done(Found([], []))
    else
      var lowered :- LowerOf(title);
      Done(Found([ServiceAsset(url, status, title, tech)],
                 (if IsProtected(status) then [ProtectedFinding(url, status, title)] else [])
                 + (if Strings.ContainsAny(lowered, SensitiveKeywords) then [SensitiveFinding(url, title)] else [])))
  }

  function LineFound(decode: string -> Option<Json>, line: string): Outcome<Found>
  {
    if line == [] then Done(Found([], []))
    else
      match decode(line)
      case None => Done(Found([], []))
      case Some(data) => DataFound(data)
  }

  function LineFn(decode: string -> Option<Json>): string -> Outcome<Found>
  {
    line => LineFound(decode, line)
  }

  function Lines(output: string): seq<string>
  {
    Strings.Split(Strings.Strip(output), '\n')
  }

  function Parsed(decode: string -> Option<Json>, output: string): Outcome<ToolResult>
  {
    var found :- CollectFound(Lines(output), LineFn(decode));
    Done(ToolResult("httpx", true, found.assets, found.findings, rawOutput := output))
  }

  /** The line loop of `parse_output`. */
  method ParseOutput(decode: string -> Option<Json>, output: string) returns (r: Outcome<ToolResult>)
    ensures r == Parsed(decode, output)
  {
    var lines := Lines(output);
    var found := Found([], []);
    for i := 0 to |lines|
      invariant CollectFound(lines[..i], LineFn(decode)) == Done(found)
    {
      var here := LineFound(decode, lines[i]);
      CollectFoundStep(lines, i, LineFn(decode), found);
      if here.Raised? {
        CollectFoundRaisedStays(lines, i + 1, LineFn(decode));
        return Raised(here.exception);
      }
      found := found.Plus(here.value);
    }
    assert lines[..|lines|] == lines;
    r := Done(ToolResult("httpx", true, found.assets, found.findings, rawOutput := output));
  }

  /** Partial output is parsed like the whole output. */
  method ParsePartial(decode: string -> Option<Json>, output: string) returns (r: Outcome<ToolResult>)
    ensures r == Parsed(decode, output)
  {
    r := ParseOutput(decode, output);
  }

  // ---------------------------------------------------------------------------
  // properties

  /** A record with a URL and a string title gives exactly one `http_service` asset for
      the URL, with the technologies under `technologies`; a 401 or 403 status adds a
      protected-resource finding and a sensitive title a sensitive-page finding, both
      medium, either or both. A record without a URL gives nothing. */
  lemma RecordFound(data: Json)
    requires data.JObj?
    ensures var url := Lookup(data.members, "url").GetOr(JStr(""));
            var status := Lookup(data.members, "status_code").GetOr(JInt(0));
            var title := Lookup(data.members, "title").GetOr(JStr(""));
            var tech := Lookup(data.members, "tech").GetOr(JArr([]));
            var r := DataFound(data);
            (!Truthy(url) ==> r == Done(Found([], [])))
            && (Truthy(url) && title.JStr? ==>
                  r.Done? && r.value.assets == [Asset("http_service", Str(url), "httpx",
                                                      map["status_code" := status, "title" := title, "technologies" := tech])]
                  && (ProtectedFinding(url, status, title) in r.value.findings <==> status == JInt(401) || status == JInt(403))
                  && (SensitiveFinding(url, title) in r.value.findings <==> Strings.ContainsAny(Strings.Lower(title.s), SensitiveKeywords))
                  && |r.value.findings| <= 2
                  && forall f :: f in r.value.findings ==> f.severity == Medium && f.host == Str(url))
  {
    var url := Lookup(data.members, "url").GetOr(JStr(""));
    var status := Lookup(data.members, "status_code").GetOr(JInt(0));
    var title := Lookup(data.members, "title").GetOr(JStr(""));
    if Truthy(url) && title.JStr? {
      assert ProtectedFinding(url, status, title) != SensitiveFinding(url, title) by {
        assert ProtectedFinding(url, status, title).description[0] == 'F';
        assert ProtectedFinding(url, status, title).title[0] == 'P';
        assert SensitiveFinding(url, title).title[0] == 'S';
      }
    }
  }

  /** Empty and undecodable lines give nothing. */
  lemma SkippedLines(decode: string -> Option<Json>, line: string)
    ensures line == [] || decode(line).None? ==> LineFound(decode, line) == Done(Found([], []))
  {
  }

  /** A line gives at most one asset and two findings, all marked as httpx's: an
      `http_service` asset, which keeps the technologies under `technologies` and has
      no `technology` entry, and medium findings. */
  lemma LineShape(decode: string -> Option<Json>, line: string)
    ensures var r := LineFound(decode, line);
            r.Done? ==> |r.value.assets| <= 1 && |r.value.findings| <= 2
                        && (forall a :: a in r.value.assets ==> a.assetType == "http_service" && a.discoveredBy == "httpx"
                                                                && "technology" !in a.metadata)
                        && (forall f :: f in r.value.findings ==> f.severity == Medium && f.discoveredBy == "httpx")
  {
    if line != [] && decode(line).Some? {
      DataShape(decode(line).value);
    }
  }

  lemma DataShape(data: Json)
    ensures var r := DataFound(data);
            r.Done? ==> |r.value.assets| <= 1 && |r.value.findings| <= 2
                        && (forall a :: a in r.value.assets ==> a.assetType == "http_service" && a.discoveredBy == "httpx"
                                                                && "technology" !in a.metadata)
                        && (forall f :: f in r.value.findings ==> f.severity == Medium && f.discoveredBy == "httpx")
  {
    if data.JObj? {
      var url := Lookup(data.members, "url").GetOr(JStr(""));
      var status := Lookup(data.members, "status_code").GetOr(JInt(0));
      var title := Lookup(data.members, "title").GetOr(JStr(""));
      var tech := Lookup(data.members, "tech").GetOr(JArr([]));
      assert DataFound(data) == FieldsFound(url, status, title, tech);
      FieldsShape(url, status, title, tech);
    }
  }

  lemma FieldsShape(url: Json, status: Json, title: Json, tech: Json)
    ensures var r := FieldsFound(url, status, title, tech);
            r.Done? ==> |r.value.assets| <= 1 && |r.value.findings| <= 2
                        && (forall a :: a in r.value.assets ==> a.assetType == "http_service" && a.discoveredBy == "httpx"
                                                                && "technology" !in a.metadata)
                        && (forall f :: f in r.value.findings ==> f.severity == Medium && f.discoveredBy == "httpx")
  {
    if Truthy(url) && title.JStr? {
      var p := if IsProtected(status) then [ProtectedFinding(url, status, title)] else [];
      var q := if Strings.ContainsAny(Strings.Lower(title.s), SensitiveKeywords) then [SensitiveFinding(url, title)] else [];
      assert FieldsFound(url, status, title, tech) == Done(Found([ServiceAsset(url, status, title, tech)], p + q));
      ServiceAssetShape(url, status, title, tech);
      assert forall f: Finding :: f in p + q ==> f.severity == Medium && f.discoveredBy == "httpx" by {
        assert forall f: Finding :: f in p ==> f == ProtectedFinding(url, status, title);
        assert forall f: Finding :: f in q ==> f == SensitiveFinding(url, title);
      }
    }
  }

  lemma ServiceAssetShape(url: Json, status: Json, title: Json, tech: Json)
    ensures var a := ServiceAsset(url, status, title, tech);
            a.assetType == "http_service" && a.discoveredBy == "httpx" && "technology" !in a.metadata
  {
    var m := ServiceAsset(url, status, title, tech).metadata;
    assert m.Keys == {"status_code", "title", "technologies"};
    assert "technology" != "technologies" by { assert |"technology"| != |"technologies"|; }
    assert "technology" != "status_code" by { assert "technology"[0] != "status_code"[0]; }
    assert "technology" != "title" by { assert "technology"[1] != "title"[1]; }
  }

  /** A parsed output holds exactly the assets of its lines, each an `http_service`
      asset, and only medium findings. */
  lemma ParsedAssets(decode: string -> Option<Json>, output: string, a: Asset, f: Finding)
    requires Parsed(decode, output).Done?
    ensures var lines := Lines(output);
            a in Parsed(decode, output).value.assets <==>
              exists i :: 0 <= i < |lines| && LineFound(decode, lines[i]).Done? && a in LineFound(decode, lines[i]).value.assets
    ensures a in Parsed(decode, output).value.assets ==> a.assetType == "http_service"
    ensures f in Parsed(decode, output).value.findings ==> f.severity == Medium
  {
    var lines := Lines(output);
    CollectFoundAssets(lines, LineFn(decode), a);
    CollectFoundFindings(lines, LineFn(decode), f);
    if a in Parsed(decode, output).value.assets {
      var i :| 0 <= i < |lines| && LineFound(decode, lines[i]).Done? && a in LineFound(decode, lines[i]).value.assets;
      LineShape(decode, lines[i]);
    }
    if f in Parsed(decode, output).value.findings {
      var i :| 0 <= i < |lines| && LineFound(decode, lines[i]).Done? && f in LineFound(decode, lines[i]).value.findings;
      LineShape(decode, lines[i]);
    }
  }

  /** No service httpx reports has the `technology` entry the WordPress rule reads, so
      none of them chains a WordPress scan, whatever technologies were detected. */
  lemma ParsedNeverWordPress(decode: string -> Option<Json>, output: string, a: Asset)
    requires Parsed(decode, output).Done?
    requires a in Parsed(decode, output).value.assets
    ensures !Rules.IsWordPress(a)
  {
    var lines := Lines(output);
    CollectFoundAssets(lines, LineFn(decode), a);
    var i :| 0 <= i < |lines| && LineFound(decode, lines[i]).Done? && a in LineFound(decode, lines[i]).value.assets;
    LineShape(decode, lines[i]);
  }
}
