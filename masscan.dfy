/** The masscan adapter: JSON lines, each naming an ip and its open ports. Decoding is
    the parameter `decode`, `None` for a line `json.loads` rejects; a decoded value of
    the wrong shape raises out of `parse_output`, as in the source. */
module Masscan {
  import opened Outcomes
  import opened Json
  import opened Models
  import opened Base
  import Strings

  const Config := ToolConfig("masscan", "masscan", PortScan, "Fast port scanner",
                             timeout := 300, requiresRoot := true,
                             produces := ["port"], consumes := ["ip", "domain"])

  /** `masscan <target> -p1-65535 --rate=1000 -oJ -`: the target comes right after the
      binary, before the port range. */
  function BuildCommand(target: string): (argv: seq<string>)
    ensures |argv| == 6 && argv[0] == Config.binary && argv[1] == target
    ensures argv[2..] == ["-p1-65535", "--rate=1000", "-oJ", "-"]
  {
    ["masscan", target, "-p1-65535", "--rate=1000", "-oJ", "-"]
  }

  /** The asset of one port entry of `ip`, when both are truthy. */
  function EntryAssets(ip: Json, entry: Json): Outcome<seq<Asset>>
  {
    var port :- Get(entry, "port", JStr(""));
    var proto :- Get(entry, "proto", JStr("tcp"));
    if Truthy(ip) && Truthy(port) then
      Done([Asset("port", Str(ip) + ":" + Str(port), "masscan", map["port" := JStr(Str(port)), "protocol" := proto])])
    else Done([])
  }

  function EntryFn(ip: Json): Json -> Outcome<seq<Asset>>
  {
    entry => EntryAssets(ip, entry)
  }

  /** A line worth decoding: not empty and not a `#` comment. */
  predicate Skipped(line: string)
  {
    line == [] || line[0] == '#'
  }

  /** What one line contributes; an undecodable line contributes nothing. */
  function LineAssets(decode: string -> Option<Json>, line: string): Outcome<seq<Asset>>
  {
    if Skipped(line) then Done([])
    else
      match decode(Strings.RStripChar(line, ','))
      case None => Done([])
      case Some(data) =>
        var ip :- Get(data, "ip", JStr(""));
        var ports :- Get(data, "ports", JArr([]));
        var entries :- Iter(ports);
        Collect(entries, EntryFn(ip))
  }

  function LineFn(decode: string -> Option<Json>): string -> Outcome<seq<Asset>>
  {
    line => LineAssets(decode, line)
  }

  function Lines(output: string): seq<string>
  {
    Strings.Split(Strings.Strip(output), '\n')
  }

  function Parsed(decode: string -> Option<Json>, output: string): Outcome<ToolResult>
  {
    var assets :- Collect(Lines(output), LineFn(decode));
    Done(ToolResult("masscan", true, assets, rawOutput := output))
  }

  /** The line loop of `parse_output`. */
  method ParseOutput(decode: string -> Option<Json>, output: string) returns (r: Outcome<ToolResult>)
    ensures r == Parsed(decode, output)
  {
    var lines := Lines(output);
    var assets: seq<Asset> := [];
    for i := 0 to |lines|
      invariant Collect(lines[..i], LineFn(decode)) == Done(assets)
    {
      var line := lines[i];
      var found: Outcome<seq<Asset>> := Done([]);
      if !(line == [] || line[0] == '#') {
        var data := decode(Strings.RStripChar(line, ','));
        if data.Some? {
          found := ParseLine(data.value);
        }
      }
      assert found == LineFn(decode)(lines[i]);
      CollectStep(lines, i, LineFn(decode), assets);
      if found.Raised? {
        CollectRaisedStays(lines, i + 1, LineFn(decode));
        return Raised(found.exception);
      }
      assets := assets + found.value;
    }
    assert lines[..|lines|] == lines;
    r := Done(ToolResult("masscan", true, assets, rawOutput := output));
  }

  /** The body of the line loop for a decoded line, with its port loop. */
  method ParseLine(data: Json) returns (r: Outcome<seq<Asset>>)
    ensures r == (var ip :- Get(data, "ip", JStr(""));
                  var ports :- Get(data, "ports", JArr([]));
                  var entries :- Iter(ports);
                  Collect(entries, EntryFn(ip)))
  {
    if !data.JObj? {
      return Raised("AttributeError");
    }
    var ip := Get(data, "ip", JStr("")).value;
    var ports := Get(data, "ports", JArr([])).value;
    var it := Iter(ports);
    if it.Raised? {
      return Raised(it.exception);
    }
    var entries := it.value;
    var assets: seq<Asset> := [];
    for j := 0 to |entries|
      invariant Collect(entries[..j], EntryFn(ip)) == Done(assets)
    {
      var port := Get(entries[j], "port", JStr(""));
      var proto := Get(entries[j], "proto", JStr("tcp"));
      CollectStep(entries, j, EntryFn(ip), assets);
      if port.Raised? || proto.Raised? {
        assert EntryFn(ip)(entries[j]) == Raised("AttributeError");
        CollectRaisedStays(entries, j + 1, EntryFn(ip));
        return Raised("AttributeError");
      }
      var here := if Truthy(ip) && Truthy(port.value) then
          [Asset("port", Str(ip) + ":" + Str(port.value), "masscan",
                 map["port" := JStr(Str(port.value)), "protocol" := proto.value])]
        else [];
      assert EntryFn(ip)(entries[j]) == Done(here);
      assets := assets + here;
    }
    assert entries[..|entries|] == entries;
    r := Done(assets);
  }

  // ---------------------------------------------------------------------------
  // properties

  /** Empty lines, comments and undecodable lines contribute nothing. */
  lemma SkippedLines(decode: string -> Option<Json>, line: string)
    ensures Skipped(line) ==> LineAssets(decode, line) == Done([])
    ensures decode(Strings.RStripChar(line, ',')).None? ==> LineAssets(decode, line) == Done([])
  {
  }

  /** A port entry gives an asset exactly when the ip and the port are truthy; it is
      valued `ip:port`, keeps the port as a string, and defaults the protocol to tcp. */
  lemma EntryAsset(ip: Json, port: Json, rest: seq<(string, Json)>)
    requires forall k :: 0 <= k < |rest| ==> rest[k].0 != "port" && rest[k].0 != "proto"
    ensures var r := EntryAssets(ip, JObj([("port", port)] + rest));
            r.Done? && (r.value != [] <==> Truthy(ip) && Truthy(port))
            && (r.value != [] ==> r.value == [Asset("port", Str(ip) + ":" + Str(port), "masscan",
                                                     map["port" := JStr(Str(port)), "protocol" := JStr("tcp")])])
  {
    var ms := [("port", port)] + rest;
    assert Lookup(ms, "proto") == Lookup(rest, "proto");
  }

  /** A masscan port asset: the port kept as a string, and a protocol. */
  predicate PortShaped(a: Asset)
  {
    a.assetType == "port" && a.discoveredBy == "masscan"
    && "port" in a.metadata && a.metadata["port"].JStr? && "protocol" in a.metadata
  }

  lemma LineAssetsShape(decode: string -> Option<Json>, line: string, a: Asset)
    requires LineAssets(decode, line).Done? && a in LineAssets(decode, line).value
    ensures PortShaped(a)
  {
    var data := decode(Strings.RStripChar(line, ',')).value;
    var ip := Get(data, "ip", JStr("")).value;
    var entries := Iter(Get(data, "ports", JArr([])).value).value;
    CollectDone(entries, EntryFn(ip), a);
  }

  /** Every asset of a completed parse is a masscan port asset. */
  lemma ParsedAssets(decode: string -> Option<Json>, output: string, a: Asset)
    requires Parsed(decode, output).Done?
    ensures Parsed(decode, output).value.success && Parsed(decode, output).value.findings == []
    ensures a in Parsed(decode, output).value.assets ==> PortShaped(a)
  {
    var lines := Lines(output);
    if a in Parsed(decode, output).value.assets {
      CollectDone(lines, LineFn(decode), a);
      var i :| 0 <= i < |lines| && a in LineFn(decode)(lines[i]).value;
      LineAssetsShape(decode, lines[i], a);
    }
  }
}
