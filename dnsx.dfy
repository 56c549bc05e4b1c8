/** The dnsx adapter: JSON lines naming a host with its A and AAAA answers. */
module Dnsx {
  import opened Outcomes
  import opened Json
  import opened Models
  import opened Base
  import Strings

  const Config := ToolConfig("dnsx", "dnsx", Dns, "Fast DNS resolution",
                             produces := ["ip"], consumes := ["domain", "subdomain"])

  /** `dnsx -silent -json -a -aaaa -host <target>` */
  function BuildCommand(target: string): (argv: seq<string>)
    ensures |argv| == 7 && argv[0] == Config.binary && argv[6] == target
    ensures argv[1..6] == ["-silent", "-json", "-a", "-aaaa", "-host"]
  {
    ["dnsx", "-silent", "-json", "-a", "-aaaa", "-host", target]
  }

  function AAsset(host: Json, ip: Json): Asset
  {
    Asset("ip", Str(ip), "dnsx", map["hostname" := host])
  }

  function AaaaAsset(host: Json, ip: Json): Asset
  {
    Asset("ip", Str(ip), "dnsx", map["hostname" := host, "ipv6" := JBool(true)])
  }

  /** One `ip` asset per A answer, in order. */
  function AAssets(host: Json, ips: seq<Json>): (r: seq<Asset>)
    ensures |r| == |ips| && forall k :: 0 <= k < |ips| ==> r[k] == AAsset(host, ips[k])
  {
    if ips == [] then [] else AAssets(host, ips[..|ips| - 1]) + [AAsset(host, ips[|ips| - 1])]
  }

  /** One `ip` asset marked ipv6 per AAAA answer, in order. */
  function AaaaAssets(host: Json, ips: seq<Json>): (r: seq<Asset>)
    ensures |r| == |ips| && forall k :: 0 <= k < |ips| ==> r[k] == AaaaAsset(host, ips[k])
  {
    if ips == [] then [] else AaaaAssets(host, ips[..|ips| - 1]) + [AaaaAsset(host, ips[|ips| - 1])]
  }

  /** What a decoded line contributes: its A answers, then its AAAA answers. */
  function DataAssets(data: Json): Outcome<seq<Asset>>
  {
    var host :- Get(data, "host", JStr(""));
    var a :- Get(data, "a", JArr([]));
    var aIps :- Iter(a);
    var aaaa :- Get(data, "aaaa", JArr([]));
    var aaaaIps :- Iter(aaaa);
    Done(AAssets(host, aIps) + AaaaAssets(host, aaaaIps))
  }

  /** What one line contributes; empty and undecodable lines contribute nothing. */
  function LineAssets(decode: string -> Option<Json>, line: string): Outcome<seq<Asset>>
  {
    if line == [] then Done([])
    else
      match decode(line)
      case None => Done([])
      case Some(data) => DataAssets(data)
  }

  function LineFn(decode: string -> Option<Json>): string -> Outcome<seq<Asset>>
  {
    line => LineAssets(decode, line)
  }

  function Lines(output: string): seq<string>
  {
    Strings.Split(Strings.Strip(output), '\n')
  }

  function Parsed(decode: string -> Option<Json>, output: string): Outcome<ToolResult>
  {
    var assets :- Collect(Lines(output), LineFn(decode));
    Done(ToolResult("dnsx", true, assets, rawOutput := output))
  }

  /** The line loop of `parse_output`. */
  method ParseOutput(decode: string -> Option<Json>, output: string) returns (r: Outcome<ToolResult>)
    ensures r == Parsed(decode, output)
  {
    var lines := Lines(output);
    var assets: seq<Asset> := [];
    for i := 0 to |lines|
      invariant Collect(lines[..i], LineFn(decode)) == Done(assets)
    {
      var found: Outcome<seq<Asset>> := Done([]);
      if lines[i] != [] {
        var data := decode(lines[i]);
        if data.Some? {
          found := ParseData(data.value);
        }
      }
      assert found == LineFn(decode)(lines[i]);
      CollectStep(lines, i, LineFn(decode), assets);
      if found.Raised? {
        CollectRaisedStays(lines, i + 1, LineFn(decode));
        return Raised(found.exception);
      }
      assets := assets + found.value;
    }
    assert lines[..|lines|] == lines;
    r := Done(ToolResult("dnsx", true, assets, rawOutput := output));
  }

  /** The body of the line loop for a decoded line: the A loop, then the AAAA loop. */
  method ParseData(data: Json) returns (r: Outcome<seq<Asset>>)
    ensures r == DataAssets(data)
  {
    if !data.JObj? {
      return Raised("AttributeError");
    }
    var host := Get(data, "host", JStr("")).value;
    var a := Iter(Get(data, "a", JArr([])).value);
    if a.Raised? {
      return Raised(a.exception);
    }
    var assets: seq<Asset> := [];
    for k := 0 to |a.value|
      invariant assets == AAssets(host, a.value[..k])
    {
      assets := assets + [AAsset(host, a.value[k])];
      assert a.value[..k + 1][..k] == a.value[..k];
    }
    assert a.value[..|a.value|] == a.value;
    var aaaa := Iter(Get(data, "aaaa", JArr([])).value);
    if aaaa.Raised? {
      return Raised(aaaa.exception);
    }
    var six: seq<Asset> := [];
    for k := 0 to |aaaa.value|
      invariant six == AaaaAssets(host, aaaa.value[..k])
    {
      six := six + [AaaaAsset(host, aaaa.value[k])];
      assert aaaa.value[..k + 1][..k] == aaaa.value[..k];
    }
    assert aaaa.value[..|aaaa.value|] == aaaa.value;
    r := Done(assets + six);
  }

  // ---------------------------------------------------------------------------
  // properties

  /** Empty and undecodable lines contribute nothing. */
  lemma SkippedLines(decode: string -> Option<Json>, line: string)
    ensures line == [] || decode(line).None? ==> LineAssets(decode, line) == Done([])
  {
  }

  /** For a record whose `a` and `aaaa` are lists or absent (an absent key reads as the
      empty list): one asset per answer, every A asset before every AAAA asset, each
      carrying the record's host, and only the AAAA ones marked ipv6. */
  lemma RecordAssets(data: Json, aIps: seq<Json>, aaaaIps: seq<Json>)
    requires data.JObj? && Lookup(data.members, "a").GetOr(JArr([])) == JArr(aIps)
    requires Lookup(data.members, "aaaa").GetOr(JArr([])) == JArr(aaaaIps)
    ensures var host := Lookup(data.members, "host").GetOr(JStr(""));
            var r := DataAssets(data);
            r.Done? && |r.value| == |aIps| + |aaaaIps|
            && (forall k :: 0 <= k < |aIps| ==>
                  r.value[k].value == Str(aIps[k]) && r.value[k].metadata == map["hostname" := host])
            && (forall k :: |aIps| <= k < |r.value| ==>
                  r.value[k].value == Str(aaaaIps[k - |aIps|])
                  && r.value[k].metadata == map["hostname" := host, "ipv6" := JBool(true)])
            && forall k :: 0 <= k < |r.value| ==> r.value[k].assetType == "ip" && r.value[k].discoveredBy == "dnsx"
  {
    var host := Lookup(data.members, "host").GetOr(JStr(""));
    var four, six := AAssets(host, aIps), AaaaAssets(host, aaaaIps);
    assert DataAssets(data) == Done(four + six);
    forall k | 0 <= k < |aIps|
      ensures (four + six)[k] == AAsset(host, aIps[k])
    {
    }
    forall k | |aIps| <= k < |aIps| + |aaaaIps|
      ensures (four + six)[k] == AaaaAsset(host, aaaaIps[k - |aIps|])
    {
    }
  }
}
