/** The dnsrecon adapter. The output is read as JSON lines, each a record or a list of
    records; the first record of the wrong shape abandons the JSON reading, and the
    whole output is then scanned for dotted quads instead, after the assets gathered so
    far. */
module Dnsrecon {
  import opened Outcomes
  import opened Json
  import opened Models
  import opened Base
  import Strings
  import Seqs
  import Patterns

  const Config := ToolConfig("dnsrecon", "dnsrecon", Dns, "DNS enumeration tool",
                             produces := ["ip", "subdomain", "dns_record"], consumes := ["domain"])

  /** `dnsrecon -d <target> -j /dev/stdout` */
  function BuildCommand(target: string): (argv: seq<string>)
    ensures |argv| == 5 && argv[0] == Config.binary && argv[2] == target
    ensures argv[1] == "-d" && argv[3..] == ["-j", "/dev/stdout"]
  {
    ["dnsrecon", "-d", target, "-j", "/dev/stdout"]
  }

  // ---------------------------------------------------------------------------
  // records

  /** A record type that names another host. */
  predicate NamesHost(recordType: Json)
  {
    recordType == JStr("CNAME") || recordType == JStr("NS") || recordType == JStr("MX")
  }

  /** `_parse_record`: what one record adds; a record that is not an object raises. */
  function RecordAssets(record: Json): Outcome<seq<Asset>>
  {
    var recordType :- Get(record, "type", JStr(""));
    var name :- Get(record, "name", JStr(""));
    var address :- Get(record, "address", JStr(""));
    if recordType == JStr("A") && Truthy(address) then
      Done([Asset("ip", Str(address), "dnsrecon", map["hostname" := name])])
    else if recordType == JStr("AAAA") && Truthy(address) then
      Done([Asset("ip", Str(address), "dnsrecon", map["hostname" := name, "ipv6" := JBool(true)])])
    else if NamesHost(recordType) && Truthy(name) then
      Done([Asset("dns_record", Str(name), "dnsrecon", map["record_type" := recordType])])
    else Done([])
  }

  /** `_parse_record(record, assets)`: appends to `assets` what the record adds. */
  method ParseRecord(record: Json, assets: seq<Asset>) returns (r: Outcome<seq<Asset>>)
    ensures RecordAssets(record).Raised? ==> r.Raised?
    ensures RecordAssets(record).Done? ==> r == Done(assets + RecordAssets(record).value)
  {
    if !record.JObj? {
      return Raised("AttributeError");
    }
    var recordType := Get(record, "type", JStr("")).value;
    var name := Get(record, "name", JStr("")).value;
    var address := Get(record, "address", JStr("")).value;
    r := Done(assets);
    assert assets + [] == assets;
    if recordType == JStr("A") && Truthy(address) {
      r := Done(assets + [Asset("ip", Str(address), "dnsrecon", map["hostname" := name])]);
    } else if recordType == JStr("AAAA") && Truthy(address) {
      r := Done(assets + [Asset("ip", Str(address), "dnsrecon", map["hostname" := name, "ipv6" := JBool(true)])]);
    } else if (recordType == JStr("CNAME") || recordType == JStr("NS") || recordType == JStr("MX")) && Truthy(name) {
      r := Done(assets + [Asset("dns_record", Str(name), "dnsrecon", map["record_type" := recordType])]);
    }
  }

  /** The JSON reading so far: the assets gathered, and whether a record raised. */
  datatype Gather = Gather(assets: seq<Asset>, failed: bool)

  /** One more record; after a failure nothing more is read. */
  function Step(g: Gather, record: Json): Gather
  {
    if g.failed then g
    else
      match RecordAssets(record)
      case Raised(_) => g.(failed := true)
      case Done(found) => Gather(g.assets + found, false)
  }

  /** The records read one after another from `g`. */
  function GatherFrom(g: Gather, records: seq<Json>): Gather
  {
    if records == [] then g else Step(GatherFrom(g, records[..|records| - 1]), records[|records| - 1])
  }

  /** The records a line holds: none when it is blank or undecodable, the items of a
      decoded list, or the decoded value itself. */
  function LineRecords(decode: string -> Option<Json>, line: string): seq<Json>
  {
    if Strings.Strip(line) == [] then []
    else
      match decode(line)
      case None => []
      case Some(data) => if data.JArr? then data.items else [data]
  }

  function LineFn(decode: string -> Option<Json>): string -> seq<Json>
  {
    line => LineRecords(decode, line)
  }

  /** Every record of the output, line by line. */
  function Records(decode: string -> Option<Json>, output: string): seq<Json>
  {
    Seqs.FlatMap(Strings.Split(output, '\n'), LineFn(decode))
  }

  // ---------------------------------------------------------------------------
  // the text fallback

  /** Addresses the fallback never reports. */
  predicate IsLocal(ip: string)
  {
    ip == "127.0.0.1" || ip == "0.0.0.0"
  }

  /** The `ip` assets of the dotted quads found, leaving out the local ones. */
  function TextAssets(ips: seq<string>): seq<Asset>
  {
    if ips == [] then []
    else
      var ip := ips[|ips| - 1];
      TextAssets(ips[..|ips| - 1]) + (if IsLocal(ip) then [] else [Asset("ip", ip, "dnsrecon")])
  }

  /** `_parse_text_output(output, assets)` */
  method ParseTextOutput(output: string, assets: seq<Asset>) returns (r: seq<Asset>)
    ensures r == assets + TextAssets(Patterns.FindQuads(output, 0))
  {
    var ips := Patterns.FindQuads(output, 0);
    r := assets;
    for k := 0 to |ips|
      invariant r == assets + TextAssets(ips[..k])
    {
      if !(ips[k] == "127.0.0.1" || ips[k] == "0.0.0.0") {
        r := r + [Asset("ip", ips[k], "dnsrecon")];
      }
      assert ips[..k + 1][..k] == ips[..k];
    }
    assert ips[..|ips|] == ips;
  }

  // ---------------------------------------------------------------------------
  // parse_output

  function Parsed(decode: string -> Option<Json>, output: string): ToolResult
  {
    var g := GatherFrom(Gather([], false), Records(decode, output));
    var assets := if g.failed then g.assets + TextAssets(Patterns.FindQuads(output, 0)) else g.assets;
    ToolResult("dnsrecon", true, assets, rawOutput := output)
  }

  /** The record loop for the records of a decoded list. */
  method ParseRecords(records: seq<Json>, assets: seq<Asset>) returns (g: Gather)
    ensures g == GatherFrom(Gather(assets, false), records)
  {
    g := Gather(assets, false);
    var j := 0;
    while j < |records| && !g.failed
      invariant 0 <= j <= |records|
      invariant g == GatherFrom(Gather(assets, false), records[..j])
    {
      var next := ParseRecord(records[j], g.assets);
      assert records[..j + 1][..j] == records[..j];
      if next.Raised? {
        g := g.(failed := true);
      } else {
        g := Gather(next.value, false);
      }
      j := j + 1;
    }
    GatherFromConcat(Gather(assets, false), records[..j], records[j..]);
    if g.failed {
      GatherFromFailed(g, records[j..]);
    } else {
      assert records[j..] == [];
    }
    assert records[..j] + records[j..] == records;
  }

  /** `parse_output`: the JSON reading, then the fallback when a record raised. */
  method ParseOutput(decode: string -> Option<Json>, output: string) returns (r: ToolResult)
    ensures r == Parsed(decode, output)
  {
    var lines := Strings.Split(output, '\n');
    var g := Gather([], false);
    var i := 0;
    while i < |lines| && !g.failed
      invariant 0 <= i <= |lines|
      invariant g == GatherFrom(Gather([], false), Seqs.FlatMap(lines[..i], LineFn(decode)))
    {
      var before := g;
      if Strings.Strip(lines[i]) != [] {
        var data := decode(lines[i]);
        if data.Some? {
          if data.value.JArr? {
            g := ParseRecords(data.value.items, g.assets);
          } else {
            var next := ParseRecord(data.value, g.assets);
            assert [data.value][..0] == [];
            if next.Raised? {
              g := g.(failed := true);
            } else {
              g := Gather(next.value, false);
            }
          }
        }
      }
      assert g == GatherFrom(before, LineRecords(decode, lines[i]));
      assert lines[..i + 1][..i] == lines[..i];
      GatherFromConcat(Gather([], false), Seqs.FlatMap(lines[..i], LineFn(decode)), LineRecords(decode, lines[i]));
      i := i + 1;
    }
    var all := Seqs.FlatMap(lines, LineFn(decode));
    Seqs.FlatMapConcat(lines[..i], lines[i..], LineFn(decode));
    assert lines[..i] + lines[i..] == lines;
    GatherFromConcat(Gather([], false), Seqs.FlatMap(lines[..i], LineFn(decode)), Seqs.FlatMap(lines[i..], LineFn(decode)));
    if g.failed {
      GatherFromFailed(g, Seqs.FlatMap(lines[i..], LineFn(decode)));
    } else {
      assert lines[i..] == [];
    }
    var assets := g.assets;
    if g.failed {
      assets := ParseTextOutput(output, assets);
    }
    r := ToolResult("dnsrecon", true, assets, rawOutput := output);
  }

  // ---------------------------------------------------------------------------
  // properties of the reading

  lemma {:induction false} GatherFromConcat(g: Gather, p: seq<Json>, q: seq<Json>)
    ensures GatherFrom(g, p + q) == GatherFrom(GatherFrom(g, p), q)
    decreases |q|
  {
    if q == [] {
      assert p + q == p;
    } else {
      var q' := q[..|q| - 1];
      assert (p + q)[..|p + q| - 1] == p + q';
      GatherFromConcat(g, p, q');
    }
  }

  /** After a failure the reading stops: nothing is added and the failure stays. */
  lemma {:induction false} GatherFromFailed(g: Gather, q: seq<Json>)
    requires g.failed
    ensures GatherFrom(g, q) == g
  {
    if q != [] {
      GatherFromFailed(g, q[..|q| - 1]);
    }
  }

  function RecordFn(): Json -> Outcome<seq<Asset>>
  {
    record => RecordAssets(record)
  }

  /** The index of the first record that raises, or the number of records. */
  function FirstRaise(records: seq<Json>): (k: nat)
    ensures k <= |records|
    ensures forall i :: 0 <= i < k ==> RecordAssets(records[i]).Done?
    ensures k < |records| ==> RecordAssets(records[k]).Raised?
  {
    if records == [] then 0
    else
      var n := |records| - 1;
      var k := FirstRaise(records[..n]);
      assert forall i :: 0 <= i < n ==> records[..n][i] == records[i];
      if k < n then k else if RecordAssets(records[n]).Raised? then n else n + 1
  }

  /** The reading keeps exactly the records before the first one that raises: it is the
      loop over that prefix, and it has failed exactly when some record raised. */
  lemma {:induction false} GatheredIsLongestPrefix(records: seq<Json>)
    ensures var k := FirstRaise(records);
            Collect(records[..k], RecordFn()).Done?
            && GatherFrom(Gather([], false), records) == Gather(Collect(records[..k], RecordFn()).value, k < |records|)
  {
    var k := FirstRaise(records);
    if records == [] {
      assert records[..k] == [];
    } else {
      var n := |records| - 1;
      var pre := records[..n];
      GatheredIsLongestPrefix(pre);
      var kp := FirstRaise(pre);
      assert pre[..kp] == records[..kp];
      if kp < n {
        assert k == kp;
      } else if RecordAssets(records[n]).Raised? {
        assert k == n;
      } else {
        assert k == n + 1;
        CollectStep(records, n, RecordFn(), Collect(pre, RecordFn()).value);
        assert records[..n + 1] == records;
      }
    }
  }

  /** An A record with an address gives one `ip` asset carrying the record's name as
      hostname; an AAAA record the same marked ipv6; a CNAME, NS or MX record with a
      name one `dns_record` asset naming the type; any other record nothing. */
  lemma RecordKinds(record: Json)
    requires record.JObj?
    ensures var t := Lookup(record.members, "type").GetOr(JStr(""));
            var name := Lookup(record.members, "name").GetOr(JStr(""));
            var address := Lookup(record.members, "address").GetOr(JStr(""));
            var r := RecordAssets(record);
            r.Done?
            && (t == JStr("A") && Truthy(address) ==>
                  r.value == [Asset("ip", Str(address), "dnsrecon", map["hostname" := name])])
            && (t == JStr("AAAA") && Truthy(address) ==>
                  r.value == [Asset("ip", Str(address), "dnsrecon", map["hostname" := name, "ipv6" := JBool(true)])])
            && (NamesHost(t) && Truthy(name) ==>
                  r.value == [Asset("dns_record", Str(name), "dnsrecon", map["record_type" := t])])
            && (r.value != [] <==> ((t == JStr("A") || t == JStr("AAAA")) && Truthy(address)) || (NamesHost(t) && Truthy(name)))
  {
  }

  /** Undecodable and blank lines hold no records; a decoded list is read item by item,
      in order. */
  lemma LineRecordsOfList(decode: string -> Option<Json>, line: string)
    ensures Strings.Strip(line) == [] || decode(line).None? ==> LineRecords(decode, line) == []
    ensures Strings.Strip(line) != [] && decode(line).Some? && decode(line).value.JArr? ==>
              LineRecords(decode, line) == decode(line).value.items
  {
  }

  /** The fallback never reports a local address, and reports only dotted quads. */
  lemma {:induction false} TextAssetsNotLocal(ips: seq<string>, a: Asset)
    requires forall k :: 0 <= k < |ips| ==> Patterns.QuadShaped(ips[k])
    requires a in TextAssets(ips)
    ensures a.assetType == "ip" && !IsLocal(a.value) && Patterns.QuadShaped(a.value)
  {
    var n := |ips| - 1;
    if a in TextAssets(ips[..n]) {
      TextAssetsNotLocal(ips[..n], a);
    }
  }

  /** The result: assets of the records before the first failure, followed, only after
      a failure, by the non-local dotted quads of the whole output. */
  lemma ParsedAssets(decode: string -> Option<Json>, output: string, a: Asset)
    ensures var g := GatherFrom(Gather([], false), Records(decode, output));
            Parsed(decode, output).success && Parsed(decode, output).findings == []
            && (!g.failed ==> Parsed(decode, output).assets == g.assets)
            && (g.failed && a in Parsed(decode, output).assets && a !in g.assets ==>
                  a.assetType == "ip" && !IsLocal(a.value) && Patterns.QuadShaped(a.value))
  {
    var g := GatherFrom(Gather([], false), Records(decode, output));
    if g.failed && a in Parsed(decode, output).assets && a !in g.assets {
      TextAssetsNotLocal(Patterns.FindQuads(output, 0), a);
    }
  }
}
