/** The rustscan adapter: greppable `ip -> [port, port, ...]` lines become port
    assets. */
module Rustscan {
  import opened Outcomes
  import opened Json
  import opened Models
  import opened Base
  import Strings
  import Seqs
  import Patterns

  const Config := ToolConfig("rustscan", "rustscan", PortScan, "Fast port scanner",
                             timeout := 300, produces := ["port"], consumes := ["ip", "domain"])

  /** `rustscan -a <target> --ulimit 5000 --greppable` */
  function BuildCommand(target: string): (argv: seq<string>)
    ensures |argv| == 6 && argv[0] == Config.binary && argv[2] == target
    ensures argv[1] == "-a" && argv[3..] == ["--ulimit", "5000", "--greppable"]
  {
    ["rustscan", "-a", target, "--ulimit", "5000", "--greppable"]
  }

  /** The asset of one open port of `ip`. */
  function PortAsset(ip: string, port: string): Asset
  {
    Asset("port", ip + ":" + port, "rustscan", map["port" := JStr(port)])
  }

  /** The assets of the comma-separated pieces of a port list: the stripped pieces that
      are all digits, in order. */
  function PortAssets(ip: string, pieces: seq<string>): seq<Asset>
  {
    if pieces == [] then []
    else
      var port := Strings.Strip(pieces[|pieces| - 1]);
      PortAssets(ip, pieces[..|pieces| - 1]) + (if Strings.IsDigits(port) then [PortAsset(ip, port)] else [])
  }

  /** The assets of one line: nothing unless the arrow pattern matches. */
  function LineAssets(line: string): seq<Asset>
  {
    match Patterns.SearchArrow(line, 0)
    case None => []
    case Some((ip, ports)) => PortAssets(ip, Strings.Split(ports, ','))
  }

  function Parsed(output: string): ToolResult
  {
    var lines := Strings.Split(Strings.Strip(output), '\n');
    ToolResult("rustscan", true, Seqs.FlatMap(lines, LineAssets), rawOutput := output)
  }

  /** The line loop of `parse_output`. */
  method ParseOutput(output: string) returns (r: ToolResult)
    ensures r == Parsed(output)
  {
    var lines := Strings.Split(Strings.Strip(output), '\n');
    var assets: seq<Asset> := [];
    for i := 0 to |lines|
      invariant assets == Seqs.FlatMap(lines[..i], LineAssets)
    {
      var m := Patterns.SearchArrow(lines[i], 0);
      if m.Some? {
        var found := ParsePorts(m.value.0, m.value.1);
        assets := assets + found;
      }
      assert lines[..i + 1][..i] == lines[..i];
    }
    assert lines[..|lines|] == lines;
    r := ToolResult("rustscan", true, assets, rawOutput := output);
  }

  /** The port loop of `parse_output` over the list group of a matching line. */
  method ParsePorts(ip: string, ports: string) returns (found: seq<Asset>)
    ensures found == PortAssets(ip, Strings.Split(ports, ','))
  {
    var pieces := Strings.Split(ports, ',');
    found := [];
    for j := 0 to |pieces|
      invariant found == PortAssets(ip, pieces[..j])
    {
      var port := Strings.Strip(pieces[j]);
      if Strings.IsDigits(port) {
        found := found + [PortAsset(ip, port)];
      }
      assert pieces[..j + 1][..j] == pieces[..j];
    }
    assert pieces[..|pieces|] == pieces;
  }

  // ---------------------------------------------------------------------------
  // properties

  /** Every asset of a port list is the port asset of a stripped, all-digit piece. */
  lemma {:induction false} PortAssetsAreDigitPieces(ip: string, pieces: seq<string>, a: Asset)
    requires a in PortAssets(ip, pieces)
    ensures exists k :: 0 <= k < |pieces| && Strings.IsDigits(Strings.Strip(pieces[k]))
                        && a == PortAsset(ip, Strings.Strip(pieces[k]))
  {
    var n := |pieces| - 1;
    if a in PortAssets(ip, pieces[..n]) {
      PortAssetsAreDigitPieces(ip, pieces[..n], a);
      var k :| 0 <= k < n && Strings.IsDigits(Strings.Strip(pieces[..n][k]))
               && a == PortAsset(ip, Strings.Strip(pieces[..n][k]));
      assert pieces[..n][k] == pieces[k];
    } else {
      assert a == PortAsset(ip, Strings.Strip(pieces[n]));
    }
  }

  /** Each all-digit piece gives its port asset. */
  lemma {:induction false} DigitPiecesGiveAssets(ip: string, pieces: seq<string>, k: nat)
    requires k < |pieces| && Strings.IsDigits(Strings.Strip(pieces[k]))
    ensures PortAsset(ip, Strings.Strip(pieces[k])) in PortAssets(ip, pieces)
  {
    var n := |pieces| - 1;
    if k < n {
      DigitPiecesGiveAssets(ip, pieces[..n], k);
      assert pieces[..n][k] == pieces[k];
    }
  }

  /** A line without the arrow pattern gives nothing; a line with it gives exactly the
      port assets of its all-digit list elements, valued `ip:port`. */
  lemma LineAssetsShape(line: string, a: Asset)
    ensures Patterns.SearchArrow(line, 0).None? ==> LineAssets(line) == []
    ensures a in LineAssets(line) ==>
              exists ip, port :: Strings.IsDigits(port) && a == Asset("port", ip + ":" + port, "rustscan", map["port" := JStr(port)])
  {
    if a in LineAssets(line) {
      var m := Patterns.SearchArrow(line, 0);
      PortAssetsAreDigitPieces(m.value.0, Strings.Split(m.value.1, ','), a);
    }
  }

  /** The whole result: successful, no findings, and every asset a port of an all-digit
      list element of some line. */
  lemma ParsedShape(output: string, a: Asset)
    ensures Parsed(output).success && Parsed(output).findings == []
    ensures a in Parsed(output).assets ==>
              a.assetType == "port" && a.discoveredBy == "rustscan" && "port" in a.metadata
              && a.metadata["port"].JStr? && Strings.IsDigits(a.metadata["port"].s)
  {
    var lines := Strings.Split(Strings.Strip(output), '\n');
    if a in Parsed(output).assets {
      Seqs.FlatMapMembership(lines, LineAssets, a);
      var i :| 0 <= i < |lines| && a in LineAssets(lines[i]);
      LineAssetsShape(lines[i], a);
    }
  }
}
