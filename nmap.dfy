/** The nmap adapter: the XML report's open ports as `port` assets, with findings for
    clear-text services and exposed database ports. Parsing the XML is the parameter
    `parse`, `None` for a document `ElementTree` rejects. */
module Nmap {
  import opened Outcomes
  import opened Json
  import opened Models
  import opened Base
  import opened Xml
  import Strings

  const Config := ToolConfig("nmap", "nmap", PortScan, "Network port scanner",
                             timeout := 600, produces := ["port", "service"], consumes := ["ip", "domain"])

  /** `nmap -sV -sC --top-ports 1000 -oX - <target>` */
  function BuildCommand(target: string): (argv: seq<string>)
    ensures |argv| == 8 && argv[0] == Config.binary && argv[7] == target
    ensures argv[1..7] == ["-sV", "-sC", "--top-ports", "1000", "-oX", "-"]
  {
    ["nmap", "-sV", "-sC", "--top-ports", "1000", "-oX", "-", target]
  }

  /** The services reported as insecure. */
  const InsecureServices: seq<string> := ["telnet", "ftp", "smtp"]

  /** The database behind a well-known port. */
  function DatabaseOf(portId: string): Option<string>
  {
    if portId == "3306" then Some("MySQL")
    else if portId == "5432" then Some("PostgreSQL")
    else if portId == "27017" then Some("MongoDB")
    else if portId == "6379" then Some("Redis")
    else if portId == "1433" then Some("MSSQL")
    else None
  }

  /** The host's address: its first IPv4 address element, else its first IPv6 one;
      a host with neither is skipped. */
  function HostAddress(host: Element): Option<string>
  {
    var v4 := FindWith(host, "address", "addrtype", "ipv4");
    var elem := if v4.Some? then v4 else FindWith(host, "address", "addrtype", "ipv6");
    if elem.None? then None else Some(Attr(elem.value, "addr").GetOr(""))
  }

  /** A port whose `state` child says `open`. */
  predicate IsOpen(port: Element)
  {
    var state := FindChild(port, "state");
    state.Some? && Attr(state.value, "state") == Some("open")
  }

  /** An attribute of the port's `service` child, `default` without one. */
  function ServiceAttr(port: Element, key: string, default: string): string
  {
    var service := FindChild(port, "service");
    if service.Some? then Attr(service.value, key).GetOr(default) else default
  }

  function PortAsset(addr: string, portId: string, protocol: string, port: Element): Asset
  {
    Asset("port", addr + ":" + portId, "nmap",
          map["port" := JStr(portId), "protocol" := JStr(protocol), "service" := JStr(ServiceAttr(port, "name", "unknown")),
              "product" := JStr(ServiceAttr(port, "product", "")), "version" := JStr(ServiceAttr(port, "version", ""))])
  }

  function Evidence(portId: string, protocol: string, service: string): string
  {
    "Port " + portId + "/" + protocol + " - " + service
  }

  function InsecureFinding(addr: string, portId: string, protocol: string, service: string): Finding
  {
    Finding(Medium, "Insecure Service: " + Strings.Upper(service), addr,
            "Insecure " + service + " service detected on port " + portId, "nmap",
            evidence := Some(Evidence(portId, protocol, service)),
            recommendations := ["Disable " + service + " if not required", "Use encrypted alternatives (SSH, SFTP, etc.)"])
  }

  function DatabaseFinding(addr: string, portId: string, protocol: string, service: string, db: string): Finding
  {
    Finding(High, "Exposed Database: " + db, addr, db + " database port exposed", "nmap",
            evidence := Some(Evidence(portId, protocol, service)),
            recommendations := ["Restrict database access to trusted IPs only", "Use strong authentication",
                                "Enable SSL/TLS encryption"])
  }

  /** What one port of the host at `addr` gives: nothing unless it is open; otherwise
      its asset, then the insecure-service and exposed-database findings that apply. */
  function PortFound(addr: string, port: Element): Found
  {
    if !IsOpen(port) then Found([], [])
    else
      var portId := Attr(port, "portid").GetOr("");
      var protocol := Attr(port, "protocol").GetOr("tcp");
      var service := ServiceAttr(port, "name", "unknown");
      var db := DatabaseOf(portId);
      Found([PortAsset(addr, portId, protocol, port)],
            (if service in InsecureServices then [InsecureFinding(addr, portId, protocol, service)] else [])
            + (if db.Some? then [DatabaseFinding(addr, portId, protocol, service, db.value)] else []))
  }

  function PortFn(addr: string): Element -> Found
  {
    port => PortFound(addr, port)
  }

  /** What one host gives: its ports' results in document order. */
  function HostFound(host: Element): Found
  {
    match HostAddress(host)
    case None => Found([], [])
    case Some(addr) => Gather(FindAll(host, "port"), PortFn(addr))
  }

  /** An output that does not parse gives an empty result. */
  function Parsed(parse: string -> Option<Element>, output: string): ToolResult
  {
    var found := match parse(output)
      case None => Found([], [])
      case Some(root) => Gather(FindAll(root, "host"), HostFound);
    ToolResult("nmap", true, found.assets, found.findings, rawOutput := output)
  }

  /** The host loop of `parse_output`. */
  method ParseOutput(parse: string -> Option<Element>, output: string) returns (r: ToolResult)
    ensures r == Parsed(parse, output)
  {
    var root := parse(output);
    var found := Found([], []);
    if root.Some? {
      var hosts := FindAll(root.value, "host");
      for i := 0 to |hosts|
        invariant found == Gather(hosts[..i], HostFound)
      {
        GatherStep(hosts, i, HostFound);
        var here := ParseHost(hosts[i]);
        found := found.Plus(here);
      }
      assert hosts[..|hosts|] == hosts;
    }
    r := ToolResult("nmap", true, found.assets, found.findings, rawOutput := output);
  }

  /** The port loop of one host. */
  method ParseHost(host: Element) returns (r: Found)
    ensures r == HostFound(host)
  {
    var addr := HostAddress(host);
    if addr.None? {
      return Found([], []);
    }
    var ports := FindAll(host, "port");
    r := Found([], []);
    for j := 0 to |ports|
      invariant r == Gather(ports[..j], PortFn(addr.value))
    {
      GatherStep(ports, j, PortFn(addr.value));
      r := r.Plus(PortFound(addr.value, ports[j]));
    }
    assert ports[..|ports|] == ports;
  }

  // ---------------------------------------------------------------------------
  // properties

  /** An output that does not parse gives a successful, empty result. */
  lemma UnparsableOutput(parse: string -> Option<Element>, output: string)
    requires parse(output).None?
    ensures Parsed(parse, output) == ToolResult("nmap", true, [], [], output)
  {
  }

  /** A port that is not open gives nothing; an open one gives exactly one asset,
      valued `addr:portid`, and at most two findings. */
  lemma PortReport(addr: string, port: Element)
    ensures !IsOpen(port) ==> PortFound(addr, port) == Found([], [])
    ensures IsOpen(port) ==>
              |PortFound(addr, port).assets| == 1
              && PortFound(addr, port).assets[0].value == addr + ":" + Attr(port, "portid").GetOr("")
              && PortFound(addr, port).assets[0].assetType == "port"
    ensures |PortFound(addr, port).findings| <= 2 * |PortFound(addr, port).assets|
  {
  }

  /** An open port of a clear-text service gets the medium insecure-service finding,
      one on a database port the high exposed-database finding, and those are the only
      findings. */
  lemma PortFindings(addr: string, port: Element, f: Finding)
    requires IsOpen(port)
    ensures var portId := Attr(port, "portid").GetOr("");
            var protocol := Attr(port, "protocol").GetOr("tcp");
            var service := ServiceAttr(port, "name", "unknown");
            f in PortFound(addr, port).findings <==>
              (service in InsecureServices && f == InsecureFinding(addr, portId, protocol, service))
              || (DatabaseOf(portId).Some? && f == DatabaseFinding(addr, portId, protocol, service, DatabaseOf(portId).value))
  {
  }

  /** The five database ports are the only ones reported as exposed databases. */
  lemma DatabasePorts(portId: string)
    ensures DatabaseOf(portId).Some? <==> portId in ["3306", "5432", "27017", "6379", "1433"]
  {
  }

  /** A host without an IPv4 or IPv6 address element gives nothing. */
  lemma HostWithoutAddress(host: Element)
    requires forall x :: x in Descendants(host) ==>
               !(x.tag == "address" && (Attr(x, "addrtype") == Some("ipv4") || Attr(x, "addrtype") == Some("ipv6")))
    ensures HostFound(host) == Found([], [])
  {
  }

  /** An IPv4 address wins over an IPv6 one. */
  lemma Ipv4Preferred(host: Element)
    requires FindWith(host, "address", "addrtype", "ipv4").Some?
    ensures HostAddress(host) == Some(Attr(FindWith(host, "address", "addrtype", "ipv4").value, "addr").GetOr(""))
  {
  }

  /** Every asset of a report is a port asset, and there are at most two findings per
      asset. */
  lemma ReportShape(parse: string -> Option<Element>, output: string, a: Asset)
    ensures var r := Parsed(parse, output);
            (a in r.assets ==> a.assetType == "port" && a.discoveredBy == "nmap")
            && |r.findings| <= 2 * |r.assets|
  {
    var root := parse(output);
    if root.Some? {
      var hosts := FindAll(root.value, "host");
      forall i | 0 <= i < |hosts|
        ensures |HostFound(hosts[i]).findings| <= 2 * |HostFound(hosts[i]).assets|
        ensures a in HostFound(hosts[i]).assets ==> a.assetType == "port" && a.discoveredBy == "nmap"
      {
        HostShape(hosts[i], a);
      }
      GatherFindingsPerAsset(hosts, HostFound, 2);
      GatherMembership(hosts, HostFound, a, Finding(Info, "", "", "", ""));
    }
  }

  lemma HostShape(host: Element, a: Asset)
    ensures |HostFound(host).findings| <= 2 * |HostFound(host).assets|
    ensures a in HostFound(host).assets ==> a.assetType == "port" && a.discoveredBy == "nmap"
  {
    var addr := HostAddress(host);
    if addr.Some? {
      var ports := FindAll(host, "port");
      forall j | 0 <= j < |ports|
        ensures |PortFn(addr.value)(ports[j]).findings| <= 2 * |PortFn(addr.value)(ports[j]).assets|
      {
        PortReport(addr.value, ports[j]);
      }
      GatherFindingsPerAsset(ports, PortFn(addr.value), 2);
      HostAssetsArePorts(ports, addr.value, a);
    }
  }

  lemma HostAssetsArePorts(ports: seq<Element>, addr: string, a: Asset)
    ensures a in Gather(ports, PortFn(addr)).assets ==> a.assetType == "port" && a.discoveredBy == "nmap"
  {
    GatherMembership(ports, PortFn(addr), a, Finding(Info, "", "", "", ""));
  }
}
