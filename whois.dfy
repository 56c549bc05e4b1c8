/** The whois adapter: registrar, creation date and name servers read from the
    free-text record by case-insensitive label patterns, and a finding when the record
    is privacy-protected. */
module Whois {
  import opened Outcomes
  import opened Models
  import opened Base
  import Strings
  import Seqs
  import Patterns

  const Config := ToolConfig("whois", "whois", Osint, "Query WHOIS information",
                             produces := ["whois_info"], consumes := ["domain"])

  /** `whois <target>` */
  function BuildCommand(target: string): (argv: seq<string>)
    ensures |argv| == 2 && argv[0] == Config.binary && argv[1] == target
  {
    ["whois", target]
  }

  /** `Registrar: <name>`, when the record names one. */
  function RegistrarAssets(output: string): seq<Asset>
  {
    match Patterns.LabelValue(output, "Registrar:")
    case None => []
    case Some(g) => [Asset("whois_info", "Registrar: " + Strings.Strip(g), "whois")]
  }

  /** `Created: <date>`, when the record has a creation date. */
  function CreatedAssets(output: string): seq<Asset>
  {
    match Patterns.LabelValue(output, "Creation Date:")
    case None => []
    case Some(g) => [Asset("whois_info", "Created: " + Strings.Strip(g), "whois")]
  }

  /** The name servers, stripped and lowercased. */
  function NameServers(output: string): seq<string>
  {
    Patterns.LabelValues(output, "Name Server:", 0)
  }

  function NameServerAsset(ns: string): Asset
  {
    Asset("nameserver", Strings.Lower(Strings.Strip(ns)), "whois")
  }

  predicate PrivacyProtected(output: string)
  {
    Strings.Contains(Strings.Lower(output), "redacted") || Strings.Contains(Strings.Lower(output), "privacy")
  }

  /** The domain named by the record, `unknown` without one. */
  function Domain(output: string): string
  {
    match Patterns.LabelValue(output, "Domain Name:")
    case None => "unknown"
    case Some(g) => Strings.Strip(g)
  }

  function PrivacyFindings(output: string): seq<Finding>
  {
    if PrivacyProtected(output) then
      [Finding(Info, "Domain Privacy Enabled", Domain(output), "Domain has privacy protection enabled", "whois")]
    else []
  }

  function Parsed(output: string): ToolResult
  {
    ToolResult("whois", true,
               RegistrarAssets(output) + CreatedAssets(output) + Seqs.Map(NameServers(output), NameServerAsset),
               PrivacyFindings(output), rawOutput := output)
  }

  /** `parse_output`, with its name-server loop. */
  method ParseOutput(output: string) returns (r: ToolResult)
    ensures r == Parsed(output)
  {
    var assets := RegistrarAssets(output) + CreatedAssets(output);
    var base := assets;
    var servers := NameServers(output);
    for i := 0 to |servers|
      invariant assets == base + Seqs.Map(servers[..i], NameServerAsset)
    {
      Seqs.MapPrefix(servers, i, NameServerAsset);
      assets := assets + [NameServerAsset(servers[i])];
    }
    assert servers[..|servers|] == servers;
    r := ToolResult("whois", true, assets, PrivacyFindings(output), rawOutput := output);
  }

  // ---------------------------------------------------------------------------
  // properties

  /** The assets: at most one registrar and one creation date, both `whois_info`, then
      one name server per `Name Server:` line, in order. */
  lemma AssetsShape(output: string)
    ensures Parsed(output).assets == RegistrarAssets(output) + CreatedAssets(output) + Seqs.Map(NameServers(output), NameServerAsset)
    ensures |RegistrarAssets(output)| <= 1 && |CreatedAssets(output)| <= 1
    ensures |Parsed(output).assets| == |RegistrarAssets(output)| + |CreatedAssets(output)| + |NameServers(output)|
    ensures forall a :: a in RegistrarAssets(output) + CreatedAssets(output) ==> a.assetType == "whois_info"
  {
  }

  /** Every name server asset is in lower case. */
  lemma NameServersLowerCase(output: string)
    ensures var m := Seqs.Map(NameServers(output), NameServerAsset);
            forall k :: 0 <= k < |m| ==> m[k].assetType == "nameserver" && IsLowerCase(m[k].value)
  {
    var servers := NameServers(output);
    forall k | 0 <= k < |servers|
      ensures IsLowerCase(NameServerAsset(servers[k]).value)
    {
      LowerIsLowerCase(Strings.Strip(servers[k]));
    }
  }

  /** No ASCII capital letter. */
  predicate IsLowerCase(s: string)
  {
    forall i :: 0 <= i < |s| ==> !('A' <= s[i] <= 'Z')
  }

  lemma LowerIsLowerCase(s: string)
    ensures IsLowerCase(Strings.Lower(s))
  {
  }

  /** The registrar asset names the registrar line's value. */
  lemma RegistrarAsset(output: string)
    ensures RegistrarAssets(output) != [] <==> Patterns.LabelValue(output, "Registrar:").Some?
    ensures RegistrarAssets(output) != [] ==>
              RegistrarAssets(output)[0].value == "Registrar: " + Strings.Strip(Patterns.LabelValue(output, "Registrar:").value)
  {
  }

  /** The privacy finding appears exactly when the record mentions redaction or privacy,
      and is filed under the record's domain. */
  lemma PrivacyFinding(output: string)
    ensures |Parsed(output).findings| <= 1
    ensures Parsed(output).findings != [] <==> PrivacyProtected(output)
    ensures forall f :: f in Parsed(output).findings ==> f.severity == Info && f.host == Domain(output)
  {
  }
}
