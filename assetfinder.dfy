/** The assetfinder adapter: subdomains only. */
module Assetfinder {
  import opened Base
  import SubdomainLines

  const Config := ToolConfig("assetfinder", "assetfinder", Subdomain, "Find subdomains and related domains",
                             produces := ["subdomain"], consumes := ["domain"])

  /** `assetfinder --subs-only <target>` */
  function BuildCommand(target: string): (argv: seq<string>)
    ensures |argv| == 3 && argv[0] == Config.binary && argv[2] == target
    ensures argv[1] == "--subs-only"
  {
    ["assetfinder", "--subs-only", target]
  }

  method ParseOutput(output: string) returns (r: ToolResult)
    ensures r == SubdomainLines.Parsed(Config.name, output)
  {
    r := SubdomainLines.Parse(Config.name, output);
  }

  /** Partial output is parsed like the whole output. */
  method ParsePartial(output: string) returns (r: ToolResult)
    ensures r == SubdomainLines.Parsed(Config.name, output)
  {
    r := ParseOutput(output);
  }
}
