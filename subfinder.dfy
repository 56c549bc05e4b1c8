/** The subfinder adapter: passive subdomain discovery. */
module Subfinder {
  import opened Base
  import SubdomainLines

  const Config := ToolConfig("subfinder", "subfinder", Subdomain, "Subdomain discovery tool",
                             produces := ["subdomain"], consumes := ["domain"])

  /** `subfinder -d <target> -silent`; the target is one argument of its own. */
  function BuildCommand(target: string): (argv: seq<string>)
    ensures |argv| == 4 && argv[0] == Config.binary && argv[2] == target
    ensures argv[..2] == ["subfinder", "-d"] && argv[3..] == ["-silent"]
  {
    ["subfinder", "-d", target, "-silent"]
  }

  method ParseOutput(output: string) returns (r: ToolResult)
    ensures r == SubdomainLines.Parsed(Config.name, output)
  {
    r := SubdomainLines.Parse(Config.name, output);
  }

  /** Partial output is parsed like the whole output. */
  method ParsePartial(output: string) returns (r: ToolResult)
    ensures r == SubdomainLines.Parsed(Config.name, output)
  {
    r := ParseOutput(output);
  }
}
