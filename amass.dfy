/** The amass adapter: passive subdomain enumeration. */
module Amass {
  import opened Base
  import SubdomainLines

  const Config := ToolConfig("amass", "amass", Subdomain, "Advanced subdomain enumeration",
                             timeout := 600, produces := ["subdomain"], consumes := ["domain"])

  /** `amass enum -d <target> -passive` */
  function BuildCommand(target: string): (argv: seq<string>)
    ensures |argv| == 5 && argv[0] == Config.binary && argv[3] == target
    ensures argv[..3] == ["amass", "enum", "-d"] && argv[4..] == ["-passive"]
  {
    ["amass", "enum", "-d", target, "-passive"]
  }

  method ParseOutput(output: string) returns (r: ToolResult)
    ensures r == SubdomainLines.Parsed(Config.name, output)
  {
    r := SubdomainLines.Parse(Config.name, output);
  }

  /** Partial output is parsed like the whole output. */
  method ParsePartial(output: string) returns (r: ToolResult)
    ensures r == SubdomainLines.Parsed(Config.name, output)
  {
    r := ParseOutput(output);
  }
}
