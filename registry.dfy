/** The tool registry: adapters by name, kept in the order their names were first
    registered (the iteration order of the source's `dict`), and the queries over them.
    Availability is read against the set of binaries found on the search path. */
module Registry {
  import opened Outcomes
  import opened Base
  import Seqs
  import Whois
  import Dnsrecon
  import Dnsx
  import Subfinder
  import Amass
  import Assetfinder
  import Nmap
  import Masscan
  import Rustscan
  import Httpx
  import Whatweb
  import Wafw00f
  import Nuclei
  import Nikto
  import Wpscan

  function NameOf(t: ToolAdapter): string { t.config.name }

  /** The adapters of `names`, in order. */
  function ValuesOf(names: seq<string>, tools: map<string, ToolAdapter>): (r: seq<ToolAdapter>)
    requires forall n :: n in names ==> n in tools
    ensures |r| == |names|
    ensures forall i :: 0 <= i < |names| ==> r[i] == tools[names[i]]
  {
    if names == [] then [] else ValuesOf(names[..|names| - 1], tools) + [tools[names[|names| - 1]]]
  }

  /** The names whose adapter satisfies `p`. */
  function Holds(tools: map<string, ToolAdapter>, p: ToolAdapter -> bool): string -> bool
  {
    n => n in tools && p(tools[n])
  }

  /** Filtering the adapters is filtering their names. */
  lemma {:induction false} FilterValues(names: seq<string>, tools: map<string, ToolAdapter>, p: ToolAdapter -> bool)
    requires forall n :: n in names ==> n in tools && tools[n].config.name == n
    ensures Seqs.Map(Seqs.Filter(ValuesOf(names, tools), p), NameOf)
            == Seqs.Filter(names, Holds(tools, p))
  {
    if names != [] {
      var n := |names| - 1;
      FilterValues(names[..n], tools, p);
      assert ValuesOf(names, tools)[..n] == ValuesOf(names[..n], tools);
      Seqs.MapConcat(Seqs.Filter(ValuesOf(names[..n], tools), p),
                     if p(tools[names[n]]) then [tools[names[n]]] else [], NameOf);
    }
  }

  class ToolRegistry {
    /** Registered names, in first-registration order. */
    var names: seq<string>
    var tools: map<string, ToolAdapter>

    /** Each name is listed once, the map holds exactly the listed names, and every
        adapter is filed under its own name. */
    predicate Valid()
      reads this
    {
      Seqs.NoDup(names)
      && (forall n :: n in tools ==> n in names)
      && (forall n :: n in names ==> n in tools)
      && (forall n :: n in tools ==> tools[n].config.name == n)
    }

    constructor ()
      ensures Valid() && names == [] && tools == map[]
    {
      names := [];
      tools := map[];
    }

    /** Files `adapter` under its name, replacing any adapter of that name in place. */
    method Register(adapter: ToolAdapter)
      requires Valid()
      modifies this
      ensures Valid()
      ensures tools == old(tools)[adapter.config.name := adapter]
      ensures names == if adapter.config.name in old(names) then old(names) else old(names) + [adapter.config.name]
    {
      var name := adapter.config.name;
      if name !in tools {
        Seqs.AppendNoDup(names, name);
        names := names + [name];
      }
      tools := tools[name := adapter];
    }

    /** `get(name)` */
    function Get(name: string): (r: Option<ToolAdapter>)
      reads this
      requires Valid()
      ensures r.Some? <==> name in names
      ensures r.Some? ==> r.value.config.name == name
    {
      if name in tools then Some(tools[name]) else None
    }

    /** `all_tools()`: every registered adapter once, in registration order. */
    function AllTools(): (r: seq<ToolAdapter>)
      reads this
      requires Valid()
      ensures Seqs.Map(r, NameOf) == names
      ensures forall t :: t in r <==> exists n :: n in names && tools[n] == t
    {
      var r := ValuesOf(names, tools);
      assert forall i :: 0 <= i < |r| ==> r[i].config.name == names[i];
      r
    }

    /** The adapters satisfying `p`, in registration order. */
    function Select(p: ToolAdapter -> bool): (r: seq<ToolAdapter>)
      reads this
      requires Valid()
      ensures forall t :: t in r <==> t in AllTools() && p(t)
      ensures Seqs.Map(r, NameOf) == Seqs.Filter(names, Holds(tools, p))
    {
      var all := AllTools();
      assert forall t :: t in Seqs.Filter(all, p) <==> t in all && p(t) by {
        forall t {
          Seqs.FilterMembership(all, p, t);
        }
      }
      FilterValues(names, tools, p);
      Seqs.Filter(all, p)
    }

    /** `get_by_category(category)` */
    function GetByCategory(category: ToolCategory): (r: seq<ToolAdapter>)
      reads this
      requires Valid()
      ensures forall t :: t in r <==> t in AllTools() && t.config.category == category
    {
      Select((t: ToolAdapter) => t.config.category == category)
    }

    /** `get_available()`: the adapters whose binary is on the path. */
    function GetAvailable(onPath: set<string>): (r: seq<ToolAdapter>)
      reads this
      requires Valid()
      ensures forall t :: t in r <==> t in AllTools() && IsAvailable(t, onPath)
      ensures |r| <= |AllTools()|
    {
      Select((t: ToolAdapter) => IsAvailable(t, onPath))
    }

    /** `get_for_asset_type(asset_type)`: the adapters that consume the type. */
    function GetForAssetType(assetType: string): (r: seq<ToolAdapter>)
      reads this
      requires Valid()
      ensures forall t :: t in r <==> t in AllTools() && assetType in t.config.consumes
    {
      Select((t: ToolAdapter) => assetType in t.config.consumes)
    }

    /** `get_producers(asset_type)`: the adapters that produce the type. */
    function GetProducers(assetType: string): (r: seq<ToolAdapter>)
      reads this
      requires Valid()
      ensures forall t :: t in r <==> t in AllTools() && assetType in t.config.produces
    {
      Select((t: ToolAdapter) => assetType in t.config.produces)
    }
  }

  /** The adapters of the default registry, in registration order. */
  const DefaultConfigs: seq<ToolConfig> := [
    Whois.Config, Dnsrecon.Config, Dnsx.Config, Subfinder.Config, Amass.Config,
    Assetfinder.Config, Nmap.Config, Masscan.Config, Rustscan.Config, Httpx.Config,
    Whatweb.Config, Wafw00f.Config, Nuclei.Config, Nikto.Config, Wpscan.Config]

  const DefaultNames: seq<string> := [
    "whois", "dnsrecon", "dnsx", "subfinder", "amass", "assetfinder", "nmap", "masscan",
    "rustscan", "httpx", "whatweb", "wafw00f", "nuclei", "nikto", "wpscan"]

  /** The adapter map after registering the first `n` default adapters. */
  function DefaultMap(n: nat): map<string, ToolAdapter>
    requires n <= |DefaultConfigs|
  {
    if n == 0 then map[] else DefaultMap(n - 1)[DefaultConfigs[n - 1].name := ToolAdapter(DefaultConfigs[n - 1])]
  }

  /** Each of the first `n` default adapters is filed under its own name. */
  lemma {:induction false} DefaultMapAt(n: nat, k: nat)
    requires k < n <= |DefaultConfigs|
    ensures DefaultConfigs[k].name in DefaultMap(n)
    ensures DefaultMap(n)[DefaultConfigs[k].name] == ToolAdapter(DefaultConfigs[k])
  {
    DefaultNamesDistinct();
    if k < n - 1 {
      DefaultMapAt(n - 1, k);
      assert DefaultNames[k] != DefaultNames[n - 1];
    }
  }

  /** `create_default_registry()`: the fifteen adapters, registered one after another. */
  method CreateDefaultRegistry() returns (registry: ToolRegistry)
    ensures fresh(registry) && registry.Valid()
    ensures registry.names == DefaultNames
    ensures forall i :: 0 <= i < |DefaultConfigs| ==> registry.tools[DefaultConfigs[i].name] == ToolAdapter(DefaultConfigs[i])
  {
    registry := new ToolRegistry();
    DefaultNamesDistinct();
    for i := 0 to |DefaultConfigs|
      invariant registry.Valid()
      invariant registry.names == DefaultNames[..i]
      invariant registry.tools == DefaultMap(i)
    {
      assert DefaultConfigs[i].name == DefaultNames[i];
      assert DefaultNames[i] !in DefaultNames[..i];
      registry.Register(ToolAdapter(DefaultConfigs[i]));
      assert DefaultNames[..i + 1] == DefaultNames[..i] + [DefaultNames[i]];
    }
    assert DefaultNames[..|DefaultConfigs|] == DefaultNames;
    forall i | 0 <= i < |DefaultConfigs|
      ensures registry.tools[DefaultConfigs[i].name] == ToolAdapter(DefaultConfigs[i])
    {
      DefaultMapAt(|DefaultConfigs|, i);
    }
  }

  /** The default adapters have fifteen distinct names, each its configuration's. */
  lemma DefaultNamesDistinct()
    ensures |DefaultConfigs| == |DefaultNames| == 15
    ensures forall i :: 0 <= i < 15 ==> DefaultConfigs[i].name == DefaultNames[i]
    ensures Seqs.NoDup(DefaultNames)
  {
    forall i, j | 0 <= i < j < 15
      ensures DefaultNames[i] != DefaultNames[j]
    {
      NamesDiffer(i, j);
    }
  }

  lemma NamesDiffer(i: nat, j: nat)
    requires i < j < 15
    ensures DefaultNames[i] != DefaultNames[j]
  {
    var a := DefaultNames[i];
    var b := DefaultNames[j];
    if |a| == |b| {
      assert a[0] != b[0] || a[1] != b[1] || a[|a| - 1] != b[|b| - 1];
    }
  }
}
