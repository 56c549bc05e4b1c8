/** The whatweb adapter: one `technology` asset per plugin reported for a target. */
module Whatweb {
  import opened Outcomes
  import opened Json
  import opened Models
  import opened Base
  import Strings
  import Seqs

  const Config := ToolConfig("whatweb", "whatweb", Technology, "Web technology identifier",
                             produces := ["technology"], consumes := ["http_service"])

  /** `whatweb --log-json=/dev/stdout <target>` */
  function BuildCommand(target: string): (argv: seq<string>)
    ensures |argv| == 3 && argv[0] == Config.binary && argv[1] == "--log-json=/dev/stdout" && argv[2] == target
  {
    ["whatweb", "--log-json=/dev/stdout", target]
  }

  /** The plugin's version: the first element of its `version` entry when it has one,
      else the empty string. Indexing raises on an empty list, as in the source. */
  function Version(pluginData: Json): Outcome<Json>
    requires pluginData.JObj?
  {
    if Has(pluginData, "version") then First(Lookup(pluginData.members, "version").value) else Done(JStr(""))
  }

  /** `name`, followed by the version when there is a truthy one. */
  function TechValue(name: string, version: Json): string
  {
    if Truthy(version) then name + " " + Str(version) else name
  }

  function TechAsset(url: Json, name: string, version: Json): Asset
  {
    Asset("technology", TechValue(name, version), "whatweb",
          map["url" := url, "technology" := JStr(name), "version" := version])
  }

  /** One plugin of a record; plugin data that is not an object is skipped. */
  function PluginAssets(url: Json, plugin: (string, Json)): Outcome<seq<Asset>>
  {
    if !plugin.1.JObj? then Done([])
    else
      var version :- Version(plugin.1);
      Done([TechAsset(url, plugin.0, version)])
  }

  function PluginFn(url: Json): ((string, Json)) -> Outcome<seq<Asset>>
  {
    plugin => PluginAssets(url, plugin)
  }

  /** The assets of a decoded record. */
  function RecordAssets(data: Json): Outcome<seq<Asset>>
  {
    var url :- Get(data, "target", JStr(""));
    var plugins :- Get(data, "plugins", JObj([]));
    var items :- Items(plugins);
    Collect(items, PluginFn(url))
  }

  function LineAssets(decode: string -> Option<Json>, line: string): Outcome<seq<Asset>>
  {
    if line == [] then Done([])
    else
      match decode(line)
      case None => Done([])
      case Some(data) => RecordAssets(data)
  }

  function LineFn(decode: string -> Option<Json>): string -> Outcome<seq<Asset>>
  {
    line => LineAssets(decode, line)
  }

  function Lines(output: string): seq<string>
  {
    Strings.Split(Strings.Strip(output), '\n')
  }

  function Parsed(decode: string -> Option<Json>, output: string): Outcome<ToolResult>
  {
    var assets :- Collect(Lines(output), LineFn(decode));
    Done(ToolResult("whatweb", true, assets, rawOutput := output))
  }

  /** The line loop of `parse_output`. */
  method ParseOutput(decode: string -> Option<Json>, output: string) returns (r: Outcome<ToolResult>)
    ensures r == Parsed(decode, output)
  {
    var lines := Lines(output);
    var assets: seq<Asset> := [];
    for i := 0 to |lines|
      invariant Collect(lines[..i], LineFn(decode)) == Done(assets)
    {
      var here: Outcome<seq<Asset>> := Done([]);
      if lines[i] != [] {
        var data := decode(lines[i]);
        if data.Some? {
          here := ParseRecord(data.value);
        }
      }
      assert here == LineFn(decode)(lines[i]);
      CollectStep(lines, i, LineFn(decode), assets);
      if here.Raised? {
        CollectRaisedStays(lines, i + 1, LineFn(decode));
        return Raised(here.exception);
      }
      assets := assets + here.value;
    }
    assert lines[..|lines|] == lines;
    r := Done(ToolResult("whatweb", true, assets, rawOutput := output));
  }

  /** The plugin loop for one decoded record. */
  method ParseRecord(data: Json) returns (r: Outcome<seq<Asset>>)
    ensures r == RecordAssets(data)
  {
    if !data.JObj? {
      return Raised("AttributeError");
    }
    var url := Get(data, "target", JStr("")).value;
    var plugins := Get(data, "plugins", JObj([])).value;
    var items :- Items(plugins);
    var assets: seq<Asset> := [];
    for j := 0 to |items|
      invariant Collect(items[..j], PluginFn(url)) == Done(assets)
    {
      var here := PluginAssets(url, items[j]);
      CollectStep(items, j, PluginFn(url), assets);
      if here.Raised? {
        CollectRaisedStays(items, j + 1, PluginFn(url));
        return Raised(here.exception);
      }
      assets := assets + here.value;
    }
    assert items[..|items|] == items;
    r := Done(assets);
  }

  // ---------------------------------------------------------------------------
  // properties

  /** A plugin without a version is named alone, with an empty version. */
  lemma PluginWithoutVersion(url: Json, name: string, data: seq<(string, Json)>)
    requires Lookup(data, "version").None?
    ensures PluginAssets(url, (name, JObj(data)))
            == Done([Asset("technology", name, "whatweb", map["url" := url, "technology" := JStr(name), "version" := JStr("")])])
  {
  }

  /** A plugin whose version list starts with a non-empty string `v` is named
      `name v`, and keeps `v` as its version. */
  lemma PluginWithVersion(url: Json, name: string, data: seq<(string, Json)>, v: string, more: seq<Json>)
    requires Lookup(data, "version") == Some(JArr([JStr(v)] + more)) && v != []
    ensures PluginAssets(url, (name, JObj(data)))
            == Done([Asset("technology", name + " " + v, "whatweb", map["url" := url, "technology" := JStr(name), "version" := JStr(v)])])
  {
  }

  /** An empty version list raises IndexError out of the parse. */
  lemma EmptyVersionListRaises(url: Json, name: string, data: seq<(string, Json)>)
    requires Lookup(data, "version") == Some(JArr([]))
    ensures PluginAssets(url, (name, JObj(data))) == Raised("IndexError")
  {
  }

  /** Plugin data that is not an object gives nothing. */
  lemma NonObjectPluginSkipped(url: Json, plugin: (string, Json))
    requires !plugin.1.JObj?
    ensures PluginAssets(url, plugin) == Done([])
  {
  }

  /** A record's assets correspond one to one with its object-valued plugins, in
      order: the i-th asset names the i-th such plugin. */
  lemma {:induction false} RecordAssetsNamePlugins(url: Json, items: seq<(string, Json)>)
    requires Collect(items, PluginFn(url)).Done?
    ensures var assets := Collect(items, PluginFn(url)).value;
            |assets| == |Seqs.Filter(items, IsObjectPlugin)|
            && forall k :: 0 <= k < |assets| ==>
                 assets[k].assetType == "technology" && assets[k].discoveredBy == "whatweb"
                 && "technology" in assets[k].metadata && assets[k].metadata["technology"] == JStr(Seqs.Filter(items, IsObjectPlugin)[k].0)
  {
    if items != [] {
      var n := |items| - 1;
      RecordAssetsNamePlugins(url, items[..n]);
    }
  }

  predicate IsObjectPlugin(plugin: (string, Json))
  {
    plugin.1.JObj?
  }
}
