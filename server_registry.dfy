/** The server framework's registry: tools by name and resources by URI, each refusing
    a second registration under the same key. */
module ServerRegistry {
  import opened Support
  import opened ServerTypes

  class Registry {
    var tools: map<string, ServerTool>
    /** The insertion order of `tools`, which `Map.values()` follows. */
    var toolOrder: seq<string>
    var resources: map<string, ServerResource>
    var resourceOrder: seq<string>

    ghost predicate Valid()
      reads this
    {
      && Distinct(toolOrder)
      && (forall n :: n in tools <==> n in toolOrder)
      && (forall n :: n in tools ==> tools[n].name == n)
      && Distinct(resourceOrder)
      && (forall u :: u in resources <==> u in resourceOrder)
      && (forall u :: u in resources ==> resources[u].uri == u)
    }

    constructor ()
      ensures Valid()
      ensures tools == map[] && toolOrder == [] && resources == map[] && resourceOrder == []
    {
      tools, toolOrder := map[], [];
      resources, resourceOrder := map[], [];
    }

    /** `registerTool`: refuses a name that is already registered, leaving both maps
        as they were; otherwise adds exactly that entry. */
    method RegisterTool(t: ServerTool) returns (r: Result<(), string>)
      requires Valid()
      modifies this`tools, this`toolOrder
      ensures Valid()
      ensures r.Err? <==> t.name in old(tools)
      ensures r.Err? ==> r.error == "Tool with name " + t.name + " already registered"
      ensures r.Err? ==> tools == old(tools) && toolOrder == old(toolOrder)
      ensures r.Ok? ==> tools == old(tools)[t.name := t] && toolOrder == old(toolOrder) + [t.name]
    {
      if t.name in tools {
        return Err("Tool with name " + t.name + " already registered");
      }
      tools := tools[t.name := t];
      toolOrder := toolOrder + [t.name];
      r := Ok(());
    }

    /** `registerResource`: refuses a URI that is already registered. */
    method RegisterResource(res: ServerResource) returns (r: Result<(), string>)
      requires Valid()
      modifies this`resources, this`resourceOrder
      ensures Valid()
      ensures r.Err? <==> res.uri in old(resources)
      ensures r.Err? ==> r.error == "Resource with URI " + res.uri + " already registered"
      ensures r.Err? ==> resources == old(resources) && resourceOrder == old(resourceOrder)
      ensures r.Ok? ==> resources == old(resources)[res.uri := res] && resourceOrder == old(resourceOrder) + [res.uri]
    {
      if res.uri in resources {
        return Err("Resource with URI " + res.uri + " already registered");
      }
      resources := resources[res.uri := res];
      resourceOrder := resourceOrder + [res.uri];
      r := Ok(());
    }

    /** `getTool`: the stored tool, or `undefined`; it never fails. */
    function GetTool(name: string): (r: Option<ServerTool>)
      reads this
      ensures r.Some? <==> name in tools
      ensures r.Some? ==> r.value == tools[name]
    {
      if name in tools then Some(tools[name]) else None
    }

    /** `getResource`: the stored resource, or `undefined`; it never fails. */
    function GetResource(uri: string): (r: Option<ServerResource>)
      reads this
      ensures r.Some? <==> uri in resources
      ensures r.Some? ==> r.value == resources[uri]
    {
      if uri in resources then Some(resources[uri]) else None
    }

    /** `getTools`: exactly the stored tools, in insertion order. */
    function GetTools(): (r: seq<ServerTool>)
      reads this
      requires Valid()
      ensures |r| == |toolOrder| == |tools|
      ensures forall i :: 0 <= i < |r| ==> r[i] == tools[toolOrder[i]]
      ensures forall t :: t in r <==> t.name in tools && tools[t.name] == t
    {
      DistinctCardinality(toolOrder);
      assert tools.Keys == set n | n in toolOrder;
      var names, table := toolOrder, tools;
      var r := seq(|names|, i requires 0 <= i < |names| => table[names[i]]);
      assert forall t: ServerTool :: t.name in tools && tools[t.name] == t ==>
        exists i :: 0 <= i < |toolOrder| && toolOrder[i] == t.name && r[i] == t;
      r
    }

    /** `listResources`: exactly the stored resources, in insertion order. */
    function ListResources(): (r: seq<ServerResource>)
      reads this
      requires Valid()
      ensures |r| == |resourceOrder| == |resources|
      ensures forall i :: 0 <= i < |r| ==> r[i] == resources[resourceOrder[i]]
      ensures forall res :: res in r <==> res.uri in resources && resources[res.uri] == res
    {
      DistinctCardinality(resourceOrder);
      assert resources.Keys == set u | u in resourceOrder;
      var uris, table := resourceOrder, resources;
      var r := seq(|uris|, i requires 0 <= i < |uris| => table[uris[i]]);
      assert forall res: ServerResource :: res.uri in resources && resources[res.uri] == res ==>
        exists i :: 0 <= i < |resourceOrder| && resourceOrder[i] == res.uri && r[i] == res;
      r
    }

    /** `clear`: empties both maps. */
    method Clear()
      requires Valid()
      modifies this
      ensures Valid()
      ensures tools == map[] && toolOrder == [] && resources == map[] && resourceOrder == []
    {
      tools, toolOrder := map[], [];
      resources, resourceOrder := map[], [];
    }
  }

  /** A duplicate is refused, and after `clear` the same tool and resource register
      again. */
  method ClearAllowsReregistration(t: ServerTool, res: ServerResource)
    returns (first: Result<(), string>, duplicate: Result<(), string>, again: Result<(), string>, resourceAgain: Result<(), string>)
    ensures first.Ok? && again.Ok? && resourceAgain.Ok?
    ensures duplicate == Err("Tool with name " + t.name + " already registered")
  {
    var registry := new Registry();
    first := registry.RegisterTool(t);
    var _ := registry.RegisterResource(res);
    duplicate := registry.RegisterTool(t);
    registry.Clear();
    again := registry.RegisterTool(t);
    resourceAgain := registry.RegisterResource(res);
  }
}
