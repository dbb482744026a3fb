/** The tool registry: tools by name, listed in the order their names were
    first registered. */
module Tools {
  import opened Json

  /** A tool as the registry sees it: its name, description and parameter
      schema. Running a tool is not part of the registry. */
  datatype Tool = Tool(name: string, description: string, parameters: map<string, Json>)

  /** The names in order of first registration, after registering `name`:
      a new name goes last, a known one keeps its place. */
  function NamesAfter(names: seq<string>, name: string): (r: seq<string>)
    ensures name in names ==> r == names
    ensures name !in names ==> r == names + [name]
  {
    if name in names then names else names + [name]
  }

  predicate Distinct(names: seq<string>)
  {
    forall i, j :: 0 <= i < j < |names| ==> names[i] != names[j]
  }

  /** The registry after registering `ts` in order, from empty: each step
      is the one `ToolRegistry.Register` takes. */
  function RegisterAll(ts: seq<Tool>): (r: (seq<string>, map<string, Tool>))
    decreases |ts|
  {
    if ts == [] then ([], map[])
    else
      var (names, tools) := RegisterAll(ts[..|ts| - 1]);
      var t := ts[|ts| - 1];
      (NamesAfter(names, t.name), tools[t.name := t])
  }

  /** The index of the last tool called `name`. */
  function LastIndex(ts: seq<Tool>, name: string): (i: int)
    ensures -1 <= i < |ts|
    ensures i >= 0 ==> ts[i].name == name && forall j :: i < j < |ts| ==> ts[j].name != name
    ensures i == -1 ==> forall j :: 0 <= j < |ts| ==> ts[j].name != name
    decreases |ts|
  {
    if ts == [] then -1
    else if ts[|ts| - 1].name == name then |ts| - 1
    else LastIndex(ts[..|ts| - 1], name)
  }

  /** Registering tools one after another: each name is listed once, in the
      order it first appeared; the names listed are exactly those
      registered; and each name holds the last tool registered under it. */
  lemma {:induction false} RegisterAllSpec(ts: seq<Tool>)
    ensures Distinct(RegisterAll(ts).0)
    ensures forall n :: n in RegisterAll(ts).0 <==> n in RegisterAll(ts).1
    ensures forall n :: n in RegisterAll(ts).1 <==> LastIndex(ts, n) >= 0
    ensures forall n :: n in RegisterAll(ts).1 ==> RegisterAll(ts).1[n] == ts[LastIndex(ts, n)]
    decreases |ts|
  {
    if ts != [] {
      var front := ts[..|ts| - 1];
      RegisterAllSpec(front);
      var t := ts[|ts| - 1];
      var (names, tools) := RegisterAll(front);
      forall n
        ensures n in RegisterAll(ts).1 <==> LastIndex(ts, n) >= 0
        ensures n in RegisterAll(ts).1 ==> RegisterAll(ts).1[n] == ts[LastIndex(ts, n)]
      {
        if n != t.name {
          assert LastIndex(ts, n) == LastIndex(front, n);
          if LastIndex(front, n) >= 0 {
            assert ts[LastIndex(ts, n)] == front[LastIndex(front, n)];
          }
        }
      }
    }
  }

  class ToolRegistry {
    /** The registered names, in the order a dictionary keeps them. */
    var names: seq<string>
    var tools: map<string, Tool>

    ghost predicate Valid()
      reads this
    {
      Distinct(names) && (forall n :: n in names <==> n in tools)
      && forall n :: n in tools ==> tools[n].name == n
    }

    constructor ()
      ensures Valid() && names == [] && tools == map[]
    {
      names := [];
      tools := map[];
    }

    /** `register`: the tool is now the one under its name, replacing any
        earlier one; no other entry changes. */
    method Register(t: Tool)
      requires Valid()
      modifies this
      ensures Valid()
      ensures tools == old(tools)[t.name := t]
      ensures names == NamesAfter(old(names), t.name)
      ensures GetTool(t.name) == Some(t)
    {
      if t.name !in tools {
        names := names + [t.name];
      }
      tools := tools[t.name := t];
    }

    /** `get_tool` */
    function GetTool(name: string): (r: Option<Tool>)
      reads this
      ensures r.Some? <==> name in tools
      ensures r.Some? ==> r.value == tools[name]
    {
      if name in tools then Some(tools[name]) else None
    }

    /** `list_tools`: every registered name exactly once. */
    function ListTools(): (r: seq<string>)
      requires Valid()
      reads this
      ensures Distinct(r)
      ensures forall n :: n in r <==> GetTool(n).Some?
    {
      names
    }

    /** `get_tool_schema`: None for an unknown name, else the tool's name,
        description and parameters. */
    function GetToolSchema(name: string): (r: Option<Json>)
      reads this
      ensures r.None? <==> GetTool(name).None?
      ensures r.Some? ==>
                r.value == JObj(map[
                  "name" := JStr(GetTool(name).value.name),
                  "description" := JStr(GetTool(name).value.description),
                  "parameters" := JObj(GetTool(name).value.parameters)])
    {
      match GetTool(name)
      case None => None
      case Some(t) =>
        Some(JObj(map["name" := JStr(t.name), "description" := JStr(t.description), "parameters" := JObj(t.parameters)]))
    }
  }
}
