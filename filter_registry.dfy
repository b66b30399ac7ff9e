/**
 * The filters handed to the template parser: one filter per connected tool,
 * keyed by the tool's sanitized name (`mapOfTools`), spread over the
 * built-in filters of default-filters.ts, so that a tool overrides a
 * built-in filter of the same name.
 */
module FilterRegistry {
  import opened ToolBridge
  import SafeName

  /** The built-in filters: `JSON.stringify`, `JSON.parse` and `value.length`. */
  datatype BuiltinFilter = JsonStringify | JsonParse | LengthOf

  /** A filter of the merged map: built in, or the wrapper around a tool. */
  datatype Filter = Builtin(builtin: BuiltinFilter) | Bridged(tool: Tool)

  /** The default filters, keyed as in default-filters.ts. */
  function DefaultFilters(): (m: map<string, Filter>)
    ensures m.Keys == {"JSONstringify", "JSONparse", "length"}
    ensures forall name :: name in m ==> m[name].Builtin?
  {
    map["JSONstringify" := Builtin(JsonStringify),
        "JSONparse" := Builtin(JsonParse),
        "length" := Builtin(LengthOf)]
  }

  /** The filter name a tool is registered under. */
  function FilterName(tool: Tool): string {
    SafeName.TransformSafeName(tool.name)
  }

  /** The filter names of all the tools. */
  function ToolNames(tools: seq<Tool>): set<string> {
    set k | 0 <= k < |tools| :: FilterName(tools[k])
  }

  /**
   * `Object.fromEntries(connectedTools.map((t) => [transformSafeName(t.name), wrapper(t)]))`:
   * the entries are set in list order, so a later tool overwrites an earlier
   * one with the same filter name.
   */
  function MapOfTools(tools: seq<Tool>): (m: map<string, Filter>)
    ensures m.Keys == ToolNames(tools)
  {
    if tools == [] then map[]
    else
      var init := tools[..|tools| - 1];
      var last := tools[|tools| - 1];
      ToolNamesSnoc(tools);
      MapOfTools(init)[FilterName(last) := Bridged(last)]
  }

  /** The names of a non-empty list are those of all but its last tool, plus the last one's. */
  lemma ToolNamesSnoc(tools: seq<Tool>)
    requires |tools| > 0
    ensures ToolNames(tools) == ToolNames(tools[..|tools| - 1]) + {FilterName(tools[|tools| - 1])}
  {
    var init := tools[..|tools| - 1];
    forall name | name in ToolNames(tools)
      ensures name in ToolNames(init) + {FilterName(tools[|tools| - 1])}
    {
      var k :| 0 <= k < |tools| && FilterName(tools[k]) == name;
      if k < |init| {
        assert init[k] == tools[k];
      }
    }
    forall k | 0 <= k < |init| ensures FilterName(init[k]) in ToolNames(tools) {
      assert init[k] == tools[k];
    }
  }

  /** `{ ...defaultFilters, ...mapOfTools }`. */
  function Filters(tools: seq<Tool>): (m: map<string, Filter>)
    ensures m.Keys == DefaultFilters().Keys + ToolNames(tools)
  {
    DefaultFilters() + MapOfTools(tools)
  }

  /** `tools[j]` is the last tool in the list whose filter name is `name`. */
  predicate IsLastNamed(tools: seq<Tool>, j: int, name: string) {
    && 0 <= j < |tools|
    && FilterName(tools[j]) == name
    && forall k :: j < k < |tools| ==> FilterName(tools[k]) != name
  }

  /** Among tools with the same filter name, the last one in the list is the one in the map. */
  lemma {:induction false} LaterToolWins(tools: seq<Tool>, j: int, name: string)
    requires IsLastNamed(tools, j, name)
    ensures name in MapOfTools(tools) && MapOfTools(tools)[name] == Bridged(tools[j])
    decreases |tools|
  {
    var init := tools[..|tools| - 1];
    if j < |tools| - 1 {
      assert IsLastNamed(init, j, name);
      LaterToolWins(init, j, name);
    }
  }

  /** A tool's filter overrides the default filter of the same name. */
  lemma ToolOverridesDefault(tools: seq<Tool>, j: int, name: string)
    requires IsLastNamed(tools, j, name)
    ensures Filters(tools)[name] == Bridged(tools[j])
  {
    LaterToolWins(tools, j, name);
  }

  /** A default filter that no tool is named after is kept. */
  lemma DefaultKept(tools: seq<Tool>, name: string)
    requires name in DefaultFilters()
    requires forall k :: 0 <= k < |tools| ==> FilterName(tools[k]) != name
    ensures Filters(tools)[name] == DefaultFilters()[name]
  {
  }

  /**
   * A sanitized name has no upper-case letter, so a tool can never take the
   * place of `JSONstringify` or `JSONparse`; of the defaults only `length`
   * can be overridden, for instance by a tool named "Length".
   */
  lemma OnlyLengthCanCollide(tool: Tool)
    ensures FilterName(tool) != "JSONstringify"
    ensures FilterName(tool) != "JSONparse"
    ensures FilterName(tool) in DefaultFilters() ==> FilterName(tool) == "length"
  {
    var r := FilterName(tool);
    assert SafeName.IsUpperAscii("JSONstringify"[0]) && SafeName.IsUpperAscii("JSONparse"[0]);
    assert |r| > 0 ==> !SafeName.IsUpperAscii(r[0]);
  }

  /** A tool named "Length" takes over the `length` filter. */
  lemma LengthToolOverrides(tools: seq<Tool>)
    requires |tools| > 0 && tools[|tools| - 1].name == "Length"
    ensures Filters(tools)["length"] == Bridged(tools[|tools| - 1])
  {
    SafeName.LengthExample();
    ToolOverridesDefault(tools, |tools| - 1, "length");
  }
}
