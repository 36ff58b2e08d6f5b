/** Callables: a fluent builder of tool descriptions and their JSON Schema
    and OpenAI tool-schema forms (callable.ts). */
module Callable {
  import opened Wrappers
  import opened JsonValue

  /** A parameter or return description: its `name`, and its other own
      properties in order (JSON Schema keywords, `optional`,
      `defaultValue`). */
  datatype Entry = Entry(name: string, props: seq<(string, Json)>)

  /** The entry as the object it is in the program, `name` first. */
  function AsObject(e: Entry): seq<(string, Json)> {
    [("name", JStr(e.name))] + e.props
  }

  /** `defaultValue != null`: present and not `null`. */
  predicate HasDefault(e: Entry) {
    var d := Lookup(e.props, "defaultValue");
    d.Some? && d.value != JNull
  }

  /** The schema of one entry: a copy of the entry, with `default` set to
      `defaultValue` when that is not null, and `name` deleted. */
  function EntrySchema(e: Entry): (r: seq<(string, Json)>)
    ensures Lookup(r, "name") == None
    ensures HasDefault(e) ==> Lookup(r, "default") == Lookup(e.props, "defaultValue")
    ensures !HasDefault(e) ==> Lookup(r, "default") == Lookup(e.props, "default")
    ensures forall k :: k != "name" && k != "default" ==> Lookup(r, k) == Lookup(e.props, k)
  {
    var copy := AsObject(e);
    var withDefault := if HasDefault(e) then Put(copy, "default", Lookup(e.props, "defaultValue").value) else copy;
    Remove(withDefault, "name")
  }

  /** The `reduce` building `properties`: each entry stored under its name,
      a later entry overwriting an earlier one of the same name. */
  function Properties(es: seq<Entry>): seq<(string, Json)>
    decreases |es|
  {
    if es == [] then []
    else Put(Properties(es[..|es| - 1]), es[|es| - 1].name, JObj(EntrySchema(es[|es| - 1])))
  }

  /** The last entry named `n`. */
  function LastNamed(es: seq<Entry>, n: string): Option<Entry>
    decreases |es|
  {
    if es == [] then None
    else if es[|es| - 1].name == n then Some(es[|es| - 1])
    else LastNamed(es[..|es| - 1], n)
  }

  function Names(es: seq<Entry>): (r: seq<string>)
    ensures |r| == |es| && forall i :: 0 <= i < |es| ==> r[i] == es[i].name
  {
    if es == [] then [] else Names(es[..|es| - 1]) + [es[|es| - 1].name]
  }

  /** Under each name, `properties` holds the schema of the last entry of
      that name, and no other key is present. */
  lemma {:induction false} PropertiesLookup(es: seq<Entry>, n: string)
    ensures Lookup(Properties(es), n) ==
      match LastNamed(es, n)
      case None => None
      case Some(e) => Some(JObj(EntrySchema(e)))
  {
    if es != [] {
      PropertiesLookup(es[..|es| - 1], n);
    }
  }

  predicate DistinctNames(es: seq<Entry>) {
    forall i, j :: 0 <= i < j < |es| ==> es[i].name != es[j].name
  }

  /** With distinct names, `properties` has one key per entry, in order. */
  lemma {:induction false} PropertiesKeys(es: seq<Entry>)
    requires DistinctNames(es)
    ensures Keys(Properties(es)) == Names(es)
  {
    if es != [] {
      var prefix := es[..|es| - 1];
      PropertiesKeys(prefix);
      assert es[|es| - 1].name !in Names(prefix);
    }
  }

  /** `typeof optional === 'undefined' || !optional`. */
  predicate IsRequired(e: Entry) {
    var o := Lookup(e.props, "optional");
    o.None? || !Truthy(o.value)
  }

  /** The `filter`/`map` building `required`. */
  function Required(es: seq<Entry>): seq<string>
    decreases |es|
  {
    if es == [] then []
    else Required(es[..|es| - 1]) + (if IsRequired(es[|es| - 1]) then [es[|es| - 1].name] else [])
  }

  /** `required` keeps the order of the entries: it distributes over
      concatenation. */
  lemma {:induction false} RequiredAppend(a: seq<Entry>, b: seq<Entry>)
    ensures Required(a + b) == Required(a) + Required(b)
    decreases |b|
  {
    if b != [] {
      assert (a + b)[..|a + b| - 1] == a + b[..|b| - 1];
      RequiredAppend(a, b[..|b| - 1]);
    } else {
      assert a + b == a;
    }
  }

  /** A name is required exactly when some entry of that name is not
      optional. */
  lemma {:induction false} RequiredMembers(es: seq<Entry>, n: string)
    ensures n in Required(es) <==> exists i :: 0 <= i < |es| && es[i].name == n && IsRequired(es[i])
  {
    if es != [] {
      var prefix := es[..|es| - 1];
      RequiredMembers(prefix, n);
      if exists i :: 0 <= i < |es| && es[i].name == n && IsRequired(es[i]) {
        var i :| 0 <= i < |es| && es[i].name == n && IsRequired(es[i]);
        if i < |es| - 1 {
          assert prefix[i] == es[i];
        }
      }
    }
  }

  /** When no entry is optional every name is required, in order. */
  lemma {:induction false} AllRequired(es: seq<Entry>)
    requires forall i :: 0 <= i < |es| ==> IsRequired(es[i])
    ensures Required(es) == Names(es)
  {
    if es != [] {
      AllRequired(es[..|es| - 1]);
    }
  }

  function StringArray(ss: seq<string>): (r: seq<Json>)
    ensures |r| == |ss| && forall i :: 0 <= i < |ss| ==> r[i] == JStr(ss[i])
  {
    if ss == [] then [] else [JStr(ss[0])] + StringArray(ss[1..])
  }

  /** The `parameters` or `returns` part of a callable's schema. */
  function Section(es: seq<Entry>): Json {
    JObj([("type", JStr("object")), ("properties", JObj(Properties(es))), ("required", JArr(StringArray(Required(es))))])
  }

  /** The fields of a callable that its schemas read. */
  datatype CallableData = CallableData(name: string, description: string, parameters: seq<Entry>, results: seq<Entry>)

  /** `toJSONSchema(callable)`. */
  function ToJSONSchema(c: CallableData): Json {
    JObj([
      ("title", JStr(c.name)),
      ("description", JStr(c.description)),
      ("type", JStr("object")),
      ("properties", JObj([("parameters", Section(c.parameters)), ("returns", Section(c.results))]))
    ])
  }

  /** `{ ...o }` of an object. */
  function Spread(j: Json): Json {
    if j.JObj? then JObj(Assign([], j.props)) else JObj([])
  }

  /** `toOpenAIFunctionSchema(callable)`. */
  function ToOpenAIFunctionSchema(c: CallableData): Json {
    var schema := ToJSONSchema(c);
    var params := Get(schema, "properties").GetOr(JNull);
    JObj([
      ("type", JStr("function")),
      ("function", JObj([
        ("name", JStr(c.name)),
        ("description", JStr(c.description)),
        ("parameters", Spread(Get(params, "parameters").GetOr(JNull)))
      ]))
    ])
  }

  /** The OpenAI form carries the callable's name and description and, as
      its parameters, exactly the `parameters` part of the JSON Schema form. */
  lemma {:induction false} OpenAIFunctionMatchesSchema(c: CallableData)
    ensures ToOpenAIFunctionSchema(c) == JObj([
      ("type", JStr("function")),
      ("function", JObj([("name", JStr(c.name)), ("description", JStr(c.description)), ("parameters", Section(c.parameters))]))
    ])
    ensures Get(ToJSONSchema(c), "properties").Some?
      && Get(Get(ToJSONSchema(c), "properties").value, "parameters") == Some(Section(c.parameters))
  {
    SchemaParameters(c);
    SpreadSection(c.parameters);
  }

  lemma {:induction false} SchemaParameters(c: CallableData)
    ensures Get(ToJSONSchema(c), "properties") == Some(JObj([("parameters", Section(c.parameters)), ("returns", Section(c.results))]))
    ensures Get(Get(ToJSONSchema(c), "properties").GetOr(JNull), "parameters") == Some(Section(c.parameters))
  {
    var sections := [("parameters", Section(c.parameters)), ("returns", Section(c.results))];
    var top := [("title", JStr(c.name)), ("description", JStr(c.description)), ("type", JStr("object")),
                ("properties", JObj(sections))];
    assert ToJSONSchema(c) == JObj(top);
    var t1 := top[1..];
    var t2 := t1[1..];
    var t3 := t2[1..];
    assert "title" != "properties" && "description" != "properties" && "type" != "properties";
    assert Lookup(top, "properties") == Lookup(t1, "properties");
    assert Lookup(t1, "properties") == Lookup(t2, "properties");
    assert Lookup(t2, "properties") == Lookup(t3, "properties");
    assert t3 == [("properties", JObj(sections))];
  }

  /** `{ ...section }` copies a section. */
  lemma {:induction false} SpreadSection(es: seq<Entry>)
    ensures Spread(Section(es)) == Section(es)
  {
    var props := [("type", JStr("object")), ("properties", JObj(Properties(es))),
                  ("required", JArr(StringArray(Required(es))))];
    assert Section(es) == JObj(props);
    AssignFresh([], props);
  }

  // ---- components ----

  /** A set of exposed functions: the entries of the `functions` record in
      the order `Object.entries` yields them, each with the callable its
      factory returns. */
  datatype CallableComponent = CallableComponent(toolSetName: string, toolSetDescription: string,
                                                 functions: seq<(string, CallableData)>)

  /** `defineCallableComponent(toolSetName, toolSetDescription, exposedFunctions)`. */
  function DefineCallableComponent(toolSetName: string, toolSetDescription: string,
                                   functions: seq<(string, CallableData)>): (r: CallableComponent)
    ensures r.functions == functions
  {
    CallableComponent(toolSetName, toolSetDescription, functions)
  }

  /** Each exposed function's name paired with its callable's schema. */
  function SchemaEntries(fs: seq<(string, CallableData)>): (r: seq<(string, Json)>)
    ensures |r| == |fs| && forall i :: 0 <= i < |fs| ==> r[i] == (fs[i].0, ToJSONSchema(fs[i].1))
  {
    if fs == [] then [] else [(fs[0].0, ToJSONSchema(fs[0].1))] + SchemaEntries(fs[1..])
  }

  /** The `reduce` building a component's `properties`. */
  function ToolsProperties(fs: seq<(string, CallableData)>): seq<(string, Json)> {
    PutAll(SchemaEntries(fs))
  }

  /** `toToolsJSONSchema(toolSetName, toolSetDescription, component)`. */
  function ToToolsJSONSchema(toolSetName: string, toolSetDescription: string, comp: CallableComponent): Json {
    JObj([
      ("title", JStr(toolSetName)),
      ("description", JStr(toolSetDescription)),
      ("type", JStr("object")),
      ("properties", JObj(ToolsProperties(comp.functions)))
    ])
  }

  /** The component's own `toJSONSchema()`. */
  function ComponentJSONSchema(comp: CallableComponent): Json {
    ToToolsJSONSchema(comp.toolSetName, comp.toolSetDescription, comp)
  }

  /** A component's schema has one property per exposed function, keyed by
      its entry name and holding that callable's schema, in entry order. */
  lemma {:induction false} ToolsPropertiesContents(fs: seq<(string, CallableData)>)
    requires DistinctKeys(fs)
    ensures ToolsProperties(fs) == SchemaEntries(fs)
    ensures Keys(ToolsProperties(fs)) == Keys(fs)
  {
    var kvs := SchemaEntries(fs);
    assert DistinctKeys(kvs) by {
      assert forall i :: 0 <= i < |fs| ==> kvs[i].0 == fs[i].0;
    }
    PutAllDistinct(kvs);
    KeysIndex(kvs);
    KeysIndex(fs);
    assert Keys(kvs) == Keys(fs);
  }

  /** The `map` building the tool list. */
  function ToolsList(fs: seq<(string, CallableData)>): (r: seq<Json>)
    ensures |r| == |fs|
    ensures forall i :: 0 <= i < |fs| ==> r[i] == ToOpenAIFunctionSchema(fs[i].1)
  {
    if fs == [] then [] else [ToOpenAIFunctionSchema(fs[0].1)] + ToolsList(fs[1..])
  }

  /** `toOpenAIToolsSchema(component)`. */
  function ToOpenAIToolsSchema(comp: CallableComponent): Json {
    JObj([("tools", JArr(ToolsList(comp.functions)))])
  }

  /** The tools appear in entry order, each named after its callable. */
  lemma {:induction false} ToolsInEntryOrder(comp: CallableComponent, i: nat)
    requires i < |comp.functions|
    ensures var tools := ToOpenAIToolsSchema(comp).props[0].1.items;
      |tools| == |comp.functions|
      && Get(tools[i], "function").Some?
      && Get(Get(tools[i], "function").value, "name") == Some(JStr(comp.functions[i].1.name))
      && Get(Get(tools[i], "function").value, "parameters") == Some(Section(comp.functions[i].1.parameters))
  {
    var c := comp.functions[i].1;
    OpenAIFunctionMatchesSchema(c);
    var inner := [("name", JStr(c.name)), ("description", JStr(c.description)), ("parameters", Section(c.parameters))];
    var outer := [("type", JStr("function")), ("function", JObj(inner))];
    assert ToOpenAIToolsSchema(comp).props[0].1.items[i] == JObj(outer);
    assert "type" != "function";
    assert Lookup(outer, "function") == Lookup(outer[1..], "function");
    assert Get(JObj(outer), "function") == Some(JObj(inner));
    assert "name" != "parameters" && "description" != "parameters";
    assert Lookup(inner, "parameters") == Lookup(inner[1..], "parameters") == Lookup(inner[1..][1..], "parameters");
    assert Get(JObj(inner), "parameters") == Some(Section(c.parameters));
  }

  // ---- the builder ----

  /** The callable object `defineCallable` builds. `call` is `None` while it
      is the default implementation, which resolves to `undefined`. */
  class Callable {
    var name: string
    var description: string
    var parameters: seq<Entry>
    var results: seq<Entry>  // `returns`
    var call: Option<seq<Json> -> Json>

    function Data(): CallableData
      reads this
    {
      CallableData(name, description, parameters, results)
    }

    /** `callable.toJSONSchema()`, computed from the fields as they are now. */
    function SchemaNow(): Json
      reads this
    {
      ToJSONSchema(Data())
    }

    /** `callable.toOpenAIFunctionSchema()`, computed from the fields as they are now. */
    function OpenAIFunctionSchemaNow(): Json
      reads this
    {
      ToOpenAIFunctionSchema(Data())
    }

    constructor ()
      ensures Data() == CallableData("", "", [], []) && call == None
    {
      name := "";
      description := "";
      parameters := [];
      results := [];
      call := None;
    }
  }

  /** The builder `defineCallable` returns; every step updates the shared
      callable and returns the builder itself. */
  class CallableBuilder {
    const callable: Callable

    constructor ()
      ensures fresh(callable)
      ensures callable.Data() == CallableData("", "", [], []) && callable.call == None
    {
      callable := new Callable();
    }

    /** `withName`: overwrites the name. */
    method WithName(name: string) returns (b: CallableBuilder)
      modifies callable
      ensures b == this
      ensures callable.Data() == old(callable.Data()).(name := name) && callable.call == old(callable.call)
    {
      callable.name := name;
      b := this;
    }

    /** `withDescription`: overwrites the description. */
    method WithDescription(description: string) returns (b: CallableBuilder)
      modifies callable
      ensures b == this
      ensures callable.Data() == old(callable.Data()).(description := description) && callable.call == old(callable.call)
    {
      callable.description := description;
      b := this;
    }

    /** `withParameter`: appends a parameter. */
    method WithParameter(parameter: Entry) returns (b: CallableBuilder)
      modifies callable
      ensures b == this
      ensures callable.Data() == old(callable.Data()).(parameters := old(callable.parameters) + [parameter])
      ensures callable.call == old(callable.call)
    {
      callable.parameters := callable.parameters + [parameter];
      b := this;
    }

    /** `withReturn`: appends a return description. */
    method WithReturn(ret: Entry) returns (b: CallableBuilder)
      modifies callable
      ensures b == this
      ensures callable.Data() == old(callable.Data()).(results := old(callable.results) + [ret])
      ensures callable.call == old(callable.call)
    {
      callable.results := callable.results + [ret];
      b := this;
    }

    /** `build(call)`: installs the implementation and returns the same
        callable, whose other fields are unchanged. */
    method Build(call: seq<Json> -> Json) returns (c: Callable)
      modifies callable
      ensures c == callable
      ensures c.call == Some(call) && c.Data() == old(callable.Data())
    {
      callable.call := Some(call);
      c := callable;
    }
  }

  /** `defineCallable()`. */
  method DefineCallable() returns (b: CallableBuilder)
    ensures fresh(b) && fresh(b.callable)
    ensures b.callable.Data() == CallableData("", "", [], []) && b.callable.call == None
  {
    b := new CallableBuilder();
  }
}
