/** The rule order of `toRegex` and the composite rules of
    formats/jsonschema.ts: the whitespace wrapping of `buildRegexFromSchema`,
    the empty schema, `properties`, `allOf`, `oneOf`, `anyOf` and
    `prefixItems`. */
module JsonSchemaRules {
  import opened Wrappers
  import opened JsStrings
  import opened JsonValue
  import opened JsonSchemaRegex
  import opened JsonSchemaFacts
  import opened JsonSchemaDepth

  // ---- toRegex and buildRegexFromSchema ----

  /** `true` allows everything and `false` nothing. */
  lemma {:induction false} BooleanSchema(mode: Semantics, fuel: nat, b: bool, ws: string, root: Json)
    requires fuel > 0
    ensures ToRegex(mode, fuel, JBool(b), ws, root) == Ok(if b then ".*" else "a^")
  {
  }

  /** The keywords `toRegex` tries, in its order. */
  const KEYWORDS: seq<string> := ["properties", "allOf", "anyOf", "oneOf", "prefixItems", "enum", "const", "$ref", "type"]

  /** A non-empty object with none of the keywords is rejected. */
  lemma {:induction false} UnknownSchemaThrows(mode: Semantics, fuel: nat, inst: Json, ws: string, root: Json)
    requires fuel > 0 && inst.JObj? && inst.props != []
    requires forall i :: 0 <= i < |KEYWORDS| ==> Get(inst, KEYWORDS[i]).None?
    ensures ToRegex(mode, fuel, inst, ws, root) == Err(Error(UNTRANSLATABLE))
  {
    assert Get(inst, KEYWORDS[0]).None? && Get(inst, KEYWORDS[1]).None? && Get(inst, KEYWORDS[2]).None?;
    assert Get(inst, KEYWORDS[3]).None? && Get(inst, KEYWORDS[4]).None? && Get(inst, KEYWORDS[5]).None?;
    assert Get(inst, KEYWORDS[6]).None? && Get(inst, KEYWORDS[7]).None? && Get(inst, KEYWORDS[8]).None?;
  }

  /** The `properties` and `required` of a schema, and nothing else. */
  function PropertiesPart(inst: Json): Json
    requires HasTruthy(inst, "properties")
  {
    JObj([("properties", Get(inst, "properties").value)]
         + (if Get(inst, "required").Some? then [("required", Get(inst, "required").value)] else []))
  }

  /** `properties` is the first rule: a schema with truthy `properties`
      compiles as its `properties` and `required` alone, whatever other
      keywords (`allOf`, `type`, …) it holds. */
  lemma {:induction false} PropertiesFirst(mode: Semantics, fuel: nat, inst: Json, ws: string, root: Json)
    requires fuel > 0 && HasTruthy(inst, "properties")
    ensures ToRegex(mode, fuel, inst, ws, root) == ToRegex(mode, fuel, PropertiesPart(inst), ws, root)
  {
    var part := PropertiesPart(inst);
    assert inst.props != [];
    assert Get(part, "properties") == Get(inst, "properties");
    assert Get(part, "required") == Get(inst, "required");
  }

  /** `buildRegexFromSchema` compiles the schema as its own root, with the
      given whitespace pattern (`\s*` when none is given), and wraps the
      result in `\s*` on both sides whatever the whitespace pattern; an
      error of the compiler is its error. */
  lemma {:induction false} BuildWrapsInWhitespace(mode: Semantics, fuel: nat, schema: Json, whitespacePattern: Option<string>)
    ensures var inner := ToRegex(mode, fuel, schema, whitespacePattern.GetOr(WHITESPACE), schema);
      BuildRegexFromSchema(mode, fuel, schema, whitespacePattern).Ok? <==> inner.Ok?
    ensures var inner := ToRegex(mode, fuel, schema, whitespacePattern.GetOr(WHITESPACE), schema);
      inner.Ok? ==> BuildRegexFromSchema(mode, fuel, schema, whitespacePattern).value == "\\s*" + inner.value + "\\s*"
    ensures var inner := ToRegex(mode, fuel, schema, whitespacePattern.GetOr(WHITESPACE), schema);
      inner.Err? ==> BuildRegexFromSchema(mode, fuel, schema, whitespacePattern) == Err(inner.error)
  {
  }

  // ---- lists of sub-schemas ----

  /** Compiling a list of schemas succeeds exactly when each schema
      compiles, and then gives their patterns in order. */
  lemma {:induction false} MapOkIff(mode: Semantics, fuel: nat, items: seq<Json>, ws: string, root: Json)
    ensures MapToRegex(mode, fuel, items, ws, root).Ok? <==> forall i :: 0 <= i < |items| ==> ToRegex(mode, fuel, items[i], ws, root).Ok?
    ensures MapToRegex(mode, fuel, items, ws, root).Ok? ==>
      forall i :: 0 <= i < |items| ==> MapToRegex(mode, fuel, items, ws, root).value[i] == ToRegex(mode, fuel, items[i], ws, root).value
    decreases |items|
  {
    if items != [] {
      var t := items[1..];
      MapOkIff(mode, fuel, t, ws, root);
      var h := ToRegex(mode, fuel, items[0], ws, root);
      var m := MapToRegex(mode, fuel, t, ws, root);
      assert MapToRegex(mode, fuel, items, ws, root)
        == if h.Err? then Err(h.error) else if m.Err? then Err(m.error) else Ok([h.value] + m.value);
      forall i | 0 < i < |items|
        ensures items[i] == t[i - 1]
      {
      }
    }
  }

  /** The patterns of schemas that all compile, in order. */
  function Compiled(mode: Semantics, fuel: nat, items: seq<Json>, ws: string, root: Json): (r: seq<string>)
    requires forall i :: 0 <= i < |items| ==> ToRegex(mode, fuel, items[i], ws, root).Ok?
    ensures |r| == |items|
  {
    seq(|items|, i requires 0 <= i < |items| => ToRegex(mode, fuel, items[i], ws, root).value)
  }

  /** When each schema compiles the list compiles to `Compiled`. */
  lemma {:induction false} MapCompiled(mode: Semantics, fuel: nat, items: seq<Json>, ws: string, root: Json)
    requires forall i :: 0 <= i < |items| ==> ToRegex(mode, fuel, items[i], ws, root).Ok?
    ensures MapToRegex(mode, fuel, items, ws, root) == Ok(Compiled(mode, fuel, items, ws, root))
  {
    MapOkIff(mode, fuel, items, ws, root);
    var r := MapToRegex(mode, fuel, items, ws, root).value;
    var c := Compiled(mode, fuel, items, ws, root);
    assert |r| == |c|;
    assert forall i :: 0 <= i < |r| ==> r[i] == c[i];
    assert r == c;
  }

  /** `oneOf` compiles exactly when each alternative does, to one
      non-capturing group per alternative, in order. */
  lemma {:induction false} OneOfAlternatives(mode: Semantics, fuel: nat, items: seq<Json>, ws: string, root: Json)
    ensures HandleOneOf(mode, fuel, JArr(items), ws, root).Ok? <==> forall i :: 0 <= i < |items| ==> ToRegex(mode, fuel, items[i], ws, root).Ok?
    ensures (forall i :: 0 <= i < |items| ==> ToRegex(mode, fuel, items[i], ws, root).Ok?) ==>
      var rs := Compiled(mode, fuel, items, ws, root);
      HandleOneOf(mode, fuel, JArr(items), ws, root) == Ok("(" + Join(seq(|rs|, i requires 0 <= i < |rs| => "(?:" + rs[i] + ")"), "|") + ")")
  {
    MapOkIff(mode, fuel, items, ws, root);
    if forall i :: 0 <= i < |items| ==> ToRegex(mode, fuel, items[i], ws, root).Ok? {
      MapCompiled(mode, fuel, items, ws, root);
    }
  }

  /** `anyOf` compiles exactly when each alternative does. */
  lemma {:induction false} AnyOfCompilesIff(mode: Semantics, fuel: nat, items: seq<Json>, ws: string, root: Json)
    ensures HandleAnyOf(mode, fuel, JArr(items), ws, root).Ok? <==> forall i :: 0 <= i < |items| ==> ToRegex(mode, fuel, items[i], ws, root).Ok?
  {
    MapOkIff(mode, fuel, items, ws, root);
  }

  /** `prefixItems` compiles exactly when its elements (and `items`, when
      given) do. */
  lemma {:induction false} PrefixItemsCompiles(mode: Semantics, fuel: nat, inst: Json, items: seq<Json>, ws: string, root: Json)
    requires Get(inst, "prefixItems") == Some(JArr(items))
    ensures HandlePrefixItems(mode, fuel, inst, ws, root).Ok? <==>
      (forall i :: 0 <= i < |items| ==> ToRegex(mode, fuel, items[i], ws, root).Ok?)
      && (HasTruthy(inst, "items") ==> ToRegex(mode, fuel, Get(inst, "items").value, ws, root).Ok?)
  {
    MapOkIff(mode, fuel, items, ws, root);
  }

  /** `prefixItems` is a tuple: the element patterns in order, separated
      by commas, then, when `items` is given, any number of further
      elements of that schema. */
  lemma {:induction false} PrefixItemsTuple(mode: Semantics, fuel: nat, inst: Json, items: seq<Json>, ws: string, root: Json)
    requires Get(inst, "prefixItems") == Some(JArr(items))
    requires forall i :: 0 <= i < |items| ==> ToRegex(mode, fuel, items[i], ws, root).Ok?
    requires HasTruthy(inst, "items") ==> ToRegex(mode, fuel, Get(inst, "items").value, ws, root).Ok?
    ensures HandlePrefixItems(mode, fuel, inst, ws, root).Ok?
    ensures var tuple := "\\[" + ws + Join(Compiled(mode, fuel, items, ws, root), ws + "," + ws);
      HandlePrefixItems(mode, fuel, inst, ws, root).value ==
        if HasTruthy(inst, "items") then tuple + "(" + ws + "," + ws + ToRegex(mode, fuel, Get(inst, "items").value, ws, root).value + ")*" + ws + "\\]"
        else tuple + ws + "\\]"
  {
    MapCompiled(mode, fuel, items, ws, root);
  }

  // ---- the empty schema ----

  /** `{type: t}` for the seven types of `handleEmptySchema`. */
  lemma {:induction false} EmptySchemaTypesShape()
    ensures EmptySchemaTypes == Schemas(ArrayPrimitives) + [TypeSchema("array"), TypeSchema("object")]
    ensures forall i :: 0 <= i < |ArrayPrimitives| ==> IsSimpleType(ArrayPrimitives[i])
  {
  }

  /** As written, the empty schema `{}` never compiles: its `{type:
      'array'}` alternative nests without end. */
  lemma {:induction false} EmptySchemaNeverEnds(fuel: nat, ws: string, root: Json)
    ensures ToRegex(AsWritten, fuel, JObj([]), ws, root) == Err(OutOfFuel)
  {
    if fuel > 0 {
      var f: nat := fuel - 1;
      assert MapToRegex(AsWritten, f, EmptySchemaTypes, ws, root) == Err(OutOfFuel) by {
        EmptyPrimitives(AsWritten, f, ws, root);
        if f == 0 {
          MapFirstError(AsWritten, f, EmptySchemaTypes, 0, OutOfFuel, ws, root);
        } else {
          UntypedArrayFails(f, ws, root);
          MapFirstError(AsWritten, f, EmptySchemaTypes, 5, OutOfFuel, ws, root);
        }
      }
    }
  }

  /** The first five of the seven types compile given one unit of fuel, and
      run out without it; the sixth and seventh are the untyped array and
      object. */
  lemma {:induction false} EmptyPrimitives(mode: Semantics, f: nat, ws: string, root: Json)
    ensures f > 0 ==> forall i :: 0 <= i < 5 ==> ToRegex(mode, f, EmptySchemaTypes[i], ws, root).Ok?
    ensures f == 0 ==> ToRegex(mode, f, EmptySchemaTypes[0], ws, root) == Err(OutOfFuel)
    ensures EmptySchemaTypes[5] == TypeSchema("array") && EmptySchemaTypes[6] == TypeSchema("object")
  {
    EmptySchemaTypesShape();
    SimpleLegal(mode, f, ArrayPrimitives, [TypeSchema("array"), TypeSchema("object")], ws, root);
  }

  /** With `depth ?? 2` the empty schema compiles, given eight units of
      fuel, to the alternation of the seven types. */
  lemma {:induction false} EmptySchemaEnds(fuel: nat, ws: string, root: Json)
    requires fuel >= 8
    ensures ToRegex(Corrected, fuel, JObj([]), ws, root).Ok?
    ensures EmptyTypesCompile(fuel - 1, ws, root) &&
      ToRegex(Corrected, fuel, JObj([]), ws, root).value == "(" + Join(Compiled(Corrected, fuel - 1, EmptySchemaTypes, ws, root), "|") + ")"
  {
    var f: nat := fuel - 1;
    EmptyTypesCompileFrom(f, ws, root);
    MapCompiled(Corrected, f, EmptySchemaTypes, ws, root);
  }

  predicate EmptyTypesCompile(f: nat, ws: string, root: Json) {
    forall i :: 0 <= i < |EmptySchemaTypes| ==> ToRegex(Corrected, f, EmptySchemaTypes[i], ws, root).Ok?
  }

  /** Each of the seven types compiles with `depth ?? 2` given seven
      units of fuel. */
  lemma {:induction false} EmptyTypesCompileFrom(f: nat, ws: string, root: Json)
    requires f >= 7
    ensures EmptyTypesCompile(f, ws, root)
  {
    EmptyPrimitives(Corrected, f, ws, root);
    UntypedArrayCompiles(f, ws, root);
    UntypedObjectCompiles(f, ws, root);
  }

  // ---- properties ----

  /** The pattern of each property: the escaped key, a colon, the value's
      pattern. */
  function PropertyPatterns(entries: seq<(string, Json)>, bodies: seq<string>, ws: string): (r: seq<string>)
    requires |bodies| == |entries|
    ensures |r| == |entries|
  {
    seq(|entries|, i requires 0 <= i < |entries| => PropertyHead(entries[i].0, ws) + bodies[i])
  }

  /** Each part but the last followed by `sep`. */
  function Separated(parts: seq<string>, sep: string): (r: seq<string>)
    ensures |r| == |parts|
  {
    seq(|parts|, i requires 0 <= i < |parts| => if i < |parts| - 1 then parts[i] + sep else parts[i])
  }

  /** Writing each part but the last with a separator after it is joining
      the parts. */
  lemma {:induction false} ConcatSeparated(parts: seq<string>, sep: string)
    requires parts != []
    ensures Concat(Separated(parts, sep)) == Join(parts, sep)
    decreases |parts|
  {
    var s := Separated(parts, sep);
    if |parts| > 1 {
      var rest := parts[1..];
      assert s[1..] == Separated(rest, sep) by {
        forall i | 0 <= i < |rest|
          ensures s[1..][i] == Separated(rest, sep)[i]
        {
          assert rest[i] == parts[i + 1];
        }
      }
      ConcatSeparated(rest, sep);
      assert Concat(s) == s[0] + Concat(s[1..]);
    }
  }

  /** Every key listed in an array `required` flags every property. */
  lemma {:induction false} AllFlagsSet(req: seq<Json>, keys: seq<string>)
    requires forall i :: 0 <= i < |keys| ==> JStr(keys[i]) in req
    ensures RequiredFlags(JArr(req), keys).Ok?
    ensures forall i :: 0 <= i < |keys| ==> RequiredFlags(JArr(req), keys).value[i]
    decreases |keys|
  {
    if keys != [] {
      assert forall i :: 0 <= i < |keys| - 1 ==> keys[1..][i] == keys[i + 1];
      AllFlagsSet(req, keys[1..]);
      var rest := RequiredFlags(JArr(req), keys[1..]).value;
      assert RequiredFlags(JArr(req), keys).value == [true] + rest;
    }
  }

  /** With every property required the object pattern lists the
      properties in key order, separated by commas, none of them optional. */
  lemma {:induction false} PropertiesAllRequired(mode: Semantics, fuel: nat, entries: seq<(string, Json)>, req: seq<Json>, bodies: seq<string>, ws: string, root: Json)
    requires entries != []
    requires forall i :: 0 <= i < |entries| ==> JStr(entries[i].0) in req
    requires MapToRegex(mode, fuel, Values(entries), ws, root) == Ok(bodies)
    ensures HandleProperties(mode, fuel, JObj(entries), Some(JArr(req)), ws, root)
      == Ok("\\{" + Join(PropertyPatterns(entries, bodies, ws), ws + ",") + ws + "\\}")
  {
    var keys := Keys(entries);
    KeysIndex(entries);
    AllFlagsSet(req, keys);
    var flags := RequiredFlags(JArr(req), keys).value;
    var n := |entries|;
    var last := LastTrue(flags);
    assert flags[n - 1];
    assert last == n - 1;
    var subs := PropertyPatterns(entries, bodies, ws);
    var pieces := seq(|subs|, i requires 0 <= i < |subs| => RequiredPiece(subs[i], flags[i], i, last, ws));
    forall i | 0 <= i < n
      ensures pieces[i] == Separated(subs, ws + ",")[i]
    {
      assert flags[i];
    }
    assert pieces == Separated(subs, ws + ",");
    ConcatSeparated(subs, ws + ",");
  }

  /** The alternatives of an object none of whose properties is required:
      for each property, that property present and every other optional. */
  function Alternatives(subs: seq<string>, ws: string): (r: seq<string>)
    ensures |r| == |subs|
  {
    seq(|subs|, i requires 0 <= i < |subs| => OptionalPattern(subs, i, ws))
  }

  /** No key is listed in an empty `required`. */
  lemma {:induction false} NoFlagsSet(keys: seq<string>)
    ensures RequiredFlags(JArr([]), keys).Ok?
    ensures forall i :: 0 <= i < |keys| ==> !RequiredFlags(JArr([]), keys).value[i]
    decreases |keys|
  {
    if keys != [] {
      NoFlagsSet(keys[1..]);
      var rest := RequiredFlags(JArr([]), keys[1..]).value;
      assert RequiredFlags(JArr([]), keys).value == [false] + rest;
    }
  }

  /** Without `required` every property is optional: the object pattern is
      one alternative per property, and the whole body is optional. */
  lemma {:induction false} PropertiesNoneRequired(mode: Semantics, fuel: nat, entries: seq<(string, Json)>, bodies: seq<string>, ws: string, root: Json)
    requires MapToRegex(mode, fuel, Values(entries), ws, root) == Ok(bodies)
    ensures HandleProperties(mode, fuel, JObj(entries), None, ws, root)
      == Ok("\\{" + ("(" + Join(Alternatives(PropertyPatterns(entries, bodies, ws), ws), "|") + ")?") + ws + "\\}")
  {
    var keys := Keys(entries);
    NoFlagsSet(keys);
    var flags := RequiredFlags(JArr([]), keys).value;
    assert LastTrue(flags) == -1;
  }

  /** A lone property that is not required is optional: the pattern also
      allows the empty object. */
  lemma {:induction false} PropertyOptional(mode: Semantics, fuel: nat, key: string, value: Json, body: string, ws: string, root: Json)
    requires ToRegex(mode, fuel, value, ws, root) == Ok(body)
    ensures HandleProperties(mode, fuel, JObj([(key, value)]), None, ws, root)
      == Ok("\\{(" + PropertyHead(key, ws) + body + ")?" + ws + "\\}")
  {
    var entries := [(key, value)];
    var sub := PropertyHead(key, ws) + body;
    OneProperty(mode, fuel, key, value, body, ws, root);
    PropertiesNoneRequired(mode, fuel, entries, [body], ws, root);
    OneAlternative(sub, ws);
    StringShape(PropertyHead(key, ws), body, ws);
  }

  lemma {:induction false} StringShape(head: string, body: string, ws: string)
    ensures "\\{" + ("(" + (head + body) + ")?") + ws + "\\}" == "\\{(" + head + body + ")?" + ws + "\\}"
  {
  }

  lemma {:induction false} OneProperty(mode: Semantics, fuel: nat, key: string, value: Json, body: string, ws: string, root: Json)
    requires ToRegex(mode, fuel, value, ws, root) == Ok(body)
    ensures MapToRegex(mode, fuel, Values([(key, value)]), ws, root) == Ok([body])
    ensures PropertyPatterns([(key, value)], [body], ws) == [PropertyHead(key, ws) + body]
  {
    assert Values([(key, value)]) == [value];
    OneBody(mode, fuel, value, body, ws, root);
  }

  lemma {:induction false} OneBody(mode: Semantics, fuel: nat, value: Json, body: string, ws: string, root: Json)
    requires ToRegex(mode, fuel, value, ws, root) == Ok(body)
    ensures MapToRegex(mode, fuel, [value], ws, root) == Ok([body])
  {
    assert [value][1..] == [] && [value][0] == value;
    assert MapToRegex(mode, fuel, [], ws, root) == Ok([]);
    assert MapToRegex(mode, fuel, [value], ws, root).value == [body];
  }

  /** With a single property and none required, the one alternative is the
      property itself. */
  lemma {:induction false} OneAlternative(sub: string, ws: string)
    ensures Join(Alternatives([sub], ws), "|") == sub
  {
    assert OptionalPattern([sub], 0, ws) == sub;
    assert Alternatives([sub], ws) == [sub];
  }

  /** A truthy `required` that is neither an array nor a string has no
      `includes`: compiling any property then throws. */
  lemma {:induction false} RequiredWithoutIncludes(mode: Semantics, fuel: nat, entries: seq<(string, Json)>, required: Json, ws: string, root: Json)
    requires entries != [] && Truthy(required) && !required.JArr? && !required.JStr?
    ensures HandleProperties(mode, fuel, JObj(entries), Some(required), ws, root) == Err(EngineTypeError)
  {
    assert Keys(entries) != [];
  }

  // ---- allOf ----

  /** The `properties` a sub-schema contributes to the merge of `allOf`. */
  function PropertiesOf(s: Json): seq<(string, Json)> {
    if s.JObj? && HasTruthy(s, "properties") then OwnEntries(Get(s, "properties").value) else []
  }

  /** The `required` names a sub-schema contributes, when it is an array. */
  function RequiredOf(s: Json): seq<Json> {
    if s.JObj? && HasTruthy(s, "required") && Get(s, "required").value.JArr? then Get(s, "required").value.items else []
  }

  /** A sub-schema the merge reads without error: not `null`, and an
      object's truthy `required` is an array. */
  predicate Mergeable(s: Json) {
    !s.JNull? && (s.JObj? && HasTruthy(s, "required") ==> Get(s, "required").value.JArr?)
  }

  /** The keys of `{ ...a, ...b }` are those of `a` and of `b`. */
  lemma {:induction false} AssignKeys<V>(a: seq<(string, V)>, b: seq<(string, V)>)
    ensures forall k :: k in Keys(Assign(a, b)) <==> k in Keys(a) || k in Keys(b)
  {
    forall k
      ensures k in Keys(Assign(a, b)) <==> k in Keys(a) || k in Keys(b)
    {
      if k !in Keys(b) {
        assert Lookup(Assign(a, b), k) == Lookup(a, k);
      } else {
        assert Lookup(Assign(a, b), k).Some?;
      }
    }
  }

  /** The merge of `allOf`: it holds a property exactly when some sub-schema
      (or the merge so far) defines it, and lists a name as required
      exactly when some sub-schema (or the list so far) requires it. */
  lemma {:induction false} MergeAllOfMeaning(items: seq<Json>, merged: seq<(string, Json)>, required: seq<Json>)
    requires forall i :: 0 <= i < |items| ==> Mergeable(items[i])
    ensures MergeAllOf(items, merged, required).Ok?
    ensures forall k :: k in Keys(MergeAllOf(items, merged, required).value.0) <==>
      k in Keys(merged) || exists i :: 0 <= i < |items| && k in Keys(PropertiesOf(items[i]))
    ensures forall x :: x in MergeAllOf(items, merged, required).value.1 <==>
      x in required || exists i :: 0 <= i < |items| && x in RequiredOf(items[i])
    decreases |items|
  {
    if items != [] {
      var s := items[0];
      var tail := items[1..];
      assert forall i :: 0 <= i < |tail| ==> tail[i] == items[i + 1];
      var m := if s.JObj? && HasTruthy(s, "properties") then Assign(merged, PropertiesOf(s)) else merged;
      var req := required + RequiredOf(s);
      assert forall k :: k in Keys(m) <==> k in Keys(merged) || k in Keys(PropertiesOf(s)) by {
        AssignKeys(merged, PropertiesOf(s));
      }
      assert MergeAllOf(items, merged, required) == MergeAllOf(tail, m, req) by {
        assert required + [] == required;
        if s.JObj? && HasTruthy(s, "required") {
          assert RequiredOf(s) == Get(s, "required").value.items;
        }
      }
      MergeAllOfMeaning(tail, m, req);
      var r := MergeAllOf(items, merged, required).value;
      forall k
        ensures k in Keys(r.0) <==> k in Keys(merged) || exists i :: 0 <= i < |items| && k in Keys(PropertiesOf(items[i]))
      {
        if exists i :: 0 <= i < |items| && k in Keys(PropertiesOf(items[i])) {
          var i :| 0 <= i < |items| && k in Keys(PropertiesOf(items[i]));
          if i > 0 {
            assert k in Keys(PropertiesOf(tail[i - 1]));
          }
        }
      }
      forall x
        ensures x in r.1 <==> x in required || exists i :: 0 <= i < |items| && x in RequiredOf(items[i])
      {
        if exists i :: 0 <= i < |items| && x in RequiredOf(items[i]) {
          var i :| 0 <= i < |items| && x in RequiredOf(items[i]);
          if i > 0 {
            assert x in RequiredOf(tail[i - 1]);
          }
        }
      }
    }
  }

  // ---- handleArrayType: may the array be empty? ----

  lemma {:induction false} UndefinedIsNoNumber()
    ensures ParseInt("undefined") == None
  {
    assert TrimStart("undefined") == "undefined";
    assert LeadingDigits("undefined", 10) == 0;
  }

  /** For a `minItems` written as an integer, the array reading and the
      object reading of `allowEmpty` agree: `[]` is allowed exactly for 0.
      Without `minItems` the array reading allows no empty array while the
      object reading (a missing minimum is 0) does. */
  lemma {:induction false} AllowEmptyReadings(n: int)
    ensures ArrayAllowEmpty(Some(Count(n))) == AllowEmpty(Some(Count(n))) == (if n == 0 then "?" else "")
    ensures ArrayAllowEmpty(None) == "" && AllowEmpty(None) == "?"
  {
    CountTruthy(n);
    CountTruthy(0);
    ZeroText();
    UndefinedIsNoNumber();
  }

  /** `{type: 'array', items: it}`. */
  function ArrayOf(it: Json): Json {
    JObj([("type", JStr("array")), ("items", it)])
  }

  lemma {:induction false} ArrayOfItems(mode: Semantics, fuel: nat, it: Json, ir: string, ws: string, root: Json)
    requires Truthy(it) && ToRegex(mode, fuel, it, ws, root) == Ok(ir)
    ensures HandleArrayType(mode, fuel, ArrayOf(it), ws, root)
         == Ok("\\[" + ws + "(" + ir + "(" + ws + "," + ws + ir + ")*)" + (if mode == AsWritten then ArrayAllowEmpty(None) else AllowEmpty(None)) + ws + "\\]")
  {
    assert Get(ArrayOf(it), "items") == Some(it);
    assert Get(ArrayOf(it), "minItems") == None;
  }

  /** As written, an array schema with `items` and no `minItems` compiles to
      one item followed by comma-separated items with nothing optional: the
      pattern has no branch for `[]`. */
  lemma {:induction false} ArrayItemsRequireOne(fuel: nat, it: Json, ir: string, ws: string, root: Json)
    requires Truthy(it) && ToRegex(AsWritten, fuel, it, ws, root) == Ok(ir)
    ensures HandleArrayType(AsWritten, fuel, ArrayOf(it), ws, root)
         == Ok("\\[" + ws + "(" + ir + "(" + ws + "," + ws + ir + ")*)" + ws + "\\]")
  {
    ArrayOfItems(AsWritten, fuel, it, ir, ws, root);
    AllowEmptyReadings(0);
    var items := "\\[" + ws + "(" + ir + "(" + ws + "," + ws + ir + ")*)";
    assert items + "" == items;
  }

  /** With a missing `minItems` read as 0, the item list is optional and `[]`
      is matched. */
  lemma {:induction false} ArrayItemsMayBeEmpty(fuel: nat, it: Json, ir: string, ws: string, root: Json)
    requires Truthy(it) && ToRegex(Corrected, fuel, it, ws, root) == Ok(ir)
    ensures HandleArrayType(Corrected, fuel, ArrayOf(it), ws, root)
         == Ok("\\[" + ws + "(" + ir + "(" + ws + "," + ws + ir + ")*)?" + ws + "\\]")
  {
    ArrayOfItems(Corrected, fuel, it, ir, ws, root);
    AllowEmptyReadings(0);
    var head := "\\[" + ws + "(" + ir + "(" + ws + "," + ws + ir;
    assert ")*)" + "?" == ")*)?";
    assert head + ")*)" + "?" == head + ")*)?";
  }
}
