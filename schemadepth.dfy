/** The nesting budget of untyped arrays and objects, and the empty-array
    flag of `handleArrayType` (formats/jsonschema.ts), as written and
    corrected. */
module JsonSchemaDepth {
  import opened Wrappers
  import opened JsStrings
  import opened JsonValue
  import opened JsonSchemaRegex
  import opened JsonSchemaFacts

  /** `{type: t, depth: d}` has no key but `type` and `depth`. */
  lemma {:induction false} AtDepthLookup(t: string, d: int, k: string)
    requires k != "type" && k != "depth"
    ensures Get(TypeSchemaAtDepth(t, d), k).None?
  {
  }

  lemma {:induction false} AtDepthOnly(t: string, d: int)
    ensures TypeOnly(TypeSchemaAtDepth(t, d)) && Get(TypeSchemaAtDepth(t, d), "type") == Some(JStr(t))
    ensures Get(TypeSchemaAtDepth(t, d), "depth") == Some(Count(d))
  {
    AtDepthLookup(t, d, "properties");
    AtDepthLookup(t, d, "allOf");
    AtDepthLookup(t, d, "anyOf");
    AtDepthLookup(t, d, "oneOf");
    AtDepthLookup(t, d, "prefixItems");
    AtDepthLookup(t, d, "enum");
    AtDepthLookup(t, d, "const");
    AtDepthLookup(t, d, "$ref");
  }

  /** As written, `depth || 2` reads a depth of 0 as no depth at all. */
  lemma {:induction false} DepthAsWritten(t: string, d: int)
    ensures DepthOf(AsWritten, TypeSchemaAtDepth(t, d)) == Ok(if d == 0 then 2 else d)
  {
    AtDepthOnly(t, d);
    CountTruthy(d);
  }

  /** With `depth ?? 2` an integer depth is kept as it is, 0 included. */
  lemma {:induction false} DepthCorrected(t: string, d: int)
    ensures DepthOf(Corrected, TypeSchemaAtDepth(t, d)) == Ok(d)
  {
    AtDepthOnly(t, d);
    CountTruthy(d);
  }

  /** Without a `depth` both readings give 2. */
  lemma {:induction false} DepthMissing(mode: Semantics, t: string)
    ensures DepthOf(mode, TypeSchema(t)) == Ok(2)
  {
    TypeSchemaLookup(t, "depth");
  }

  /** Compiling a list of schemas succeeds when every schema compiles. */
  lemma {:induction false} MapAllOk(mode: Semantics, fuel: nat, items: seq<Json>, ws: string, root: Json)
    requires forall i :: 0 <= i < |items| ==> ToRegex(mode, fuel, items[i], ws, root).Ok?
    ensures MapToRegex(mode, fuel, items, ws, root).Ok?
    decreases |items|
  {
    if items != [] {
      assert forall i :: 0 <= i < |items[1..]| ==> items[1..][i] == items[i + 1];
      MapAllOk(mode, fuel, items[1..], ws, root);
    }
  }

  /** Compiling a list of schemas fails with the error of its first schema
      that fails. */
  lemma {:induction false} MapFirstError(mode: Semantics, fuel: nat, items: seq<Json>, k: nat, e: Fault, ws: string, root: Json)
    requires k < |items|
    requires forall i :: 0 <= i < k ==> ToRegex(mode, fuel, items[i], ws, root).Ok?
    requires ToRegex(mode, fuel, items[k], ws, root) == Err(e)
    ensures MapToRegex(mode, fuel, items, ws, root) == Err(e)
    decreases k
  {
    if k > 0 {
      assert forall i :: 0 <= i < |items[1..]| ==> items[1..][i] == items[i + 1];
      MapFirstError(mode, fuel, items[1..], k - 1, e, ws, root);
    }
  }

  /** `{type: n}` for each name, in order. */
  function Schemas(names: seq<string>): (r: seq<Json>)
    ensures |r| == |names| && forall i :: 0 <= i < |names| ==> r[i] == TypeSchema(names[i])
  {
    seq(|names|, i requires 0 <= i < |names| => TypeSchema(names[i]))
  }

  const ArrayPrimitives: seq<string> := ["boolean", "null", "number", "integer", "string"]
  const ObjectPrimitives: seq<string> := ["string", "number", "boolean", "null"]

  /** The legal types of an untyped array at nesting budget `depth`. */
  function ArrayLegal(depth: int): seq<Json> {
    [TypeSchema("boolean"), TypeSchema("null"), TypeSchema("number"), TypeSchema("integer"), TypeSchema("string")]
    + NestedTypes(depth)
  }

  /** The legal types of an untyped object's values at nesting budget `depth`. */
  function ObjectLegal(depth: int): seq<Json> {
    [TypeSchema("string"), TypeSchema("number"), TypeSchema("boolean"), TypeSchema("null")] + NestedTypes(depth)
  }

  lemma {:induction false} LegalShapes(depth: int)
    ensures ArrayLegal(depth) == Schemas(ArrayPrimitives) + NestedTypes(depth)
    ensures ObjectLegal(depth) == Schemas(ObjectPrimitives) + NestedTypes(depth)
    ensures forall i :: 0 <= i < |ArrayPrimitives| ==> IsSimpleType(ArrayPrimitives[i])
    ensures forall i :: 0 <= i < |ObjectPrimitives| ==> IsSimpleType(ObjectPrimitives[i])
  {
  }

  /** `{anyOf: legalTypes}`, the value schema of an untyped object. */
  function AnyOfSchema(items: seq<Json>): Json {
    JObj([("anyOf", JArr(items))])
  }

  lemma {:induction false} AnyOfDispatch(mode: Semantics, fuel: nat, items: seq<Json>, ws: string, root: Json)
    requires fuel > 0
    ensures ToRegex(mode, fuel, AnyOfSchema(items), ws, root) == HandleAnyOf(mode, fuel - 1, JArr(items), ws, root)
  {
    var inst := AnyOfSchema(items);
    assert Get(inst, "properties").None? && Get(inst, "allOf").None?;
    assert HasTruthy(inst, "anyOf");
  }

  /** The primitive legal types compile given one unit of fuel and run out
      without it. */
  lemma {:induction false} SimpleLegal(mode: Semantics, fuel: nat, names: seq<string>, rest: seq<Json>, ws: string, root: Json)
    requires forall i :: 0 <= i < |names| ==> IsSimpleType(names[i])
    ensures fuel > 0 ==> forall i :: 0 <= i < |names| ==> ToRegex(mode, fuel, (Schemas(names) + rest)[i], ws, root).Ok?
    ensures fuel == 0 && names != [] ==> ToRegex(mode, fuel, (Schemas(names) + rest)[0], ws, root) == Err(OutOfFuel)
  {
    forall i | 0 <= i < |names|
      ensures ToRegex(mode, fuel, (Schemas(names) + rest)[i], ws, root) == if fuel == 0 then Err(OutOfFuel) else Ok(SimplePattern(names[i]))
    {
      SimpleTypeCompiles(mode, fuel, names[i], ws, root);
    }
  }

  /** An array schema with no `items` and no `contains` goes to the
      legal-types branch of `handleArrayType`, which fails or compiles
      with its legal types. */
  lemma {:induction false} ArrayBranch(mode: Semantics, fuel: nat, inst: Json, depth: int, ws: string, root: Json)
    requires TypeOnly(inst) && Get(inst, "type") == Some(JStr("array")) && fuel > 0
    requires Get(inst, "items").None? && Get(inst, "contains").None?
    requires DepthOf(mode, inst) == Ok(depth)
    ensures MapToRegex(mode, fuel - 1, ArrayLegal(depth), ws, root).Err? ==>
      ToRegex(mode, fuel, inst, ws, root) == Err(MapToRegex(mode, fuel - 1, ArrayLegal(depth), ws, root).error)
    ensures MapToRegex(mode, fuel - 1, ArrayLegal(depth), ws, root).Ok? ==> ToRegex(mode, fuel, inst, ws, root).Ok?
  {
    TypeOnlyDispatch(mode, fuel, inst, ws, root);
  }

  /** The legal-types branch of `handleArrayType`, entered by an array
      schema with no `items` and no `contains`: it fails as soon as the
      nested object type fails. */
  lemma {:induction false} ArrayFails(mode: Semantics, fuel: nat, inst: Json, depth: int, ws: string, root: Json)
    requires TypeOnly(inst) && Get(inst, "type") == Some(JStr("array"))
    requires Get(inst, "items").None? && Get(inst, "contains").None?
    requires DepthOf(mode, inst) == Ok(depth) && depth > 0
    requires fuel > 1 ==> ToRegex(mode, fuel - 1, TypeSchemaAtDepth("object", depth - 1), ws, root) == Err(OutOfFuel)
    ensures ToRegex(mode, fuel, inst, ws, root) == Err(OutOfFuel)
  {
    if fuel > 0 {
      var items := ArrayLegal(depth);
      assert MapToRegex(mode, fuel - 1, items, ws, root) == Err(OutOfFuel) by {
        LegalShapes(depth);
        SimpleLegal(mode, fuel - 1, ArrayPrimitives, NestedTypes(depth), ws, root);
        if fuel == 1 {
          MapFirstError(mode, fuel - 1, items, 0, OutOfFuel, ws, root);
        } else {
          assert items[5] == TypeSchemaAtDepth("object", depth - 1);
          MapFirstError(mode, fuel - 1, items, 5, OutOfFuel, ws, root);
        }
      }
      ArrayBranch(mode, fuel, inst, depth, ws, root);
    }
  }

  /** The same branch compiles when every legal type does. */
  lemma {:induction false} ArrayCompiles(mode: Semantics, fuel: nat, inst: Json, depth: int, ws: string, root: Json)
    requires TypeOnly(inst) && Get(inst, "type") == Some(JStr("array"))
    requires Get(inst, "items").None? && Get(inst, "contains").None?
    requires DepthOf(mode, inst) == Ok(depth) && fuel > 1
    requires depth > 0 ==>
      (ToRegex(mode, fuel - 1, TypeSchemaAtDepth("object", depth - 1), ws, root).Ok?
       && ToRegex(mode, fuel - 1, TypeSchemaAtDepth("array", depth - 1), ws, root).Ok?)
    ensures ToRegex(mode, fuel, inst, ws, root).Ok?
  {
    var items := ArrayLegal(depth);
    LegalShapes(depth);
    SimpleLegal(mode, fuel - 1, ArrayPrimitives, NestedTypes(depth), ws, root);
    MapAllOk(mode, fuel - 1, items, ws, root);
    ArrayBranch(mode, fuel, inst, depth, ws, root);
  }

  /** The value schema of an untyped object fails as soon as its nested
      object type fails. */
  lemma {:induction false} AnyOfFails(mode: Semantics, fuel: nat, depth: int, ws: string, root: Json)
    requires depth > 0
    requires fuel > 1 ==> ToRegex(mode, fuel - 1, TypeSchemaAtDepth("object", depth - 1), ws, root) == Err(OutOfFuel)
    ensures ToRegex(mode, fuel, AnyOfSchema(ObjectLegal(depth)), ws, root) == Err(OutOfFuel)
  {
    if fuel > 0 {
      var items := ObjectLegal(depth);
      assert MapToRegex(mode, fuel - 1, items, ws, root) == Err(OutOfFuel) by {
        LegalShapes(depth);
        SimpleLegal(mode, fuel - 1, ObjectPrimitives, NestedTypes(depth), ws, root);
        if fuel == 1 {
          MapFirstError(mode, fuel - 1, items, 0, OutOfFuel, ws, root);
        } else {
          assert items[4] == TypeSchemaAtDepth("object", depth - 1);
          MapFirstError(mode, fuel - 1, items, 4, OutOfFuel, ws, root);
        }
      }
      AnyOfDispatch(mode, fuel, items, ws, root);
    }
  }

  lemma {:induction false} AnyOfCompiles(mode: Semantics, fuel: nat, depth: int, ws: string, root: Json)
    requires fuel > 1
    requires depth > 0 ==>
      (ToRegex(mode, fuel - 1, TypeSchemaAtDepth("object", depth - 1), ws, root).Ok?
       && ToRegex(mode, fuel - 1, TypeSchemaAtDepth("array", depth - 1), ws, root).Ok?)
    ensures ToRegex(mode, fuel, AnyOfSchema(ObjectLegal(depth)), ws, root).Ok?
  {
    var items := ObjectLegal(depth);
    LegalShapes(depth);
    SimpleLegal(mode, fuel - 1, ObjectPrimitives, NestedTypes(depth), ws, root);
    MapAllOk(mode, fuel - 1, items, ws, root);
    AnyOfDispatch(mode, fuel, items, ws, root);
  }

  /** `handleObjectType` without bounds or `additionalProperties`: the value
      schema is `{anyOf: legalTypes}`, and the object pattern fails or
      compiles with it. */
  lemma {:induction false} ObjectHandled(mode: Semantics, f: nat, inst: Json, depth: int, ws: string, root: Json)
    requires Get(inst, "minProperties").None? && Get(inst, "maxProperties").None?
    requires Get(inst, "additionalProperties").None?
    requires DepthOf(mode, inst) == Ok(depth)
    ensures ToRegex(mode, f, AnyOfSchema(ObjectLegal(depth)), ws, root).Err? ==>
      HandleObjectType(mode, f, inst, ws, root) == Err(ToRegex(mode, f, AnyOfSchema(ObjectLegal(depth)), ws, root).error)
    ensures ToRegex(mode, f, AnyOfSchema(ObjectLegal(depth)), ws, root).Ok? ==> HandleObjectType(mode, f, inst, ws, root).Ok?
  {
    assert GetNumItemsPattern(None, None).Some?;
  }

  /** The same for an object schema of type `object` alone, one unit of fuel
      above `f`. */
  lemma {:induction false} ObjectBranchAbove(mode: Semantics, f: nat, inst: Json, depth: int, ws: string, root: Json)
    requires TypeOnly(inst) && Get(inst, "type") == Some(JStr("object"))
    requires Get(inst, "minProperties").None? && Get(inst, "maxProperties").None?
    requires Get(inst, "additionalProperties").None?
    requires DepthOf(mode, inst) == Ok(depth)
    ensures ToRegex(mode, f, AnyOfSchema(ObjectLegal(depth)), ws, root).Err? ==>
      ToRegex(mode, f + 1, inst, ws, root) == Err(ToRegex(mode, f, AnyOfSchema(ObjectLegal(depth)), ws, root).error)
    ensures ToRegex(mode, f, AnyOfSchema(ObjectLegal(depth)), ws, root).Ok? ==> ToRegex(mode, f + 1, inst, ws, root).Ok?
  {
    ObjectDispatchAbove(mode, f, inst, ws, root);
    ObjectHandled(mode, f, inst, depth, ws, root);
  }

  /** The step of `ArrayNeverEnds` below, the nested object at depth
      `e = depth - 1` running out of `f = fuel - 1` units of fuel. */
  lemma {:induction false} ArrayFailsUp(fuel: nat, f: nat, inst: Json, depth: int, e: int, ws: string, root: Json)
    requires TypeOnly(inst) && Get(inst, "type") == Some(JStr("array"))
    requires Get(inst, "items").None? && Get(inst, "contains").None?
    requires DepthOf(AsWritten, inst) == Ok(depth) && depth > 0 && e == depth - 1 && f == fuel - 1
    requires f > 0 ==> ToRegex(AsWritten, f, TypeSchemaAtDepth("object", e), ws, root) == Err(OutOfFuel)
    ensures ToRegex(AsWritten, fuel, inst, ws, root) == Err(OutOfFuel)
  {
    ArrayFails(AsWritten, fuel, inst, depth, ws, root);
  }

  /** The step of `ValueSchemaFails` below. */
  lemma {:induction false} AnyOfFailsUp(fuel: nat, f: nat, depth: int, e: int, ws: string, root: Json)
    requires depth > 0 && e == depth - 1 && f == fuel - 1
    requires f > 0 ==> ToRegex(AsWritten, f, TypeSchemaAtDepth("object", e), ws, root) == Err(OutOfFuel)
    ensures ToRegex(AsWritten, fuel, AnyOfSchema(ObjectLegal(depth)), ws, root) == Err(OutOfFuel)
  {
    AnyOfFails(AsWritten, fuel, depth, ws, root);
  }

  /** The step of `ObjectNeverEnds` below. */
  lemma {:induction false} ObjectFailsUp(fuel: nat, f: nat, inst: Json, depth: int, ws: string, root: Json)
    requires TypeOnly(inst) && Get(inst, "type") == Some(JStr("object")) && f == fuel - 1
    requires Get(inst, "minProperties").None? && Get(inst, "maxProperties").None?
    requires Get(inst, "additionalProperties").None?
    requires DepthOf(AsWritten, inst) == Ok(depth)
    requires ToRegex(AsWritten, f, AnyOfSchema(ObjectLegal(depth)), ws, root) == Err(OutOfFuel)
    ensures ToRegex(AsWritten, fuel, inst, ws, root) == Err(OutOfFuel)
  {
    ObjectBranchAbove(AsWritten, f, inst, depth, ws, root);
  }

  /** As written, an untyped array with a depth of 0 or more never finishes
      compiling: `0 || 2` restores a budget of 2 at the bottom, so every
      amount of fuel runs out. */
  lemma {:induction false} ArrayNeverEnds(fuel: nat, d: int, ws: string, root: Json)
    requires d >= 0
    ensures ToRegex(AsWritten, fuel, TypeSchemaAtDepth("array", d), ws, root) == Err(OutOfFuel)
    decreases fuel, 1
  {
    if fuel > 0 {
      var inst := TypeSchemaAtDepth("array", d);
      var f: nat, depth := fuel - 1, if d == 0 then 2 else d;
      var e := depth - 1;
      AtDepthOnly("array", d);
      DepthAsWritten("array", d);
      AtDepthLookup("array", d, "items");
      AtDepthLookup("array", d, "contains");
      if f > 0 {
        ObjectNeverEnds(f, e, ws, root);
      }
      ArrayFailsUp(fuel, f, inst, depth, e, ws, root);
    }
  }

  /** The same for an untyped object. */
  lemma {:induction false} ObjectNeverEnds(fuel: nat, d: int, ws: string, root: Json)
    requires d >= 0
    ensures ToRegex(AsWritten, fuel, TypeSchemaAtDepth("object", d), ws, root) == Err(OutOfFuel)
    decreases fuel, 0
  {
    if fuel > 0 {
      var inst := TypeSchemaAtDepth("object", d);
      var f: nat, depth := fuel - 1, if d == 0 then 2 else d;
      AtDepthOnly("object", d);
      DepthAsWritten("object", d);
      AtDepthLookup("object", d, "minProperties");
      AtDepthLookup("object", d, "maxProperties");
      AtDepthLookup("object", d, "additionalProperties");
      ValueSchemaFails(f, depth, ws, root);
      ObjectFailsUp(fuel, f, inst, depth, ws, root);
    }
  }

  /** The value schema `{anyOf: legalTypes}` of an untyped object never
      compiles as written. */
  lemma {:induction false} ValueSchemaFails(fuel: nat, depth: int, ws: string, root: Json)
    requires depth > 0
    ensures ToRegex(AsWritten, fuel, AnyOfSchema(ObjectLegal(depth)), ws, root) == Err(OutOfFuel)
    decreases fuel, 2
  {
    if fuel > 0 {
      var f: nat, e := fuel - 1, depth - 1;
      if f > 0 {
        ObjectNeverEnds(f, e, ws, root);
      }
      AnyOfFailsUp(fuel, f, depth, e, ws, root);
    }
  }

  /** As written, `{type: 'array'}` never compiles: whatever the fuel, it
      runs out. */
  lemma {:induction false} UntypedArrayFails(fuel: nat, ws: string, root: Json)
    ensures ToRegex(AsWritten, fuel, TypeSchema("array"), ws, root) == Err(OutOfFuel)
  {
    if fuel > 0 {
      var inst := TypeSchema("array");
      var f: nat := fuel - 1;
      TypeSchemaOnly("array");
      TypeSchemaLookup("array", "items");
      TypeSchemaLookup("array", "contains");
      DepthMissing(AsWritten, "array");
      if f > 0 {
        ObjectNeverEnds(f, 1, ws, root);
      }
      ArrayFailsUp(fuel, f, inst, 2, 1, ws, root);
    }
  }

  /** As written, `buildRegexFromSchema({type: 'array'})` never returns:
      whatever the fuel, compiling runs out of it. */
  lemma {:induction false} UntypedArrayNeverEnds(fuel: nat, whitespacePattern: Option<string>)
    ensures BuildRegexFromSchema(AsWritten, fuel, TypeSchema("array"), whitespacePattern) == Err(OutOfFuel)
  {
    UntypedArrayFails(fuel, whitespacePattern.GetOr(WHITESPACE), TypeSchema("array"));
  }

  /** The legal-types branch with `depth ?? 2`, the nested object and array
      at depth `e = depth - 1` compiling with `f = fuel - 1` units of fuel. */
  lemma {:induction false} ArrayCompilesUp(fuel: nat, f: nat, inst: Json, depth: int, e: int, ws: string, root: Json)
    requires TypeOnly(inst) && Get(inst, "type") == Some(JStr("array"))
    requires Get(inst, "items").None? && Get(inst, "contains").None?
    requires DepthOf(Corrected, inst) == Ok(depth) && f > 0 && f == fuel - 1 && e == depth - 1
    requires depth > 0 ==>
      (ToRegex(Corrected, f, TypeSchemaAtDepth("object", e), ws, root).Ok?
       && ToRegex(Corrected, f, TypeSchemaAtDepth("array", e), ws, root).Ok?)
    ensures ToRegex(Corrected, fuel, inst, ws, root).Ok?
  {
    ArrayCompiles(Corrected, fuel, inst, depth, ws, root);
  }

  /** The step of `ValueSchemaCompiles` below. */
  lemma {:induction false} AnyOfCompilesUp(fuel: nat, f: nat, depth: int, e: int, ws: string, root: Json)
    requires f > 0 && f == fuel - 1 && e == depth - 1
    requires depth > 0 ==>
      (ToRegex(Corrected, f, TypeSchemaAtDepth("object", e), ws, root).Ok?
       && ToRegex(Corrected, f, TypeSchemaAtDepth("array", e), ws, root).Ok?)
    ensures ToRegex(Corrected, fuel, AnyOfSchema(ObjectLegal(depth)), ws, root).Ok?
  {
    AnyOfCompiles(Corrected, fuel, depth, ws, root);
  }

  /** With `depth ?? 2` an untyped array at depth `d` compiles once the
      nested object and array at depth `e = d - 1` do with `f = fuel - 1`
      units of fuel. */
  lemma {:induction false} ArrayStep(fuel: nat, d: int, f: nat, e: int, ws: string, root: Json)
    requires d >= 0 && f > 0 && f == fuel - 1 && e == d - 1
    requires d > 0 ==>
      (ToRegex(Corrected, f, TypeSchemaAtDepth("object", e), ws, root).Ok?
       && ToRegex(Corrected, f, TypeSchemaAtDepth("array", e), ws, root).Ok?)
    ensures ToRegex(Corrected, fuel, TypeSchemaAtDepth("array", d), ws, root).Ok?
  {
    AtDepthOnly("array", d);
    AtDepthLookup("array", d, "items");
    AtDepthLookup("array", d, "contains");
    DepthCorrected("array", d);
    ArrayCompilesUp(fuel, f, TypeSchemaAtDepth("array", d), d, e, ws, root);
  }

  /** An untyped object compiles once its value schema does with
      `f = fuel - 1` units of fuel. */
  lemma {:induction false} ObjectStep(fuel: nat, d: int, f: nat, ws: string, root: Json)
    requires f == fuel - 1 && d >= 0
    requires ToRegex(Corrected, f, AnyOfSchema(ObjectLegal(d)), ws, root).Ok?
    ensures ToRegex(Corrected, fuel, TypeSchemaAtDepth("object", d), ws, root).Ok?
  {
    AtDepthOnly("object", d);
    AtDepthLookup("object", d, "minProperties");
    AtDepthLookup("object", d, "maxProperties");
    AtDepthLookup("object", d, "additionalProperties");
    DepthCorrected("object", d);
    ObjectBranchAbove(Corrected, f, TypeSchemaAtDepth("object", d), d, ws, root);
  }

  /** With `depth ?? 2` the budget shrinks by one per level and stops at 0,
      so an untyped array at depth `d` compiles given `2d + 3` units of
      fuel. */
  lemma {:induction false} ArrayEnds(fuel: nat, d: int, ws: string, root: Json)
    requires d >= 0 && fuel >= 2 * d + 3
    ensures ToRegex(Corrected, fuel, TypeSchemaAtDepth("array", d), ws, root).Ok?
    decreases d, 1
  {
    var f: nat, e := fuel - 1, d - 1;
    if d > 0 {
      ObjectEnds(f, e, ws, root);
      ArrayEnds(f, e, ws, root);
    }
    ArrayStep(fuel, d, f, e, ws, root);
  }

  /** The same for an untyped object. */
  lemma {:induction false} ObjectEnds(fuel: nat, d: int, ws: string, root: Json)
    requires d >= 0 && fuel >= 2 * d + 3
    ensures ToRegex(Corrected, fuel, TypeSchemaAtDepth("object", d), ws, root).Ok?
    decreases d, 2
  {
    var f: nat := fuel - 1;
    ValueSchemaCompiles(f, d, ws, root);
    ObjectStep(fuel, d, f, ws, root);
  }

  /** The value schema `{anyOf: legalTypes}` of an untyped object at depth
      `d` compiles given `2d + 2` units of fuel. */
  lemma {:induction false} ValueSchemaCompiles(fuel: nat, d: int, ws: string, root: Json)
    requires d >= 0 && fuel >= 2 * d + 2
    ensures ToRegex(Corrected, fuel, AnyOfSchema(ObjectLegal(d)), ws, root).Ok?
    decreases d, 0
  {
    var f: nat, e := fuel - 1, d - 1;
    if d > 0 {
      ObjectEnds(f, e, ws, root);
      ArrayEnds(f, e, ws, root);
    }
    AnyOfCompilesUp(fuel, f, d, e, ws, root);
  }

  /** With `depth ?? 2`, `{type: 'array'}` compiles given six units of
      fuel. */
  lemma {:induction false} UntypedArrayCompiles(fuel: nat, ws: string, root: Json)
    requires fuel >= 6
    ensures ToRegex(Corrected, fuel, TypeSchema("array"), ws, root).Ok?
  {
    var inst := TypeSchema("array");
    var f: nat := fuel - 1;
    TypeSchemaOnly("array");
    TypeSchemaLookup("array", "items");
    TypeSchemaLookup("array", "contains");
    DepthMissing(Corrected, "array");
    ObjectEnds(f, 1, ws, root);
    ArrayEnds(f, 1, ws, root);
    ArrayCompilesUp(fuel, f, inst, 2, 1, ws, root);
  }

  /** With `depth ?? 2`, `{type: 'object'}` compiles given seven units of
      fuel. */
  lemma {:induction false} UntypedObjectCompiles(fuel: nat, ws: string, root: Json)
    requires fuel >= 7
    ensures ToRegex(Corrected, fuel, TypeSchema("object"), ws, root).Ok?
  {
    var f: nat := fuel - 1;
    TypeSchemaOnly("object");
    TypeSchemaLookup("object", "minProperties");
    TypeSchemaLookup("object", "maxProperties");
    TypeSchemaLookup("object", "additionalProperties");
    DepthMissing(Corrected, "object");
    ValueSchemaCompiles(f, 2, ws, root);
    ObjectBranchAbove(Corrected, f, TypeSchema("object"), 2, ws, root);
  }

  /** With `depth ?? 2`, `buildRegexFromSchema({type: 'array'})` succeeds
      given six units of fuel. */
  lemma {:induction false} UntypedArrayEnds(fuel: nat, whitespacePattern: Option<string>)
    requires fuel >= 6
    ensures BuildRegexFromSchema(Corrected, fuel, TypeSchema("array"), whitespacePattern).Ok?
  {
    UntypedArrayCompiles(fuel, whitespacePattern.GetOr(WHITESPACE), TypeSchema("array"));
  }
}
