/** Worked runs of the value builder of formats/json/streamJsonParser.ts
    on the token trees the scanner of formats/jsonParser.ts builds. */
module StreamJsonExamples {
  import opened Wrappers
  import opened JsonValue
  import opened JsonTokens
  import opened StreamJsonSpec
  import opened StreamJsonFacts

  function Field(name: string, value: Token): Token { Token(JSONField, name, StartPos, [value]) }
  function Number(text: string): Token { Token(JSONNumber, text, StartPos, []) }
  /** A string value as the scanner keeps it: with its quotes. */
  function Quoted(q: string): Token { Token(JSONString, "\"" + q + "\"", StartPos, []) }
  function Object(fields: seq<Token>): Token { Token(JSONObject, "", StartPos, fields) }

  /** Entering the inner object of `{"x":{"y":1}}` at path `["x"]`: a new
      empty object is written there and announced. */
  lemma {:induction false} NestedOpen()
    ensures OpenContainer(InitialWorld, false, InitialBuilder.(currentPath := ["x"]))
      == Done(World([Obj(false, [("x", VRef(1))]), Obj(false, [])], [Update(["x"], VRef(1), VUndefined)]),
              Builder(0, [Frame(0, "x")], ["x"], ""))
  {
    InitialOk();
    var w0 := InitialWorld.(heap := InitialWorld.heap + [Obj(false, [])]);
    AllocOk(InitialWorld.heap, false);
    UpdateAtKey(w0, "x", VRef(1), 0);
    assert GetProp(w0.heap, 0, "x") == VUndefined;
    assert SetProp(w0.heap, 0, "x", VRef(1)) == [Obj(false, [("x", VRef(1))]), Obj(false, [])];
    assert LastKey(["x"]) == "x";
    var bx := InitialBuilder.(currentPath := ["x"]);
    assert bx.(stack := bx.stack + [Frame(0, "x")]) == Builder(0, [Frame(0, "x")], ["x"], "");
  }

  /** The field `"y":1` inside it: `1` is written through the root at
      `["x", "y"]`. */
  lemma {:induction false} NestedInnerField(mode: Semantics)
    ensures var w := World([Obj(false, [("x", VRef(1))]), Obj(false, [])], [Update(["x"], VRef(1), VUndefined)]);
      HeapOk(w.heap)
      && ProcessToken(mode, w, Field("y", Number("1")), Builder(0, [Frame(0, "x")], ["x"], ""))
         == Done(World([Obj(false, [("x", VRef(1))]), Obj(false, [("y", VNum("1"))])],
                       [Update(["x"], VRef(1), VUndefined), Update(["x", "y"], VNum("1"), VUndefined)]),
                 Builder(0, [Frame(0, "x")], ["x"], ""))
  {
    var w := World([Obj(false, [("x", VRef(1))]), Obj(false, [])], [Update(["x"], VRef(1), VUndefined)]);
    assert HeapOk(w.heap) by {
      forall a, k | 0 <= a < |w.heap| && Lookup(w.heap[a].props, k).Some?
        ensures ValueOk(Lookup(w.heap[a].props, k).value, |w.heap|)
      {
        if a == 0 {
          assert k == "x";
        }
      }
    }
    assert DropLast(["x", "y"]) == ["x"];
    assert Descend(w, VRef(0), ["x"]) == Done(w, 1) by {
      assert "x" in Keys(w.heap[0].props);
      assert GetProp(w.heap, 0, "x") == VRef(1);
      assert ["x"][1..] == [];
    }
  }

  /** `{"x":{"y":1}}` up to the point where the inner object closes. */
  lemma {:induction false} NestedPrefix(mode: Semantics) returns (w: World, b: Builder)
    ensures HeapOk(w.heap) && BuilderOk(b, |w.heap|)
    ensures w.heap == [Obj(false, [("x", VRef(1))]), Obj(false, [("y", VNum("1"))])]
    ensures w.log == [Update(["x"], VRef(1), VUndefined), Update(["x", "y"], VNum("1"), VUndefined)]
    ensures b == Builder(0, [Frame(0, "x")], ["x"], "")
    ensures var o := OpenContainer(InitialWorld, false, InitialBuilder.(currentPath := ["x"]));
      o.Done? && ProcessChildren(mode, o.world, [Field("y", Number("1"))], o.result) == Done(w, b)
  {
    InitialOk();
    NestedOpen();
    NestedInnerField(mode);
    var o := OpenContainer(InitialWorld, false, InitialBuilder.(currentPath := ["x"]));
    var f := Field("y", Number("1"));
    SingleField(mode, o.world, f, o.result);
    var r := ProcessToken(mode, o.world, f, o.result);
    w := r.world;
    b := r.result;
  }

  /** A container with one field runs just that field. */
  lemma {:induction false} SingleField(mode: Semantics, w: World, f: Token, b: Builder)
    requires HeapOk(w.heap) && BuilderOk(b, |w.heap|) && f.kind == JSONField
    ensures var r := ProcessToken(mode, w, f, b);
      ProcessChildren(mode, w, [f], b) == if r.Threw? then r else Done(r.world, r.result)
  {
    assert [f][1..] == [];
  }

  /** As written, closing the inner object of `{"x":{"y":1}}` stores the
      root under its own key `x`: the result is a cycle and `{"y":1}` is
      lost from it. */
  lemma {:induction false} NestedObjectBecomesCycle()
    ensures var r := ProcessToken(AsWritten, InitialWorld, Object([Field("x", Object([Field("y", Number("1"))]))]), InitialBuilder);
      r.Done? && r.world.heap[0].props == [("x", VRef(0))]
  {
    var w, b := NestedPrefix(AsWritten);
    InitialOk();
    var inner := Object([Field("y", Number("1"))]);
    var bx := InitialBuilder.(currentPath := ["x"]);
    var c := CloseContainer(AsWritten, w, b);
    assert c.world.heap[0].props == [("x", VRef(0))];
    assert c.result == InitialBuilder;
    assert ProcessToken(AsWritten, InitialWorld, inner, bx) == c;
    var fx := Field("x", inner);
    assert ProcessToken(AsWritten, InitialWorld, fx, InitialBuilder) == c;
    assert [fx][1..] == [];
    assert ProcessChildren(AsWritten, InitialWorld, [fx], InitialBuilder) == c;
  }

  /** Corrected, the root holds the nested object under `x`, and the
      nested object holds `y`. */
  lemma {:induction false} NestedObjectKept()
    ensures var r := ProcessToken(Corrected, InitialWorld, Object([Field("x", Object([Field("y", Number("1"))]))]), InitialBuilder);
      r.Done?
      && r.world.heap == [Obj(false, [("x", VRef(1))]), Obj(false, [("y", VNum("1"))])]
      && r.world.log == [Update(["x"], VRef(1), VUndefined), Update(["x", "y"], VNum("1"), VUndefined)]
  {
    var w, b := NestedPrefix(Corrected);
    InitialOk();
    var inner := Object([Field("y", Number("1"))]);
    var bx := InitialBuilder.(currentPath := ["x"]);
    var c := CloseContainer(Corrected, w, b);
    assert c.world == w;
    assert c.result == InitialBuilder;
    assert ProcessToken(Corrected, InitialWorld, inner, bx) == c;
    var fx := Field("x", inner);
    assert ProcessToken(Corrected, InitialWorld, fx, InitialBuilder) == c;
    assert [fx][1..] == [];
    assert ProcessChildren(Corrected, InitialWorld, [fx], InitialBuilder) == c;
  }

  /** A top-level object of two fields runs the first, then the second. */
  lemma {:induction false} TwoFields(mode: Semantics, fa: Token, fb: Token)
    requires fa.kind == JSONField && fb.kind == JSONField
    ensures var p1 := ProcessToken(mode, InitialWorld, fa, InitialBuilder);
      p1.Done? ==>
        var p2 := ProcessToken(mode, p1.world, fb, p1.result);
        ProcessToken(mode, InitialWorld, Object([fa, fb]), InitialBuilder)
          == if p2.Threw? then p2 else CloseContainer(mode, p2.world, p2.result)
  {
    InitialOk();
    var p1 := ProcessToken(mode, InitialWorld, fa, InitialBuilder);
    if p1.Done? {
      var p2 := ProcessToken(mode, p1.world, fb, p1.result);
      assert [fa, fb][1..] == [fb];
      assert ProcessChildren(mode, InitialWorld, [fa, fb], InitialBuilder) == ProcessChildren(mode, p1.world, [fb], p1.result);
      assert [fb][1..] == [];
      if p2.Done? {
        assert ProcessChildren(mode, p1.world, [fb], p1.result) == ProcessChildren(mode, p2.world, [], p2.result);
      }
    }
  }

  /** The field `"a": 1` at the top of a fresh run. */
  lemma {:induction false} FirstNumberField(mode: Semantics) returns (w1: World)
    ensures HeapOk(w1.heap) && |w1.heap| == 1
    ensures ProcessToken(mode, InitialWorld, Field("a", Number("1")), InitialBuilder) == Done(w1, InitialBuilder)
    ensures w1.log == [Update(["a"], VNum("1"), VUndefined)]
    ensures GetProp(w1.heap, 0, "a") == VNum("1") && GetProp(w1.heap, 0, "b") == VUndefined
  {
    InitialOk();
    TopLevelScalarField(mode, InitialWorld, "a", Number("1"), InitialBuilder);
    SetPropOk(InitialWorld.heap, 0, "a", VNum("1"));
    w1 := ProcessToken(mode, InitialWorld, Field("a", Number("1")), InitialBuilder).world;
    assert GetProp(InitialWorld.heap, 0, "a") == VUndefined;
    assert GetProp(InitialWorld.heap, 0, "b") == VUndefined;
  }

  /** A run that ends with the top-level frame untouched closes to itself. */
  lemma {:induction false} CloseTop(mode: Semantics, w: World, b: Builder)
    requires HeapOk(w.heap) && BuilderOk(b, |w.heap|) && b.stack == []
    ensures CloseContainer(mode, w, b) == Done(w, b)
  {
  }

  /** The token tree of `{"a": 1, "b": "<q>"}` (the two cases of the
      source's own test use q = "2" and q = "lorum ipsum"): one update for
      `a`, then one per character of `q` with the previous prefix as
      previous value, and the finished object holds both. */
  lemma {:induction false} SimpleObjectUpdates(mode: Semantics, q: string)
    ensures var r := ProcessToken(mode, InitialWorld, Object([Field("a", Number("1")), Field("b", Quoted(q))]), InitialBuilder);
      r.Done?
      && r.world.log == [Update(["a"], VNum("1"), VUndefined)] + Prefixes("b", q, 0, VUndefined)
      && GetProp(r.world.heap, 0, "a") == VNum("1")
      && (q != "" ==> GetProp(r.world.heap, 0, "b") == VStr(q))
  {
    var w1 := FirstNumberField(mode);
    var fa := Field("a", Number("1"));
    var fb := Field("b", Quoted(q));
    TopLevelStringField(mode, w1, "b", q, InitialBuilder);
    var p2 := ProcessToken(mode, w1, fb, InitialBuilder);
    TwoFields(mode, fa, fb);
    CloseTop(mode, p2.world, p2.result);
  }

  /** As written, a string value leaves its key on the path, so the field
      after it is written below the string: in `{"a": "x", "b": 1}` the
      write of `b` goes to a property of the string "x", which strict mode
      refuses with a TypeError. */
  lemma {:induction false} StringThenFieldThrows()
    ensures ProcessToken(AsWritten, InitialWorld, Object([Field("a", Quoted("x")), Field("b", Number("1"))]), InitialBuilder).Threw?
  {
    InitialOk();
    var fa := Field("a", Quoted("x"));
    var fb := Field("b", Number("1"));
    TopLevelStringField(AsWritten, InitialWorld, "a", "x", InitialBuilder);
    var p1 := ProcessToken(AsWritten, InitialWorld, fa, InitialBuilder);
    FieldBelowStringThrows(AsWritten, p1.world, "a", "b", Number("1"), p1.result);
    var p2 := ProcessToken(AsWritten, p1.world, fb, p1.result);
    assert [fa, fb][1..] == [fb];
    assert ProcessChildren(AsWritten, InitialWorld, [fa, fb], InitialBuilder) == ProcessChildren(AsWritten, p1.world, [fb], p1.result);
    assert ProcessChildren(AsWritten, p1.world, [fb], p1.result) == p2;
  }

  /** The field `"a": "x"` at the top of a fresh run, corrected. */
  lemma {:induction false} FirstStringField() returns (w1: World)
    ensures HeapOk(w1.heap) && |w1.heap| == 1
    ensures ProcessToken(Corrected, InitialWorld, Field("a", Quoted("x")), InitialBuilder)
      == Done(w1, InitialBuilder.(currentString := "x"))
    ensures w1.log == [Update(["a"], VStr("x"), VUndefined)]
    ensures GetProp(w1.heap, 0, "a") == VStr("x") && GetProp(w1.heap, 0, "b") == VUndefined
  {
    InitialOk();
    TopLevelStringField(Corrected, InitialWorld, "a", "x", InitialBuilder);
    w1 := ProcessToken(Corrected, InitialWorld, Field("a", Quoted("x")), InitialBuilder).world;
    assert "x"[..1] == "x";
    assert Prefixes("a", "x", 0, VUndefined) == [Update(["a"], VStr("x"), VUndefined)];
    assert GetProp(InitialWorld.heap, 0, "a") == VUndefined;
    assert GetProp(InitialWorld.heap, 0, "b") == VUndefined;
  }

  /** Corrected, the same input gives `{"a": "x", "b": 1}`. */
  lemma {:induction false} StringThenFieldCorrected()
    ensures var r := ProcessToken(Corrected, InitialWorld, Object([Field("a", Quoted("x")), Field("b", Number("1"))]), InitialBuilder);
      r.Done?
      && r.world.log == [Update(["a"], VStr("x"), VUndefined), Update(["b"], VNum("1"), VUndefined)]
      && GetProp(r.world.heap, 0, "a") == VStr("x") && GetProp(r.world.heap, 0, "b") == VNum("1")
  {
    var w1 := FirstStringField();
    var b1 := InitialBuilder.(currentString := "x");
    var fa := Field("a", Quoted("x"));
    var fb := Field("b", Number("1"));
    TopLevelScalarField(Corrected, w1, "b", Number("1"), b1);
    SetPropOk(w1.heap, 0, "b", VNum("1"));
    var p2 := ProcessToken(Corrected, w1, fb, b1);
    assert GetProp(p2.world.heap, 0, "a") == VStr("x");
    TwoFields(Corrected, fa, fb);
    CloseTop(Corrected, p2.world, p2.result);
  }
}
