/** Properties of the value builder of formats/json/streamJsonParser.ts,
    stated on the functions of module StreamJsonSpec. */
module StreamJsonFacts {
  import opened Wrappers
  import opened JsonValue
  import opened JsonTokens
  import opened StreamJsonSpec

  // ---- updateValue ----

  /** The walk only adds keys: every property present before keeps its
      value. */
  lemma {:induction false} DescendKeepsEntries(w: World, cur: Value, keys: seq<string>)
    requires HeapOk(w.heap) && ValueOk(cur, |w.heap|)
    ensures forall a, k :: 0 <= a < |w.heap| && Lookup(w.heap[a].props, k).Some? ==>
      Lookup(Descend(w, cur, keys).world.heap[a].props, k) == Lookup(w.heap[a].props, k)
    decreases |keys|
  {
    if cur.VRef? && keys != [] {
      var a := cur.addr;
      if keys[0] in Keys(w.heap[a].props) {
        DescendKeepsEntries(w, GetProp(w.heap, a, keys[0]), keys[1..]);
      } else {
        var n := |w.heap|;
        var h1 := w.heap + [Obj(false, [])];
        AllocOk(w.heap, false);
        SetPropOk(h1, a, keys[0], VRef(n));
        var w2 := w.(heap := SetProp(h1, a, keys[0], VRef(n)));
        DescendKeepsEntries(w2, VRef(n), keys[1..]);
        forall b, k | 0 <= b < |w.heap| && Lookup(w.heap[b].props, k).Some?
          ensures Lookup(w2.heap[b].props, k) == Lookup(w.heap[b].props, k)
        {
          assert h1[b] == w.heap[b];
          if b == a {
            assert k != keys[0];
          }
        }
      }
    }
  }

  /** `updateValue` throws exactly when the walk meets a primitive, and then
      reports nothing. Otherwise it reports exactly one update, carrying
      the path, the value and the value the key held just before; the key
      then holds the value and no other property present before changes. */
  lemma {:induction false} UpdateValueEffect(w: World, path: seq<string>, value: Value, root: nat)
    requires HeapOk(w.heap) && root < |w.heap| && ValueOk(value, |w.heap|)
    ensures var r := UpdateValue(w, path, value, root);
      var d := Descend(w, VRef(root), DropLast(path));
      (r.Threw? <==> d.Threw?)
      && (r.Threw? ==> r.world.log == w.log)
      && (r.Done? ==>
            Lookup(r.world.heap[d.result].props, LastKey(path)) == Some(value)
            && r.world.log == w.log + [Update(path, value, GetProp(d.world.heap, d.result, LastKey(path)))]
            && forall a, k :: 0 <= a < |w.heap| && (a != d.result || k != LastKey(path)) && Lookup(w.heap[a].props, k).Some? ==>
                 Lookup(r.world.heap[a].props, k) == Lookup(w.heap[a].props, k))
  {
    DescendKeepsEntries(w, VRef(root), DropLast(path));
    var r := UpdateValue(w, path, value, root);
    var d := Descend(w, VRef(root), DropLast(path));
    if d.Done? {
      var key := LastKey(path);
      forall a, k | 0 <= a < |w.heap| && (a != d.result || k != key) && Lookup(w.heap[a].props, k).Some?
        ensures Lookup(r.world.heap[a].props, k) == Lookup(w.heap[a].props, k)
      {
        if a == d.result {
          assert Lookup(r.world.heap[a].props, k) == Lookup(d.world.heap[a].props, k);
        }
      }
    }
  }

  /** The callback fires once per completed `updateValue`, with the path
      and the value written, and never when it throws. */
  lemma {:induction false} UpdateValueReportsOnce(w: World, path: seq<string>, value: Value, root: nat)
    requires HeapOk(w.heap) && root < |w.heap| && ValueOk(value, |w.heap|)
    ensures var r := UpdateValue(w, path, value, root);
      (r.Threw? ==> r.world.log == w.log)
      && (r.Done? ==> |r.world.log| == |w.log| + 1 && r.world.log[..|w.log|] == w.log
                      && r.world.log[|w.log|].path == path && r.world.log[|w.log|].value == value)
  {
  }

  /** A write at a one-key path never throws: it sets that key of the root
      and reports the key's previous value. */
  lemma {:induction false} UpdateAtKey(w: World, k: string, value: Value, root: nat)
    requires HeapOk(w.heap) && root < |w.heap| && ValueOk(value, |w.heap|)
    ensures UpdateValue(w, [k], value, root)
      == Done(World(SetProp(w.heap, root, k, value), w.log + [Update([k], value, GetProp(w.heap, root, k))]), root)
  {
    assert DropLast([k]) == [];
  }

  // ---- string tokens ----

  /** The updates a string writes at key `k` from its `i`-th character on:
      each successive prefix, with the previous prefix as previous value. */
  function Prefixes(k: string, s: string, i: nat, prev: Value): (r: seq<Update>)
    requires i <= |s|
    ensures |r| == |s| - i
    ensures forall j :: 0 <= j < |r| ==> r[j].path == [k] && r[j].value == VStr(s[..i + j + 1])
    ensures forall j :: 0 < j < |r| ==> r[j].previousValue == VStr(s[..i + j])
    ensures |r| > 0 ==> r[0].previousValue == prev
    decreases |s| - i
  {
    if i == |s| then []
    else
      var rest := Prefixes(k, s, i + 1, VStr(s[..i + 1]));
      var r := [Update([k], VStr(s[..i + 1]), prev)] + rest;
      assert forall j :: 0 < j < |r| ==> r[j] == rest[j - 1];
      r
  }

  /** At a one-key path a string's characters are written one by one: the
      updates are the successive prefixes, and the key ends up holding the
      whole string. */
  lemma {:induction false} StringAtKey(w: World, s: string, i: nat, b: Builder, k: string)
    requires HeapOk(w.heap) && BuilderOk(b, |w.heap|) && i <= |s|
    requires b.currentPath == [k] && b.currentString == s[..i]
    ensures var r := StringUpdates(w, s, i, b);
      r.Done? && r.result == b.(currentString := s)
      && r.world.log == w.log + Prefixes(k, s, i, GetProp(w.heap, b.currentObject, k))
      && (i < |s| ==> GetProp(r.world.heap, b.currentObject, k) == VStr(s))
      && |r.world.heap| == |w.heap|
      && forall k2 :: k2 != k ==> GetProp(r.world.heap, b.currentObject, k2) == GetProp(w.heap, b.currentObject, k2)
    decreases |s| - i
  {
    if i == |s| {
      assert s[..i] == s;
    } else {
      var b1 := b.(currentString := s[..i + 1]);
      var u := StringStep(w, s, i, b, k);
      StringAtKey(u, s, i + 1, b1, k);
    }
  }

  /** One character of `StringAtKey`. */
  lemma {:induction false} StringStep(w: World, s: string, i: nat, b: Builder, k: string) returns (u: World)
    requires HeapOk(w.heap) && BuilderOk(b, |w.heap|) && i < |s|
    requires b.currentPath == [k] && b.currentString == s[..i]
    ensures HeapOk(u.heap) && BuilderOk(b.(currentString := s[..i + 1]), |u.heap|)
    ensures StringUpdates(w, s, i, b) == StringUpdates(u, s, i + 1, b.(currentString := s[..i + 1]))
    ensures GetProp(u.heap, b.currentObject, k) == VStr(s[..i + 1]) && |u.heap| == |w.heap|
    ensures forall k2 :: k2 != k ==> GetProp(u.heap, b.currentObject, k2) == GetProp(w.heap, b.currentObject, k2)
    ensures w.log + Prefixes(k, s, i, GetProp(w.heap, b.currentObject, k))
         == u.log + Prefixes(k, s, i + 1, VStr(s[..i + 1]))
  {
    var b1 := b.(currentString := b.currentString + [s[i]]);
    assert b1.currentString == s[..i + 1];
    var prev := GetProp(w.heap, b.currentObject, k);
    var r := UpdateValue(w, [k], VStr(s[..i + 1]), b.currentObject);
    UpdateAtKey(w, k, VStr(s[..i + 1]), b.currentObject);
    u := r.world;
    LogStep(w.log, u.log, k, s, i, prev);
  }

  lemma {:induction false} LogStep(before: seq<Update>, after: seq<Update>, k: string, s: string, i: nat, prev: Value)
    requires i < |s| && after == before + [Update([k], VStr(s[..i + 1]), prev)]
    ensures before + Prefixes(k, s, i, prev) == after + Prefixes(k, s, i + 1, VStr(s[..i + 1]))
  {
    assert Prefixes(k, s, i, prev) == [Update([k], VStr(s[..i + 1]), prev)] + Prefixes(k, s, i + 1, VStr(s[..i + 1]));
  }

  /** A field of the top-level object with a string value: one update per
      character, successive prefixes, the first with the key's old value. */
  lemma {:induction false} TopLevelStringField(mode: Semantics, w: World, name: string, q: string, b: Builder)
    requires HeapOk(w.heap) && BuilderOk(b, |w.heap|) && b.currentPath == []
    ensures var r := ProcessToken(mode, w, Token(JSONField, name, StartPos, [Token(JSONString, "\"" + q + "\"", StartPos, [])]), b);
      r.Done? && r.world.log == w.log + Prefixes(name, q, 0, GetProp(w.heap, b.currentObject, name))
      && (q != "" ==> GetProp(r.world.heap, b.currentObject, name) == VStr(q))
      && |r.world.heap| == |w.heap|
      && (forall k2 :: k2 != name ==> GetProp(r.world.heap, b.currentObject, k2) == GetProp(w.heap, b.currentObject, k2))
      && r.result == b.(currentPath := if mode == AsWritten then [name] else [], currentString := q)
  {
    var b1 := b.(currentPath := [name], currentString := "");
    assert b.currentPath + [name] == [name];
    var st := Token(JSONString, "\"" + q + "\"", StartPos, []);
    StripQuoted(q);
    assert q[..0] == "";
    StringAtKey(w, q, 0, b1, name);
    var r := StringUpdates(w, q, 0, b1);
    assert ProcessToken(mode, w, st, b1).world == r.world;
    assert ProcessToken(mode, w, Token(JSONField, name, StartPos, [st]), b) == ProcessToken(mode, w, st, b1);
  }

  lemma {:induction false} StripQuoted(q: string)
    ensures StripDoubleQuotes("\"" + q + "\"") == q
  {
    var t := "\"" + q + "\"";
    assert t[1..] == q + "\"";
    assert (q + "\"")[..|q|] == q;
  }

  // ---- the other tokens ----

  /** A field with a number, boolean or null value reports exactly one
      update, at the path extended by the field's name, and leaves the path
      as it was. */
  lemma {:induction false} ScalarFieldBalanced(mode: Semantics, w: World, name: string, c: Token, rest: seq<Token>, b: Builder)
    requires HeapOk(w.heap) && BuilderOk(b, |w.heap|) && IsScalar(c.kind)
    ensures var r := ProcessToken(mode, w, Token(JSONField, name, StartPos, [c] + rest), b);
      r.Threw? || (r.result == b.(currentString := "") && |r.world.log| == |w.log| + 1
                   && r.world.log[|w.log|] == Update(b.currentPath + [name], ScalarValue(c),
                        r.world.log[|w.log|].previousValue))
  {
    var b1 := b.(currentPath := b.currentPath + [name], currentString := "");
    UpdateValueReportsOnce(w, b1.currentPath, ScalarValue(c), b.currentObject);
    assert DropLast(b1.currentPath) == b.currentPath;
    var ft := Token(JSONField, name, StartPos, [c] + rest);
    assert ft.children[0] == c;
    var u := UpdateValue(w, b1.currentPath, ScalarValue(c), b.currentObject);
    assert ProcessToken(mode, w, ft, b) == ProcessToken(mode, w, c, b1);
    assert ProcessToken(mode, w, c, b1) == if u.Threw? then Threw(u.world) else Done(u.world, b.(currentString := ""));
  }

  /** A field of the top-level object with a number, boolean or null
      value sets that key of the root and reports it once. */
  lemma {:induction false} TopLevelScalarField(mode: Semantics, w: World, name: string, c: Token, b: Builder)
    requires HeapOk(w.heap) && BuilderOk(b, |w.heap|) && IsScalar(c.kind) && b.currentPath == []
    ensures ProcessToken(mode, w, Token(JSONField, name, StartPos, [c]), b)
      == Done(World(SetProp(w.heap, b.currentObject, name, ScalarValue(c)),
                    w.log + [Update([name], ScalarValue(c), GetProp(w.heap, b.currentObject, name))]),
              b.(currentString := ""))
  {
    var b1 := b.(currentPath := [name], currentString := "");
    assert b.currentPath + [name] == [name];
    UpdateAtKey(w, name, ScalarValue(c), b.currentObject);
    assert DropLast([name]) == [];
    var u := UpdateValue(w, [name], ScalarValue(c), b.currentObject);
    assert !IsContainer(c.kind) && c.kind != JSONField && c.kind != JSONString;
    assert b1.(currentPath := DropLast(b1.currentPath)) == b.(currentString := "");
    assert ProcessToken(mode, w, c, b1) == if u.Threw? then Threw(u.world) else Done(u.world, b.(currentString := ""));
    assert ProcessToken(mode, w, Token(JSONField, name, StartPos, [c]), b) == ProcessToken(mode, w, c, b1);
  }

  /** As written, a string value leaves its key `k` on the path, so a
      number, boolean or null field that follows is written below the
      string: the walk reaches the string and the write throws. */
  lemma {:induction false} FieldBelowStringThrows(mode: Semantics, w: World, k: string, name: string, c: Token, b: Builder)
    requires HeapOk(w.heap) && BuilderOk(b, |w.heap|) && IsScalar(c.kind)
    requires b.currentPath == [k] && GetProp(w.heap, b.currentObject, k).VStr?
    ensures ProcessToken(mode, w, Token(JSONField, name, StartPos, [c]), b).Threw?
  {
    var b1 := b.(currentPath := [k, name], currentString := "");
    assert b.currentPath + [name] == [k, name];
    assert DropLast([k, name]) == [k];
    assert k in Keys(w.heap[b.currentObject].props);
    var v := GetProp(w.heap, b.currentObject, k);
    assert Descend(w, VRef(b.currentObject), [k]) == Descend(w, v, [k][1..]);
    assert Descend(w, VRef(b.currentObject), [k]).Threw?;
    var u := UpdateValue(w, [k, name], ScalarValue(c), b.currentObject);
    assert u.Threw?;
    assert !IsContainer(c.kind) && c.kind != JSONField && c.kind != JSONString;
    assert ProcessToken(mode, w, c, b1) == Threw(u.world);
    assert ProcessToken(mode, w, Token(JSONField, name, StartPos, [c]), b) == ProcessToken(mode, w, c, b1);
  }

  /** A field's children after the first are never looked at. */
  lemma {:induction false} FieldFirstChildOnly(mode: Semantics, w: World, name: string, c: Token, r1: seq<Token>, r2: seq<Token>, b: Builder)
    requires HeapOk(w.heap) && BuilderOk(b, |w.heap|)
    ensures ProcessToken(mode, w, Token(JSONField, name, StartPos, [c] + r1), b)
         == ProcessToken(mode, w, Token(JSONField, name, StartPos, [c] + r2), b)
  {
    assert ([c] + r1)[0] == c && ([c] + r2)[0] == c;
  }

  /** The fields of a list of tokens. */
  function FieldsOf(cs: seq<Token>): (r: seq<Token>)
    ensures forall i :: 0 <= i < |r| ==> r[i].kind == JSONField
  {
    if cs == [] then [] else (if cs[0].kind == JSONField then [cs[0]] else []) + FieldsOf(cs[1..])
  }

  /** Only the fields among a container's children matter: array elements
      and other tokens are skipped. */
  lemma {:induction false} ChildrenOnlyFields(mode: Semantics, w: World, cs: seq<Token>, b: Builder)
    requires HeapOk(w.heap) && BuilderOk(b, |w.heap|)
    ensures ProcessChildren(mode, w, cs, b) == ProcessChildren(mode, w, FieldsOf(cs), b)
    decreases |cs|
  {
    if cs != [] {
      if cs[0].kind == JSONField {
        var f := FieldsOf(cs);
        assert f[0] == cs[0] && f[1..] == FieldsOf(cs[1..]);
        var r := ProcessToken(mode, w, cs[0], b);
        if r.Done? {
          ChildrenOnlyFields(mode, r.world, cs[1..], r.result);
        }
      } else {
        assert FieldsOf(cs) == FieldsOf(cs[1..]);
        ChildrenOnlyFields(mode, w, cs[1..], b);
      }
    }
  }

  /** A container without fields at the top level (empty path, empty
      stack) reports nothing and changes nothing. */
  lemma {:induction false} TopLevelContainerSilent(mode: Semantics, w: World, t: Token, b: Builder)
    requires HeapOk(w.heap) && BuilderOk(b, |w.heap|)
    requires IsContainer(t.kind) && FieldsOf(t.children) == [] && b.currentPath == [] && b.stack == []
    ensures ProcessToken(mode, w, t, b) == Done(w, b)
  {
    ChildrenOnlyFields(mode, w, t.children, b);
  }

  /** A container at a non-empty path first reports one update carrying a
      new empty object or array, at that path, and pushes a frame. */
  lemma {:induction false} NestedContainerAnnounced(w: World, isArray: bool, b: Builder)
    requires HeapOk(w.heap) && BuilderOk(b, |w.heap|) && b.currentPath != []
    ensures var r := OpenContainer(w, isArray, b);
      r.Threw? ==> r.world.log == w.log
    ensures var r := OpenContainer(w, isArray, b);
      r.Done? ==>
        (r.result.stack == b.stack + [Frame(b.currentObject, LastKey(b.currentPath))]
         && |r.world.log| == |w.log| + 1
         && r.world.log[|w.log|].path == b.currentPath && r.world.log[|w.log|].value == VRef(|w.heap|))
  {
    AllocOk(w.heap, isArray);
    UpdateValueReportsOnce(w.(heap := w.heap + [Obj(isArray, [])]), b.currentPath, VRef(|w.heap|), b.currentObject);
  }

  /** Text tokens change nothing. */
  lemma {:induction false} TextTokensIgnored(mode: Semantics, w: World, ts: seq<Token>, b: Builder)
    requires HeapOk(w.heap) && BuilderOk(b, |w.heap|)
    requires forall i :: 0 <= i < |ts| ==> ts[i].kind == Text
    ensures RunTokens(mode, w, ts, b) == Run(w, b, false)
    decreases |ts|
  {
    if ts != [] {
      TextTokensIgnored(mode, w, ts[1..], b);
    }
  }

  /** Processing tokens in two batches (as `feed` and `end` do) is
      processing them in one. */
  lemma {:induction false} RunTokensAppend(mode: Semantics, w: World, a: seq<Token>, c: seq<Token>, b: Builder)
    requires HeapOk(w.heap) && BuilderOk(b, |w.heap|)
    ensures var r := RunTokens(mode, w, a, b);
      RunTokens(mode, w, a + c, b) == if r.threw then r else RunTokens(mode, r.world, c, r.state)
    decreases |a|
  {
    if a == [] {
      assert a + c == c;
    } else {
      assert (a + c)[0] == a[0] && (a + c)[1..] == a[1..] + c;
      var r := ProcessToken(mode, w, a[0], b);
      if r.Done? {
        RunTokensAppend(mode, r.world, a[1..], c, r.result);
      }
    }
  }
}
