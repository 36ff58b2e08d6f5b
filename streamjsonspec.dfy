/** The value builder of formats/json/streamJsonParser.ts
    (`createStreamableJSONParser`): it walks the scanner's tokens, writes
    values into a live nested object at a path and reports each write as an
    update `{path, value, previousValue}`. Objects live in a heap (a store
    addressed by number) because they are shared and updated in place. A
    write that JavaScript's strict mode refuses (a property of a primitive)
    throws a TypeError; a thrown error is a `Threw` result carrying the
    effects made before the throw. */
module StreamJsonSpec {
  import opened Wrappers
  import opened JsonValue
  import opened JsonTokens

  /** A JavaScript value as the builder handles it; `VNum(text)` stands for
      `Number(text)`, the floating-point conversion being left abstract. */
  datatype Value = VUndefined | VNull | VBool(b: bool) | VNum(text: string) | VStr(s: string) | VRef(addr: nat)

  /** An object (`{}`) or array (`[]`) and its own properties in order. */
  datatype Obj = Obj(isArray: bool, props: seq<(string, Value)>)

  type Heap = seq<Obj>

  /** What the callback receives. */
  datatype Update = Update(path: seq<string>, value: Value, previousValue: Value)

  /** A stack entry: the object to write back into and under which key. */
  datatype Frame = Frame(target: nat, key: string)

  /** The `ParserState` record of the builder. */
  datatype Builder = Builder(currentObject: nat, stack: seq<Frame>, currentPath: seq<string>, currentString: string)

  /** The heap and the updates reported so far. */
  datatype World = World(heap: Heap, log: seq<Update>)

  /** The end of a step: its result, or a TypeError thrown midway. */
  datatype Step<T> = Done(world: World, result: T) | Threw(world: World)

  predicate ValueOk(v: Value, n: nat) {
    v.VRef? ==> v.addr < n
  }

  /** Every reference stored in the heap points into it. */
  ghost predicate HeapOk(h: Heap) {
    forall a, k :: 0 <= a < |h| && Lookup(h[a].props, k).Some? ==> ValueOk(Lookup(h[a].props, k).value, |h|)
  }

  predicate BuilderOk(b: Builder, n: nat) {
    b.currentObject < n && forall i :: 0 <= i < |b.stack| ==> b.stack[i].target < n
  }

  /** `obj[key]` on an object: `undefined` when absent. Properties inherited
      from `Object.prototype` are not modelled. */
  function GetProp(h: Heap, a: nat, key: string): Value
    requires a < |h|
  {
    match Lookup(h[a].props, key)
    case Some(v) => v
    case None => VUndefined
  }

  /** `obj[key] = v` on an object. */
  function SetProp(h: Heap, a: nat, key: string, v: Value): (r: Heap)
    requires a < |h|
    ensures |r| == |h| && r[a] == h[a].(props := Put(h[a].props, key, v))
    ensures forall b :: 0 <= b < |h| && b != a ==> r[b] == h[b]
  {
    h[a := h[a].(props := Put(h[a].props, key, v))]
  }

  lemma {:induction false} SetPropOk(h: Heap, a: nat, key: string, v: Value)
    requires HeapOk(h) && a < |h| && ValueOk(v, |h|)
    ensures HeapOk(SetProp(h, a, key, v))
  {
    var r := SetProp(h, a, key, v);
    forall b, k | 0 <= b < |r| && Lookup(r[b].props, k).Some?
      ensures ValueOk(Lookup(r[b].props, k).value, |r|)
    {
      if b == a && k != key {
        assert Lookup(r[b].props, k) == Lookup(h[a].props, k);
      }
    }
  }

  lemma {:induction false} AllocOk(h: Heap, isArray: bool)
    requires HeapOk(h)
    ensures HeapOk(h + [Obj(isArray, [])])
  {
    var r := h + [Obj(isArray, [])];
    forall b, k | 0 <= b < |r| && Lookup(r[b].props, k).Some?
      ensures ValueOk(Lookup(r[b].props, k).value, |r|)
    {
      if b < |h| {
        assert r[b] == h[b];
      }
    }
  }

  /** `path[path.length - 1]`: `undefined`, used as the key "undefined",
      for the empty path. */
  function LastKey(path: seq<string>): string {
    if path == [] then "undefined" else path[|path| - 1]
  }

  /** `path.slice(0, -1)`. */
  function DropLast(path: seq<string>): (r: seq<string>)
    ensures |path| > 0 ==> |r| == |path| - 1 && path == r + [path[|path| - 1]]
    ensures path == [] ==> r == []
  {
    if path == [] then [] else path[..|path| - 1]
  }

  // ---- updateValue ----

  /** The walk of `updateValue` from `cur` along `keys`: a missing key gets a
      new empty object, a present one is followed. Reaching a primitive
      throws, as the next `in` test or the final write on it does. */
  function Descend(w: World, cur: Value, keys: seq<string>): (r: Step<nat>)
    requires HeapOk(w.heap) && ValueOk(cur, |w.heap|)
    ensures HeapOk(r.world.heap) && |r.world.heap| >= |w.heap| && r.world.log == w.log
    ensures r.Done? ==> r.result < |r.world.heap|
    decreases |keys|
  {
    if !cur.VRef? then Threw(w)
    else if keys == [] then Done(w, cur.addr)
    else
      var a := cur.addr;
      if keys[0] in Keys(w.heap[a].props) then
        Descend(w, GetProp(w.heap, a, keys[0]), keys[1..])
      else
        var n := |w.heap|;
        var h1 := w.heap + [Obj(false, [])];
        AllocOk(w.heap, false);
        SetPropOk(h1, a, keys[0], VRef(n));
        Descend(w.(heap := SetProp(h1, a, keys[0], VRef(n))), VRef(n), keys[1..])
  }

  /** One step of the walk at an object: follow the first key, creating
      an empty object under it when it is missing. */
  lemma {:induction false} DescendStep(w: World, a: nat, keys: seq<string>)
    requires HeapOk(w.heap) && a < |w.heap| && keys != []
    ensures keys[0] in Keys(w.heap[a].props) ==>
      Descend(w, VRef(a), keys) == Descend(w, GetProp(w.heap, a, keys[0]), keys[1..])
    ensures keys[0] !in Keys(w.heap[a].props) ==>
      HeapOk(SetProp(w.heap + [Obj(false, [])], a, keys[0], VRef(|w.heap|)))
      && Descend(w, VRef(a), keys)
         == Descend(w.(heap := SetProp(w.heap + [Obj(false, [])], a, keys[0], VRef(|w.heap|))), VRef(|w.heap|), keys[1..])
  {
    if keys[0] !in Keys(w.heap[a].props) {
      AllocOk(w.heap, false);
      SetPropOk(w.heap + [Obj(false, [])], a, keys[0], VRef(|w.heap|));
    }
  }

  /** `updateValue(path, value, currentObject)`: walks to the parent of the
      last key, reads the previous value, writes the new one and reports
      the write. The result is `currentObject` itself. */
  function UpdateValue(w: World, path: seq<string>, value: Value, root: nat): (r: Step<nat>)
    requires HeapOk(w.heap) && root < |w.heap| && ValueOk(value, |w.heap|)
    ensures HeapOk(r.world.heap) && |r.world.heap| >= |w.heap| && w.log <= r.world.log
    ensures r.Done? ==> r.result == root
  {
    match Descend(w, VRef(root), DropLast(path))
    case Threw(w1) => Threw(w1)
    case Done(w1, a) =>
      var key := LastKey(path);
      SetPropOk(w1.heap, a, key, value);
      Done(World(SetProp(w1.heap, a, key, value), w1.log + [Update(path, value, GetProp(w1.heap, a, key))]), root)
  }

  // ---- processToken ----

  /** `replace(/^"|"$/g, '')`: one leading and one trailing double quote. */
  function StripDoubleQuotes(s: string): (r: string)
    ensures |r| <= |s|
  {
    var t := if |s| > 0 && s[0] == '"' then s[1..] else s;
    if |t| > 0 && t[|t| - 1] == '"' then t[..|t| - 1] else t
  }

  /** The character loop of the string case: the string so far grows by one
      character and is written at the path, once per character. */
  function StringUpdates(w: World, content: string, i: nat, b: Builder): (r: Step<Builder>)
    requires HeapOk(w.heap) && BuilderOk(b, |w.heap|) && i <= |content|
    ensures HeapOk(r.world.heap) && |r.world.heap| >= |w.heap| && w.log <= r.world.log
    ensures r.Done? ==> BuilderOk(r.result, |r.world.heap|) && r.result == b.(currentString := r.result.currentString)
    decreases |content| - i
  {
    if i == |content| then
      Done(w, b)
    else
      var b1 := b.(currentString := b.currentString + [content[i]]);
      var u := UpdateValue(w, b1.currentPath, VStr(b1.currentString), b1.currentObject);
      if u.Threw? then Threw(u.world) else StringUpdates(u.world, content, i + 1, b1)
  }

  /** The value of a number, boolean or null token. */
  function ScalarValue(t: Token): Value {
    if t.kind == JSONNumber then VNum(t.content)
    else if t.kind == JSONBoolean then VBool(t.content == "true")
    else VNull
  }

  predicate IsScalar(kind: TokenType) {
    kind == JSONNumber || kind == JSONBoolean || kind == JSONNull
  }

  /** The first half of the container case: at a non-empty path a frame is
      pushed and a new empty object or array is written at the path. */
  function OpenContainer(w: World, isArray: bool, b: Builder): (r: Step<Builder>)
    requires HeapOk(w.heap) && BuilderOk(b, |w.heap|)
    ensures HeapOk(r.world.heap) && |r.world.heap| >= |w.heap| && w.log <= r.world.log
    ensures r.Done? ==> BuilderOk(r.result, |r.world.heap|)
    ensures b.currentPath == [] ==> r == Done(w, b)
  {
    if |b.currentPath| > 0 then
      var frame := Frame(b.currentObject, LastKey(b.currentPath));
      var n := |w.heap|;
      AllocOk(w.heap, isArray);
      var u := UpdateValue(w.(heap := w.heap + [Obj(isArray, [])]), b.currentPath, VRef(n), b.currentObject);
      if u.Threw? then Threw(u.world) else Done(u.world, b.(stack := b.stack + [frame]))
    else Done(w, b)
  }

  /** The second half of the container case: the top frame is popped and
      one path segment dropped. As written, the frame's object also gets
      `object[key] = currentObject`, and `currentObject` is then the
      frame's object itself: the key ends up holding the object that holds
      it, in place of the nested value just built. Corrected, no write-back
      is made: the nested value was already written in place at its path. */
  function CloseContainer(mode: Semantics, w: World, b: Builder): (r: Step<Builder>)
    requires HeapOk(w.heap) && BuilderOk(b, |w.heap|)
    ensures r.Done? && HeapOk(r.world.heap) && |r.world.heap| == |w.heap| && r.world.log == w.log
    ensures BuilderOk(r.result, |r.world.heap|)
    ensures |b.stack| == 0 ==> r == Done(w, b)
    ensures |b.stack| > 0 ==>
              var f := b.stack[|b.stack| - 1];
              r.result == Builder(f.target, b.stack[..|b.stack| - 1], DropLast(b.currentPath), b.currentString)
    ensures |b.stack| > 0 && mode == Corrected ==> r.world == w
    ensures |b.stack| > 0 && mode == AsWritten ==>
              var f := b.stack[|b.stack| - 1];
              f.target < |w.heap|
              && GetProp(r.world.heap, f.target, f.key) == VRef(b.currentObject)
              && (forall k :: k != f.key ==> GetProp(r.world.heap, f.target, k) == GetProp(w.heap, f.target, k))
              && (forall a :: 0 <= a < |w.heap| && a != f.target ==> r.world.heap[a] == w.heap[a])
  {
    if |b.stack| > 0 then
      var f := b.stack[|b.stack| - 1];
      var heap :=
        if mode == AsWritten then
          (SetPropOk(w.heap, f.target, f.key, VRef(b.currentObject));
           SetProp(w.heap, f.target, f.key, VRef(b.currentObject)))
        else w.heap;
      Done(w.(heap := heap), Builder(f.target, b.stack[..|b.stack| - 1], DropLast(b.currentPath), b.currentString))
    else Done(w, b)
  }

  /** `processToken(token, state)`. */
  function ProcessToken(mode: Semantics, w: World, t: Token, b: Builder): (r: Step<Builder>)
    requires HeapOk(w.heap) && BuilderOk(b, |w.heap|)
    ensures HeapOk(r.world.heap) && |r.world.heap| >= |w.heap| && w.log <= r.world.log
    ensures r.Done? ==> BuilderOk(r.result, |r.world.heap|)
    decreases t, 1
  {
    if IsContainer(t.kind) then
      var o := OpenContainer(w, t.kind == JSONArray, b);
      if o.Threw? then o
      else
        var c := ProcessChildren(mode, o.world, t.children, o.result);
        if c.Threw? then c else CloseContainer(mode, c.world, c.result)
    else if t.kind == JSONField then
      var b1 := b.(currentPath := b.currentPath + [t.content], currentString := "");
      if |t.children| > 0 then ProcessToken(mode, w, t.children[0], b1) else Done(w, b1)
    else if t.kind == JSONString then
      if |b.currentPath| > 0 then
        var s := StringUpdates(w, StripDoubleQuotes(t.content), 0, b);
        // As written the path keeps the string's key, so a following field
        // is written below the string; corrected, the key is dropped as
        // for the other values.
        if s.Threw? || mode == AsWritten then s
        else Done(s.world, s.result.(currentPath := DropLast(s.result.currentPath)))
      else Done(w, b)
    else if IsScalar(t.kind) then
      var u := UpdateValue(w, b.currentPath, ScalarValue(t), b.currentObject);
      if u.Threw? then Threw(u.world) else Done(u.world, b.(currentPath := DropLast(b.currentPath)))
    else Done(w, b)
  }

  /** The loop over a container's children: only fields are processed. */
  function ProcessChildren(mode: Semantics, w: World, cs: seq<Token>, b: Builder): (r: Step<Builder>)
    requires HeapOk(w.heap) && BuilderOk(b, |w.heap|)
    ensures HeapOk(r.world.heap) && |r.world.heap| >= |w.heap| && w.log <= r.world.log
    ensures r.Done? ==> BuilderOk(r.result, |r.world.heap|)
    decreases cs
  {
    if cs == [] then Done(w, b)
    else if cs[0].kind == JSONField then
      var r := ProcessToken(mode, w, cs[0], b);
      if r.Threw? then r else ProcessChildren(mode, r.world, cs[1..], r.result)
    else ProcessChildren(mode, w, cs[1..], b)
  }

  /** Where a run of the token loop ends: the heap and the reports, the
      state last assigned, and whether a token threw. */
  datatype Run = Run(world: World, state: Builder, threw: bool)

  /** The token loop of `feed` and `end`: the state is replaced after each
      token; a throw ends the loop and leaves the state of the token before. */
  function RunTokens(mode: Semantics, w: World, ts: seq<Token>, b: Builder): (r: Run)
    requires HeapOk(w.heap) && BuilderOk(b, |w.heap|)
    ensures HeapOk(r.world.heap) && |r.world.heap| >= |w.heap| && w.log <= r.world.log
    ensures BuilderOk(r.state, |r.world.heap|)
    decreases |ts|
  {
    if ts == [] then Run(w, b, false)
    else
      var p := ProcessToken(mode, w, ts[0], b);
      if p.Threw? then Run(p.world, b, true) else RunTokens(mode, p.world, ts[1..], p.result)
  }

  /** The builder's state before the first token: an empty root object. */
  const InitialWorld := World([Obj(false, [])], [])
  const InitialBuilder := Builder(0, [], [], "")

  lemma {:induction false} InitialOk()
    ensures HeapOk(InitialWorld.heap) && BuilderOk(InitialBuilder, |InitialWorld.heap|)
  {
  }
}
