/** The object `createStreamableJSONParser(schema, callback)` of
    formats/json/streamJsonParser.ts returns: a scanner, a live result
    object, the builder state, and `feed`/`end`. The heap and the reports
    made to the callback are variables of the object; each method is proved
    to leave them as the functions of module StreamJsonSpec do. The object
    runs the code as written or with its slips corrected, as chosen when it
    is made (see `JsonTokens.Semantics`), in both its scanner and its
    builder. The compiled schema check is a parameter. */
module StreamJson {
  import opened Wrappers
  import opened JsonValue
  import opened JsonTokens
  import opened StreamJsonSpec
  import JsonScanner
  import S = JsonScanSpec

  class StreamableJsonParser {
    /** The code as written, or corrected. */
    const mode: Semantics
    /** `createJSONParser()`. */
    const parser: JsonScanner.Scanner
    /** `ajv.compile(schema)`: whether the object at an address of the heap
        matches the schema. */
    const validate: (Heap, nat) -> bool
    /** Every object and array the builder has made; the root is at 0. */
    var heap: Heap
    /** The calls made to the callback, in order. */
    var log: seq<Update>
    /** `state`. */
    var state: Builder

    ghost predicate Valid()
      reads this, parser
    {
      parser.Valid() && HeapOk(heap) && BuilderOk(state, |heap|)
    }

    constructor (validate: (Heap, nat) -> bool, mode: Semantics)
      ensures Valid() && fresh(parser) && parser.Snapshot() == S.Initial(mode)
      ensures World(heap, log) == InitialWorld && state == InitialBuilder
      ensures this.validate == validate && this.mode == mode
    {
      this.mode := mode;
      parser := new JsonScanner.Scanner(mode);
      this.validate := validate;
      heap := [Obj(false, [])];
      log := [];
      state := Builder(0, [], [], "");
      new;
      InitialOk();
    }

    /** `updateValue(path, value, currentObject)`; `threw` says that it
        ended in a TypeError. */
    method UpdateValue(path: seq<string>, value: Value, root: nat) returns (threw: bool)
      requires HeapOk(heap) && root < |heap| && ValueOk(value, |heap|)
      modifies this
      ensures HeapOk(heap) && state == old(state)
      ensures var r := StreamJsonSpec.UpdateValue(old(World(heap, log)), path, value, root);
        World(heap, log) == r.world && threw == r.Threw?
    {
      ghost var w0 := World(heap, log);
      var keys := DropLast(path);
      var h := heap;
      var current := VRef(root);
      var i := 0;
      while i < |path| - 1
        invariant 0 <= i <= |keys| && HeapOk(h) && ValueOk(current, |h|)
        invariant log == old(log) && state == old(state)
        invariant Descend(World(h, log), current, keys[i..]) == Descend(w0, VRef(root), keys)
      {
        if !current.VRef? {
          // `in` on a primitive throws
          heap := h;
          return true;
        }
        var a := current.addr;
        var key := path[i];
        assert keys[i..][0] == key && keys[i..][1..] == keys[i + 1..] by {
          assert keys[i] == (keys + [path[|path| - 1]])[i];
        }
        DescendStep(World(h, log), a, keys[i..]);
        if key !in Keys(h[a].props) {
          var n := |h|;
          h := SetProp(h + [Obj(false, [])], a, key, VRef(n));
          current := VRef(n);
        } else {
          current := GetProp(h, a, key);
        }
        i := i + 1;
      }
      assert keys[i..] == [];
      if !current.VRef? {
        // reading or writing a property of a primitive throws
        heap := h;
        return true;
      }
      var lastKey := LastKey(path);
      var previousValue := GetProp(h, current.addr, lastKey);
      SetPropOk(h, current.addr, lastKey, value);
      heap := SetProp(h, current.addr, lastKey, value);
      log := log + [Update(path, value, previousValue)];
      threw := false;
    }

    /** `processToken(token, state)`: the state it returns, or a thrown
        TypeError. */
    method ProcessToken(t: Token, b: Builder) returns (threw: bool, r: Builder)
      requires HeapOk(heap) && BuilderOk(b, |heap|)
      modifies this
      ensures HeapOk(heap) && state == old(state)
      ensures var s := StreamJsonSpec.ProcessToken(mode, old(World(heap, log)), t, b);
        World(heap, log) == s.world && threw == s.Threw? && (!threw ==> r == s.result)
      decreases t, 1
    {
      r := b;
      threw := false;
      if IsContainer(t.kind) {
        if |r.currentPath| > 0 {
          r := r.(stack := r.stack + [Frame(r.currentObject, LastKey(r.currentPath))]);
          var n := |heap|;
          AllocOk(heap, t.kind == JSONArray);
          heap := heap + [Obj(t.kind == JSONArray, [])];
          threw := UpdateValue(r.currentPath, VRef(n), r.currentObject);
          if threw {
            return;
          }
        }
        threw, r := ProcessFields(t, r);
        if threw {
          return;
        }
        r := CloseContainer(r);
      } else if t.kind == JSONField {
        r := r.(currentPath := r.currentPath + [t.content], currentString := "");
        if |t.children| > 0 {
          threw, r := ProcessToken(t.children[0], r);
        }
      } else if t.kind == JSONString {
        if |r.currentPath| > 0 {
          var content := StripDoubleQuotes(t.content);
          var i := 0;
          while i < |content|
            invariant 0 <= i <= |content| && HeapOk(heap) && BuilderOk(r, |heap|) && state == old(state)
            invariant StringUpdates(World(heap, log), content, i, r)
                   == StringUpdates(old(World(heap, log)), content, 0, b)
          {
            r := r.(currentString := r.currentString + [content[i]]);
            threw := UpdateValue(r.currentPath, VStr(r.currentString), r.currentObject);
            if threw {
              return;
            }
            i := i + 1;
          }
          if mode == Corrected {
            // the string's key is dropped as for the other values
            r := r.(currentPath := DropLast(r.currentPath));
          }
        }
      } else if IsScalar(t.kind) {
        var value :=
          if t.kind == JSONNumber then VNum(t.content)
          else if t.kind == JSONBoolean then VBool(t.content == "true")
          else VNull;
        threw := UpdateValue(r.currentPath, value, r.currentObject);
        if threw {
          return;
        }
        r := r.(currentPath := DropLast(r.currentPath));
      }
    }

    /** The end of a container: the enclosing object becomes current again. */
    method CloseContainer(b: Builder) returns (r: Builder)
      requires HeapOk(heap) && BuilderOk(b, |heap|)
      modifies this
      ensures HeapOk(heap) && state == old(state)
      ensures var s := StreamJsonSpec.CloseContainer(mode, old(World(heap, log)), b);
        World(heap, log) == s.world && r == s.result
    {
      r := b;
      if |r.stack| > 0 {
        var f := r.stack[|r.stack| - 1];
        if mode == AsWritten {
          // `object[key] = currentObject`
          SetPropOk(heap, f.target, f.key, VRef(r.currentObject));
          heap := SetProp(heap, f.target, f.key, VRef(r.currentObject));
        }
        r := Builder(f.target, r.stack[..|r.stack| - 1], DropLast(r.currentPath), r.currentString);
      }
    }

    /** The loop over a container's children: only fields are processed. */
    method ProcessFields(t: Token, b: Builder) returns (threw: bool, r: Builder)
      requires HeapOk(heap) && BuilderOk(b, |heap|)
      modifies this
      ensures HeapOk(heap) && state == old(state)
      ensures var s := ProcessChildren(mode, old(World(heap, log)), t.children, b);
        World(heap, log) == s.world && threw == s.Threw? && (!threw ==> r == s.result)
      decreases t, 0
    {
      r := b;
      threw := false;
      var i := 0;
      while i < |t.children|
        invariant 0 <= i <= |t.children| && HeapOk(heap) && BuilderOk(r, |heap|) && state == old(state)
        invariant ProcessChildren(mode, World(heap, log), t.children[i..], r)
               == ProcessChildren(mode, old(World(heap, log)), t.children, b)
      {
        assert t.children[i..][1..] == t.children[i + 1..];
        if t.children[i].kind == JSONField {
          threw, r := ProcessToken(t.children[i], r);
          if threw {
            return;
          }
        }
        i := i + 1;
      }
    }

    /** The token loop of `feed` and `end`. */
    method RunTokens(tokens: seq<Token>) returns (threw: bool)
      requires HeapOk(heap) && BuilderOk(state, |heap|)
      modifies this
      ensures HeapOk(heap) && BuilderOk(state, |heap|)
      ensures var run := StreamJsonSpec.RunTokens(mode, old(World(heap, log)), tokens, old(state));
        World(heap, log) == run.world && state == run.state && threw == run.threw
    {
      var i := 0;
      while i < |tokens|
        invariant 0 <= i <= |tokens| && HeapOk(heap) && BuilderOk(state, |heap|)
        invariant StreamJsonSpec.RunTokens(mode, World(heap, log), tokens[i..], state)
               == StreamJsonSpec.RunTokens(mode, old(World(heap, log)), tokens, old(state))
      {
        assert tokens[i..][1..] == tokens[i + 1..];
        var next;
        threw, next := ProcessToken(tokens[i], state);
        if threw {
          return;
        }
        state := next;
        i := i + 1;
      }
      threw := false;
    }

    /** `feed(chunk)`: the chunk goes to the scanner and the tokens it
        releases go through the builder. */
    method Feed(chunk: string) returns (threw: bool)
      requires Valid()
      modifies this, parser
      ensures Valid()
      ensures parser.Snapshot() == S.Parse(old(parser.Snapshot()), chunk).1
      ensures var run := StreamJsonSpec.RunTokens(mode, old(World(heap, log)),
                           MaterializeAll(parser.arena, S.Parse(old(parser.Snapshot()), chunk).0), old(state));
        World(heap, log) == run.world && state == run.state && threw == run.threw
    {
      var tokens := parser.Parse(chunk);
      threw := RunTokens(tokens);
    }

    /** `end()`: the scanner's remaining tree goes through the builder, and
        the root is returned when the schema accepts it. */
    method End() returns (threw: bool, result: Option<nat>)
      requires Valid()
      modifies this, parser
      ensures Valid()
      ensures parser.Snapshot() == S.End(old(parser.Snapshot())).1
      ensures var run := StreamJsonSpec.RunTokens(mode, old(World(heap, log)),
                           MaterializeAll(parser.arena, S.End(old(parser.Snapshot())).0), old(state));
        World(heap, log) == run.world && state == run.state && threw == run.threw
      ensures result == if threw || !validate(heap, state.currentObject) then None else Some(state.currentObject)
    {
      var tokens := parser.End();
      threw := RunTokens(tokens);
      if threw {
        return threw, None;
      }
      if validate(heap, state.currentObject) {
        result := Some(state.currentObject);
      } else {
        result := None;
      }
    }
  }
}
