/** JSON values as JavaScript sees them, and the object operations the
    modelled code performs on them. An object is an ordered list of
    properties: property assignment keeps the position of an existing key and
    appends a new one, as for the string keys of a JavaScript object. */
module JsonValue {
  import opened Wrappers
  import opened JsStrings

  /** A JSON value; `JNum(text)` holds the number's canonical JavaScript
      rendering (`String(n)`), which is all the modelled code ever observes. */
  datatype Json =
    | JNull
    | JBool(b: bool)
    | JNum(text: string)
    | JStr(s: string)
    | JArr(items: seq<Json>)
    | JObj(props: seq<(string, Json)>)

  // ---- ordered property lists ----

  function Keys<V>(props: seq<(string, V)>): (r: seq<string>)
    ensures |r| == |props|
  {
    if props == [] then [] else [props[0].0] + Keys(props[1..])
  }

  /** The `i`-th key is the name of the `i`-th property. */
  lemma {:induction false} KeysIndex<V>(props: seq<(string, V)>)
    ensures forall i :: 0 <= i < |props| ==> Keys(props)[i] == props[i].0
    decreases |props|
  {
    if props != [] {
      KeysIndex(props[1..]);
    }
  }

  /** `obj[key]`: the value under the first property named `key`. */
  function Lookup<V>(props: seq<(string, V)>, key: string): (r: Option<V>)
    ensures r.None? <==> key !in Keys(props)
    ensures r.Some? ==> exists i :: 0 <= i < |props| && props[i] == (key, r.value)
  {
    if props == [] then None
    else if props[0].0 == key then Some(props[0].1)
    else Lookup(props[1..], key)
  }

  /** The keys and the lookups of a list with `p` in front of `rest`. */
  lemma {:induction false} Cons<V>(p: (string, V), rest: seq<(string, V)>)
    ensures Keys([p] + rest) == [p.0] + Keys(rest)
    ensures forall k :: Lookup([p] + rest, k) == if p.0 == k then Some(p.1) else Lookup(rest, k)
  {
    assert ([p] + rest)[1..] == rest;
  }

  /** `obj[key] = value`: overwrites the value of an existing key in place and
      appends a new key at the end. */
  function Put<V>(props: seq<(string, V)>, key: string, value: V): (r: seq<(string, V)>)
    ensures Lookup(r, key) == Some(value)
    ensures forall k :: k != key ==> Lookup(r, k) == Lookup(props, k)
    ensures Keys(r) == if key in Keys(props) then Keys(props) else Keys(props) + [key]
  {
    if props == [] then [(key, value)]
    else
      var head, tail := props[0], props[1..];
      assert props == [head] + tail;
      Cons(head, tail);
      if head.0 == key then
        Cons((key, value), tail);
        [(key, value)] + tail
      else
        var rest := Put(tail, key, value);
        Cons(head, rest);
        [head] + rest
  }

  /** `delete obj[key]`. */
  function Remove<V>(props: seq<(string, V)>, key: string): (r: seq<(string, V)>)
    ensures Lookup(r, key) == None
    ensures forall k :: k != key ==> Lookup(r, k) == Lookup(props, k)
    ensures forall i :: 0 <= i < |r| ==> r[i] in props && r[i].0 != key
  {
    if props == [] then []
    else if props[0].0 == key then Remove(props[1..], key)
    else [props[0]] + Remove(props[1..], key)
  }

  /** `{ ...a, ...b }`: the properties of `b` assigned, in order, over `a`. */
  function Assign<V>(a: seq<(string, V)>, b: seq<(string, V)>): (r: seq<(string, V)>)
    ensures forall k :: k !in Keys(b) ==> Lookup(r, k) == Lookup(a, k)
    ensures forall k :: k in Keys(b) ==> Lookup(r, k).Some?
    decreases |b|
  {
    if b == [] then a else Assign(Put(a, b[0].0, b[0].1), b[1..])
  }

  /** The keys of an object are distinct. */
  predicate DistinctKeys<V>(props: seq<(string, V)>) {
    forall i, j :: 0 <= i < j < |props| ==> props[i].0 != props[j].0
  }

  /** Setting a key the object lacks appends it. */
  lemma {:induction false} PutNew<V>(props: seq<(string, V)>, key: string, value: V)
    requires key !in Keys(props)
    ensures Put(props, key, value) == props + [(key, value)]
  {
    if props != [] {
      assert Keys(props)[0] == props[0].0;
      assert key !in Keys(props[1..]) by {
        assert forall i :: 0 <= i < |props| - 1 ==> Keys(props[1..])[i] == Keys(props)[i + 1];
      }
      PutNew(props[1..], key, value);
      assert props[0].0 != key;
      assert Put(props, key, value) == [props[0]] + Put(props[1..], key, value);
      assert [props[0]] + (props[1..] + [(key, value)]) == props + [(key, value)];
    }
  }

  lemma {:induction false} KeysAppend<V>(a: seq<(string, V)>, x: (string, V))
    ensures Keys(a + [x]) == Keys(a) + [x.0]
  {
    var l := Keys(a + [x]);
    var r := Keys(a) + [x.0];
    KeysIndex(a + [x]);
    KeysIndex(a);
    forall i | 0 <= i < |l|
      ensures l[i] == r[i]
    {
      if i < |a| {
        assert (a + [x])[i] == a[i];
      }
    }
  }

  /** Spreading an object with distinct keys, none already present, appends
      its properties in order; in particular `{ ...o }` is a copy of `o`. */
  lemma {:induction false} AssignFresh<V>(a: seq<(string, V)>, b: seq<(string, V)>)
    requires DistinctKeys(b)
    requires forall i :: 0 <= i < |b| ==> b[i].0 !in Keys(a)
    ensures Assign(a, b) == a + b
    decreases |b|
  {
    if b != [] {
      var x := b[0];
      var rest := b[1..];
      assert a + b == (a + [x]) + rest by {
        assert b == [x] + rest;
      }
      PutNew(a, x.0, x.1);
      KeysAppend(a, x);
      AssignFreshTail(a, b);
      AssignFresh(a + [x], rest);
    }
  }

  lemma {:induction false} AssignFreshTail<V>(a: seq<(string, V)>, b: seq<(string, V)>)
    requires b != [] && DistinctKeys(b)
    requires forall i :: 0 <= i < |b| ==> b[i].0 !in Keys(a)
    requires Keys(a + [b[0]]) == Keys(a) + [b[0].0]
    ensures DistinctKeys(b[1..])
    ensures forall i :: 0 <= i < |b[1..]| ==> b[1..][i].0 !in Keys(a + [b[0]])
  {
    forall i | 0 <= i < |b[1..]|
      ensures b[1..][i].0 !in Keys(a + [b[0]])
    {
      assert b[1..][i] == b[i + 1];
      assert b[i + 1].0 != b[0].0;
    }
  }

  /** `reduce((acc, [k, v]) => { acc[k] = v; return acc }, {})`: the pairs
      set one after the other on an empty object. */
  function PutAll<V>(kvs: seq<(string, V)>): seq<(string, V)>
    decreases |kvs|
  {
    if kvs == [] then [] else Put(PutAll(kvs[..|kvs| - 1]), kvs[|kvs| - 1].0, kvs[|kvs| - 1].1)
  }

  /** Setting pairs with distinct keys on an empty object rebuilds them, in order. */
  lemma {:induction false} PutAllDistinct<V>(kvs: seq<(string, V)>)
    requires DistinctKeys(kvs)
    ensures PutAll(kvs) == kvs
    decreases |kvs|
  {
    if kvs != [] {
      var prefix := kvs[..|kvs| - 1];
      var last := kvs[|kvs| - 1];
      assert kvs == prefix + [last];
      assert DistinctKeys(prefix) by {
        assert forall i :: 0 <= i < |prefix| ==> prefix[i] == kvs[i];
      }
      PutAllDistinct(prefix);
      assert last.0 !in Keys(prefix) by {
        KeysIndex(prefix);
        forall i | 0 <= i < |prefix|
          ensures Keys(prefix)[i] != last.0
        {
          assert prefix[i] == kvs[i];
        }
      }
      PutNew(prefix, last.0, last.1);
    }
  }

  // ---- JavaScript conversions ----

  /** JavaScript truthiness of a JSON value. */
  predicate Truthy(j: Json) {
    match j
    case JNull => false
    case JBool(b) => b
    case JNum(t) => t != "0" && t != "NaN"
    case JStr(s) => s != ""
    case JArr(_) => true
    case JObj(_) => true
  }

  /** `typeof j`. */
  function TypeOf(j: Json): string {
    match j
    case JBool(_) => "boolean"
    case JNum(_) => "number"
    case JStr(_) => "string"
    case _ => "object"
  }

  /** `String(j)`, which is also what a template literal interpolates. */
  function ToJsString(j: Json): string {
    match j
    case JNull => "null"
    case JBool(b) => if b then "true" else "false"
    case JNum(t) => t
    case JStr(s) => s
    case JArr(items) => Join(ElementStrings(items), ",")
    case JObj(_) => "[object Object]"
  }

  /** `Array.prototype.join` renders `null` elements as the empty string. */
  function ElementStrings(items: seq<Json>): (r: seq<string>)
    ensures |r| == |items|
    decreases items
  {
    if items == [] then []
    else [if items[0].JNull? then "" else ToJsString(items[0])] + ElementStrings(items[1..])
  }

  /** `Object.entries(j)` (also what `Object.keys` and object spread see):
      own properties of an object, indices of an array or a string. */
  function OwnEntries(j: Json): (r: seq<(string, Json)>)
    ensures j.JObj? ==> r == j.props
  {
    match j
    case JObj(props) => props
    case JArr(items) => seq(|items|, i requires 0 <= i < |items| => (IntToString(i), items[i]))
    case JStr(s) => seq(|s|, i requires 0 <= i < |s| => (IntToString(i), JStr([s[i]])))
    case _ => []
  }

  /** `key in j` for an object or array value: its own properties, which
      for an array are its indices and its `length`. Inherited prototype
      members are not JSON values and are not members here. */
  function Member(j: Json, key: string): (r: Option<Json>)
    ensures j.JObj? ==> r == Lookup(j.props, key)
    ensures j.JArr? && key == "length" ==> r == Some(JNum(IntToString(|j.items|)))
  {
    if j.JArr? && key == "length" then Some(JNum(IntToString(|j.items|)))
    else Lookup(OwnEntries(j), key)
  }

  /** `j.key`, `undefined` (None) when the key is missing or `j` is no object. */
  function Get(j: Json, key: string): Option<Json> {
    if j.JObj? then Lookup(j.props, key) else None
  }

  /** `'key' in j && j.key`: present with a truthy value. */
  predicate HasTruthy(j: Json, key: string) {
    Get(j, key).Some? && Truthy(Get(j, key).value)
  }

  // ---- JSON.stringify of primitives ----

  function HexDigit(d: nat): char
    requires d < 16
  {
    "0123456789abcdef"[d]
  }

  /** How `JSON.stringify` writes one character inside a string literal. */
  function EscapeJsonChar(c: char): string {
    if c == '"' then "\\\""
    else if c == '\\' then "\\\\"
    else if c == '\U{8}' then "\\b"
    else if c == '\U{C}' then "\\f"
    else if c == '\n' then "\\n"
    else if c == '\r' then "\\r"
    else if c == '\t' then "\\t"
    else if (c as int) < 0x20 then "\\u00" + [HexDigit((c as int) / 16), HexDigit((c as int) % 16)]
    else [c]
  }

  function EscapeJsonString(s: string): string {
    if s == [] then "" else EscapeJsonChar(s[0]) + EscapeJsonString(s[1..])
  }

  /** `JSON.stringify(j)` for a primitive (number, boolean, string, null). */
  function StringifyPrimitive(j: Json): string
    requires !j.JArr? && !j.JObj?
  {
    match j
    case JNull => "null"
    case JBool(b) => if b then "true" else "false"
    case JNum(t) => t
    case JStr(s) => "\"" + EscapeJsonString(s) + "\""
  }
}
