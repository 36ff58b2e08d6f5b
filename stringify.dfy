/** `stringifyTokens` of formats/jsonParser.ts: renders the JSON tokens of
    a token list as compact JSON text, dropping everything else. */
module JsonStringify {
  import opened JsStrings
  import opened JsonTokens
  import opened JsonValue

  /** `stringifyToken(token)`. */
  function StringifyToken(t: Token): string
    decreases t, 1
  {
    match t.kind
    case Text => t.content
    case JSONObject => "{" + Join(FieldParts(t.children), ",") + "}"
    case JSONArray => "[" + Join(ElementParts(t.children), ",") + "]"
    case JSONField => StringifyField(t)
    case _ => t.content
  }

  /** `stringifyField(token)`: the name, quoted, and the first child only;
      `null` when there is none. */
  function StringifyField(t: Token): string
    decreases t, 0
  {
    "\"" + t.content + "\":" + (if |t.children| > 0 then StringifyToken(t.children[0]) else "null")
  }

  /** The parts of `stringifyObject`: the fields among the children,
      rendered. */
  function FieldParts(cs: seq<Token>): (r: seq<string>)
    ensures |r| <= |cs|
    decreases cs
  {
    if cs == [] then []
    else (if cs[0].kind == JSONField then [StringifyToken(cs[0])] else []) + FieldParts(cs[1..])
  }

  /** The element text of `stringifyArray`: a field stands for its first
      child, or `null`. */
  function ElementPart(c: Token): string
    decreases c, 2
  {
    if c.kind == JSONField then
      if |c.children| > 0 then StringifyToken(c.children[0]) else "null"
    else StringifyToken(c)
  }

  function ElementParts(cs: seq<Token>): (r: seq<string>)
    ensures |r| == |cs|
    decreases cs
  {
    if cs == [] then [] else [ElementPart(cs[0])] + ElementParts(cs[1..])
  }

  /** What one top-level token contributes: its rendering when it is an
      object or array, nothing otherwise. */
  function TopLevel(t: Token): string {
    if IsContainer(t.kind) then StringifyToken(t) else ""
  }

  /** `stringifyTokens(tokens)`. */
  function StringifyTokens(tokens: seq<Token>): string {
    if tokens == [] then "" else TopLevel(tokens[0]) + StringifyTokens(tokens[1..])
  }

  // ---- properties ----

  /** Rendering distributes over concatenation, so the tokens of a stream
      can be rendered as they are handed out. */
  lemma {:induction false} StringifyTokensAppend(a: seq<Token>, b: seq<Token>)
    ensures StringifyTokens(a + b) == StringifyTokens(a) + StringifyTokens(b)
  {
    if a != [] {
      assert (a + b)[0] == a[0];
      assert (a + b)[1..] == a[1..] + b;
      StringifyTokensAppend(a[1..], b);
    } else {
      assert a + b == b;
    }
  }

  /** Tokens that are neither objects nor arrays leave no trace. */
  lemma {:induction false} NonContainersVanish(tokens: seq<Token>)
    requires forall i :: 0 <= i < |tokens| ==> !IsContainer(tokens[i].kind)
    ensures StringifyTokens(tokens) == ""
  {
    if tokens != [] {
      NonContainersVanish(tokens[1..]);
    }
  }

  /** The object `{"y":1}` and the field `"z":2` of the example below. */
  const InnerY := Token(JSONObject, "", StartPos, [Token(JSONField, "y", StartPos, [Token(JSONNumber, "1", StartPos, [])])])
  const FieldZ := Token(JSONField, "z", StartPos, [Token(JSONNumber, "2", StartPos, [])])

  lemma {:induction false} ExampleParts()
    ensures StringifyToken(InnerY) == "{\"y\":1}"
    ensures StringifyToken(FieldZ) == "\"z\":2"
  {
    var one := Token(JSONNumber, "1", StartPos, []);
    var y := Token(JSONField, "y", StartPos, [one]);
    assert StringifyToken(one) == "1";
    assert StringifyField(y) == "\"y\":1";
    assert FieldParts([y]) == ["\"y\":1"];
    assert StringifyToken(FieldZ.children[0]) == "2";
    assert StringifyField(FieldZ) == "\"z\":2";
  }

  /** A field renders its first child only: a second field filed under a
      field (where the as-written container search of `findParentContainer`
      puts the field after a nested object) disappears from the output. */
  lemma {:induction false} SiblingUnderFieldIsDropped()
    ensures StringifyToken(Token(JSONObject, "", StartPos, [Token(JSONField, "x", StartPos, [InnerY, FieldZ])]))
            == "{\"x\":{\"y\":1}}"
  {
    ExampleParts();
    var x := Token(JSONField, "x", StartPos, [InnerY, FieldZ]);
    assert StringifyField(x) == "\"x\":{\"y\":1}";
    assert FieldParts([x]) == ["\"x\":{\"y\":1}"];
  }

  /** The same fields with `z` filed under the outer object, as the
      corrected search files it, render both. */
  lemma {:induction false} SiblingUnderObjectIsKept()
    ensures StringifyToken(Token(JSONObject, "", StartPos, [Token(JSONField, "x", StartPos, [InnerY]), FieldZ]))
            == "{\"x\":{\"y\":1},\"z\":2}"
  {
    ExampleParts();
    var x := Token(JSONField, "x", StartPos, [InnerY]);
    assert StringifyField(x) == "\"x\":{\"y\":1}";
    assert FieldParts([FieldZ]) == ["\"z\":2"];
    assert [x, FieldZ][1..] == [FieldZ];
    assert FieldParts([x, FieldZ]) == ["\"x\":{\"y\":1}", "\"z\":2"];
    assert Join(["\"x\":{\"y\":1}", "\"z\":2"], ",") == "\"x\":{\"y\":1},\"z\":2";
  }

  // ---- a reference rendering ----

  /** Compact JSON text of a value, as the scanner keeps it: strings are
      the raw characters between their quotes and numbers their own text. */
  function Compact(j: Json): string
    decreases j, 1
  {
    match j
    case JNull => "null"
    case JBool(b) => if b then "true" else "false"
    case JNum(text) => text
    case JStr(s) => "\"" + s + "\""
    case JArr(items) => "[" + Join(CompactItems(items), ",") + "]"
    case JObj(props) => "{" + Join(CompactMembers(j, 0), ",") + "}"
  }

  function CompactItems(items: seq<Json>): (r: seq<string>)
    ensures |r| == |items|
    decreases items
  {
    if items == [] then [] else [Compact(items[0])] + CompactItems(items[1..])
  }

  /** The members of object `j` from the `k`-th on, rendered. */
  function CompactMembers(j: Json, k: nat): (r: seq<string>)
    requires j.JObj? && k <= |j.props|
    ensures |r| == |j.props| - k
    decreases j, 0, |j.props| - k
  {
    if k == |j.props| then []
    else
      assert j.props[k] in j.props;
      ["\"" + j.props[k].0 + "\":" + Compact(j.props[k].1)] + CompactMembers(j, k + 1)
  }

  /** A canonical token tree for a value, of the shape the stringifier
      expects: an object holds one field per member with the member's value
      as its only child, an array holds its items, string values keep their
      quotes, and every token sits at the same position. Its relation to
      the trees the character scanner actually builds is not stated. */
  function TokenOf(j: Json, p: Pos): Token
    decreases j, 1
  {
    match j
    case JNull => Token(JSONNull, "null", p, [])
    case JBool(b) => Token(JSONBoolean, if b then "true" else "false", p, [])
    case JNum(text) => Token(JSONNumber, text, p, [])
    case JStr(s) => Token(JSONString, "\"" + s + "\"", p, [])
    case JArr(items) => Token(JSONArray, "", p, ItemTokens(items, p))
    case JObj(props) => Token(JSONObject, "", p, FieldTokens(j, 0, p))
  }

  function ItemTokens(items: seq<Json>, p: Pos): (r: seq<Token>)
    ensures |r| == |items|
    decreases items
  {
    if items == [] then [] else [TokenOf(items[0], p)] + ItemTokens(items[1..], p)
  }

  /** The fields of object `j` from the `k`-th member on. */
  function FieldTokens(j: Json, k: nat, p: Pos): (r: seq<Token>)
    requires j.JObj? && k <= |j.props|
    ensures |r| == |j.props| - k
    decreases j, 0, |j.props| - k
  {
    if k == |j.props| then []
    else
      assert j.props[k] in j.props;
      [Token(JSONField, j.props[k].0, p, [TokenOf(j.props[k].1, p)])] + FieldTokens(j, k + 1, p)
  }

  /** Rendering the tree of a value gives the value's compact JSON text. */
  lemma {:induction false} StringifyTokenOf(j: Json, p: Pos)
    ensures StringifyToken(TokenOf(j, p)) == Compact(j)
    decreases j, 1
  {
    match j
    case JArr(items) =>
      ItemsRender(items, p);
    case JObj(props) =>
      MembersRender(j, 0, p);
    case _ =>
  }

  lemma {:induction false} ItemsRender(items: seq<Json>, p: Pos)
    ensures ElementParts(ItemTokens(items, p)) == CompactItems(items)
    decreases items
  {
    if items != [] {
      var t := ItemTokens(items, p);
      assert t[0] == TokenOf(items[0], p) && t[1..] == ItemTokens(items[1..], p);
      assert t[0].kind != JSONField by {
        match items[0] { case _ => }
      }
      StringifyTokenOf(items[0], p);
      ItemsRender(items[1..], p);
    }
  }

  lemma {:induction false} MembersRender(j: Json, k: nat, p: Pos)
    requires j.JObj? && k <= |j.props|
    ensures FieldParts(FieldTokens(j, k, p)) == CompactMembers(j, k)
    decreases j, 0, |j.props| - k
  {
    if k < |j.props| {
      var t := FieldTokens(j, k, p);
      assert j.props[k] in j.props;
      assert t[0] == Token(JSONField, j.props[k].0, p, [TokenOf(j.props[k].1, p)]);
      assert t[1..] == FieldTokens(j, k + 1, p);
      StringifyTokenOf(j.props[k].1, p);
      assert StringifyToken(t[0]) == "\"" + j.props[k].0 + "\":" + Compact(j.props[k].1);
      MembersRender(j, k + 1, p);
      assert FieldParts(t) == [StringifyToken(t[0])] + FieldParts(t[1..]);
    }
  }
}
