/** Properties of the schema compiler of module JsonSchemaRegex: what its
    quantifier helpers mean, that `getCombinations` lists exactly the
    k-element subsequences (C(n, k) of them), that `anyOf` offers all
    2^n - 1 non-empty combinations, how references resolve, and what the
    leaf rules produce. */
module JsonSchemaFacts {
  import opened Wrappers
  import opened JsStrings
  import opened JsonValue
  import opened JsonSchemaRegex

  // ---- validateQuantifiers ----

  /** The number a bound denotes: `parseInt` of it, `None` for a missing
      bound or NaN. */
  function BoundValue(b: Option<string>): Option<int> {
    if b.Some? then ParseInt(b.value) else None
  }

  /** What a quantifier text says about its bound: empty for a missing
      bound, otherwise a non-empty text that reads back as the bound less
      the offset (or as NaN). */
  predicate DenotesBound(t: string, b: Option<string>, offset: int) {
    if b.None? then t == ""
    else t != "" && ParseInt(t) == (if BoundValue(b).Some? then Some(BoundValue(b).value - offset) else None)
  }

  lemma {:induction false} NaNIsNoNumber()
    ensures ParseInt("NaN") == None
  {
    assert TrimStart("NaN") == "NaN";
    assert LeadingDigits("NaN", 10) == 0;
  }

  lemma {:induction false} BoundTextDenotes(b: Option<string>, offset: int)
    ensures DenotesBound(if b.None? then "" else NumText(if ParseInt(b.value).Some? then Some(ParseInt(b.value).value - offset) else None), b, offset)
  {
    if b.Some? {
      if ParseInt(b.value).Some? {
        ParseIntOfIntToString(ParseInt(b.value).value - offset);
      } else {
        NaNIsNoNumber();
      }
    }
  }

  /** `validateQuantifiers` fails exactly when both bounds are numbers and
      the maximum is below the minimum; otherwise each text denotes its
      bound less the offset. */
  lemma {:induction false} ValidateQuantifiersMeaning(minBound: Option<string>, maxBound: Option<string>, offset: int)
    ensures var r := ValidateQuantifiers(minBound, maxBound, offset);
      var lo := BoundValue(minBound);
      var hi := BoundValue(maxBound);
      (r.Err? <==> lo.Some? && hi.Some? && hi.value < lo.value)
      && (r.Err? ==> r.error == Error("max bound must be greater than or equal to min bound"))
      && (r.Ok? ==> DenotesBound(r.value.0, minBound, offset) && DenotesBound(r.value.1, maxBound, offset))
  {
    BoundTextDenotes(minBound, offset);
    BoundTextDenotes(maxBound, offset);
  }

  // ---- getNumItemsPattern ----

  /** `getNumItemsPattern` gives `null` exactly when a maximum is given that
      reads as a number below 1. */
  lemma {:induction false} NumItemsPatternNull(minItems: Option<Json>, maxItems: Option<Json>)
    ensures GetNumItemsPattern(minItems, maxItems).None?
        <==> maxItems.Some? && ParseInt(ToJsString(maxItems.value)).Some? && ParseInt(ToJsString(maxItems.value)).value < 1
  {
  }

  /** The JSON number written for an integer. */
  function Count(n: int): Json {
    JNum(IntToString(n))
  }

  lemma {:induction false} ZeroText()
    ensures IntToString(0) == "0"
  {
    assert NatToString(0) == [DigitChar(0)];
  }

  /** An integer's text is truthy exactly when the integer is not 0. */
  lemma {:induction false} CountTruthy(n: int)
    ensures Truthy(Count(n)) <==> n != 0
    ensures ParseInt(ToJsString(Count(n))) == Some(n)
  {
    ParseIntOfIntToString(n);
    ParseIntOfIntToString(0);
    ZeroText();
    NaNIsNoNumber();
  }

  /** For integer bounds, the repetition count is `{max(min-1, 0),}`
      without a maximum and `{max(min-1, 0),max-1}` with one, `null` when the
      maximum is below 1; a missing minimum counts as 0. */
  lemma {:induction false} NumItemsPatternOfCounts(lo: Option<int>, hi: Option<int>)
    ensures var low := IntToString(if lo.Some? && lo.value - 1 > 0 then lo.value - 1 else 0);
      GetNumItemsPattern(if lo.Some? then Some(Count(lo.value)) else None, if hi.Some? then Some(Count(hi.value)) else None)
      == if hi.None? then Some("{" + low + ",}")
         else if hi.value < 1 then None
         else Some("{" + low + "," + IntToString(hi.value - 1) + "}")
  {
    if lo.Some? {
      CountTruthy(lo.value);
    }
    if hi.Some? {
      CountTruthy(hi.value);
    }
  }

  // ---- getCombinations ----

  /** `c` is a subsequence of `a`: its elements occur in `a` in order. */
  predicate IsSubseq<T(==)>(c: seq<T>, a: seq<T>)
    decreases |a|
  {
    if c == [] then true
    else if a == [] then false
    else (c[0] == a[0] && IsSubseq(c[1..], a[1..])) || IsSubseq(c, a[1..])
  }

  lemma {:induction false} SubseqShorter<T>(c: seq<T>, a: seq<T>)
    requires IsSubseq(c, a)
    ensures |c| <= |a|
    decreases |a|
  {
    if c != [] {
      if c[0] == a[0] && IsSubseq(c[1..], a[1..]) {
        SubseqShorter(c[1..], a[1..]);
      } else {
        SubseqShorter(c, a[1..]);
      }
    }
  }

  lemma {:induction false} SingletonSubseq<T>(x: T, a: seq<T>)
    ensures IsSubseq([x], a) <==> x in a
    decreases |a|
  {
    if a != [] {
      SingletonSubseq(x, a[1..]);
      assert [x][1..] == [];
      assert a == [a[0]] + a[1..];
    }
  }

  /** The binomial coefficient, by Pascal's rule. */
  function Choose(n: nat, k: nat): nat {
    if k == 0 then 1 else if n == 0 then 0 else Choose(n - 1, k - 1) + Choose(n - 1, k)
  }

  lemma {:induction false} ChooseBeyond(n: nat, k: nat)
    requires n < k
    ensures Choose(n, k) == 0
  {
    if n > 0 {
      ChooseBeyond(n - 1, k - 1);
      ChooseBeyond(n - 1, k);
    }
  }

  lemma {:induction false} ChooseOne(n: nat)
    ensures Choose(n, 1) == n
  {
    if n > 0 {
      ChooseOne(n - 1);
    }
  }

  /** Every combination has `k` elements and is a subsequence of `arr`. */
  lemma {:induction false} CombinationsSound<T>(arr: seq<T>, k: nat)
    requires k >= 1
    ensures forall c :: c in Combinations(arr, k) ==> |c| == k && IsSubseq(c, arr)
    decreases |arr|, 1
  {
    if k == 1 {
      forall c | c in Combinations(arr, k)
        ensures |c| == k && IsSubseq(c, arr)
      {
        var i :| 0 <= i < |arr| && Combinations(arr, k)[i] == c;
        SingletonSubseq(arr[i], arr);
      }
    } else {
      CombinationsFromSound(arr, k, 0);
      assert arr[0..] == arr;
    }
  }

  lemma {:induction false} CombinationsFromSound<T>(arr: seq<T>, k: nat, i: nat)
    requires k >= 2 && i <= |arr|
    ensures forall c :: c in CombinationsFrom(arr, k, i) ==> |c| == k && IsSubseq(c, arr[i..])
    decreases |arr|, 0, |arr| - i
  {
    if i + k <= |arr| {
      var tails := Combinations(arr[i + 1..], k - 1);
      CombinationsSound(arr[i + 1..], k - 1);
      CombinationsFromSound(arr, k, i + 1);
      assert arr[i..][0] == arr[i] && arr[i..][1..] == arr[i + 1..];
      forall c | c in CombinationsFrom(arr, k, i)
        ensures |c| == k && IsSubseq(c, arr[i..])
      {
        if c in Prepend(arr[i], tails) {
          var j :| 0 <= j < |tails| && Prepend(arr[i], tails)[j] == c;
          assert c == [arr[i]] + tails[j];
          assert c[0] == arr[i] && c[1..] == tails[j];
        } else {
          assert c in CombinationsFrom(arr, k, i + 1);
        }
      }
    }
  }

  /** Every k-element subsequence of `arr` is one of the combinations. */
  lemma {:induction false} CombinationsComplete<T>(arr: seq<T>, k: nat, c: seq<T>)
    requires k >= 1 && |c| == k && IsSubseq(c, arr)
    ensures c in Combinations(arr, k)
    decreases |arr|, 1
  {
    if k == 1 {
      assert c == [c[0]];
      SingletonSubseq(c[0], arr);
      var i :| 0 <= i < |arr| && arr[i] == c[0];
      assert Combinations(arr, k)[i] == c;
    } else {
      assert arr[0..] == arr;
      CombinationsFromComplete(arr, k, 0, c);
    }
  }

  lemma {:induction false} CombinationsFromComplete<T>(arr: seq<T>, k: nat, i: nat, c: seq<T>)
    requires k >= 2 && i <= |arr| && |c| == k && IsSubseq(c, arr[i..])
    ensures c in CombinationsFrom(arr, k, i)
    decreases |arr|, 0, |arr| - i
  {
    SubseqShorter(c, arr[i..]);
    assert arr[i..][0] == arr[i] && arr[i..][1..] == arr[i + 1..];
    var tails := Combinations(arr[i + 1..], k - 1);
    assert CombinationsFrom(arr, k, i) == Prepend(arr[i], tails) + CombinationsFrom(arr, k, i + 1);
    if c[0] == arr[i] && IsSubseq(c[1..], arr[i + 1..]) {
      CombinationsComplete(arr[i + 1..], k - 1, c[1..]);
      var j :| 0 <= j < |tails| && tails[j] == c[1..];
      assert Prepend(arr[i], tails)[j] == c;
    } else {
      CombinationsFromComplete(arr, k, i + 1, c);
    }
  }

  /** There are C(|arr|, k) combinations. */
  lemma {:induction false} CombinationsCount<T>(arr: seq<T>, k: nat)
    requires k >= 1
    ensures |Combinations(arr, k)| == Choose(|arr|, k)
    decreases |arr|, 1
  {
    if k == 1 {
      ChooseOne(|arr|);
    } else {
      CombinationsFromCount(arr, k, 0);
    }
  }

  lemma {:induction false} CombinationsFromCount<T>(arr: seq<T>, k: nat, i: nat)
    requires k >= 2 && i <= |arr|
    ensures |CombinationsFrom(arr, k, i)| == Choose(|arr| - i, k)
    decreases |arr|, 0, |arr| - i
  {
    if i + k > |arr| {
      ChooseBeyond(|arr| - i, k);
    } else {
      CombinationsCount(arr[i + 1..], k - 1);
      CombinationsFromCount(arr, k, i + 1);
    }
  }

  // ---- handleAnyOf ----

  /** C(n, i) + C(n, i + 1) + ... + C(n, n). */
  function ChooseFrom(n: nat, i: nat): nat
    decreases n + 1 - i
  {
    if i > n then 0 else Choose(n, i) + ChooseFrom(n, i + 1)
  }

  function Pow2(n: nat): nat {
    if n == 0 then 1 else 2 * Pow2(n - 1)
  }

  lemma {:induction false} ChooseFromPascal(n: nat, i: nat)
    requires n >= 1 && i >= 1
    ensures ChooseFrom(n, i) == ChooseFrom(n - 1, i - 1) + ChooseFrom(n - 1, i)
    decreases n + 1 - i
  {
    if i <= n {
      ChooseFromPascal(n, i + 1);
      if i == n {
        ChooseBeyond(n - 1, n);
      }
      assert ChooseFrom(n - 1, i) == Choose(n - 1, i) + ChooseFrom(n - 1, i + 1);
    }
  }

  /** The coefficients of a row sum to 2^n. */
  lemma {:induction false} RowSum(n: nat)
    ensures ChooseFrom(n, 0) == Pow2(n)
  {
    if n > 0 {
      RowSum(n - 1);
      ChooseFromPascal(n, 1);
    }
  }

  lemma {:induction false} AlternativesCount(rs: seq<string>, i: nat)
    requires i >= 1
    ensures |AnyOfAlternatives(rs, i)| == ChooseFrom(|rs|, i)
    decreases |rs| + 1 - i
  {
    if i <= |rs| {
      CombinationsCount(rs, i);
      AlternativesCount(rs, i + 1);
      var cs := Combinations(rs, i);
      var here := seq(|cs|, j requires 0 <= j < |cs| => CombineSchemas(cs[j]));
      assert AnyOfAlternatives(rs, i) == here + AnyOfAlternatives(rs, i + 1);
      assert ChooseFrom(|rs|, i) == Choose(|rs|, i) + ChooseFrom(|rs|, i + 1);
    }
  }

  /** `handleAnyOf` offers one alternative per non-empty combination:
      2^n - 1 of them. */
  lemma {:induction false} AnyOfAlternativesCount(rs: seq<string>)
    ensures |AnyOfAlternatives(rs, 1)| == Pow2(|rs|) - 1
  {
    AlternativesCount(rs, 1);
    RowSum(|rs|);
  }

  /** Every combination of at least `i` of the alternatives' patterns is
      offered, merged into one object pattern. */
  lemma {:induction false} AnyOfContains(rs: seq<string>, i: nat, c: seq<string>)
    requires 1 <= i <= |c| && IsSubseq(c, rs)
    ensures CombineSchemas(c) in AnyOfAlternatives(rs, i)
    decreases |rs| + 1 - i
  {
    SubseqShorter(c, rs);
    var cs := Combinations(rs, i);
    var here := seq(|cs|, j requires 0 <= j < |cs| => CombineSchemas(cs[j]));
    assert AnyOfAlternatives(rs, i) == here + AnyOfAlternatives(rs, i + 1);
    if i == |c| {
      CombinationsComplete(rs, i, c);
      var j :| 0 <= j < |cs| && cs[j] == c;
      assert here[j] == CombineSchemas(c);
    } else {
      AnyOfContains(rs, i + 1, c);
    }
  }

  /** The combination an alternative of `AnyOfAlternatives(rs, i)` is made of. */
  lemma {:induction false} AlternativeCombination(rs: seq<string>, i: nat, a: string) returns (c: seq<string>)
    requires i >= 1 && a in AnyOfAlternatives(rs, i)
    ensures IsSubseq(c, rs) && i <= |c| && a == CombineSchemas(c)
    decreases |rs| + 1 - i
  {
    var cs := Combinations(rs, i);
    var here := seq(|cs|, j requires 0 <= j < |cs| => CombineSchemas(cs[j]));
    var next := i + 1;
    var rest := AnyOfAlternatives(rs, next);
    assert AnyOfAlternatives(rs, i) == here + rest;
    if a in here {
      var j :| 0 <= j < |here| && here[j] == a;
      CombinationsSound(rs, i);
      assert cs[j] in cs;
      c := cs[j];
    } else {
      c := AlternativeCombination(rs, next, a);
    }
  }

  /** Every alternative offered is a combination of at least `i` of the
      patterns, in their order. */
  lemma {:induction false} AnyOfOnlyCombinations(rs: seq<string>, i: nat)
    requires i >= 1
    ensures forall a :: a in AnyOfAlternatives(rs, i) ==>
      exists c :: IsSubseq(c, rs) && i <= |c| && a == CombineSchemas(c)
  {
    forall a | a in AnyOfAlternatives(rs, i)
      ensures exists c :: IsSubseq(c, rs) && i <= |c| && a == CombineSchemas(c)
    {
      var c := AlternativeCombination(rs, i, a);
    }
  }

  /** `combineSchemas` on object patterns `\{…\}` puts their bodies, joined
      by commas, into one object pattern. */
  lemma {:induction false} CombineObjectPatterns(schemas: seq<string>, bodies: seq<string>)
    requires |schemas| == |bodies|
    requires forall i :: 0 <= i < |schemas| ==> schemas[i] == "\\{" + bodies[i] + "\\}"
    ensures CombineSchemas(schemas) == "\\{" + Join(bodies, ",") + "\\}"
  {
    var inner := seq(|schemas|, i requires 0 <= i < |schemas| => Slice(schemas[i], 2, -2));
    forall i | 0 <= i < |schemas|
      ensures inner[i] == bodies[i]
    {
      var s := schemas[i];
      assert |s| == |bodies[i]| + 4;
      assert s[2..|s| - 2] == bodies[i];
    }
    assert inner == bodies;
  }

  // ---- references ----

  /** The value reached from `j` by reading the members named `keys` in
      turn, through objects and arrays only. */
  function At(j: Json, keys: seq<string>): Option<Json>
    decreases |keys|
  {
    if keys == [] then Some(j)
    else if !(j.JObj? || j.JArr?) then None
    else match Member(j, keys[0])
      case None => None
      case Some(v) => At(v, keys[1..])
  }

  /** The walk of `getSchemaByJsonPath` succeeds exactly when the members
      exist, with the value they lead to; otherwise it fails with `Invalid
      reference` or with the TypeError of `in` on a primitive. */
  lemma {:induction false} WalkMeaning(j: Json, keys: seq<string>, path: string)
    ensures WalkJsonPath(j, keys, path).Ok? <==> At(j, keys).Some?
    ensures WalkJsonPath(j, keys, path).Ok? ==> WalkJsonPath(j, keys, path).value == At(j, keys).value
    ensures WalkJsonPath(j, keys, path).Err? ==>
      WalkJsonPath(j, keys, path).error in {EngineTypeError, Error("Invalid reference: " + path)}
    decreases |keys|
  {
    if keys != [] && (j.JObj? || j.JArr?) && Member(j, keys[0]).Some? {
      WalkMeaning(Member(j, keys[0]).value, keys[1..], path);
    }
  }

  /** An array's `length` is one of its members: `#/a/length` in
      `{"a": [1]}` reaches the number 1, while `#/a/1` is no member. */
  lemma {:induction false} ArrayLengthMember(path: string)
    ensures WalkJsonPath(JObj([("a", JArr([JNum("1")]))]), ["a", "length"], path) == Ok(JNum("1"))
    ensures WalkJsonPath(JObj([("a", JArr([JNum("1")]))]), ["a", "1"], path) == Err(Error("Invalid reference: " + path))
  {
    var root := JObj([("a", JArr([JNum("1")]))]);
    assert Member(root, "a") == Some(JArr([JNum("1")]));
    assert IntToString(1) == "1";
    assert Member(JArr([JNum("1")]), "1").None? by {
      assert IntToString(0) == "0";
    }
  }

  /** `{ $ref: text }`. */
  function RefSchema(text: string): Json {
    JObj([("$ref", JStr(text))])
  }

  /** An internal reference `#/k1/.../kn` whose segments hold no `/`
      compiles as the value those members lead to in the root schema; when
      a member is missing the reference is an error. */
  lemma {:induction false} RefResolves(mode: Semantics, fuel: nat, keys: seq<string>, ws: string, root: Json)
    requires |keys| >= 1 && forall k :: 0 <= k < |keys| ==> '/' !in keys[k]
    ensures var r := ToRegex(mode, fuel + 1, RefSchema("#/" + Join(keys, "/")), ws, root);
      (At(root, keys).Some? ==> r == ToRegex(mode, fuel, At(root, keys).value, ws, root))
      && (At(root, keys).None? ==> r.Err? && r.error in {EngineTypeError, Error("Invalid reference: " + Join(keys, "/"))})
  {
    var path := Join(keys, "/");
    var text := "#/" + path;
    RefDispatch(mode, fuel, text, ws, root);
    InternalRef(keys, path, text);
    WalkMeaning(root, keys, path);
  }

  /** A `$ref` schema goes to `handleRef` with one unit of fuel less. */
  lemma {:induction false} RefDispatch(mode: Semantics, fuel: nat, text: string, ws: string, root: Json)
    ensures ToRegex(mode, fuel + 1, RefSchema(text), ws, root) == HandleRef(mode, fuel, JStr(text), root, ws)
  {
    assert Get(RefSchema(text), "$ref") == Some(JStr(text));
  }

  /** `#/` followed by the joined segments splits back into them. */
  lemma {:induction false} InternalRef(keys: seq<string>, path: string, text: string)
    requires |keys| >= 1 && forall k :: 0 <= k < |keys| ==> '/' !in keys[k]
    requires path == Join(keys, "/") && text == "#/" + path
    ensures StartsWith(text, "#/") && text[2..] == path && Split(path, '/') == keys
  {
    assert "/" == ['/'];
    SplitOfJoin(keys, '/');
    assert text[..2] == "#/" && text[2..] == path;
  }

  /** A reference that does not start with `#/` is refused. */
  lemma {:induction false} ExternalRefRejected(mode: Semantics, fuel: nat, text: string, ws: string, root: Json)
    requires !StartsWith(text, "#/")
    ensures ToRegex(mode, fuel + 1, RefSchema(text), ws, root) == Err(Error("External references are not supported"))
  {
    RefDispatch(mode, fuel, text, ws, root);
  }

  // ---- enum and const ----

  /** An enum or const entry has a pattern exactly when it is a number,
      boolean, string or null; the pattern reads back as the entry's
      `JSON.stringify`, with every metacharacter escaped. */
  lemma {:induction false} LiteralPatternMeaning(c: Json)
    ensures LiteralPattern(c).Some? <==> !c.JArr? && !c.JObj?
    ensures LiteralPattern(c).Some? ==>
      RegexUnescape(LiteralPattern(c).value) == StringifyPrimitive(c) && IsSafeLiteral(LiteralPattern(c).value)
  {
    if !c.JArr? && !c.JObj? {
      RegexEscapeRoundTrip(StringifyPrimitive(c));
    }
  }

  /** The enum choices exist exactly when every entry is a primitive, and
      are then the entries' patterns in order. */
  lemma {:induction false} EnumChoicesMeaning(values: seq<Json>)
    ensures EnumChoices(values).Ok? <==> forall i :: 0 <= i < |values| ==> LiteralPattern(values[i]).Some?
    ensures EnumChoices(values).Ok? ==>
      forall i :: 0 <= i < |values| ==> LiteralPattern(values[i]) == Some(EnumChoices(values).value[i])
  {
    if values != [] {
      var tail := values[1..];
      EnumChoicesMeaning(tail);
      if LiteralPattern(values[0]).None? {
      } else if EnumChoices(tail).Ok? {
        var r := EnumChoices(values).value;
        assert r == [LiteralPattern(values[0]).value] + EnumChoices(tail).value;
        forall i | 0 <= i < |values|
          ensures LiteralPattern(values[i]) == Some(r[i])
        {
          if i > 0 {
            assert values[i] == tail[i - 1];
          }
        }
      } else {
        var i :| 0 <= i < |tail| && LiteralPattern(tail[i]).None?;
        assert values[i + 1] == tail[i];
      }
    }
  }

  /** An enum entry that is an object or array is refused with a
      TypeError naming the type `object`. */
  lemma {:induction false} EnumChoicesError(values: seq<Json>)
    ensures EnumChoices(values).Err? ==> EnumChoices(values).error == TypeError("Unsupported data type in enum: object")
  {
    if values != [] {
      EnumChoicesError(values[1..]);
    }
  }

  /** A const schema compiles exactly when the value is a primitive, to a
      pattern that reads back as its `JSON.stringify`. */
  lemma {:induction false} ConstMeaning(c: Json)
    ensures HandleConst(c).Ok? <==> !c.JArr? && !c.JObj?
    ensures HandleConst(c).Ok? ==> RegexUnescape(HandleConst(c).value) == StringifyPrimitive(c)
    ensures HandleConst(c).Err? ==> HandleConst(c).error == TypeError("Unsupported data type in const: object")
  {
    LiteralPatternMeaning(c);
  }

  // ---- string and number types ----

  predicate NoLengthBounds(inst: Json) {
    Get(inst, "maxLength").None? && Get(inst, "minLength").None?
  }

  /** A `pattern` of the form `^x$` is embedded as `("x")`: exactly its two
      anchors are removed. */
  lemma {:induction false} PatternAnchorsRemoved(inst: Json, x: string)
    requires NoLengthBounds(inst) && Get(inst, "pattern") == Some(JStr("^" + x + "$"))
    ensures HandleStringType(inst) == Ok("(\"" + x + "\")")
  {
    var p := "^" + x + "$";
    assert p[0] == '^' && p[|p| - 1] == '$';
    assert p[1..|p| - 1] == x;
  }

  /** Of the formats, exactly uuid, date-time, date and time compile, each
      to its fixed pattern; any other is refused by name. */
  lemma {:induction false} FormatMeaning(inst: Json, f: string)
    requires NoLengthBounds(inst) && (Get(inst, "pattern").None? || Get(inst, "pattern").value.JNull?)
    requires Get(inst, "format") == Some(JStr(f))
    ensures HandleStringType(inst).Ok? <==> f in ["uuid", "date-time", "date", "time"]
    ensures HandleStringType(inst).Ok? ==> HandleStringType(inst).value in [UUID, DATE_TIME, DATE, TIME]
    ensures HandleStringType(inst).Err? ==> HandleStringType(inst).error == Error("Format " + f + " is not supported")
  {
  }

  /** With both length bounds, the string body repeats `{min,max}` times;
      a maximum below the minimum is refused. */
  lemma {:induction false} LengthBounds(inst: Json, lo: int, hi: int)
    requires Get(inst, "minLength") == Some(Count(lo)) && Get(inst, "maxLength") == Some(Count(hi))
    ensures HandleStringType(inst) ==
      if hi < lo then Err(Error("max bound must be greater than or equal to min bound"))
      else Ok("\"" + STRING_INNER + "{" + IntToString(lo) + "," + IntToString(hi) + "}\"")
  {
    assert LengthBound(Get(inst, "minLength")) == IntToString(lo);
    assert LengthBound(Get(inst, "maxLength")) == IntToString(hi);
    QuantifiersOfCounts(lo, hi, 0);
    assert lo - 0 == lo && hi - 0 == hi;
  }

  lemma {:induction false} EmptyIsNoNumber()
    ensures ParseInt("") == None
  {
  }

  lemma {:induction false} QuantifiersMinOnly(lo: int)
    ensures ValidateQuantifiers(Some(IntToString(lo)), Some(""), 0) == Ok((IntToString(lo), "NaN"))
  {
    ParseIntOfIntToString(lo);
    EmptyIsNoNumber();
    NaNIsNoNumber();
    assert lo - 0 == lo;
  }

  /** With only a minimum length, the missing maximum is passed as the
      empty text, which reads as NaN: the quantifier is `{min,NaN}`. */
  lemma {:induction false} MinLengthOnly(inst: Json, lo: int)
    requires Get(inst, "minLength") == Some(Count(lo)) && Get(inst, "maxLength").None?
    ensures HandleStringType(inst) == Ok("\"" + STRING_INNER + "{" + IntToString(lo) + "," + "NaN" + "}\"")
  {
    assert LengthBound(Get(inst, "minLength")) == IntToString(lo);
    assert LengthBound(Get(inst, "maxLength")) == "";
    QuantifiersMinOnly(lo);
  }

  lemma {:induction false} QuantifiersOfCounts(lo: int, hi: int, offset: int)
    ensures ValidateQuantifiers(Some(IntToString(lo)), Some(IntToString(hi)), offset) ==
      if hi < lo then Err(Error("max bound must be greater than or equal to min bound"))
      else Ok((IntToString(lo - offset), IntToString(hi - offset)))
  {
    BoundOfInt(lo, offset);
    BoundOfInt(hi, offset);
    var mn, mx := IntToString(lo - offset), IntToString(hi - offset);
    assert ParseInt(mn) == Some(lo - offset) && ParseInt(mx) == Some(hi - offset);
    assert (hi - offset < lo - offset) == (hi < lo);
    ValidateQuantifiersOfTexts(IntToString(lo), IntToString(hi), offset, mn, mx);
  }

  /** `validateQuantifiers` once both bounds have been read as texts of
      numbers. */
  lemma {:induction false} ValidateQuantifiersOfTexts(minBound: string, maxBound: string, offset: int, mn: string, mx: string)
    requires NumText(if ParseInt(minBound).Some? then Some(ParseInt(minBound).value - offset) else None) == mn
    requires NumText(if ParseInt(maxBound).Some? then Some(ParseInt(maxBound).value - offset) else None) == mx
    requires mn != "" && mx != "" && ParseInt(mn).Some? && ParseInt(mx).Some?
    ensures ValidateQuantifiers(Some(minBound), Some(maxBound), offset) ==
      if ParseInt(mx).value < ParseInt(mn).value then Err(Error("max bound must be greater than or equal to min bound"))
      else Ok((mn, mx))
  {
  }

  /** A bound written as an integer, moved by the offset, reads back. */
  lemma {:induction false} BoundOfInt(b: int, offset: int)
    ensures var t := IntToString(b);
      NumText(if ParseInt(t).Some? then Some(ParseInt(t).value - offset) else None) == IntToString(b - offset)
    ensures IntToString(b - offset) != "" && ParseInt(IntToString(b - offset)) == Some(b - offset)
  {
    ParseIntOfIntToString(b);
    var m := b - offset;
    ParseIntOfIntToString(m);
  }

  /** For an integer with digit bounds, the first digit is counted apart:
      the remaining digits repeat `{min-1,max-1}` times. */
  lemma {:induction false} IntegerDigits(inst: Json, lo: int, hi: int)
    requires forall i :: 0 <= i < |DIGIT_BOUNDS| ==> Get(inst, DIGIT_BOUNDS[i]).None?
    requires Get(inst, "type") == Some(JStr("integer"))
    requires Get(inst, "minDigits") == Some(JStr(IntToString(lo))) && Get(inst, "maxDigits") == Some(JStr(IntToString(hi)))
    ensures HandleNumberType(inst) ==
      if hi < lo then Err(Error("max bound must be greater than or equal to min bound"))
      else Ok("(-)?(0|[1-9][0-9]{" + IntToString(lo - 1) + "," + IntToString(hi - 1) + "})")
  {
    assert DigitBound(inst, "minDigits") == Some(IntToString(lo));
    assert DigitBound(inst, "maxDigits") == Some(IntToString(hi));
    QuantifiersOfCounts(lo, hi, 1);
  }

  /** `typeToRegex`. */
  function SimplePattern(t: string): string {
    if t == "boolean" then BOOLEAN
    else if t == "null" then NULL
    else if t == "number" then NUMBER
    else if t == "integer" then INTEGER
    else STRING
  }

  predicate IsSimpleType(t: string) {
    t in ["boolean", "null", "number", "integer", "string"]
  }

  /** None of the keywords `toRegex` tries before `type` is present. */
  predicate TypeOnly(inst: Json) {
    inst.JObj? && Get(inst, "type").Some? &&
    Get(inst, "properties").None? && Get(inst, "allOf").None? && Get(inst, "anyOf").None? &&
    Get(inst, "oneOf").None? && Get(inst, "prefixItems").None? && Get(inst, "enum").None? &&
    Get(inst, "const").None? && Get(inst, "$ref").None?
  }

  /** A schema with a `type` and none of the earlier keywords goes to
      `handleType`. */
  lemma {:induction false} TypeOnlyDispatch(mode: Semantics, fuel: nat, inst: Json, ws: string, root: Json)
    requires TypeOnly(inst) && fuel > 0
    ensures ToRegex(mode, fuel, inst, ws, root) == HandleType(mode, fuel - 1, inst, ws, root)
  {
    assert inst.props != [];
  }

  /** An object schema of type `object` alone goes to `handleObjectType`
      with one unit of fuel less. */
  lemma {:induction false} ObjectDispatchAbove(mode: Semantics, f: nat, inst: Json, ws: string, root: Json)
    requires TypeOnly(inst) && Get(inst, "type") == Some(JStr("object"))
    ensures ToRegex(mode, f + 1, inst, ws, root) == HandleObjectType(mode, f, inst, ws, root)
  {
    assert inst.props != [];
  }

  /** `{type: t}` has no key but `type`. */
  lemma {:induction false} TypeSchemaLookup(t: string, k: string)
    requires k != "type"
    ensures Get(TypeSchema(t), k).None?
  {
  }

  lemma {:induction false} TypeSchemaOnly(t: string)
    ensures TypeOnly(TypeSchema(t)) && Get(TypeSchema(t), "type") == Some(JStr(t))
  {
    TypeSchemaLookup(t, "properties");
    TypeSchemaLookup(t, "allOf");
    TypeSchemaLookup(t, "anyOf");
    TypeSchemaLookup(t, "oneOf");
    TypeSchemaLookup(t, "prefixItems");
    TypeSchemaLookup(t, "enum");
    TypeSchemaLookup(t, "const");
    TypeSchemaLookup(t, "$ref");
  }

  /** `{type: t}` for a primitive type compiles to the fixed pattern of that
      type, given one unit of fuel. */
  lemma {:induction false} SimpleTypeCompiles(mode: Semantics, fuel: nat, t: string, ws: string, root: Json)
    requires IsSimpleType(t)
    ensures ToRegex(mode, fuel, TypeSchema(t), ws, root) == if fuel == 0 then Err(OutOfFuel) else Ok(SimplePattern(t))
  {
    if fuel > 0 {
      TypeSchemaOnly(t);
      TypeOnlyDispatch(mode, fuel, TypeSchema(t), ws, root);
      SimpleTypeHandled(mode, fuel - 1, t, ws, root);
    }
  }

  /** `handleType` on `{type: t}` for a primitive type. */
  lemma {:induction false} SimpleTypeHandled(mode: Semantics, f: nat, t: string, ws: string, root: Json)
    requires IsSimpleType(t)
    ensures Get(TypeSchema(t), "type").Some? && HandleType(mode, f, TypeSchema(t), ws, root) == Ok(SimplePattern(t))
  {
    TypeSchemaOnly(t);
    if t == "string" {
      StringTypeHandled();
    } else if t == "number" || t == "integer" {
      NumberTypeHandled(t);
    }
  }

  lemma {:induction false} StringTypeHandled()
    ensures HandleStringType(TypeSchema("string")) == Ok(STRING)
  {
    TypeSchemaLookup("string", "maxLength");
    TypeSchemaLookup("string", "minLength");
    TypeSchemaLookup("string", "pattern");
    TypeSchemaLookup("string", "format");
  }

  lemma {:induction false} NumberTypeHandled(t: string)
    requires t == "number" || t == "integer"
    ensures HandleNumberType(TypeSchema(t)) == Ok(SimplePattern(t))
  {
    NoDigitBounds(t);
  }

  lemma {:induction false} NoDigitBounds(t: string)
    ensures forall i :: 0 <= i < |DIGIT_BOUNDS| ==> Get(TypeSchema(t), DIGIT_BOUNDS[i]).None?
    ensures Get(TypeSchema(t), "minDigits").None? && Get(TypeSchema(t), "maxDigits").None?
  {
    forall i | 0 <= i < |DIGIT_BOUNDS|
      ensures Get(TypeSchema(t), DIGIT_BOUNDS[i]).None?
    {
      TypeSchemaLookup(t, DIGIT_BOUNDS[i]);
    }
    TypeSchemaLookup(t, "minDigits");
    TypeSchemaLookup(t, "maxDigits");
  }

  /** A list `type` drops `object` wherever it stands. */
  lemma {:induction false} FilterDropsObject(a: seq<Json>, b: seq<Json>)
    ensures Filter(a + [JStr("object")] + b) == Filter(a + b)
    decreases |a|
  {
    if a == [] {
      assert a + [JStr("object")] + b == [JStr("object")] + b;
      assert ([JStr("object")] + b)[1..] == b;
      assert a + b == b;
    } else {
      assert (a + [JStr("object")] + b)[0] == a[0] && (a + b)[0] == a[0];
      assert (a + [JStr("object")] + b)[1..] == a[1..] + [JStr("object")] + b;
      assert (a + b)[1..] == a[1..] + b;
      FilterDropsObject(a[1..], b);
    }
  }

  /** The kept types are the listed ones other than `object`. */
  lemma {:induction false} FilterMembers(types: seq<Json>)
    ensures forall t :: t in Filter(types) <==> t in types && t != JStr("object")
    decreases |types|
  {
    if types != [] {
      FilterMembers(types[1..]);
      assert types == [types[0]] + types[1..];
    }
  }

  /** `type: [..., 'object', ...]` compiles as the list without `object`. */
  lemma {:induction false} MultipleTypesIgnoreObject(mode: Semantics, fuel: nat, a: seq<Json>, b: seq<Json>, ws: string, root: Json)
    ensures HandleMultipleTypes(mode, fuel, a + [JStr("object")] + b, ws, root) == HandleMultipleTypes(mode, fuel, a + b, ws, root)
  {
    FilterDropsObject(a, b);
  }
}
