/** The JSON-Schema-to-regular-expression compiler of
    formats/jsonschema.ts: `toRegex` walks a schema (itself a JSON value)
    with a fixed rule order and builds the text of a pattern. A thrown error
    is an `Err`. The compiler does not terminate on some schemas, so every
    call of `toRegex` spends one unit of `fuel`, and `OutOfFuel` is the
    result when the fuel runs out. */
module JsonSchemaRegex {
  import opened Wrappers
  import opened JsStrings
  import opened JsonValue

  /** Why a compilation fails: an `Error` or `TypeError` the code throws
      with its own message; a `TypeError` the engine raises (a property test
      on a primitive, a missing method); the fuel bound; or a `depth` that
      is not an integer, which the model does not interpret. */
  datatype Fault = Error(message: string) | TypeError(message: string) | EngineTypeError | OutOfFuel | Unmodelled

  /** Which reading of two defaults the compiler follows. `AsWritten` is the
      code: `depth || 2` (a depth of 0 counts as missing, so nesting never
      stops) and `String(minItems) || '0'` (a missing `minItems` allows no
      empty array). `Corrected` reads a missing depth as 2 and a missing
      `minItems` as 0, as `handleObjectType` does for `minProperties`. */
  datatype Semantics = AsWritten | Corrected

  // ---- the fixed patterns ----

  const STRING_INNER := "([^\"\\\\\\x00-\\x1F\\x7F-\\x9F]|\\\\[\"\\\\])"
  const STRING := "\"" + STRING_INNER + "*\""
  const INTEGER := "(-)?(0|[1-9][0-9]*)"
  /** The `\.` of the template literal is a plain `.` once cooked. */
  const NUMBER := INTEGER + "(.[0-9]+)?([eE][+-]?[0-9]+)?"
  const BOOLEAN := "(true|false)"
  const NULL := "null"
  const WHITESPACE := "\\s*"

  const DATE_TIME := "\"(-?(?:[1-9][0-9]*)?[0-9]{4})-(1[0-2]|0[1-9])-(3[01]|0[1-9]|[12][0-9])T(2[0-3]|[01][0-9]):([0-5][0-9]):([0-5][0-9])(\\.[0-9]{3})?(Z)?\""
  const DATE := "\"(?:\\d{4})-(?:0[1-9]|1[0-2])-(?:0[1-9]|[1-2][0-9]|3[0-1])\""
  const TIME := "\"(2[0-3]|[01][0-9]):([0-5][0-9]):([0-5][0-9])(\\.[0-9]+)?(Z)?\""
  const UUID := "\"[0-9a-f]{8}-[0-9a-f]{4}-[0-9a-f]{4}-[0-9a-f]{4}-[0-9a-f]{12}\""

  const UNTRANSLATABLE := "Could not translate the instance to a regular expression. Make sure it is valid to the JSON Schema specification."

  /** `formatToRegex`. */
  function FormatRegex(format: string): Option<string> {
    if format == "uuid" then Some(UUID)
    else if format == "date-time" then Some(DATE_TIME)
    else if format == "date" then Some(DATE)
    else if format == "time" then Some(TIME)
    else None
  }

  /** The text of a number that may be NaN (`None`). */
  function NumText(n: Option<int>): string {
    match n
    case Some(i) => IntToString(i)
    case None => "NaN"
  }

  // ---- quantifiers ----

  /** `validateQuantifiers(minBound, maxBound, startOffset)`: a missing bound
      is the empty text, a present one `parseInt(bound) - startOffset`. */
  function ValidateQuantifiers(minBound: Option<string>, maxBound: Option<string>, startOffset: int): Result<(string, string), Fault> {
    var min := if minBound.None? then "" else NumText(if ParseInt(minBound.value).Some? then Some(ParseInt(minBound.value).value - startOffset) else None);
    var max := if maxBound.None? then "" else NumText(if ParseInt(maxBound.value).Some? then Some(ParseInt(maxBound.value).value - startOffset) else None);
    if min != "" && max != "" && ParseInt(max).Some? && ParseInt(min).Some? && ParseInt(max).value < ParseInt(min).value then
      Err(Error("max bound must be greater than or equal to min bound"))
    else
      Ok((min, max))
  }

  /** `getNumItemsPattern(minItems, maxItems)`; `None` is `null`. */
  function GetNumItemsPattern(minItems: Option<Json>, maxItems: Option<Json>): Option<string> {
    var min := if minItems.Some? && Truthy(minItems.value) then ParseInt(ToJsString(minItems.value)) else Some(0);
    var low := NumText(if min.Some? then Some(if min.value - 1 > 0 then min.value - 1 else 0) else None);
    if maxItems.None? then
      Some("{" + low + ",}")
    else
      var max := ParseInt(ToJsString(maxItems.value));
      if max.Some? && max.value < 1 then None
      else Some("{" + low + "," + NumText(if max.Some? then Some(max.value - 1) else None) + "}")
  }

  /** How a template literal writes a `string | null`. */
  function OrNull(s: Option<string>): string {
    if s.Some? then s.value else "null"
  }

  // ---- references ----

  /** The walk of `getSchemaByJsonPath` over the remaining segments. */
  function WalkJsonPath(current: Json, parts: seq<string>, path: string): Result<Json, Fault>
    decreases |parts|
  {
    if parts == [] then Ok(current)
    else if !(current.JObj? || current.JArr?) then Err(EngineTypeError)
    else
      match Member(current, parts[0])
      case None => Err(Error("Invalid reference: " + path))
      case Some(v) => WalkJsonPath(v, parts[1..], path)
  }

  /** One segment of the walk. */
  lemma {:induction false} WalkJsonPathStep(current: Json, parts: seq<string>, i: nat, path: string)
    requires i < |parts|
    ensures WalkJsonPath(current, parts[i..], path)
      == if !(current.JObj? || current.JArr?) then Err(EngineTypeError)
         else if Member(current, parts[i]).None? then Err(Error("Invalid reference: " + path))
         else WalkJsonPath(Member(current, parts[i]).value, parts[i + 1..], path)
  {
    assert parts[i..][0] == parts[i] && parts[i..][1..] == parts[i + 1..];
  }

  /** What `getSchemaByJsonPath(schema, path)` returns. */
  function ResolveJsonPath(schema: Json, path: string): Result<Json, Fault> {
    WalkJsonPath(schema, Split(path, '/'), path)
  }

  /** `getSchemaByJsonPath(schema, path)`: follows the `/`-separated
      segments of `path` from `schema`. */
  method GetSchemaByJsonPath(schema: Json, path: string) returns (r: Result<Json, Fault>)
    ensures r == ResolveJsonPath(schema, path)
  {
    var parts := Split(path, '/');
    var current := schema;
    var i := 0;
    while i < |parts|
      invariant 0 <= i <= |parts|
      invariant WalkJsonPath(current, parts[i..], path) == ResolveJsonPath(schema, path)
    {
      WalkJsonPathStep(current, parts, i, path);
      if !(current.JObj? || current.JArr?) {
        return Err(EngineTypeError);
      }
      var m := Member(current, parts[i]);
      if m.None? {
        return Err(Error("Invalid reference: " + path));
      }
      current := m.value;
      i := i + 1;
    }
    return Ok(current);
  }

  // ---- combinations ----

  /** `[head, ...combo]` for every combo. */
  function Prepend<T>(head: T, combos: seq<seq<T>>): (r: seq<seq<T>>)
    ensures |r| == |combos| && forall j :: 0 <= j < |r| ==> r[j] == [head] + combos[j]
  {
    seq(|combos|, j requires 0 <= j < |combos| => [head] + combos[j])
  }

  /** What `getCombinations(arr, k)` returns. */
  function Combinations<T>(arr: seq<T>, k: nat): seq<seq<T>>
    requires k >= 1
    decreases |arr|, 1
  {
    if k == 1 then seq(|arr|, i requires 0 <= i < |arr| => [arr[i]])
    else CombinationsFrom(arr, k, 0)
  }

  /** The combinations whose first element is at index `i` or later. */
  function CombinationsFrom<T>(arr: seq<T>, k: nat, i: nat): seq<seq<T>>
    requires k >= 2
    decreases |arr|, 0, |arr| - i
  {
    if i + k > |arr| then []
    else Prepend(arr[i], Combinations(arr[i + 1..], k - 1)) + CombinationsFrom(arr, k, i + 1)
  }

  lemma {:induction false} AppendAssoc<T>(a: seq<T>, b: seq<T>, c: seq<T>)
    ensures (a + b) + c == a + (b + c)
  {
  }

  /** One step of `CombinationsFrom`: the combinations starting at `arr[i]`,
      then the later ones. */
  lemma {:induction false} CombinationsFromStep<T>(arr: seq<T>, k: nat, k1: nat, i: nat, next: nat)
    requires k >= 2 && i + k <= |arr| && k1 == k - 1 && next == i + 1
    ensures CombinationsFrom(arr, k, i) == Prepend(arr[i], Combinations(arr[next..], k1)) + CombinationsFrom(arr, k, next)
  {
  }

  /** The inner loop of `getCombinations`: `[head, ...combo]` pushed for each
      combination of the tail, in order. */
  method PushPrepended(combos: seq<seq<string>>, head: string, tailCombos: seq<seq<string>>) returns (r: seq<seq<string>>)
    ensures r == combos + Prepend(head, tailCombos)
  {
    r := combos;
    var j := 0;
    while j < |tailCombos|
      invariant 0 <= j <= |tailCombos|
      invariant r == combos + Prepend(head, tailCombos)[..j]
    {
      r := r + [[head] + tailCombos[j]];
      j := j + 1;
    }
    assert Prepend(head, tailCombos)[..j] == Prepend(head, tailCombos);
  }

  /** `getCombinations(arr, k)`. */
  method GetCombinations(arr: seq<string>, k: nat) returns (combos: seq<seq<string>>)
    requires k >= 1
    ensures combos == Combinations(arr, k)
    decreases |arr|
  {
    if k == 1 {
      return seq(|arr|, i requires 0 <= i < |arr| => [arr[i]]);
    }
    combos := [];
    var i := 0;
    while i < |arr| - k + 1
      invariant 0 <= i && (i <= |arr| - k + 1 || i == 0)
      invariant combos + CombinationsFrom(arr, k, i) == CombinationsFrom(arr, k, 0)
    {
      var head := arr[i];
      var k1, next := k - 1, i + 1;
      var tailCombos := GetCombinations(arr[next..], k1);
      ghost var before := combos;
      combos := PushPrepended(combos, head, tailCombos);
      CombinationsFromStep(arr, k, k1, i, next);
      AppendAssoc(before, Prepend(head, tailCombos), CombinationsFrom(arr, k, next));
      i := next;
    }
    assert CombinationsFrom(arr, k, i) == [];
    assert combos == CombinationsFrom(arr, k, 0);
  }

  /** `combineSchemas(schemas)`: the inside of each object pattern (its
      first and last two characters cut), joined by commas, in one object. */
  function CombineSchemas(schemas: seq<string>): string {
    "\\{" + Join(seq(|schemas|, i requires 0 <= i < |schemas| => Slice(schemas[i], 2, -2)), ",") + "\\}"
  }

  /** The alternatives of `handleAnyOf`: the combinations of size `i`, then
      of the larger sizes. */
  function AnyOfAlternatives(rs: seq<string>, i: nat): seq<string>
    requires i >= 1
    decreases |rs| + 1 - i
  {
    if i > |rs| then []
    else
      var cs := Combinations(rs, i);
      seq(|cs|, j requires 0 <= j < |cs| => CombineSchemas(cs[j])) + AnyOfAlternatives(rs, i + 1)
  }

  // ---- schema values ----

  /** `{ type: t }`. */
  function TypeSchema(t: string): Json {
    JObj([("type", JStr(t))])
  }

  /** `{ type: t, depth: d }`. */
  function TypeSchemaAtDepth(t: string, d: int): Json {
    JObj([("type", JStr(t)), ("depth", JNum(IntToString(d)))])
  }

  const EmptySchemaTypes := [TypeSchema("boolean"), TypeSchema("null"), TypeSchema("number"), TypeSchema("integer"),
                             TypeSchema("string"), TypeSchema("array"), TypeSchema("object")]

  /** `instance.depth || 2` as written, `instance.depth ?? 2` corrected,
      for a depth that is an integer. */
  function DepthOf(mode: Semantics, inst: Json): Result<int, Fault> {
    var d := Get(inst, "depth");
    if d.None? || (if mode == AsWritten then !Truthy(d.value) else d.value.JNull?) then Ok(2)
    else if d.value.JNum? && ParseInt(d.value.text).Some? && IntToString(ParseInt(d.value.text).value) == d.value.text then
      Ok(ParseInt(d.value.text).value)
    else Err(Unmodelled)
  }

  /** The object and array entries added to the legal types at a positive depth. */
  function NestedTypes(depth: int): seq<Json> {
    if depth > 0 then [TypeSchemaAtDepth("object", depth - 1), TypeSchemaAtDepth("array", depth - 1)] else []
  }

  function Values<V>(props: seq<(string, V)>): (r: seq<V>)
    ensures |r| == |props| && forall i :: 0 <= i < |r| ==> r[i] == props[i].1
  {
    seq(|props|, i requires 0 <= i < |props| => props[i].1)
  }

  // ---- helpers of handleProperties and handleAllOf ----

  /** `requiredProperties.includes(key)`: membership in an array, a
      substring test on a string; any other value has no `includes`. */
  function IncludesKey(required: Json, key: string): Result<bool, Fault> {
    match required
    case JArr(items) => Ok(JStr(key) in items)
    case JStr(s) => Ok(Includes(s, key))
    case _ => Err(EngineTypeError)
  }

  /** `Object.keys(properties).map(item => requiredProperties.includes(item))`. */
  function RequiredFlags(required: Json, keys: seq<string>): (r: Result<seq<bool>, Fault>)
    ensures r.Ok? ==> |r.value| == |keys|
  {
    if keys == [] then Ok([])
    else
      var b :- IncludesKey(required, keys[0]);
      var rest :- RequiredFlags(required, keys[1..]);
      Ok([b] + rest)
  }

  /** `isRequired.lastIndexOf(true)`. */
  function LastTrue(flags: seq<bool>): (r: int)
    ensures -1 <= r < |flags|
    ensures r >= 0 ==> flags[r] && forall i :: r < i < |flags| ==> !flags[i]
    ensures r == -1 ==> forall i :: 0 <= i < |flags| ==> !flags[i]
  {
    if flags == [] then -1
    else if flags[|flags| - 1] then |flags| - 1
    else LastTrue(flags[..|flags| - 1])
  }

  /** The key part of a property pattern, the key escaped. */
  function PropertyHead(name: string, ws: string): string {
    ws + "\"" + RegexEscape(name) + "\"" + ws + ":" + ws
  }

  /** One property when some are required: the separator goes after the
      properties before the last required one and before those after it;
      an optional property is wrapped in `( … )?`. */
  function RequiredPiece(sub: string, required: bool, i: int, last: int, ws: string): string {
    var s := if i < last then sub + ws + "," else if i > last then ws + "," + sub else sub;
    if required then s else "(" + s + ")?"
  }

  /** One alternative when no property is required: property `i` present,
      each before it optional with a separator after it, each after it
      optional with a separator before it. */
  function OptionalPattern(subs: seq<string>, i: nat, ws: string): string
    requires i < |subs|
  {
    Concat(seq(i, j requires 0 <= j < i => "(" + subs[j] + ws + ",)?"))
    + subs[i]
    + Concat(seq(|subs| - i - 1, j requires 0 <= j < |subs| - i - 1 => "(" + ws + "," + subs[i + 1 + j] + ")?"))
  }

  /** The `forEach` of `handleAllOf`: property maps spread over each
      other, required lists concatenated. */
  function MergeAllOf(items: seq<Json>, merged: seq<(string, Json)>, required: seq<Json>): Result<(seq<(string, Json)>, seq<Json>), Fault>
    decreases |items|
  {
    if items == [] then Ok((merged, required))
    else
      var s := items[0];
      if s.JNull? then Err(EngineTypeError)
      else if s.JObj? then
        var m := if HasTruthy(s, "properties") then Assign(merged, OwnEntries(Get(s, "properties").value)) else merged;
        if HasTruthy(s, "required") then
          var r := Get(s, "required").value;
          if r.JArr? then MergeAllOf(items[1..], m, required + r.items)
          else if r.JStr? then MergeAllOf(items[1..], m, required + seq(|r.s|, i requires 0 <= i < |r.s| => JStr([r.s[i]])))
          else Err(EngineTypeError)
        else MergeAllOf(items[1..], m, required)
      else MergeAllOf(items[1..], merged, required)
  }

  /** One merged property of `handleAllOf`; its key is not escaped. */
  function AllOfPiece(key: string, valueRegex: string, required: bool, ws: string): string {
    var p := ws + "\"" + key + "\"" + ws + ":" + ws + valueRegex;
    if required then p else "(" + p + ")?"
  }

  // ---- enum and const ----

  /** The pattern of one enum or const entry: its `JSON.stringify`, regex
      metacharacters escaped; `None` for an object or array. */
  function LiteralPattern(c: Json): Option<string> {
    if c.JArr? || c.JObj? then None else Some(RegexEscape(StringifyPrimitive(c)))
  }

  function EnumChoices(values: seq<Json>): (r: Result<seq<string>, Fault>)
    ensures r.Ok? ==> |r.value| == |values|
  {
    if values == [] then Ok([])
    else if LiteralPattern(values[0]).None? then Err(TypeError("Unsupported data type in enum: " + TypeOf(values[0])))
    else
      var rest :- EnumChoices(values[1..]);
      Ok([LiteralPattern(values[0]).value] + rest)
  }

  /** `handleEnum(enumValues)`. */
  function HandleEnum(enumValues: Json): Result<string, Fault> {
    if !enumValues.JArr? then Err(EngineTypeError)
    else
      var choices :- EnumChoices(enumValues.items);
      Ok("(" + Join(choices, "|") + ")")
  }

  /** `handleConst(constValue)`. */
  function HandleConst(constValue: Json): Result<string, Fault> {
    match LiteralPattern(constValue)
    case Some(p) => Ok(p)
    case None => Err(TypeError("Unsupported data type in const: " + TypeOf(constValue)))
  }

  // ---- string and number types ----

  /** `(instance.x ?? '').toString()`. */
  function LengthBound(v: Option<Json>): string {
    if v.None? || v.value.JNull? then "" else ToJsString(v.value)
  }

  /** The pattern of a `pattern` keyword: `^` and `$` at both ends removed. */
  function PatternRegex(p: Json): string {
    match p
    case JStr(s) =>
      if |s| > 0 && s[0] == '^' && s[|s| - 1] == '$' then "(\"" + Slice(s, 1, -1) + "\")" else "(\"" + s + "\")"
    case JArr(items) =>
      if |items| > 0 && items[0] == JStr("^") && items[|items| - 1] == JStr("$") then
        "(\"" + ToJsString(JArr(items[1..|items| - 1])) + "\")"
      else "(\"" + ToJsString(p) + "\")"
    case _ => "(\"" + ToJsString(p) + "\")"
  }

  /** `handleStringType(instance)`. */
  function HandleStringType(inst: Json): Result<string, Fault> {
    if Get(inst, "maxLength").Some? || Get(inst, "minLength").Some? then
      var q :- ValidateQuantifiers(Some(LengthBound(Get(inst, "minLength"))), Some(LengthBound(Get(inst, "maxLength"))), 0);
      Ok("\"" + STRING_INNER + "{" + q.0 + "," + q.1 + "}\"")
    else if Get(inst, "pattern").Some? && !Get(inst, "pattern").value.JNull? then
      Ok(PatternRegex(Get(inst, "pattern").value))
    else if Get(inst, "format").Some? && !Get(inst, "format").value.JNull? then
      var format := ToJsString(Get(inst, "format").value);
      match FormatRegex(format)
      case Some(p) => Ok(p)
      case None => Err(Error("Format " + format + " is not supported"))
    else Ok(STRING)
  }

  /** A digit bound as `Number.parseInt` reads it: `String(value)`. */
  function DigitBound(inst: Json, key: string): Option<string> {
    match Get(inst, key)
    case None => None
    case Some(v) => Some(ToJsString(v))
  }

  /** A digit-count quantifier, or the default when neither bound is given. */
  function Quantifier(q: (string, string), default: string): string {
    if q.0 != "" || q.1 != "" then "{" + q.0 + "," + q.1 + "}" else default
  }

  const DIGIT_BOUNDS := ["minDigitsInteger", "maxDigitsInteger", "minDigitsFraction", "maxDigitsFraction", "minDigitsExponent", "maxDigitsExponent"]

  /** `handleNumberType(instance)`. */
  function HandleNumberType(inst: Json): Result<string, Fault> {
    if exists i :: 0 <= i < |DIGIT_BOUNDS| && Get(inst, DIGIT_BOUNDS[i]).Some? then
      var qi :- ValidateQuantifiers(DigitBound(inst, "minDigitsInteger"), DigitBound(inst, "maxDigitsInteger"), 1);
      var qf :- ValidateQuantifiers(DigitBound(inst, "minDigitsFraction"), DigitBound(inst, "maxDigitsFraction"), 0);
      var qe :- ValidateQuantifiers(DigitBound(inst, "minDigitsExponent"), DigitBound(inst, "maxDigitsExponent"), 0);
      Ok("((-)?(0|[1-9][0-9]" + Quantifier(qi, "*") + "))(.[0-9]" + Quantifier(qf, "+") + ")?([eE][+-][0-9]" + Quantifier(qe, "+") + ")?")
    else if Get(inst, "type") == Some(JStr("integer")) then
      if Get(inst, "minDigits").Some? || Get(inst, "maxDigits").Some? then
        var q :- ValidateQuantifiers(DigitBound(inst, "minDigits"), DigitBound(inst, "maxDigits"), 1);
        Ok("(-)?(0|[1-9][0-9]{" + q.0 + "," + q.1 + "})")
      else Ok(INTEGER)
    else Ok(NUMBER)
  }

  /** `allowEmpty` of `handleArrayType`: `String(undefined)` is the text
      "undefined", which is no number, so a missing `minItems` gives ''. */
  function ArrayAllowEmpty(minItems: Option<Json>): string {
    var text := if minItems.None? then "undefined" else ToJsString(minItems.value);
    var n := ParseInt(if text == "" then "0" else text);
    if n == Some(0) then "?" else ""
  }

  /** `allowEmpty` of `handleObjectType`, `Number.parseInt(String(x || '0'))
      === 0`; the corrected `allowEmpty` of `handleArrayType` too. */
  function AllowEmpty(minimum: Option<Json>): string {
    var text := if minimum.None? || !Truthy(minimum.value) then "0" else ToJsString(minimum.value);
    if ParseInt(text) == Some(0) then "?" else ""
  }

  // ---- the compiler ----

  /** `toRegex(instance, whitespacePattern, rootSchema)`. */
  function ToRegex(mode: Semantics, fuel: nat, inst: Json, ws: string, root: Json): Result<string, Fault>
    decreases fuel, 0, 0
  {
    if fuel == 0 then Err(OutOfFuel)
    else
      match inst
      case JBool(b) => Ok(if b then ".*" else "a^")
      case JNull => Err(EngineTypeError)
      case JNum(_) => HandleEmptySchema(mode, fuel - 1, ws, root)
      case JStr(s) => if s == "" then HandleEmptySchema(mode, fuel - 1, ws, root) else Err(EngineTypeError)
      case JArr(items) => if items == [] then HandleEmptySchema(mode, fuel - 1, ws, root) else Err(Error(UNTRANSLATABLE))
      case JObj(props) =>
        if props == [] then HandleEmptySchema(mode, fuel - 1, ws, root)
        else if HasTruthy(inst, "properties") then
          HandleProperties(mode, fuel - 1, Get(inst, "properties").value, Get(inst, "required"), ws, root)
        else if HasTruthy(inst, "allOf") then HandleAllOf(mode, fuel - 1, Get(inst, "allOf").value, ws, root)
        else if HasTruthy(inst, "anyOf") then HandleAnyOf(mode, fuel - 1, Get(inst, "anyOf").value, ws, root)
        else if HasTruthy(inst, "oneOf") then HandleOneOf(mode, fuel - 1, Get(inst, "oneOf").value, ws, root)
        else if HasTruthy(inst, "prefixItems") then HandlePrefixItems(mode, fuel - 1, inst, ws, root)
        else if HasTruthy(inst, "enum") then HandleEnum(Get(inst, "enum").value)
        else if Get(inst, "const").Some? then HandleConst(Get(inst, "const").value)
        else if Get(inst, "$ref").Some? && !Get(inst, "$ref").value.JNull? then
          HandleRef(mode, fuel - 1, Get(inst, "$ref").value, root, ws)
        else if Get(inst, "type").Some? then HandleType(mode, fuel - 1, inst, ws, root)
        else Err(Error(UNTRANSLATABLE))
  }

  /** `list.map(t => toRegex(t, …))`: the first error wins. */
  function MapToRegex(mode: Semantics, fuel: nat, items: seq<Json>, ws: string, root: Json): (r: Result<seq<string>, Fault>)
    ensures r.Ok? ==> |r.value| == |items|
    decreases fuel, 1, |items|
  {
    if items == [] then Ok([])
    else
      var head :- ToRegex(mode, fuel, items[0], ws, root);
      var rest :- MapToRegex(mode, fuel, items[1..], ws, root);
      Ok([head] + rest)
  }

  /** `handleEmptySchema`: any of the seven types. */
  function HandleEmptySchema(mode: Semantics, fuel: nat, ws: string, root: Json): Result<string, Fault>
    decreases fuel, 2, 0
  {
    var rs :- MapToRegex(mode, fuel, EmptySchemaTypes, ws, root);
    Ok("(" + Join(rs, "|") + ")")
  }

  /** `handleProperties`: `properties` is the (truthy) value of the
      keyword, `required` the value of `required` if present. */
  function HandleProperties(mode: Semantics, fuel: nat, properties: Json, required: Option<Json>, ws: string, root: Json): Result<string, Fault>
    decreases fuel, 2, 0
  {
    var entries := OwnEntries(properties);
    var req := if required.Some? && Truthy(required.value) then required.value else JArr([]);
    var flags :- RequiredFlags(req, Keys(entries));
    var bodies :- MapToRegex(mode, fuel, Values(entries), ws, root);
    var subs := seq(|entries|, i requires 0 <= i < |entries| => PropertyHead(entries[i].0, ws) + bodies[i]);
    var last := LastTrue(flags);
    var inner :=
      if last >= 0 then
        Concat(seq(|subs|, i requires 0 <= i < |subs| => RequiredPiece(subs[i], flags[i], i, last, ws)))
      else
        "(" + Join(seq(|subs|, i requires 0 <= i < |subs| => OptionalPattern(subs, i, ws)), "|") + ")?";
    Ok("\\{" + inner + ws + "\\}")
  }

  /** `handleAllOf`. */
  function HandleAllOf(mode: Semantics, fuel: nat, allOf: Json, ws: string, root: Json): Result<string, Fault>
    decreases fuel, 2, 0
  {
    if !allOf.JArr? then Err(EngineTypeError)
    else
      var m :- MergeAllOf(allOf.items, [], []);
      var merged := m.0;
      var rs :- MapToRegex(mode, fuel, Values(merged), ws, root);
      var pieces := seq(|merged|, i requires 0 <= i < |merged| => AllOfPiece(merged[i].0, rs[i], JStr(merged[i].0) in m.1, ws));
      Ok("\\{" + Join(pieces, ws + ",") + ws + "\\}")
  }

  /** `handleAnyOf`: every non-empty combination of the alternatives, as
      one object pattern, smallest first. */
  function HandleAnyOf(mode: Semantics, fuel: nat, anyOf: Json, ws: string, root: Json): Result<string, Fault>
    decreases fuel, 2, 0
  {
    if !anyOf.JArr? then Err(EngineTypeError)
    else
      var rs :- MapToRegex(mode, fuel, anyOf.items, ws, root);
      Ok("(" + Join(AnyOfAlternatives(rs, 1), "|") + ")")
  }

  /** `handleOneOf`. */
  function HandleOneOf(mode: Semantics, fuel: nat, oneOf: Json, ws: string, root: Json): Result<string, Fault>
    decreases fuel, 2, 0
  {
    if !oneOf.JArr? then Err(EngineTypeError)
    else
      var rs :- MapToRegex(mode, fuel, oneOf.items, ws, root);
      Ok("(" + Join(seq(|rs|, i requires 0 <= i < |rs| => "(?:" + rs[i] + ")"), "|") + ")")
  }

  /** `handlePrefixItems`. */
  function HandlePrefixItems(mode: Semantics, fuel: nat, inst: Json, ws: string, root: Json): Result<string, Fault>
    requires HasTruthy(inst, "prefixItems")
    decreases fuel, 2, 0
  {
    var prefixItems := Get(inst, "prefixItems").value;
    if !prefixItems.JArr? then Err(EngineTypeError)
    else
      var es :- MapToRegex(mode, fuel, prefixItems.items, ws, root);
      var comma := ws + "," + ws;
      var head := "\\[" + ws + Join(es, comma);
      if HasTruthy(inst, "items") then
        var ir :- ToRegex(mode, fuel, Get(inst, "items").value, ws, root);
        Ok(head + "(" + comma + ir + ")*" + ws + "\\]")
      else Ok(head + ws + "\\]")
  }

  /** `handleRef(ref, rootSchema)`. */
  function HandleRef(mode: Semantics, fuel: nat, ref: Json, root: Json, ws: string): Result<string, Fault>
    decreases fuel, 2, 0
  {
    if !ref.JStr? then Err(EngineTypeError)
    else if StartsWith(ref.s, "#/") then
      var target :- ResolveJsonPath(root, ref.s[2..]);
      ToRegex(mode, fuel, target, ws, root)
    else Err(Error("External references are not supported"))
  }

  /** `handleArrayType`. */
  function HandleArrayType(mode: Semantics, fuel: nat, inst: Json, ws: string, root: Json): Result<string, Fault>
    decreases fuel, 2, 0
  {
    var numRepeats := OrNull(GetNumItemsPattern(Get(inst, "minItems"), Get(inst, "maxItems")));
    var allowEmpty := if mode == AsWritten then ArrayAllowEmpty(Get(inst, "minItems")) else AllowEmpty(Get(inst, "minItems"));
    if HasTruthy(inst, "items") then
      var ir :- ToRegex(mode, fuel, Get(inst, "items").value, ws, root);
      Ok("\\[" + ws + "(" + ir + "(" + ws + "," + ws + ir + ")*)" + allowEmpty + ws + "\\]")
    else if HasTruthy(inst, "contains") then
      var cr :- ToRegex(mode, fuel, Get(inst, "contains").value, ws, root);
      Ok("\\[" + ws + "(.*" + cr + ".*){" + numRepeats + "}" + allowEmpty + ws + "\\]")
    else
      var depth :- DepthOf(mode, inst);
      var legal := [TypeSchema("boolean"), TypeSchema("null"), TypeSchema("number"), TypeSchema("integer"), TypeSchema("string")]
                   + NestedTypes(depth);
      var rs :- MapToRegex(mode, fuel, legal, ws, root);
      var alt := Join(rs, "|");
      Ok("\\[" + ws + "(" + alt + ")(" + ws + "," + ws + "(" + alt + ")){" + numRepeats + "}" + allowEmpty + ws + "\\]")
  }

  /** `handleObjectType`. */
  function HandleObjectType(mode: Semantics, fuel: nat, inst: Json, ws: string, root: Json): Result<string, Fault>
    decreases fuel, 2, 0
  {
    match GetNumItemsPattern(Get(inst, "minProperties"), Get(inst, "maxProperties"))
    case None => Ok("\\{" + ws + "\\}")
    case Some(numRepeats) =>
      var allowEmpty := AllowEmpty(Get(inst, "minProperties"));
      var ap := Get(inst, "additionalProperties");
      var valueSchema :-
        if ap.None? || ap.value == JBool(true) then
          var depth :- DepthOf(mode, inst);
          Ok(JObj([("anyOf", JArr([TypeSchema("string"), TypeSchema("number"), TypeSchema("boolean"), TypeSchema("null")]
                                  + NestedTypes(depth)))]))
        else Ok(ap.value);
      var vp :- ToRegex(mode, fuel, valueSchema, ws, root);
      var kv := STRING + ws + ":" + ws + vp;
      var successor := ws + "," + ws + kv;
      Ok("\\{" + ws + "(" + kv + "(" + successor + "){" + numRepeats + "})" + allowEmpty + ws + "\\}")
  }

  /** `handleMultipleTypes`: every listed type but `object`. */
  function HandleMultipleTypes(mode: Semantics, fuel: nat, types: seq<Json>, ws: string, root: Json): Result<string, Fault>
    decreases fuel, 2, 0
  {
    var kept := Filter(types);
    var rs :- MapToRegex(mode, fuel, seq(|kept|, i requires 0 <= i < |kept| => JObj([("type", kept[i])])), ws, root);
    Ok("(" + Join(rs, "|") + ")")
  }

  /** `types.filter(t => t !== 'object')`. */
  function Filter(types: seq<Json>): (r: seq<Json>)
    ensures JStr("object") !in r
  {
    if types == [] then []
    else (if types[0] == JStr("object") then [] else [types[0]]) + Filter(types[1..])
  }

  /** `handleType`. */
  function HandleType(mode: Semantics, fuel: nat, inst: Json, ws: string, root: Json): Result<string, Fault>
    requires Get(inst, "type").Some?
    decreases fuel, 3, 0
  {
    var t := Get(inst, "type").value;
    if t == JStr("string") then HandleStringType(inst)
    else if t == JStr("number") || t == JStr("integer") then HandleNumberType(inst)
    else if t == JStr("array") then HandleArrayType(mode, fuel, inst, ws, root)
    else if t == JStr("object") then HandleObjectType(mode, fuel, inst, ws, root)
    else if t == JStr("boolean") then Ok(BOOLEAN)
    else if t == JStr("null") then Ok(NULL)
    else if t.JArr? then HandleMultipleTypes(mode, fuel, t.items, ws, root)
    else Err(Error("Unsupported type: " + ToJsString(t)))
  }

  /** `buildRegexFromSchema(schema, whitespacePattern)`. */
  function BuildRegexFromSchema(mode: Semantics, fuel: nat, schema: Json, whitespacePattern: Option<string>): Result<string, Fault> {
    var inner :- ToRegex(mode, fuel, schema, whitespacePattern.GetOr(WHITESPACE), schema);
    Ok(WHITESPACE + inner + WHITESPACE)
  }
}
