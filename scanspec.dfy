/** The incremental JSON scanner of formats/jsonParser.ts as a state
    machine over values: one function per routine of `createJSONParser`,
    each taking the scanner's variables before the call to their values
    after it. The class in module JsonScanner runs the same routines in
    place and is proved to agree with these functions. */
module JsonScanSpec {
  import opened Wrappers
  import opened JsStrings
  import opened JsonTokens

  datatype ParserState = InText | InJSONStart | InJSONString | InJSONEscape | InJSONFieldName | InJSONFieldValue | InJSONNumber

  /** The variables of one scanner, and which parent search it runs when a
      container closes (see `CloseContainer`). */
  datatype ScanState = ScanState(
    mode: Semantics,
    buffer: string,
    inSingleQuote: bool,
    insideJSON: bool,
    state: ParserState,
    stateStack: seq<ParserState>,
    depth: int,
    tokenStart: Pos,
    pos: Pos,
    currentToken: Option<nat>,
    currentContainer: Option<nat>,
    tree: seq<nat>,
    arena: seq<Node>)

  /** The variables as `createJSONParser` sets them up. */
  function Initial(mode: Semantics): ScanState {
    ScanState(mode, "", false, false, InText, [], 0, StartPos, StartPos, None, None, [], [])
  }

  /** The state is the top of the stack, `Text` exactly while the stack is
      empty; the bottom of the stack is `JSONStart` and `Text` is never
      pushed. */
  predicate StackShape(state: ParserState, stack: seq<ParserState>) {
    (stack == [] <==> state == InText)
    && (stack != [] ==> stack[0] == InJSONStart && state == stack[|stack| - 1])
    && forall i :: 0 <= i < |stack| ==> stack[i] != InText
  }

  /** Every reference the scanner holds points into its store. */
  predicate Refs(arena: seq<Node>, tree: seq<nat>, currentToken: Option<nat>, currentContainer: Option<nat>) {
    ChildrenOk(arena)
    && (forall k :: 0 <= k < |tree| ==> tree[k] < |arena|)
    && (currentToken.Some? ==> currentToken.value < |arena|)
    && (currentContainer.Some? ==> currentContainer.value < |arena|)
  }

  predicate StackOk(s: ScanState) {
    StackShape(s.state, s.stateStack)
  }

  predicate RefsOk(s: ScanState) {
    Refs(s.arena, s.tree, s.currentToken, s.currentContainer)
  }

  /** Before the first bracket: nothing is open and the tree holds only
      `Text` tokens. */
  predicate TextPhase(state: ParserState, insideJSON: bool, depth: int, currentToken: Option<nat>,
                      currentContainer: Option<nat>, tree: seq<nat>, arena: seq<Node>) {
    state == InText ==>
      !insideJSON && depth == 0 && currentToken.None? && currentContainer.None?
      && forall k :: 0 <= k < |tree| ==> tree[k] < |arena| && arena[tree[k]].kind == Text
  }

  predicate TextPhaseOk(s: ScanState) {
    TextPhase(s.state, s.insideJSON, s.depth, s.currentToken, s.currentContainer, s.tree, s.arena)
  }

  predicate Wf(s: ScanState) {
    StackOk(s) && RefsOk(s) && TextPhaseOk(s)
  }

  lemma {:induction false} InitialWf(mode: Semantics)
    ensures Wf(Initial(mode))
  {
  }

  // ---- small helpers of the routines ----

  predicate IsQuote(c: char) { c == '"' || c == '\'' }

  /** `replace(/^['"]|['"]$/g, '')`: drops one leading and one trailing quote. */
  function StripQuotes(s: string): (r: string)
    ensures |r| <= |s|
    ensures |s| >= 2 && IsQuote(s[0]) && IsQuote(s[|s| - 1]) ==> r == s[1..|s| - 1]
    ensures |s| >= 1 && IsQuote(s[0]) && !IsQuote(s[|s| - 1]) ==> r == s[1..]
    ensures |s| >= 1 && !IsQuote(s[0]) && IsQuote(s[|s| - 1]) ==> r == s[..|s| - 1]
    ensures |s| == 1 && IsQuote(s[0]) ==> r == ""
    ensures |s| == 0 || (!IsQuote(s[0]) && !IsQuote(s[|s| - 1])) ==> r == s
  {
    var t := if |s| > 0 && IsQuote(s[0]) then s[1..] else s;
    if |t| > 0 && IsQuote(t[|t| - 1]) then t[..|t| - 1] else t
  }

  /** A number character: `[0-9.eE+-]`. */
  predicate IsNumberChar(c: char) {
    IsDigit(c) || c == '.' || c == 'e' || c == 'E' || c == '+' || c == '-'
  }

  /** `replace(/[^0-9.eE+-]+$/, '')`: drops the longest run of non-number
      characters at the end. */
  function TrimTrailingNonNumber(s: string): (r: string)
    ensures |r| <= |s| && r == s[..|r|]
    ensures r == [] || IsNumberChar(r[|r| - 1])
    ensures forall i :: |r| <= i < |s| ==> !IsNumberChar(s[i])
    decreases |s|
  {
    if s != [] && !IsNumberChar(s[|s| - 1]) then TrimTrailingNonNumber(s[..|s| - 1]) else s
  }

  /** The number of decimal digits of `s` from index `i` on. */
  function DigitRun(s: string, i: nat): (k: nat)
    requires i <= |s|
    ensures i + k <= |s|
    ensures forall j :: i <= j < i + k ==> IsDigit(s[j])
    ensures i + k == |s| || !IsDigit(s[i + k])
    decreases |s| - i
  {
    if i < |s| && IsDigit(s[i]) then DigitRun(s, i + 1) + 1 else 0
  }

  /** The end of an optional exponent `[eE][+-]?\d+` starting at `p`, or `p`
      itself when none starts there. */
  function ExponentEnd(v: string, p: nat): (q: nat)
    requires p <= |v|
    ensures p <= q <= |v|
    ensures q > p ==> (v[p] == 'e' || v[p] == 'E') && IsDigit(v[q - 1])
    ensures forall j :: p < j < q ==> IsNumberChar(v[j])
  {
    if p < |v| && (v[p] == 'e' || v[p] == 'E') then
      var d := if p + 1 < |v| && (v[p + 1] == '+' || v[p + 1] == '-') then p + 2 else p + 1;
      var k := DigitRun(v, d);
      if k >= 1 then d + k else p
    else p
  }

  /** `/^-?\d+(\.\d+)?([eE][+-]?\d+)?$/.test(v)`. Each part is greedy, and
      giving a digit back never helps the next part, so one left-to-right
      pass decides the match. */
  predicate IsNumberLiteral(v: string) {
    var a := if |v| > 0 && v[0] == '-' then 1 else 0;
    var k := DigitRun(v, a);
    k >= 1
    && var p := a + k;
       var p2 := if p < |v| && v[p] == '.' && DigitRun(v, p + 1) >= 1 then p + 1 + DigitRun(v, p + 1) else p;
       ExponentEnd(v, p2) == |v|
  }

  /** `determineValueType(value)`: a boolean or `null` by its exact text,
      a number when the whole text is a JSON-style number, and a string
      otherwise. */
  function DetermineValueType(value: string): (k: TokenType)
    ensures k == JSONBoolean <==> value == "true" || value == "false"
    ensures k == JSONNull <==> value == "null"
    ensures k == JSONNumber <==> IsNumberLiteral(value) && value != "true" && value != "false" && value != "null"
    ensures k == JSONString <==> !IsNumberLiteral(value) && value != "true" && value != "false" && value != "null"
  {
    if value == "true" || value == "false" then JSONBoolean
    else if value == "null" then JSONNull
    else if IsNumberLiteral(value) then JSONNumber
    else JSONString
  }

  /** A text `determineValueType` calls a number is made of number
      characters only and ends in a digit. */
  lemma {:induction false} NumberLiteralShape(v: string)
    requires IsNumberLiteral(v)
    ensures v != [] && IsDigit(v[|v| - 1])
    ensures forall i :: 0 <= i < |v| ==> IsNumberChar(v[i])
  {
    var a := if |v| > 0 && v[0] == '-' then 1 else 0;
    var p := a + DigitRun(v, a);
    var frac := p < |v| && v[p] == '.' && DigitRun(v, p + 1) >= 1;
    var p2 := if frac then p + 1 + DigitRun(v, p + 1) else p;
    assert ExponentEnd(v, p2) == |v|;
    forall i | 0 <= i < |v|
      ensures IsNumberChar(v[i])
    {
      if i < a {
        assert v[i] == '-';
      } else if i < p {
        assert IsDigit(v[i]);
      } else if i < p2 {
        assert frac;
        if i > p {
          assert IsDigit(v[i]);
        }
      } else if i > p2 {
      } else {
        assert v[i] == 'e' || v[i] == 'E';
      }
    }
    if ExponentEnd(v, p2) == p2 {
      if frac {
        assert IsDigit(v[p + 1 + DigitRun(v, p + 1) - 1]);
      } else {
        assert IsDigit(v[a + DigitRun(v, a) - 1]);
      }
    }
  }

  /** A value the value state types as a number is one the number state
      would keep whole: trimming trailing non-number characters leaves it
      as it is. */
  lemma {:induction false} NumberValueKeptWhole(v: string)
    requires DetermineValueType(v) == JSONNumber
    ensures TrimTrailingNonNumber(v) == v
    ensures forall i :: 0 <= i < |v| ==> IsNumberChar(v[i])
  {
    NumberLiteralShape(v);
  }

  predicate IsKind(s: ScanState, r: Option<nat>, kind: TokenType)
    requires RefsOk(s)
    requires r == s.currentToken || r == s.currentContainer
  {
    r.Some? && s.arena[r.value].kind == kind
  }

  // ---- the routines ----

  /** `pushState(newState)`. */
  function PushState(s: ScanState, newState: ParserState): (r: ScanState)
    requires StackOk(s) && RefsOk(s) && newState != InText && (s.stateStack == [] ==> newState == InJSONStart)
    ensures Wf(r) && r.state == newState && r.stateStack == s.stateStack + [newState]
  {
    s.(stateStack := s.stateStack + [newState], state := newState)
  }

  /** `popState()`: never removes the bottom entry. */
  function PopState(s: ScanState): (r: ScanState)
    requires Wf(s)
    ensures Wf(r)
    ensures |s.stateStack| > 1 ==> r.stateStack == s.stateStack[..|s.stateStack| - 1] && |r.stateStack| < |s.stateStack|
    ensures |s.stateStack| <= 1 ==> r == s
    ensures s.stateStack != [] ==> r.stateStack != []
  {
    if |s.stateStack| > 1 then
      s.(stateStack := s.stateStack[..|s.stateStack| - 1], state := s.stateStack[|s.stateStack| - 2])
    else s
  }

  /** The value token `completeCurrentToken` makes of the buffer: in the
      string state a string without its outer quotes, in the number state a
      number without its trailing non-number characters, in the value state
      whatever `determineValueType` reads off the text, and otherwise a
      string; it starts where the buffer started. */
  function ValueNode(state: ParserState, buffer: string, start: Pos): (n: Node)
    ensures n.pos == start && n.children == []
    ensures state == InJSONString ==> n.kind == JSONString && n.content == StripQuotes(buffer)
    ensures state == InJSONNumber ==> n.kind == JSONNumber && n.content == TrimTrailingNonNumber(buffer)
    ensures state == InJSONFieldValue ==> n.kind == DetermineValueType(buffer) && n.content == buffer
    ensures state !in {InJSONString, InJSONNumber, InJSONFieldValue} ==> n.kind == JSONString && n.content == buffer
  {
    match state
    case InJSONString => Node(JSONString, StripQuotes(buffer), start, [])
    case InJSONNumber => Node(JSONNumber, TrimTrailingNonNumber(buffer), start, [])
    case InJSONFieldValue => Node(DetermineValueType(buffer), buffer, start, [])
    case _ => Node(JSONString, buffer, start, [])
  }

  /** `completeCurrentToken()`: turns a non-empty buffer into a value token
      (see `ValueNode`), stored as the last child of the current token when
      that is a field, else of the current container, and not kept when
      there is neither; the buffer is emptied and the next token starts
      here. An empty buffer changes nothing. */
  function CompleteCurrentToken(s: ScanState): (r: ScanState)
    requires Wf(s)
    ensures Wf(r) && r.buffer == "" && r.pos == s.pos
    ensures r.state == s.state && r.stateStack == s.stateStack && r.depth == s.depth && r.tree == s.tree
    ensures r.currentToken == s.currentToken && r.currentContainer == s.currentContainer
    ensures r.insideJSON == s.insideJSON
    ensures s.buffer == "" ==> r == s
    ensures s.buffer != "" ==> r == s.(arena := r.arena, buffer := "", tokenStart := s.pos)
    ensures s.buffer != "" && IsKind(s, s.currentToken, JSONField) ==>
              Added(s.arena, r.arena, s.currentToken, ValueNode(s.state, s.buffer, s.tokenStart))
    ensures s.buffer != "" && !IsKind(s, s.currentToken, JSONField) && s.currentContainer.Some? ==>
              Added(s.arena, r.arena, s.currentContainer, ValueNode(s.state, s.buffer, s.tokenStart))
    ensures s.buffer != "" && !IsKind(s, s.currentToken, JSONField) && s.currentContainer.None? ==>
              r.arena == s.arena
  {
    if s.buffer == "" then s
    else
      var idx := |s.arena|;
      var node := ValueNode(s.state, s.buffer, s.tokenStart);
      var arena :=
        if IsKind(s, s.currentToken, JSONField) then
          AttachLeafOk(s.arena, s.currentToken.value, node);
          PushChild(s.arena, s.currentToken.value, idx) + [node]
        else if s.currentContainer.Some? then
          AttachLeafOk(s.arena, s.currentContainer.value, node);
          PushChild(s.arena, s.currentContainer.value, idx) + [node]
        else s.arena;
      s.(arena := arena, buffer := "", tokenStart := s.pos)
  }

  /** `flushBuffer()`: outside JSON a non-empty buffer becomes a `Text`
      token at the end of the tree; inside JSON it is dropped. */
  function FlushBuffer(s: ScanState): (r: ScanState)
    requires Wf(s)
    ensures Wf(r) && r.buffer == "" && r.pos == s.pos
    ensures r.state == s.state && r.stateStack == s.stateStack && r.depth == s.depth
    ensures r.currentToken == s.currentToken && r.currentContainer == s.currentContainer
    ensures |s.buffer| == 0 ==> r == s
    ensures |s.buffer| > 0 && !s.insideJSON ==>
              Added(s.arena, r.arena, None, Node(Text, s.buffer, s.tokenStart, []))
              && r == s.(arena := r.arena, tree := s.tree + [|s.arena|], buffer := "")
    ensures s.insideJSON ==> r == s.(buffer := "")
  {
    if |s.buffer| > 0 then
      if !s.insideJSON then
        var idx := |s.arena|;
        var node := Node(Text, s.buffer, s.tokenStart, []);
        AppendLeafOk(s.arena, node);
        s.(tree := s.tree + [idx], arena := s.arena + [node], buffer := "")
      else s.(buffer := "")
    else s
  }

  /** The first half of `startNewJSONToken(char)`: the new token stored,
      attached, and made current. */
  function AddContainer(s: ScanState, kind: TokenType): (r: ScanState)
    requires Wf(s)
    ensures StackOk(r) && RefsOk(r) && r.pos == s.pos && r.buffer == s.buffer && r.state == s.state
    ensures r.stateStack == s.stateStack && r.depth == s.depth
    ensures r.currentContainer == r.currentToken == Some(|s.arena|) && |r.arena| == |s.arena| + 1
    ensures r == s.(arena := r.arena, tree := r.tree, currentContainer := r.currentContainer, currentToken := r.currentToken)
    ensures s.currentContainer.Some? && IsKind(s, s.currentToken, JSONField) ==>
              Added(s.arena, r.arena, s.currentToken, Node(kind, "", s.pos, [])) && r.tree == s.tree
    ensures s.currentContainer.Some? && !IsKind(s, s.currentToken, JSONField) ==>
              Added(s.arena, r.arena, s.currentContainer, Node(kind, "", s.pos, [])) && r.tree == s.tree
    ensures s.currentContainer.None? ==>
              Added(s.arena, r.arena, None, Node(kind, "", s.pos, [])) && r.tree == s.tree + [|s.arena|]
  {
    var idx := |s.arena|;
    var node := Node(kind, "", s.pos, []);
    if s.currentContainer.Some? then
      var arena :=
        if IsKind(s, s.currentToken, JSONField) then
          AttachLeafOk(s.arena, s.currentToken.value, node);
          PushChild(s.arena, s.currentToken.value, idx) + [node]
        else
          (AttachLeafOk(s.arena, s.currentContainer.value, node);
           PushChild(s.arena, s.currentContainer.value, idx) + [node]);
      s.(arena := arena, currentContainer := Some(idx), currentToken := Some(idx))
    else
      AppendLeafOk(s.arena, node);
      s.(arena := s.arena + [node], tree := s.tree + [idx], currentContainer := Some(idx), currentToken := Some(idx))
  }

  /** `startNewJSONToken(char)`: a new object or array, attached to the
      current field, else to the current container, else to the tree; it
      becomes the current token and container, and one level deeper. */
  function StartNewJSONToken(s: ScanState, c: char): (r: ScanState)
    requires Wf(s) && (s.stateStack == [] ==> s.currentContainer.None?)
    ensures Wf(r) && r.pos == s.pos && r.buffer == s.buffer
    ensures r.stateStack == s.stateStack + [InJSONStart] && r.depth == s.depth + 1
    ensures r.currentContainer == r.currentToken == Some(|s.arena|) && |r.arena| == |s.arena| + 1
    ensures r == AddContainer(s, if c == '{' then JSONObject else JSONArray).(
              stateStack := r.stateStack, state := InJSONStart, depth := r.depth)
  {
    var s1 := AddContainer(s, if c == '{' then JSONObject else JSONArray);
    var s2 := PushState(s1, InJSONStart);
    s2.(depth := s2.depth + 1)
  }

  /** `startNewJSONField()`: a field named by the trimmed buffer without its
      quotes, attached to the current container; it becomes the current
      token. */
  function StartNewJSONField(s: ScanState): (r: ScanState)
    requires Wf(s) && s.state != InText
    ensures Wf(r) && r.buffer == "" && r.pos == s.pos
    ensures r.state == s.state && r.stateStack == s.stateStack && r.depth == s.depth && r.tree == s.tree
    ensures r.currentContainer == s.currentContainer && r.currentToken == Some(|s.arena|)
    ensures |r.arena| == |s.arena| + 1 && r.arena[|s.arena|] == Node(JSONField, StripQuotes(Trim(s.buffer)), s.tokenStart, [])
    ensures Added(s.arena, r.arena, s.currentContainer, Node(JSONField, StripQuotes(Trim(s.buffer)), s.tokenStart, []))
    ensures r == s.(arena := r.arena, currentToken := Some(|s.arena|), buffer := "")
  {
    var idx := |s.arena|;
    var node := Node(JSONField, StripQuotes(Trim(s.buffer)), s.tokenStart, []);
    var arena :=
      if s.currentContainer.Some? then
        AttachLeafOk(s.arena, s.currentContainer.value, node);
        PushChild(s.arena, s.currentContainer.value, idx) + [node]
      else
        (AppendLeafOk(s.arena, node);
         s.arena + [node]);
    s.(arena := arena, currentToken := Some(idx), buffer := "")
  }

  // ---- findParentContainer ----

  /** The search of `findParent(token)`: for each child of `node` from the
      `k`-th on, `node` itself when the child is `target`, else the result of
      searching the child. */
  function FindParentFrom(arena: seq<Node>, node: nat, k: nat, target: nat): (r: Option<nat>)
    requires ChildrenOk(arena) && node < |arena| && k <= |arena[node].children|
    ensures r.Some? ==> r.value < |arena|
    decreases |arena| - node, |arena[node].children| - k
  {
    if k == |arena[node].children| then None
    else
      var child := arena[node].children[k];
      if child == target then Some(node)
      else
        var found := FindParentFrom(arena, child, 0, target);
        if found.Some? then found else FindParentFrom(arena, node, k + 1, target)
  }

  /** The loop over the tree of `findParentContainer`. */
  function FindParentInTree(arena: seq<Node>, roots: seq<nat>, target: nat): (r: Option<nat>)
    requires ChildrenOk(arena) && forall k :: 0 <= k < |roots| ==> roots[k] < |arena|
    ensures r.Some? ==> r.value < |arena|
  {
    if roots == [] then None
    else
      var found := FindParentFrom(arena, roots[0], 0, target);
      if found.Some? then found else FindParentInTree(arena, roots[1..], target)
  }

  /** `findParentContainer()` as written: the token that has the current
      container among its children. */
  function FindParentContainer(s: ScanState): (r: Option<nat>)
    requires RefsOk(s)
    ensures r.Some? ==> r.value < |s.arena|
  {
    if s.currentContainer.None? then None
    else FindParentInTree(s.arena, s.tree, s.currentContainer.value)
  }

  /** The nearest object or array at or above `node`, given the nearest one
      above it. */
  function Enclosing(arena: seq<Node>, node: nat, above: Option<nat>): Option<nat>
    requires node < |arena|
  {
    if IsContainer(arena[node].kind) then Some(node) else above
  }

  /** The corrected search: like `FindParentFrom`, but where `target` is
      found it answers the nearest object or array enclosing it, skipping a
      field that holds it as its value. */
  function FindEnclosingFrom(arena: seq<Node>, node: nat, k: nat, target: nat, above: Option<nat>): (r: Option<nat>)
    requires ChildrenOk(arena) && node < |arena| && k <= |arena[node].children|
    requires above.Some? ==> above.value < |arena| && IsContainer(arena[above.value].kind)
    ensures r.Some? ==> r.value < |arena| && IsContainer(arena[r.value].kind)
    decreases |arena| - node, |arena[node].children| - k
  {
    if k == |arena[node].children| then None
    else
      var child := arena[node].children[k];
      var here := Enclosing(arena, node, above);
      if child == target then here
      else
        var found := FindEnclosingFrom(arena, child, 0, target, here);
        if found.Some? then found else FindEnclosingFrom(arena, node, k + 1, target, above)
  }

  function FindEnclosingInTree(arena: seq<Node>, roots: seq<nat>, target: nat): (r: Option<nat>)
    requires ChildrenOk(arena) && forall k :: 0 <= k < |roots| ==> roots[k] < |arena|
    ensures r.Some? ==> r.value < |arena| && IsContainer(arena[r.value].kind)
  {
    if roots == [] then None
    else
      var found := FindEnclosingFrom(arena, roots[0], 0, target, None);
      if found.Some? then found else FindEnclosingInTree(arena, roots[1..], target)
  }

  /** `findParentContainer()` corrected: the object or array enclosing the
      current container. The scanner uses this one in `Corrected` mode. */
  function FindEnclosingContainer(s: ScanState): (r: Option<nat>)
    requires RefsOk(s)
    ensures r.Some? ==> r.value < |s.arena| && IsContainer(s.arena[r.value].kind)
  {
    if s.currentContainer.None? then None
    else FindEnclosingInTree(s.arena, s.tree, s.currentContainer.value)
  }

  /** Where the token holding the target is itself an object or array, the
      corrected search agrees with the search as written; where the search as
      written finds nothing, so does the corrected one. */
  lemma {:induction false} EnclosingAgreesFrom(arena: seq<Node>, node: nat, k: nat, target: nat, above: Option<nat>)
    requires ChildrenOk(arena) && node < |arena| && k <= |arena[node].children|
    requires above.Some? ==> above.value < |arena| && IsContainer(arena[above.value].kind)
    ensures var p := FindParentFrom(arena, node, k, target);
      (p.None? ==> FindEnclosingFrom(arena, node, k, target, above).None?)
      && (p.Some? && IsContainer(arena[p.value].kind) ==> FindEnclosingFrom(arena, node, k, target, above) == p)
    decreases |arena| - node, |arena[node].children| - k
  {
    if k < |arena[node].children| {
      var child := arena[node].children[k];
      var here := Enclosing(arena, node, above);
      if child != target {
        EnclosingAgreesFrom(arena, child, 0, target, here);
        EnclosingAgreesFrom(arena, node, k + 1, target, above);
      }
    }
  }

  lemma {:induction false} EnclosingAgreesInTree(arena: seq<Node>, roots: seq<nat>, target: nat)
    requires ChildrenOk(arena) && forall k :: 0 <= k < |roots| ==> roots[k] < |arena|
    ensures var p := FindParentInTree(arena, roots, target);
      (p.None? ==> FindEnclosingInTree(arena, roots, target).None?)
      && (p.Some? && IsContainer(arena[p.value].kind) ==> FindEnclosingInTree(arena, roots, target) == p)
  {
    if roots != [] {
      EnclosingAgreesFrom(arena, roots[0], 0, target, None);
      EnclosingAgreesInTree(arena, roots[1..], target);
    }
  }

  /** The corrected routine differs from the one as written only where the
      latter answers a field (or another non-container) token. */
  lemma {:induction false} EnclosingAgrees(s: ScanState)
    requires RefsOk(s)
    ensures var p := FindParentContainer(s);
      (p.None? ==> FindEnclosingContainer(s).None?)
      && (p.Some? && IsContainer(s.arena[p.value].kind) ==> FindEnclosingContainer(s) == p)
  {
    if s.currentContainer.Some? {
      EnclosingAgreesInTree(s.arena, s.tree, s.currentContainer.value);
    }
  }

  /** As written, closing an object that is a field's value makes the field
      the current container: here an outer object (node 0) holds field `x`
      (node 1) whose value is the inner object (node 2) just closed. */
  lemma {:induction false} ParentOfFieldValueIsField()
    ensures var arena := [Node(JSONObject, "", StartPos, [1]), Node(JSONField, "x", StartPos, [2]),
                          Node(JSONObject, "", StartPos, [])];
      var s := Initial(AsWritten).(arena := arena, tree := [0], currentContainer := Some(2), currentToken := Some(2),
                        state := InJSONStart, stateStack := [InJSONStart, InJSONStart, InJSONFieldValue, InJSONStart]);
      RefsOk(s)
      && FindParentContainer(s) == Some(1) && s.arena[1].kind == JSONField
      && FindEnclosingContainer(s) == Some(0)
  {
    var arena := [Node(JSONObject, "", StartPos, [1]), Node(JSONField, "x", StartPos, [2]),
                  Node(JSONObject, "", StartPos, [])];
    assert ChildrenOk(arena);
    assert FindParentFrom(arena, 1, 0, 2) == Some(1);
    assert FindParentFrom(arena, 0, 0, 2) == Some(1);
    assert FindEnclosingFrom(arena, 1, 0, 2, Some(0)) == Some(0);
    assert FindEnclosingFrom(arena, 0, 0, 2, None) == Some(0);
  }

  // ---- the state handlers ----

  /** `handleStateText(char)`. */
  function HandleStateText(s: ScanState, c: char): (r: ScanState)
    requires Wf(s) && s.state == InText
    ensures Wf(r) && r.pos == s.pos
  {
    if c == '{' || c == '[' then
      var s1 := FlushBuffer(s);
      var s2 := StartNewJSONToken(s1, c);
      PushState(s2.(insideJSON := true), InJSONStart)
    else
      var s1 := if |s.buffer| == 0 then s.(tokenStart := s.pos) else s;
      s1.(buffer := s1.buffer + [c])
  }

  /** The closing-bracket case of `handleStateJSONStart`: the pending value
      is completed and the scanner goes one level up. At depth 0 the JSON
      is over and nothing is current. Otherwise the parent search picks the
      new current token and container: as written, `findParentContainer`,
      the token that lists the closed container among its children (for a
      container that is a field's value, that field); corrected, the
      nearest enclosing object or array. */
  function CloseContainer(s: ScanState): (r: ScanState)
    requires Wf(s) && s.state == InJSONStart
    ensures Wf(r) && r.pos == s.pos && r.stateStack != []
    ensures r.depth == s.depth - 1 && r.currentToken == r.currentContainer
    ensures r.depth == 0 ==> !r.insideJSON && r.currentContainer.None?
    ensures r.arena == CompleteCurrentToken(s).arena && r.tree == s.tree && r.buffer == ""
    ensures |s.stateStack| > 1 ==> r.stateStack == s.stateStack[..|s.stateStack| - 1]
    ensures |s.stateStack| <= 1 ==> r.stateStack == s.stateStack
    ensures r.depth != 0 && s.mode == AsWritten ==> r.currentContainer == FindParentContainer(CompleteCurrentToken(s))
    ensures r.depth != 0 && s.mode == Corrected ==> r.currentContainer == FindEnclosingContainer(CompleteCurrentToken(s))
    ensures r.depth != 0 ==> r.insideJSON == s.insideJSON
  {
    var s1 := CompleteCurrentToken(s);
    var s2 := s1.(depth := s1.depth - 1);
    var s3 :=
      if s2.depth == 0 then
        var t := FlushBuffer(PopState(s2.(insideJSON := false)));
        t.(currentContainer := None)
      else
        var t := PopState(s2);
        t.(currentContainer := if t.mode == AsWritten then FindParentContainer(t) else FindEnclosingContainer(t));
    s3.(currentToken := s3.currentContainer)
  }

  /** Closing an object that is a field's value, one level below the top:
      as written the field becomes the current token and container, so the
      next field is filed under it; corrected, the outer object does. Here
      the outer object is node 0, field `x` node 1 and the inner object
      node 2. */
  lemma {:induction false} CloseFieldValue(mode: Semantics)
    ensures var arena := [Node(JSONObject, "", StartPos, [1]), Node(JSONField, "x", StartPos, [2]),
                          Node(JSONObject, "", StartPos, [])];
      var s := Initial(mode).(arena := arena, tree := [0], currentContainer := Some(2), currentToken := Some(2),
                              insideJSON := true, depth := 2, state := InJSONStart,
                              stateStack := [InJSONStart, InJSONStart, InJSONFieldValue, InJSONStart]);
      Wf(s)
      && CloseContainer(s).currentContainer == (if mode == AsWritten then Some(1) else Some(0))
      && CloseContainer(s).state == InJSONFieldValue && CloseContainer(s).depth == 1
  {
    var arena := [Node(JSONObject, "", StartPos, [1]), Node(JSONField, "x", StartPos, [2]),
                  Node(JSONObject, "", StartPos, [])];
    var s := Initial(mode).(arena := arena, tree := [0], currentContainer := Some(2), currentToken := Some(2),
                            insideJSON := true, depth := 2, state := InJSONStart,
                            stateStack := [InJSONStart, InJSONStart, InJSONFieldValue, InJSONStart]);
    assert ChildrenOk(arena);
    assert Wf(s);
    assert FindParentFrom(arena, 1, 0, 2) == Some(1);
    assert FindParentFrom(arena, 0, 0, 2) == Some(1);
    assert FindEnclosingFrom(arena, 1, 0, 2, Some(0)) == Some(0);
    assert FindEnclosingFrom(arena, 0, 0, 2, None) == Some(0);
    assert CompleteCurrentToken(s) == s;
  }

  /** `handleStateJSONStart(char)`. */
  function HandleStateJSONStart(s: ScanState, c: char): (r: ScanState)
    requires Wf(s) && s.state == InJSONStart
    ensures Wf(r) && r.pos == s.pos && r.stateStack != []
  {
    if c == '"' || c == '\'' then
      var s1 := PushState(s, InJSONString);
      s1.(inSingleQuote := c == '\'', buffer := s1.buffer + [c])
    else if c == '}' || c == ']' then
      CloseContainer(s)
    else if c == '{' || c == '[' then
      StartNewJSONToken(CompleteCurrentToken(s), c)
    else if c == ':' then
      PushState(StartNewJSONField(s), InJSONFieldValue)
    else if c == ',' then
      var s1 := CompleteCurrentToken(s);
      if IsKind(s1, s1.currentContainer, JSONArray) then s1.(currentToken := s1.currentContainer) else s1
    else if IsDigit(c) || c == '-' then
      var s1 := PushState(s, InJSONNumber);
      s1.(buffer := s1.buffer + [c])
    else if c == 't' || c == 'f' || c == 'n' then
      var s1 := PushState(s, InJSONFieldValue);
      s1.(buffer := s1.buffer + [c])
    else if !IsWhitespace(c) then
      var s1 := if IsKind(s, s.currentContainer, JSONArray) then PushState(s, InJSONFieldValue) else PushState(s, InJSONFieldName);
      s1.(buffer := s1.buffer + [c])
    else s
  }

  /** What `handleStateJSONStart` does with each kind of character: a quote
      opens a string, a closing bracket closes the container, an opening
      bracket completes the pending value and opens a nested container, a
      colon turns the buffer into a field whose value comes next, a comma
      completes the pending value (and in an array makes the array current
      again), a digit or minus opens a number, `t`, `f` and `n` open a
      literal value, any other visible character opens a value in an array
      and a field name elsewhere, and white space is skipped. */
  lemma {:induction false} JSONStartSteps(s: ScanState, c: char)
    requires Wf(s) && s.state == InJSONStart
    ensures IsQuote(c) ==>
              HandleStateJSONStart(s, c) == s.(stateStack := s.stateStack + [InJSONString], state := InJSONString,
                      inSingleQuote := c == '\'', buffer := s.buffer + [c])
    ensures (c == '}' || c == ']') ==> HandleStateJSONStart(s, c) == CloseContainer(s)
    ensures (c == '{' || c == '[') ==> HandleStateJSONStart(s, c) == StartNewJSONToken(CompleteCurrentToken(s), c)
    ensures c == ':' ==>
              var r := HandleStateJSONStart(s, c);
              Added(s.arena, r.arena, s.currentContainer, Node(JSONField, StripQuotes(Trim(s.buffer)), s.tokenStart, []))
              && r == s.(arena := r.arena, currentToken := Some(|s.arena|), buffer := "",
                         stateStack := s.stateStack + [InJSONFieldValue], state := InJSONFieldValue)
    ensures c == ',' ==>
              var t := CompleteCurrentToken(s);
              HandleStateJSONStart(s, c) == if IsKind(t, t.currentContainer, JSONArray) then t.(currentToken := t.currentContainer) else t
    ensures IsDigit(c) || c == '-' ==>
              HandleStateJSONStart(s, c) == s.(stateStack := s.stateStack + [InJSONNumber], state := InJSONNumber, buffer := s.buffer + [c])
    ensures c == 't' || c == 'f' || c == 'n' ==>
              HandleStateJSONStart(s, c) == s.(stateStack := s.stateStack + [InJSONFieldValue], state := InJSONFieldValue, buffer := s.buffer + [c])
    ensures !IsWhitespace(c) && !IsQuote(c) && !IsDigit(c) && c !in "{}[]:,-tfn" ==>
              var next := if IsKind(s, s.currentContainer, JSONArray) then InJSONFieldValue else InJSONFieldName;
              HandleStateJSONStart(s, c) == s.(stateStack := s.stateStack + [next], state := next, buffer := s.buffer + [c])
    ensures IsWhitespace(c) && !IsQuote(c) && c !in "{}[]:," ==> HandleStateJSONStart(s, c) == s
  {
  }

  /** `handleStateJSONString(char)`. */
  function HandleStateJSONString(s: ScanState, c: char): (r: ScanState)
    requires Wf(s) && s.state == InJSONString
    ensures Wf(r) && r.pos == s.pos && r.stateStack != []
    ensures r.buffer == s.buffer + [c] && r.arena == s.arena && r.tree == s.tree
    ensures c == '\\' ==> r == s.(buffer := r.buffer, stateStack := s.stateStack + [InJSONEscape], state := InJSONEscape)
    ensures c != '\\' && (if s.inSingleQuote then c == '\'' else c == '"') ==>
              r == s.(buffer := r.buffer, stateStack := s.stateStack[..|s.stateStack| - 1],
                      state := s.stateStack[|s.stateStack| - 2], inSingleQuote := false)
    ensures c != '\\' && (if s.inSingleQuote then c != '\'' else c != '"') ==> r == s.(buffer := r.buffer)
  {
    var s1 := s.(buffer := s.buffer + [c]);
    if c == '\\' then PushState(s1, InJSONEscape)
    else if (c == '"' && !s.inSingleQuote) || (c == '\'' && s.inSingleQuote) then PopState(s1).(inSingleQuote := false)
    else s1
  }

  /** `handleStateJSONEscape(char)`. */
  function HandleStateJSONEscape(s: ScanState, c: char): (r: ScanState)
    requires Wf(s) && s.state == InJSONEscape
    ensures Wf(r) && r.pos == s.pos && r.stateStack != []
    ensures r == s.(buffer := s.buffer + [c], stateStack := s.stateStack[..|s.stateStack| - 1],
                    state := s.stateStack[|s.stateStack| - 2])
  {
    PopState(s.(buffer := s.buffer + [c]))
  }

  /** `handleStateJSONFieldName(char)`. */
  function HandleStateJSONFieldName(s: ScanState, c: char): (r: ScanState)
    requires Wf(s) && s.state == InJSONFieldName
    ensures Wf(r) && r.pos == s.pos && r.stateStack != []
    ensures c == ':' ==>
              Added(s.arena, r.arena, s.currentContainer, Node(JSONField, StripQuotes(Trim(s.buffer)), s.tokenStart, []))
              && r == s.(arena := r.arena, currentToken := Some(|s.arena|), buffer := "",
                         stateStack := s.stateStack[..|s.stateStack| - 1] + [InJSONFieldValue], state := InJSONFieldValue)
    ensures c != ':' ==> r == s.(buffer := s.buffer + [c])
  {
    if c == ':' then PushState(PopState(StartNewJSONField(s)), InJSONFieldValue)
    else s.(buffer := s.buffer + [c])
  }

  /** `handleStateJSONFieldValue(char)`; a closing bracket ends the value and
      is then handled again in the state below. */
  function HandleStateJSONFieldValue(s: ScanState, c: char): (r: ScanState)
    requires Wf(s) && s.state == InJSONFieldValue
    ensures Wf(r) && r.pos == s.pos && r.stateStack != []
    decreases |s.stateStack|, 0
  {
    if c == ',' || c == '}' || c == ']' then
      var s1 := PopState(CompleteCurrentToken(s));
      if c == '}' || c == ']' then ProcessChar(s1, c) else s1
    else if c == '{' || c == '[' then
      StartNewJSONToken(s, c)
    else if c == '"' || c == '\'' then
      var s1 := PushState(s, InJSONString);
      s1.(inSingleQuote := c == '\'', buffer := s1.buffer + [c])
    else if IsDigit(c) || c == '-' then
      var s1 := PushState(PopState(s), InJSONNumber);
      s1.(buffer := s1.buffer + [c])
    else if c == 't' || c == 'f' || c == 'n' then
      s.(buffer := s.buffer + [c])
    else if !IsWhitespace(c) then
      s.(buffer := s.buffer + [c])
    else s
  }

  /** What `handleStateJSONFieldValue` does with each kind of character: a
      comma completes the value and returns to the state below, a closing
      bracket does the same and is then handled again there, an opening
      bracket opens a nested container, a quote opens a string, a digit or
      minus turns the value into a number, other visible characters are
      buffered, and white space is skipped. */
  lemma {:induction false} FieldValueSteps(s: ScanState, c: char)
    requires Wf(s) && s.state == InJSONFieldValue
    ensures c == ',' ==>
              var t := CompleteCurrentToken(s);
              HandleStateJSONFieldValue(s, c) == t.(stateStack := s.stateStack[..|s.stateStack| - 1], state := s.stateStack[|s.stateStack| - 2])
    ensures (c == '}' || c == ']') ==> HandleStateJSONFieldValue(s, c) == ProcessChar(PopState(CompleteCurrentToken(s)), c)
    ensures (c == '{' || c == '[') ==> HandleStateJSONFieldValue(s, c) == StartNewJSONToken(s, c)
    ensures IsQuote(c) ==>
              HandleStateJSONFieldValue(s, c) == s.(stateStack := s.stateStack + [InJSONString], state := InJSONString,
                      inSingleQuote := c == '\'', buffer := s.buffer + [c])
    ensures IsDigit(c) || c == '-' ==>
              HandleStateJSONFieldValue(s, c) == s.(stateStack := s.stateStack[..|s.stateStack| - 1] + [InJSONNumber], state := InJSONNumber,
                      buffer := s.buffer + [c])
    ensures !IsWhitespace(c) && !IsQuote(c) && !IsDigit(c) && c !in "{}[],-" ==> HandleStateJSONFieldValue(s, c) == s.(buffer := s.buffer + [c])
    ensures IsWhitespace(c) && !IsQuote(c) && c !in "{}[]," ==> HandleStateJSONFieldValue(s, c) == s
  {
  }

  /** `handleStateJSONNumber(char)`; a character that cannot continue the
      number ends it and is then handled again in the state below. */
  function HandleStateJSONNumber(s: ScanState, c: char): (r: ScanState)
    requires Wf(s) && s.state == InJSONNumber
    ensures Wf(r) && r.pos == s.pos && r.stateStack != []
    ensures IsNumberChar(c) ==> r == s.(buffer := s.buffer + [c])
    ensures !IsNumberChar(c) ==> r == ProcessChar(PopState(CompleteCurrentToken(s)), c)
    decreases |s.stateStack|, 0
  {
    if IsNumberChar(c) then s.(buffer := s.buffer + [c])
    else ProcessChar(PopState(CompleteCurrentToken(s)), c)
  }

  /** `processChar(char)`: dispatch on the state. */
  function ProcessChar(s: ScanState, c: char): (r: ScanState)
    requires Wf(s)
    ensures Wf(r) && r.pos == s.pos
    ensures s.stateStack != [] ==> r.stateStack != []
    decreases |s.stateStack|, 1
  {
    match s.state
    case InText => HandleStateText(s, c)
    case InJSONStart => HandleStateJSONStart(s, c)
    case InJSONString => HandleStateJSONString(s, c)
    case InJSONEscape => HandleStateJSONEscape(s, c)
    case InJSONFieldName => HandleStateJSONFieldName(s, c)
    case InJSONFieldValue => HandleStateJSONFieldValue(s, c)
    case InJSONNumber => HandleStateJSONNumber(s, c)
  }

  // ---- the remaining routines ----

  /** `autoCloseJSON()`: completes the pending token once per open level. */
  function AutoCloseJSON(s: ScanState): (r: ScanState)
    requires Wf(s)
    ensures Wf(r) && r.pos == s.pos && r.stateStack == s.stateStack
    ensures r.depth == (if s.depth > 0 then 0 else s.depth)
    ensures s.depth > 0 ==> r.buffer == ""
    decreases if s.depth > 0 then s.depth else 0
  {
    if s.depth > 0 then
      var s1 := s.(depth := s.depth - 1);
      AutoCloseJSON(CompleteCurrentToken(s1))
    else s
  }

  /** A top-level token `getCompletedTokens` hands out: text, or a container
      once the scanner is back in the `Text` state. */
  predicate IsCompleted(arena: seq<Node>, i: nat, state: ParserState)
    requires i < |arena|
  {
    arena[i].kind == Text || (IsContainer(arena[i].kind) && state == InText)
  }

  /** The number of completed tokens at the front of the tree. */
  function CompletedCount(arena: seq<Node>, tree: seq<nat>, state: ParserState): (n: nat)
    requires forall k :: 0 <= k < |tree| ==> tree[k] < |arena|
    ensures n <= |tree|
    ensures forall k :: 0 <= k < n ==> IsCompleted(arena, tree[k], state)
    ensures n < |tree| ==> !IsCompleted(arena, tree[n], state)
  {
    if tree == [] || !IsCompleted(arena, tree[0], state) then 0
    else CompletedCount(arena, tree[1..], state) + 1
  }

  /** `getCompletedTokens()`: the completed tokens at the front of the tree,
      which are removed from it. */
  function GetCompletedTokens(s: ScanState): (r: (seq<nat>, ScanState))
    requires Wf(s)
    ensures Wf(r.1) && r.0 + r.1.tree == s.tree
    ensures r.1 == s.(tree := r.1.tree)
    ensures forall k :: 0 <= k < |r.0| ==> r.0[k] < |s.arena| && IsCompleted(s.arena, r.0[k], s.state)
  {
    var n := CompletedCount(s.arena, s.tree, s.state);
    assert s.tree[..n] + s.tree[n..] == s.tree;
    (s.tree[..n], s.(tree := s.tree[n..]))
  }

  /** `updatePosition(char)`. */
  function UpdatePosition(s: ScanState, c: char): (r: ScanState)
    ensures r == s.(pos := r.pos) && r.pos.offset == s.pos.offset + 1
    ensures c == '\n' ==> r.pos.line == s.pos.line + 1 && r.pos.column == 1
    ensures c != '\n' ==> r.pos.line == s.pos.line && r.pos.column == s.pos.column + 1
  {
    s.(pos := Advance(s.pos, c))
  }

  /** The loop of `parse(chunk)`: every character processed, then counted. */
  function ParseChars(s: ScanState, chunk: string): (r: ScanState)
    requires Wf(s)
    ensures Wf(r) && r.pos == AdvanceAll(s.pos, chunk)
    ensures s.stateStack != [] ==> r.stateStack != []
    decreases |chunk|
  {
    if chunk == [] then s
    else ParseChars(UpdatePosition(ProcessChar(s, chunk[0]), chunk[0]), chunk[1..])
  }

  /** `parse(chunk)`: the tokens completed by the end of the chunk. */
  function Parse(s: ScanState, chunk: string): (r: (seq<nat>, ScanState))
    requires Wf(s)
    ensures Wf(r.1)
  {
    GetCompletedTokens(ParseChars(s, chunk))
  }

  /** `end()`: closes what is still open, flushes the buffer and returns the
      whole remaining tree, which stays in place. */
  function End(s: ScanState): (r: (seq<nat>, ScanState))
    requires Wf(s)
    ensures Wf(r.1) && r.0 == r.1.tree && r.1.buffer == "" && !r.1.insideJSON
    ensures s.insideJSON ==> r.1.depth <= 0
  {
    var s1 := if s.insideJSON then AutoCloseJSON(s) else s;
    var s2 := FlushBuffer(s1);
    var s3 := s2.(insideJSON := false);
    (s3.tree, s3)
  }
}
