/** The incremental JSON scanner of formats/jsonParser.ts (`createJSONParser`)
    as an object whose methods update its variables in place. Each method
    is proved to leave the variables as the matching function of module
    JsonScanSpec says. */
module JsonScanner {
  import opened Wrappers
  import opened JsStrings
  import opened JsonTokens
  import S = JsonScanSpec

  class Scanner {
    /** Which parent search runs when a container closes. */
    const mode: Semantics
    var buffer: string
    var inSingleQuote: bool
    var insideJSON: bool
    var state: S.ParserState
    var stateStack: seq<S.ParserState>
    var depth: int
    var tokenStart: Pos
    var pos: Pos
    var currentToken: Option<nat>
    var currentContainer: Option<nat>
    var tree: seq<nat>
    /** The token objects, by index. */
    var arena: seq<Node>

    /** The scanner's variables as one value. */
    function Snapshot(): S.ScanState
      reads this
    {
      S.ScanState(mode, buffer, inSingleQuote, insideJSON, state, stateStack, depth, tokenStart, pos,
                  currentToken, currentContainer, tree, arena)
    }

    ghost predicate Valid()
      reads this
    {
      S.Wf(Snapshot())
    }

    /** `createJSONParser()`. */
    constructor (mode: Semantics)
      ensures Snapshot() == S.Initial(mode) && Valid()
    {
      this.mode := mode;
      buffer := "";
      inSingleQuote := false;
      insideJSON := false;
      state := S.InText;
      stateStack := [];
      depth := 0;
      tokenStart := StartPos;
      pos := StartPos;
      currentToken := None;
      currentContainer := None;
      tree := [];
      arena := [];
    }

    method PushState(newState: S.ParserState)
      requires S.StackOk(Snapshot()) && S.RefsOk(Snapshot())
      requires newState != S.InText && (stateStack == [] ==> newState == S.InJSONStart)
      modifies this
      ensures Snapshot() == S.PushState(old(Snapshot()), newState)
    {
      stateStack := stateStack + [newState];
      state := newState;
    }

    method PopState()
      requires Valid()
      modifies this
      ensures Snapshot() == S.PopState(old(Snapshot()))
    {
      if |stateStack| > 1 {
        stateStack := stateStack[..|stateStack| - 1];
        state := stateStack[|stateStack| - 1];
      }
    }

    method CompleteCurrentToken()
      requires Valid()
      modifies this
      ensures Snapshot() == S.CompleteCurrentToken(old(Snapshot()))
    {
      if buffer == "" {
        return;
      }
      var tokenType: TokenType;
      var value := buffer;
      match state {
        case InJSONString =>
          tokenType := JSONString;
          value := S.StripQuotes(value);
        case InJSONNumber =>
          tokenType := JSONNumber;
          value := S.TrimTrailingNonNumber(value);
        case InJSONFieldValue =>
          tokenType := S.DetermineValueType(value);
        case _ =>
          tokenType := JSONString;
      }
      var valueToken := Node(tokenType, value, tokenStart, []);
      if currentToken.Some? && arena[currentToken.value].kind == JSONField {
        arena := PushChild(arena, currentToken.value, |arena|) + [valueToken];
      } else if currentContainer.Some? {
        arena := PushChild(arena, currentContainer.value, |arena|) + [valueToken];
      }
      buffer := "";
      tokenStart := pos;
    }

    method FlushBuffer()
      requires Valid()
      modifies this
      ensures Snapshot() == S.FlushBuffer(old(Snapshot()))
    {
      if |buffer| > 0 {
        if !insideJSON {
          tree := tree + [|arena|];
          arena := arena + [Node(Text, buffer, tokenStart, [])];
        }
        buffer := "";
      }
    }

    method StartNewJSONToken(c: char)
      requires Valid() && (stateStack == [] ==> currentContainer.None?)
      modifies this
      ensures Snapshot() == S.StartNewJSONToken(old(Snapshot()), c)
    {
      var tokenType := if c == '{' then JSONObject else JSONArray;
      var newToken := Node(tokenType, "", pos, []);
      var idx := |arena|;
      if currentContainer.Some? {
        if currentToken.Some? && arena[currentToken.value].kind == JSONField {
          arena := PushChild(arena, currentToken.value, idx) + [newToken];
        } else {
          arena := PushChild(arena, currentContainer.value, idx) + [newToken];
        }
      } else {
        arena := arena + [newToken];
        tree := tree + [idx];
      }
      currentContainer := Some(idx);
      currentToken := Some(idx);
      assert Snapshot() == S.AddContainer(old(Snapshot()), tokenType);
      PushState(S.InJSONStart);
      depth := depth + 1;
    }

    method StartNewJSONField()
      requires Valid() && state != S.InText
      modifies this
      ensures Snapshot() == S.StartNewJSONField(old(Snapshot()))
    {
      ghost var expected := S.StartNewJSONField(Snapshot());
      var fieldName := S.StripQuotes(Trim(buffer));
      var newToken := Node(JSONField, fieldName, tokenStart, []);
      var idx := |arena|;
      if currentContainer.Some? {
        arena := PushChild(arena, currentContainer.value, idx) + [newToken];
      } else {
        arena := arena + [newToken];
      }
      assert arena == expected.arena;
      currentToken := Some(idx);
      buffer := "";
    }

    /** The search of `findParent(token)` below `token` for the container:
        the loop over the children, each searched in turn. */
    method FindParentBelow(token: nat, target: nat) returns (r: Option<nat>)
      requires ChildrenOk(arena) && token < |arena|
      ensures r == S.FindParentFrom(arena, token, 0, target)
      decreases |arena| - token
    {
      var children := arena[token].children;
      var k := 0;
      while k < |children|
        invariant 0 <= k <= |children|
        invariant S.FindParentFrom(arena, token, 0, target) == S.FindParentFrom(arena, token, k, target)
      {
        var child := children[k];
        if child == target {
          return Some(token);
        }
        var result := FindParentBelow(child, target);
        if result.Some? {
          return result;
        }
        k := k + 1;
      }
      return None;
    }

    /** `findParentContainer()` as written: the token that lists the
        current container among its children. */
    method FindParentContainer() returns (r: Option<nat>)
      requires Valid()
      ensures r == S.FindParentContainer(Snapshot())
    {
      if currentContainer.None? {
        return None;
      }
      var target := currentContainer.value;
      var k := 0;
      while k < |tree|
        invariant 0 <= k <= |tree|
        invariant S.FindParentInTree(arena, tree, target) == S.FindParentInTree(arena, tree[k..], target)
      {
        assert tree[k..][1..] == tree[k + 1..];
        var result := FindParentBelow(tree[k], target);
        if result.Some? {
          return result;
        }
        k := k + 1;
      }
      return None;
    }

    /** The corrected search below `token` for the container: the
        `for (const child of token.children)` loop of `findParent`. */
    method FindEnclosingBelow(token: nat, target: nat, above: Option<nat>) returns (r: Option<nat>)
      requires ChildrenOk(arena) && token < |arena|
      requires above.Some? ==> above.value < |arena| && IsContainer(arena[above.value].kind)
      ensures r == S.FindEnclosingFrom(arena, token, 0, target, above)
      decreases |arena| - token
    {
      var children := arena[token].children;
      var here := S.Enclosing(arena, token, above);
      var k := 0;
      while k < |children|
        invariant 0 <= k <= |children|
        invariant S.FindEnclosingFrom(arena, token, 0, target, above) == S.FindEnclosingFrom(arena, token, k, target, above)
      {
        var child := children[k];
        if child == target {
          return here;
        }
        var result := FindEnclosingBelow(child, target, here);
        if result.Some? {
          return result;
        }
        k := k + 1;
      }
      return None;
    }

    /** `findParentContainer()`, corrected to answer the enclosing object or
        array (see S.FindEnclosingContainer). */
    method FindEnclosingContainer() returns (r: Option<nat>)
      requires Valid()
      ensures r == S.FindEnclosingContainer(Snapshot())
    {
      if currentContainer.None? {
        return None;
      }
      var target := currentContainer.value;
      var k := 0;
      while k < |tree|
        invariant 0 <= k <= |tree|
        invariant S.FindEnclosingInTree(arena, tree, target) == S.FindEnclosingInTree(arena, tree[k..], target)
      {
        assert tree[k..][1..] == tree[k + 1..];
        var result := FindEnclosingBelow(tree[k], target, None);
        if result.Some? {
          return result;
        }
        k := k + 1;
      }
      return None;
    }

    method HandleStateText(c: char)
      requires Valid() && state == S.InText
      modifies this
      ensures Snapshot() == S.HandleStateText(old(Snapshot()), c)
    {
      if c == '{' || c == '[' {
        FlushBuffer();
        StartNewJSONToken(c);
        insideJSON := true;
        PushState(S.InJSONStart);
      } else {
        if |buffer| == 0 {
          tokenStart := pos;
        }
        buffer := buffer + [c];
      }
    }

    method CloseContainer()
      requires Valid() && state == S.InJSONStart
      modifies this
      ensures Snapshot() == S.CloseContainer(old(Snapshot()))
    {
      CompleteCurrentToken();
      ghost var s1 := Snapshot();
      depth := depth - 1;
      assert Snapshot() == s1.(depth := s1.depth - 1);
      if depth == 0 {
        insideJSON := false;
        PopState();
        FlushBuffer();
        currentContainer := None;
      } else {
        PopState();
        if mode == AsWritten {
          currentContainer := FindParentContainer();
        } else {
          currentContainer := FindEnclosingContainer();
        }
      }
      ghost var s3 := Snapshot();
      currentToken := currentContainer;
      assert Snapshot() == s3.(currentToken := s3.currentContainer);
    }

    method HandleStateJSONStart(c: char)
      requires Valid() && state == S.InJSONStart
      modifies this
      ensures Snapshot() == S.HandleStateJSONStart(old(Snapshot()), c)
    {
      if c == '"' || c == '\'' {
        PushState(S.InJSONString);
        inSingleQuote := c == '\'';
        buffer := buffer + [c];
      } else if c == '}' || c == ']' {
        CloseContainer();
      } else if c == '{' || c == '[' {
        CompleteCurrentToken();
        StartNewJSONToken(c);
      } else if c == ':' {
        StartNewJSONField();
        PushState(S.InJSONFieldValue);
      } else if c == ',' {
        CompleteCurrentToken();
        if currentContainer.Some? && arena[currentContainer.value].kind == JSONArray {
          currentToken := currentContainer;
        }
      } else if IsDigit(c) || c == '-' {
        PushState(S.InJSONNumber);
        buffer := buffer + [c];
      } else if c == 't' || c == 'f' || c == 'n' {
        PushState(S.InJSONFieldValue);
        buffer := buffer + [c];
      } else if !IsWhitespace(c) {
        if currentContainer.Some? && arena[currentContainer.value].kind == JSONArray {
          PushState(S.InJSONFieldValue);
        } else {
          PushState(S.InJSONFieldName);
        }
        buffer := buffer + [c];
      }
    }

    method HandleStateJSONString(c: char)
      requires Valid() && state == S.InJSONString
      modifies this
      ensures Snapshot() == S.HandleStateJSONString(old(Snapshot()), c)
    {
      buffer := buffer + [c];
      if c == '\\' {
        PushState(S.InJSONEscape);
      } else if (c == '"' && !inSingleQuote) || (c == '\'' && inSingleQuote) {
        PopState();
        inSingleQuote := false;
      }
    }

    method HandleStateJSONEscape(c: char)
      requires Valid() && state == S.InJSONEscape
      modifies this
      ensures Snapshot() == S.HandleStateJSONEscape(old(Snapshot()), c)
    {
      buffer := buffer + [c];
      PopState();
    }

    method HandleStateJSONFieldName(c: char)
      requires Valid() && state == S.InJSONFieldName
      modifies this
      ensures Snapshot() == S.HandleStateJSONFieldName(old(Snapshot()), c)
    {
      if c == ':' {
        StartNewJSONField();
        PopState();
        PushState(S.InJSONFieldValue);
      } else {
        buffer := buffer + [c];
      }
    }

    method HandleStateJSONFieldValue(c: char)
      requires Valid() && state == S.InJSONFieldValue
      modifies this
      ensures Snapshot() == S.HandleStateJSONFieldValue(old(Snapshot()), c)
      decreases |stateStack|, 0
    {
      if c == ',' || c == '}' || c == ']' {
        CompleteCurrentToken();
        PopState();
        if c == '}' || c == ']' {
          ProcessChar(c);
        }
      } else if c == '{' || c == '[' {
        StartNewJSONToken(c);
      } else if c == '"' || c == '\'' {
        PushState(S.InJSONString);
        inSingleQuote := c == '\'';
        buffer := buffer + [c];
      } else if IsDigit(c) || c == '-' {
        PopState();
        PushState(S.InJSONNumber);
        buffer := buffer + [c];
      } else if c == 't' || c == 'f' || c == 'n' {
        buffer := buffer + [c];
      } else if !IsWhitespace(c) {
        buffer := buffer + [c];
      }
    }

    method HandleStateJSONNumber(c: char)
      requires Valid() && state == S.InJSONNumber
      modifies this
      ensures Snapshot() == S.HandleStateJSONNumber(old(Snapshot()), c)
      decreases |stateStack|, 0
    {
      if S.IsNumberChar(c) {
        buffer := buffer + [c];
      } else {
        CompleteCurrentToken();
        PopState();
        ProcessChar(c);
      }
    }

    method ProcessChar(c: char)
      requires Valid()
      modifies this
      ensures Snapshot() == S.ProcessChar(old(Snapshot()), c)
      decreases |stateStack|, 1
    {
      match state {
        case InText => HandleStateText(c);
        case InJSONStart => HandleStateJSONStart(c);
        case InJSONString => HandleStateJSONString(c);
        case InJSONEscape => HandleStateJSONEscape(c);
        case InJSONFieldName => HandleStateJSONFieldName(c);
        case InJSONFieldValue => HandleStateJSONFieldValue(c);
        case InJSONNumber => HandleStateJSONNumber(c);
      }
    }

    method AutoCloseJSON()
      requires Valid()
      modifies this
      ensures Snapshot() == S.AutoCloseJSON(old(Snapshot()))
    {
      while depth > 0
        invariant Valid()
        invariant S.AutoCloseJSON(Snapshot()) == S.AutoCloseJSON(old(Snapshot()))
        decreases if depth > 0 then depth else 0
      {
        depth := depth - 1;
        CompleteCurrentToken();
      }
    }

    /** `getCompletedTokens()`: the loop over the front of the tree. */
    method GetCompletedTokens() returns (completed: seq<Token>)
      requires Valid()
      modifies this
      ensures Snapshot() == S.GetCompletedTokens(old(Snapshot())).1
      ensures completed == MaterializeAll(arena, S.GetCompletedTokens(old(Snapshot())).0)
    {
      var n := 0;
      while n < |tree| && S.IsCompleted(arena, tree[n], state)
        invariant 0 <= n <= |tree|
        invariant forall k :: 0 <= k < n ==> S.IsCompleted(arena, tree[k], state)
      {
        n := n + 1;
      }
      CompletedCountIs(arena, tree, state, n);
      completed := MaterializeAll(arena, tree[..n]);
      tree := tree[n..];
    }

    static lemma CompletedCountIs(arena: seq<Node>, tree: seq<nat>, state: S.ParserState, n: nat)
      requires forall k :: 0 <= k < |tree| ==> tree[k] < |arena|
      requires n <= |tree| && forall k :: 0 <= k < n ==> S.IsCompleted(arena, tree[k], state)
      requires n < |tree| ==> !S.IsCompleted(arena, tree[n], state)
      ensures S.CompletedCount(arena, tree, state) == n
    {
      if n > 0 {
        CompletedCountIs(arena, tree[1..], state, n - 1);
      }
    }

    method UpdatePosition(c: char)
      modifies this
      ensures Snapshot() == S.UpdatePosition(old(Snapshot()), c)
    {
      if c == '\n' {
        pos := Pos(pos.offset + 1, pos.line + 1, 1);
      } else {
        pos := Pos(pos.offset + 1, pos.line, pos.column + 1);
      }
    }

    /** `parse(chunk)`. */
    method Parse(chunk: string) returns (completed: seq<Token>)
      requires Valid()
      modifies this
      ensures Valid()
      ensures Snapshot() == S.Parse(old(Snapshot()), chunk).1
      ensures completed == MaterializeAll(arena, S.Parse(old(Snapshot()), chunk).0)
    {
      var i := 0;
      while i < |chunk|
        invariant 0 <= i <= |chunk| && Valid()
        invariant S.ParseChars(Snapshot(), chunk[i..]) == S.ParseChars(old(Snapshot()), chunk)
      {
        assert chunk[i..][1..] == chunk[i + 1..];
        ProcessChar(chunk[i]);
        UpdatePosition(chunk[i]);
        i := i + 1;
      }
      completed := GetCompletedTokens();
    }

    /** `end()`. */
    method End() returns (tokens: seq<Token>)
      requires Valid()
      modifies this
      ensures Valid()
      ensures Snapshot() == S.End(old(Snapshot())).1
      ensures tokens == MaterializeAll(arena, S.End(old(Snapshot())).0)
    {
      if insideJSON {
        AutoCloseJSON();
      }
      FlushBuffer();
      insideJSON := false;
      tokens := MaterializeAll(arena, tree);
    }
  }
}
