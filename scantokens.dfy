/** Tokens of the incremental JSON scanner (formats/jsonParser.ts): the
    public token tree, source positions, and the node store the scanner
    works on. */
module JsonTokens {
  import opened Wrappers

  datatype TokenType = Text | JSONObject | JSONArray | JSONField | JSONString | JSONNumber | JSONBoolean | JSONNull

  /** A position in the input: offset from its start, 1-based line and column. */
  datatype Pos = Pos(offset: nat, line: nat, column: nat)

  const StartPos := Pos(0, 1, 1)

  /** The JSON code as written, or with its slips corrected: in the scanner,
      the parent search run when a container closes (see
      `JsonScanSpec.CloseContainer`); in the streaming builder, the
      write-back when a container closes and the path after a string value
      (see `StreamJsonSpec.CloseContainer` and `StreamJsonSpec.ProcessToken`). */
  datatype Semantics = AsWritten | Corrected

  /** A token as handed to callers. */
  datatype Token = Token(kind: TokenType, content: string, pos: Pos, children: seq<Token>)

  /** A token while the scanner holds it. Tokens are shared objects that the
      scanner keeps appending children to, so they live in a store (a
      sequence of nodes) and refer to their children by index. */
  datatype Node = Node(kind: TokenType, content: string, pos: Pos, children: seq<nat>)

  /** Every child is stored after its parent: the store is a forest in which
      a node's descendants all have larger indices. */
  predicate ChildrenOk(arena: seq<Node>) {
    forall i, k :: 0 <= i < |arena| && 0 <= k < |arena[i].children| ==> i < arena[i].children[k] < |arena|
  }

  predicate IsContainer(kind: TokenType) {
    kind == JSONObject || kind == JSONArray
  }

  /** `parent.children.push(child)`. */
  function PushChild(arena: seq<Node>, parent: nat, child: nat): (r: seq<Node>)
    requires parent < |arena|
    ensures |r| == |arena|
    ensures r[parent].children == arena[parent].children + [child]
    ensures r[parent].kind == arena[parent].kind && r[parent].content == arena[parent].content
    ensures forall i :: 0 <= i < |arena| && i != parent ==> r[i] == arena[i]
  {
    arena[parent := arena[parent].(children := arena[parent].children + [child])]
  }

  /** Appending a leaf keeps the store a forest. */
  lemma {:induction false} AppendLeafOk(arena: seq<Node>, leaf: Node)
    requires ChildrenOk(arena) && leaf.children == []
    ensures ChildrenOk(arena + [leaf])
  {
    var a := arena + [leaf];
    forall i, k | 0 <= i < |a| && 0 <= k < |a[i].children|
      ensures i < a[i].children[k] < |a|
    {
      assert i < |arena|;
    }
  }

  /** Attaching a new leaf, stored last, under an existing node keeps the
      store a forest. */
  lemma {:induction false} AttachLeafOk(arena: seq<Node>, parent: nat, leaf: Node)
    requires ChildrenOk(arena) && parent < |arena| && leaf.children == []
    ensures ChildrenOk(PushChild(arena, parent, |arena|) + [leaf])
  {
    var a := PushChild(arena, parent, |arena|) + [leaf];
    forall i, k | 0 <= i < |a| && 0 <= k < |a[i].children|
      ensures i < a[i].children[k] < |a|
    {
      assert i < |arena|;
      if i == parent {
        if k < |arena[parent].children| {
          assert a[i].children[k] == arena[parent].children[k];
        } else {
          assert a[i].children[k] == |arena|;
        }
      } else {
        assert a[i] == arena[i];
      }
    }
  }

  /** `after` is `before` with `node` stored at its end. When `parent` is
      given, the new index is also the last child of that node; no other
      node changes. */
  predicate Added(before: seq<Node>, after: seq<Node>, parent: Option<nat>, node: Node) {
    |after| == |before| + 1 && after[|before|] == node
    && (parent.Some? ==>
          parent.value < |before|
          && after[parent.value] == before[parent.value].(children := before[parent.value].children + [|before|]))
    && forall i :: 0 <= i < |before| && Some(i) != parent ==> after[i] == before[i]
  }

  /** The token tree rooted at node `i`, as callers see it. */
  function Materialize(arena: seq<Node>, i: nat): (t: Token)
    requires ChildrenOk(arena) && i < |arena|
    ensures t.kind == arena[i].kind && t.content == arena[i].content && t.pos == arena[i].pos
    ensures |t.children| == |arena[i].children|
    decreases |arena| - i, 1
  {
    Token(arena[i].kind, arena[i].content, arena[i].pos, MaterializeChildren(arena, i, 0))
  }

  /** The trees of the children of node `i` from the `k`-th on. */
  function MaterializeChildren(arena: seq<Node>, i: nat, k: nat): (ts: seq<Token>)
    requires ChildrenOk(arena) && i < |arena| && k <= |arena[i].children|
    ensures |ts| == |arena[i].children| - k
    ensures forall m :: 0 <= m < |ts| ==> ts[m].kind == arena[arena[i].children[k + m]].kind
    decreases |arena| - i, 0, |arena[i].children| - k
  {
    if k == |arena[i].children| then []
    else [Materialize(arena, arena[i].children[k])] + MaterializeChildren(arena, i, k + 1)
  }

  /** The trees of a list of nodes. */
  function MaterializeAll(arena: seq<Node>, roots: seq<nat>): (ts: seq<Token>)
    requires ChildrenOk(arena) && forall k :: 0 <= k < |roots| ==> roots[k] < |arena|
    ensures |ts| == |roots| && forall k :: 0 <= k < |roots| ==> ts[k] == Materialize(arena, roots[k])
  {
    if roots == [] then [] else [Materialize(arena, roots[0])] + MaterializeAll(arena, roots[1..])
  }

  // ---- positions ----

  /** `updatePosition(char)`. */
  function Advance(p: Pos, c: char): Pos {
    if c == '\n' then Pos(p.offset + 1, p.line + 1, 1) else Pos(p.offset + 1, p.line, p.column + 1)
  }

  /** The position after a run of characters. */
  function AdvanceAll(p: Pos, s: string): Pos
    decreases |s|
  {
    if s == [] then p else AdvanceAll(Advance(p, s[0]), s[1..])
  }

  function CountNewlines(s: string): nat {
    if s == [] then 0 else (if s[0] == '\n' then 1 else 0) + CountNewlines(s[1..])
  }

  /** The number of characters after the last newline of `s` (all of them
      when there is none). */
  function CharsAfterLastNewline(s: string): nat
    decreases |s|
  {
    if s == [] then 0
    else if s[|s| - 1] == '\n' then 0
    else CharsAfterLastNewline(s[..|s| - 1]) + 1
  }

  lemma {:induction false} CountNewlinesSnoc(s: string, c: char)
    ensures CountNewlines(s + [c]) == CountNewlines(s) + (if c == '\n' then 1 else 0)
  {
    if s != [] {
      assert (s + [c])[1..] == s[1..] + [c];
      CountNewlinesSnoc(s[1..], c);
    } else {
      assert [c][1..] == [];
    }
  }

  lemma {:induction false} AdvanceAllSnoc(p: Pos, s: string, c: char)
    ensures AdvanceAll(p, s + [c]) == Advance(AdvanceAll(p, s), c)
    decreases |s|
  {
    if s == [] {
      assert [c][1..] == [];
    } else {
      assert (s + [c])[1..] == s[1..] + [c];
      AdvanceAllSnoc(Advance(p, s[0]), s[1..], c);
    }
  }

  /** The offset counts the characters, the line counts the newlines, and
      the column restarts at 1 after each newline. */
  lemma {:induction false} AdvanceAllCounts(p: Pos, s: string)
    ensures AdvanceAll(p, s).offset == p.offset + |s|
    ensures AdvanceAll(p, s).line == p.line + CountNewlines(s)
    ensures AdvanceAll(p, s).column ==
      if CountNewlines(s) == 0 then p.column + |s| else 1 + CharsAfterLastNewline(s)
    decreases |s|
  {
    if s != [] {
      var init := s[..|s| - 1];
      var c := s[|s| - 1];
      assert s == init + [c];
      AdvanceAllCounts(p, init);
      AdvanceAllSnoc(p, init, c);
      CountNewlinesSnoc(init, c);
      NoNewlineAfter(init);
    }
  }

  lemma {:induction false} NoNewlineAfter(s: string)
    ensures CountNewlines(s) == 0 ==> CharsAfterLastNewline(s) == |s|
    decreases |s|
  {
    if s != [] {
      var init := s[..|s| - 1];
      assert s == init + [s[|s| - 1]];
      CountNewlinesSnoc(init, s[|s| - 1]);
      NoNewlineAfter(init);
    }
  }
}
