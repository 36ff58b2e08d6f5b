/** Properties of the JSON scanner of formats/jsonParser.ts, stated on the
    functions of module JsonScanSpec (and so, through the proved
    postconditions of class JsonScanner.Scanner, of the object itself). */
module JsonScanFacts {
  import opened Wrappers
  import opened JsStrings
  import opened JsonTokens
  import opened JsonScanSpec

  /** Feeding a stream in two pieces leaves the scanner as feeding it at
      once: chunk boundaries are invisible to the character loop. */
  lemma {:induction false} ParseCharsAppend(s: ScanState, a: string, b: string)
    requires Wf(s)
    ensures ParseChars(s, a + b) == ParseChars(ParseChars(s, a), b)
    decreases |a|
  {
    if a != [] {
      assert (a + b)[0] == a[0];
      assert (a + b)[1..] == a[1..] + b;
      ParseCharsAppend(UpdatePosition(ProcessChar(s, a[0]), a[0]), a[1..], b);
    } else {
      assert a + b == b;
    }
  }

  /** After `parse(chunk)` the offset has moved by the chunk's length, the
      line by its newlines, and the column restarts after each newline. */
  lemma {:induction false} ParsePosition(s: ScanState, chunk: string)
    requires Wf(s)
    ensures Parse(s, chunk).1.pos.offset == s.pos.offset + |chunk|
    ensures Parse(s, chunk).1.pos.line == s.pos.line + CountNewlines(chunk)
    ensures Parse(s, chunk).1.pos.column ==
      if CountNewlines(chunk) == 0 then s.pos.column + |chunk| else 1 + CharsAfterLastNewline(chunk)
  {
    AdvanceAllCounts(s.pos, chunk);
  }

  /** What `getCompletedTokens()` hands out is always text: once a bracket
      has been seen the bottom `JSONStart` entry is never popped, so the
      scanner is never again in the `Text` state and JSON tokens leave only
      through `end()`. The tokens handed out are the front of the tree. */
  lemma {:induction false} ReleasedAreText(s: ScanState)
    requires Wf(s)
    ensures var (out, t) := GetCompletedTokens(s);
      s.tree == out + t.tree
      && forall k :: 0 <= k < |out| ==> out[k] < |s.arena| && s.arena[out[k]].kind == Text
  {
    var (out, t) := GetCompletedTokens(s);
    forall k | 0 <= k < |out|
      ensures s.arena[out[k]].kind == Text
    {
      assert out[k] == s.tree[k];
    }
  }

  /** Once a bracket has opened JSON the state stack never empties again,
      whatever follows. */
  lemma {:induction false} NeverBackToText(s: ScanState, chunk: string)
    requires Wf(s) && s.stateStack != []
    ensures ParseChars(s, chunk).state != InText
    ensures ParseChars(s, chunk).stateStack != [] && ParseChars(s, chunk).stateStack[0] == InJSONStart
    decreases |chunk|
  {
    if chunk != [] {
      NeverBackToText(UpdatePosition(ProcessChar(s, chunk[0]), chunk[0]), chunk[1..]);
    }
  }

  predicate NoBracket(t: string) {
    forall i :: 0 <= i < |t| ==> t[i] != '{' && t[i] != '['
  }

  /** Text without an opening bracket only grows the buffer: the text
      scanned so far is exactly the buffer, started where the text began. */
  lemma {:induction false} PlainTextBuffers(s: ScanState, t: string)
    requires Wf(s) && s.state == InText && NoBracket(t)
    ensures ParseChars(s, t) == s.(buffer := s.buffer + t, pos := AdvanceAll(s.pos, t),
                                   tokenStart := if s.buffer == "" && t != "" then s.pos else s.tokenStart)
    decreases |t|
  {
    if t != [] {
      var s1 := UpdatePosition(ProcessChar(s, t[0]), t[0]);
      assert s1 == s.(buffer := s.buffer + [t[0]], pos := Advance(s.pos, t[0]),
                      tokenStart := if s.buffer == "" then s.pos else s.tokenStart);
      assert NoBracket(t[1..]) by {
        forall i | 0 <= i < |t[1..]| ensures t[1..][i] != '{' && t[1..][i] != '[' {
          assert t[1..][i] == t[i + 1];
        }
      }
      PlainTextBuffers(s1, t[1..]);
      assert s.buffer + [t[0]] + t[1..] == s.buffer + t;
    }
  }

  /** A stream with no opening bracket hands out nothing while it is fed
      and comes out of `end()` as the single text token holding all of it. */
  lemma {:induction false} PlainTextIsOneToken(mode: Semantics, t: string)
    requires t != "" && NoBracket(t)
    ensures Parse(Initial(mode), t).0 == []
    ensures var (out, e) := End(Parse(Initial(mode), t).1);
      MaterializeAll(e.arena, out) == [Token(Text, t, StartPos, [])]
  {
    InitialWf(mode);
    PlainTextBuffers(Initial(mode), t);
    var s := ParseChars(Initial(mode), t);
    assert s.tree == [] && s.buffer == t && s.tokenStart == StartPos && s.arena == [];
    var (out, e) := End(Parse(Initial(mode), t).1);
    assert out == [0] && e.arena == [Node(Text, t, StartPos, [])];
  }

  /** The first opening bracket ends the text: the text so far becomes a
      text token, the new container follows it in the tree, and the
      scanner is one level deep inside JSON with `JSONStart` pushed twice. */
  lemma {:induction false} FirstBracketOpensJSON(s: ScanState, c: char)
    requires Wf(s) && s.state == InText && (c == '{' || c == '[')
    ensures var r := ProcessChar(s, c);
      r.insideJSON && r.depth == 1 && r.state == InJSONStart
      && r.stateStack == [InJSONStart, InJSONStart] && r.buffer == ""
      && r.tree == s.tree + (if s.buffer == "" then [] else [|s.arena|]) + [|r.arena| - 1]
      && r.arena[|r.arena| - 1] == Node(if c == '{' then JSONObject else JSONArray, "", s.pos, [])
      && (s.buffer != "" ==> r.arena[|s.arena|] == Node(Text, s.buffer, s.tokenStart, []))
      && r.currentContainer == r.currentToken == Some(|r.arena| - 1)
  {
    var s1 := FlushBuffer(s);
    assert s1.tree == s.tree + (if s.buffer == "" then [] else [|s.arena|]);
  }

  // ---- the value helpers ----

  /** A decimal digit string from `i` on is one digit run to its end. */
  lemma {:induction false} DigitRunAll(s: string, i: nat)
    requires i <= |s| && forall j :: i <= j < |s| ==> IsDigit(s[j])
    ensures DigitRun(s, i) == |s| - i
    decreases |s| - i
  {
    if i < |s| {
      DigitRunAll(s, i + 1);
    }
  }

  /** `String(i)` of every integer passes the number test, so a bare
      integer in a field value is typed `JSONNumber`. */
  lemma {:induction false} IntegersAreNumbers(i: int)
    ensures IsNumberLiteral(IntToString(i))
    ensures DetermineValueType(IntToString(i)) == JSONNumber
  {
    var v := IntToString(i);
    var a := if |v| > 0 && v[0] == '-' then 1 else 0;
    if i < 0 {
      var d := NatToString(-i);
      assert v == "-" + d;
      assert forall j :: 1 <= j < |v| ==> v[j] == d[j - 1];
      DigitRunAll(v, 1);
    } else {
      assert IsDigit(v[0]);
      DigitRunAll(v, 0);
    }
    assert DigitRun(v, a) == |v| - a;
    assert v != "true" && v != "false" && v != "null" by {
      assert !IsDigit('t') && !IsDigit('f') && !IsDigit('n');
    }
  }

  /** A number literal followed by non-number characters is cut back to
      the literal. */
  lemma {:induction false} TrimTrailingNonNumberStrips(v: string, junk: string)
    requires v == [] || IsNumberChar(v[|v| - 1])
    requires forall i :: 0 <= i < |junk| ==> !IsNumberChar(junk[i])
    ensures TrimTrailingNonNumber(v + junk) == v
    decreases |junk|
  {
    if junk != [] {
      var init := junk[..|junk| - 1];
      assert (v + junk)[..|v + junk| - 1] == v + init;
      TrimTrailingNonNumberStrips(v, init);
    } else {
      assert v + junk == v;
    }
  }

  /** A quoted name or string loses exactly its two quotes. */
  lemma {:induction false} StripQuotesOfQuoted(q: char, x: string)
    requires IsQuote(q)
    ensures StripQuotes([q] + x + [q]) == x
  {
    var t := ([q] + x + [q])[1..];
    assert t == x + [q];
    assert t[..|t| - 1] == x;
  }
}
