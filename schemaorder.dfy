/** The order in which the schema compiler of module JsonSchemaRegex lists
    combinations: `getCombinations` picks positions of its input in
    lexicographic order, and `handleAnyOf` offers the combinations by size,
    smallest first. */
module JsonSchemaOrder {
  import opened JsonSchemaRegex
  import opened JsonSchemaFacts

  // ---- lexicographic order ----

  /** `x` precedes `y` in lexicographic order. */
  predicate LexLess(x: seq<int>, y: seq<int>)
    decreases |x|
  {
    x != [] && y != [] && (x[0] < y[0] || (x[0] == y[0] && LexLess(x[1..], y[1..])))
  }

  predicate Increasing(a: seq<int>) {
    forall i, j :: 0 <= i < j < |a| ==> a[i] < a[j]
  }

  predicate LexSorted(cs: seq<seq<int>>) {
    forall p, q :: 0 <= p < q < |cs| ==> LexLess(cs[p], cs[q])
  }

  /** The positions `0, 1, ..., n - 1`. */
  function Positions(n: nat): (r: seq<int>)
    ensures |r| == n && forall i :: 0 <= i < n ==> r[i] == i
  {
    seq(n, i => i)
  }

  /** Every element of a subsequence occurs in the sequence. */
  lemma {:induction false} SubseqMembers<T>(c: seq<T>, a: seq<T>)
    requires IsSubseq(c, a)
    ensures forall m :: 0 <= m < |c| ==> c[m] in a
    decreases |a|
  {
    if c != [] {
      if c[0] == a[0] && IsSubseq(c[1..], a[1..]) {
        SubseqMembers(c[1..], a[1..]);
        forall m | 0 <= m < |c|
          ensures c[m] in a
        {
          if m > 0 {
            assert c[m] == c[1..][m - 1];
            assert c[m] in a[1..];
          }
        }
      } else {
        SubseqMembers(c, a[1..]);
      }
    }
  }

  lemma {:induction false} PrependSorted(h: int, cs: seq<seq<int>>)
    requires LexSorted(cs)
    ensures LexSorted(Prepend(h, cs))
  {
    var r := Prepend(h, cs);
    forall p, q | 0 <= p < q < |r|
      ensures LexLess(r[p], r[q])
    {
      assert r[p][1..] == cs[p] && r[q][1..] == cs[q];
    }
  }

  lemma {:induction false} ConcatSorted(a: seq<seq<int>>, b: seq<seq<int>>)
    requires LexSorted(a) && LexSorted(b)
    requires forall p, q :: 0 <= p < |a| && 0 <= q < |b| ==> LexLess(a[p], b[q])
    ensures LexSorted(a + b)
  {
    forall p, q | 0 <= p < q < |a + b|
      ensures LexLess((a + b)[p], (a + b)[q])
    {
      if q < |a| {
        assert LexLess(a[p], a[q]);
      } else if p < |a| {
        assert LexLess(a[p], b[q - |a|]);
      } else {
        assert LexLess(b[p - |a|], b[q - |a|]);
      }
    }
  }

  /** Over increasing numbers, the combinations come in strictly increasing
      lexicographic order. */
  lemma {:induction false} CombinationsLexSorted(a: seq<int>, k: nat)
    requires k >= 1 && Increasing(a)
    ensures LexSorted(Combinations(a, k))
    decreases |a|, 1
  {
    if k == 1 {
      var cs := Combinations(a, 1);
      forall p, q | 0 <= p < q < |cs|
        ensures LexLess(cs[p], cs[q])
      {
        assert cs[p] == [a[p]] && cs[q] == [a[q]];
      }
    } else {
      CombinationsFromLexSorted(a, k, 0);
    }
  }

  lemma {:induction false} CombinationsFromLexSorted(a: seq<int>, k: nat, i: nat)
    requires k >= 2 && Increasing(a)
    ensures LexSorted(CombinationsFrom(a, k, i))
    decreases |a|, 0, |a| - i
  {
    if i + k <= |a| {
      var rest := a[i + 1..];
      assert Increasing(rest) by {
        forall x, y | 0 <= x < y < |rest|
          ensures rest[x] < rest[y]
        {
          assert rest[x] == a[i + 1 + x] && rest[y] == a[i + 1 + y];
        }
      }
      var tails := Combinations(rest, k - 1);
      CombinationsLexSorted(rest, k - 1);
      PrependSorted(a[i], tails);
      CombinationsFromLexSorted(a, k, i + 1);
      var front := Prepend(a[i], tails);
      var back := CombinationsFrom(a, k, i + 1);
      CombinationsFromSound(a, k, i + 1);
      forall p, q | 0 <= p < |front| && 0 <= q < |back|
        ensures LexLess(front[p], back[q])
      {
        assert back[q] in back;
        SubseqMembers(back[q], a[i + 1..]);
        assert back[q][0] in a[i + 1..];
        var j :| 0 <= j < |a[i + 1..]| && a[i + 1..][j] == back[q][0];
        assert a[i] < a[i + 1 + j];
        assert front[p][0] == a[i];
      }
      assert CombinationsFrom(a, k, i) == front + back;
      ConcatSorted(front, back);
    }
  }

  // ---- combinations commute with renaming the elements ----

  function MapSeq<T, U>(f: T -> U, a: seq<T>): (r: seq<U>)
    ensures |r| == |a| && forall i :: 0 <= i < |a| ==> r[i] == f(a[i])
  {
    seq(|a|, i requires 0 <= i < |a| => f(a[i]))
  }

  function MapAll<T, U>(f: T -> U, cs: seq<seq<T>>): (r: seq<seq<U>>)
    ensures |r| == |cs| && forall p :: 0 <= p < |cs| ==> r[p] == MapSeq(f, cs[p])
  {
    seq(|cs|, p requires 0 <= p < |cs| => MapSeq(f, cs[p]))
  }

  /** Renaming the elements and then taking combinations gives the
      combinations of the original, renamed. */
  lemma {:induction false} CombinationsRename<T, U>(f: T -> U, a: seq<T>, k: nat)
    requires k >= 1
    ensures Combinations(MapSeq(f, a), k) == MapAll(f, Combinations(a, k))
    decreases |a|, 1
  {
    if k == 1 {
      var l := Combinations(MapSeq(f, a), k);
      var r := MapAll(f, Combinations(a, k));
      assert |l| == |r|;
      forall p | 0 <= p < |l|
        ensures l[p] == r[p]
      {
        assert l[p] == [f(a[p])];
        assert Combinations(a, k)[p] == [a[p]];
      }
    } else {
      CombinationsFromRename(f, a, k, 0);
    }
  }

  lemma {:induction false} CombinationsFromRename<T, U>(f: T -> U, a: seq<T>, k: nat, i: nat)
    requires k >= 2
    ensures CombinationsFrom(MapSeq(f, a), k, i) == MapAll(f, CombinationsFrom(a, k, i))
    decreases |a|, 0, |a| - i
  {
    if i + k <= |a| {
      var fa := MapSeq(f, a);
      assert fa[i + 1..] == MapSeq(f, a[i + 1..]);
      CombinationsRename(f, a[i + 1..], k - 1);
      CombinationsFromRename(f, a, k, i + 1);
      var tails := Combinations(a[i + 1..], k - 1);
      var front := Prepend(a[i], tails);
      var back := CombinationsFrom(a, k, i + 1);
      var l := Prepend(fa[i], MapAll(f, tails)) + MapAll(f, back);
      var r := MapAll(f, front + back);
      assert CombinationsFrom(fa, k, i) == l;
      assert CombinationsFrom(a, k, i) == front + back;
      forall p | 0 <= p < |l|
        ensures l[p] == r[p]
      {
        if p < |tails| {
          assert l[p] == [f(a[i])] + MapSeq(f, tails[p]);
          assert (front + back)[p] == [a[i]] + tails[p];
          assert MapSeq(f, [a[i]] + tails[p]) == [f(a[i])] + MapSeq(f, tails[p]);
        } else {
          assert (front + back)[p] == back[p - |tails|];
        }
      }
    }
  }

  /** `getCombinations(arr, k)` lists the increasing k-tuples of positions
      of `arr` in lexicographic order, each read off `arr`. */
  lemma {:induction false} CombinationsOrder<T>(arr: seq<T>, k: nat)
    requires k >= 1
    ensures var ix := Combinations(Positions(|arr|), k);
      LexSorted(ix) && |Combinations(arr, k)| == |ix|
      && forall p :: 0 <= p < |ix| ==>
           |ix[p]| == k && Increasing(ix[p]) && |Combinations(arr, k)[p]| == k
           && forall m :: 0 <= m < k ==> 0 <= ix[p][m] < |arr| && Combinations(arr, k)[p][m] == arr[ix[p][m]]
  {
    var ix := Combinations(Positions(|arr|), k);
    CombinationsLexSorted(Positions(|arr|), k);
    CombinationsSound(Positions(|arr|), k);
    CombinationsSound(arr, k);
    CombinationsCount(arr, k);
    CombinationsCount(Positions(|arr|), k);
    forall p | 0 <= p < |ix|
      ensures |ix[p]| == k && Increasing(ix[p]) && |Combinations(arr, k)[p]| == k
      ensures forall m :: 0 <= m < k ==> 0 <= ix[p][m] < |arr|
    {
      assert ix[p] in ix;
      SubseqMembers(ix[p], Positions(|arr|));
      SubseqIncreasing(ix[p], Positions(|arr|));
      assert Combinations(arr, k)[p] in Combinations(arr, k);
    }
    if |arr| > 0 {
      var f := (i: int) => if 0 <= i < |arr| then arr[i] else arr[0];
      assert MapSeq(f, Positions(|arr|)) == arr;
      CombinationsRename(f, Positions(|arr|), k);
    }
  }

  /** A subsequence of increasing numbers is increasing. */
  lemma {:induction false} SubseqIncreasing(c: seq<int>, a: seq<int>)
    requires IsSubseq(c, a) && Increasing(a)
    ensures Increasing(c)
    decreases |a|
  {
    if c != [] {
      assert Increasing(a[1..]) by {
        forall x, y | 0 <= x < y < |a[1..]|
          ensures a[1..][x] < a[1..][y]
        {
          assert a[1..][x] == a[x + 1] && a[1..][y] == a[y + 1];
        }
      }
      if c[0] == a[0] && IsSubseq(c[1..], a[1..]) {
        SubseqIncreasing(c[1..], a[1..]);
        SubseqMembers(c[1..], a[1..]);
        forall x, y | 0 <= x < y < |c|
          ensures c[x] < c[y]
        {
          if x == 0 {
            assert c[y] == c[1..][y - 1];
            assert c[y] in a[1..];
            var j :| 0 <= j < |a[1..]| && a[1..][j] == c[y];
            assert a[0] < a[j + 1];
          } else {
            assert c[x] == c[1..][x - 1] && c[y] == c[1..][y - 1];
          }
        }
      } else {
        SubseqIncreasing(c, a[1..]);
      }
    }
  }

  // ---- handleAnyOf ----

  /** The combinations behind `AnyOfAlternatives(rs, i)`, in the same order. */
  function AnyOfCombinations(rs: seq<string>, i: nat): seq<seq<string>>
    requires i >= 1
    decreases |rs| + 1 - i
  {
    if i > |rs| then [] else Combinations(rs, i) + AnyOfCombinations(rs, i + 1)
  }

  /** The p-th alternative of `handleAnyOf` merges the p-th combination. */
  lemma {:induction false} AnyOfMerges(rs: seq<string>, i: nat)
    requires i >= 1
    ensures |AnyOfAlternatives(rs, i)| == |AnyOfCombinations(rs, i)|
    ensures forall p :: 0 <= p < |AnyOfCombinations(rs, i)| ==>
              AnyOfAlternatives(rs, i)[p] == CombineSchemas(AnyOfCombinations(rs, i)[p])
    decreases |rs| + 1 - i
  {
    if i <= |rs| {
      AnyOfMerges(rs, i + 1);
      var here := Combinations(rs, i);
      var merged := seq(|here|, j requires 0 <= j < |here| => CombineSchemas(here[j]));
      var alts := AnyOfAlternatives(rs, i);
      var cs := AnyOfCombinations(rs, i);
      assert alts == merged + AnyOfAlternatives(rs, i + 1);
      assert cs == here + AnyOfCombinations(rs, i + 1);
      forall p | 0 <= p < |cs|
        ensures alts[p] == CombineSchemas(cs[p])
      {
        if p >= |here| {
          assert alts[p] == AnyOfAlternatives(rs, i + 1)[p - |here|];
          assert cs[p] == AnyOfCombinations(rs, i + 1)[p - |here|];
        }
      }
    }
  }

  /** `handleAnyOf` offers the combinations by size, smallest first: every
      combination behind `AnyOfAlternatives(rs, i)` is at least `i` long,
      and sizes never decrease along the list. */
  lemma {:induction false} AnyOfBySize(rs: seq<string>, i: nat)
    requires i >= 1
    ensures forall p :: 0 <= p < |AnyOfCombinations(rs, i)| ==> |AnyOfCombinations(rs, i)[p]| >= i
    ensures forall p, q :: 0 <= p < q < |AnyOfCombinations(rs, i)| ==>
              |AnyOfCombinations(rs, i)[p]| <= |AnyOfCombinations(rs, i)[q]|
    decreases |rs| + 1 - i
  {
    if i <= |rs| {
      AnyOfBySize(rs, i + 1);
      var here := Combinations(rs, i);
      CombinationsSound(rs, i);
      var later := AnyOfCombinations(rs, i + 1);
      var cs := AnyOfCombinations(rs, i);
      assert cs == here + later;
      forall p | 0 <= p < |cs|
        ensures |cs[p]| >= i
      {
        if p < |here| {
          assert here[p] in here;
        } else {
          assert cs[p] == later[p - |here|];
        }
      }
      forall p, q | 0 <= p < q < |cs|
        ensures |cs[p]| <= |cs[q]|
      {
        if q < |here| {
          assert here[p] in here && here[q] in here;
        } else if p < |here| {
          assert here[p] in here;
          assert cs[q] == later[q - |here|];
        } else {
          assert cs[p] == later[p - |here|] && cs[q] == later[q - |here|];
        }
      }
    }
  }
}
