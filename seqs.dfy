/** Sequence facts shared by the list-handling code. */
module Seqs {

  /** No object appears twice: every list of the game is built from freshly created objects. */
  predicate Distinct<T(==)>(s: seq<T>) {
    forall i, j :: 0 <= i < j < |s| ==> s[i] != s[j]
  }

  /** Appending an element that is not yet present keeps a list free of repeats. */
  lemma DistinctAppend<T>(s: seq<T>, x: T)
    requires Distinct(s) && x !in s
    ensures Distinct(s + [x])
  {
  }

  /** Two lists without repeats and without common elements concatenate to one. */
  lemma DistinctConcat<T>(s: seq<T>, t: seq<T>)
    requires Distinct(s) && Distinct(t) && forall x :: x in s ==> x !in t
    ensures Distinct(s + t)
  {
    forall i, j | 0 <= i < j < |s + t|
      ensures (s + t)[i] != (s + t)[j]
    {
      if j >= |s| && i < |s| {
        assert (s + t)[i] in s && (s + t)[j] in t;
      }
    }
  }

  /** Each element of `before + volley` is an element of `before` or of `volley`, by the
      side of `|before|` its index falls on. */
  lemma JoinMembers<T>(before: seq<T>, volley: seq<T>)
    ensures forall k :: 0 <= k < |before| ==> (before + volley)[k] in before
    ensures forall k :: |before| <= k < |before + volley| ==> (before + volley)[k] in volley
  {
    forall k | 0 <= k < |before + volley|
      ensures if k < |before| then (before + volley)[k] in before else (before + volley)[k] in volley
    {
      if k < |before| {
        assert (before + volley)[k] == before[k];
      } else {
        assert (before + volley)[k] == volley[k - |before|];
      }
    }
  }

  /** Concatenation is associative; stated once so that long proofs need not rediscover it. */
  lemma AppendAssoc<T>(a: seq<T>, b: seq<T>, c: seq<T>)
    ensures (a + b) + c == a + (b + c)
  {
  }

  /** Sum of a list of reals, folded from the left as the game's running totals are. */
  function Sum(s: seq<real>): real {
    if s == [] then 0.0 else Sum(s[..|s| - 1]) + s[|s| - 1]
  }

  lemma {:induction false} SumAppend(s: seq<real>, t: seq<real>)
    ensures Sum(s + t) == Sum(s) + Sum(t)
  {
    if t == [] {
      assert s + t == s;
    } else {
      assert (s + t)[..|s + t| - 1] == s + t[..|t| - 1];
      SumAppend(s, t[..|t| - 1]);
    }
  }

  /** Sum of a list of integers, folded from the left. */
  function IntSum(s: seq<int>): int {
    if s == [] then 0 else IntSum(s[..|s| - 1]) + s[|s| - 1]
  }

  lemma {:induction false} IntSumAppend(s: seq<int>, t: seq<int>)
    ensures IntSum(s + t) == IntSum(s) + IntSum(t)
  {
    if t == [] {
      assert s + t == s;
    } else {
      assert (s + t)[..|s + t| - 1] == s + t[..|t| - 1];
      IntSumAppend(s, t[..|t| - 1]);
    }
  }

  // ---------------------------------------------------------------------------------------
  // Filtering: `xs.filter(...)` with the test's outcome for each element given as a flag.

  /** The elements of `xs` whose flag is set, in their original order. */
  function Keep<T>(xs: seq<T>, keep: seq<bool>): (r: seq<T>)
    requires |keep| == |xs|
    ensures |r| == Count(keep)
  {
    if xs == [] then []
    else Keep(xs[..|xs| - 1], keep[..|keep| - 1]) + if keep[|xs| - 1] then [xs[|xs| - 1]] else []
  }

  /** How many flags are set. */
  function Count(keep: seq<bool>): (n: nat)
    ensures n <= |keep|
  {
    if keep == [] then 0 else Count(keep[..|keep| - 1]) + if keep[|keep| - 1] then 1 else 0
  }

  /** Every flag flipped: the elements a filter drops. */
  function Not(keep: seq<bool>): (r: seq<bool>)
    ensures |r| == |keep| && forall i :: 0 <= i < |keep| ==> r[i] == !keep[i]
  {
    seq(|keep|, i requires 0 <= i < |keep| => !keep[i])
  }

  /** Flipping commutes with appending a flag. */
  lemma NotSnoc(keep: seq<bool>, b: bool)
    ensures Not(keep + [b]) == Not(keep) + [!b]
  {
  }

  /** A prefix one element longer. */
  lemma PrefixSnoc<T>(xs: seq<T>, i: nat)
    requires i < |xs|
    ensures xs[..i + 1] == xs[..i] + [xs[i]]
  {
  }

  /** Filtering one more element: it is kept at the end exactly when its flag is set. */
  lemma KeepSnoc<T>(xs: seq<T>, keep: seq<bool>, x: T, b: bool)
    requires |keep| == |xs|
    ensures Keep(xs + [x], keep + [b]) == Keep(xs, keep) + if b then [x] else []
    ensures Count(keep + [b]) == Count(keep) + if b then 1 else 0
  {
    assert (xs + [x])[..|xs|] == xs;
    assert (keep + [b])[..|keep|] == keep;
  }

  /** Counting one more flag adds one exactly when it is set. */
  lemma CountSnoc(keep: seq<bool>, b: bool)
    ensures Count(keep + [b]) == Count(keep) + if b then 1 else 0
  {
    assert (keep + [b])[..|keep|] == keep;
  }

  /** Filtering one element further along a list: the prefix up to `i + 1` keeps the
      `i`-th element at its end exactly when its flag is set. */
  lemma KeepPrefixSnoc<T>(xs: seq<T>, keep: seq<bool>, i: nat, b: bool)
    requires i < |xs| && |keep| == i
    ensures Keep(xs[..i + 1], keep + [b]) == Keep(xs[..i], keep) + if b then [xs[i]] else []
  {
    assert xs[..i + 1] == xs[..i] + [xs[i]];
    KeepSnoc(xs[..i], keep, xs[i], b);
  }

  /** The same step with the flags read off one list of flags for the whole of `xs`. */
  lemma KeepPrefixStep<T>(xs: seq<T>, keep: seq<bool>, i: nat)
    requires i < |xs| == |keep|
    ensures Keep(xs[..i + 1], keep[..i + 1]) == Keep(xs[..i], keep[..i]) + if keep[i] then [xs[i]] else []
  {
    assert keep[..i + 1] == keep[..i] + [keep[i]];
    KeepPrefixSnoc(xs, keep[..i], i, keep[i]);
  }

  /** An element survives the filter exactly when some occurrence of it is flagged. */
  lemma {:induction false} KeepMember<T>(xs: seq<T>, keep: seq<bool>, x: T)
    requires |keep| == |xs|
    ensures x in Keep(xs, keep) <==> exists i :: 0 <= i < |xs| && keep[i] && xs[i] == x
  {
    if xs != [] {
      var n := |xs| - 1;
      var init, k := xs[..n], keep[..n];
      KeepMember(init, k, x);
      var tail := if keep[n] then [xs[n]] else [];
      assert Keep(xs, keep) == Keep(init, k) + tail;
      assert x in Keep(xs, keep) <==> x in Keep(init, k) || x in tail;
      assert x in tail <==> keep[n] && xs[n] == x;
      assert (exists i :: 0 <= i < n && k[i] && init[i] == x) <==> (exists i :: 0 <= i < n && keep[i] && xs[i] == x);
    }
  }

  /** Filtering keeps a list free of repeats. */
  lemma {:induction false} KeepDistinct<T>(xs: seq<T>, keep: seq<bool>)
    requires |keep| == |xs| && Distinct(xs)
    ensures Distinct(Keep(xs, keep))
  {
    if xs != [] {
      var n := |xs| - 1;
      assert Distinct(xs[..n]);
      KeepDistinct(xs[..n], keep[..n]);
      if keep[n] {
        KeepMember(xs[..n], keep[..n], xs[n]);
        DistinctAppend(Keep(xs[..n], keep[..n]), xs[n]);
      }
    }
  }

  /** A filter whose every flag is set keeps the whole list. */
  lemma {:induction false} KeepAll<T>(xs: seq<T>, keep: seq<bool>)
    requires |keep| == |xs| && forall i :: 0 <= i < |keep| ==> keep[i]
    ensures Keep(xs, keep) == xs
  {
    if xs != [] {
      var n := |xs| - 1;
      KeepAll(xs[..n], keep[..n]);
      assert xs[..n] + [xs[n]] == xs;
    }
  }

  /** `r` is `xs` with some elements left out and the rest in their original order. */
  predicate Sublist<T(==)>(r: seq<T>, xs: seq<T>)
    decreases |xs|
  {
    r == [] ||
    (xs != [] &&
     (Sublist(r, xs[..|xs| - 1]) || (r[|r| - 1] == xs[|xs| - 1] && Sublist(r[..|r| - 1], xs[..|xs| - 1]))))
  }

  /** A filter keeps the order of what it keeps. */
  lemma {:induction false} KeepSublist<T>(xs: seq<T>, keep: seq<bool>)
    requires |keep| == |xs|
    ensures Sublist(Keep(xs, keep), xs)
  {
    if xs != [] {
      var n := |xs| - 1;
      KeepSublist(xs[..n], keep[..n]);
      var r := Keep(xs, keep);
      if keep[n] {
        assert r == Keep(xs[..n], keep[..n]) + [xs[n]];
        assert r[..|r| - 1] == Keep(xs[..n], keep[..n]) && r[|r| - 1] == xs[n];
      } else {
        assert r == Keep(xs[..n], keep[..n]);
      }
    }
  }

  /** A list without repeats has every element at most once in its multiset. */
  lemma {:induction false} DistinctCounts<T>(s: seq<T>)
    ensures Distinct(s) <==> forall x :: multiset(s)[x] <= 1
  {
    if s != [] {
      var n := |s| - 1;
      DistinctCounts(s[..n]);
      assert s == s[..n] + [s[n]];
      assert multiset(s) == multiset(s[..n]) + multiset{s[n]};
      if Distinct(s) {
        assert Distinct(s[..n]);
        assert s[n] !in s[..n];
      } else if Distinct(s[..n]) {
        var i, j :| 0 <= i < j < |s| && s[i] == s[j];
        assert j == n && s[i] in s[..n];
        assert multiset(s)[s[n]] >= 2;
      } else {
        var x :| multiset(s[..n])[x] > 1;
        assert multiset(s)[x] > 1;
      }
    }
  }

  /** Reordering a list without repeats gives a list without repeats. */
  lemma PermutationDistinct<T>(s: seq<T>, t: seq<T>)
    requires multiset(s) == multiset(t) && Distinct(s)
    ensures Distinct(t)
  {
    DistinctCounts(s);
    DistinctCounts(t);
  }
}
