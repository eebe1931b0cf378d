/**
 * Sequence operations shared by the tools: a stable sort driven by a
 * comparator (the model of Array.prototype.sort / list.sort), filtering,
 * and the prefix slice `s.slice(0, n)` / `s[:n]`, whose negative `n`
 * counts from the end in both JavaScript and Python.
 */
module Seqs {
  /** `before(a, b)`: `a` may be placed before `b`.  A sort comparator must be total and transitive. */
  ghost predicate TotalPreorder<T(!new)>(before: (T, T) -> bool) {
    && (forall a, b :: before(a, b) || before(b, a))
    && (forall a, b, c :: before(a, b) && before(b, c) ==> before(a, c))
  }

  lemma Reflexive<T(!new)>(before: (T, T) -> bool, a: T)
    requires TotalPreorder(before)
    ensures before(a, a)
  {
  }

  predicate SortedBy<T>(s: seq<T>, before: (T, T) -> bool) {
    forall i, j :: 0 <= i < j < |s| ==> before(s[i], s[j])
  }

  /** Inserts `x` in front of the first element it may precede (so equal elements keep their order). */
  function Insert<T>(x: T, s: seq<T>, before: (T, T) -> bool): (r: seq<T>)
    ensures |r| == |s| + 1
    ensures multiset(r) == multiset(s) + multiset{x}
  {
    if s == [] then [x]
    else if before(x, s[0]) then [x] + s
    else
      assert s == [s[0]] + s[1..];
      [s[0]] + Insert(x, s[1..], before)
  }

  /** A stable insertion sort. */
  function SortBy<T>(s: seq<T>, before: (T, T) -> bool): (r: seq<T>)
    ensures |r| == |s|
    ensures multiset(r) == multiset(s)
  {
    if s == [] then []
    else
      assert s == [s[0]] + s[1..];
      Insert(s[0], SortBy(s[1..], before), before)
  }

  /** A sorted sequence may be extended at the front by an element that may precede all of it. */
  lemma ConsSorted<T>(a: T, t: seq<T>, before: (T, T) -> bool)
    requires SortedBy(t, before)
    requires forall y :: y in t ==> before(a, y)
    ensures SortedBy([a] + t, before)
  {
    var r := [a] + t;
    forall i, j | 0 <= i < j < |r|
      ensures before(r[i], r[j])
    {
      if i == 0 {
        assert r[j] == t[j - 1];
      } else {
        assert r[i] == t[i - 1] && r[j] == t[j - 1];
      }
    }
  }

  /** The head of a sorted sequence may precede everything in the insertion of `x` into its tail, when it may precede `x`. */
  lemma HeadBeforeInsert<T(!new)>(x: T, s: seq<T>, before: (T, T) -> bool)
    requires TotalPreorder(before)
    requires SortedBy(s, before) && s != [] && before(s[0], x)
    ensures forall y :: y in Insert(x, s[1..], before) ==> before(s[0], y)
  {
    var tail := Insert(x, s[1..], before);
    forall y | y in tail
      ensures before(s[0], y)
    {
      assert y in multiset(tail);
      assert y == x || y in multiset(s[1..]);
      if y != x {
        var k :| 0 <= k < |s[1..]| && s[1..][k] == y;
        assert s[k + 1] == y;
      }
    }
  }

  lemma {:induction false} InsertSorted<T(!new)>(x: T, s: seq<T>, before: (T, T) -> bool)
    requires TotalPreorder(before)
    requires SortedBy(s, before)
    ensures SortedBy(Insert(x, s, before), before)
  {
    if s == [] {
    } else if before(x, s[0]) {
      forall y | y in s
        ensures before(x, y)
      {
        var k :| 0 <= k < |s| && s[k] == y;
        assert k == 0 || before(s[0], s[k]);
      }
      ConsSorted(x, s, before);
    } else {
      InsertSorted(x, s[1..], before);
      HeadBeforeInsert(x, s, before);
      ConsSorted(s[0], Insert(x, s[1..], before), before);
    }
  }

  lemma {:induction false} SortBySorted<T(!new)>(s: seq<T>, before: (T, T) -> bool)
    requires TotalPreorder(before)
    ensures SortedBy(SortBy(s, before), before)
  {
    if s != [] {
      SortBySorted(s[1..], before);
      InsertSorted(s[0], SortBy(s[1..], before), before);
    }
  }

  /** The first element of a sorted copy is an element of the input that may precede every element. */
  lemma SortByHeadIsLeast<T(!new)>(s: seq<T>, before: (T, T) -> bool)
    requires TotalPreorder(before)
    requires |s| > 0
    ensures SortBy(s, before)[0] in s
    ensures forall x :: x in s ==> before(SortBy(s, before)[0], x)
  {
    var r := SortBy(s, before);
    SortBySorted(s, before);
    assert r[0] in multiset(s);
    forall x | x in s
      ensures before(r[0], x)
    {
      assert x in multiset(r);
      var k :| 0 <= k < |r| && r[k] == x;
      if k == 0 {
        Reflexive(before, x);
      }
    }
  }

  /** Removing one element keeps a sequence sorted. */
  lemma RemoveAtSorted<T>(t: seq<T>, p: nat, before: (T, T) -> bool)
    requires p < |t|
    requires SortedBy(t, before)
    ensures SortedBy(t[..p] + t[p + 1..], before)
  {
    var t' := t[..p] + t[p + 1..];
    forall i, j | 0 <= i < j < |t'|
      ensures before(t'[i], t'[j])
    {
      var i0 := if i < p then i else i + 1;
      var j0 := if j < p then j else j + 1;
      assert t'[i] == t[i0] && t'[j] == t[j0];
    }
  }

  /** In a sorted `t` whose head is tied with `t[p]`, every element up to `p` is tied with `t[p]`. */
  lemma TiedPrefix<T(!new)>(t: seq<T>, p: nat, before: (T, T) -> bool)
    requires TotalPreorder(before)
    requires p < |t| && SortedBy(t, before)
    requires before(t[p], t[0])
    ensures forall q :: 0 <= q <= p ==> before(t[q], t[p]) && before(t[p], t[q])
  {
    forall q | 0 <= q <= p
      ensures before(t[q], t[p]) && before(t[p], t[q])
    {
      if q == p {
        Reflexive(before, t[p]);
      } else {
        assert before(t[q], t[p]);
        if q > 0 { assert before(t[0], t[q]); }
      }
    }
  }

  /** Taking the head of `s` out of `t`, where it sits at `p`, leaves a permutation of the rest of `s`. */
  lemma RemoveHead<T>(s: seq<T>, t: seq<T>, p: nat)
    requires multiset(s) == multiset(t)
    requires 0 < |s| && p < |t| && t[p] == s[0]
    ensures multiset(t[..p] + t[p + 1..]) == multiset(s[1..])
  {
    var x := s[0];
    assert t == t[..p] + [x] + t[p + 1..];
    assert s == [x] + s[1..];
    assert multiset(t) == multiset(t[..p]) + multiset{x} + multiset(t[p + 1..]);
    assert multiset(s) == multiset{x} + multiset(s[1..]);
    var rest := multiset(t[..p] + t[p + 1..]);
    assert rest == multiset(t[..p]) + multiset(t[p + 1..]);
    forall y ensures rest[y] == multiset(s[1..])[y] {
      assert multiset(t)[y] == rest[y] + multiset{x}[y];
      assert multiset(s)[y] == multiset(s[1..])[y] + multiset{x}[y];
    }
  }

  /** Stepping from the agreement of the tails to the agreement of the whole sequences. */
  lemma AgreeCons<T(!new)>(s: seq<T>, t: seq<T>, p: nat, before: (T, T) -> bool)
    requires TotalPreorder(before)
    requires SortedBy(t, before)
    requires 0 < |s| == |t| && p < |t| && t[p] == s[0]
    requires before(s[0], t[0])
    requires forall i :: 0 <= i < |s| - 1 ==>
      before(s[1..][i], (t[..p] + t[p + 1..])[i]) && before((t[..p] + t[p + 1..])[i], s[1..][i])
    ensures forall i :: 0 <= i < |s| ==> before(s[i], t[i]) && before(t[i], s[i])
  {
    var x := s[0];
    var t' := t[..p] + t[p + 1..];
    TiedPrefix(t, p, before);
    forall i | 0 <= i < |s|
      ensures before(s[i], t[i]) && before(t[i], s[i])
    {
      if i == 0 {
      } else if i <= p {
        assert s[i] == s[1..][i - 1] && t'[i - 1] == t[i - 1];
        assert before(s[i], t[i - 1]) && before(t[i - 1], s[i]);
        assert before(t[i - 1], x) && before(x, t[i - 1]);
        assert before(t[i], x) && before(x, t[i]);
      } else {
        assert s[i] == s[1..][i - 1] && t'[i - 1] == t[i];
      }
    }
  }

  /**
   * Two sorted permutations of one another agree position by position up
   * to the comparator's ties: the sorted order is determined by the input
   * multiset, except between elements the comparator cannot tell apart.
   */
  lemma {:induction false} SortedPermutationsAgree<T(!new)>(s: seq<T>, t: seq<T>, before: (T, T) -> bool)
    requires TotalPreorder(before)
    requires SortedBy(s, before) && SortedBy(t, before)
    requires multiset(s) == multiset(t)
    ensures |s| == |t|
    ensures forall i :: 0 <= i < |s| ==> before(s[i], t[i]) && before(t[i], s[i])
  {
    assert |s| == |multiset(s)| == |multiset(t)| == |t|;
    if |s| > 0 {
      var x := s[0];
      assert x in multiset(t);
      var p :| 0 <= p < |t| && t[p] == x;
      var t' := t[..p] + t[p + 1..];
      RemoveHead(s, t, p);
      RemoveAtSorted(t, p, before);
      SortedPermutationsAgree(s[1..], t', before);
      assert t[0] in multiset(s);
      var k0 :| 0 <= k0 < |s| && s[k0] == t[0];
      assert before(x, t[0]) by {
        if k0 == 0 { Reflexive(before, x); }
      }
      AgreeCons(s, t, p, before);
    }
  }

  /** The elements of `s` satisfying `p`, in their original order. */
  function Filter<T(!new)>(s: seq<T>, p: T -> bool): (r: seq<T>)
    ensures |r| <= |s|
    ensures forall x :: x in r <==> x in s && p(x)
  {
    if s == [] then []
    else
      var init := Filter(s[..|s| - 1], p);
      assert forall x :: x in s <==> x in s[..|s| - 1] || x == s[|s| - 1];
      if p(s[|s| - 1]) then init + [s[|s| - 1]] else init
  }

  lemma ConcatAssoc<T>(a: seq<T>, b: seq<T>, c: seq<T>)
    ensures a + b + c == a + (b + c)
  {
  }

  lemma ConcatEmpty<T>(a: seq<T>)
    ensures a + [] == a
  {
  }

  /** Overwriting position `i` with `x` trades one occurrence of `s[i]` for one of `x`. */
  lemma UpdateMultiset<T>(s: seq<T>, i: nat, x: T)
    requires i < |s|
    ensures multiset(s[i := x]) + multiset{s[i]} == multiset(s) + multiset{x}
  {
    assert s == s[..i] + [s[i]] + s[i + 1..];
    assert s[i := x] == s[..i] + [x] + s[i + 1..];
  }

  /** A suffix of a sorted sequence is sorted, is a sub-multiset, and follows everything it drops. */
  lemma SortedSuffix<T>(s: seq<T>, n: nat, before: (T, T) -> bool)
    requires n <= |s| && SortedBy(s, before)
    ensures SortedBy(s[n..], before)
    ensures multiset(s[n..]) <= multiset(s)
    ensures forall i, j :: 0 <= i < n <= j < |s| ==> before(s[i], s[j])
  {
    var t := s[n..];
    forall i, j | 0 <= i < j < |t| ensures before(t[i], t[j]) {
      assert t[i] == s[n + i] && t[j] == s[n + j];
    }
    assert s == s[..n] + t;
    assert multiset(s) == multiset(s[..n]) + multiset(t);
  }

  /** Sorting and keeping the last `n`: sorted, as many as fit, drawn from the input, and no earlier than what is dropped. */
  lemma SortThenLastN<T(!new)>(u: seq<T>, n: nat, before: (T, T) -> bool)
    requires n > 0 && TotalPreorder(before)
    ensures var all := SortBy(u, before);
            var kept := LastN(all, n);
            && SortedBy(kept, before)
            && |kept| == Min(n, |u|)
            && multiset(kept) <= multiset(u)
            && (forall i, j :: 0 <= i < |all| - |kept| <= j < |all| ==> before(all[i], all[j]))
  {
    var all := SortBy(u, before);
    SortBySorted(u, before);
    SortedSuffix(all, |all| - |LastN(all, n)|, before);
  }

  /** `s.map(f)`. */
  function Map<T, U>(f: T -> U, s: seq<T>): (r: seq<U>)
    ensures |r| == |s|
    ensures forall i :: 0 <= i < |s| ==> r[i] == f(s[i])
  {
    seq(|s|, i requires 0 <= i < |s| => f(s[i]))
  }

  /** `s.slice(0, n)` in JavaScript and `s[:n]` in Python for an integer `n`. */
  function SliceTo<T>(s: seq<T>, n: int): (r: seq<T>)
    ensures |r| <= |s| && r == s[..|r|]
    ensures n >= 0 ==> |r| == Min(n, |s|)
    ensures n < 0 ==> |r| == Max(0, |s| + n)
  {
    if n >= 0 then s[..Min(n, |s|)] else s[..Max(0, |s| + n)]
  }

  /** The last `n` elements (`s.slice(-n)` for positive `n`). */
  function LastN<T>(s: seq<T>, n: nat): (r: seq<T>)
    requires n > 0
    ensures |r| == Min(n, |s|)
    ensures r == s[|s| - |r|..]
  {
    if |s| > n then s[|s| - n..] else s
  }

  function Min(a: int, b: int): int { if a <= b then a else b }
  function Max(a: int, b: int): int { if a >= b then a else b }
}
