/** Filtering, and the stable sort by a small rank. */
module Sorting {

  function Keep<T>(s: seq<T>, f: T -> bool): (r: seq<T>)
    ensures |r| <= |s| && forall i :: 0 <= i < |r| ==> f(r[i])
  {
    if s == [] then []
    else
      var r := Keep(s[..|s| - 1], f);
      if f(s[|s| - 1]) then r + [s[|s| - 1]] else r
  }

  lemma {:induction false} KeepAppend<T>(a: seq<T>, b: seq<T>, f: T -> bool)
    ensures Keep(a + b, f) == Keep(a, f) + Keep(b, f)
  {
    if b == [] {
      assert a + b == a;
    } else {
      KeepAppend(a, b[..|b| - 1], f);
      assert (a + b)[..|a + b| - 1] == a + b[..|b| - 1];
    }
  }

  lemma {:induction false} KeepAll<T>(s: seq<T>, f: T -> bool)
    requires forall i :: 0 <= i < |s| ==> f(s[i])
    ensures Keep(s, f) == s
  {
    if s != [] {
      KeepAll(s[..|s| - 1], f);
      assert s == s[..|s| - 1] + [s[|s| - 1]];
    }
  }

  lemma {:induction false} KeepNone<T>(s: seq<T>, f: T -> bool)
    requires forall i :: 0 <= i < |s| ==> !f(s[i])
    ensures Keep(s, f) == []
  {
    if s != [] { KeepNone(s[..|s| - 1], f); }
  }

  lemma KeepBack<T>(front: seq<T>, x: T, f: T -> bool)
    ensures Keep(front + [x], f) == if f(x) then Keep(front, f) + [x] else Keep(front, f)
  {
    assert (front + [x])[..|front|] == front;
  }

  /** Filters commute. */
  lemma {:induction false} KeepSwap<T>(s: seq<T>, f: T -> bool, g: T -> bool)
    ensures Keep(Keep(s, f), g) == Keep(Keep(s, g), f)
  {
    if s != [] {
      var front, x := s[..|s| - 1], s[|s| - 1];
      KeepSwap(front, f, g);
      KeepBack(Keep(front, f), x, g);
      KeepBack(Keep(front, g), x, f);
    }
  }

  lemma {:induction false} KeepFrom<T>(s: seq<T>, f: T -> bool, i: nat) returns (k: nat)
    requires i < |Keep(s, f)|
    ensures k < |s| && s[k] == Keep(s, f)[i]
  {
    if i < |Keep(s[..|s| - 1], f)| {
      k := KeepFrom(s[..|s| - 1], f, i);
    } else {
      k := |s| - 1;
    }
  }

  // ---------------------------------------------------------------- sorting

  function HasRank<T>(rank: T -> nat, r: nat): T -> bool { (x: T) => rank(x) == r }

  /** The elements of rank below n: those of rank 0 first, then those of rank 1, and so on. */
  function ByRank<T>(s: seq<T>, rank: T -> nat, n: nat): seq<T> {
    if n == 0 then [] else ByRank(s, rank, n - 1) + Keep(s, HasRank(rank, n - 1))
  }

  ghost predicate Below<T>(s: seq<T>, rank: T -> nat, n: nat) { forall i :: 0 <= i < |s| ==> rank(s[i]) < n }

  ghost predicate Sorted<T>(s: seq<T>, rank: T -> nat) {
    forall i, j :: 0 <= i < j < |s| ==> rank(s[i]) <= rank(s[j])
  }

  lemma {:induction false} ByRankSorts<T>(s: seq<T>, rank: T -> nat, n: nat)
    ensures Sorted(ByRank(s, rank, n), rank) && Below(ByRank(s, rank, n), rank, n)
  {
    if n > 0 {
      ByRankSorts(s, rank, n - 1);
      var a, b := ByRank(s, rank, n - 1), Keep(s, HasRank(rank, n - 1));
      assert forall i :: 0 <= i < |b| ==> HasRank(rank, n - 1)(b[i]);
      hide Keep, ByRank;
      SortedParts(a, b, rank, n - 1);
      assert ByRank(s, rank, n) == a + b;
    }
  }

  lemma SortedParts<T>(a: seq<T>, b: seq<T>, rank: T -> nat, r: nat)
    requires Sorted(a, rank) && Below(a, rank, r) && forall i :: 0 <= i < |b| ==> rank(b[i]) == r
    ensures Sorted(a + b, rank) && Below(a + b, rank, r + 1)
  {
  }

  lemma {:induction false} ByRankFrom<T>(s: seq<T>, rank: T -> nat, n: nat, i: nat) returns (k: nat)
    requires i < |ByRank(s, rank, n)|
    ensures k < |s| && s[k] == ByRank(s, rank, n)[i]
  {
    var a := ByRank(s, rank, n - 1);
    if i < |a| {
      k := ByRankFrom(s, rank, n - 1, i);
    } else {
      k := KeepFrom(s, HasRank(rank, n - 1), i - |a|);
    }
  }

  lemma KeepOfRank<T>(s: seq<T>, rank: T -> nat, q: nat, r: nat)
    ensures Keep(Keep(s, HasRank(rank, q)), HasRank(rank, r)) == if q == r then Keep(s, HasRank(rank, r)) else []
  {
    var b := Keep(s, HasRank(rank, q));
    assert forall i :: 0 <= i < |b| ==> HasRank(rank, q)(b[i]);
    hide Keep;
    if q == r { KeepAll(b, HasRank(rank, r)); } else { KeepNone(b, HasRank(rank, r)); }
  }

  /** Sorting keeps the order within each rank. */
  lemma {:induction false} ByRankKeepsOrder<T>(s: seq<T>, rank: T -> nat, n: nat, r: nat)
    ensures Keep(ByRank(s, rank, n), HasRank(rank, r)) == if r < n then Keep(s, HasRank(rank, r)) else []
  {
    hide Keep, HasRank, ByRank;
    if n == 0 {
      ByRankNone(s, rank, HasRank(rank, r));
    } else {
      ByRankStep(s, rank, n);
      var a, b := ByRank(s, rank, n - 1), Keep(s, HasRank(rank, n - 1));
      ByRankKeepsOrder(s, rank, n - 1, r);
      KeepAppend(a, b, HasRank(rank, r));
      KeepOfRank(s, rank, n - 1, r);
      assert Keep(a, HasRank(rank, r)) + [] == Keep(a, HasRank(rank, r)) && [] + Keep(b, HasRank(rank, r)) == Keep(b, HasRank(rank, r));
    }
  }

  lemma ByRankNone<T>(s: seq<T>, rank: T -> nat, f: T -> bool)
    ensures Keep(ByRank(s, rank, 0), f) == []
  {
  }

  lemma ByRankStep<T>(s: seq<T>, rank: T -> nat, n: nat)
    requires n > 0
    ensures ByRank(s, rank, n) == ByRank(s, rank, n - 1) + Keep(s, HasRank(rank, n - 1))
  {
    hide Keep, HasRank;
  }

  /** A last element of the highest rank comes last. */
  lemma {:induction false} ByRankBack<T>(front: seq<T>, x: T, rank: T -> nat, n: nat)
    requires forall i :: 0 <= i < |front| ==> rank(front[i]) <= rank(x)
    ensures ByRank(front + [x], rank, n) == ByRank(front, rank, n) + if rank(x) < n then [x] else []
  {
    if n > 0 {
      ByRankBack(front, x, rank, n - 1);
      KeepBack(front, x, HasRank(rank, n - 1));
      if rank(x) < n - 1 { KeepNone(front, HasRank(rank, n - 1)); }
    }
  }

  lemma {:induction false} SortedIsByRank<T>(t: seq<T>, rank: T -> nat, n: nat)
    requires Sorted(t, rank) && Below(t, rank, n)
    ensures t == ByRank(t, rank, n)
  {
    if t != [] {
      var front, x := t[..|t| - 1], t[|t| - 1];
      SortedIsByRank(front, rank, n);
      hide ByRank;
      ByRankBack(front, x, rank, n);
      assert t == front + [x];
    } else {
      EmptyByRank<T>(rank, n);
    }
  }

  lemma {:induction false} EmptyByRank<T>(rank: T -> nat, n: nat)
    ensures ByRank<T>([], rank, n) == []
  {
    if n > 0 { EmptyByRank<T>(rank, n - 1); }
  }

  lemma {:induction false} SameParts<T>(s: seq<T>, t: seq<T>, rank: T -> nat, n: nat)
    requires forall r: nat :: r < n ==> Keep(s, HasRank(rank, r)) == Keep(t, HasRank(rank, r))
    ensures ByRank(s, rank, n) == ByRank(t, rank, n)
  {
    if n > 0 { SameParts(s, t, rank, n - 1); }
  }

  /** ByRank is the stable sort: t is sorted by rank and keeps the order of s within each rank exactly when it is ByRank
      of s. */
  lemma StableSort<T>(s: seq<T>, t: seq<T>, rank: T -> nat, n: nat)
    ensures t == ByRank(s, rank, n) <==>
              && Sorted(t, rank) && Below(t, rank, n)
              && forall r: nat :: r < n ==> Keep(t, HasRank(rank, r)) == Keep(s, HasRank(rank, r))
  {
    hide Keep, HasRank, Sorted, Below, ByRank;
    ByRankSorts(s, rank, n);
    forall r: nat | r < n ensures Keep(ByRank(s, rank, n), HasRank(rank, r)) == Keep(s, HasRank(rank, r)) {
      ByRankKeepsOrder(s, rank, n, r);
    }
    if Sorted(t, rank) && Below(t, rank, n)
       && forall r: nat :: r < n ==> Keep(t, HasRank(rank, r)) == Keep(s, HasRank(rank, r)) {
      SortedIsByRank(t, rank, n);
      SameParts(t, s, rank, n);
    }
  }
}
