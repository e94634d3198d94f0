/** Candidates for injection: sorting them by rank, counting them, and subsequences of them. */
module Ranking {
  import opened Events
  import opened Sorting

  datatype Cand = Cand(ev: Event, session: bool, rank: nat)

  function RankOf(): Cand -> nat { (c: Cand) => c.rank }

  function OfRank(r: nat): Cand -> bool { HasRank(RankOf(), r) }

  function TurnOnly(): Cand -> bool { (c: Cand) => !c.session }

  /** The stable sort by rank; there are four ranks. */
  function ByPriority(s: seq<Cand>): seq<Cand> { ByRank(s, RankOf(), 4) }

  // ---------------------------------------------------------------- counting

  lemma {:induction false} KeepCount(s: seq<Cand>, f: Cand -> bool, x: Cand)
    ensures multiset(Keep(s, f))[x] == if f(x) then multiset(s)[x] else 0
  {
    if s != [] {
      KeepCount(s[..|s| - 1], f, x);
      assert s == s[..|s| - 1] + [s[|s| - 1]];
    }
  }

  /** The filtered parts of a permutation are permutations. */
  lemma KeepPermuted(a: seq<Cand>, b: seq<Cand>, f: Cand -> bool)
    requires multiset(a) == multiset(b)
    ensures multiset(Keep(a, f)) == multiset(Keep(b, f))
  {
    forall x: Cand ensures multiset(Keep(a, f))[x] == multiset(Keep(b, f))[x] {
      KeepCount(a, f, x);
      KeepCount(b, f, x);
    }
  }

  lemma KeepSplits(s: seq<Cand>, f: Cand -> bool, g: Cand -> bool)
    requires forall x: Cand :: g(x) == !f(x)
    ensures multiset(s) == multiset(Keep(s, f)) + multiset(Keep(s, g))
  {
    forall x: Cand ensures multiset(s)[x] == (multiset(Keep(s, f)) + multiset(Keep(s, g)))[x] {
      KeepCount(s, f, x);
      KeepCount(s, g, x);
    }
  }

  lemma {:induction false} ByRankCount(s: seq<Cand>, n: nat, x: Cand)
    ensures multiset(ByRank(s, RankOf(), n))[x] == if x.rank < n then multiset(s)[x] else 0
  {
    RanksFromZero(s, n);
    hide *;
    if n > 0 {
      var a, b := ByRank(s, RankOf(), n - 1), Keep(s, OfRank(n - 1));
      ByRankCount(s, n - 1, x);
      KeepCount(s, OfRank(n - 1), x);
      RankHere(x, n - 1);
      CountAppend(a, b, x);
    }
  }

  lemma RanksFromZero(s: seq<Cand>, n: nat)
    ensures ByRank(s, RankOf(), n) == if n == 0 then [] else ByRank(s, RankOf(), n - 1) + Keep(s, OfRank(n - 1))
  {
    hide Keep, HasRank;
  }

  lemma CountAppend(a: seq<Cand>, b: seq<Cand>, x: Cand)
    ensures multiset(a + b)[x] == multiset(a)[x] + multiset(b)[x]
  {
  }

  lemma RankHere(x: Cand, r: nat)
    ensures OfRank(r)(x) == (x.rank == r)
  {
  }

  lemma ByPriorityPermutes(s: seq<Cand>)
    requires Below(s, RankOf(), 4)
    ensures multiset(ByPriority(s)) == multiset(s)
  {
    forall x: Cand ensures multiset(ByPriority(s))[x] == multiset(s)[x] {
      ByRankCount(s, 4, x);
      hide ByRank;
      if x in s { var i :| 0 <= i < |s| && s[i] == x; }
    }
  }

  // ---------------------------------------------------------------- subsequences

  /** a is b with some elements left out. */
  predicate Sub(a: seq<Cand>, b: seq<Cand>) {
    a == [] || (b != [] && (if a[|a| - 1] == b[|b| - 1] && Sub(a[..|a| - 1], b[..|b| - 1]) then true else Sub(a, b[..|b| - 1])))
  }

  lemma {:induction false} SubAppend(a: seq<Cand>, b: seq<Cand>, c: seq<Cand>, d: seq<Cand>)
    requires Sub(a, b) && Sub(c, d)
    ensures Sub(a + c, b + d)
    decreases |d|
  {
    if d == [] {
      assert a + c == a && b + d == b;
    } else {
      assert (b + d)[..|b + d| - 1] == b + d[..|d| - 1];
      if c == [] {
        SubAppend(a, b, [], d[..|d| - 1]);
      } else if c[|c| - 1] == d[|d| - 1] && Sub(c[..|c| - 1], d[..|d| - 1]) {
        SubAppend(a, b, c[..|c| - 1], d[..|d| - 1]);
        assert (a + c)[..|a + c| - 1] == a + c[..|c| - 1];
      } else {
        SubAppend(a, b, c, d[..|d| - 1]);
      }
    }
  }

  lemma {:induction false} SubTrans(a: seq<Cand>, b: seq<Cand>, c: seq<Cand>)
    requires Sub(a, b) && Sub(b, c)
    ensures Sub(a, c)
    decreases |b| + |c|
  {
    if a != [] && b != [] {
      if b[|b| - 1] == c[|c| - 1] && Sub(b[..|b| - 1], c[..|c| - 1]) {
        if a[|a| - 1] == b[|b| - 1] && Sub(a[..|a| - 1], b[..|b| - 1]) {
          SubTrans(a[..|a| - 1], b[..|b| - 1], c[..|c| - 1]);
        } else {
          SubTrans(a, b[..|b| - 1], c[..|c| - 1]);
        }
      } else {
        SubTrans(a, b, c[..|c| - 1]);
      }
    }
  }

  lemma {:induction false} SubSelf(a: seq<Cand>)
    ensures Sub(a, a)
  {
    if a != [] { SubSelf(a[..|a| - 1]); }
  }

  lemma {:induction false} KeepIsSub(s: seq<Cand>, f: Cand -> bool)
    ensures Sub(Keep(s, f), s)
  {
    if s != [] {
      var r := Keep(s[..|s| - 1], f);
      KeepIsSub(s[..|s| - 1], f);
      assert (r + [s[|s| - 1]])[..|r|] == r;
    }
  }

  /** A subsequence stays one when both grow by the same elements at the end. */
  lemma SubArrives(a: seq<Cand>, b: seq<Cand>, c: seq<Cand>, more: seq<Cand>)
    requires Sub(a + b, c)
    ensures Sub(a + (b + more), c + more)
  {
    SubSelf(more);
    SubAppend(a + b, c, more, more);
    assert a + b + more == a + (b + more);
  }

  /** A subsequence stays one when its second half is thinned out and split in two. */
  lemma SubSettles(a: seq<Cand>, b: seq<Cand>, c: seq<Cand>, first: seq<Cand>, second: seq<Cand>)
    requires Sub(a + b, c) && Sub(first + second, b)
    ensures Sub((a + first) + second, c)
  {
    SubSelf(a);
    SubAppend(a, a, first + second, b);
    SubTrans(a + (first + second), a + b, c);
    assert (a + first) + second == a + (first + second);
  }

  /** Cutting a sorted list leaves nothing behind that outranks what comes before the cut. */
  lemma CutIsFair(s: seq<Cand>, n: nat, f: Cand -> bool)
    requires Sorted(s, RankOf()) && n <= |s|
    ensures forall i, j :: 0 <= i < n && 0 <= j < |Keep(s[n..], f)| ==> s[i].rank <= Keep(s[n..], f)[j].rank
  {
    hide Keep;
    var rest := Keep(s[n..], f);
    forall i, j | 0 <= i < n && 0 <= j < |rest| ensures s[i].rank <= rest[j].rank {
      var k := KeepFrom(s[n..], f, j);
      assert s[n + k] == rest[j];
    }
  }
}
