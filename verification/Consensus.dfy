/** Self-consistency voting: workers draw one turn several times, and the most common answer wins.

The pool of workers is a state machine over the points where workers touch shared state; the vote is a class,
because tallying fills its fields. R is what a finished draw produced. */
module Consensus {
  import opened Wrappers

  /** One slot: a finished draw has a result, a failed one the text of its error, which may be empty. */
  datatype Draw<+R> = Draw(result: Option<R>, key: string, ok: bool, err: string)

  function Empty<R>(): Draw<R> { Draw(None, "", false, "") }

  predicate Filled<R>(d: Draw<R>) { d.result.Some? || d.err != "" }

  // ---------------------------------------------------------------- the worker pool

  /** Where a worker stands: about to claim, holding draw i, holding i with the context over, about to report a stop. */
  datatype Worker = Claiming | Holding(i: nat) | Failing(i: nat, why: string) | Stopping(why: string) | Exited

  /** claims and reports are the history of the run: the draws claimed, in order, and what each draw that ended came to. */
  datatype Pool<+R> = Pool(n: nat, next: nat, stopped: Option<string>, slots: seq<Draw<R>>, workers: seq<Worker>,
                           claims: seq<nat>, reports: map<nat, Draw<R>>)

  datatype Step<+R> =
    | Claim(w: nat)
    | ContextOver(w: nat, why: string)
    | NoteFailure(w: nat)
    | Finish(w: nat, d: Draw<R>, stop: Option<string>)
    | ReportStop(w: nat)

  function Init<R>(n: nat, par: nat): Pool<R> {
    Pool(n, 0, None, seq(n, _ => Empty()), seq(par, _ => Claiming), [], map[])
  }

  predicate Enabled<R>(p: Pool<R>, st: Step<R>) {
    && st.w < |p.workers|
    && match st
       case Claim(w) => p.workers[w] == Claiming
       case ContextOver(w, why) => p.workers[w].Holding?
       case NoteFailure(w) => p.workers[w].Failing? && p.workers[w].i < |p.slots|
       case Finish(w, d, stop) =>
         && p.workers[w].Holding? && p.workers[w].i < |p.slots|
         && (stop.Some? ==> d.result.None?) && (d.ok ==> d.result.Some?)
       case ReportStop(w) => p.workers[w].Stopping?
  }

  function OrElse(a: Option<string>, why: string): Option<string> { if a.Some? then a else Some(why) }

  function Next<R>(p: Pool<R>, st: Step<R>): Pool<R>
    requires Enabled(p, st)
  {
    match st
    case Claim(w) =>
      if p.stopped.Some? || p.next >= p.n then p.(workers := p.workers[w := Exited])
      else p.(workers := p.workers[w := Holding(p.next)], next := p.next + 1, claims := p.claims + [p.next])
    case ContextOver(w, why) =>
      p.(workers := p.workers[w := Failing(p.workers[w].i, why)], stopped := OrElse(p.stopped, why))
    case NoteFailure(w) =>
      var i := p.workers[w].i;
      var d := p.slots[i].(err := p.workers[w].why);
      p.(workers := p.workers[w := Claiming], slots := p.slots[i := d], reports := p.reports[i := d])
    case Finish(w, d, stop) =>
      p.(workers := p.workers[w := if stop.Some? then Stopping(stop.value) else Claiming],
         slots := p.slots[p.workers[w].i := d], reports := p.reports[p.workers[w].i := d])
    case ReportStop(w) =>
      p.(workers := p.workers[w := Claiming], stopped := OrElse(p.stopped, p.workers[w].why))
  }

  function Exec<R>(n: nat, par: nat, steps: seq<Step<R>>): (bool, Pool<R>)
    ensures |Exec(n, par, steps).1.workers| == par && |Exec(n, par, steps).1.slots| == n
  {
    if steps == [] then (true, Init(n, par))
    else
      var (ok, p) := Exec(n, par, steps[..|steps| - 1]);
      var st := steps[|steps| - 1];
      if ok && Enabled(p, st) then (true, Next(p, st)) else (false, p)
  }

  predicate Holds(k: Worker, i: nat) { (k.Holding? || k.Failing?) && k.i == i }

  /** Who holds what: draws are claimed in order, and each is held by one worker at most. */
  ghost predicate ClaimsOk<R>(n: nat, par: nat, p: Pool<R>) {
    && p.n == n && |p.workers| == par && |p.slots| == n && p.next <= n
    && p.claims == seq(p.next, i => i)
    && (forall w :: 0 <= w < par && (p.workers[w].Holding? || p.workers[w].Failing?) ==> p.workers[w].i < p.next)
    && (forall v, w, i: nat :: 0 <= v < w < par && Holds(p.workers[v], i) ==> !Holds(p.workers[w], i))
    && (forall w :: 0 <= w < par && p.workers[w] == Exited ==> p.stopped.Some? || p.next == n)
  }

  /** What the slots hold: a claimed draw is held or has its report, and the others are empty. */
  ghost predicate SlotsOk<R>(n: nat, par: nat, p: Pool<R>)
    requires ClaimsOk(n, par, p)
  {
    && (forall i: nat :: i < p.next ==> i in p.reports || exists w :: 0 <= w < par && Holds(p.workers[w], i))
    && (forall i: nat :: i in p.reports ==> i < p.next && p.slots[i] == p.reports[i])
    && (forall i: nat, w :: i in p.reports && 0 <= w < par ==> !Holds(p.workers[w], i))
    && (forall i :: p.next <= i < n ==> p.slots[i] == Empty())
    && (forall i :: 0 <= i < n && p.slots[i].ok ==> p.slots[i].result.Some?)
  }

  ghost predicate Inv<R>(n: nat, par: nat, p: Pool<R>) { ClaimsOk(n, par, p) && SlotsOk(n, par, p) }

  lemma ClaimedStay<R>(n: nat, par: nat, p: Pool<R>, st: Step<R>)
    requires Inv(n, par, p) && Enabled(p, st)
    ensures var q := Next(p, st);
            forall i: nat :: i < q.next ==> i in q.reports || exists w :: 0 <= w < par && Holds(q.workers[w], i)
  {
    var q := Next(p, st);
    forall i: nat | i < q.next && i !in q.reports ensures exists w :: 0 <= w < par && Holds(q.workers[w], i) {
      if i < p.next {
        var w :| 0 <= w < par && Holds(p.workers[w], i);
        assert Holds(q.workers[w], i);
      } else {
        assert Holds(q.workers[st.w], i);
      }
    }
  }

  lemma ClaimsStep<R>(n: nat, par: nat, p: Pool<R>, st: Step<R>)
    requires ClaimsOk(n, par, p) && Enabled(p, st)
    ensures ClaimsOk(n, par, Next(p, st))
  {
    var q := Next(p, st);
    forall v, w, i: nat | 0 <= v < w < par && Holds(q.workers[v], i) ensures !Holds(q.workers[w], i) {
      if i < p.next {
        assert Holds(p.workers[v], i) ==> !Holds(p.workers[w], i);
      }
    }
  }

  /** No worker holds a draw that has its report. */
  lemma ReportedIsFree<R>(n: nat, par: nat, p: Pool<R>, st: Step<R>)
    requires Inv(n, par, p) && Enabled(p, st)
    ensures var q := Next(p, st); forall i: nat, w :: i in q.reports && 0 <= w < par ==> !Holds(q.workers[w], i)
  {
    var q := Next(p, st);
    forall i: nat, w | i in q.reports && 0 <= w < par ensures !Holds(q.workers[w], i) {
      if i !in p.reports {
        assert Holds(p.workers[st.w], i);
        if w < st.w && Holds(p.workers[w], i) { assert false; }
      }
    }
  }

  lemma StepKeeps<R>(n: nat, par: nat, p: Pool<R>, st: Step<R>)
    requires Inv(n, par, p) && Enabled(p, st)
    ensures Inv(n, par, Next(p, st))
  {
    ClaimsStep(n, par, p, st);
    ClaimedStay(n, par, p, st);
    var q := Next(p, st);
    assert st.Finish? || st.NoteFailure? ==> p.workers[st.w].i < p.next;
    forall i: nat | i in q.reports ensures i < q.next && q.slots[i] == q.reports[i] {
      assert i in p.reports || i == p.workers[st.w].i;
    }
    ReportedIsFree(n, par, p, st);
    assert forall i :: q.next <= i < n ==> q.slots[i] == Empty();
  }

  lemma {:induction false} ExecKeeps<R>(n: nat, par: nat, steps: seq<Step<R>>)
    requires Exec(n, par, steps).0
    ensures Inv(n, par, Exec(n, par, steps).1)
  {
    if steps != [] {
      hide Inv;
      var before := steps[..|steps| - 1];
      ExecKeeps(n, par, before);
      StepKeeps(n, par, Exec(n, par, before).1, steps[|steps| - 1]);
    }
  }

  /** For every schedule and any number of workers the draws claimed are 0, 1, 2 and so on, each once. */
  lemma ClaimsFormAPrefix<R>(n: nat, par: nat, steps: seq<Step<R>>)
    requires Exec(n, par, steps).0
    ensures var p := Exec(n, par, steps).1; p.next <= n && p.claims == seq(p.next, j => j)
  {
    ExecKeeps(n, par, steps);
  }

  /** No two workers ever hold one draw. */
  lemma OneHolderEach<R>(n: nat, par: nat, steps: seq<Step<R>>, v: nat, w: nat, i: nat)
    requires Exec(n, par, steps).0 && v < par && w < par
    requires Holds(Exec(n, par, steps).1.workers[v], i) && Holds(Exec(n, par, steps).1.workers[w], i)
    ensures v == w && i < Exec(n, par, steps).1.next
  {
    ExecKeeps(n, par, steps);
    var p := Exec(n, par, steps).1;
    hide Inv, Exec;
    SoleHolder(n, par, p, v, w, i);
  }

  lemma SoleHolder<R>(n: nat, par: nat, p: Pool<R>, v: nat, w: nat, i: nat)
    requires Inv(n, par, p) && v < par && w < par && Holds(p.workers[v], i) && Holds(p.workers[w], i)
    ensures v == w && i < p.next
  {
  }

  /** A report stands. */
  lemma {:induction false} ReportStands<R>(n: nat, par: nat, steps: seq<Step<R>>, more: seq<Step<R>>, i: nat)
    requires Exec(n, par, steps + more).0 && i in Exec(n, par, steps).1.reports
    ensures Exec(n, par, steps).0
    ensures var p, q := Exec(n, par, steps).1, Exec(n, par, steps + more).1;
            i in q.reports && q.reports[i] == p.reports[i]
    decreases |more|
  {
    if more == [] {
      assert steps + more == steps;
    } else {
      var m, st := more[..|more| - 1], more[|more| - 1];
      assert (steps + more)[..|steps + more| - 1] == steps + m;
      assert (steps + more)[|steps + more| - 1] == st;
      ReportStands(n, par, steps, m, i);
      ExecKeeps(n, par, steps + m);
      var p := Exec(n, par, steps + m).1;
      assert Exec(n, par, steps + more).1 == Next(p, st);
      hide Exec;
      assert !Holds(p.workers[st.w], i);
    }
  }

  /** What a worker draws is what its draw holds from then on, and an error that ended the context is its draw's error; so
      each slot ends with what its own draw came to. */
  lemma DrawIsKept<R>(n: nat, par: nat, steps: seq<Step<R>>, st: Step<R>, more: seq<Step<R>>)
    requires Exec(n, par, steps + [st] + more).0 && (st.Finish? || st.NoteFailure?)
    ensures Exec(n, par, steps).0 && Enabled(Exec(n, par, steps).1, st)
    ensures var k, q := Exec(n, par, steps).1.workers[st.w], Exec(n, par, steps + [st] + more).1;
            && k.i < n
            && (st.Finish? ==> q.slots[k.i] == st.d)
            && (st.NoteFailure? ==> q.slots[k.i] == Draw(None, "", false, k.why))
  {
    var all := steps + [st];
    PrefixRuns(n, par, all, more);
    PrefixRuns(n, par, steps, [st]);
    assert all[..|steps|] == steps;
    var p, k := Exec(n, par, steps).1, Exec(n, par, steps).1.workers[st.w];
    assert Exec(n, par, all).1 == Next(p, st);
    ExecKeeps(n, par, steps);
    ReportStands(n, par, all, more, k.i);
    ExecKeeps(n, par, all + more);
    EmptyUntilReported(n, par, steps, k.i);
    hide Exec;
  }

  lemma {:induction false} PrefixRuns<R>(n: nat, par: nat, steps: seq<Step<R>>, more: seq<Step<R>>)
    requires Exec(n, par, steps + more).0
    ensures Exec(n, par, steps).0
    decreases |more|
  {
    if more == [] {
      assert steps + more == steps;
    } else {
      assert (steps + more)[..|steps + more| - 1] == steps + more[..|more| - 1];
      PrefixRuns(n, par, steps, more[..|more| - 1]);
    }
  }

  lemma {:induction false} EmptyUntilReported<R>(n: nat, par: nat, steps: seq<Step<R>>, i: nat)
    requires Exec(n, par, steps).0 && i < n && i !in Exec(n, par, steps).1.reports
    ensures Exec(n, par, steps).1.slots[i] == Empty()
  {
    if steps != [] { EmptyUntilReported(n, par, steps[..|steps| - 1], i); }
  }

  /** Nothing is claimed after a stop, and the first reason stands. */
  lemma {:induction false} NoClaimsAfterStop<R>(n: nat, par: nat, steps: seq<Step<R>>, more: seq<Step<R>>)
    requires Exec(n, par, steps + more).0 && Exec(n, par, steps).1.stopped.Some?
    ensures Exec(n, par, steps).0
    ensures var p, q := Exec(n, par, steps).1, Exec(n, par, steps + more).1;
            q.claims == p.claims && q.next == p.next && q.stopped == p.stopped
    decreases |more|
  {
    if more == [] {
      assert steps + more == steps;
    } else {
      var m := more[..|more| - 1];
      assert (steps + more)[..|steps + more| - 1] == steps + m;
      NoClaimsAfterStop(n, par, steps, m);
    }
  }

  /** The slots once a draw that never ran has the stopping error. */
  function Settled<R>(slots: seq<Draw<R>>, stopped: Option<string>): (r: seq<Draw<R>>)
    ensures |r| == |slots|
  {
    seq(|slots|, i requires 0 <= i < |slots| =>
      if stopped.Some? && !Filled(slots[i]) then slots[i].(err := "not run: " + stopped.value) else slots[i])
  }

  /** Run's last loop: after a stop a slot without a result and without an error says that it was not run, and why; every
      other slot stays as it is. */
  method FillNotRun<R>(slots: seq<Draw<R>>, stopped: Option<string>) returns (r: seq<Draw<R>>)
    ensures r == Settled(slots, stopped) && |r| == |slots|
    ensures forall i :: 0 <= i < |r| ==>
              r[i] == if stopped.Some? && slots[i].result == None && slots[i].err == ""
                      then slots[i].(err := "not run: " + stopped.value) else slots[i]
  {
    r := slots;
    if stopped.Some? {
      for i := 0 to |r|
        invariant |r| == |slots|
        invariant forall j :: 0 <= j < i ==> r[j] == Settled(slots, stopped)[j]
        invariant forall j :: i <= j < |r| ==> r[j] == slots[j]
      {
        if r[i].result.None? && r[i].err == "" {
          r := r[i := r[i].(err := "not run: " + stopped.value)];
        }
      }
    }
  }

  /** Values below one mean one worker, and there are no more workers than draws. */
  function Workers(parallel: int, n: nat): (par: nat)
    ensures par <= n && (n > 0 ==> par > 0)
    ensures parallel >= n ==> par == n
    ensures 1 <= parallel < n ==> par == parallel
    ensures parallel < 1 <= n ==> par == 1
  {
    var least := if parallel < 1 then 1 else parallel;
    if least < n then least else n
  }

  /** When all workers are done, every draw that was claimed holds what it came to, and without a stop every draw was
      claimed. After the last loop a draw has a result or an error exactly when there was a stop, or it came to a result or
      to an error with a text: an error without one leaves an empty slot, and after a stop one that says "not run". */
  lemma EverySlotSettled<R>(n: nat, parallel: int, steps: seq<Step<R>>, i: nat)
    requires Exec(n, Workers(parallel, n), steps).0 && i < n
    requires forall w :: 0 <= w < Workers(parallel, n) ==> Exec(n, Workers(parallel, n), steps).1.workers[w] == Exited
    ensures var p := Exec(n, Workers(parallel, n), steps).1;
            && (i < p.next <==> i in p.reports) && (p.stopped.None? ==> i < p.next)
            && p.slots[i] == (if i < p.next then p.reports[i] else Empty())
            && (Filled(Settled(p.slots, p.stopped)[i]) <==> p.stopped.Some? || Filled(p.reports[i]))
  {
    var par := Workers(parallel, n);
    ExecKeeps(n, par, steps);
    var p := Exec(n, par, steps).1;
    assert p.workers[0] == Exited;
  }

  // ---------------------------------------------------------------- the vote

  function Count<R>(draws: seq<Draw<R>>, k: string): nat {
    if draws == [] then 0
    else var d := draws[|draws| - 1]; Count(draws[..|draws| - 1], k) + if d.ok && d.key == k then 1 else 0
  }

  function Counted<R>(draws: seq<Draw<R>>): nat {
    if draws == [] then 0
    else Counted(draws[..|draws| - 1]) + if draws[|draws| - 1].result.Some? then 1 else 0
  }

  /** The draws accepted with key k, and those that ran to completion. */
  ghost function With<R>(draws: seq<Draw<R>>, k: string): set<int> {
    set i | 0 <= i < |draws| && draws[i].ok && draws[i].key == k
  }

  ghost function Completed<R>(draws: seq<Draw<R>>): set<int> { set i | 0 <= i < |draws| && draws[i].result.Some? }

  lemma WithMore<R>(draws: seq<Draw<R>>, k: string)
    requires draws != []
    ensures var n := |draws| - 1; var d := draws[n];
            && n !in With(draws[..n], k) && n !in Completed(draws[..n])
            && With(draws, k) == With(draws[..n], k) + (if d.ok && d.key == k then {n} else {})
            && Completed(draws) == Completed(draws[..n]) + (if d.result.Some? then {n} else {})
  {
  }

  /** The counts are numbers of draws. */
  lemma {:induction false} CountsAreSizes<R>(draws: seq<Draw<R>>, k: string)
    ensures Count(draws, k) == |With(draws, k)| && Counted(draws) == |Completed(draws)|
  {
    if draws == [] {
      assert With(draws, k) == {} && Completed(draws) == {};
    } else {
      CountsAreSizes(draws[..|draws| - 1], k);
      WithMore(draws, k);
      hide With, Completed;
    }
  }

  predicate IsFirst<R>(draws: seq<Draw<R>>, k: string, i: int) {
    && 0 <= i < |draws| && draws[i].ok && draws[i].key == k
    && forall j :: 0 <= j < i && draws[j].ok ==> draws[j].key != k
  }

  /** What a vote is: the key most accepted draws share, ties going to the key drawn earliest. */
  ghost predicate IsVote<R>(draws: seq<Draw<R>>, key: string, agree: nat, winner: Option<R>) {
    && (forall k :: Count(draws, k) <= agree)
    && (agree == 0 ==> key == "" && winner == None)
    && (agree > 0 ==>
          && Count(draws, key) == agree
          && exists b :: IsFirst(draws, key, b) && winner == draws[b].result
                      && forall k, i :: IsFirst(draws, k, i) && Count(draws, k) == agree ==> b <= i)
  }

  lemma {:induction false} CountNone<R>(draws: seq<Draw<R>>, k: string)
    requires forall i :: 0 <= i < |draws| && draws[i].ok ==> draws[i].key != k
    ensures Count(draws, k) == 0
  {
    if draws != [] { CountNone(draws[..|draws| - 1], k); }
  }

  /** The vote does not depend on the order the counts are looked at: it is determined by the draws. */
  lemma VoteIsUnique<R>(draws: seq<Draw<R>>, k1: string, a1: nat, w1: Option<R>, k2: string, a2: nat, w2: Option<R>)
    requires IsVote(draws, k1, a1, w1) && IsVote(draws, k2, a2, w2)
    ensures k1 == k2 && a1 == a2 && w1 == w2
  {
    hide Count;
    if a1 > 0 {
      assert Count(draws, k1) <= a2;
      assert Count(draws, k2) <= a1;
      var b1 :| IsFirst(draws, k1, b1) && w1 == draws[b1].result
             && forall k, i :: IsFirst(draws, k, i) && Count(draws, k) == a1 ==> b1 <= i;
      var b2 :| IsFirst(draws, k2, b2) && w2 == draws[b2].result
             && forall k, i :: IsFirst(draws, k, i) && Count(draws, k) == a2 ==> b2 <= i;
      assert b1 == b2;
    }
  }

  /** Split says exactly that no key has a strict majority of the draws that ran to completion. */
  lemma SplitMeansNoMajority<R>(draws: seq<Draw<R>>, key: string, agree: nat, winner: Option<R>)
    requires IsVote(draws, key, agree, winner)
    ensures agree * 2 <= Counted(draws) <==> forall k :: Count(draws, k) * 2 <= Counted(draws)
  {
    hide Count, Counted;
    assert Count(draws, key) <= agree;
  }

  class ConsensusResult<R> {
    var draws: seq<Draw<R>>
    var winner: Option<R>
    var winnerKey: string
    var agree: nat
    var counted: nat
    var split: bool

    constructor (ds: seq<Draw<R>>)
      ensures draws == ds && winner == None && winnerKey == "" && agree == 0 && counted == 0
    {
      draws, winner, winnerKey, agree, counted, split := ds, None, "", 0, 0, false;
    }

    /** tally. */
    method Tally()
      requires winner == None && winnerKey == "" && agree == 0 && counted == 0
      modifies this
      ensures draws == old(draws) && counted == Counted(draws)
      ensures IsVote(draws, winnerKey, agree, winner)
      ensures split <==> agree * 2 <= counted
    {
      var counts, first := CountDraws();
      var best;
      winnerKey, agree, best := MostCommon(counts, first);
      hide Count, Counted;
      MostCommonIsVote(draws, counts, first, winnerKey, agree, best);
      if best >= 0 {
        winner := draws[best].result;
      }
      split := agree * 2 <= counted;
    }

    /** The first loop of tally: how often and where first each accepted key was drawn. */
    method CountDraws() returns (counts: map<string, nat>, first: map<string, nat>)
      requires counted == 0
      modifies this`counted
      ensures counted == Counted(draws) && Tallied(draws, counts, first)
    {
      counts, first := map[], map[];
      for i := 0 to |draws|
        invariant counted == Counted(draws[..i])
        invariant Tallied(draws[..i], counts, first)
      {
        hide Tallied, Count;
        var d := draws[i];
        assert draws[..i + 1] == draws[..i] + [d];
        assert draws[..i + 1][..i] == draws[..i];
        TalliedStep(draws[..i], d, counts, first);
        if d.result.Some? { counted := counted + 1; }
        if d.ok {
          if d.key !in first {
            first := first[d.key := i];
          }
          counts := counts[d.key := (if d.key in counts then counts[d.key] else 0) + 1];
        }
      }
      assert draws[..|draws|] == draws;
    }
  }

  /** counts and first say how often and where first each accepted key occurs. */
  ghost predicate Tallied<R>(draws: seq<Draw<R>>, counts: map<string, nat>, first: map<string, nat>) {
    && counts.Keys == first.Keys
    && (forall k :: k in counts ==> counts[k] == Count(draws, k) && counts[k] > 0 && IsFirst(draws, k, first[k]))
    && (forall i :: 0 <= i < |draws| && draws[i].ok ==> draws[i].key in counts)
  }

  lemma TalliedStep<R>(draws: seq<Draw<R>>, d: Draw<R>, counts: map<string, nat>, first: map<string, nat>)
    requires Tallied(draws, counts, first)
    ensures var f := if d.ok && d.key !in first then first[d.key := |draws|] else first;
            var c := if d.ok then counts[d.key := (if d.key in counts then counts[d.key] else 0) + 1] else counts;
            Tallied(draws + [d], c, f)
  {
    var more := draws + [d];
    assert more[..|more| - 1] == draws;
    if d.ok && d.key !in counts { CountNone(draws, d.key); }
    forall k, i | IsFirst(draws, k, i) ensures IsFirst(more, k, i) {
    }
  }

  /** The second loop of tally goes through a map, so its order is arbitrary. */
  method MostCommon(counts: map<string, nat>, first: map<string, nat>) returns (key: string, agree: nat, best: int)
    requires counts.Keys == first.Keys && forall k :: k in counts ==> counts[k] > 0
    ensures counts.Keys == {} ==> key == "" && agree == 0 && best == -1
    ensures counts.Keys != {} ==>
              && key in counts && agree == counts[key] && best == first[key]
              && forall k :: k in counts ==> counts[k] < agree || (counts[k] == agree && best <= first[k])
  {
    key, agree, best := "", 0, -1;
    var rest := counts.Keys;
    while rest != {}
      invariant rest <= counts.Keys
      invariant rest == counts.Keys ==> key == "" && agree == 0 && best == -1
      invariant rest != counts.Keys ==> key in counts && key !in rest && agree == counts[key] && best == first[key]
      invariant forall k :: k in counts && k !in rest ==> counts[k] < agree || (counts[k] == agree && best <= first[k])
      decreases |rest|
    {
      var k :| k in rest;
      rest := rest - {k};
      var n := counts[k];
      if n > agree || (n == agree && first[k] < best) {
        key, agree, best := k, n, first[k];
      }
    }
  }

  lemma MostCommonIsVote<R>(draws: seq<Draw<R>>, counts: map<string, nat>, first: map<string, nat>,
                            key: string, agree: nat, best: int)
    requires Tallied(draws, counts, first)
    requires counts.Keys == {} ==> key == "" && agree == 0 && best == -1
    requires counts.Keys != {} ==>
               && key in counts && agree == counts[key] && best == first[key]
               && forall k :: k in counts ==> counts[k] < agree || (counts[k] == agree && best <= first[k])
    ensures best < |draws| && IsVote(draws, key, agree, if best >= 0 then draws[best].result else None)
  {
    hide Count;
    forall k ensures Count(draws, k) <= agree {
      if k !in counts { CountNone(draws, k); }
    }
    forall k, i | IsFirst(draws, k, i) ensures k in counts && first[k] == i {
      assert draws[i].key in counts;
      assert IsFirst(draws, k, first[k]);
    }
    if counts.Keys != {} { assert IsFirst(draws, key, best); }
  }
}
