/** The lock that presents one elicitation at a time, in arrival order.

A request is a number, and its turn channel is known by that number; `closed` are the channels closed so far.
The class holds the three critical sections of the source. The state machine interleaves them with the points
between them: a waiter noticing its turn, and a waiter choosing to give up while its turn may be coming. */
module Elicitation {
  import opened Wrappers
  import opened Sorting

  type Request = nat

  datatype Lock = Lock(busy: bool, waiters: seq<Request>, closed: set<Request>)

  function Enter(l: Lock, r: Request): Lock {
    if !l.busy then l.(busy := true) else l.(waiters := l.waiters + [r])
  }

  function Pass(l: Lock): Lock {
    if l.waiters == [] then l.(busy := false)
    else l.(waiters := l.waiters[1..], closed := l.closed + {l.waiters[0]})
  }

  function Withdraw(l: Lock, r: Request): Lock {
    if r in l.waiters then l.(waiters := Sans(l.waiters, {r})) else Pass(l)
  }

  function Outside(w: set<Request>): Request -> bool { (r: Request) => r !in w }

  /** s without the members of w. */
  function Sans(s: seq<Request>, w: set<Request>): seq<Request> { Keep(s, Outside(w)) }

  // ---------------------------------------------------------------- the critical sections

  class ElicitationCoordinator {
    var busy: bool
    var waiters: seq<Request>
    var closed: set<Request>

    function State(): Lock reads this { Lock(busy, waiters, closed) }

    constructor ()
      ensures State() == Lock(false, [], {})
    {
      busy, waiters, closed := false, [], {};
    }

    /** The start of acquire: take the baton, or queue. */
    method TryAcquire(r: Request) returns (mine: bool)
      modifies this
      ensures State() == Enter(old(State()), r) && mine == !old(busy)
    {
      if !busy {
        busy := true;
        return true;
      }
      waiters := waiters + [r];
      mine := false;
    }

    /** The end of acquire for a cancelled waiter: leave the queue, or pass on a baton already granted. */
    method GiveUp(r: Request)
      requires Distinct(waiters)
      modifies this
      ensures State() == Withdraw(old(State()), r)
    {
      for i := 0 to |waiters|
        invariant State() == old(State())
        invariant r !in waiters[..i]
      {
        if waiters[i] == r {
          SansCut(waiters, i);
          waiters := waiters[..i] + waiters[i + 1..];
          return;
        }
      }
      ReleaseLocked();
    }

    method Release()
      modifies this
      ensures State() == Pass(old(State()))
    {
      ReleaseLocked();
    }

    method ReleaseLocked()
      modifies this
      ensures State() == Pass(old(State()))
    {
      if |waiters| > 0 {
        var next := waiters[0];
        waiters := waiters[1..];
        closed := closed + {next};
        return;
      }
      busy := false;
    }
  }

  lemma SansNone(s: seq<Request>, r: Request)
    requires r !in s
    ensures Sans(s, {r}) == s
  {
    KeepAll(s, Outside({r}));
  }

  lemma {:induction false} SansTwice(s: seq<Request>, w: set<Request>, r: Request)
    ensures Sans(Sans(s, w), {r}) == Sans(s, w + {r})
  {
    if s != [] {
      var front, x := s[..|s| - 1], s[|s| - 1];
      SansTwice(front, w, r);
      KeepBack(Sans(front, w), x, Outside({r}));
    }
  }

  lemma SansCut(s: seq<Request>, i: nat)
    requires i < |s| && Distinct(s)
    ensures Sans(s, {s[i]}) == s[..i] + s[i + 1..]
  {
    var a, r, b := s[..i], s[i], s[i + 1..];
    assert s == a + [r] + b;
    assert r !in a && r !in b;
    SansNone(a, r);
    SansNone(b, r);
    hide Keep;
    KeepAppend(a + [r], b, Outside({r}));
    KeepAppend(a, [r], Outside({r}));
    KeepNone([r], Outside({r}));
  }

  lemma {:induction false} SansMembers(s: seq<Request>, w: set<Request>)
    ensures forall r :: r in Sans(s, w) <==> r in s && r !in w
    ensures Distinct(s) ==> Distinct(Sans(s, w))
  {
    if s != [] {
      SansMembers(s[..|s| - 1], w);
      assert s == s[..|s| - 1] + [s[|s| - 1]];
    }
  }

  // ---------------------------------------------------------------- every interleaving

  /** Waiting: blocked on its turn or its context. Leaving: the context won, the lock not yet taken. */
  datatype Phase = Waiting | Leaving | Presenting | Done

  datatype World = World(
    lock: Lock,
    phase: map<Request, Phase>,
    arrivals: seq<Request>,
    grants: seq<Request>,
    withdrawn: set<Request>,
    passes: nat)

  datatype Step = Arrive(r: Request) | Wake(r: Request) | Cancel(r: Request) | Leave(r: Request) | Finish(r: Request)

  function Init(): World { World(Lock(false, [], {}), map[], [], [], {}, 0) }

  predicate At(w: World, r: Request, p: Phase) { r in w.phase && w.phase[r] == p }

  /** A waiter whose turn has come and whose context has ended may go either way. */
  predicate Enabled(w: World, st: Step) {
    match st
    case Arrive(r) => r !in w.phase
    case Wake(r) => At(w, r, Waiting) && r in w.lock.closed
    case Cancel(r) => At(w, r, Waiting)
    case Leave(r) => At(w, r, Leaving)
    case Finish(r) => At(w, r, Presenting)
  }

  function Handed(l: Lock): seq<Request> { if l.waiters == [] then [] else [l.waiters[0]] }

  function Next(w: World, st: Step): World
    requires Enabled(w, st)
  {
    match st
    case Arrive(r) =>
      w.(lock := Enter(w.lock, r), arrivals := w.arrivals + [r],
         phase := w.phase[r := if w.lock.busy then Waiting else Presenting],
         grants := if w.lock.busy then w.grants else w.grants + [r])
    case Wake(r) => w.(phase := w.phase[r := Presenting])
    case Cancel(r) => w.(phase := w.phase[r := Leaving])
    case Leave(r) =>
      if r in w.lock.waiters then
        w.(lock := Withdraw(w.lock, r), phase := w.phase[r := Done], withdrawn := w.withdrawn + {r})
      else
        w.(lock := Withdraw(w.lock, r), phase := w.phase[r := Done], grants := w.grants + Handed(w.lock), passes := w.passes + 1)
    case Finish(r) =>
      w.(lock := Pass(w.lock), phase := w.phase[r := Done], grants := w.grants + Handed(w.lock), passes := w.passes + 1)
  }

  function Exec(steps: seq<Step>): (bool, World) {
    if steps == [] then (true, Init())
    else
      var (ok, w) := Exec(steps[..|steps| - 1]);
      var st := steps[|steps| - 1];
      if ok && Enabled(w, st) then (true, Next(w, st)) else (false, w)
  }

  /** r has the baton: it is presenting, or its turn has come and it has yet to act on it. */
  predicate Holds(w: World, r: Request) {
    At(w, r, Presenting) || (r in w.phase && w.phase[r] != Done && r in w.lock.closed)
  }

  /** The arrivals are granted, queued or withdrawn, and each is where its phase says. */
  ghost predicate Ordered(w: World) {
    && Distinct(w.arrivals)
    && (forall r :: r in w.phase <==> r in w.arrivals)
    && w.grants + w.lock.waiters == Sans(w.arrivals, w.withdrawn)
    && (forall r :: r in w.phase && w.phase[r] in {Waiting, Leaving} ==> r in w.lock.waiters || r in w.lock.closed)
    && (forall r :: r in w.lock.waiters ==> r in w.phase && w.phase[r] in {Waiting, Leaving})
    && (forall r :: r in w.lock.closed ==> r in w.grants)
    && (forall r :: r in w.withdrawn ==> r in w.arrivals)
  }

  /** The baton is out exactly when one grant has not been passed on, and then the last one granted holds it. */
  ghost predicate Baton(w: World) {
    && |w.grants| == w.passes + (if w.lock.busy then 1 else 0)
    && (w.lock.waiters != [] ==> w.lock.busy)
    && (w.lock.busy ==> Holds(w, w.grants[|w.grants| - 1]))
    && (forall r :: Holds(w, r) ==> w.lock.busy && r == w.grants[|w.grants| - 1])
  }

  ghost predicate Inv(w: World) { Ordered(w) && Baton(w) }

  lemma NoneTwice(w: World)
    requires Ordered(w)
    ensures Distinct(w.grants + w.lock.waiters) && Distinct(w.lock.waiters)
    ensures forall r :: r in w.lock.waiters ==> r !in w.grants && r !in w.withdrawn && r in w.arrivals
    ensures forall r :: r in w.grants ==> r !in w.withdrawn && r in w.arrivals
  {
    SansMembers(w.arrivals, w.withdrawn);
    hide Sans;
    Parts(w.grants, w.lock.waiters);
  }

  lemma Parts(a: seq<Request>, b: seq<Request>)
    requires Distinct(a + b)
    ensures Distinct(b) && (forall r :: r in b ==> r !in a)
    ensures (forall r :: r in a ==> r in a + b) && (forall r :: r in b ==> r in a + b)
  {
    assert forall i :: 0 <= i < |b| ==> b[i] == (a + b)[|a| + i];
    assert forall i :: 0 <= i < |a| ==> a[i] == (a + b)[i];
  }

  lemma ArriveQueues(w: World, r: Request)
    requires Ordered(w) && w.lock.busy && Enabled(w, Arrive(r))
    ensures Ordered(Next(w, Arrive(r)))
  {
    hide Sans, Distinct;
    ArrivalKept(w.arrivals, r, w.withdrawn);
    DistinctMore(w.arrivals, r);
    Members(w.arrivals, r);
    Members(w.lock.waiters, r);
    Assoc(w.grants, w.lock.waiters, r);
  }

  lemma ArriveTakes(w: World, r: Request)
    requires Ordered(w) && !w.lock.busy && w.lock.waiters == [] && Enabled(w, Arrive(r))
    ensures Ordered(Next(w, Arrive(r)))
  {
    hide Sans, Distinct;
    ArrivalKept(w.arrivals, r, w.withdrawn);
    DistinctMore(w.arrivals, r);
    Members(w.arrivals, r);
    Members(w.grants, r);
    assert w.grants + [] == w.grants && w.grants + [r] + [] == w.grants + [r];
  }

  lemma Members(s: seq<Request>, r: Request)
    ensures forall q :: q in s + [r] <==> q in s || q == r
  {
  }

  lemma Assoc(a: seq<Request>, b: seq<Request>, r: Request)
    ensures a + (b + [r]) == a + b + [r]
  {
  }

  lemma DistinctMore(s: seq<Request>, r: Request)
    requires Distinct(s) && r !in s
    ensures Distinct(s + [r])
  {
  }

  lemma ArrivalKept(s: seq<Request>, r: Request, w: set<Request>)
    requires r !in w
    ensures Sans(s + [r], w) == Sans(s, w) + [r]
  {
    KeepBack(s, r, Outside(w));
  }

  lemma ArriveBaton(w: World, r: Request)
    requires Inv(w) && Enabled(w, Arrive(r))
    ensures Baton(Next(w, Arrive(r)))
  {
    hide Sans, Distinct;
    var n := Next(w, Arrive(r));
    NoneTwice(w);
    assert forall q :: Holds(n, q) <==> Holds(w, q) || (q == r && !w.lock.busy);
  }

  function Passed(w: World, r: Request): World {
    w.(lock := Pass(w.lock), phase := w.phase[r := Done], grants := w.grants + Handed(w.lock), passes := w.passes + 1)
  }

  lemma PassOrdered(w: World, r: Request)
    requires Inv(w) && Holds(w, r)
    ensures Ordered(Passed(w, r))
  {
    hide Sans;
    var n := Passed(w, r);
    NoneTwice(w);
    assert r in w.grants;
    assert n.grants + n.lock.waiters == w.grants + w.lock.waiters;
    QueueMoves(w.lock);
  }

  lemma QueueMoves(l: Lock)
    ensures forall q :: q in Pass(l).waiters ==> q in l.waiters
    ensures forall q :: q in l.waiters <==> q in Handed(l) || q in Pass(l).waiters
  {
    if l.waiters != [] { assert l.waiters == [l.waiters[0]] + l.waiters[1..]; }
  }

  /** The baton moves from its holder to the first waiter, or is put down. */
  lemma PassBaton(w: World, r: Request)
    requires Inv(w) && Holds(w, r)
    ensures Baton(Passed(w, r))
  {
    hide Sans, Distinct;
    var n := Passed(w, r);
    NoneTwice(w);
    assert forall q :: Holds(n, q) ==> (Holds(w, q) && q != r) || q in Handed(w.lock);
    if w.lock.waiters != [] {
      var next := w.lock.waiters[0];
      assert r in w.grants && next in w.lock.waiters && next != r;
      assert n.grants[|n.grants| - 1] == next && Holds(n, next);
    }
  }

  lemma WithdrawOrdered(w: World, r: Request)
    requires Ordered(w) && Enabled(w, Leave(r)) && r in w.lock.waiters
    ensures Ordered(Next(w, Leave(r)))
  {
    NoneTwice(w);
    SansMembers(w.lock.waiters, {r});
    SansTwice(w.arrivals, w.withdrawn, r);
    KeepAppend(w.grants, w.lock.waiters, Outside({r}));
    SansNone(w.grants, r);
    hide Keep, Distinct;
  }

  lemma WithdrawBaton(w: World, r: Request)
    requires Inv(w) && Enabled(w, Leave(r)) && r in w.lock.waiters
    ensures Baton(Next(w, Leave(r)))
  {
    NoneTwice(w);
    hide Sans, Distinct;
    var n := Next(w, Leave(r));
    assert r !in w.lock.closed;
    assert forall q :: Holds(n, q) <==> Holds(w, q);
  }

  /** Waking and giving up move a request from one phase to another and leave the lock alone. */
  lemma MoveKeeps(w: World, st: Step)
    requires Inv(w) && Enabled(w, st) && (st.Wake? || st.Cancel?)
    ensures Inv(Next(w, st))
  {
    NoneTwice(w);
    hide Sans, Distinct;
    assert forall q :: Holds(Next(w, st), q) <==> Holds(w, q);
  }

  lemma StepKeeps(w: World, st: Step)
    requires Inv(w) && Enabled(w, st)
    ensures Inv(Next(w, st))
  {
    match st
    case Arrive(r) =>
      if w.lock.busy { ArriveQueues(w, r); } else { ArriveTakes(w, r); }
      ArriveBaton(w, r);
    case Wake(_) => MoveKeeps(w, st);
    case Cancel(_) => MoveKeeps(w, st);
    case Leave(r) =>
      if r in w.lock.waiters {
        WithdrawOrdered(w, r);
        WithdrawBaton(w, r);
      } else {
        LeaverHolds(w, r);
        PassKeeps(w, r);
      }
    case Finish(r) => PassKeeps(w, r);
  }

  lemma LeaverHolds(w: World, r: Request)
    requires Ordered(w) && At(w, r, Leaving) && r !in w.lock.waiters
    ensures Holds(w, r)
  {
    hide Sans, Distinct;
  }

  lemma PassKeeps(w: World, r: Request)
    requires Inv(w) && Holds(w, r)
    ensures Inv(Passed(w, r))
  {
    PassOrdered(w, r);
    PassBaton(w, r);
  }

  lemma {:induction false} ExecKeeps(steps: seq<Step>)
    requires Exec(steps).0
    ensures Inv(Exec(steps).1)
  {
    if steps == [] {
      assert Sans([], {}) == [];
    } else {
      hide Inv;
      var before := steps[..|steps| - 1];
      ExecKeeps(before);
      StepKeeps(Exec(before).1, steps[|steps| - 1]);
    }
  }

  /** At most one request is presented, whatever the interleaving. */
  lemma OneAtATime(steps: seq<Step>, a: Request, b: Request)
    requires Exec(steps).0 && At(Exec(steps).1, a, Presenting) && At(Exec(steps).1, b, Presenting)
    ensures a == b
  {
    ExecKeeps(steps);
    assert Holds(Exec(steps).1, a) && Holds(Exec(steps).1, b);
  }

  /** Strict FIFO: the requests granted so far, then those still queued, are exactly the arrivals in order,
      less those that left the queue before their turn. */
  lemma GrantedInArrivalOrder(steps: seq<Step>)
    requires Exec(steps).0
    ensures var w := Exec(steps).1; w.grants + w.lock.waiters == Sans(w.arrivals, w.withdrawn)
  {
    ExecKeeps(steps);
  }

  /** The baton is neither lost nor duplicated: it is out exactly when one grant has not yet been passed on,
      and then exactly one request holds it, the last one granted. A cancel racing a grant is no exception. */
  lemma BatonConserved(steps: seq<Step>)
    requires Exec(steps).0
    ensures var w := Exec(steps).1;
            && |w.grants| == w.passes + (if w.lock.busy then 1 else 0)
            && forall r :: Holds(w, r) <==> w.lock.busy && r == w.grants[|w.grants| - 1]
  {
    hide Exec, Ordered;
    ExecKeeps(steps);
  }

  /** The steps by which the holder of the baton passes it on: it wakes first if it has to. */
  function PassingOn(w: World, h: Request): (more: seq<Step>)
    ensures 1 <= |more| <= 2 && forall i :: 0 <= i < |more| ==> more[i].r == h
  {
    if At(w, h, Waiting) then [Wake(h), Finish(h)] else if At(w, h, Leaving) then [Leave(h)] else [Finish(h)]
  }

  /** The holder can take its next step now, and its last one hands the baton to the first in the queue. */
  lemma HolderActs(w: World, h: Request)
    requires Inv(w) && Holds(w, h) && w.lock.waiters != []
    ensures var more := PassingOn(w, h);
            && Enabled(w, more[0])
            && (|more| == 2 ==> Enabled(Next(w, more[0]), more[1]))
            && (if |more| == 2 then Next(Next(w, more[0]), more[1]) else Next(w, more[0])).grants
                 == w.grants + [w.lock.waiters[0]]
  {
    NoneTwice(w);
    hide Sans, Distinct;
    assert h in w.grants && h !in w.lock.waiters;
  }

  lemma HolderOf(w: World) returns (h: Request)
    requires Inv(w) && w.lock.waiters != []
    ensures Holds(w, h)
  {
    hide Ordered;
    h := w.grants[|w.grants| - 1];
  }

  /** No stall: while anyone is queued some request holds the baton and has a step that it can take now, and
      at most two steps of the holder pass the baton to the first in the queue. */
  lemma NeverStalls(steps: seq<Step>) returns (h: Request)
    requires Exec(steps).0 && Exec(steps).1.lock.waiters != []
    ensures var w := Exec(steps).1; var more := PassingOn(w, h);
            && Holds(w, h) && Enabled(w, more[0]) && Exec(steps + more).0
            && Exec(steps + more).1.grants == w.grants + [w.lock.waiters[0]]
  {
    hide *;
    ExecKeeps(steps);
    var w := Exec(steps).1;
    h := HolderOf(w);
    var more := PassingOn(w, h);
    HolderActs(w, h);
    ExecMore(steps, more[0]);
    if |more| == 2 {
      ExecMore(steps + [more[0]], more[1]);
      assert steps + [more[0]] + [more[1]] == steps + more;
    } else {
      assert [more[0]] == more;
    }
  }

  lemma ExecMore(steps: seq<Step>, st: Step)
    requires Exec(steps).0 && Enabled(Exec(steps).1, st)
    ensures Exec(steps + [st]) == (true, Next(Exec(steps).1, st))
  {
    hide Next, Enabled;
    assert (steps + [st])[..|steps|] == steps;
  }
}
