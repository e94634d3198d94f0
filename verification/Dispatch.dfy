/** The interruptible join: a step's tool calls run at once, and a child's signal may end the wait early.

The calls, the signals their children raise, user controls and the waiting dispatcher are interleaved as atomic
steps. A raise is two of them, as in the source: the signal joins the sink under the lock, and only later may
the notify channel be closed. A call may run several children at once, so several of its raises may stand between
the two, and they end in any order. A child raises only while its call is running. */
module Dispatch {
  import opened Wrappers
  import opened Messages
  import opened Pairing

  datatype Kind = Escalate | Preempt | Custom | Unknown(kind: string)

  datatype Signal = Signal(kind: Kind, name: string, note: string, source: string)

  const CANCELLED := "cancelled by user"

  datatype Config = Config(interruptible: bool, preemptGrant: Option<Signal -> bool>)

  predicate Interrupts(k: Kind) { k == Preempt || k == Escalate }

  /** Escalate always breaks the barrier, preempt only when granted, anything else never. */
  predicate ShouldBreakOn(cfg: Config, sig: Signal) {
    if !Interrupts(sig.kind) then false
    else if sig.kind == Preempt then cfg.preemptGrant.Some? && cfg.preemptGrant.value(sig)
    else true
  }

  // ---------------------------------------------------------------- the sink and the built-in policy

  datatype Notify = Absent | Open | Closed

  class SignalSink {
    var signals: seq<Signal>
    var notify: Notify
    const breakOn: Option<Signal -> bool>

    constructor (cfg: Config)
      ensures signals == [] && notify == if cfg.interruptible then Open else Absent
      ensures breakOn.Some? <==> cfg.interruptible
      ensures breakOn.Some? ==> forall sig: Signal :: breakOn.value(sig) == ShouldBreakOn(cfg, sig)
    {
      signals, notify := [], if cfg.interruptible then Open else Absent;
      breakOn := if cfg.interruptible then Some((sig: Signal) => ShouldBreakOn(cfg, sig)) else None;
    }

    /** The channel is closed by the first signal that breaks the barrier, and only once. */
    method Raise(sig: Signal)
      modifies this
      ensures signals == old(signals) + [sig]
      ensures notify == if old(notify) == Open && breakOn.Some? && breakOn.value(sig) then Closed else old(notify)
    {
      signals := signals + [sig];
      if notify != Absent && breakOn.Some? && breakOn.value(sig) {
        notify := Closed;
      }
    }

    method Drain() returns (out: seq<Signal>)
      modifies this`signals
      ensures out == old(signals) && signals == []
    {
      out := signals;
      signals := [];
    }
  }

  /** AbortOnEscalate: the first escalation ends the turn, with its note as the reason. */
  method AbortOnEscalate(signals: seq<Signal>) returns (reason: Option<string>)
    ensures reason.None? <==> forall i :: 0 <= i < |signals| ==> signals[i].kind != Escalate
    ensures reason.Some? ==>
              exists i :: 0 <= i < |signals| && signals[i].kind == Escalate
                       && (forall j :: 0 <= j < i ==> signals[j].kind != Escalate)
                       && reason.value == if signals[i].note == "" then "escalated by " + signals[i].source else signals[i].note
  {
    for i := 0 to |signals|
      invariant forall j :: 0 <= j < i ==> signals[j].kind != Escalate
    {
      var s := signals[i];
      if s.kind == Escalate {
        var why := s.note;
        if why == "" { why := "escalated by " + s.source; }
        return Some(why);
      }
    }
    reason := None;
  }

  // ---------------------------------------------------------------- every interleaving

  /** pending are the signals in the sink whose raise has yet to see to the channel. */
  datatype Call = Active(pending: seq<Signal>) | Finished

  datatype Main = Waiting | Cancelling | Returned(results: seq<Message>, signals: seq<Signal>)

  /** raised is the history of raises. */
  datatype World = World(
    calls: seq<Call>,
    results: seq<Option<Message>>,
    sink: seq<Signal>,
    notified: bool,
    fanCancelled: bool,
    controls: set<nat>,
    turnAborted: bool,
    main: Main,
    raised: seq<Signal>)

  datatype Step =
    | Raise(i: nat, sig: Signal)
    | Announce(i: nat, j: nat)
    | Control(i: nat)
    | AbortTurn
    | Complete(i: nat, text: string)
    | Break
    | Join

  function Init(n: nat): World {
    World(seq(n, _ => Active([])), seq(n, _ => None), [], false, false, {}, false, Waiting, [])
  }

  predicate AllFinished(w: World) { forall i :: 0 <= i < |w.calls| ==> w.calls[i] == Finished }

  predicate Enabled(cfg: Config, w: World, st: Step) {
    match st
    case Raise(i, _) => i < |w.calls| && w.calls[i].Active?
    case Announce(i, j) => i < |w.calls| && w.calls[i].Active? && j < |w.calls[i].pending|
    case Control(_) => true
    case AbortTurn => true
    case Complete(i, _) => i < |w.calls| && |w.results| == |w.calls| && w.calls[i] == Active([])
    case Break => cfg.interruptible && w.main == Waiting && w.notified
    case Join => !w.main.Returned? && AllFinished(w)
  }

  /** A cancelled call reads as cancelled by the user while the turn itself is alive, whatever the tool returned. */
  predicate CallCancelled(w: World, i: nat) { (w.fanCancelled || i in w.controls) && !w.turnAborted }

  function Filled(rs: seq<Option<Message>>): seq<Message> {
    seq(|rs|, i requires 0 <= i < |rs| => if rs[i].Some? then rs[i].value else Note("", ""))
  }

  function Next(cfg: Config, specs: seq<ToolCall>, w: World, st: Step): World
    requires Enabled(cfg, w, st) && |specs| == |w.calls|
  {
    match st
    case Raise(i, sig) =>
      w.(calls := w.calls[i := Active(w.calls[i].pending + [sig])], sink := w.sink + [sig], raised := w.raised + [sig])
    case Announce(i, j) =>
      var p := w.calls[i].pending;
      w.(calls := w.calls[i := Active(p[..j] + p[j + 1..])],
         notified := w.notified || (cfg.interruptible && ShouldBreakOn(cfg, p[j])))
    case Control(i) => w.(controls := w.controls + {i})
    case AbortTurn => w.(turnAborted := true)
    case Complete(i, text) =>
      w.(calls := w.calls[i := Finished],
         results := w.results[i := Some(Answer(specs[i], if CallCancelled(w, i) then CANCELLED else text))])
    case Break => w.(fanCancelled := true, main := Cancelling)
    case Join => w.(main := Returned(Filled(w.results), w.sink), sink := [])
  }

  function Exec(cfg: Config, specs: seq<ToolCall>, steps: seq<Step>): (bool, World)
    ensures |Exec(cfg, specs, steps).1.calls| == |specs|
  {
    if steps == [] then (true, Init(|specs|))
    else
      var (ok, w) := Exec(cfg, specs, steps[..|steps| - 1]);
      var st := steps[|steps| - 1];
      if ok && Enabled(cfg, w, st) then (true, Next(cfg, specs, w, st)) else (false, w)
  }

  ghost predicate Inv(cfg: Config, specs: seq<ToolCall>, w: World) {
    && |w.calls| == |w.results| == |specs|
    && (forall i :: 0 <= i < |specs| ==> (w.calls[i] == Finished <==> w.results[i].Some?))
    && (forall i :: 0 <= i < |specs| && w.results[i].Some? ==>
          w.results[i].value.role == TOOL && w.results[i].value.toolCallId == specs[i].id)
    && (forall i, j :: 0 <= i < |specs| && w.calls[i].Active? && 0 <= j < |w.calls[i].pending| ==>
          w.calls[i].pending[j] in w.raised)
    && (w.fanCancelled ==> w.notified)
    && (w.notified ==> cfg.interruptible && exists s :: s in w.raised && ShouldBreakOn(cfg, s))
    && (match w.main
        case Returned(rs, sigs) => AllFinished(w) && rs == Filled(w.results) && sigs == w.raised && w.sink == []
        case _ => w.sink == w.raised)
  }

  lemma StepKeeps(cfg: Config, specs: seq<ToolCall>, w: World, st: Step)
    requires Inv(cfg, specs, w) && Enabled(cfg, w, st)
    ensures Inv(cfg, specs, Next(cfg, specs, w, st))
  {
    match st
    case Raise(_, _) => RaiseKeeps(cfg, specs, w, st);
    case Announce(_, _) => AnnounceKeeps(cfg, specs, w, st);
    case Complete(_, _) => CompleteKeeps(cfg, specs, w, st);
    case _ =>
  }

  lemma RaiseKeeps(cfg: Config, specs: seq<ToolCall>, w: World, st: Step)
    requires Inv(cfg, specs, w) && Enabled(cfg, w, st) && st.Raise?
    ensures Inv(cfg, specs, Next(cfg, specs, w, st))
  {
    hide ShouldBreakOn;
    var n := Next(cfg, specs, w, st);
    assert forall s :: s in w.raised ==> s in n.raised;
    assert st.sig in n.raised;
  }

  lemma AnnounceKeeps(cfg: Config, specs: seq<ToolCall>, w: World, st: Step)
    requires Inv(cfg, specs, w) && Enabled(cfg, w, st) && st.Announce?
    ensures Inv(cfg, specs, Next(cfg, specs, w, st))
  {
    hide ShouldBreakOn;
    var n, p := Next(cfg, specs, w, st), w.calls[st.i].pending;
    assert p[st.j] in w.raised;
    forall j | 0 <= j < |p| - 1 ensures n.calls[st.i].pending[j] in w.raised {
      assert n.calls[st.i].pending[j] == p[if j < st.j then j else j + 1];
    }
  }

  lemma CompleteKeeps(cfg: Config, specs: seq<ToolCall>, w: World, st: Step)
    requires Inv(cfg, specs, w) && Enabled(cfg, w, st) && st.Complete?
    ensures Inv(cfg, specs, Next(cfg, specs, w, st))
  {
    hide ShouldBreakOn;
  }

  lemma {:induction false} ExecKeeps(cfg: Config, specs: seq<ToolCall>, steps: seq<Step>)
    requires Exec(cfg, specs, steps).0
    ensures Inv(cfg, specs, Exec(cfg, specs, steps).1)
  {
    if steps != [] {
      hide Inv;
      var before := steps[..|steps| - 1];
      ExecKeeps(cfg, specs, before);
      StepKeeps(cfg, specs, Exec(cfg, specs, before).1, steps[|steps| - 1]);
    }
  }

  // ---------------------------------------------------------------- what a run of steps comes to

  /** The signals raised in a run, in order. */
  ghost function RaisedIn(steps: seq<Step>): seq<Signal> {
    if steps == [] then []
    else
      var st := steps[|steps| - 1];
      RaisedIn(steps[..|steps| - 1]) + if st.Raise? then [st.sig] else []
  }

  /** Whether call i was cancelled after these steps: by the user or by the broken barrier, in a turn that is alive. */
  ghost predicate CutIn(steps: seq<Step>, i: nat) { (Control(i) in steps || Break in steps) && AbortTurn !in steps }

  /** The text a call that completes with text after these steps is given. */
  ghost function TextAfter(steps: seq<Step>, i: nat, text: string): string {
    if CutIn(steps, i) then "cancelled by user" else text
  }

  /** Call i completed at step n of the run. */
  ghost predicate CompletesAt(steps: seq<Step>, n: nat, i: nat) { n < |steps| && steps[n].Complete? && steps[n].i == i }

  ghost predicate Completes(steps: seq<Step>, i: nat) { exists n: nat :: CompletesAt(steps, n, i) }

  /** The flags and the log of raises are those of the steps taken. */
  ghost predicate Flags(steps: seq<Step>, w: World) {
    && (w.fanCancelled <==> Break in steps) && (w.turnAborted <==> AbortTurn in steps)
    && (forall i: nat :: i in w.controls <==> Control(i) in steps)
    && w.raised == RaisedIn(steps)
  }

  ghost predicate CompleteOnce(steps: seq<Step>) {
    forall n: nat, m: nat, i: nat :: CompletesAt(steps, n, i) && CompletesAt(steps, m, i) ==> n == m
  }

  /** A call has a result exactly when it completed, once, and then that of its completion. */
  ghost predicate OwnResults(specs: seq<ToolCall>, steps: seq<Step>, w: World) {
    && |w.results| == |specs| && CompleteOnce(steps)
    && (forall i: nat :: i < |specs| && w.results[i].Some? ==> Completes(steps, i))
    && forall n: nat, i: nat :: CompletesAt(steps, n, i) ==>
         && i < |specs|
         && w.results[i] == Some(Answer(specs[i], TextAfter(steps[..n], i, steps[n].text)))
  }

  lemma FlagsStep(cfg: Config, specs: seq<ToolCall>, steps: seq<Step>, w: World, st: Step)
    requires |specs| == |w.calls| && Enabled(cfg, w, st) && Flags(steps, w)
    ensures Flags(steps + [st], Next(cfg, specs, w, st))
  {
    assert (steps + [st])[..|steps|] == steps;
    assert forall s: Step :: s in steps + [st] <==> s in steps || s == st;
  }

  lemma CancelledIffCut(steps: seq<Step>, w: World, i: nat)
    requires Flags(steps, w)
    ensures CallCancelled(w, i) <==> CutIn(steps, i)
  {
  }

  lemma CompletesMore(steps: seq<Step>, st: Step, n: nat, i: nat)
    ensures CompletesAt(steps + [st], n, i) <==> CompletesAt(steps, n, i) || (n == |steps| && st.Complete? && st.i == i)
    ensures n <= |steps| ==> (steps + [st])[..n] == steps[..n]
  {
  }

  lemma OwnStep(cfg: Config, specs: seq<ToolCall>, steps: seq<Step>, w: World, st: Step)
    requires Inv(cfg, specs, w) && Enabled(cfg, w, st) && OwnResults(specs, steps, w) && Flags(steps, w)
    ensures OwnResults(specs, steps + [st], Next(cfg, specs, w, st))
  {
    SlotPerCall(cfg, specs, w);
    if st.Complete? { CancelledIffCut(steps, w, st.i); }
    assert st.Complete? ==> w.results[st.i].None?;
    hide Flags, Inv, RaisedIn, CutIn, CallCancelled;
    var w', all := Next(cfg, specs, w, st), steps + [st];
    forall n: nat, i: nat | CompletesAt(all, n, i)
      ensures i < |specs| && w'.results[i] == Some(Answer(specs[i], TextAfter(all[..n], i, all[n].text)))
    {
      CompletesMore(steps, st, n, i);
      assert n == |steps| ==> steps[..n] == steps;
    }
    forall n: nat, m: nat, i: nat | CompletesAt(all, n, i) && CompletesAt(all, m, i) ensures n == m {
      CompletesMore(steps, st, n, i);
      CompletesMore(steps, st, m, i);
    }
    forall i: nat | i < |specs| && w'.results[i].Some? ensures Completes(all, i) {
      if st.Complete? && st.i == i {
        assert CompletesAt(all, |steps|, i);
      } else {
        var n: nat :| CompletesAt(steps, n, i);
        assert CompletesAt(all, n, i);
      }
    }
  }

  lemma {:induction false} RunTells(cfg: Config, specs: seq<ToolCall>, steps: seq<Step>)
    requires Exec(cfg, specs, steps).0
    ensures Flags(steps, Exec(cfg, specs, steps).1) && OwnResults(specs, steps, Exec(cfg, specs, steps).1)
  {
    if steps != [] {
      var before, st := steps[..|steps| - 1], steps[|steps| - 1];
      RunTells(cfg, specs, before);
      ExecKeeps(cfg, specs, before);
      hide OwnResults, Inv, Next, Enabled, Flags;
      FlagsStep(cfg, specs, before, Exec(cfg, specs, before).1, st);
      OwnStep(cfg, specs, before, Exec(cfg, specs, before).1, st);
      assert steps == before + [st];
    }
  }

  /** Dispatch returns only after every call finished, with one result per call in call order and every raised signal
      exactly once, in the order raised; and nothing can be raised after it returned. A call completed once. Its result is
      the text it completed with, or the notice that it was cancelled if, before it completed, the user cancelled it or
      the barrier was broken, and the turn was not aborted. */
  lemma JoinIsComplete(cfg: Config, specs: seq<ToolCall>, steps: seq<Step>)
    requires Exec(cfg, specs, steps).0 && Exec(cfg, specs, steps).1.main.Returned?
    ensures var w := Exec(cfg, specs, steps).1;
            && AllFinished(w)
            && Answers(specs, w.main.results)
            && (forall i: nat :: i < |specs| ==> Completes(steps, i)) && CompleteOnce(steps)
            && (forall n: nat, i: nat :: CompletesAt(steps, n, i) ==>
                  && i < |specs|
                  && w.main.results[i] == Answer(specs[i], TextAfter(steps[..n], i, steps[n].text)))
            && w.main.signals == RaisedIn(steps)
            && forall i, sig :: !Enabled(cfg, w, Raise(i, sig))
  {
    ExecKeeps(cfg, specs, steps);
    RunTells(cfg, specs, steps);
    hide Exec, TextAfter, RaisedIn, CompletesAt;
    var w := Exec(cfg, specs, steps).1;
    forall i: nat | i < |specs| ensures w.results[i].Some? && w.main.results[i] == w.results[i].value {
      assert w.calls[i] == Finished;
    }
  }

  /** At any time the user may cancel a call and the turn may be aborted, and until a call completes its children may
      raise anything. */
  lemma NeverLockedOut(cfg: Config, specs: seq<ToolCall>, steps: seq<Step>, i: nat, sig: Signal)
    requires Exec(cfg, specs, steps).0
    ensures Exec(cfg, specs, steps + [Control(i)]).0 && Exec(cfg, specs, steps + [AbortTurn]).0
    ensures i < |specs| && !Completes(steps, i) ==> Exec(cfg, specs, steps + [Raise(i, sig)]).0
  {
    RunTells(cfg, specs, steps);
    ExecKeeps(cfg, specs, steps);
    var w := Exec(cfg, specs, steps).1;
    hide Exec, Flags;
    ExecMore(cfg, specs, steps, Control(i));
    ExecMore(cfg, specs, steps, AbortTurn);
    if i < |specs| && !Completes(steps, i) {
      assert w.calls[i] == Finished <==> w.results[i].Some?;
      ExecMore(cfg, specs, steps, Raise(i, sig));
    }
  }

  /** The barrier breaks, and a call that the user did not cancel is cut, only in an interruptible turn in which a child
      escalated, or raised a preempt that the grant accepts. */
  lemma BreaksOnlyWhenAllowed(cfg: Config, specs: seq<ToolCall>, steps: seq<Step>, i: nat)
    requires Exec(cfg, specs, steps).0
    ensures Break in steps || (CutIn(steps, i) && Control(i) !in steps) ==>
              && cfg.interruptible
              && exists s :: s in RaisedIn(steps) &&
                   (s.kind == Escalate || (s.kind == Preempt && cfg.preemptGrant.Some? && cfg.preemptGrant.value(s)))
  {
    ExecKeeps(cfg, specs, steps);
    RunTells(cfg, specs, steps);
  }

  /** So without a grant a child cannot stop its siblings: as long as no escalation is raised, preempts and custom
      signals cancel no call. */
  lemma NoGrantNoCancel(cfg: Config, specs: seq<ToolCall>, steps: seq<Step>, i: nat)
    requires Exec(cfg, specs, steps).0 && cfg.preemptGrant.None?
    requires forall s :: s in RaisedIn(steps) ==> s.kind != Escalate
    ensures Break !in steps && (CutIn(steps, i) ==> Control(i) in steps)
  {
    hide Exec, RaisedIn;
    BreaksOnlyWhenAllowed(cfg, specs, steps, i);
  }

  /** An escalation or a granted preempt, once announced in an interruptible turn, leaves the dispatcher free to break at
      once, whatever else the call has pending. */
  lemma EscalationCanBreak(cfg: Config, specs: seq<ToolCall>, steps: seq<Step>, i: nat, sig: Signal)
    requires Exec(cfg, specs, steps).0 && cfg.interruptible
    requires sig.kind == Escalate || (sig.kind == Preempt && cfg.preemptGrant.Some? && cfg.preemptGrant.value(sig))
    requires Exec(cfg, specs, steps).1.main == Waiting && Enabled(cfg, Exec(cfg, specs, steps).1, Raise(i, sig))
    ensures var j := |Exec(cfg, specs, steps).1.calls[i].pending|;
            var r := Exec(cfg, specs, steps + [Raise(i, sig), Announce(i, j), Break]);
            r.0 && r.1.fanCancelled
  {
    var w := Exec(cfg, specs, steps).1;
    var raise, announce := Raise(i, sig), Announce(i, |w.calls[i].pending|);
    hide Exec;
    ExecMore(cfg, specs, steps, raise);
    var w1 := Next(cfg, specs, w, raise);
    ExecMore(cfg, specs, steps + [raise], announce);
    ExecMore(cfg, specs, steps + [raise] + [announce], Break);
    assert steps + [raise] + [announce] + [Break] == steps + [raise, announce, Break];
  }

  lemma ExecMore(cfg: Config, specs: seq<ToolCall>, steps: seq<Step>, st: Step)
    requires Exec(cfg, specs, steps).0 && Enabled(cfg, Exec(cfg, specs, steps).1, st)
    ensures Exec(cfg, specs, steps + [st]) == (true, Next(cfg, specs, Exec(cfg, specs, steps).1, st))
  {
    assert (steps + [st])[..|steps|] == steps;
  }

  // ---------------------------------------------------------------- no deadlock

  function WorkOf(c: Call): nat { if c.Active? then 1 + |c.pending| else 0 }

  /** The steps the calls have still to take before all are finished. */
  function Work(calls: seq<Call>): nat {
    if calls == [] then 0 else Work(calls[..|calls| - 1]) + WorkOf(calls[|calls| - 1])
  }

  lemma {:induction false} WorkUpdate(calls: seq<Call>, i: nat, c: Call)
    requires i < |calls|
    ensures Work(calls[i := c]) == Work(calls) - WorkOf(calls[i]) + WorkOf(c)
  {
    var n := |calls| - 1;
    if i < n {
      WorkUpdate(calls[..n], i, c);
      assert calls[i := c][..n] == calls[..n][i := c];
    } else {
      assert calls[i := c][..n] == calls[..n];
    }
  }

  /** A call that is not finished has a step that leaves less to do. */
  lemma LessWork(cfg: Config, specs: seq<ToolCall>, w: World) returns (st: Step)
    requires Inv(cfg, specs, w) && !AllFinished(w)
    ensures Enabled(cfg, w, st) && |specs| == |w.calls|
    ensures Work(Next(cfg, specs, w, st).calls) < Work(w.calls) && Next(cfg, specs, w, st).main == w.main
  {
    SlotPerCall(cfg, specs, w);
    hide Inv, Work, ShouldBreakOn;
    var i :| 0 <= i < |w.calls| && w.calls[i] != Finished;
    st := if w.calls[i].pending == [] then Complete(i, "") else Announce(i, 0);
    WorkUpdate(w.calls, i, Next(cfg, specs, w, st).calls[i]);
  }

  /** Dispatch never wedges: from every reachable state in which it has not returned, some steps lead to its return. */
  lemma {:induction false} CanReturn(cfg: Config, specs: seq<ToolCall>, steps: seq<Step>) returns (more: seq<Step>)
    requires Exec(cfg, specs, steps).0 && !Exec(cfg, specs, steps).1.main.Returned?
    ensures Exec(cfg, specs, steps + more).0 && Exec(cfg, specs, steps + more).1.main.Returned?
    decreases Work(Exec(cfg, specs, steps).1.calls)
  {
    hide *;
    var w := Exec(cfg, specs, steps).1;
    ExecKeeps(cfg, specs, steps);
    if AllFinished(w) {
      CanJoin(cfg, specs, w);
      ExecMore(cfg, specs, steps, Join);
      more := [Join];
    } else {
      var st := LessWork(cfg, specs, w);
      ExecMore(cfg, specs, steps, st);
      var rest := CanReturn(cfg, specs, steps + [st]);
      more := [st] + rest;
      assert steps + more == steps + [st] + rest;
    }
  }

  lemma CanJoin(cfg: Config, specs: seq<ToolCall>, w: World)
    requires AllFinished(w) && !w.main.Returned? && |specs| == |w.calls|
    ensures Enabled(cfg, w, Join) && Next(cfg, specs, w, Join).main.Returned?
  {
  }

  lemma SlotPerCall(cfg: Config, specs: seq<ToolCall>, w: World)
    requires Inv(cfg, specs, w)
    ensures |w.results| == |w.calls| == |specs|
  {
  }
}
