/** The policy that lets events start turns without nagging: one slot per binding, a cooldown, and a budget. Time is an
integer count of milliseconds. */
module Triggers {
  import opened Wrappers
  import opened Events

  const DEFAULT_BUDGET := 10
  const DEFAULT_COOLDOWN := 300_000

  datatype Binding = Binding(server: string, event: string, tag: string, cooldown: int, filter: Option<Event -> bool>)

  datatype Slot = Slot(spentAt: int, engaged: bool, spent: bool)

  function Fresh(): Slot { Slot(0, false, false) }

  function SlotKey(b: Binding): string { b.server + "/" + b.event + "/" + b.tag }

  /** Zero or less means the default. */
  function Cooldown(b: Binding): (c: int) ensures c > 0 { if b.cooldown <= 0 then DEFAULT_COOLDOWN else b.cooldown }

  function Budget(n: int): (r: nat) ensures r > 0 { if n <= 0 then DEFAULT_BUDGET else n }

  datatype State = State(bindings: seq<Binding>, slots: map<string, Slot>, firings: nat, budget: nat)

  predicate Matches(b: Binding, ev: Event) {
    && b.event == ev.name && (b.server == "" || b.server == ev.server)
    && (b.filter.None? || b.filter.value(ev))
  }

  // ---------------------------------------------------------------- one binding, one event

  datatype Verdict = Pass(slot: Slot) | Halt(slot: Slot) | Fire(slot: Slot)

  predicate Resting(b: Binding, slot: Slot, now: int) {
    slot.spent && (!slot.engaged || now < slot.spentAt + Cooldown(b))
  }

  /** What a matching event does to a binding's slot. */
  function Visit(b: Binding, slot: Slot, spare: bool, now: int, consent: bool): Verdict {
    if Resting(b, slot, now) then Pass(slot)
    else
      var open := slot.(spent := false);
      if !spare then Halt(open)
      else if !consent then Pass(open)
      else Fire(Slot(now, false, true))
  }

  /** Panic stands for a matching binding without a slot, which the source would dereference. */
  datatype Outcome = Quiet | Fired(binding: Binding) | Panic

  datatype Scanned = Scanned(state: State, outcome: Outcome)

  /** The bindings from i on. */
  function Scan(s: State, i: nat, now: int, ev: Event, consent: Binding -> bool): Scanned
    requires i <= |s.bindings|
    decreases |s.bindings| - i
  {
    if i == |s.bindings| then Scanned(s, Quiet)
    else
      var b := s.bindings[i];
      var k := SlotKey(b);
      if !Matches(b, ev) then Scan(s, i + 1, now, ev, consent)
      else if k !in s.slots then Scanned(s, Panic)
      else
        var v := Visit(b, s.slots[k], s.firings < s.budget, now, consent(b));
        var s' := s.(slots := s.slots[k := v.slot]);
        match v
        case Pass(_) => Scan(s', i + 1, now, ev, consent)
        case Halt(_) => Scanned(s', Quiet)
        case Fire(_) => Scanned(s'.(firings := s.firings + 1), Fired(b))
  }

  // ---------------------------------------------------------------- operations

  function Position(bs: seq<Binding>, k: string): (i: nat)
    ensures i <= |bs| && (forall j :: 0 <= j < i ==> SlotKey(bs[j]) != k) && (i < |bs| ==> SlotKey(bs[i]) == k)
  {
    if bs == [] || SlotKey(bs[0]) == k then 0 else 1 + Position(bs[1..], k)
  }

  function Added(s: State, b: Binding): State {
    var k := SlotKey(b);
    var i := Position(s.bindings, k);
    var bs := if k !in s.slots then s.bindings + [b] else if i < |s.bindings| then s.bindings[i := b] else s.bindings;
    s.(bindings := bs, slots := s.slots[k := Fresh()])
  }

  function Removed(s: State, k: string): State {
    if k !in s.slots then s
    else
      var i := Position(s.bindings, k);
      s.(slots := s.slots - {k},
         bindings := if i < |s.bindings| then Without(s.bindings, i) else s.bindings)
  }

  function Engaged(s: State): State {
    s.(slots := map k | k in s.slots :: if s.slots[k].spent then s.slots[k].(engaged := true) else s.slots[k])
  }

  function FreshSlots(bs: seq<Binding>): map<string, Slot> {
    if bs == [] then map[] else FreshSlots(bs[..|bs| - 1])[SlotKey(bs[|bs| - 1]) := Fresh()]
  }

  function Start(bs: seq<Binding>, budget: int): State { State(bs, FreshSlots(bs), 0, Budget(budget)) }

  datatype Op =
    | Add(b: Binding)
    | Remove(key: string)
    | Engage
    | OnEvent(at: int, ev: Event, consent: Binding -> bool)

  function Step(s: State, op: Op): Scanned {
    match op
    case Add(b) => Scanned(Added(s, b), Quiet)
    case Remove(key) => Scanned(Removed(s, key), Quiet)
    case Engage => Scanned(Engaged(s), Quiet)
    case OnEvent(at, ev, consent) => Scan(s, 0, at, ev, consent)
  }

  function Exec(start: State, ops: seq<Op>): State {
    if ops == [] then start else Step(Exec(start, ops[..|ops| - 1]), ops[|ops| - 1]).state
  }

  /** What op i of the run did. */
  function Did(start: State, ops: seq<Op>, i: nat): Outcome
    requires i < |ops|
  {
    Step(Exec(start, ops[..i]), ops[i]).outcome
  }

  // ---------------------------------------------------------------- slots cover bindings

  ghost predicate DistinctKeys(bs: seq<Binding>) {
    forall i, j :: 0 <= i < j < |bs| ==> SlotKey(bs[i]) != SlotKey(bs[j])
  }

  ghost predicate HasSlots(s: State) { forall i :: 0 <= i < |s.bindings| ==> SlotKey(s.bindings[i]) in s.slots }

  ghost predicate HasBindings(s: State) {
    forall k :: k in s.slots ==> Position(s.bindings, k) < |s.bindings|
  }

  /** One slot per binding, one binding per slot. */
  ghost predicate Matched(s: State) { DistinctKeys(s.bindings) && HasSlots(s) && HasBindings(s) }

  lemma PositionFound(bs: seq<Binding>, i: int, k: string)
    requires 0 <= i < |bs| && SlotKey(bs[i]) == k
    ensures Position(bs, k) < |bs|
  {
    hide SlotKey, Position;
  }

  lemma {:induction false} StartMatched(bs: seq<Binding>, k: string)
    ensures k in FreshSlots(bs) <==> Position(bs, k) < |bs|
  {
    hide SlotKey;
    if bs != [] {
      var front := bs[..|bs| - 1];
      StartMatched(front, k);
      hide Position;
      if k in FreshSlots(front) { PositionFound(bs, Position(front, k), k); }
      if SlotKey(bs[|bs| - 1]) == k { PositionFound(bs, |bs| - 1, k); }
    }
  }

  lemma StartIsMatched(bs: seq<Binding>, budget: int)
    ensures HasSlots(Start(bs, budget)) && HasBindings(Start(bs, budget))
  {
    hide SlotKey, Position, FreshSlots;
    forall i | 0 <= i < |bs| ensures SlotKey(bs[i]) in FreshSlots(bs) {
      PositionFound(bs, i, SlotKey(bs[i]));
      StartMatched(bs, SlotKey(bs[i]));
    }
    forall k | k in FreshSlots(bs) ensures Position(bs, k) < |bs| { StartMatched(bs, k); }
  }

  lemma AddMatched(s: State, b: Binding)
    requires Matched(s)
    ensures Matched(Added(s, b))
  {
    hide SlotKey, Position;
    var s', k := Added(s, b), SlotKey(b);
    if k !in s.slots { assert s'.bindings[|s.bindings|] == b; }
    forall q | q in s'.slots ensures Position(s'.bindings, q) < |s'.bindings| {
      PositionFound(s'.bindings, if q in s.slots then Position(s.bindings, q) else |s.bindings|, q);
    }
  }

  function Without(bs: seq<Binding>, p: nat): (r: seq<Binding>)
    requires p < |bs|
    ensures |r| == |bs| - 1
    ensures forall i :: 0 <= i < p ==> r[i] == bs[i]
    ensures forall i :: p <= i < |r| ==> r[i] == bs[i + 1]
  {
    bs[..p] + bs[p + 1..]
  }

  lemma WithoutDistinct(bs: seq<Binding>, p: nat)
    requires DistinctKeys(bs) && p < |bs|
    ensures DistinctKeys(Without(bs, p))
    ensures forall i :: 0 <= i < |bs| - 1 ==> SlotKey(Without(bs, p)[i]) != SlotKey(bs[p])
  {
    hide SlotKey, Without;
    var r := Without(bs, p);
    forall i, j | 0 <= i < j < |r| ensures SlotKey(r[i]) != SlotKey(r[j]) {
      assert r[i] == bs[if i < p then i else i + 1] && r[j] == bs[if j < p then j else j + 1];
    }
    forall i | 0 <= i < |r| ensures SlotKey(r[i]) != SlotKey(bs[p]) {
      assert r[i] == bs[if i < p then i else i + 1];
    }
  }

  lemma WithoutStillHas(bs: seq<Binding>, p: nat, q: string)
    requires p < |bs| && SlotKey(bs[p]) != q && Position(bs, q) < |bs|
    ensures Position(Without(bs, p), q) < |bs| - 1
  {
    hide SlotKey, Without, Position;
    var i, r := Position(bs, q), Without(bs, p);
    if i < p {
      PositionFound(r, i, q);
    } else {
      assert r[i - 1] == bs[i];
      PositionFound(r, i - 1, q);
    }
  }

  lemma WithoutHasSlots(s: State, p: nat, slots: map<string, Slot>)
    requires HasSlots(s) && DistinctKeys(s.bindings) && p < |s.bindings| && slots == s.slots - {SlotKey(s.bindings[p])}
    ensures HasSlots(s.(bindings := Without(s.bindings, p), slots := slots))
  {
    WithoutDistinct(s.bindings, p);
    hide SlotKey, Without, DistinctKeys;
    var r := Without(s.bindings, p);
    forall i | 0 <= i < |r| ensures SlotKey(r[i]) in slots {
      assert r[i] == s.bindings[if i < p then i else i + 1];
    }
  }

  lemma RemoveMatched(s: State, k: string)
    requires Matched(s)
    ensures Matched(Removed(s, k))
  {
    if k in s.slots {
      var p := Position(s.bindings, k);
      assert p < |s.bindings|;
      WithoutDistinct(s.bindings, p);
      WithoutHasSlots(s, p, s.slots - {k});
      hide SlotKey, Without, Position, DistinctKeys, HasSlots;
      forall q | q in s.slots && q != k ensures Position(Without(s.bindings, p), q) < |s.bindings| - 1 {
        WithoutStillHas(s.bindings, p, q);
      }
    }
  }

  /** What a scan leaves alone. */
  lemma {:induction false} ScanFrame(s: State, i: nat, now: int, ev: Event, consent: Binding -> bool)
    requires i <= |s.bindings|
    ensures var r := Scan(s, i, now, ev, consent);
            && r.state.bindings == s.bindings && r.state.slots.Keys == s.slots.Keys && r.state.budget == s.budget
            && (HasSlots(s) ==> !r.outcome.Panic?)
            && r.state.firings == s.firings + (if r.outcome.Fired? then 1 else 0)
            && (r.outcome.Fired? ==> s.firings < s.budget && SlotKey(r.outcome.binding) in s.slots)
    decreases |s.bindings| - i
  {
    hide SlotKey;
    if i < |s.bindings| {
      var b := s.bindings[i];
      var k := SlotKey(b);
      if !Matches(b, ev) {
        ScanFrame(s, i + 1, now, ev, consent);
      } else if k in s.slots {
        var v := Visit(b, s.slots[k], s.firings < s.budget, now, consent(b));
        if v.Pass? { ScanFrame(s.(slots := s.slots[k := v.slot]), i + 1, now, ev, consent); }
      }
    }
  }

  lemma StepMatched(s: State, op: Op)
    requires Matched(s)
    ensures Matched(Step(s, op).state) && !Step(s, op).outcome.Panic?
  {
    match op
    case Add(b) => AddMatched(s, b);
    case Remove(k) => RemoveMatched(s, k);
    case Engage =>
    case OnEvent(at, ev, consent) => ScanFrame(s, 0, at, ev, consent);
  }

  lemma {:induction false} ExecMatched(bs: seq<Binding>, budget: int, ops: seq<Op>)
    requires DistinctKeys(bs)
    ensures Matched(Exec(Start(bs, budget), ops))
  {
    hide SlotKey, Step;
    if ops == [] {
      StartIsMatched(bs, budget);
    } else {
      ExecMatched(bs, budget, ops[..|ops| - 1]);
      StepMatched(Exec(Start(bs, budget), ops[..|ops| - 1]), ops[|ops| - 1]);
    }
  }

  lemma DuplicateLosesSlot(bs: seq<Binding>, budget: int, i: nat, j: nat)
    requires i < j < |bs| && SlotKey(bs[i]) == SlotKey(bs[j])
    ensures !HasSlots(Exec(Start(bs, budget), [Remove(SlotKey(bs[i]))]))
  {
    hide SlotKey, Without, Position, FreshSlots;
    StartIsMatched(bs, budget);
    var s, k := Start(bs, budget), SlotKey(bs[i]);
    assert [Remove(k)][..0] == [] && Exec(s, []) == s;
    var s' := Removed(s, k);
    assert Exec(s, [Remove(k)]) == s';
    assert s'.bindings[j - 1] == bs[j];
  }

  /** Every binding keeps its slot in every run exactly when the bindings the policy starts with have distinct keys. */
  lemma SlotsCoverBindings(bs: seq<Binding>, budget: int)
    ensures (forall ops :: HasSlots(Exec(Start(bs, budget), ops))) <==> DistinctKeys(bs)
  {
    if DistinctKeys(bs) {
      forall ops ensures HasSlots(Exec(Start(bs, budget), ops)) { ExecMatched(bs, budget, ops); }
    } else {
      var i, j :| 0 <= i < j < |bs| && SlotKey(bs[i]) == SlotKey(bs[j]);
      DuplicateLosesSlot(bs, budget, i, j);
    }
  }

  // ---------------------------------------------------------------- the budget

  function Fires(start: State, ops: seq<Op>): nat {
    if ops == [] then 0
    else Fires(start, ops[..|ops| - 1]) + if Did(start, ops, |ops| - 1).Fired? then 1 else 0
  }

  lemma StepCounts(s: State, op: Op)
    ensures var r := Step(s, op);
            && r.state.budget == s.budget && r.state.firings == s.firings + (if r.outcome.Fired? then 1 else 0)
            && (r.outcome.Fired? ==> s.firings < s.budget)
  {
    hide SlotKey;
    if op.OnEvent? { ScanFrame(s, 0, op.at, op.ev, op.consent); }
  }

  lemma StartsAtZero(bs: seq<Binding>, budget: int)
    ensures Start(bs, budget).firings == 0 && Start(bs, budget).budget == Budget(budget)
    ensures Budget(budget) == if budget > 0 then budget else 10
  {
  }

  /** The policy counts its firings, and never fires more often than its budget. */
  lemma {:induction false} BudgetHolds(bs: seq<Binding>, budget: int, ops: seq<Op>)
    ensures var s := Exec(Start(bs, budget), ops);
            s.firings == Fires(Start(bs, budget), ops) <= s.budget == if budget > 0 then budget else 10
  {
    hide SlotKey, Step, Start;
    if ops == [] {
      StartsAtZero(bs, budget);
    } else {
      var start, front, op := Start(bs, budget), ops[..|ops| - 1], ops[|ops| - 1];
      BudgetHolds(bs, budget, front);
      StepCounts(Exec(start, front), op);
    }
  }

  // ---------------------------------------------------------------- which binding an event fires

  /** The event is one the binding is for: of its name, of its server unless it takes any, and let through by its filter. */
  ghost predicate Hears(b: Binding, ev: Event) {
    b.event == ev.name && b.server in {"", ev.server} && (b.filter.Some? ==> b.filter.value(ev))
  }

  /** The slot is open, or the user engaged since it was spent and the binding's cooldown, five minutes unless set, is over. */
  ghost predicate Ready(b: Binding, slot: Slot, now: int) {
    !slot.spent || (slot.engaged && slot.spentAt + (if b.cooldown > 0 then b.cooldown else 300_000) <= now)
  }

  /** Binding p may fire on the event, as far as the budget goes. */
  ghost predicate Eligible(s: State, p: nat, now: int, ev: Event, consent: Binding -> bool) {
    && p < |s.bindings| && SlotKey(s.bindings[p]) in s.slots
    && Hears(s.bindings[p], ev) && Ready(s.bindings[p], s.slots[SlotKey(s.bindings[p])], now) && consent(s.bindings[p])
  }

  lemma MatchesIffHears(b: Binding, ev: Event)
    ensures Matches(b, ev) <==> Hears(b, ev)
  {
  }

  lemma OtherSlot(s: State, k: string, slot: Slot, p: nat, now: int, ev: Event, consent: Binding -> bool)
    requires p < |s.bindings| && SlotKey(s.bindings[p]) != k && k in s.slots
    ensures Eligible(s.(slots := s.slots[k := slot]), p, now, ev, consent) <==> Eligible(s, p, now, ev, consent)
  {
    hide SlotKey, Hears;
  }

  /** When keys are distinct, an event fires the first binding that hears it, is ready and is consented to, if the budget is
      not used up; and otherwise nothing. */
  lemma {:induction false} FirstEligibleFires(s: State, i: nat, now: int, ev: Event, consent: Binding -> bool) returns (p: nat)
    requires i <= |s.bindings| && DistinctKeys(s.bindings) && HasSlots(s)
    ensures i <= p <= |s.bindings| && forall q: nat :: i <= q < p ==> !Eligible(s, q, now, ev, consent)
    ensures p < |s.bindings| ==> Eligible(s, p, now, ev, consent)
    ensures Scan(s, i, now, ev, consent).outcome ==
              if p < |s.bindings| && s.firings < s.budget then Fired(s.bindings[p]) else Quiet
    decreases |s.bindings| - i
  {
    hide SlotKey, DistinctKeys, Hears, Matches;
    p := i;
    if i < |s.bindings| && !Eligible(s, i, now, ev, consent) {
      var b := s.bindings[i];
      var k := SlotKey(b);
      MatchesIffHears(b, ev);
      var v := Visit(b, s.slots[k], s.firings < s.budget, now, consent(b));
      var s' := if Matches(b, ev) then s.(slots := s.slots[k := v.slot]) else s;
      p := FirstEligibleFires(s', i + 1, now, ev, consent);
      LaterUnmoved(s, i, v.slot, now, ev, consent);
    } else if i < |s.bindings| {
      MatchesIffHears(s.bindings[i], ev);
    }
  }

  lemma LaterUnmoved(s: State, i: nat, slot: Slot, now: int, ev: Event, consent: Binding -> bool)
    requires i < |s.bindings| && DistinctKeys(s.bindings) && HasSlots(s)
    ensures var s' := s.(slots := s.slots[SlotKey(s.bindings[i]) := slot]);
            forall q: nat :: i < q < |s.bindings| ==>
              (Eligible(s', q, now, ev, consent) <==> Eligible(s, q, now, ev, consent))
  {
    hide SlotKey, Eligible;
    forall q: nat | i < q < |s.bindings|
      ensures Eligible(s.(slots := s.slots[SlotKey(s.bindings[i]) := slot]), q, now, ev, consent)
         <==> Eligible(s, q, now, ev, consent)
    {
      OtherSlot(s, SlotKey(s.bindings[i]), slot, q, now, ev, consent);
    }
  }

  /** Whatever the keys, only a binding that is for the event and consented to fires. */
  lemma {:induction false} FiresOnlyOnItsEvents(s: State, i: nat, now: int, ev: Event, consent: Binding -> bool)
    requires i <= |s.bindings| && Scan(s, i, now, ev, consent).outcome.Fired?
    ensures var b := Scan(s, i, now, ev, consent).outcome.binding; b in s.bindings && Hears(b, ev) && consent(b)
    decreases |s.bindings| - i
  {
    hide SlotKey, Hears, Matches, Resting;
    var b := s.bindings[i];
    MatchesIffHears(b, ev);
    if !Matches(b, ev) {
      FiresOnlyOnItsEvents(s, i + 1, now, ev, consent);
    } else {
      var v := Visit(b, s.slots[SlotKey(b)], s.firings < s.budget, now, consent(b));
      if v.Pass? { FiresOnlyOnItsEvents(s.(slots := s.slots[SlotKey(b) := v.slot]), i + 1, now, ev, consent); }
    }
  }

  /** So in every run from bindings with distinct keys, an event fires the first eligible binding within the budget. */
  lemma RunFiresFirstEligible(bs: seq<Binding>, budget: int, ops: seq<Op>, i: nat) returns (p: nat)
    requires DistinctKeys(bs) && i < |ops| && ops[i].OnEvent?
    ensures var s := Exec(Start(bs, budget), ops[..i]); var e := ops[i];
            && p <= |s.bindings| && (forall q: nat :: q < p ==> !Eligible(s, q, e.at, e.ev, e.consent))
            && (p < |s.bindings| ==> Eligible(s, p, e.at, e.ev, e.consent))
            && Did(Start(bs, budget), ops, i) ==
                 if p < |s.bindings| && s.firings < s.budget then Fired(s.bindings[p]) else Quiet
  {
    ExecMatched(bs, budget, ops[..i]);
    hide Exec, Start, Scan, Eligible;
    p := FirstEligibleFires(Exec(Start(bs, budget), ops[..i]), 0, ops[i].at, ops[i].ev, ops[i].consent);
  }

  /** Servers and event names without a slash give each binding a key of its own server, event and tag. */
  lemma KeysApart(a: Binding, b: Binding)
    requires '/' !in a.server && '/' !in b.server && '/' !in a.event && '/' !in b.event
    ensures SlotKey(a) == SlotKey(b) <==> a.server == b.server && a.event == b.event && a.tag == b.tag
  {
    if SlotKey(a) == SlotKey(b) {
      assert SlotKey(a) == a.server + "/" + (a.event + "/" + a.tag) && SlotKey(b) == b.server + "/" + (b.event + "/" + b.tag);
      FirstPart(a.server, a.event + "/" + a.tag, b.server, b.event + "/" + b.tag);
      FirstPart(a.event, a.tag, b.event, b.tag);
    }
  }

  lemma FirstPart(x: string, s: string, y: string, t: string)
    requires '/' !in x && '/' !in y && x + "/" + s == y + "/" + t
    ensures x == y && s == t
  {
    var l, r := x + "/" + s, y + "/" + t;
    assert l[..|x|] == x && r[..|y|] == y && l[|x| + 1..] == s && r[|y| + 1..] == t;
    assert l[|x|] == '/' && r[|y|] == '/';
    assert forall i :: 0 <= i < |x| ==> l[i] == x[i];
    assert forall i :: 0 <= i < |y| ==> r[i] == y[i];
  }

  // ---------------------------------------------------------------- between two firings of one slot

  /** Every binding with key k rests for at least c. */
  ghost predicate RestsFor(bs: seq<Binding>, k: string, c: int) {
    forall p :: 0 <= p < |bs| && SlotKey(bs[p]) == k ==> c <= Cooldown(bs[p])
  }

  predicate Rested(slot: Slot, c: int, now: int) { !slot.spent || (slot.engaged && slot.spentAt + c <= now) }

  /** What one event may do to a slot whose bindings rest for at least c: fire it or re-arm it when it has rested, or
      leave it. */
  predicate SlotMoves(c: int, slot: Slot, slot': Slot, now: int, fired: bool) {
    if fired then Rested(slot, c, now) && slot' == Slot(now, false, true)
    else slot' == slot || (Rested(slot, c, now) && slot' == slot.(spent := false))
  }

  ghost predicate FiredKey(o: Outcome, k: string) { o.Fired? && SlotKey(o.binding) == k }

  lemma {:induction false} ScanMovesSlot(s: State, i: nat, now: int, ev: Event, consent: Binding -> bool, k: string, c: int)
    requires i <= |s.bindings| && k in s.slots && RestsFor(s.bindings, k, c)
    ensures var r := Scan(s, i, now, ev, consent);
            k in r.state.slots && SlotMoves(c, s.slots[k], r.state.slots[k], now, FiredKey(r.outcome, k))
    decreases |s.bindings| - i
  {
    hide SlotKey;
    if i < |s.bindings| {
      var b := s.bindings[i];
      if !Matches(b, ev) {
        ScanMovesSlot(s, i + 1, now, ev, consent, k, c);
      } else if SlotKey(b) in s.slots {
        var v := Visit(b, s.slots[SlotKey(b)], s.firings < s.budget, now, consent(b));
        if v.Pass? { ScanMovesSlot(s.(slots := s.slots[SlotKey(b) := v.slot]), i + 1, now, ev, consent, k, c); }
      }
    }
  }

  predicate Touches(op: Op, k: string) { (op.Add? && SlotKey(op.b) == k) || (op.Remove? && op.key == k) }

  /** Only Add and Remove of k change which bindings have key k. */
  lemma RestStays(s: State, op: Op, k: string, c: int)
    requires !Touches(op, k) && RestsFor(Step(s, op).state.bindings, k, c)
    ensures RestsFor(s.bindings, k, c)
  {
    hide SlotKey, Position, Without, Scan;
    var bs := Step(s, op).state.bindings;
    if op.OnEvent? { ScanFrame(s, 0, op.at, op.ev, op.consent); }
    forall p | 0 <= p < |s.bindings| && SlotKey(s.bindings[p]) == k ensures c <= Cooldown(s.bindings[p]) {
      if op.Remove? && op.key in s.slots {
        var i := Position(s.bindings, op.key);
        assert i < |s.bindings| ==> s.bindings[p] == bs[if p < i then p else p - 1];
        assert i >= |s.bindings| ==> s.bindings[p] == bs[p];
      } else {
        assert s.bindings[p] == bs[p];
      }
    }
  }

  /** An operation that does not add or remove key k moves its slot only by engagement, by re-arming when it has rested,
      or by firing. */
  lemma StepOnSlot(s: State, op: Op, k: string, c: int)
    requires k in s.slots && !Touches(op, k) && RestsFor(s.bindings, k, c)
    ensures var r := Step(s, op);
            && k in r.state.slots
            && (FiredKey(r.outcome, k) ==> op.OnEvent?)
            && (op.OnEvent? ==> SlotMoves(c, s.slots[k], r.state.slots[k], op.at, FiredKey(r.outcome, k)))
            && (!op.OnEvent? ==>
                  r.state.slots[k] == s.slots[k]
                  || (op.Engage? && r.state.slots[k] == s.slots[k].(engaged := true)))
  {
    hide SlotKey, Position, Scan, RestsFor;
    if op.OnEvent? { ScanMovesSlot(s, 0, op.at, op.ev, op.consent, k, c); }
  }

  ghost predicate EngagedIn(ops: seq<Op>, i: int, j: int)
    requires 0 <= i && j <= |ops|
  {
    exists m :: i < m < j && ops[m].Engage?
  }

  /** Some event after op i came at or after time t. */
  ghost predicate ReachedIn(ops: seq<Op>, i: int, t: int)
    requires 0 <= i
  {
    exists m :: i < m < |ops| && ops[m].OnEvent? && t <= ops[m].at
  }

  ghost predicate Monotone(ops: seq<Op>) {
    forall i, j :: 0 <= i < j < |ops| && ops[i].OnEvent? && ops[j].OnEvent? ==> ops[i].at <= ops[j].at
  }

  /** What a slot says about the run since it last fired at op f. */
  ghost predicate Remembers(ops: seq<Op>, f: nat, c: int, slot: Slot) {
    && f < |ops| && ops[f].OnEvent?
    && (slot.spent ==> slot.spentAt == ops[f].at && (slot.engaged ==> EngagedIn(ops, f, |ops|)))
    && (!slot.spent ==> EngagedIn(ops, f, |ops|) && ReachedIn(ops, f, ops[f].at + c))
  }

  lemma WitnessesStay(ops: seq<Op>, op: Op, i: nat, t: int)
    requires i < |ops|
    ensures EngagedIn(ops, i, |ops|) || op.Engage? ==> EngagedIn(ops + [op], i, |ops| + 1)
    ensures ReachedIn(ops, i, t) || (op.OnEvent? && t <= op.at) ==> ReachedIn(ops + [op], i, t)
  {
    var all := ops + [op];
    assert all[|ops|] == op;
    if EngagedIn(ops, i, |ops|) {
      var m :| i < m < |ops| && ops[m].Engage?;
      assert all[m] == ops[m];
    }
    if ReachedIn(ops, i, t) {
      var m :| i < m < |ops| && ops[m].OnEvent? && t <= ops[m].at;
      assert all[m] == ops[m];
    }
  }

  lemma RemembersStep(ops: seq<Op>, op: Op, f: nat, c: int, slot: Slot, slot': Slot)
    requires Remembers(ops, f, c, slot)
    requires op.OnEvent? ==> SlotMoves(c, slot, slot', op.at, false)
    requires !op.OnEvent? ==> slot' == slot || (op.Engage? && slot' == slot.(engaged := true))
    ensures Remembers(ops + [op], f, c, slot')
  {
    WitnessesStay(ops, op, f, ops[f].at + c);
    assert (ops + [op])[f] == ops[f];
    hide EngagedIn, ReachedIn;
  }

  lemma JustFired(ops: seq<Op>, op: Op, c: int, slot: Slot)
    requires op.OnEvent? && slot == Slot(op.at, false, true)
    ensures Remembers(ops + [op], |ops|, c, slot)
  {
  }

  ghost predicate Untouched(ops: seq<Op>, i: int, j: int, k: string)
    requires 0 <= i && j <= |ops|
  {
    forall m :: i < m < j ==> !Touches(ops[m], k)
  }

  lemma ExecMore(start: State, ops: seq<Op>, n: nat)
    requires n < |ops|
    ensures Exec(start, ops[..n + 1]) == Step(Exec(start, ops[..n]), ops[n]).state && ops[..n + 1] == ops[..n] + [ops[n]]
  {
    assert ops[..n + 1][..n] == ops[..n];
  }

  /** The slot after the op that fires it. */
  lemma FiringSlot(s: State, op: Op, k: string, c: int)
    requires op.OnEvent? && FiredKey(Step(s, op).outcome, k) && RestsFor(s.bindings, k, c)
    ensures k in s.slots && k in Step(s, op).state.slots && Step(s, op).state.slots[k] == Slot(op.at, false, true)
    ensures Rested(s.slots[k], c, op.at)
  {
    hide SlotKey, RestsFor, Scan;
    ScanFrame(s, 0, op.at, op.ev, op.consent);
    ScanMovesSlot(s, 0, op.at, op.ev, op.consent, k, c);
  }

  /** From a firing of k on, as long as k is neither added nor removed, its slot remembers its last firing. */
  lemma {:induction false} SlotRemembers(start: State, ops: seq<Op>, i: nat, n: nat, k: string, c: int) returns (f: nat)
    requires i < n <= |ops| && ops[i].OnEvent? && FiredKey(Did(start, ops, i), k) && Untouched(ops, i, n, k)
    requires RestsFor(Exec(start, ops[..n]).bindings, k, c)
    ensures i <= f < n && k in Exec(start, ops[..n]).slots
    ensures Remembers(ops[..n], f, c, Exec(start, ops[..n]).slots[k])
    decreases n
  {
    var m := n - 1;
    ExecMore(start, ops, m);
    var s, op := Exec(start, ops[..m]), ops[m];
    hide SlotKey, Exec, Step, SlotMoves, Remembers, RestsFor;
    if m == i {
      RestStays(s, op, k, c);
      FiringSlot(s, op, k, c);
      JustFired(ops[..m], op, c, Step(s, op).state.slots[k]);
      f := m;
    } else {
      RestStays(s, op, k, c);
      var g := SlotRemembers(start, ops, i, m, k, c);
      StepOnSlot(s, op, k, c);
      if FiredKey(Step(s, op).outcome, k) {
        FiringSlot(s, op, k, c);
        JustFired(ops[..m], op, c, Step(s, op).state.slots[k]);
        f := m;
      } else {
        RemembersStep(ops[..m], op, g, c, s.slots[k], Step(s, op).state.slots[k]);
        f := g;
      }
    }
  }

  lemma SecondFiring(ops: seq<Op>, j: nat, f: nat, c: int, slot: Slot)
    requires j < |ops| && ops[j].OnEvent? && Monotone(ops) && Remembers(ops[..j], f, c, slot) && Rested(slot, c, ops[j].at)
    ensures EngagedIn(ops, f, j) && ops[f].OnEvent? && ops[f].at + c <= ops[j].at
  {
    var front := ops[..j];
    if !slot.spent {
      var m :| f < m < |front| && front[m].OnEvent? && front[f].at + c <= front[m].at;
      assert ops[m] == front[m];
    }
    var m :| f < m < |front| && front[m].Engage?;
    assert ops[m].Engage?;
  }

  /** Between two firings of one slot, with no Add or Remove of its key between them, there is an engagement, and at least
      c has passed if every binding that shares the slot has a cooldown of at least c; whatever the consent answers, the
      budget and the other bindings in between, and from any state at all. */
  lemma AntiNag(start: State, ops: seq<Op>, i: nat, j: nat, k: string, c: int)
    requires Monotone(ops) && i < j < |ops| && ops[i].OnEvent? && ops[j].OnEvent?
    requires FiredKey(Did(start, ops, i), k) && FiredKey(Did(start, ops, j), k) && Untouched(ops, i, j, k)
    requires RestsFor(Exec(start, ops[..j]).bindings, k, c)
    ensures EngagedIn(ops, i, j) && ops[i].at + c <= ops[j].at
  {
    var s := Exec(start, ops[..j]);
    var f := SlotRemembers(start, ops, i, j, k, c);
    FiringSlot(s, ops[j], k, c);
    SecondFiring(ops, j, f, c, s.slots[k]);
    assert ops[i].at <= ops[f].at;
    hide Monotone, Exec, Step, Remembers;
    var m :| f < m < j && ops[m].Engage?;
  }

  lemma {:induction false} FiredIsBinding(s: State, i: nat, now: int, ev: Event, consent: Binding -> bool) returns (p: nat)
    requires i <= |s.bindings| && Scan(s, i, now, ev, consent).outcome.Fired?
    ensures p < |s.bindings| && s.bindings[p] == Scan(s, i, now, ev, consent).outcome.binding
    decreases |s.bindings| - i
  {
    hide SlotKey;
    var b := s.bindings[i];
    p := i;
    if !Matches(b, ev) {
      p := FiredIsBinding(s, i + 1, now, ev, consent);
    } else if SlotKey(b) in s.slots {
      var v := Visit(b, s.slots[SlotKey(b)], s.firings < s.budget, now, consent(b));
      if v.Pass? { p := FiredIsBinding(s.(slots := s.slots[SlotKey(b) := v.slot]), i + 1, now, ev, consent); }
    }
  }

  // ---------------------------------------------------------------- a binding's own cooldown

  /** Ops i and j fire slot k, its key is untouched in between, and the second comes before the cooldown of the binding it
      fires is over. */
  ghost predicate TooSoon(start: State, ops: seq<Op>, i: nat, j: nat, k: string) {
    && Monotone(ops) && i < j < |ops| && ops[i].OnEvent? && ops[j].OnEvent?
    && FiredKey(Did(start, ops, i), k) && FiredKey(Did(start, ops, j), k) && Untouched(ops, i, j, k)
    && ops[j].at < ops[i].at + Cooldown(Did(start, ops, j).binding)
  }

  /** With distinct keys to start with, no slot is shared. */
  lemma DistinctNeverTooSoon(bs: seq<Binding>, budget: int, ops: seq<Op>, i: nat, j: nat, k: string)
    requires DistinctKeys(bs)
    ensures !TooSoon(Start(bs, budget), ops, i, j, k)
  {
    var start := Start(bs, budget);
    if i < j < |ops| && ops[j].OnEvent? && FiredKey(Did(start, ops, j), k) {
      var s, op := Exec(start, ops[..j]), ops[j];
      ExecMatched(bs, budget, ops[..j]);
      var p := FiredIsBinding(s, 0, op.at, op.ev, op.consent);
      OnlySharer(s, p, k);
      hide SlotKey, Exec, Start, Step, Matched, Scan;
      NotTooSoon(start, ops, i, j, k, Cooldown(s.bindings[p]));
    }
  }

  lemma OnlySharer(s: State, p: nat, k: string)
    requires Matched(s) && p < |s.bindings| && SlotKey(s.bindings[p]) == k
    ensures RestsFor(s.bindings, k, Cooldown(s.bindings[p]))
  {
    hide SlotKey;
    forall q | 0 <= q < |s.bindings| && SlotKey(s.bindings[q]) == k ensures s.bindings[q] == s.bindings[p] {
      assert q == p;
    }
  }

  lemma NotTooSoon(start: State, ops: seq<Op>, i: nat, j: nat, k: string, c: int)
    requires j < |ops| && RestsFor(Exec(start, ops[..j]).bindings, k, c)
    requires FiredKey(Did(start, ops, j), k) && c == Cooldown(Did(start, ops, j).binding)
    ensures !TooSoon(start, ops, i, j, k)
  {
    hide SlotKey, Exec, Step, RestsFor;
    if Monotone(ops) && i < j && ops[i].OnEvent? && ops[j].OnEvent? && FiredKey(Did(start, ops, i), k)
       && Untouched(ops, i, j, k) {
      AntiNag(start, ops, i, j, k, c);
    }
  }

  lemma {:induction false} FiresAtLeast(start: State, ops: seq<Op>, i: nat, j: nat)
    requires i <= j < |ops| && Did(start, ops, i).Fired? && Did(start, ops, j).Fired?
    ensures Fires(start, ops) >= if i < j then 2 else 1
  {
    hide Step, Exec;
    var n := |ops| - 1;
    var front := ops[..n];
    if i < n {
      assert front[..i] == ops[..i];
      if j < n { assert front[..j] == ops[..j]; }
      FiresAtLeast(start, front, i, if j < n then j else i);
    }
  }

  /** A budget of one has no second firing. */
  lemma BudgetOfOne(bs: seq<Binding>, budget: int, ops: seq<Op>, i: nat, j: nat, k: string)
    requires Budget(budget) < 2
    ensures !TooSoon(Start(bs, budget), ops, i, j, k)
  {
    var start := Start(bs, budget);
    BudgetHolds(bs, budget, ops);
    hide SlotKey, Exec, Start, Step, Fires;
    if i < j < |ops| && FiredKey(Did(start, ops, i), k) && FiredKey(Did(start, ops, j), k) {
      FiresAtLeast(start, ops, i, j);
    }
  }

  // A shared slot, used against the binding with the longer cooldown.

  /** b without its filter, and with another cooldown. */
  function Sharer(b: Binding, cooldown: int): Binding { b.(cooldown := cooldown, filter := None) }

  function Only(k: string): Binding -> bool { (b: Binding) => SlotKey(b) == k }

  function Decline(): Binding -> bool { (b: Binding) => false }

  /** Every binding has a slot, nothing but k is spent, and there is budget left. */
  ghost predicate Calm(s: State, k: string) {
    HasSlots(s) && k in s.slots && s.firings < s.budget && forall q :: q in s.slots && q != k ==> !s.slots[q].spent
  }

  /** The first binding of key k takes every event of b's, rests for 1000, and the last one rests for 1. */
  ghost predicate Armed(s: State, b: Binding, p: nat) {
    && p < |s.bindings| - 1 && s.bindings[p] == Sharer(b, 1000) && s.bindings[|s.bindings| - 1] == Sharer(b, 1)
    && forall j :: 0 <= j < p ==> SlotKey(s.bindings[j]) != SlotKey(b)
  }

  lemma {:induction false} ScanReaches(s: State, i: nat, p: nat, now: int, ev: Event, k: string)
    requires i <= p <= |s.bindings| && Calm(s, k) && forall j :: i <= j < p ==> SlotKey(s.bindings[j]) != k
    ensures Scan(s, i, now, ev, Only(k)) == Scan(s, p, now, ev, Only(k))
    decreases p - i
  {
    hide SlotKey;
    if i < p {
      var b := s.bindings[i];
      assert SlotKey(b) in s.slots && SlotKey(b) != k;
      assert s.slots[SlotKey(b) := s.slots[SlotKey(b)]] == s.slots;
      ScanReaches(s, i + 1, p, now, ev, k);
    }
  }

  /** An open slot fires the first binding of its key. */
  lemma OpenFires(s: State, b: Binding, p: nat, now: int, ev: Event)
    requires Calm(s, SlotKey(b)) && Armed(s, b, p) && Matches(Sharer(b, 1000), ev) && !s.slots[SlotKey(b)].spent
    ensures Scan(s, 0, now, ev, Only(SlotKey(b)))
         == Scanned(s.(slots := s.slots[SlotKey(b) := Slot(now, false, true)], firings := s.firings + 1), Fired(Sharer(b, 1000)))
  {
    var k := SlotKey(b);
    assert SlotKey(Sharer(b, 1000)) == k;
    hide SlotKey, Matches;
    ScanReaches(s, 0, p, now, ev, k);
  }

  /** Declining every binding leaves open what one of them re-armed. */
  lemma {:induction false} DeclineOpens(s: State, i: nat, b: Binding, now: int, ev: Event)
    requires i < |s.bindings| && Calm(s, SlotKey(b)) && s.bindings[|s.bindings| - 1] == Sharer(b, 1)
    requires Matches(Sharer(b, 1), ev) && Rested(s.slots[SlotKey(b)], 1, now)
    ensures var r := Scan(s, i, now, ev, Decline());
            && r.outcome == Quiet && r.state == s.(slots := r.state.slots) && Calm(r.state, SlotKey(b))
            && !r.state.slots[SlotKey(b)].spent
    decreases |s.bindings| - i
  {
    var k := SlotKey(b);
    assert SlotKey(Sharer(b, 1)) == k;
    hide SlotKey, Matches;
    var c := s.bindings[i];
    if !Matches(c, ev) {
      DeclineOpens(s, i + 1, b, now, ev);
    } else {
      var v := Visit(c, s.slots[SlotKey(c)], true, now, false);
      var s' := s.(slots := s.slots[SlotKey(c) := v.slot]);
      assert v.Pass? && Calm(s', k) && Rested(s'.slots[k], 1, now);
      if i + 1 < |s.bindings| { DeclineOpens(s', i + 1, b, now, ev); }
    }
  }

  lemma SharerKey(b: Binding, cooldown: int)
    ensures SlotKey(Sharer(b, cooldown)) == SlotKey(b) && Matches(Sharer(b, cooldown), Event(b.server, b.event, ""))
  {
  }

  /** Setting the slot up: the first duplicate goes, a binding that rests for 1 is appended, and one that rests for 1000
      takes the place of the next duplicate. */
  lemma SetUp(bs: seq<Binding>, budget: int, p: nat, q: nat) returns (at: nat)
    requires p < q < |bs| && SlotKey(bs[p]) == SlotKey(bs[q]) && Budget(budget) >= 2
    ensures var b := bs[p]; var k := SlotKey(b);
            var s := Added(Added(Removed(Start(bs, budget), k), Sharer(b, 1)), Sharer(b, 1000));
            && Calm(s, k) && Armed(s, b, at) && s.slots[k] == Fresh() && s.firings == 0 && s.budget == Budget(budget)
            && forall r :: r in s.slots ==> s.slots[r] == Fresh()
  {
    hide SlotKey, Position, FreshSlots, Removed, Added, HasSlots, Fresh, HasBindings, Calm, Armed, Sharer;
    var b, k, s0 := bs[p], SlotKey(bs[p]), Start(bs, budget);
    SharerKey(b, 1);
    SharerKey(b, 1000);
    StartIsMatched(bs, budget);
    AllFresh(bs);
    OneRemoved(s0, k, p, q);
    var s1 := Removed(s0, k);
    TwoAdded(s1, k, q - 1, Sharer(b, 1), Sharer(b, 1000));
    at := Position(s1.bindings + [Sharer(b, 1)], k);
    ArmedAndCalm(s1, b, at);
  }

  lemma ArmedAndCalm(s: State, b: Binding, at: nat)
    requires at < |s.bindings| && s.firings == 0 < s.budget && forall r :: r in s.slots ==> s.slots[r] == Fresh()
    requires var k := SlotKey(b); var bs := (s.bindings + [Sharer(b, 1)])[at := Sharer(b, 1000)];
             && HasSlots(s.(bindings := bs, slots := s.slots[k := Fresh()]))
             && forall j :: 0 <= j < at ==> SlotKey(bs[j]) != k
    ensures var k := SlotKey(b); var bs := (s.bindings + [Sharer(b, 1)])[at := Sharer(b, 1000)];
            var s' := s.(bindings := bs, slots := s.slots[k := Fresh()]);
            Calm(s', k) && Armed(s', b, at) && forall r :: r in s'.slots ==> s'.slots[r] == Fresh()
  {
    hide SlotKey, HasSlots;
  }

  lemma OneRemoved(s: State, k: string, p: nat, q: nat)
    requires HasSlots(s) && p < q < |s.bindings| && SlotKey(s.bindings[p]) == k == SlotKey(s.bindings[q])
    ensures var s' := Removed(s, k);
            && |s'.bindings| == |s.bindings| - 1 && SlotKey(s'.bindings[q - 1]) == k && s'.slots == s.slots - {k}
            && s' == s.(bindings := s'.bindings, slots := s'.slots)
            && forall i :: 0 <= i < |s'.bindings| ==> SlotKey(s'.bindings[i]) in s.slots
  {
    hide SlotKey, Position, Without;
    PositionFound(s.bindings, p, k);
    var first, s' := Position(s.bindings, k), Removed(s, k);
    assert first <= p && s'.bindings == Without(s.bindings, first);
    assert s'.bindings[q - 1] == s.bindings[q];
    forall i | 0 <= i < |s'.bindings| ensures SlotKey(s'.bindings[i]) in s.slots {
      assert s'.bindings[i] == s.bindings[if i < first then i else i + 1];
    }
  }

  lemma TwoAdded(s: State, k: string, q: nat, b1: Binding, b2: Binding)
    requires q < |s.bindings| && SlotKey(s.bindings[q]) == k == SlotKey(b1) == SlotKey(b2) && k !in s.slots
    requires forall i :: 0 <= i < |s.bindings| ==> SlotKey(s.bindings[i]) in s.slots || SlotKey(s.bindings[i]) == k
    ensures var s' := Added(Added(s, b1), b2); var at := Position(s.bindings + [b1], k);
            && at < |s.bindings| && s' == s.(bindings := (s.bindings + [b1])[at := b2], slots := s.slots[k := Fresh()])
            && HasSlots(s') && forall j :: 0 <= j < at ==> SlotKey(s'.bindings[j]) != k
  {
    hide SlotKey, Position;
    var bs, at := s.bindings + [b1], Position(s.bindings + [b1], k);
    assert bs[q] == s.bindings[q];
    assert at <= q;
    var s1 := Added(s, b1);
    assert s1 == s.(bindings := bs, slots := s.slots[k := Fresh()]);
    assert s1.slots[k := Fresh()] == s1.slots;
  }

  lemma {:induction false} AllFresh(bs: seq<Binding>)
    ensures forall k :: k in FreshSlots(bs) ==> FreshSlots(bs)[k] == Fresh()
  {
    hide SlotKey;
    if bs != [] { AllFresh(bs[..|bs| - 1]); }
  }

  /** The run that cuts b's cooldown short. */
  function ShortRun(b: Binding): seq<Op> {
    var ev, k := Event(b.server, b.event, ""), SlotKey(b);
    [Remove(k), Add(Sharer(b, 1)), Add(Sharer(b, 1000)), OnEvent(0, ev, Only(k)), Engage, OnEvent(1, ev, Decline()),
     OnEvent(2, ev, Only(k))]
  }

  lemma EngageWakes(s: State, k: string)
    requires Calm(s, k) && s.slots[k] == Slot(0, false, true)
    ensures var s' := Engaged(s); s' == s.(slots := s'.slots) && Calm(s', k) && s'.slots[k] == Slot(0, true, true)
  {
  }

  /** From any bindings of which two share a slot, and a budget of at least two, some run fires a binding again 2
      milliseconds after it fired, although its own cooldown is 1000: one that shares its slot re-arms it. */
  lemma SharedSlotCutsShort(bs: seq<Binding>, budget: int, p: nat, q: nat)
    requires p < q < |bs| && SlotKey(bs[p]) == SlotKey(bs[q]) && Budget(budget) >= 2
    ensures TooSoon(Start(bs, budget), ShortRun(bs[p]), 3, 6, SlotKey(bs[p]))
  {
    var b, k, s0, ops := bs[p], SlotKey(bs[p]), Start(bs, budget), ShortRun(bs[p]);
    hide SlotKey, Added, Removed, Start, Exec, Step, Calm, Armed, ShortRun, Sharer, Monotone, Untouched, Did, Budget;
    var at := SetUp(bs, budget, p, q);
    ShortStart(s0, b);
    ShortDid(s0, b);
    SharerKey(b, 1000);
    ShortShape(b);
    ShortEnd(Exec(s0, ops[..3]), b, at, ops);
  }

  lemma ShortStart(s: State, b: Binding)
    ensures |ShortRun(b)| == 7
    ensures Exec(s, ShortRun(b)[..3]) == Added(Added(Removed(s, SlotKey(b)), Sharer(b, 1)), Sharer(b, 1000))
  {
    hide SlotKey, Added, Removed;
    var ops := ShortRun(b);
    assert ops[..0] == [] && Exec(s, []) == s;
    ExecMore(s, ops, 0);
    ExecMore(s, ops, 1);
    ExecMore(s, ops, 2);
  }

  lemma ShortShape(b: Binding)
    ensures var ops := ShortRun(b);
            && |ops| == 7 && Monotone(ops) && Untouched(ops, 3, 6, SlotKey(b)) && ops[3].OnEvent? && ops[6].OnEvent?
            && ops[3].at == 0 && ops[6].at == 2 && Cooldown(Sharer(b, 1000)) == 1000
  {
    hide SlotKey;
  }

  lemma ShortDid(s: State, b: Binding)
    ensures var ops := ShortRun(b); var s0 := Exec(s, ops[..3]); var s1 := Step(s0, ops[3]);
            var s2 := Step(s1.state, ops[4]); var s3 := Step(s2.state, ops[5]);
            Did(s, ops, 3) == s1.outcome && Did(s, ops, 6) == Step(s3.state, ops[6]).outcome
  {
    hide Exec, Step, SlotKey;
    var ops := ShortRun(b);
    ExecMore(s, ops, 3);
    ExecMore(s, ops, 4);
    ExecMore(s, ops, 5);
  }

  lemma ShortEnd(s: State, b: Binding, p: nat, ops: seq<Op>)
    requires ops == ShortRun(b) && Calm(s, SlotKey(b)) && Armed(s, b, p) && s.slots[SlotKey(b)] == Fresh()
    requires s.firings == 0 && s.budget >= 2
    ensures var s1 := Step(s, ops[3]); var s2 := Step(s1.state, ops[4]); var s3 := Step(s2.state, ops[5]);
            s1.outcome == Fired(Sharer(b, 1000)) && Step(s3.state, ops[6]).outcome == Fired(Sharer(b, 1000))
  {
    var k, ev := SlotKey(b), Event(b.server, b.event, "");
    assert Matches(Sharer(b, 1), ev) && Matches(Sharer(b, 1000), ev);
    OpenFires(s, b, p, 0, ev);
    var s1 := Step(s, ops[3]).state;
    assert Calm(s1, k);
    EngageWakes(s1, k);
    var s2 := Step(s1, ops[4]).state;
    hide SlotKey, Matches, Scan;
    DeclineOpens(s2, 0, b, 1, ev);
    OpenFires(Step(s2, ops[5]).state, b, p, 2, ev);
  }

  /** A binding's own cooldown holds in every run exactly when the bindings the policy starts with have distinct keys, or
      the budget is one. */
  lemma OwnCooldown(bs: seq<Binding>, budget: int)
    ensures (forall ops, i: nat, j: nat, k :: !TooSoon(Start(bs, budget), ops, i, j, k))
       <==> DistinctKeys(bs) || Budget(budget) < 2
  {
    hide TooSoon, SlotKey, Start;
    if DistinctKeys(bs) || Budget(budget) < 2 {
      forall ops, i: nat, j: nat, k ensures !TooSoon(Start(bs, budget), ops, i, j, k) {
        if DistinctKeys(bs) {
          DistinctNeverTooSoon(bs, budget, ops, i, j, k);
        } else {
          BudgetOfOne(bs, budget, ops, i, j, k);
        }
      }
    } else {
      var p, q :| 0 <= p < q < |bs| && SlotKey(bs[p]) == SlotKey(bs[q]);
      SharedSlotCutsShort(bs, budget, p, q);
    }
  }

  lemma KeyParts(b: Binding)
    ensures SlotKey(b) == b.server + "/" + b.event + "/" + b.tag
  {
  }

  // ---------------------------------------------------------------- the class

  class TriggerPolicy {
    var bindings: seq<Binding>
    var slots: map<string, Slot>
    var firings: nat
    const budget: nat

    function View(): State reads this { State(bindings, slots, firings, budget) }

    constructor (bs: seq<Binding>, budget: int)
      ensures View() == Start(bs, budget)
    {
      this.budget := Budget(budget);
      var s: map<string, Slot> := map[];
      for i := 0 to |bs|
        invariant s == FreshSlots(bs[..i])
      {
        assert bs[..i + 1][..i] == bs[..i];
        s := s[SlotKey(bs[i]) := Fresh()];
      }
      assert bs[..|bs|] == bs;
      bindings, slots, firings := bs, s, 0;
    }

    /** The position of the first binding with key k. */
    method Locate(k: string) returns (i: nat)
      ensures i == Position(bindings, k)
    {
      hide SlotKey, Position;
      i := 0;
      while i < |bindings| && SlotKey(bindings[i]) != k
        invariant i <= |bindings| && forall j :: 0 <= j < i ==> SlotKey(bindings[j]) != k
      {
        i := i + 1;
      }
    }

    /** A binding of the same server, event and tag is replaced, and its slot re-armed; otherwise it comes last. */
    method Add(b: Binding)
      modifies this
      ensures View() == Added(old(View()), b)
      ensures var k := b.server + "/" + b.event + "/" + b.tag;
              && slots == old(slots)[k := Slot(0, false, false)] && firings == old(firings)
              && (k !in old(slots) ==> bindings == old(bindings) + [b])
              && (k in old(slots) ==>
                    && |bindings| == |old(bindings)|
                    && forall i :: 0 <= i < |bindings| ==>
                         bindings[i] == if i == Position(old(bindings), k) then b else old(bindings)[i])
    {
      KeyParts(b);
      hide SlotKey, Position;
      var k := SlotKey(b);
      if k in slots {
        var i := Locate(k);
        if i < |bindings| { bindings := bindings[i := b]; }
      } else {
        bindings := bindings + [b];
      }
      slots := slots[k := Fresh()];
    }

    method Remove(server: string, event: string, tag: string) returns (removed: bool)
      modifies this
      ensures var k := SlotKey(Binding(server, event, tag, 0, None));
              View() == Removed(old(View()), k) && removed == (k in old(slots))
      ensures var k := server + "/" + event + "/" + tag;
              && slots == old(slots) - {k} && firings == old(firings)
              && (!removed || Position(old(bindings), k) == |old(bindings)| ==> bindings == old(bindings))
              && (removed && Position(old(bindings), k) < |old(bindings)| ==>
                    bindings == old(bindings)[..Position(old(bindings), k)] + old(bindings)[Position(old(bindings), k) + 1..])
    {
      KeyParts(Binding(server, event, tag, 0, None));
      hide SlotKey, Position;
      var k := SlotKey(Binding(server, event, tag, 0, None));
      if k !in slots { return false; }
      slots := slots - {k};
      var i := Locate(k);
      if i < |bindings| { bindings := Without(bindings, i); }
      return true;
    }

    /** OnEvent; consent is what the gate says of each binding for this event. */
    method OnEvent(now: int, ev: Event, consent: Binding -> bool) returns (r: Outcome)
      modifies this
      ensures var d := Scan(old(View()), 0, now, ev, consent); View() == d.state && r == d.outcome
    {
      hide SlotKey, Matches;
      ghost var s := View();
      var i := 0;
      while i < |bindings|
        invariant i <= |bindings| && Scan(View(), i, now, ev, consent) == Scan(s, 0, now, ev, consent)
      {
        var b := bindings[i];
        i := i + 1;
        if !Matches(b, ev) { continue; }
        var k := SlotKey(b);
        if k !in slots { return Panic; }
        var slot := slots[k];
        if slot.spent {
          if !slot.engaged || now < slot.spentAt + Cooldown(b) {
            assert slots[k := slot] == slots;
            continue;
          }
          slot := slot.(spent := false);
        }
        slots := slots[k := slot];
        if firings >= budget { return Quiet; }
        if !consent(b) { continue; }
        slots := slots[k := Slot(now, false, true)];
        firings := firings + 1;
        return Fired(b);
      }
      r := Quiet;
    }

    method NotifyEngagement()
      modifies this
      ensures View() == Engaged(old(View()))
      ensures slots.Keys == old(slots).Keys && bindings == old(bindings) && firings == old(firings)
      ensures forall k :: k in slots ==>
                slots[k] == old(slots)[k].(engaged := old(slots)[k].engaged || old(slots)[k].spent)
    {
      slots := map k | k in slots :: if slots[k].spent then slots[k].(engaged := true) else slots[k];
    }
  }
}
