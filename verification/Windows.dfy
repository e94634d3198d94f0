/** The window stage that folds a burst of events of one key into one event. Time is an integer. */
module Windows {
  import opened Wrappers
  import opened Events

  function KeyOf(ev: Event): string { ev.server + "/" + ev.name }

  /** Events of one name share a key exactly when they come from one server; so do any two events when server names hold no
      slash and their names agree. */
  lemma KeysApart(a: Event, b: Event)
    ensures a.name == b.name ==> (KeyOf(a) == KeyOf(b) <==> a.server == b.server)
    ensures '/' !in a.server && '/' !in b.server ==> (KeyOf(a) == KeyOf(b) <==> a.server == b.server && a.name == b.name)
  {
    var n, m := |a.server|, |b.server|;
    assert KeyOf(a)[..n] == a.server && KeyOf(b)[..m] == b.server && KeyOf(a)[n + 1..] == a.name && KeyOf(b)[m + 1..] == b.name;
    assert KeyOf(a)[n] == '/' && KeyOf(b)[m] == '/';
    assert n < m ==> KeyOf(b)[n] == b.server[n];
    assert m < n ==> KeyOf(a)[m] == a.server[m];
  }

  /** Any strategy the code does not know behaves as last-wins. */
  datatype Strategy = LastWins | Merge | Debounce | Unrecognised(text: string)

  datatype Config = Config(d: int, strategy: Strategy, merge: Option<(Event, Event) -> Event>)

  datatype Bucket = Bucket(acc: Event, deadline: int)

  datatype Window = Window(order: seq<string>, buckets: map<string, Bucket>)

  function Empty(): Window { Window([], map[]) }

  predicate Folds(c: Config) { c.strategy.Merge? && c.merge.Some? }

  function Joined(c: Config, w: Window, now: int, ev: Event): Window {
    var k := KeyOf(ev);
    if k !in w.buckets then Window(w.order + [k], w.buckets[k := Bucket(ev, now + c.d)])
    else
      var b := w.buckets[k];
      w.(buckets := w.buckets[k := Bucket(if Folds(c) then c.merge.value(b.acc, ev) else ev,
                                          if c.strategy.Debounce? then now + c.d else b.deadline)])
  }

  predicate Due(w: Window, now: int, k: string) { k in w.buckets && w.buckets[k].deadline <= now }

  /** The keys of order that are due, in order, or those that are not. */
  function Pick(w: Window, now: int, order: seq<string>, due: bool): (r: seq<string>)
    ensures forall i :: 0 <= i < |r| ==> Due(w, now, r[i]) == due
  {
    if order == [] then []
    else
      var k, r := order[|order| - 1], Pick(w, now, order[..|order| - 1], due);
      if Due(w, now, k) == due then r + [k] else r
  }

  lemma {:induction false} PickHas(w: Window, now: int, order: seq<string>, due: bool)
    ensures forall k :: k in Pick(w, now, order, due) <==> k in order && Due(w, now, k) == due
  {
    if order != [] {
      PickHas(w, now, order[..|order| - 1], due);
      assert order == order[..|order| - 1] + [order[|order| - 1]];
    }
  }

  function Values(w: Window, keys: seq<string>): (r: seq<Event>)
    requires forall i :: 0 <= i < |keys| ==> keys[i] in w.buckets
    ensures |r| == |keys| && forall i :: 0 <= i < |r| ==> r[i] == w.buckets[keys[i]].acc
  {
    seq(|keys|, i requires 0 <= i < |keys| => w.buckets[keys[i]].acc)
  }

  ghost predicate Valid(w: Window) { Distinct(w.order) && forall k :: k in w.order <==> k in w.buckets }

  function DueKeys(w: Window, now: int): seq<string> { Pick(w, now, w.order, true) }

  function Kept(w: Window, now: int): Window {
    Window(Pick(w, now, w.order, false), map k | k in w.buckets && !Due(w, now, k) :: w.buckets[k])
  }

  /** What a flush releases: the fold of every due key, oldest burst first. */
  function Released(w: Window, now: int): seq<Event>
  {
    Values(w, DueKeys(w, now))
  }

  class WindowStage {
    const c: Config
    var order: seq<string>
    var buckets: map<string, Bucket>

    function View(): Window reads this { Window(order, buckets) }

    constructor (c: Config)
      ensures View() == Empty() && this.c == c && Valid(View())
    {
      this.c := c;
      order, buckets := [], map[];
    }

    method Push(now: int, ev: Event)
      requires Valid(View())
      modifies this
      ensures View() == Joined(c, old(View()), now, ev) && Valid(View())
    {
      ValidStep(c, View(), Pushed(now, ev));
      var k := KeyOf(ev);
      if k !in buckets {
        buckets := buckets[k := Bucket(ev, now + c.d)];
        order := order + [k];
        return;
      }
      var b := buckets[k];
      if c.strategy.Merge? && c.merge.Some? {
        b := b.(acc := c.merge.value(b.acc, ev));
      } else {
        b := b.(acc := ev);
      }
      if c.strategy.Debounce? { b := b.(deadline := now + c.d); }
      buckets := buckets[k := b];
    }

    method Flush(now: int) returns (out: seq<Event>)
      requires Valid(View())
      modifies this
      ensures View() == Kept(old(View()), now) && out == Released(old(View()), now) && Valid(View())
    {
      hide Valid;
      KeptValid(View(), now);
      ghost var w := View();
      var keys := order;
      out := [];
      var remaining := [];
      for i := 0 to |keys|
        invariant out == Values(w, Pick(w, now, keys[..i], true))
        invariant remaining == Pick(w, now, keys[..i], false)
        invariant buckets == Undropped(w, now, keys[..i])
        invariant order == keys
      {
        var k := keys[i];
        assert keys[..i + 1][..i] == keys[..i] && keys[..i + 1] == keys[..i] + [k];
        StillThere(w, now, i);
        DropOne(w, now, keys[..i], k);
        var b := buckets[k];
        if !(now < b.deadline) {
          out := out + [b.acc];
          buckets := buckets - {k};
          continue;
        }
        remaining := remaining + [k];
      }
      assert keys[..|keys|] == keys;
      AllDropped(w, now);
      order := remaining;
    }
  }

  /** The buckets left when the due keys among done have been deleted. */
  function Undropped(w: Window, now: int, done: seq<string>): map<string, Bucket> {
    map k | k in w.buckets && !(Due(w, now, k) && k in done) :: w.buckets[k]
  }

  lemma DropOne(w: Window, now: int, done: seq<string>, k: string)
    ensures Undropped(w, now, done + [k])
         == if Due(w, now, k) then Undropped(w, now, done) - {k} else Undropped(w, now, done)
  {
  }

  lemma StillThere(w: Window, now: int, i: nat)
    requires Valid(w) && i < |w.order|
    ensures w.order[i] in Undropped(w, now, w.order[..i]) && w.order[i] in w.buckets
  {
    assert w.order[i] in w.order;
  }

  lemma AllDropped(w: Window, now: int)
    requires Valid(w)
    ensures Undropped(w, now, w.order) == Kept(w, now).buckets
  {
  }

  // ---------------------------------------------------------------- bursts

  datatype Stamped = Stamped(at: int, ev: Event)

  datatype Op = Pushed(at: int, ev: Event) | Flushed(at: int)

  function Next(c: Config, w: Window, op: Op): Window {
    match op
    case Pushed(at, ev) => Joined(c, w, at, ev)
    case Flushed(at) => Kept(w, at)
  }

  function Run(c: Config, ops: seq<Op>): Window {
    if ops == [] then Empty() else Next(c, Run(c, ops[..|ops| - 1]), ops[|ops| - 1])
  }

  /** When a burst is over: a window after its first event, or after its latest under debounce. */
  function Deadline(c: Config, burst: seq<Stamped>): int
    requires burst != []
  {
    burst[if c.strategy.Debounce? then |burst| - 1 else 0].at + c.d
  }

  /** What a burst comes down to: the left fold under merge, and otherwise its last event. */
  function Value(c: Config, burst: seq<Stamped>): Event
    requires burst != []
  {
    var last := burst[|burst| - 1].ev;
    if c.strategy == Merge && c.merge.Some? && |burst| > 1 then c.merge.value(Value(c, burst[..|burst| - 1]), last) else last
  }

  predicate Over(c: Config, burst: seq<Stamped>, now: int) { burst != [] && Deadline(c, burst) <= now }

  /** The events of key k since its last burst ended: a burst ends at the first flush at or past its deadline. */
  function Burst(c: Config, ops: seq<Op>, k: string): seq<Stamped> {
    if ops == [] then []
    else
      var b := Burst(c, ops[..|ops| - 1], k);
      match ops[|ops| - 1]
      case Pushed(at, ev) => if KeyOf(ev) == k then b + [Stamped(at, ev)] else b
      case Flushed(at) => if Over(c, b, at) then [] else b
  }

  /** The bursts of k that have ended. */
  function Ended(c: Config, ops: seq<Op>, k: string): seq<seq<Stamped>> {
    if ops == [] then []
    else
      var front := ops[..|ops| - 1];
      var b := Burst(c, front, k);
      if ops[|ops| - 1].Flushed? && Over(c, b, ops[|ops| - 1].at) then Ended(c, front, k) + [b] else Ended(c, front, k)
  }

  function Pushes(ops: seq<Op>, k: string): seq<Stamped> {
    if ops == [] then []
    else
      var before := Pushes(ops[..|ops| - 1], k);
      match ops[|ops| - 1]
      case Pushed(at, ev) => if KeyOf(ev) == k then before + [Stamped(at, ev)] else before
      case Flushed(_) => before
  }

  function Flatten(bs: seq<seq<Stamped>>): seq<Stamped> {
    if bs == [] then [] else Flatten(bs[..|bs| - 1]) + bs[|bs| - 1]
  }

  /** Every event pushed is in exactly one burst, in the order pushed. */
  lemma {:induction false} NothingLost(c: Config, ops: seq<Op>, k: string)
    ensures Flatten(Ended(c, ops, k)) + Burst(c, ops, k) == Pushes(ops, k)
  {
    if ops != [] {
      var front, op := ops[..|ops| - 1], ops[|ops| - 1];
      NothingLost(c, front, k);
      var ended, b := Ended(c, front, k), Burst(c, front, k);
      if op.Flushed? && Over(c, b, op.at) {
        assert (ended + [b])[..|ended|] == ended;
        assert Burst(c, ops, k) == [] && Ended(c, ops, k) == ended + [b];
      } else if op.Pushed? && KeyOf(op.ev) == k {
        var e := Stamped(op.at, op.ev);
        assert Flatten(ended) + (b + [e]) == (Flatten(ended) + b) + [e];
      }
    }
  }

  /** The window holds exactly the open bursts, each as its fold and deadline. */
  ghost predicate Holds(c: Config, ops: seq<Op>, w: Window) {
    forall k: string :: HoldsKey(c, Burst(c, ops, k), w, k)
  }

  ghost predicate HoldsKey(c: Config, burst: seq<Stamped>, w: Window, k: string) {
    if burst == [] then k !in w.buckets
    else k in w.buckets && w.buckets[k] == Bucket(Value(c, burst), Deadline(c, burst))
  }

  lemma {:induction false} PickDistinct(w: Window, now: int, order: seq<string>, due: bool)
    requires Distinct(order)
    ensures Distinct(Pick(w, now, order, due))
  {
    if order != [] {
      var n := |order| - 1;
      PickDistinct(w, now, order[..n], due);
      PickHas(w, now, order[..n], due);
      assert order[n] !in order[..n];
    }
  }

  lemma ValidStep(c: Config, w: Window, op: Op)
    requires Valid(w)
    ensures Valid(Next(c, w, op))
  {
    if op.Flushed? { KeptValid(w, op.at); }
  }

  lemma KeptValid(w: Window, now: int)
    requires Valid(w)
    ensures Valid(Kept(w, now))
  {
    PickDistinct(w, now, w.order, false);
    PickHas(w, now, w.order, false);
  }

  lemma HoldsStep(c: Config, ops: seq<Op>, w: Window)
    requires ops != [] && Holds(c, ops[..|ops| - 1], w)
    ensures Holds(c, ops, Next(c, w, ops[|ops| - 1]))
  {
    var front, op := ops[..|ops| - 1], ops[|ops| - 1];
    var w' := Next(c, w, op);
    forall k: string ensures HoldsKey(c, Burst(c, ops, k), w', k) {
      var b := Burst(c, front, k);
      assert HoldsKey(c, b, w, k);
      if op.Pushed? && KeyOf(op.ev) == k { ValueGrows(c, b, Stamped(op.at, op.ev)); }
      hide Value;
    }
  }

  lemma ValueGrows(c: Config, b: seq<Stamped>, e: Stamped)
    ensures Value(c, b + [e]) == if Folds(c) && b != [] then c.merge.value(Value(c, b), e.ev) else e.ev
  {
    assert (b + [e])[..|b|] == b;
  }

  lemma {:induction false} RunHolds(c: Config, ops: seq<Op>)
    ensures Valid(Run(c, ops)) && Holds(c, ops, Run(c, ops))
  {
    if ops != [] {
      RunHolds(c, ops[..|ops| - 1]);
      ValidStep(c, Run(c, ops[..|ops| - 1]), ops[|ops| - 1]);
      HoldsStep(c, ops, Run(c, ops[..|ops| - 1]));
    }
  }

  /** A flush after any run releases every burst that is over, once, as its fold or last event, and no other. */
  lemma FlushReleasesBursts(c: Config, ops: seq<Op>, now: int)
    ensures var w := Run(c, ops); var keys := DueKeys(w, now);
            && (forall k :: k in keys <==> Over(c, Burst(c, ops, k), now))
            && Distinct(keys)
            && |Released(w, now)| == |keys|
            && forall i :: 0 <= i < |keys| ==> Released(w, now)[i] == Value(c, Burst(c, ops, keys[i]))
  {
    RunHolds(c, ops);
    var w := Run(c, ops);
    hide Value, Burst, Run;
    PickDistinct(w, now, w.order, true);
    PickHas(w, now, w.order, true);
    var keys := DueKeys(w, now);
    forall k: string ensures k in keys <==> Over(c, Burst(c, ops, k), now) {
      assert HoldsKey(c, Burst(c, ops, k), w, k);
    }
    forall i | 0 <= i < |keys| ensures Released(w, now)[i] == Value(c, Burst(c, ops, keys[i])) {
      assert HoldsKey(c, Burst(c, ops, keys[i]), w, keys[i]);
    }
  }

  // ---------------------------------------------------------------- the order of bursts

  /** The op that opened the burst of k, or the number of ops if none is open. */
  function Opened(c: Config, ops: seq<Op>, k: string): (n: nat)
    ensures n <= |ops| && (n == |ops| <==> Burst(c, ops, k) == [])
  {
    if ops == [] || Burst(c, ops, k) == [] then |ops|
    else
      var front := ops[..|ops| - 1];
      if Burst(c, front, k) == [] then |front| else Opened(c, front, k)
  }

  ghost predicate Ordered(c: Config, ops: seq<Op>, order: seq<string>) {
    forall i, j :: 0 <= i < j < |order| ==> Opened(c, ops, order[i]) < Opened(c, ops, order[j])
  }

  /** What is picked keeps its order. */
  lemma {:induction false} PickKeepsOrder(c: Config, ops: seq<Op>, w: Window, now: int, order: seq<string>, due: bool)
    requires Ordered(c, ops, order)
    ensures Ordered(c, ops, Pick(w, now, order, due))
  {
    if order != [] {
      var n := |order| - 1;
      PickKeepsOrder(c, ops, w, now, order[..n], due);
      PickHas(w, now, order[..n], due);
      var r := Pick(w, now, order[..n], due);
      forall i | 0 <= i < |r| ensures Opened(c, ops, r[i]) < Opened(c, ops, order[n]) {
        assert r[i] in order[..n];
        var j :| 0 <= j < n && order[j] == r[i];
      }
    }
  }

  lemma OpenedStays(c: Config, ops: seq<Op>, k: string)
    requires ops != [] && Burst(c, ops, k) != [] && Burst(c, ops[..|ops| - 1], k) != []
    ensures Opened(c, ops, k) == Opened(c, ops[..|ops| - 1], k)
  {
    hide Burst;
  }

  lemma OrderedStays(c: Config, ops: seq<Op>, order: seq<string>)
    requires ops != [] && Ordered(c, ops[..|ops| - 1], order)
    requires forall i :: 0 <= i < |order| ==> Burst(c, ops, order[i]) != [] && Burst(c, ops[..|ops| - 1], order[i]) != []
    ensures Ordered(c, ops, order)
  {
    hide Burst, Opened;
    forall i | 0 <= i < |order| ensures Opened(c, ops, order[i]) == Opened(c, ops[..|ops| - 1], order[i]) {
      OpenedStays(c, ops, order[i]);
    }
  }

  /** The window's keys stand in the order their bursts opened, so that a flush releases the oldest burst first. */
  lemma {:induction false} OldestFirst(c: Config, ops: seq<Op>, now: int)
    ensures Ordered(c, ops, Run(c, ops).order) && Ordered(c, ops, DueKeys(Run(c, ops), now))
  {
    if ops != [] {
      var front, op := ops[..|ops| - 1], ops[|ops| - 1];
      OldestFirst(c, front, now);
      OrderStep(c, ops);
    }
    hide Opened, Run, Pick;
    PickKeepsOrder(c, ops, Run(c, ops), now, Run(c, ops).order, true);
  }

  lemma OrderStep(c: Config, ops: seq<Op>)
    requires ops != [] && Ordered(c, ops[..|ops| - 1], Run(c, ops[..|ops| - 1]).order)
    ensures Ordered(c, ops, Run(c, ops).order)
  {
    var front, op := ops[..|ops| - 1], ops[|ops| - 1];
    var w, w' := Run(c, front), Run(c, ops);
    KeysHeld(c, front);
    KeysHeld(c, ops);
    if op.Flushed? {
      PickKeepsOrder(c, front, w, op.at, w.order, false);
      PickHas(w, op.at, w.order, false);
      assert w'.order == Pick(w, op.at, w.order, false);
      hide Burst, Opened, Run, Pick;
      OrderedStays(c, ops, w'.order);
    } else {
      OrderPush(c, ops, w);
    }
  }

  lemma OrderPush(c: Config, ops: seq<Op>, w: Window)
    requires ops != [] && ops[|ops| - 1].Pushed? && w == Run(c, ops[..|ops| - 1])
    requires Ordered(c, ops[..|ops| - 1], w.order)
    ensures Ordered(c, ops, Run(c, ops).order)
  {
    var front, op := ops[..|ops| - 1], ops[|ops| - 1];
    var k, w' := KeyOf(op.ev), Run(c, ops);
    KeysHeld(c, front);
    assert forall j :: j in w.order ==> Burst(c, ops, j) != [];
    hide Burst, Opened, Run;
    OrderedStays(c, ops, w.order);
    if w'.order != w.order {
      assert w'.order == w.order + [k];
      NewlyOpened(c, ops, k);
      forall i | 0 <= i < |w.order| ensures Opened(c, ops, w.order[i]) < |front| {
        assert w.order[i] in w.order;
        OpenedStays(c, ops, w.order[i]);
      }
    }
  }

  lemma NewlyOpened(c: Config, ops: seq<Op>, k: string)
    requires ops != [] && ops[|ops| - 1].Pushed? && KeyOf(ops[|ops| - 1].ev) == k && Burst(c, ops[..|ops| - 1], k) == []
    ensures Opened(c, ops, k) == |ops| - 1
  {
  }

  /** The keys in order are those of open bursts. */
  lemma KeysHeld(c: Config, ops: seq<Op>)
    ensures forall k: string :: k in Run(c, ops).order <==> Burst(c, ops, k) != []
    ensures forall k: string :: k in Run(c, ops).buckets <==> Burst(c, ops, k) != []
  {
    RunHolds(c, ops);
    var w := Run(c, ops);
    hide Burst, Run, Value, Deadline;
    forall k: string ensures k in w.buckets <==> Burst(c, ops, k) != [] {
      assert HoldsKey(c, Burst(c, ops, k), w, k);
    }
  }
}
