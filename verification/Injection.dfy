/** The policy that holds events back and drains them, by priority and under a budget, before a turn.

An event arrives here after the application's filters and transforms. Hints are fixed for the run. The consent gate may
answer differently from one drain to the next. */
module Injection {
  import opened Wrappers
  import opened Events
  import opened Windows
  import opened Sorting
  import opened Ranking

  datatype Hint = Hint(priority: string, windowMs: int, strategy: Strategy, retention: string, sensitivity: string)

  datatype Policy = Policy(hint: string -> Hint, merge: (Event, Event) -> Event, maxPerDrain: int)

  type Gate = Option<(Hint, Event) -> bool>

  /** Zero or less means the default of 16. */
  function Budget(p: Policy): (n: nat)
    ensures n > 0
  {
    if p.maxPerDrain <= 0 then 16 else p.maxPerDrain
  }

  function PriorityRank(priority: string): (r: nat)
    ensures r <= 3
  {
    if priority == "critical" then 0
    else if priority == "high" then 1
    else if priority == "medium" || priority == "" then 2
    else 3
  }

  function Rank(p: Policy, ev: Event): (r: nat) ensures r <= 3 { PriorityRank(p.hint(ev.name).priority) }

  predicate Consents(p: Policy, gate: Gate, ev: Event) {
    var h := p.hint(ev.name);
    if h.sensitivity == "" || h.sensitivity == "public" then true
    else if gate.Some? then gate.value(h, ev)
    else h.sensitivity == "personal"
  }

  // ---------------------------------------------------------------- buffering

  datatype State = State(
    windows: map<string, Window>, pending: seq<Event>, session: map<string, Event>, sessOrd: seq<string>, dropped: nat)

  function Start(): State { State(map[], [], map[], [], 0) }

  ghost predicate Sound(s: State) {
    && Distinct(s.sessOrd) && (forall i :: 0 <= i < |s.sessOrd| ==> s.sessOrd[i] in s.session)
    && (forall k :: k in s.session ==> k in s.sessOrd)
    && (forall name :: name in s.windows ==> Windows.Valid(s.windows[name]))
  }

  predicate ForSession(h: Hint) { h.retention == "session" }

  function Buffered(s: State, ev: Event, h: Hint): State {
    if ForSession(h) then
      s.(session := s.session[KeyOf(ev) := ev],
         sessOrd := if KeyOf(ev) in s.session then s.sessOrd else s.sessOrd + [KeyOf(ev)])
    else s.(pending := s.pending + [ev])
  }

  function BufferedAll(s: State, evs: seq<Event>, h: Hint): State {
    if evs == [] then s else Buffered(BufferedAll(s, evs[..|evs| - 1], h), evs[|evs| - 1], h)
  }

  function WindowConfig(p: Policy, name: string): Config {
    Config(p.hint(name).windowMs, p.hint(name).strategy, Some(p.merge))
  }

  function WindowOf(s: State, name: string): Window { if name in s.windows then s.windows[name] else Empty() }

  function Ingested(p: Policy, s: State, now: int, ev: Event): State {
    var h := p.hint(ev.name);
    if h.windowMs <= 0 then Buffered(s, ev, h)
    else s.(windows := s.windows[ev.name := Joined(WindowConfig(p, ev.name), WindowOf(s, ev.name), now, ev)])
  }

  /** One window is flushed into the buffers. */
  function FlushedOne(p: Policy, s: State, now: int, name: string): State {
    var w := WindowOf(s, name);
    BufferedAll(s.(windows := s.windows[name := Kept(w, now)]), Released(w, now), p.hint(name))
  }

  /** The windows are flushed in the order the map yields their names. */
  function FlushedAll(p: Policy, s: State, now: int, names: seq<string>): State {
    if names == [] then s else FlushedOne(p, FlushedAll(p, s, now, names[..|names| - 1]), now, names[|names| - 1])
  }

  // ---------------------------------------------------------------- draining

  function TurnCands(p: Policy, evs: seq<Event>): (r: seq<Cand>)
    ensures |r| == |evs| && forall i :: 0 <= i < |r| ==> r[i] == Cand(evs[i], false, Rank(p, evs[i]))
  {
    seq(|evs|, i requires 0 <= i < |evs| => Cand(evs[i], false, Rank(p, evs[i])))
  }

  function SessionCands(p: Policy, s: State): (r: seq<Cand>)
    requires forall i :: 0 <= i < |s.sessOrd| ==> s.sessOrd[i] in s.session
    ensures |r| == |s.sessOrd|
    ensures forall i :: 0 <= i < |r| ==>
              var ev := s.session[s.sessOrd[i]]; r[i] == Cand(ev, true, Rank(p, ev))
  {
    seq(|s.sessOrd|, i requires 0 <= i < |s.sessOrd| =>
      Cand(s.session[s.sessOrd[i]], true, Rank(p, s.session[s.sessOrd[i]])))
  }

  function EventsOf(cs: seq<Cand>): (r: seq<Event>)
    ensures |r| == |cs| && forall i :: 0 <= i < |r| ==> r[i] == cs[i].ev
  {
    seq(|cs|, i requires 0 <= i < |cs| => cs[i].ev)
  }

  function Yes(p: Policy, gate: Gate): Cand -> bool { (c: Cand) => Consents(p, gate, c.ev) }

  function No(p: Policy, gate: Gate): Cand -> bool { (c: Cand) => !Consents(p, gate, c.ev) }

  datatype Drained = Drained(state: State, out: seq<Cand>)

  function Cands(p: Policy, s: State): seq<Cand>
    requires forall i :: 0 <= i < |s.sessOrd| ==> s.sessOrd[i] in s.session
  {
    SessionCands(p, s) + TurnCands(p, s.pending)
  }

  function Cut(p: Policy, ranked: seq<Cand>): (n: nat)
    ensures n <= |ranked| && n <= Budget(p) && (n < |ranked| ==> n == Budget(p))
  {
    if |ranked| <= Budget(p) then |ranked| else Budget(p)
  }

  /** A drain once the windows are flushed: consent, then priority, then the budget. */
  function DrainOf(p: Policy, s: State, gate: Gate): Drained
    requires forall i :: 0 <= i < |s.sessOrd| ==> s.sessOrd[i] in s.session
  {
    var cands := Cands(p, s);
    var asked := Keep(cands, Yes(p, gate));
    var ranked := ByPriority(asked);
    var n := Cut(p, ranked);
    Drained(s.(pending := EventsOf(Keep(ranked[n..], TurnOnly())), dropped := s.dropped + (|cands| - |asked|)), ranked[..n])
  }

  lemma Rebuilt(p: Policy, cs: seq<Cand>)
    requires forall i :: 0 <= i < |cs| ==> cs[i] == Cand(cs[i].ev, false, Rank(p, cs[i].ev))
    ensures TurnCands(p, EventsOf(cs)) == cs
  {
  }

  ghost predicate Proper(p: Policy, cs: seq<Cand>) { forall i :: 0 <= i < |cs| ==> cs[i].rank == Rank(p, cs[i].ev) }

  lemma {:induction false} KeepProper(p: Policy, cs: seq<Cand>, f: Cand -> bool)
    requires Proper(p, cs)
    ensures Proper(p, Keep(cs, f))
  {
    if cs != [] { KeepProper(p, cs[..|cs| - 1], f); }
  }

  lemma ByPriorityProper(p: Policy, cs: seq<Cand>)
    requires Proper(p, cs)
    ensures Proper(p, ByPriority(cs))
  {
    forall i | 0 <= i < |ByPriority(cs)| ensures ByPriority(cs)[i].rank == Rank(p, ByPriority(cs)[i].ev) {
      var k := ByRankFrom(cs, RankOf(), 4, i);
    }
  }

  /** The turn events among the candidates are the pending ones, in order. */
  lemma TurnPart(p: Policy, s: State, f: Cand -> bool)
    requires forall i :: 0 <= i < |s.sessOrd| ==> s.sessOrd[i] in s.session
    ensures Keep(Keep(Cands(p, s), f), TurnOnly()) == Keep(TurnCands(p, s.pending), f)
  {
    var a, b := SessionCands(p, s), TurnCands(p, s.pending);
    KeepSwap(Cands(p, s), f, TurnOnly());
    KeepAppend(a, b, TurnOnly());
    KeepNone(a, TurnOnly());
    KeepAll(b, TurnOnly());
    hide Keep, TurnOnly;
    assert [] + b == b;
  }

  lemma LeftPending(p: Policy, s: State, gate: Gate)
    requires forall i :: 0 <= i < |s.sessOrd| ==> s.sessOrd[i] in s.session
    ensures var ranked := ByPriority(Keep(Cands(p, s), Yes(p, gate)));
            && Proper(p, ranked)
            && TurnCands(p, DrainOf(p, s, gate).state.pending) == Keep(ranked[Cut(p, ranked)..], TurnOnly())
  {
    var cands := Cands(p, s);
    assert Proper(p, cands);
    KeepProper(p, cands, Yes(p, gate));
    ByPriorityProper(p, Keep(cands, Yes(p, gate)));
    hide ByPriority, Keep;
    var ranked := ByPriority(Keep(cands, Yes(p, gate)));
    var rest := ranked[Cut(p, ranked)..];
    KeepProper(p, rest, TurnOnly());
    Rebuilt(p, Keep(rest, TurnOnly()));
  }

  /** Released and left over, together, are the turn events the gate let pass, sorted. */
  lemma DrainSplits(p: Policy, s: State, gate: Gate)
    requires forall i :: 0 <= i < |s.sessOrd| ==> s.sessOrd[i] in s.session
    ensures var d := DrainOf(p, s, gate);
            var ranked := ByPriority(Keep(Cands(p, s), Yes(p, gate)));
            Keep(d.out, TurnOnly()) + TurnCands(p, d.state.pending) == Keep(ranked, TurnOnly())
  {
    LeftPending(p, s, gate);
    hide ByPriority, Keep;
    var ranked := ByPriority(Keep(Cands(p, s), Yes(p, gate)));
    var n := Cut(p, ranked);
    assert ranked == ranked[..n] + ranked[n..];
    KeepAppend(ranked[..n], ranked[n..], TurnOnly());
  }

  /** A drain takes turn events of one rank from the front and leaves the others in order. */
  lemma DrainKeepsOrder(p: Policy, s: State, gate: Gate, r: nat)
    requires r <= 3 && forall i :: 0 <= i < |s.sessOrd| ==> s.sessOrd[i] in s.session
    ensures var d := DrainOf(p, s, gate);
            var released, left := Keep(d.out, TurnOnly()), TurnCands(p, d.state.pending);
            Keep(released, OfRank(r)) + Keep(left, OfRank(r))
              == Keep(Keep(TurnCands(p, s.pending), Yes(p, gate)), OfRank(r))
  {
    hide DrainOf, Keep, HasRank, TurnOnly, Cands;
    var d := DrainOf(p, s, gate);
    var ok := Keep(Cands(p, s), Yes(p, gate));
    DrainSplits(p, s, gate);
    KeepAppend(Keep(d.out, TurnOnly()), TurnCands(p, d.state.pending), OfRank(r));
    KeepSwap(ByPriority(ok), TurnOnly(), OfRank(r));
    ByRankKeepsOrder(ok, RankOf(), 4, r);
    KeepSwap(ok, OfRank(r), TurnOnly());
    TurnPart(p, s, Yes(p, gate));
  }

  /** A drain releases, denies or leaves every pending event, each once. */
  lemma DrainConserves(p: Policy, s: State, gate: Gate)
    requires forall i :: 0 <= i < |s.sessOrd| ==> s.sessOrd[i] in s.session
    ensures var d := DrainOf(p, s, gate); var turn := TurnCands(p, s.pending);
            multiset(turn) == multiset(Keep(d.out, TurnOnly())) + multiset(TurnCands(p, d.state.pending))
                            + multiset(Keep(turn, No(p, gate)))
  {
    var ok := Keep(Cands(p, s), Yes(p, gate));
    var turn := TurnCands(p, s.pending);
    assert Proper(p, Cands(p, s));
    KeepProper(p, Cands(p, s), Yes(p, gate));
    assert Below(ok, RankOf(), 4);
    hide DrainOf, ByPriority, Keep, Cands, TurnOnly;
    DrainSplits(p, s, gate);
    ByPriorityPermutes(ok);
    KeepPermuted(ByPriority(ok), ok, TurnOnly());
    TurnPart(p, s, Yes(p, gate));
    KeepSplits(turn, Yes(p, gate), No(p, gate));
  }

  /** A drain returns at most the budget, by priority, only what the gate let pass; nothing left pending outranks what
      was released, and something is left only when the budget is used up. */
  lemma DrainIsFair(p: Policy, s: State, gate: Gate)
    requires forall i :: 0 <= i < |s.sessOrd| ==> s.sessOrd[i] in s.session
    ensures var d := DrainOf(p, s, gate);
            && |d.out| <= Budget(p) && Sorted(d.out, RankOf()) && Proper(p, d.out)
            && (forall i :: 0 <= i < |d.out| ==> Consents(p, gate, d.out[i].ev))
            && (forall i, j :: 0 <= i < |d.out| && 0 <= j < |d.state.pending| ==>
                  d.out[i].rank <= Rank(p, d.state.pending[j]))
            && (d.state.pending != [] ==> |d.out| == Budget(p))
  {
    LeftPending(p, s, gate);
    var d := DrainOf(p, s, gate);
    var ok := Keep(Cands(p, s), Yes(p, gate));
    var ranked := ByPriority(ok);
    var n := Cut(p, ranked);
    ByRankSorts(ok, RankOf(), 4);
    ByPriorityConsents(p, gate, ok);
    CutIsFair(ranked, n, TurnOnly());
    hide ByPriority, Keep, Consents, TurnOnly;
    var left := TurnCands(p, d.state.pending);
    assert |left| == |d.state.pending| && |left| <= |ranked| - n;
    forall j | 0 <= j < |left| ensures left[j].rank == Rank(p, d.state.pending[j]) {}
  }

  // ---------------------------------------------------------------- the drain by hints

  /** An event may be shown if it is public or unmarked, or the gate accepts it, or there is no gate and it is personal. */
  ghost predicate Permitted(h: Hint, gate: Gate, ev: Event) {
    || h.sensitivity in {"", "public"}
    || (gate.Some? && gate.value(h, ev))
    || (gate.None? && h.sensitivity == "personal")
  }

  ghost function Withheld(p: Policy, gate: Gate): Event -> bool {
    (ev: Event) => !Permitted(p.hint(ev.name), gate, ev)
  }

  /** Nothing of priority b may wait while something of priority a is shown, unless a is as urgent: critical before high,
      high before medium, which is also the default, and medium before any other. */
  ghost predicate AsUrgent(a: string, b: string) {
    && (b == "critical" ==> a == "critical")
    && (b == "high" ==> a in {"critical", "high"})
    && (b in {"medium", ""} ==> a in {"critical", "high", "medium", ""})
  }

  lemma ConsentByHint(p: Policy, gate: Gate, ev: Event)
    ensures Consents(p, gate, ev) <==> Permitted(p.hint(ev.name), gate, ev)
  {
  }

  lemma RankByName(a: string, b: string)
    ensures PriorityRank(a) <= PriorityRank(b) <==> AsUrgent(a, b)
  {
    assert "critical"[0] != "high"[0] && "medium"[0] != "high"[0] && "critical"[0] != "medium"[0];
  }

  /** The events a drain looks at: the session's, oldest key first, and then the pending ones. */
  ghost function Entries(s: State): seq<Event>
    requires forall i :: 0 <= i < |s.sessOrd| ==> s.sessOrd[i] in s.session
  {
    seq(|s.sessOrd|, i requires 0 <= i < |s.sessOrd| => s.session[s.sessOrd[i]]) + s.pending
  }

  lemma {:induction false} RefusalsCounted(p: Policy, gate: Gate, cs: seq<Cand>)
    ensures |cs| - |Keep(cs, Yes(p, gate))| == |Keep(EventsOf(cs), Withheld(p, gate))|
  {
    if cs != [] {
      var front, c := cs[..|cs| - 1], cs[|cs| - 1];
      RefusalsCounted(p, gate, front);
      ConsentByHint(p, gate, c.ev);
      assert EventsOf(cs)[..|front|] == EventsOf(front);
    }
  }

  lemma DropsCounted(p: Policy, s: State, gate: Gate)
    requires forall i :: 0 <= i < |s.sessOrd| ==> s.sessOrd[i] in s.session
    ensures DrainOf(p, s, gate).state.dropped == s.dropped + |Keep(Entries(s), Withheld(p, gate))|
  {
    hide Keep, ByPriority;
    RefusalsCounted(p, gate, Cands(p, s));
    assert EventsOf(Cands(p, s)) == Entries(s);
  }

  /** A drain in terms of hints: it shows only what may be shown, at most MaxPerDrain entries, or 16 if that is not set, and
      leaves something only when it shows that many; what it shows comes by priority, and nothing it leaves is more urgent
      than anything it shows; every entry that may not be shown is counted as dropped. */
  lemma DrainByHints(p: Policy, s: State, gate: Gate)
    requires forall i :: 0 <= i < |s.sessOrd| ==> s.sessOrd[i] in s.session
    ensures var d := DrainOf(p, s, gate);
            var most := if p.maxPerDrain > 0 then p.maxPerDrain else 16;
            && |d.out| <= most && (d.state.pending != [] ==> |d.out| == most)
            && d.state.dropped == s.dropped + |Keep(Entries(s), Withheld(p, gate))|
    ensures var d := DrainOf(p, s, gate);
            && (forall i :: 0 <= i < |d.out| ==> Permitted(p.hint(d.out[i].ev.name), gate, d.out[i].ev))
            && (forall i, j :: 0 <= i < j < |d.out| ==>
                  AsUrgent(p.hint(d.out[i].ev.name).priority, p.hint(d.out[j].ev.name).priority))
            && (forall i, j :: 0 <= i < |d.out| && 0 <= j < |d.state.pending| ==>
                  AsUrgent(p.hint(d.out[i].ev.name).priority, p.hint(d.state.pending[j].name).priority))
  {
    hide DrainOf, Keep, Cands, Consents, Permitted, PriorityRank, AsUrgent, Withheld, Entries;
    DrainIsFair(p, s, gate);
    DropsCounted(p, s, gate);
    var d := DrainOf(p, s, gate);
    forall i | 0 <= i < |d.out| ensures Permitted(p.hint(d.out[i].ev.name), gate, d.out[i].ev) {
      ConsentByHint(p, gate, d.out[i].ev);
    }
    forall i, j | 0 <= i < j < |d.out|
      ensures AsUrgent(p.hint(d.out[i].ev.name).priority, p.hint(d.out[j].ev.name).priority)
    {
      RankByName(p.hint(d.out[i].ev.name).priority, p.hint(d.out[j].ev.name).priority);
    }
    forall i, j | 0 <= i < |d.out| && 0 <= j < |d.state.pending|
      ensures AsUrgent(p.hint(d.out[i].ev.name).priority, p.hint(d.state.pending[j].name).priority)
    {
      RankByName(p.hint(d.out[i].ev.name).priority, p.hint(d.state.pending[j].name).priority);
    }
  }

  lemma ByPriorityConsents(p: Policy, gate: Gate, ok: seq<Cand>)
    requires forall i :: 0 <= i < |ok| ==> Consents(p, gate, ok[i].ev)
    ensures forall i :: 0 <= i < |ByPriority(ok)| ==> Consents(p, gate, ByPriority(ok)[i].ev)
  {
    hide Consents;
    forall i | 0 <= i < |ByPriority(ok)| ensures Consents(p, gate, ByPriority(ok)[i].ev) {
      var k := ByRankFrom(ok, RankOf(), 4, i);
    }
  }

  lemma KeepHas(s: seq<Cand>, f: Cand -> bool, x: Cand)
    requires x in s && f(x)
    ensures x in Keep(s, f)
  {
    KeepCount(s, f, x);
    assert x in multiset(s);
    assert x in multiset(Keep(s, f));
  }

  /** Every session entry the gate lets pass is in the drain, unless entries that rank no lower use up the budget; and
      the drain leaves the session as it was. */
  lemma SessionEntriesReturn(p: Policy, s: State, gate: Gate, k: nat)
    requires (forall i :: 0 <= i < |s.sessOrd| ==> s.sessOrd[i] in s.session) && k < |s.sessOrd|
    requires Consents(p, gate, s.session[s.sessOrd[k]])
    ensures var d := DrainOf(p, s, gate); var c := SessionCands(p, s)[k];
            && (c in d.out || (|d.out| == Budget(p) && forall i :: 0 <= i < |d.out| ==> d.out[i].rank <= c.rank))
            && d.state.session == s.session && d.state.sessOrd == s.sessOrd
  {
    var cands, c := Cands(p, s), SessionCands(p, s)[k];
    assert cands[k] == c;
    KeepHas(cands, Yes(p, gate), c);
    assert Proper(p, cands);
    KeepProper(p, cands, Yes(p, gate));
    hide ByPriority, Keep, Cands;
    var ok := Keep(cands, Yes(p, gate));
    ByPriorityCut(ok, Cut(p, ByPriority(ok)), c);
  }

  lemma ByPriorityCut(ok: seq<Cand>, n: nat, c: Cand)
    requires Below(ok, RankOf(), 4) && c in ok && n <= |ByPriority(ok)|
    ensures var ranked := ByPriority(ok);
            c in ranked[..n] || (n < |ranked| && forall i :: 0 <= i < n ==> ranked[i].rank <= c.rank)
  {
    var ranked := ByPriority(ok);
    ByPriorityPermutes(ok);
    ByRankSorts(ok, RankOf(), 4);
    hide ByPriority;
    assert c in multiset(ok);
    assert c in multiset(ranked);
    var j :| 0 <= j < |ranked| && ranked[j] == c;
    if j < n { assert ranked[..n][j] == c; }
  }

  // ---------------------------------------------------------------- runs

  datatype Op = Ingest(at: int, ev: Event) | DrainAll(at: int, names: seq<string>, gate: Gate)

  /** The policy, with what has been buffered for one turn, released and denied so far, in order. */
  datatype World = World(s: State, buffered: seq<Cand>, released: seq<Cand>, denied: seq<Cand>)

  /** The events among evs that buffer puts in pending. */
  function ForTurn(evs: seq<Event>, h: Hint): seq<Event> { if ForSession(h) then [] else evs }

  function Fresh(p: Policy, s: State, now: int, names: seq<string>): seq<Event> {
    if names == [] then []
    else
      var front, name := names[..|names| - 1], names[|names| - 1];
      Fresh(p, s, now, front) + ForTurn(Released(WindowOf(FlushedAll(p, s, now, front), name), now), p.hint(name))
  }

  lemma {:induction false} BufferedAllPending(s: State, evs: seq<Event>, h: Hint)
    ensures BufferedAll(s, evs, h).pending == s.pending + ForTurn(evs, h)
    ensures BufferedAll(s, evs, h).windows == s.windows
  {
    if evs != [] {
      BufferedAllPending(s, evs[..|evs| - 1], h);
      assert evs == evs[..|evs| - 1] + [evs[|evs| - 1]];
    }
  }

  lemma {:induction false} FlushPending(p: Policy, s: State, now: int, names: seq<string>)
    ensures FlushedAll(p, s, now, names).pending == s.pending + Fresh(p, s, now, names)
  {
    if names != [] {
      var front, name := names[..|names| - 1], names[|names| - 1];
      FlushPending(p, s, now, front);
      var s1 := FlushedAll(p, s, now, front);
      var w := WindowOf(s1, name);
      BufferedAllPending(s1.(windows := s1.windows[name := Kept(w, now)]), Released(w, now), p.hint(name));
    }
  }

  lemma {:induction false} BufferedAllValid(s: State, evs: seq<Event>, h: Hint)
    requires Sound(s)
    ensures Sound(BufferedAll(s, evs, h))
  {
    if evs != [] {
      BufferedAllValid(s, evs[..|evs| - 1], h);
      BufferedValid(BufferedAll(s, evs[..|evs| - 1], h), evs[|evs| - 1], h);
    }
  }

  lemma BufferedValid(s: State, ev: Event, h: Hint)
    requires Sound(s)
    ensures Sound(Buffered(s, ev, h))
  {
  }

  lemma {:induction false} FlushValid(p: Policy, s: State, now: int, names: seq<string>)
    requires Sound(s)
    ensures Sound(FlushedAll(p, s, now, names))
  {
    if names != [] {
      var front, name := names[..|names| - 1], names[|names| - 1];
      FlushValid(p, s, now, front);
      var s1 := FlushedAll(p, s, now, front);
      var w := WindowOf(s1, name);
      KeptValid(w, now);
      hide BufferedAll, FlushedAll, Kept, Windows.Valid;
      BufferedAllValid(s1.(windows := s1.windows[name := Kept(w, now)]), Released(w, now), p.hint(name));
    }
  }

  function Next(p: Policy, w: World, op: Op): World
    requires Inv(p, w)
  {
    match op
    case Ingest(at, ev) =>
      var more := if p.hint(ev.name).windowMs <= 0 then ForTurn([ev], p.hint(ev.name)) else [];
      w.(s := Ingested(p, w.s, at, ev), buffered := w.buffered + TurnCands(p, more))
    case DrainAll(at, names, gate) =>
      FlushValid(p, w.s, at, names);
      var s1 := FlushedAll(p, w.s, at, names);
      var d := DrainOf(p, s1, gate);
      World(d.state,
            w.buffered + TurnCands(p, Fresh(p, w.s, at, names)),
            w.released + Keep(d.out, TurnOnly()),
            w.denied + Keep(TurnCands(p, s1.pending), No(p, gate)))
  }

  function Waiting(p: Policy, w: World): seq<Cand> { TurnCands(p, w.s.pending) }

  /** Every event buffered for one turn is released, denied or pending, once. */
  ghost predicate Conserved(p: Policy, w: World) {
    multiset(w.buffered) == multiset(w.released) + multiset(Waiting(p, w)) + multiset(w.denied)
  }

  /** Events of one priority are released, and wait, in the order they were buffered. */
  ghost predicate InOrder(p: Policy, w: World, r: nat) {
    Sub(Keep(w.released, OfRank(r)) + Keep(Waiting(p, w), OfRank(r)), Keep(w.buffered, OfRank(r)))
  }

  function Arrived(p: Policy, w: World, s': State, more: seq<Event>): World {
    w.(s := s', buffered := w.buffered + TurnCands(p, more))
  }

  lemma ArrivedWaits(p: Policy, w: World, s': State, more: seq<Event>)
    requires s'.pending == w.s.pending + more
    ensures Waiting(p, Arrived(p, w, s', more)) == Waiting(p, w) + TurnCands(p, more)
  {
  }

  lemma ArrivedConserves(p: Policy, w: World, s': State, more: seq<Event>)
    requires s'.pending == w.s.pending + more && Conserved(p, w)
    ensures Conserved(p, Arrived(p, w, s', more))
  {
    ArrivedWaits(p, w, s', more);
    hide TurnCands, Waiting;
  }

  lemma ArrivedInOrder(p: Policy, w: World, s': State, more: seq<Event>, r: nat)
    requires s'.pending == w.s.pending + more && InOrder(p, w, r)
    ensures InOrder(p, Arrived(p, w, s', more), r)
  {
    ArrivedWaits(p, w, s', more);
    hide TurnCands, Waiting, Keep, Sub, OfRank;
    var f, t := OfRank(r), TurnCands(p, more);
    KeepAppend(Waiting(p, w), t, f);
    KeepAppend(w.buffered, t, f);
    SubArrives(Keep(w.released, f), Keep(Waiting(p, w), f), Keep(w.buffered, f), Keep(t, f));
  }

  lemma ArrivedKeeps(p: Policy, w: World, s': State, more: seq<Event>)
    requires s'.pending == w.s.pending + more && Inv(p, w) && Sound(s')
    ensures Inv(p, Arrived(p, w, s', more))
  {
    hide Conserved, InOrder, Sound;
    ArrivedConserves(p, w, s', more);
    forall r: nat | r <= 3 ensures InOrder(p, Arrived(p, w, s', more), r) { ArrivedInOrder(p, w, s', more, r); }
  }

  function Settle(p: Policy, w: World, gate: Gate): World
    requires Sound(w.s)
  {
    var d := DrainOf(p, w.s, gate);
    World(d.state, w.buffered, w.released + Keep(d.out, TurnOnly()), w.denied + Keep(Waiting(p, w), No(p, gate)))
  }

  lemma SettleConserves(p: Policy, w: World, gate: Gate)
    requires Sound(w.s) && Conserved(p, w)
    ensures Conserved(p, Settle(p, w, gate))
  {
    DrainConserves(p, w.s, gate);
    hide DrainOf, Keep, TurnCands, Sound;
  }

  lemma SettleKeepsOrder(p: Policy, w: World, gate: Gate, r: nat)
    requires Sound(w.s) && r <= 3 && InOrder(p, w, r)
    ensures InOrder(p, Settle(p, w, gate), r)
  {
    DrainKeepsOrder(p, w.s, gate, r);
    hide DrainOf, Keep, TurnCands, Sound, Yes, No, Sub, OfRank;
    var f, out := OfRank(r), Keep(DrainOf(p, w.s, gate).out, TurnOnly());
    KeepAppend(w.released, out, f);
    KeepSwap(Waiting(p, w), Yes(p, gate), f);
    KeepIsSub(Keep(Waiting(p, w), f), Yes(p, gate));
    SubSettles(Keep(w.released, f), Keep(Waiting(p, w), f), Keep(w.buffered, f),
               Keep(out, f), Keep(Waiting(p, Settle(p, w, gate)), f));
  }

  ghost predicate Inv(p: Policy, w: World) {
    Sound(w.s) && Conserved(p, w) && forall r: nat :: r <= 3 ==> InOrder(p, w, r)
  }

  lemma IngestValid(p: Policy, s: State, now: int, ev: Event)
    requires Sound(s)
    ensures Sound(Ingested(p, s, now, ev))
  {
    if p.hint(ev.name).windowMs <= 0 {
      BufferedValid(s, ev, p.hint(ev.name));
    } else {
      ValidStep(WindowConfig(p, ev.name), WindowOf(s, ev.name), Pushed(now, ev));
      hide Windows.Valid, Joined;
    }
  }

  lemma DrainValid(p: Policy, s: State, gate: Gate)
    requires Sound(s)
    ensures Sound(DrainOf(p, s, gate).state)
  {
  }

  lemma StepKeeps(p: Policy, w: World, op: Op)
    requires Inv(p, w)
    ensures Inv(p, Next(p, w, op))
  {
    match op
    case Ingest(at, ev) =>
      IngestValid(p, w.s, at, ev);
      var more := if p.hint(ev.name).windowMs <= 0 then ForTurn([ev], p.hint(ev.name)) else [];
      assert w.s.pending + [] == w.s.pending;
      hide Inv, Sound;
      ArrivedKeeps(p, w, Ingested(p, w.s, at, ev), more);
    case DrainAll(at, names, gate) =>
      var s1, more := FlushedAll(p, w.s, at, names), Fresh(p, w.s, at, names);
      FlushValid(p, w.s, at, names);
      FlushPending(p, w.s, at, names);
      hide Inv, Sound, FlushedAll, Fresh, DrainOf, Keep;
      ArrivedKeeps(p, w, s1, more);
      SettleKeeps(p, Arrived(p, w, s1, more), gate);
      assert Next(p, w, op) == Settle(p, Arrived(p, w, s1, more), gate);
  }

  lemma SettleKeeps(p: Policy, w: World, gate: Gate)
    requires Inv(p, w)
    ensures Inv(p, Settle(p, w, gate))
  {
    DrainValid(p, w.s, gate);
    hide Conserved, InOrder, Sound, DrainOf, Keep;
    SettleConserves(p, w, gate);
    forall r: nat | r <= 3 ensures InOrder(p, Settle(p, w, gate), r) { SettleKeepsOrder(p, w, gate, r); }
  }

  /** Every op of a run, in order, from an empty policy. */
  function Exec(p: Policy, ops: seq<Op>): (w: World)
    ensures Inv(p, w)
  {
    if ops == [] then World(Start(), [], [], [])
    else
      var w := Exec(p, ops[..|ops| - 1]);
      StepKeeps(p, w, ops[|ops| - 1]);
      Next(p, w, ops[|ops| - 1])
  }

  /** Some drain of the run let the event pass, or withheld it. */
  ghost predicate Passed(p: Policy, ops: seq<Op>, ev: Event) {
    exists n :: 0 <= n < |ops| && ops[n].DrainAll? && Permitted(p.hint(ev.name), ops[n].gate, ev)
  }

  ghost predicate Stopped(p: Policy, ops: seq<Op>, ev: Event) {
    exists n :: 0 <= n < |ops| && ops[n].DrainAll? && !Permitted(p.hint(ev.name), ops[n].gate, ev)
  }

  lemma PassedMore(p: Policy, ops: seq<Op>, op: Op, ev: Event)
    ensures Passed(p, ops, ev) ==> Passed(p, ops + [op], ev)
    ensures Stopped(p, ops, ev) ==> Stopped(p, ops + [op], ev)
    ensures op.DrainAll? ==>
              if Permitted(p.hint(ev.name), op.gate, ev) then Passed(p, ops + [op], ev) else Stopped(p, ops + [op], ev)
  {
    hide Permitted;
    var all := ops + [op];
    assert all[|ops|] == op;
    if n :| 0 <= n < |ops| && ops[n].DrainAll? && Permitted(p.hint(ev.name), ops[n].gate, ev) { assert all[n] == ops[n]; }
    if n :| 0 <= n < |ops| && ops[n].DrainAll? && !Permitted(p.hint(ev.name), ops[n].gate, ev) { assert all[n] == ops[n]; }
  }

  /** What one op adds to the released and the denied events. */
  lemma StepByHints(p: Policy, w: World, op: Op) returns (out: seq<Cand>, no: seq<Cand>)
    requires Inv(p, w)
    ensures Next(p, w, op).released == w.released + out && Next(p, w, op).denied == w.denied + no
    ensures op.Ingest? ==> out == [] && no == []
    ensures op.DrainAll? ==>
              && (forall i :: 0 <= i < |out| ==> Permitted(p.hint(out[i].ev.name), op.gate, out[i].ev))
              && (forall i :: 0 <= i < |no| ==> !Permitted(p.hint(no[i].ev.name), op.gate, no[i].ev))
  {
    out, no := [], [];
    if op.DrainAll? {
      FlushValid(p, w.s, op.at, op.names);
      var s1 := FlushedAll(p, w.s, op.at, op.names);
      DrainByHints(p, s1, op.gate);
      var d := DrainOf(p, s1, op.gate);
      out, no := Keep(d.out, TurnOnly()), Keep(TurnCands(p, s1.pending), No(p, op.gate));
      assert Next(p, w, op).released == w.released + out && Next(p, w, op).denied == w.denied + no;
      hide DrainOf, Keep, Inv, FlushedAll, Permitted, Consents, Next;
      forall i | 0 <= i < |out| ensures Permitted(p.hint(out[i].ev.name), op.gate, out[i].ev) {
        var k := KeepFrom(d.out, TurnOnly(), i);
      }
      forall i | 0 <= i < |no| ensures !Permitted(p.hint(no[i].ev.name), op.gate, no[i].ev) {
        ConsentByHint(p, op.gate, no[i].ev);
      }
    }
  }

  /** In every run, an event is released only if it may be shown by the gate of some drain, and denied only if the gate of
      some drain withholds it. */
  lemma {:induction false} ReleasedOnlyIfPermitted(p: Policy, ops: seq<Op>)
    ensures forall i :: 0 <= i < |Exec(p, ops).released| ==> Passed(p, ops, Exec(p, ops).released[i].ev)
    ensures forall i :: 0 <= i < |Exec(p, ops).denied| ==> Stopped(p, ops, Exec(p, ops).denied[i].ev)
  {
    hide Next, Inv, Permitted, Passed, Stopped;
    if ops != [] {
      var front, op := ops[..|ops| - 1], ops[|ops| - 1];
      ReleasedOnlyIfPermitted(p, front);
      var out, no := StepByHints(p, Exec(p, front), op);
      ExecBack(p, ops);
      hide Exec;
      assert ops == front + [op];
      var w := Exec(p, ops);
      forall i | 0 <= i < |w.released| ensures Passed(p, ops, w.released[i].ev) {
        PassedMore(p, front, op, w.released[i].ev);
      }
      forall i | 0 <= i < |w.denied| ensures Stopped(p, ops, w.denied[i].ev) {
        PassedMore(p, front, op, w.denied[i].ev);
      }
    }
  }

  /** Where an event goes when it arrives, by its hint: into its own name's window if it has one, and otherwise into the
      session, in place of the last one of its server and name, or behind the other pending events. */
  lemma IngestByHint(p: Policy, s: State, now: int, ev: Event)
    ensures var h := p.hint(ev.name); var s' := Ingested(p, s, now, ev);
            if h.windowMs > 0 then
              && s' == s.(windows := s'.windows) && ev.name in s'.windows
              && (forall name :: name != ev.name ==> WindowOf(s', name) == WindowOf(s, name))
              && WindowOf(s', ev.name)
                 == Windows.Next(Config(h.windowMs, h.strategy, Some(p.merge)), WindowOf(s, ev.name), Pushed(now, ev))
            else if h.retention == "session" then
              && s' == s.(session := s.session[KeyOf(ev) := ev], sessOrd := s'.sessOrd)
              && s'.sessOrd == if KeyOf(ev) in s.session then s.sessOrd else s.sessOrd + [KeyOf(ev)]
            else s' == s.(pending := s.pending + [ev])
  {
    hide Joined;
  }

  // ---------------------------------------------------------------- the windows of a run

  lemma {:induction false} FlushWindows(p: Policy, s: State, now: int, names: seq<string>, name: string)
    requires Distinct(names)
    ensures WindowOf(FlushedAll(p, s, now, names), name)
         == if name in names then Kept(WindowOf(s, name), now) else WindowOf(s, name)
    ensures FlushedAll(p, s, now, names).windows.Keys == s.windows.Keys + set n | n in names
  {
    if names != [] {
      var front, last := names[..|names| - 1], names[|names| - 1];
      assert names == front + [last];
      assert last !in front;
      FlushWindows(p, s, now, front, name);
      FlushWindows(p, s, now, front, last);
      var s1 := FlushedAll(p, s, now, front);
      var w := WindowOf(s1, last);
      hide Kept, Released;
      BufferedAllPending(s1.(windows := s1.windows[last := Kept(w, now)]), Released(w, now), p.hint(last));
    }
  }

  /** A drain flushes each window once. */
  ghost predicate FitsOp(s: State, op: Op) {
    op.DrainAll? ==> Distinct(op.names) && (set n | n in op.names) == s.windows.Keys
  }

  ghost predicate Fits(p: Policy, ops: seq<Op>) {
    ops == [] || (Fits(p, ops[..|ops| - 1]) && FitsOp(Exec(p, ops[..|ops| - 1]).s, ops[|ops| - 1]))
  }

  /** The pushes and flushes that one event name's window sees. */
  function Seen(p: Policy, ops: seq<Op>, name: string): seq<Windows.Op> {
    if ops == [] then [] else Seen(p, ops[..|ops| - 1], name) + SeenOp(p, ops[|ops| - 1], name)
  }

  function SeenOp(p: Policy, op: Op, name: string): (r: seq<Windows.Op>)
    ensures |r| <= 1
  {
    match op
    case Ingest(at, ev) => if ev.name == name && p.hint(name).windowMs > 0 then [Pushed(at, ev)] else []
    case DrainAll(at, _, _) => [Flushed(at)]
  }

  lemma StepWindow(p: Policy, w: World, op: Op, name: string)
    requires Inv(p, w) && FitsOp(w.s, op)
    ensures var r := SeenOp(p, op, name); var before := WindowOf(w.s, name);
            WindowOf(Next(p, w, op).s, name) ==
              if r == [] then before else Windows.Next(WindowConfig(p, name), before, r[0])
  {
    match op
    case Ingest(at, ev) =>
      hide Inv, Joined, Kept;
    case DrainAll(at, names, gate) =>
      hide Inv, FlushedAll, Fresh, Keep, Kept, TurnCands;
      StepDrains(p, w, op);
      FlushWindows(p, w.s, at, names, name);
      KeptEmpty(at);
  }

  lemma KeptEmpty(at: int)
    ensures Kept(Empty(), at) == Empty()
  {
  }

  lemma StepDrains(p: Policy, w: World, op: Op)
    requires Inv(p, w) && op.DrainAll?
    ensures Next(p, w, op).s.windows == FlushedAll(p, w.s, op.at, op.names).windows
  {
    FlushValid(p, w.s, op.at, op.names);
    hide FlushedAll, Fresh, Keep, TurnCands, Inv;
  }

  lemma RunMore(c: Config, ops: seq<Windows.Op>, more: seq<Windows.Op>)
    requires |more| <= 1
    ensures Run(c, ops + more) == if more == [] then Run(c, ops) else Windows.Next(c, Run(c, ops), more[0])
  {
    if more == [] {
      assert ops + more == ops;
    } else {
      assert (ops + more)[..|ops|] == ops;
    }
  }

  /** After any run each window is the window of its own pushes and flushes. */
  lemma {:induction false} WindowsAreIndependent(p: Policy, ops: seq<Op>, name: string)
    requires Fits(p, ops)
    ensures WindowOf(Exec(p, ops).s, name) == Run(WindowConfig(p, name), Seen(p, ops, name))
  {
    hide Next, Inv, Windows.Next, WindowConfig, SeenOp, FitsOp;
    if ops != [] {
      var front, op, c := ops[..|ops| - 1], ops[|ops| - 1], WindowConfig(p, name);
      WindowsAreIndependent(p, front, name);
      StepWindow(p, Exec(p, front), op, name);
      hide Exec, Fits, Run;
      ExecBack(p, ops);
      RunMore(c, Seen(p, front, name), SeenOp(p, op, name));
    }
  }

  /** The bursts that are over in the windows of names, as the events pushed under each name form them, less those kept for
      the session. */
  function OverBursts(p: Policy, ops: seq<Op>, now: int, names: seq<string>): seq<Event> {
    if names == [] then []
    else
      var name := names[|names| - 1];
      OverBursts(p, ops, now, names[..|names| - 1])
        + ForTurn(Released(Run(WindowConfig(p, name), Seen(p, ops, name)), now), p.hint(name))
  }

  /** From the event ingested to the drain: what a drain after any run adds to the turn's buffer is, window by window, the
      bursts of the events ingested that are over then. With Conserved, each of them is then released, denied or pending,
      once. */
  lemma {:induction false} FreshAreOverBursts(p: Policy, ops: seq<Op>, now: int, names: seq<string>)
    requires Fits(p, ops) && Distinct(names)
    ensures Fresh(p, Exec(p, ops).s, now, names) == OverBursts(p, ops, now, names)
  {
    hide Inv, Exec, Fits, Run, Seen;
    if names != [] {
      var front, name, s := names[..|names| - 1], names[|names| - 1], Exec(p, ops).s;
      FreshAreOverBursts(p, ops, now, front);
      assert name !in front;
      FlushWindows(p, s, now, front, name);
      WindowsAreIndependent(p, ops, name);
    }
  }

  lemma ExecBack(p: Policy, ops: seq<Op>)
    requires ops != []
    ensures Exec(p, ops) == Next(p, Exec(p, ops[..|ops| - 1]), ops[|ops| - 1])
  {
    hide Next, Inv;
  }

  // ---------------------------------------------------------------- the class

  class EventInjectionPolicy {
    const p: Policy
    const gate: Gate
    var windows: map<string, Window>
    var pending: seq<Event>
    var session: map<string, Event>
    var sessOrd: seq<string>
    var dropped: nat

    function View(): State reads this { State(windows, pending, session, sessOrd, dropped) }

    constructor (p: Policy, gate: Gate)
      ensures View() == Start() && Sound(View()) && this.p == p && this.gate == gate
    {
      this.p, this.gate := p, gate;
      windows, pending, session, sessOrd, dropped := map[], [], map[], [], 0;
    }

    method Buffer(ev: Event, h: Hint)
      requires Sound(View())
      modifies this
      ensures View() == Buffered(old(View()), ev, h) && Sound(View())
    {
      BufferedValid(View(), ev, h);
      if h.retention == "session" {
        var key := KeyOf(ev);
        if key !in session { sessOrd := sessOrd + [key]; }
        session := session[key := ev];
        return;
      }
      pending := pending + [ev];
    }

    method Ingest(now: int, ev: Event)
      requires Sound(View())
      modifies this
      ensures View() == Ingested(p, old(View()), now, ev) && Sound(View())
    {
      IngestValid(p, View(), now, ev);
      hide Sound, Joined;
      var h := p.hint(ev.name);
      if h.windowMs <= 0 {
        Buffer(ev, h);
        return;
      }
      var w := if ev.name in windows then windows[ev.name] else Empty();
      windows := windows[ev.name := Joined(Config(h.windowMs, h.strategy, Some(p.merge)), w, now, ev)];
    }

    method BufferAll(evs: seq<Event>, h: Hint)
      requires Sound(View())
      modifies this
      ensures View() == BufferedAll(old(View()), evs, h) && Sound(View()) && windows == old(windows)
    {
      hide Sound;
      ghost var start := View();
      for j := 0 to |evs|
        invariant View() == BufferedAll(start, evs[..j], h) && Sound(View()) && windows == start.windows
      {
        assert evs[..j + 1][..j] == evs[..j];
        Buffer(evs[j], h);
      }
      assert evs[..|evs|] == evs;
    }

    /** The first loop of Drain; names is the order in which the map yields the windows. */
    method Flush(now: int, names: seq<string>)
      requires Sound(View()) && forall i :: 0 <= i < |names| ==> names[i] in windows
      modifies this
      ensures View() == FlushedAll(p, old(View()), now, names) && Sound(View())
    {
      hide Windows.Valid, Kept, BufferedAll, Released;
      ghost var s := View();
      for i := 0 to |names|
        invariant View() == FlushedAll(p, s, now, names[..i]) && Sound(View())
        invariant forall j :: 0 <= j < |names| ==> names[j] in windows
      {
        var name := names[i];
        assert names[..i + 1][..i] == names[..i];
        var w := windows[name];
        KeptValid(w, now);
        var released := Released(w, now);
        windows := windows[name := Kept(w, now)];
        BufferAll(released, p.hint(name));
      }
      assert names[..|names|] == names;
    }

    /** Consent, then priority, then the budget. The rendering of an entry as text is left out. */
    method Drain(now: int, names: seq<string>) returns (out: seq<Cand>)
      requires Sound(View()) && forall i :: 0 <= i < |names| ==> names[i] in windows
      modifies this
      ensures Sound(View())
      ensures var s := FlushedAll(p, old(View()), now, names);
              (forall i :: 0 <= i < |s.sessOrd| ==> s.sessOrd[i] in s.session)
              && var d := DrainOf(p, s, gate); View() == d.state && out == d.out
    {
      Flush(now, names);
      DrainValid(p, View(), gate);
      assert forall i :: 0 <= i < |sessOrd| ==> sessOrd[i] in session;
      hide FlushedAll, Sound, DrainOf;
      out := Settle();
    }

    /** Drain after the flush. */
    method Settle() returns (out: seq<Cand>)
      requires forall i :: 0 <= i < |sessOrd| ==> sessOrd[i] in session
      modifies this
      ensures var d := DrainOf(p, old(View()), gate); View() == d.state && out == d.out
    {
      hide Keep, ByPriority, Yes, Cands, EventsOf, TurnOnly;
      var cands := GatherCands();
      var ok := Consented(p, gate, cands);
      dropped := dropped + (|cands| - |ok|);
      var left;
      out, left := Spend(p, ByPriority(ok));
      pending := left;
    }

    method GatherCands() returns (cands: seq<Cand>)
      requires forall i :: 0 <= i < |sessOrd| ==> sessOrd[i] in session
      ensures cands == Cands(p, View())
    {
      cands := [];
      for i := 0 to |sessOrd|
        invariant cands == SessionCands(p, View())[..i]
      {
        var ev := session[sessOrd[i]];
        cands := cands + [Cand(ev, true, PriorityRank(p.hint(ev.name).priority))];
      }
      for i := 0 to |pending|
        invariant cands == SessionCands(p, View()) + TurnCands(p, pending)[..i]
      {
        cands := cands + [Cand(pending[i], false, PriorityRank(p.hint(pending[i].name).priority))];
      }
    }
  }

  method Consented(p: Policy, gate: Gate, cands: seq<Cand>) returns (ok: seq<Cand>)
    ensures ok == Keep(cands, Yes(p, gate))
  {
    ok := [];
    for i := 0 to |cands|
      invariant ok == Keep(cands[..i], Yes(p, gate))
    {
      assert cands[..i + 1][..i] == cands[..i];
      if !Consents(p, gate, cands[i].ev) { continue; }
      ok := ok + [cands[i]];
    }
    assert cands[..|cands|] == cands;
  }

  /** The last loop of Drain. */
  method Spend(p: Policy, ranked: seq<Cand>) returns (out: seq<Cand>, left: seq<Event>)
    ensures out == ranked[..Cut(p, ranked)] && left == EventsOf(Keep(ranked[Cut(p, ranked)..], TurnOnly()))
  {
    out, left := [], [];
    ghost var n := Cut(p, ranked);
    for i := 0 to |ranked|
      invariant out == ranked[..if i < n then i else n]
      invariant left == EventsOf(Keep(ranked[n..if i < n then n else i], TurnOnly()))
    {
      if |out| >= Budget(p) {
        assert ranked[n..i + 1][..i - n] == ranked[n..i];
        if !ranked[i].session { left := left + [ranked[i].ev]; }
        continue;
      }
      out := out + [ranked[i]];
    }
    assert ranked[..|ranked|] == ranked && ranked[n..|ranked|] == ranked[n..];
  }
}
