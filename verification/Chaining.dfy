/** Conversation chaining over a provider that stores its responses.

A request goes out either with its whole history, or as the id of a stored response followed by the rest of
the history. Which one is decided by the cursor cache, so what a request denotes depends on every request
before it. Here concurrent callers, the cache and the server are one state machine; its steps are the atomic
points of the source (a cache operation, the server taking or refusing a request). */
module Chaining {
  import opened Wrappers
  import opened Messages
  import opened Cursors
  import CursorKey

  /** SHA-256 is taken to be injective. */
  ghost predicate Injective<K>(hash: string -> K) {
    forall a: string, b: string :: hash(a) == hash(b) ==> a == b
  }

  function Key<K>(hash: string -> K, ms: seq<Message>): K { hash(CursorKey.Bytes(SeeAll(ms))) }

  /** Index of the last assistant message, or -1. */
  function LastAssistant(ms: seq<Message>): (r: int)
    ensures -1 <= r < |ms|
    ensures r >= 0 ==> ms[r].role == ASSISTANT
    ensures forall i :: r < i < |ms| ==> ms[i].role != ASSISTANT
  {
    if ms == [] then -1
    else if ms[|ms| - 1].role == ASSISTANT then |ms| - 1
    else LastAssistant(ms[..|ms| - 1])
  }

  /** What send posts: the id of the response it continues, if any, and the messages that follow. */
  datatype Plan = Plan(prev: string, input: seq<Message>)

  /** The part of the history a cursor may stand for: everything up to its last assistant message. */
  function Covered(ms: seq<Message>): seq<Message> { ms[..LastAssistant(ms) + 1] }

  function Choose<K(==)>(hash: string -> K, noStore: bool, cache: Lru<K>, ms: seq<Message>): Plan {
    if noStore || Covered(ms) == [] then Plan("", ms)
    else match Lookup(cache, Key(hash, Covered(ms)))
      case Some(id) => Plan(id, ms[|Covered(ms)|..])
      case None => Plan("", ms)
  }

  function AfterChoose<K(==)>(hash: string -> K, noStore: bool, cache: Lru<K>, ms: seq<Message>): Lru<K> {
    if noStore || Covered(ms) == [] then cache else AfterGet(cache, Key(hash, Covered(ms)))
  }

  function AfterRemember<K(==)>(hash: string -> K, noStore: bool, cache: Lru<K>, ms: seq<Message>, reply: Message,
                                id: string, max: nat): Lru<K>
  {
    if noStore || id == "" then cache else AfterPut(cache, Key(hash, ms + [reply]), id, max)
  }

  // ---------------------------------------------------------------- the provider

  class ResponsesProvider<K(==, !new)> {
    const hash: string -> K
    const noStore: bool
    const cursors: CursorCache<K>

    constructor (h: string -> K, ns: bool, size: int)
      ensures hash == h && noStore == ns && fresh(cursors) && cursors.Valid() && cursors.Contents() == []
      ensures cursors.max == if size <= 0 then 256 else size
    {
      hash, noStore := h, ns;
      cursors := new CursorCache(if size <= 0 then 256 else size);
    }

    method FindLastAssistant(ms: seq<Message>) returns (r: int)
      ensures r == LastAssistant(ms)
    {
      var i := |ms| - 1;
      while i >= 0
        invariant -1 <= i < |ms|
        invariant LastAssistant(ms) == LastAssistant(ms[..i + 1])
      {
        if ms[i].role == ASSISTANT { return i; }
        assert ms[..i + 1][..i] == ms[..i];
        i := i - 1;
      }
      return -1;
    }

    /** The first half of send: pick the cursor. */
    method Pick(ms: seq<Message>) returns (p: Plan)
      requires cursors.Valid()
      modifies cursors
      ensures cursors.Valid()
      ensures p == Choose(hash, noStore, old(cursors.Contents()), ms)
      ensures cursors.Contents() == AfterChoose(hash, noStore, old(cursors.Contents()), ms)
      ensures noStore ==> p == Plan("", ms) && cursors.Contents() == old(cursors.Contents())
    {
      hide CursorKey.Bytes, SeeAll, LastAssistant, Lookup, AfterGet;
      var input, prev := ms, "";
      if !noStore {
        var last := FindLastAssistant(ms);
        var k := last + 1;
        if k > 0 {
          var bytes := CursorKey.HashedBytes(ms[..k]);
          var found := cursors.Get(hash(bytes));
          if found.Some? { input, prev := ms[k..], found.value; }
        }
      }
      p := Plan(prev, input);
    }

    /** The retry of send: forget a cursor the server refused, and send the whole history. */
    method Retry(ms: seq<Message>) returns (p: Plan)
      requires cursors.Valid()
      modifies cursors
      ensures cursors.Valid()
      ensures p == Plan("", ms)
      ensures cursors.Contents() == Remove(old(cursors.Contents()), Key(hash, Covered(ms)))
    {
      hide CursorKey.Bytes, SeeAll, LastAssistant, Remove;
      var last := FindLastAssistant(ms);
      var bytes := CursorKey.HashedBytes(ms[..last + 1]);
      cursors.Drop(hash(bytes));
      p := Plan("", ms);
    }

    method Remember(ms: seq<Message>, id: string, text: string, calls: seq<ToolCall>)
      requires cursors.Valid()
      modifies cursors, cursors.order
      ensures cursors.Valid()
      ensures cursors.Contents() ==
              AfterRemember(hash, noStore, old(cursors.Contents()), ms, Reply(text, calls), id, cursors.max)
      ensures noStore || id == "" ==> cursors.Contents() == old(cursors.Contents())
    {
      hide CursorKey.Bytes, SeeAll, AfterPut;
      if noStore || id == "" { return; }
      var bytes := CursorKey.HashedBytes(ms + [Reply(text, calls)]);
      cursors.Put(hash(bytes), id);
    }
  }

  // ---------------------------------------------------------------- provider and server together

  /** Conversations the server holds by response id, and every id it ever gave out. */
  datatype Server = Server(stored: map<string, seq<Seen>>, given: set<string>)

  /** A caller between choosing its request and having it taken, and one whose reply is not yet remembered. */
  datatype Caller =
    | Posting(ms: seq<Message>, plan: Plan)
    | Answered(ms: seq<Message>, reply: Message, id: string)

  /** One request the server took: the history the caller asked with, and what the server read it as. */
  datatype Taken = Taken(ms: seq<Message>, read: seq<Seen>)

  datatype State<K> = State(cache: Lru<K>, server: Server, callers: map<nat, Caller>, taken: seq<Taken>)

  datatype Config<!K> = Config(hash: string -> K, noStore: bool, max: nat)

  datatype Step =
    | Send(c: nat, ms: seq<Message>)
    | Take(c: nat, id: string, text: string, calls: seq<ToolCall>)
    | Refuse(c: nat, stale: bool)
    | Remember(c: nat)
    | Abandon(c: nat)
    | Expire(id: string)
    | Elsewhere(id: string, conversation: seq<Seen>)

  function Init<K>(): State<K> { State([], Server(map[], {}), map[], []) }

  /** What the server understands a plan to say. */
  function Read(s: Server, p: Plan): seq<Seen>
    requires p.prev == "" || p.prev in s.stored
  {
    (if p.prev == "" then [] else s.stored[p.prev]) + SeeAll(p.input)
  }

  /** The server may answer with no id; an id it does give was never given before. */
  predicate Enabled<K>(s: State<K>, st: Step) {
    match st
    case Send(c, ms) => c !in s.callers && CursorKey.AllFit(SeeAll(ms))
    case Take(c, id, text, calls) =>
      && c in s.callers && s.callers[c].Posting?
      && (s.callers[c].plan.prev == "" || s.callers[c].plan.prev in s.server.stored)
      && id !in s.server.given && CursorKey.Fits(See(Reply(text, calls)))
    case Refuse(c, _) => c in s.callers && s.callers[c].Posting?
    case Remember(c) => c in s.callers && s.callers[c].Answered?
    case Abandon(c) => c in s.callers
    case Expire(id) => true
    case Elsewhere(id, _) => id != "" && id !in s.server.given
  }

  function Store(s: Server, id: string, conv: seq<Seen>): Server {
    if id == "" then s else Server(s.stored[id := conv], s.given + {id})
  }

  function Next<K(==)>(cfg: Config<K>, s: State<K>, st: Step): State<K>
    requires Enabled(s, st)
  {
    match st
    case Send(c, ms) =>
      s.(cache := AfterChoose(cfg.hash, cfg.noStore, s.cache, ms),
         callers := s.callers[c := Posting(ms, Choose(cfg.hash, cfg.noStore, s.cache, ms))])
    case Take(c, id, text, calls) =>
      var Posting(ms, plan) := s.callers[c];
      var read := Read(s.server, plan);
      var reply := Reply(text, calls);
      s.(server := if cfg.noStore then s.server else Store(s.server, id, read + [See(reply)]),
         callers := s.callers[c := Answered(ms, reply, id)],
         taken := s.taken + [Taken(ms, read)])
    case Refuse(c, stale) =>
      var Posting(ms, plan) := s.callers[c];
      if stale && plan.prev != "" then
        s.(cache := Remove(s.cache, Key(cfg.hash, Covered(ms))),
           callers := s.callers[c := Posting(ms, Plan("", ms))])
      else s.(callers := s.callers - {c})
    case Remember(c) =>
      var Answered(ms, reply, id) := s.callers[c];
      s.(cache := AfterRemember(cfg.hash, cfg.noStore, s.cache, ms, reply, id, cfg.max), callers := s.callers - {c})
    case Abandon(c) => s.(callers := s.callers - {c})
    case Expire(id) => s.(server := s.server.(stored := s.server.stored - {id}))
    case Elsewhere(id, conv) => s.(server := Store(s.server, id, conv))
  }

  // ---------------------------------------------------------------- the invariant

  /** If the server still has id, it holds exactly conv under it. */
  predicate Stands(s: Server, id: string, conv: seq<Seen>) {
    id != "" && id in s.given && (id in s.stored ==> s.stored[id] == conv)
  }

  ghost predicate GoodEntry<K>(hash: string -> K, s: Server, e: (K, string)) {
    exists conv :: CursorKey.AllFit(conv) && e.0 == hash(CursorKey.Bytes(conv)) && Stands(s, e.1, conv)
  }

  predicate GoodPlan(s: Server, ms: seq<Message>, p: Plan) {
    if p.prev == "" then p.input == ms
    else |p.input| <= |ms| && p.input == ms[|ms| - |p.input|..] && Stands(s, p.prev, SeeAll(ms[..|ms| - |p.input|]))
  }

  predicate GoodCaller(noStore: bool, s: Server, c: Caller) {
    match c
    case Posting(ms, p) => CursorKey.AllFit(SeeAll(ms)) && GoodPlan(s, ms, p)
    case Answered(ms, reply, id) =>
      && CursorKey.AllFit(SeeAll(ms) + [See(reply)])
      && (id == "" || noStore || Stands(s, id, SeeAll(ms) + [See(reply)]))
  }

  ghost predicate Inv<K(!new)>(cfg: Config<K>, s: State<K>) {
    && DistinctEntries(s.cache) && |s.cache| <= cfg.max
    && s.server.stored.Keys <= s.server.given && "" !in s.server.given
    && (forall e :: e in s.cache ==> GoodEntry(cfg.hash, s.server, e))
    && (forall c :: c in s.callers ==> GoodCaller(cfg.noStore, s.server, s.callers[c]))
    && (forall t :: t in s.taken ==> t.read == SeeAll(t.ms))
  }

  /** Nothing the server does to other ids disturbs a cursor. */
  predicate Grows(a: Server, b: Server) {
    && a.given <= b.given
    && forall id :: id in b.stored && id in a.given ==> id in a.stored && a.stored[id] == b.stored[id]
  }

  lemma StandsGrows(a: Server, b: Server, id: string, conv: seq<Seen>)
    requires Grows(a, b) && Stands(a, id, conv)
    ensures Stands(b, id, conv)
  {
  }

  lemma EverythingGrows<K(!new)>(cfg: Config<K>, s: State<K>, b: Server)
    requires Inv(cfg, s) && Grows(s.server, b)
    ensures forall e :: e in s.cache ==> GoodEntry(cfg.hash, b, e)
    ensures forall c :: c in s.callers ==> GoodCaller(cfg.noStore, b, s.callers[c])
  {
    forall e | e in s.cache ensures GoodEntry(cfg.hash, b, e) {
      assert GoodEntry(cfg.hash, s.server, e);
      var conv :| CursorKey.AllFit(conv) && e.0 == cfg.hash(CursorKey.Bytes(conv)) && Stands(s.server, e.1, conv);
      StandsGrows(s.server, b, e.1, conv);
    }
  }

  lemma FrontFits(ms: seq<Message>, k: nat)
    requires k <= |ms| && CursorKey.AllFit(SeeAll(ms))
    ensures CursorKey.AllFit(SeeAll(ms[..k])) && ms[..|ms| - |ms[k..]|] == ms[..k]
  {
    hide CursorKey.Fits;
    assert forall i :: 0 <= i < k ==> SeeAll(ms[..k])[i] == SeeAll(ms)[i];
  }

  /** A cursor found for a covered history stands for exactly that history. */
  lemma ChooseIsGood<K(!new)>(cfg: Config<K>, s: State<K>, ms: seq<Message>)
    requires Injective(cfg.hash) && Inv(cfg, s) && CursorKey.AllFit(SeeAll(ms))
    ensures GoodPlan(s.server, ms, Choose(cfg.hash, cfg.noStore, s.cache, ms))
  {
    hide LastAssistant, CursorKey.Bytes, Lookup, DistinctEntries, CursorKey.AllFit;
    var front := Covered(ms);
    var key := Key(cfg.hash, front);
    if !cfg.noStore && front != [] && Lookup(s.cache, key).Some? {
      var id := Lookup(s.cache, key).value;
      LookupIsMember(s.cache, key, id);
      assert GoodEntry(cfg.hash, s.server, (key, id));
      var conv :| CursorKey.AllFit(conv) && key == cfg.hash(CursorKey.Bytes(conv)) && Stands(s.server, id, conv);
      FrontFits(ms, |front|);
      CursorKey.SameBytesSameHistory(conv, SeeAll(front));
    }
  }

  /** A good plan is read as the whole history. */
  lemma ReadIsHistory(s: Server, ms: seq<Message>, p: Plan)
    requires GoodPlan(s, ms, p) && (p.prev == "" || p.prev in s.stored)
    ensures Read(s, p) == SeeAll(ms)
  {
    if p.prev == "" {
      assert [] + SeeAll(ms) == SeeAll(ms);
    } else {
      var front := ms[..|ms| - |p.input|];
      assert ms == front + p.input;
      SeeAllAppend(front, p.input);
    }
  }

  lemma SubCache<K(!new)>(cfg: Config<K>, s: Server, cache: Lru<K>, k: K)
    requires DistinctEntries(cache) && forall e :: e in cache ==> GoodEntry(cfg.hash, s, e)
    ensures forall e :: e in Remove(cache, k) ==> GoodEntry(cfg.hash, s, e)
    ensures forall e :: e in AfterGet(cache, k) ==> GoodEntry(cfg.hash, s, e)
  {
    hide Remove, Lookup, GoodEntry;
    RemoveShape(cache, k);
    if Lookup(cache, k).Some? { LookupIsMember(cache, k, Lookup(cache, k).value); }
  }

  lemma SendKeeps<K(!new)>(cfg: Config<K>, s: State<K>, c: nat, ms: seq<Message>)
    requires Injective(cfg.hash) && Inv(cfg, s) && Enabled(s, Send(c, ms))
    ensures Inv(cfg, Next(cfg, s, Send(c, ms)))
  {
    hide Choose, GoodEntry, GoodPlan, Remove, Lookup, DistinctEntries;
    ChooseIsGood(cfg, s, ms);
    SubCache(cfg, s.server, s.cache, Key(cfg.hash, Covered(ms)));
    Shape(s.cache, GetOp(Key(cfg.hash, Covered(ms))), cfg.max);
  }

  lemma TakeKeeps<K(!new)>(cfg: Config<K>, s: State<K>, st: Step)
    requires Inv(cfg, s) && st.Take? && Enabled(s, st)
    ensures Inv(cfg, Next(cfg, s, st))
  {
    hide GoodEntry, CursorKey.Fits, DistinctEntries;
    var n := Next(cfg, s, st);
    var Posting(ms, p) := s.callers[st.c];
    ReadIsHistory(s.server, ms, p);
    assert Grows(s.server, n.server);
    EverythingGrows(cfg, s, n.server);
  }

  lemma RefuseKeeps<K(!new)>(cfg: Config<K>, s: State<K>, st: Step)
    requires Inv(cfg, s) && st.Refuse? && Enabled(s, st)
    ensures Inv(cfg, Next(cfg, s, st))
  {
    hide GoodEntry, Remove, DistinctEntries;
    var ms := s.callers[st.c].ms;
    SubCache(cfg, s.server, s.cache, Key(cfg.hash, Covered(ms)));
    Shape(s.cache, DropOp(Key(cfg.hash, Covered(ms))), cfg.max);
  }

  lemma EntryIsGood<K>(hash: string -> K, s: Server, conv: seq<Seen>, id: string)
    requires CursorKey.AllFit(conv) && Stands(s, id, conv)
    ensures GoodEntry(hash, s, (hash(CursorKey.Bytes(conv)), id))
  {
  }

  lemma RememberKeeps<K(!new)>(cfg: Config<K>, s: State<K>, st: Step)
    requires Inv(cfg, s) && st.Remember? && Enabled(s, st)
    ensures Inv(cfg, Next(cfg, s, st))
  {
    hide Remove, DistinctEntries, Lookup, GoodEntry, CursorKey.Bytes;
    var Answered(ms, reply, id) := s.callers[st.c];
    if !cfg.noStore && id != "" {
      var conv := SeeAll(ms) + [See(reply)];
      SeeAllAppend(ms, [reply]);
      assert SeeAll([reply]) == [See(reply)];
      var key := Key(cfg.hash, ms + [reply]);
      EntryIsGood(cfg.hash, s.server, conv, id);
      Shape(s.cache, PutOp(key, id), cfg.max);
      SubCache(cfg, s.server, s.cache, key);
    }
  }

  lemma StepKeeps<K(!new)>(cfg: Config<K>, s: State<K>, st: Step)
    requires Injective(cfg.hash) && Inv(cfg, s) && Enabled(s, st)
    ensures Inv(cfg, Next(cfg, s, st))
  {
    hide GoodEntry, DistinctEntries;
    match st
    case Send(c, ms) => SendKeeps(cfg, s, c, ms);
    case Take(_, _, _, _) => TakeKeeps(cfg, s, st);
    case Refuse(_, _) => RefuseKeeps(cfg, s, st);
    case Remember(_) => RememberKeeps(cfg, s, st);
    case Abandon(_) =>
    case Expire(_) => EverythingGrows(cfg, s, Next(cfg, s, st).server);
    case Elsewhere(_, _) => EverythingGrows(cfg, s, Next(cfg, s, st).server);
  }

  /** The state after these steps from the initial state, if each of them was possible. */
  function Exec<K(==)>(cfg: Config<K>, steps: seq<Step>): Option<State<K>> {
    if steps == [] then Some(Init())
    else match Exec(cfg, steps[..|steps| - 1])
      case None => None
      case Some(b) => var st := steps[|steps| - 1]; if Enabled(b, st) then Some(Next(cfg, b, st)) else None
  }

  lemma {:induction false} ExecKeeps<K(!new)>(cfg: Config<K>, steps: seq<Step>)
    requires Injective(cfg.hash) && Exec(cfg, steps).Some?
    ensures Inv(cfg, Exec(cfg, steps).value)
  {
    hide Inv;
    if steps == [] {
      InitIsGood(cfg);
    } else {
      var before := steps[..|steps| - 1];
      ExecKeeps(cfg, before);
      StepKeeps(cfg, Exec(cfg, before).value, steps[|steps| - 1]);
    }
  }

  lemma InitIsGood<K(!new)>(cfg: Config<K>)
    ensures Inv(cfg, Init())
  {
  }

  /** Chaining preserves meaning. In every run of interleaved callers, with evictions, deletions on the server,
      other clients and stale-cursor retries, every request the server took was read as exactly what the model
      sees of the history it was sent with. */
  lemma ChainingPreservesMeaning<K(!new)>(cfg: Config<K>, steps: seq<Step>, t: Taken)
    requires Injective(cfg.hash) && Exec(cfg, steps).Some? && t in Exec(cfg, steps).value.taken
    ensures t.read == SeeAll(t.ms)
  {
    ExecKeeps(cfg, steps);
  }

  // ---------------------------------------------------------------- the fast path

  /** What a step does to the cache. */
  function CacheOp<K>(cfg: Config<K>, s: State<K>, st: Step): (r: seq<Op<K>>)
    requires Enabled(s, st)
    ensures |r| <= 1
  {
    match st
    case Send(_, ms) => if cfg.noStore || Covered(ms) == [] then [] else [GetOp(Key(cfg.hash, Covered(ms)))]
    case Refuse(c, stale) =>
      var Posting(ms, plan) := s.callers[c];
      if stale && plan.prev != "" then [DropOp(Key(cfg.hash, Covered(ms)))] else []
    case Remember(c) =>
      var Answered(ms, reply, id) := s.callers[c];
      if cfg.noStore || id == "" then [] else [PutOp(Key(cfg.hash, ms + [reply]), id)]
    case _ => []
  }

  /** The lookups, puts and drops of a run. */
  function CacheOps<K(==)>(cfg: Config<K>, steps: seq<Step>): seq<Op<K>>
    requires Exec(cfg, steps).Some?
  {
    if steps == [] then []
    else
      var front := steps[..|steps| - 1];
      CacheOps(cfg, front) + CacheOp(cfg, Exec(cfg, front).value, steps[|steps| - 1])
  }

  lemma {:induction false} CacheIsRun<K(!new)>(cfg: Config<K>, steps: seq<Step>)
    requires Exec(cfg, steps).Some?
    ensures Exec(cfg, steps).value.cache == Run([], CacheOps(cfg, steps), cfg.max)
  {
    if steps != [] {
      var front := steps[..|steps| - 1];
      CacheIsRun(cfg, front);
      var s, st := Exec(cfg, front).value, steps[|steps| - 1];
      hide Run, CacheOp, Next, Enabled;
      RunMore(CacheOps(cfg, front), CacheOp(cfg, s, st), cfg.max);
      StepIsOp(cfg, s, st);
    }
  }

  lemma StepIsOp<K(!new)>(cfg: Config<K>, s: State<K>, st: Step)
    requires Enabled(s, st)
    ensures var r := CacheOp(cfg, s, st); Next(cfg, s, st).cache == if r == [] then s.cache else Apply(s.cache, r[0], cfg.max)
  {
    hide Remove, Lookup, Covered, Key;
  }

  lemma RunMore<K(!new)>(ops: seq<Op<K>>, more: seq<Op<K>>, max: nat)
    requires |more| <= 1
    ensures Run([], ops + more, max) == if more == [] then Run([], ops, max) else Apply(Run([], ops, max), more[0], max)
  {
    if more == [] { assert ops + more == ops; } else { assert (ops + more)[..|ops|] == ops; }
  }

  lemma CoversReply(ms: seq<Message>, reply: Message, more: seq<Message>)
    requires reply.role == ASSISTANT && forall m :: m in more ==> m.role != ASSISTANT
    ensures var all := ms + [reply] + more; Covered(all) == ms + [reply] && all[|Covered(all)|..] == more
  {
    var all := ms + [reply] + more;
    assert all[|ms|] == reply;
    assert forall j :: |ms| < j < |all| ==> all[j] in more;
    assert LastAssistant(all) == |ms|;
  }

  /** The fast path is taken. In every run: once a reply has been remembered, or found again, a history that goes on from
      it with no further assistant message is sent as the id last remembered for it and just the new messages, as long as
      fewer than max other histories were remembered or found since and it was not dropped since. */
  lemma ChainsOnceRemembered<K(!new)>(cfg: Config<K>, steps: seq<Step>, i: nat, ms: seq<Message>, reply: Message,
                                      more: seq<Message>)
    requires !cfg.noStore && Exec(cfg, steps).Some? && i < |CacheOps(cfg, steps)|
    requires reply.role == ASSISTANT && forall m :: m in more ==> m.role != ASSISTANT
    requires Touches(CacheOps(cfg, steps), i, Key(cfg.hash, ms + [reply]), cfg.max)
    requires forall j :: i < j < |CacheOps(cfg, steps)| ==> !Drops(CacheOps(cfg, steps)[j], Key(cfg.hash, ms + [reply]))
    requires var ops := CacheOps(cfg, steps);
             |Moved(Run([], ops[..i + 1], cfg.max), ops[i + 1..], cfg.max) - {Key(cfg.hash, ms + [reply])}| < cfg.max
    ensures var id := Latest(CacheOps(cfg, steps), Key(cfg.hash, ms + [reply]));
            && id.Some?
            && Choose(cfg.hash, cfg.noStore, Exec(cfg, steps).value.cache, ms + [reply] + more) == Plan(id.value, more)
  {
    CacheIsRun(cfg, steps);
    CoversReply(ms, reply, more);
    hide CacheOps, Exec, Run, Lookup, Latest, Moved, Covered;
    Retained(CacheOps(cfg, steps), i, Key(cfg.hash, ms + [reply]), cfg.max);
  }

  lemma {:induction false} RepliesAreAssistants<K(!new)>(cfg: Config<K>, steps: seq<Step>, c: nat)
    requires Exec(cfg, steps).Some? && c in Exec(cfg, steps).value.callers && Exec(cfg, steps).value.callers[c].Answered?
    ensures Exec(cfg, steps).value.callers[c].reply.role == ASSISTANT
  {
    hide Choose, AfterChoose, AfterRemember, Remove, Read, SeeAll, CursorKey.AllFit, CursorKey.Fits;
    if steps != [] {
      var front := steps[..|steps| - 1];
      var s := Exec(cfg, front).value;
      if c in s.callers && s.callers[c].Answered? { RepliesAreAssistants(cfg, front, c); }
    }
  }

  lemma {:induction false} CacheIsDistinct<K(!new)>(cfg: Config<K>, steps: seq<Step>)
    requires Exec(cfg, steps).Some?
    ensures DistinctEntries(Exec(cfg, steps).value.cache)
  {
    hide Exec, CacheOps, Run, DistinctEntries;
    CacheIsRun(cfg, steps);
    NothingDiffers<K>();
    RunShape<K>([], CacheOps(cfg, steps), cfg.max);
  }

  lemma NothingDiffers<K(!new)>()
    ensures DistinctEntries<K>([])
  {
  }

  lemma ExecLast<K(!new)>(cfg: Config<K>, steps: seq<Step>, st: Step)
    requires Exec(cfg, steps + [st]).Some?
    ensures Exec(cfg, steps).Some? && Enabled(Exec(cfg, steps).value, st)
    ensures Exec(cfg, steps + [st]).value == Next(cfg, Exec(cfg, steps).value, st)
  {
    hide Next, Enabled;
    assert (steps + [st])[..|steps|] == steps;
  }

  /** In every run, right after a reply is remembered, a history that goes on from it with no further assistant message is
      sent as its id and the new messages. */
  lemma RememberedIsContinued<K(!new)>(cfg: Config<K>, steps: seq<Step>, c: nat, more: seq<Message>)
    requires !cfg.noStore && cfg.max > 0 && Exec(cfg, steps + [Remember(c)]).Some?
    requires forall m :: m in more ==> m.role != ASSISTANT
    ensures Exec(cfg, steps).Some? && c in Exec(cfg, steps).value.callers && Exec(cfg, steps).value.callers[c].Answered?
    ensures var k, s := Exec(cfg, steps).value.callers[c], Exec(cfg, steps + [Remember(c)]).value;
            k.id != "" ==> Choose(cfg.hash, cfg.noStore, s.cache, k.ms + [k.reply] + more) == Plan(k.id, more)
  {
    ExecLast(cfg, steps, Remember(c));
    var b := Exec(cfg, steps).value;
    var k := b.callers[c];
    RepliesAreAssistants(cfg, steps, c);
    CoversReply(k.ms, k.reply, more);
    hide Exec, Covered, CursorKey.Bytes, SeeAll, Remove;
    var key := Key(cfg.hash, k.ms + [k.reply]);
    PutIsFound(b.cache, key, k.id, cfg.max);
  }

  lemma PutIsFound<K(!new)>(cache: Lru<K>, k: K, id: string, max: nat)
    requires max > 0
    ensures Lookup(AfterPut(cache, k, id, max), k) == Some(id)
  {
    hide Remove;
  }

  /** And right after a stale id is refused, its request and every later one for that history is sent whole. */
  lemma StaleIsForgotten<K(!new)>(cfg: Config<K>, steps: seq<Step>, c: nat)
    requires Exec(cfg, steps + [Refuse(c, true)]).Some?
    ensures Exec(cfg, steps).Some? && c in Exec(cfg, steps).value.callers && Exec(cfg, steps).value.callers[c].Posting?
    ensures var k, s := Exec(cfg, steps).value.callers[c], Exec(cfg, steps + [Refuse(c, true)]).value;
            k.plan.prev != "" ==>
              && c in s.callers && s.callers[c] == Posting(k.ms, Plan("", k.ms))
              && forall ms :: Covered(ms) == Covered(k.ms) ==> Choose(cfg.hash, cfg.noStore, s.cache, ms) == Plan("", ms)
  {
    ExecLast(cfg, steps, Refuse(c, true));
    CacheIsDistinct(cfg, steps);
    var b := Exec(cfg, steps).value;
    hide Exec, Covered, CursorKey.Bytes, SeeAll, DistinctEntries, Remove, Lookup;
    ForgottenMisses(b.cache, Key(cfg.hash, Covered(b.callers[c].ms)));
  }

  lemma ForgottenMisses<K(!new)>(cache: Lru<K>, k: K)
    requires DistinctEntries(cache)
    ensures Lookup(Remove(cache, k), k) == None
  {
    hide Lookup, Remove;
    RemoveShape(cache, k);
    var r := Lookup(Remove(cache, k), k);
    if r.Some? { LookupIsMember(Remove(cache, k), k, r.value); }
  }
}
