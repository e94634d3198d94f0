/** The bounded LRU from history key to response id.

`Lru` is the abstract contents, most recent first; the class keeps a list of entry objects and a map into
it, as the source does. */
module Cursors {
  import opened Wrappers

  type Lru<K> = seq<(K, string)>

  ghost predicate DistinctEntries<K(!new)>(c: Lru<K>) {
    forall i, j :: 0 <= i < j < |c| ==> c[i].0 != c[j].0
  }

  function Lookup<K(==)>(c: Lru<K>, k: K): Option<string> {
    if c == [] then None else if c[0].0 == k then Some(c[0].1) else Lookup(c[1..], k)
  }

  function Remove<K(==)>(c: Lru<K>, k: K): Lru<K> {
    if c == [] then [] else if c[0].0 == k then c[1..] else [c[0]] + Remove(c[1..], k)
  }

  function Touch<K(==)>(c: Lru<K>, k: K, id: string): Lru<K> { [(k, id)] + Remove(c, k) }

  function AfterGet<K(==)>(c: Lru<K>, k: K): Lru<K> {
    match Lookup(c, k)
    case None => c
    case Some(id) => Touch(c, k, id)
  }

  function AfterPut<K(==)>(c: Lru<K>, k: K, id: string, max: nat): Lru<K> {
    var t := Touch(c, k, id);
    if |t| > max then t[..max] else t
  }

  datatype Op<K> = GetOp(k: K) | PutOp(k: K, id: string) | DropOp(k: K)

  function Apply<K(==)>(c: Lru<K>, op: Op<K>, max: nat): Lru<K> {
    match op
    case GetOp(k) => AfterGet(c, k)
    case PutOp(k, id) => AfterPut(c, k, id, max)
    case DropOp(k) => Remove(c, k)
  }

  function Run<K(==)>(c: Lru<K>, ops: seq<Op<K>>, max: nat): Lru<K> {
    if ops == [] then c else Apply(Run(c, ops[..|ops| - 1], max), ops[|ops| - 1], max)
  }

  // ---------------------------------------------------------------- shape

  lemma {:induction false} RemoveShape<K(!new)>(c: Lru<K>, k: K)
    requires DistinctEntries(c)
    ensures DistinctEntries(Remove(c, k)) && |Remove(c, k)| <= |c|
    ensures forall i :: 0 <= i < |Remove(c, k)| ==> Remove(c, k)[i].0 != k && Remove(c, k)[i] in c
    ensures forall e :: e in c && e.0 != k ==> e in Remove(c, k)
    ensures Lookup(c, k).Some? ==> |Remove(c, k)| == |c| - 1
    ensures Lookup(c, k).None? ==> Remove(c, k) == c
  {
    if c != [] && c[0].0 != k {
      RemoveShape(c[1..], k);
      assert c == [c[0]] + c[1..];
      var r := Remove(c[1..], k);
      forall i | 0 <= i < |r| ensures r[i].0 != c[0].0 {
        assert r[i] in c[1..];
      }
    }
  }

  lemma Shape<K(!new)>(c: Lru<K>, op: Op<K>, max: nat)
    requires DistinctEntries(c) && |c| <= max
    ensures DistinctEntries(Apply(c, op, max)) && |Apply(c, op, max)| <= max
  {
    hide Remove, Lookup, DistinctEntries;
    RemoveShape(c, op.k);
    var v := match op case GetOp(k) => (match Lookup(c, k) case Some(id) => id case None => "") case PutOp(_, id) => id case DropOp(_) => "";
    DistinctPush(Remove(c, op.k), op.k, v);
    DistinctTake([(op.k, v)] + Remove(c, op.k), max);
  }

  lemma DistinctPush<K(!new)>(c: Lru<K>, k: K, id: string)
    requires DistinctEntries(c) && forall i :: 0 <= i < |c| ==> c[i].0 != k
    ensures DistinctEntries([(k, id)] + c)
  {
  }

  lemma DistinctTake<K(!new)>(c: Lru<K>, n: nat)
    requires DistinctEntries(c)
    ensures n < |c| ==> DistinctEntries(c[..n])
  {
  }

  lemma {:induction false} RunShape<K(!new)>(c: Lru<K>, ops: seq<Op<K>>, max: nat)
    requires DistinctEntries(c) && |c| <= max
    ensures DistinctEntries(Run(c, ops, max)) && |Run(c, ops, max)| <= max
  {
    if ops != [] {
      RunShape(c, ops[..|ops| - 1], max);
      Shape(Run(c, ops[..|ops| - 1], max), ops[|ops| - 1], max);
    }
  }

  lemma {:induction false} LookupIsMember<K(!new)>(c: Lru<K>, k: K, id: string)
    requires DistinctEntries(c)
    ensures Lookup(c, k) == Some(id) <==> (k, id) in c
  {
    if c != [] {
      LookupIsMember(c[1..], k, id);
      assert c == [c[0]] + c[1..];
    }
  }

  // ---------------------------------------------------------------- a hit returns the latest id

  /** The id of the last put of k not followed by a drop of k. */
  function Latest<K(==)>(ops: seq<Op<K>>, k: K): Option<string> {
    if ops == [] then None
    else
      var op := ops[|ops| - 1];
      if op.k != k || op.GetOp? then Latest(ops[..|ops| - 1], k)
      else if op.PutOp? then Some(op.id) else None
  }

  /** Whatever was evicted or dropped in between, a key that is found has its latest id. */
  lemma {:induction false} HitIsLatest<K(!new)>(ops: seq<Op<K>>, k: K, id: string, max: nat)
    requires (k, id) in Run([], ops, max)
    ensures Latest(ops, k) == Some(id)
  {
    if ops != [] {
      var before, op := ops[..|ops| - 1], ops[|ops| - 1];
      var c := Run([], before, max);
      RunShape([], before, max);
      RemoveShape(c, op.k);
      if (k, id) in c {
        HitIsLatest(before, k, id, max);
      } else {
        assert op.k == k;
        if op.GetOp? { LookupIsMember(c, k, id); }
      }
    }
  }

  // ---------------------------------------------------------------- retention

  /** k holds id and every key ahead of it is in others. */
  ghost predicate Recent<K(!new)>(c: Lru<K>, k: K, id: string, others: set<K>) {
    exists i :: 0 <= i < |c| && c[i] == (k, id) && forall j :: 0 <= j < i ==> c[j].0 in others
  }

  lemma {:induction false} DistinctInSet<K(!new)>(c: Lru<K>, i: nat, others: set<K>)
    requires i <= |c| && DistinctEntries(c) && forall j :: 0 <= j < i ==> c[j].0 in others
    ensures i <= |others|
  {
    if i > 0 {
      DistinctInSet(c, i - 1, others - {c[i - 1].0});
    }
  }

  lemma {:induction false} RemoveKeepsRecent<K(!new)>(c: Lru<K>, k: K, id: string, others: set<K>, k': K)
    requires DistinctEntries(c) && Recent(c, k, id, others) && k' != k
    ensures Recent(Remove(c, k'), k, id, others)
  {
    var i :| 0 <= i < |c| && c[i] == (k, id) && forall j :: 0 <= j < i ==> c[j].0 in others;
    if c[0].0 == k' {
      assert c[1..][i - 1] == (k, id);
    } else if i == 0 {
      assert Remove(c, k')[0] == (k, id);
    } else {
      assert c[1..][i - 1] == (k, id);
      assert forall j :: 0 <= j < i - 1 ==> c[1..][j].0 in others;
      RemoveKeepsRecent(c[1..], k, id, others, k');
      var r := Remove(c[1..], k');
      var m :| 0 <= m < |r| && r[m] == (k, id) && forall j :: 0 <= j < m ==> r[j].0 in others;
      assert Remove(c, k') == [c[0]] + r;
      assert ([c[0]] + r)[m + 1] == (k, id);
    }
  }

  /** The key an operation brings to the front: a put does, and a lookup that finds its key; one that misses does not. */
  function MovedBy<K>(c: Lru<K>, op: Op<K>): set<K> {
    if op.PutOp? || (op.GetOp? && Lookup(c, op.k).Some?) then {op.k} else {}
  }

  /** The keys brought to the front in the course of a run. */
  function Moved<K>(c: Lru<K>, ops: seq<Op<K>>, max: nat): set<K> {
    if ops == [] then {}
    else
      var front := ops[..|ops| - 1];
      Moved(c, front, max) + MovedBy(Run(c, front, max), ops[|ops| - 1])
  }

  predicate Drops<K(==)>(op: Op<K>, k: K) { op.DropOp? && op.k == k }

  /** Op i puts k, or looks it up and finds it: either way k is the most recent key then. */
  predicate Touches<K(==)>(ops: seq<Op<K>>, i: nat, k: K, max: nat)
    requires i < |ops|
  {
    ops[i].k == k && (ops[i].PutOp? || (ops[i].GetOp? && Lookup(Run([], ops[..i], max), k).Some?))
  }

  lemma FrontIsRecent<K(!new)>(c: Lru<K>, k: K, id: string, others: set<K>)
    requires c != [] && c[0] == (k, id)
    ensures Recent(c, k, id, others)
  {
  }

  lemma PushKeepsRecent<K(!new)>(c: Lru<K>, e: (K, string), k: K, id: string, others: set<K>)
    requires Recent(c, k, id, others)
    ensures Recent([e] + c, k, id, others + {e.0})
  {
    var i :| 0 <= i < |c| && c[i] == (k, id) && forall j :: 0 <= j < i ==> c[j].0 in others;
    assert ([e] + c)[i + 1] == (k, id);
  }

  lemma TakeKeepsRecent<K(!new)>(c: Lru<K>, k: K, id: string, others: set<K>, max: nat)
    requires DistinctEntries(c) && Recent(c, k, id, others) && |others| < max
    ensures |c| > max ==> Recent(c[..max], k, id, others)
  {
    var i :| 0 <= i < |c| && c[i] == (k, id) && forall j :: 0 <= j < i ==> c[j].0 in others;
    DistinctInSet(c, i, others);
    assert |c| > max ==> c[..max][i] == (k, id);
  }

  lemma FrontStep<K(!new)>(c: Lru<K>, e: (K, string), k: K, id: string, others: set<K>, max: nat)
    requires DistinctEntries(c) && Recent(c, k, id, others) && e.0 != k && |others + {e.0}| < max
    ensures Recent([e] + Remove(c, e.0), k, id, others + {e.0})
    ensures |[e] + Remove(c, e.0)| > max ==> Recent(([e] + Remove(c, e.0))[..max], k, id, others + {e.0})
  {
    hide Remove, Recent, DistinctEntries;
    RemoveShape(c, e.0);
    RemoveKeepsRecent(c, k, id, others, e.0);
    DistinctPush(Remove(c, e.0), e.0, e.1);
    PushKeepsRecent(Remove(c, e.0), e, k, id, others);
    TakeKeepsRecent([e] + Remove(c, e.0), k, id, others + {e.0}, max);
  }

  function HeldAfter<K(==)>(op: Op<K>, k: K, id: string): string { if op.PutOp? && op.k == k then op.id else id }

  lemma StepKeepsRecent<K(!new)>(c: Lru<K>, op: Op<K>, k: K, id: string, others: set<K>, max: nat)
    requires DistinctEntries(c) && Recent(c, k, id, others) && !Drops(op, k)
    requires k !in others && |others + (MovedBy(c, op) - {k})| < max
    ensures Recent(Apply(c, op, max), k, HeldAfter(op, k, id), others + (MovedBy(c, op) - {k}))
  {
    hide Remove, Recent, DistinctEntries, Lookup;
    var now := others + (MovedBy(c, op) - {k});
    if op.k == k {
      MemberOfRecent(c, k, id, others);
      LookupIsMember(c, k, id);
      FrontIsRecent(Apply(c, op, max), k, HeldAfter(op, k, id), now);
    } else if op.DropOp? {
      RemoveKeepsRecent(c, k, id, others, op.k);
      assert now == others;
    } else if op.PutOp? {
      assert now == others + {op.k};
      FrontStep(c, (op.k, op.id), k, id, others, max);
    } else if Lookup(c, op.k).Some? {
      assert now == others + {op.k};
      FrontStep(c, (op.k, Lookup(c, op.k).value), k, id, others, max);
    } else {
      assert now == others;
    }
  }

  lemma MemberOfRecent<K(!new)>(c: Lru<K>, k: K, id: string, others: set<K>)
    requires Recent(c, k, id, others)
    ensures (k, id) in c
  {
  }

  lemma {:induction false} RunKeepsRecent<K(!new)>(c: Lru<K>, k: K, id: string, ops: seq<Op<K>>, max: nat)
    returns (now: string)
    requires DistinctEntries(c) && |c| <= max && Recent(c, k, id, {})
    requires forall j :: 0 <= j < |ops| ==> !Drops(ops[j], k)
    requires |Moved(c, ops, max) - {k}| < max
    ensures Recent(Run(c, ops, max), k, now, Moved(c, ops, max) - {k})
  {
    if ops == [] {
      assert Moved(c, ops, max) - {k} == {};
      now := id;
    } else {
      var before, op := ops[..|ops| - 1], ops[|ops| - 1];
      var mid := Run(c, before, max);
      var others := Moved(c, before, max) - {k};
      assert Moved(c, ops, max) - {k} == others + (MovedBy(mid, op) - {k});
      assert Run(c, ops, max) == Apply(mid, op, max);
      hide Run, Moved, MovedBy, Apply, Recent, DistinctEntries;
      SubsetSize(others, Moved(c, ops, max) - {k});
      var held := RunKeepsRecent(c, k, id, before, max);
      RunShape(c, before, max);
      StepKeepsRecent(mid, op, k, held, others, max);
      now := HeldAfter(op, k, held);
    }
  }

  lemma {:induction false} SubsetSize<T>(a: set<T>, b: set<T>)
    requires a <= b
    ensures |a| <= |b|
  {
    assert b == a + (b - a);
  }

  lemma {:induction false} RunAppend<K(!new)>(c: Lru<K>, a: seq<Op<K>>, b: seq<Op<K>>, max: nat)
    ensures Run(c, a + b, max) == Run(Run(c, a, max), b, max)
  {
    if b == [] {
      assert a + b == a;
    } else {
      RunAppend(c, a, b[..|b| - 1], max);
      assert (a + b)[..|a + b| - 1] == a + b[..|b| - 1];
    }
  }

  /** A put or a hit makes its key the most recent one. */
  lemma TouchIsRecent<K(!new)>(ops: seq<Op<K>>, i: nat, k: K, max: nat) returns (id: string)
    requires i < |ops| && Touches(ops, i, k, max) && max > 0
    ensures Recent(Run([], ops[..i + 1], max), k, id, {})
  {
    var c := Run([], ops[..i], max);
    assert ops[..i + 1][..i] == ops[..i];
    id := if ops[i].PutOp? then ops[i].id else Lookup(c, k).value;
    FrontIsRecent(Run([], ops[..i + 1], max), k, id, {});
  }

  /** Retention, over any run: a key is found, with its latest id, as long as fewer than max distinct other keys were put
      or hit since it was last put or hit itself, and it was not dropped since. Lookups that miss do not count. */
  lemma Retained<K(!new)>(ops: seq<Op<K>>, i: nat, k: K, max: nat)
    requires i < |ops| && Touches(ops, i, k, max)
    requires forall j :: i < j < |ops| ==> !Drops(ops[j], k)
    requires |Moved(Run([], ops[..i + 1], max), ops[i + 1..], max) - {k}| < max
    ensures Latest(ops, k).Some? && Lookup(Run([], ops, max), k) == Latest(ops, k)
  {
    var first, rest := ops[..i + 1], ops[i + 1..];
    assert first + rest == ops;
    var id := TouchIsRecent(ops, i, k, max);
    RunShape([], first, max);
    RunAppend([], first, rest, max);
    hide Recent, Run, Moved, Latest;
    var now := RunKeepsRecent(Run([], first, max), k, id, rest, max);
    MemberOfRecent(Run([], ops, max), k, now, Moved(Run([], first, max), rest, max) - {k});
    HitIsLatest(ops, k, now, max);
    RunShape([], ops, max);
    LookupIsMember(Run([], ops, max), k, now);
  }

  // ---------------------------------------------------------------- the cache object

  class Entry<K> {
    const key: K
    var id: string

    constructor (k: K, i: string)
      ensures key == k && id == i
    {
      key, id := k, i;
    }
  }

  function View<K>(s: seq<Entry<K>>): (r: Lru<K>)
    reads s
    ensures |r| == |s| && forall i :: 0 <= i < |s| ==> r[i] == (s[i].key, s[i].id)
  {
    seq(|s|, i requires 0 <= i < |s| reads s => (s[i].key, s[i].id))
  }

  /** The list without its i-th entry. */
  function Cut<T>(s: seq<T>, i: nat): (r: seq<T>)
    requires i < |s|
    ensures |r| == |s| - 1
  {
    s[..i] + s[i + 1..]
  }

  function Position<K>(s: seq<Entry<K>>, e: Entry<K>): (i: nat)
    requires e in s
    ensures i < |s| && s[i] == e
  {
    if s[0] == e then 0 else 1 + Position(s[1..], e)
  }

  ghost predicate DistinctKeys<K>(s: seq<Entry<K>>) {
    forall i, j :: 0 <= i < j < |s| ==> s[i].key != s[j].key
  }

  lemma {:induction false} RemoveAt<K(!new)>(c: Lru<K>, i: nat)
    requires i < |c| && DistinctEntries(c)
    ensures Remove(c, c[i].0) == Cut(c, i) && Lookup(c, c[i].0) == Some(c[i].1)
  {
    if i > 0 {
      RemoveAt(c[1..], i - 1);
      assert Cut(c, i) == [c[0]] + Cut(c[1..], i - 1);
    }
  }

  lemma ViewCut<K(!new)>(s: seq<Entry<K>>, i: nat)
    requires i < |s| && DistinctKeys(s)
    ensures View(Cut(s, i)) == Remove(View(s), s[i].key) && Lookup(View(s), s[i].key) == Some(s[i].id)
  {
    hide Remove, Lookup;
    RemoveAt(View(s), i);
    assert View(Cut(s, i)) == Cut(View(s), i);
  }

  lemma ViewFront<K>(e: Entry<K>, s: seq<Entry<K>>)
    ensures View([e] + s) == [(e.key, e.id)] + View(s)
  {
  }

  lemma {:induction false} LookupAbsent<K(!new)>(s: seq<Entry<K>>, k: K)
    requires forall x :: x in s ==> x.key != k
    ensures Lookup(View(s), k) == None && Remove(View(s), k) == View(s)
  {
    if s != [] {
      assert View(s)[1..] == View(s[1..]);
      LookupAbsent(s[1..], k);
      assert View(s) == [View(s)[0]] + View(s[1..]);
    }
  }

  lemma PutAbsent<K>(c: Lru<K>, k: K, id: string, max: nat)
    requires Remove(c, k) == c
    ensures AfterPut(c, k, id, max) == if 1 + |c| > max then ([(k, id)] + c)[..max] else [(k, id)] + c
  {
  }

  lemma GetPresent<K>(c: Lru<K>, k: K)
    requires Lookup(c, k).Some?
    ensures AfterGet(c, k) == [(k, Lookup(c, k).value)] + Remove(c, k)
  {
  }

  lemma PutPresent<K(!new)>(c: Lru<K>, k: K, id: string, max: nat)
    requires DistinctEntries(c) && |c| <= max && Lookup(c, k).Some?
    ensures AfterPut(c, k, id, max) == [(k, id)] + Remove(c, k)
  {
    hide Remove, Lookup;
    RemoveShape(c, k);
  }

  lemma ViewTake<K>(s: seq<Entry<K>>, n: nat)
    ensures n <= |s| ==> View(s[..n]) == View(s)[..n]
  {
  }

  /** The map and the list hold the same keys, each once. */
  ghost predicate Indexed<K(!new)>(order: seq<Entry<K>>, byKey: map<K, Entry<K>>) {
    && DistinctKeys(order)
    && (forall e :: e in order ==> e.key in byKey && byKey[e.key] == e)
    && (forall k :: k in byKey ==> byKey[k] in order && byKey[k].key == k)
  }

  lemma CutShape<K(!new)>(order: seq<Entry<K>>, i: nat)
    requires DistinctKeys(order) && i < |order|
    ensures DistinctKeys(Cut(order, i))
    ensures forall j :: 0 <= j < |order| && j != i ==> order[j] in Cut(order, i)
    ensures forall x :: x in Cut(order, i) ==> x in order && x.key != order[i].key
  {
    var r := Cut(order, i);
    assert forall j :: 0 <= j < |order| && j != i ==> order[j] == r[if j < i then j else j - 1];
  }

  lemma CutIndexed<K(!new)>(order: seq<Entry<K>>, byKey: map<K, Entry<K>>, i: nat)
    requires Indexed(order, byKey) && i < |order|
    ensures Indexed([order[i]] + Cut(order, i), byKey) && Indexed(Cut(order, i), byKey - {order[i].key})
    ensures order[i] !in Cut(order, i)
  {
    hide Cut;
    CutShape(order, i);
    var e := order[i];
    assert e.key in byKey && byKey[e.key] == e;
    assert Indexed(Cut(order, i), byKey - {e.key});
    PushIndexed(Cut(order, i), byKey - {e.key}, e);
    assert (byKey - {e.key})[e.key := e] == byKey;
  }

  lemma PushIndexed<K(!new)>(order: seq<Entry<K>>, byKey: map<K, Entry<K>>, e: Entry<K>)
    requires Indexed(order, byKey) && e.key !in byKey
    ensures Indexed([e] + order, byKey[e.key := e])
  {
    forall i | 0 <= i < |order| ensures order[i].key != e.key {
      assert order[i] in order;
    }
  }

  lemma KeyPresent<K(!new)>(order: seq<Entry<K>>, byKey: map<K, Entry<K>>, k: K)
    requires Indexed(order, byKey) && k in byKey
    ensures byKey[k] in order && byKey[k].key == k
  {
  }

  lemma KeyAbsent<K(!new)>(order: seq<Entry<K>>, byKey: map<K, Entry<K>>, k: K)
    requires Indexed(order, byKey) && k !in byKey
    ensures Lookup(View(order), k) == None && Remove(View(order), k) == View(order)
  {
    LookupAbsent(order, k);
  }

  /** Moving an entry to the front under a new id puts its key again. */
  lemma RenewPuts<K(!new)>(order: seq<Entry<K>>, byKey: map<K, Entry<K>>, i: nat, id: string, max: nat)
    requires Indexed(order, byKey) && i < |order| <= max
    ensures AfterPut(View(order), order[i].key, id, max) == [(order[i].key, id)] + View(Cut(order, i))
  {
    hide Lookup, Remove, AfterPut, View, Cut;
    ViewCut(order, i);
    ViewDistinct(order);
    PutPresent(View(order), order[i].key, id, max);
  }

  lemma ViewDistinct<K(!new)>(order: seq<Entry<K>>)
    requires DistinctKeys(order)
    ensures DistinctEntries(View(order))
  {
  }

  lemma PopIndexed<K(!new)>(order: seq<Entry<K>>, byKey: map<K, Entry<K>>)
    requires Indexed(order, byKey) && order != []
    ensures Indexed(order[..|order| - 1], byKey - {order[|order| - 1].key})
  {
    var n := |order| - 1;
    assert order == order[..n] + [order[n]];
  }

  class CursorCache<K(==, !new)> {
    const max: nat
    var order: seq<Entry<K>>
    var byKey: map<K, Entry<K>>

    ghost predicate Valid()
      reads this
    {
      |order| <= max && Indexed(order, byKey)
    }

    ghost function Contents(): Lru<K>
      reads this, order
    {
      View(order)
    }

    constructor (n: nat)
      ensures Valid() && max == n && Contents() == [] && order == []
    {
      max, order, byKey := n, [], map[];
    }

    method Get(k: K) returns (found: Option<string>)
      requires Valid()
      modifies this
      ensures Valid()
      ensures found == Lookup(old(Contents()), k) && Contents() == AfterGet(old(Contents()), k)
    {
      if k !in byKey {
        LookupAbsent(order, k);
        return None;
      }
      var e := byKey[k];
      var i := Position(order, e);
      CutIndexed(order, byKey, i);
      ViewCut(order, i);
      hide *;
      ViewFront(e, Cut(order, i));
      GetPresent(View(order), k);
      order := [e] + Cut(order, i);
      found := Some(e.id);
    }

    method Put(k: K, id: string)
      requires Valid()
      modifies this, order
      ensures Valid()
      ensures Contents() == AfterPut(old(Contents()), k, id, max)
    {
      hide Indexed, View, Lookup, Remove, AfterPut, Cut, Position;
      if k in byKey {
        Renew(k, id);
      } else {
        KeyAbsent(order, byKey, k);
        var e := new Entry(k, id);
        PushIndexed(order, byKey, e);
        PutAbsent(View(order), k, id, max);
        ghost var rest, was := order, View(order);
        byKey := byKey[k := e];
        order := [e] + order;
        Evict();
        assert View(rest) == was;
        ViewFront(e, rest);
        ViewTake([e] + rest, max);
      }
    }

    /** The eviction loop of put. */
    method Evict()
      requires Indexed(order, byKey)
      modifies this
      ensures Valid()
      ensures order == if |old(order)| > max then old(order)[..max] else old(order)
    {
      hide Indexed;
      while |order| > max
        invariant Indexed(order, byKey)
        invariant |old(order)| > max ==> |order| >= max
        invariant |old(order)| <= max ==> |order| == |old(order)|
        invariant |order| <= |old(order)| && order == old(order)[..|order|]
      {
        PopIndexed(order, byKey);
        var last := order[|order| - 1];
        order := order[..|order| - 1];
        byKey := byKey - {last.key};
      }
    }

    method Renew(k: K, id: string)
      requires Valid() && k in byKey
      modifies this, order
      ensures Valid()
      ensures Contents() == AfterPut(old(Contents()), k, id, max)
    {
      hide Indexed, View, Lookup, Remove, AfterPut, Cut, Position;
      KeyPresent(order, byKey, k);
      var e := byKey[k];
      var i := Position(order, e);
      CutIndexed(order, byKey, i);
      RenewPuts(order, byKey, i, id, max);
      var rest := Cut(order, i);
      ghost var was := View(rest);
      e.id := id;
      assert View(rest) == was;
      ViewFront(e, rest);
      order := [e] + rest;
    }

    method Drop(k: K)
      requires Valid()
      modifies this
      ensures Valid()
      ensures Contents() == Remove(old(Contents()), k)
    {
      if k in byKey {
        var i := Position(order, byKey[k]);
        CutIndexed(order, byKey, i);
        ViewCut(order, i);
        hide *;
        order := Cut(order, i);
        byKey := byKey - {k};
      } else {
        LookupAbsent(order, k);
      }
    }
  }
}
