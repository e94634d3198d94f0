/** Which source claims which tool name.

What a source lists may change from call to call, so every operation that may list takes what each source lists at
that moment. The rest of a definition beside its name is opaque. */
module ToolClaims {
  import opened Wrappers

  type Source = nat

  datatype Def = Def(name: string, rest: string)

  datatype Owner = Owner(source: string, def: Def)

  datatype Listing = Listed(defs: seq<Def>) | Failed

  datatype Index = Index(claims: map<string, seq<Owner>>, names: seq<string>)

  // ---------------------------------------------------------------- byte order on source ids

  predicate Less(a: string, b: string) {
    b != [] && (a == [] || a[0] < b[0] || (a[0] == b[0] && Less(a[1..], b[1..])))
  }

  lemma {:induction false} LessIsTotal(a: string, b: string)
    ensures !Less(a, a) && (Less(a, b) || a == b || Less(b, a)) && !(Less(a, b) && Less(b, a))
  {
    if a != [] {
      LessIsTotal(a[1..], if b == [] then [] else b[1..]);
      if b != [] && a[0] == b[0] && a[1..] == b[1..] {
        assert a == [a[0]] + a[1..] == b;
      }
    }
  }

  lemma {:induction false} LessIsTransitive(a: string, b: string, c: string)
    requires Less(a, b) && Less(b, c)
    ensures Less(a, c)
  {
    if a != [] && a[0] == b[0] == c[0] { LessIsTransitive(a[1..], b[1..], c[1..]); }
  }

  /** Strictly increasing source ids. */
  ghost predicate Sorted(s: seq<Owner>) {
    forall i, j :: 0 <= i < j < |s| ==> Less(s[i].source, s[j].source)
  }

  function Insert(s: seq<Owner>, o: Owner): (r: seq<Owner>)
    ensures multiset(r) == multiset(s) + multiset{o}
  {
    if s == [] then [o]
    else
      assert s == s[..|s| - 1] + [s[|s| - 1]];
      if Less(s[|s| - 1].source, o.source) then s + [o]
      else Insert(s[..|s| - 1], o) + [s[|s| - 1]]
  }

  /** The owners of one name in the order sort.Slice leaves them in; their ids are distinct. */
  function SortOwners(s: seq<Owner>): (r: seq<Owner>)
    ensures multiset(r) == multiset(s)
  {
    if s == [] then []
    else
      assert s == s[..|s| - 1] + [s[|s| - 1]];
      Insert(SortOwners(s[..|s| - 1]), s[|s| - 1])
  }

  lemma SameElements(s: seq<Owner>, t: seq<Owner>)
    requires multiset(s) == multiset(t)
    ensures |s| == |t| && forall o :: o in s <==> o in t
  {
    assert |s| == |multiset(s)| && |t| == |multiset(t)|;
    forall o ensures o in s <==> o in t {
      assert o in s <==> o in multiset(s);
      assert o in t <==> o in multiset(t);
    }
  }

  ghost predicate Absent(s: seq<Owner>, id: string) {
    forall i :: 0 <= i < |s| ==> s[i].source != id
  }

  lemma {:induction false} InsertSorts(s: seq<Owner>, o: Owner)
    requires Sorted(s) && Absent(s, o.source)
    ensures Sorted(Insert(s, o))
  {
    if s != [] {
      var n := |s| - 1;
      var front, l := s[..n], s[n];
      LessIsTotal(l.source, o.source);
      if Less(l.source, o.source) {
        forall i | 0 <= i < n ensures Less(s[i].source, o.source) {
          LessIsTransitive(s[i].source, l.source, o.source);
        }
      } else {
        InsertSorts(front, o);
        var r := Insert(front, o);
        SameElements(r, front + [o]);
        forall i | 0 <= i < |r| ensures Less(r[i].source, l.source) {
          assert r[i] in r;
          assert r[i] in front + [o];
        }
      }
    }
  }

  lemma {:induction false} SortingSorts(s: seq<Owner>)
    requires forall i, j :: 0 <= i < j < |s| ==> s[i].source != s[j].source
    ensures Sorted(SortOwners(s))
  {
    if s != [] {
      var n := |s| - 1;
      SortingSorts(s[..n]);
      var r := SortOwners(s[..n]);
      SameElements(r, s[..n]);
      forall i | 0 <= i < |r| ensures r[i].source != s[n].source {
        assert r[i] in r;
        assert r[i] in s[..n];
      }
      InsertSorts(r, s[n]);
    }
  }

  lemma LeastIsFirst(s: seq<Owner>, t: seq<Owner>)
    requires Sorted(s) && Sorted(t) && s != [] && t != [] && s[0] in t && t[0] in s
    ensures s[0] == t[0]
  {
    var j :| 0 <= j < |t| && t[j] == s[0];
    var i :| 0 <= i < |s| && s[i] == t[0];
    if 0 < i && 0 < j { LessIsTotal(s[0].source, t[0].source); }
  }

  lemma BothEmpty(s: seq<Owner>, t: seq<Owner>)
    requires forall o :: o in s <==> o in t
    ensures s == [] <==> t == []
  {
    if s != [] { assert s[0] in s; }
    if t != [] { assert t[0] in t; }
  }

  /** A strictly sorted list is determined by its elements. */
  lemma {:induction false} SortedIsUnique(s: seq<Owner>, t: seq<Owner>)
    requires Sorted(s) && Sorted(t) && forall o :: o in s <==> o in t
    ensures s == t
  {
    BothEmpty(s, t);
    if s != [] {
      assert s[0] in t;
      LeastIsFirst(s, t);
      forall o ensures o in s[1..] <==> o in t[1..] {
        TailElements(s, o);
        TailElements(t, o);
      }
      SortedIsUnique(s[1..], t[1..]);
      assert s == [s[0]] + s[1..] && t == [t[0]] + t[1..];
    }
  }

  lemma TailElements(s: seq<Owner>, o: Owner)
    requires Sorted(s) && s != []
    ensures o in s[1..] <==> o in s && o != s[0]
  {
    LessIsTotal(s[0].source, s[0].source);
    if o in s && o != s[0] {
      var i :| 0 <= i < |s| && s[i] == o;
      assert s[1..][i - 1] == o;
    }
    if o in s[1..] {
      var i :| 0 <= i < |s| - 1 && s[1..][i] == o;
      assert s[i + 1] == o;
    }
  }

  // ---------------------------------------------------------------- gathering the claims

  function OwnersOf(ix: Index, name: string): (r: seq<Owner>)
    ensures name !in ix.claims ==> r == []
  {
    if name in ix.claims then ix.claims[name] else []
  }

  predicate Claims(owners: seq<Owner>, id: string) { exists k :: 0 <= k < |owners| && owners[k].source == id }

  /** One definition of source id is met. */
  function Claim(ix: Index, id: string, def: Def): Index {
    var owners := OwnersOf(ix, def.name);
    if Claims(owners, id) then ix
    else Index(ix.claims[def.name := owners + [Owner(id, def)]],
               if def.name in ix.claims then ix.names else ix.names + [def.name])
  }

  function ClaimAll(ix: Index, id: string, defs: seq<Def>): Index {
    if defs == [] then ix else Claim(ClaimAll(ix, id, defs[..|defs| - 1]), id, defs[|defs| - 1])
  }

  function EmptyIndex(): Index { Index(map[], []) }

  function Collect(order: seq<string>, lists: string -> Listing): Option<Index> {
    if order == [] then Some(EmptyIndex())
    else
      var before := Collect(order[..|order| - 1], lists);
      var id := order[|order| - 1];
      if before.None? || lists(id).Failed? then None
      else Some(ClaimAll(before.value, id, lists(id).defs))
  }

  function SortIndex(ix: Index): Index {
    Index(map name | name in ix.claims :: SortOwners(ix.claims[name]), ix.names)
  }

  function Gather(order: seq<string>, lists: string -> Listing): Option<Index> {
    var ix := Collect(order, lists);
    if ix.None? then None else Some(SortIndex(ix.value))
  }

  /** The first definition of a name in a listing. */
  function FirstDef(defs: seq<Def>, name: string): (d: Option<Def>)
    ensures d.Some? ==> d.value.name == name
  {
    if defs == [] then None
    else
      var d := FirstDef(defs[..|defs| - 1], name);
      if d.Some? then d else if defs[|defs| - 1].name == name then Some(defs[|defs| - 1]) else None
  }

  lemma {:induction false} FirstDefMeans(defs: seq<Def>, name: string)
    ensures var d := FirstDef(defs, name);
            if d.None? then forall i :: 0 <= i < |defs| ==> defs[i].name != name
            else exists i :: 0 <= i < |defs| && defs[i] == d.value && forall j :: 0 <= j < i ==> defs[j].name != name
  {
    if defs != [] { FirstDefMeans(defs[..|defs| - 1], name); }
  }

  /** The index holds, for every name, exactly the sources that list it, each with its first definition. */
  ghost predicate Accounted(seen: map<string, seq<Def>>, ix: Index) {
    forall name: string, o: Owner ::
      o in OwnersOf(ix, name) <==> o.source in seen && FirstDef(seen[o.source], name) == Some(o.def)
  }

  /** Every name in the index has an owner, and no source owns it twice. */
  ghost predicate DistinctOwners(ix: Index) {
    forall name :: name in ix.claims ==>
      ix.claims[name] != [] && forall i, j :: 0 <= i < j < |ix.claims[name]| ==>
        ix.claims[name][i].source != ix.claims[name][j].source
  }

  /** The names in the index, each once. */
  ghost predicate NamesInOrder(ix: Index) {
    && (forall i :: 0 <= i < |ix.names| ==> ix.names[i] in ix.claims)
    && (forall name :: name in ix.claims ==> name in ix.names)
    && (forall i, j :: 0 <= i < j < |ix.names| ==> ix.names[i] != ix.names[j])
  }

  ghost predicate Exact(seen: map<string, seq<Def>>, ix: Index) {
    Accounted(seen, ix) && DistinctOwners(ix) && NamesInOrder(ix)
  }

  lemma FirstDefBack(defs: seq<Def>, def: Def, name: string)
    ensures FirstDef(defs + [def], name)
         == if FirstDef(defs, name).Some? || def.name != name then FirstDef(defs, name) else Some(def)
  {
    assert (defs + [def])[..|defs|] == defs;
  }

  lemma ClaimedIffListed(seen: map<string, seq<Def>>, ix: Index, id: string, name: string)
    requires Accounted(seen, ix) && id in seen
    ensures Claims(OwnersOf(ix, name), id) <==> FirstDef(seen[id], name).Some?
  {
    var owners, d := OwnersOf(ix, name), FirstDef(seen[id], name);
    if Claims(owners, id) {
      var k :| 0 <= k < |owners| && owners[k].source == id;
      assert owners[k] in owners;
    }
    if d.Some? {
      assert Owner(id, d.value) in owners;
    }
  }

  lemma ClaimAccounts(seen: map<string, seq<Def>>, ix: Index, id: string, def: Def)
    requires Accounted(seen, ix) && id in seen
    ensures Accounted(seen[id := seen[id] + [def]], Claim(ix, id, def))
  {
    var seen', ix' := seen[id := seen[id] + [def]], Claim(ix, id, def);
    ClaimedIffListed(seen, ix, id, def.name);
    forall name: string, o: Owner
      ensures o in OwnersOf(ix', name) <==> o.source in seen' && FirstDef(seen'[o.source], name) == Some(o.def)
    {
      hide FirstDef, Claims;
      FirstDefBack(seen[id], def, name);
      assert o in OwnersOf(ix, name) <==> o.source in seen && FirstDef(seen[o.source], name) == Some(o.def);
      if name == def.name && !Claims(OwnersOf(ix, name), id) {
        assert OwnersOf(ix', name) == OwnersOf(ix, name) + [Owner(id, def)];
      } else {
        assert OwnersOf(ix', name) == OwnersOf(ix, name);
      }
    }
  }

  lemma ClaimKeepsShape(ix: Index, id: string, def: Def)
    requires DistinctOwners(ix) && NamesInOrder(ix)
    ensures DistinctOwners(Claim(ix, id, def)) && NamesInOrder(Claim(ix, id, def))
  {
  }

  lemma ClaimKeepsExact(seen: map<string, seq<Def>>, ix: Index, id: string, defs: seq<Def>, def: Def)
    requires Exact(seen[id := defs], ix)
    ensures Exact(seen[id := defs + [def]], Claim(ix, id, def))
  {
    hide Accounted, DistinctOwners, NamesInOrder, Claim;
    ClaimAccounts(seen[id := defs], ix, id, def);
    ClaimKeepsShape(ix, id, def);
    assert seen[id := defs][id := defs + [def]] == seen[id := defs + [def]];
  }

  lemma AccountedForNone(seen: map<string, seq<Def>>, ix: Index, id: string)
    requires Accounted(seen, ix) && id !in seen
    ensures Accounted(seen[id := []], ix)
  {
    forall name: string, o: Owner
      ensures o in OwnersOf(ix, name) <==>
                o.source in seen[id := []] && FirstDef(seen[id := []][o.source], name) == Some(o.def)
    {
      assert o in OwnersOf(ix, name) <==> o.source in seen && FirstDef(seen[o.source], name) == Some(o.def);
    }
  }

  lemma {:induction false} ClaimAllExact(seen: map<string, seq<Def>>, ix: Index, id: string, defs: seq<Def>)
    requires Exact(seen, ix) && id !in seen
    ensures Exact(seen[id := defs], ClaimAll(ix, id, defs))
  {
    if defs == [] {
      AccountedForNone(seen, ix, id);
    } else {
      var front, def := defs[..|defs| - 1], defs[|defs| - 1];
      var before := ClaimAll(ix, id, front);
      assert ClaimAll(ix, id, defs) == Claim(before, id, def) && front + [def] == defs;
      hide *;
      ClaimAllExact(seen, ix, id, front);
      ClaimKeepsExact(seen, before, id, front, def);
    }
  }

  function DefsOf(l: Listing): seq<Def> { if l.Listed? then l.defs else [] }

  function Ids(order: seq<string>): set<string> { set id | id in order }

  function Seen(ids: set<string>, lists: string -> Listing): map<string, seq<Def>> {
    map id | id in ids :: DefsOf(lists(id))
  }

  ghost predicate SomeFails(ids: set<string>, lists: string -> Listing) {
    exists id :: id in ids && lists(id).Failed?
  }

  /** Gathering fails exactly when some source fails to list. */
  lemma {:induction false} CollectFails(order: seq<string>, lists: string -> Listing)
    ensures Collect(order, lists).None? <==> SomeFails(Ids(order), lists)
  {
    if order != [] {
      var n := |order| - 1;
      CollectFails(order[..n], lists);
      assert order == order[..n] + [order[n]];
      assert Ids(order) == Ids(order[..n]) + {order[n]};
    }
  }

  lemma SeenBack(order: seq<string>, lists: string -> Listing)
    requires order != [] && Distinct(order)
    ensures var n := |order| - 1;
            && order[n] !in Seen(Ids(order[..n]), lists)
            && Seen(Ids(order), lists) == Seen(Ids(order[..n]), lists)[order[n] := DefsOf(lists(order[n]))]
  {
    var n := |order| - 1;
    assert order == order[..n] + [order[n]];
    assert Ids(order) == Ids(order[..n]) + {order[n]};
  }

  lemma {:induction false} CollectExact(order: seq<string>, lists: string -> Listing)
    requires Distinct(order) && Collect(order, lists).Some?
    ensures Exact(Seen(Ids(order), lists), Collect(order, lists).value)
  {
    if order != [] {
      var n := |order| - 1;
      var front, id := order[..n], order[n];
      CollectExact(front, lists);
      SeenBack(order, lists);
      assert Collect(order, lists).value == ClaimAll(Collect(front, lists).value, id, lists(id).defs);
      hide *;
      ClaimAllExact(Seen(Ids(front), lists), Collect(front, lists).value, id, lists(id).defs);
    }
  }

  ghost predicate AllSorted(ix: Index) {
    forall name :: name in ix.claims ==> Sorted(ix.claims[name])
  }

  lemma SortingOne(ix: Index, name: string)
    requires DistinctOwners(ix) && name in ix.claims
    ensures var s := SortIndex(ix).claims[name];
            Sorted(s) && s != [] && forall o :: o in s <==> o in ix.claims[name]
  {
    hide SortOwners, Sorted;
    SortingSorts(ix.claims[name]);
    SameElements(SortOwners(ix.claims[name]), ix.claims[name]);
  }

  lemma SameOwners(seen: map<string, seq<Def>>, ix: Index, ix': Index)
    requires Accounted(seen, ix) && ix'.claims.Keys == ix.claims.Keys
    requires forall name: string, o: Owner :: name in ix.claims ==> (o in ix'.claims[name] <==> o in ix.claims[name])
    ensures Accounted(seen, ix')
  {
    forall name: string, o: Owner ensures o in OwnersOf(ix', name) <==> o in OwnersOf(ix, name) {}
  }

  lemma SortingKeeps(seen: map<string, seq<Def>>, ix: Index)
    requires Exact(seen, ix)
    ensures Exact(seen, SortIndex(ix)) && AllSorted(SortIndex(ix))
  {
    hide Accounted, DistinctOwners, Sorted, SortOwners;
    var ix' := SortIndex(ix);
    forall name: string | name in ix.claims
      ensures Sorted(ix'.claims[name]) && ix'.claims[name] != []
           && forall o: Owner :: o in ix'.claims[name] <==> o in ix.claims[name]
    {
      SortingOne(ix, name);
    }
    SameOwners(seen, ix, ix');
    SortedOwnersDistinct(ix');
  }

  lemma SortedOwnersDistinct(ix: Index)
    requires AllSorted(ix) && forall name :: name in ix.claims ==> ix.claims[name] != []
    ensures DistinctOwners(ix)
  {
    forall name, i, j | name in ix.claims && 0 <= i < j < |ix.claims[name]|
      ensures ix.claims[name][i].source != ix.claims[name][j].source
    {
      LessIsTotal(ix.claims[name][i].source, ix.claims[name][i].source);
    }
  }

  lemma GatherExact(order: seq<string>, lists: string -> Listing)
    requires Distinct(order) && Gather(order, lists).Some?
    ensures Exact(Seen(Ids(order), lists), Gather(order, lists).value) && AllSorted(Gather(order, lists).value)
  {
    CollectExact(order, lists);
    SortingKeeps(Seen(Ids(order), lists), Collect(order, lists).value);
  }

  /** What was listed determines the claims. */
  lemma ExactIsUnique(seen: map<string, seq<Def>>, a: Index, b: Index)
    requires Exact(seen, a) && Exact(seen, b) && AllSorted(a) && AllSorted(b)
    ensures a.claims == b.claims
  {
    forall name: string ensures OwnersOf(a, name) == OwnersOf(b, name) {
      forall o ensures o in OwnersOf(a, name) <==> o in OwnersOf(b, name) {
        assert o in OwnersOf(a, name) <==> o.source in seen && FirstDef(seen[o.source], name) == Some(o.def);
      }
      SortedIsUnique(OwnersOf(a, name), OwnersOf(b, name));
    }
    assert a.claims.Keys == b.claims.Keys by {
      forall name: string ensures name in a.claims <==> name in b.claims {
        assert OwnersOf(a, name) == OwnersOf(b, name);
      }
    }
    forall name: string | name in a.claims ensures a.claims[name] == b.claims[name] {
      assert OwnersOf(a, name) == OwnersOf(b, name);
    }
  }

  /** Claims do not depend on the order of registration: two orders of the same ids fail together, and gather the same
      claims. */
  lemma ClaimsIgnoreOrder(order: seq<string>, other: seq<string>, lists: string -> Listing)
    requires Distinct(order) && Distinct(other) && Ids(order) == Ids(other)
    ensures Gather(order, lists).None? <==> Gather(other, lists).None?
    ensures Gather(order, lists).Some? ==> Gather(order, lists).value.claims == Gather(other, lists).value.claims
  {
    CollectFails(order, lists);
    CollectFails(other, lists);
    if Gather(order, lists).Some? {
      GatherExact(order, lists);
      GatherExact(other, lists);
      ExactIsUnique(Seen(Ids(order), lists), Gather(order, lists).value, Gather(other, lists).value);
    }
  }

  // ---------------------------------------------------------------- the order of the names

  /** Where a string first stands in a sequence, or its length if nowhere. */
  function Position(order: seq<string>, id: string): (i: nat)
    ensures i <= |order| && (forall k :: 0 <= k < i ==> order[k] != id) && (i < |order| ==> order[i] == id)
  {
    if order == [] || order[0] == id then 0 else 1 + Position(order[1..], id)
  }

  ghost function NamesOf(defs: seq<Def>): seq<string> { seq(|defs|, i requires 0 <= i < |defs| => defs[i].name) }

  /** The names the sources list, one after another. */
  ghost function Met(order: seq<string>, lists: string -> Listing): seq<string> {
    if order == [] then []
    else
      var l := lists(order[|order| - 1]);
      Met(order[..|order| - 1], lists) + if l.Failed? then [] else NamesOf(l.defs)
  }

  /** The names of the index are those met, in the order in which they were met first. */
  ghost predicate InOrderMet(met: seq<string>, ix: Index) {
    && (forall n :: n in met <==> n in ix.claims)
    && (forall i :: 0 <= i < |ix.names| ==> ix.names[i] in met)
    && forall i, j :: 0 <= i < j < |ix.names| ==> Position(met, ix.names[i]) < Position(met, ix.names[j])
  }

  lemma PositionMore(met: seq<string>, n: string, x: string)
    ensures n in met ==> Position(met + [x], n) == Position(met, n) < |met|
    ensures n !in met && n == x ==> Position(met + [x], n) == |met|
  {
    var all, i, j := met + [x], Position(met, n), Position(met + [x], n);
    if n in met {
      assert all[i] == met[i] == n;
      assert j < |met| ==> all[j] == met[j];
    } else {
      assert forall k :: 0 <= k < |met| ==> all[k] == met[k];
      assert all[|met|] == x;
    }
  }

  lemma ClaimInOrder(met: seq<string>, ix: Index, id: string, def: Def)
    requires InOrderMet(met, ix)
    ensures InOrderMet(met + [def.name], Claim(ix, id, def))
  {
    var r, all := Claim(ix, id, def), met + [def.name];
    assert Claims(OwnersOf(ix, def.name), id) ==> def.name in ix.claims;
    assert forall n :: n in all <==> n in met || n == def.name;
    hide Position, Claims;
    forall i, j | 0 <= i < j < |r.names| ensures Position(all, r.names[i]) < Position(all, r.names[j]) {
      PositionMore(met, r.names[i], def.name);
      PositionMore(met, r.names[j], def.name);
    }
  }

  lemma {:induction false} ClaimAllInOrder(met: seq<string>, ix: Index, id: string, defs: seq<Def>)
    requires InOrderMet(met, ix)
    ensures InOrderMet(met + NamesOf(defs), ClaimAll(ix, id, defs))
  {
    hide InOrderMet, Claim;
    if defs == [] {
      assert met + NamesOf(defs) == met;
    } else {
      var n := |defs| - 1;
      ClaimAllInOrder(met, ix, id, defs[..n]);
      ClaimInOrder(met + NamesOf(defs[..n]), ClaimAll(ix, id, defs[..n]), id, defs[n]);
      assert met + NamesOf(defs) == met + NamesOf(defs[..n]) + [defs[n].name];
    }
  }

  lemma {:induction false} CollectInOrder(order: seq<string>, lists: string -> Listing)
    requires Collect(order, lists).Some?
    ensures InOrderMet(Met(order, lists), Collect(order, lists).value)
  {
    if order != [] {
      var n := |order| - 1;
      CollectInOrder(order[..n], lists);
      hide InOrderMet, ClaimAll;
      ClaimAllInOrder(Met(order[..n], lists), Collect(order[..n], lists).value, order[n], lists(order[n]).defs);
    }
  }

  /** Names are listed in source order: where the sources, one after another, list them first. */
  lemma GatherInOrder(order: seq<string>, lists: string -> Listing)
    requires Gather(order, lists).Some?
    ensures InOrderMet(Met(order, lists), Gather(order, lists).value)
  {
    hide Met, Collect, Position, SortOwners;
    CollectInOrder(order, lists);
  }
}
