/** The model-facing list of many tool sources, and the dispatch of a listed name back to its source. */
module Routing {
  import opened Wrappers
  import opened ToolClaims

  // ---------------------------------------------------------------- qualified names

  function Qualified(id: string, name: string): string { id + "/" + name }

  /** The position of the first slash, or the length when there is none. */
  function SlashAt(s: string): (i: nat)
    ensures i <= |s| && (forall k :: 0 <= k < i ==> s[k] != '/') && (i < |s| ==> s[i] == '/')
  {
    if s == "" || s[0] == '/' then 0 else 1 + SlashAt(s[1..])
  }

  datatype Parts = Parts(source: string, bare: string)

  function SplitQualified(name: string): Option<Parts> {
    var i := SlashAt(name);
    if i == |name| || i == 0 || i == |name| - 1 then None else Some(Parts(name[..i], name[i + 1..]))
  }

  ghost predicate NoSlash(id: string) { forall k :: 0 <= k < |id| ==> id[k] != '/' }

  lemma FirstSlash(id: string, name: string)
    requires NoSlash(id)
    ensures SlashAt(Qualified(id, name)) == |id|
  {
    var q := Qualified(id, name);
    assert q[|id|] == '/';
    forall k | 0 <= k < |id| ensures q[k] != '/' { assert q[k] == id[k]; }
  }

  /** Splitting undoes qualifying exactly when neither part is empty. */
  lemma SplitUndoesQualify(id: string, name: string)
    requires NoSlash(id)
    ensures SplitQualified(Qualified(id, name)) == if id != "" && name != "" then Some(Parts(id, name)) else None
  {
    FirstSlash(id, name);
    var q := Qualified(id, name);
    assert q[..|id|] == id && q[|id| + 1..] == name;
  }

  lemma QualifiedIsInjective(id: string, name: string, id': string, name': string)
    requires NoSlash(id) && NoSlash(id') && Qualified(id, name) == Qualified(id', name')
    ensures id == id' && name == name'
  {
    FirstSlash(id, name);
    FirstSlash(id', name');
    var q := Qualified(id, name);
    assert q[..|id|] == id && q[..|id'|] == id';
    assert q[|id| + 1..] == name && q[|id'| + 1..] == name';
  }

  // ---------------------------------------------------------------- resolving a name

  /** What the application's resolver says of an ambiguous name; a refusal may itself be an unknown-tool error. */
  datatype Answer = Chosen(id: string) | Refused(unknown: bool)

  datatype Resolver = NoResolver | Resolver(pick: (string, seq<Owner>) -> Answer)

  datatype Outcome = Found(source: string, bare: string) | Unknown | Stopped | ListFailed

  function Resolve(ix: Index, ids: set<string>, resolver: Resolver, name: string): Outcome {
    if name in ix.claims then
      var owners := ix.claims[name];
      if |owners| == 1 then Found(owners[0].source, name)
      else if resolver.NoResolver? then Stopped
      else
        var a := resolver.pick(name, owners);
        if a.Refused? then (if a.unknown then Unknown else Stopped)
        else if a.id in ids then Found(a.id, name)
        else Stopped
    else
      var parts := SplitQualified(name);
      if parts.Some? && parts.value.source in ids && Claims(OwnersOf(ix, parts.value.bare), parts.value.source)
      then Found(parts.value.source, parts.value.bare)
      else Unknown
  }

  /** Whose tool a name is: a name that one source claims is that source's; one that several claim goes where the resolver
      says, if it names a registered source; and a name that none claims is read as a source and its tool. */
  lemma ResolveRules(ix: Index, ids: set<string>, resolver: Resolver, name: string)
    requires DistinctOwners(ix)
    ensures name in ix.claims && |ix.claims[name]| == 1 ==>
              Resolve(ix, ids, resolver, name) == Found(ix.claims[name][0].source, name)
    ensures name in ix.claims && |ix.claims[name]| > 1 ==>
              Resolve(ix, ids, resolver, name) ==
                match resolver
                case NoResolver => Stopped
                case Resolver(pick) =>
                  match pick(name, ix.claims[name])
                  case Chosen(id) => if id in ids then Found(id, name) else Stopped
                  case Refused(unknown) => if unknown then Unknown else Stopped
    ensures name !in ix.claims ==>
              Resolve(ix, ids, resolver, name).Found? || Resolve(ix, ids, resolver, name) == Unknown
    ensures forall id, bare :: name !in ix.claims ==>
              (Resolve(ix, ids, resolver, name) == Found(id, bare) <==>
                && name == id + "/" + bare && NoSlash(id) && id != "" && bare != "" && id in ids
                && bare in ix.claims && exists k :: 0 <= k < |ix.claims[bare]| && ix.claims[bare][k].source == id)
  {
    if name !in ix.claims {
      forall id, bare
        ensures Resolve(ix, ids, resolver, name) == Found(id, bare) <==>
                  && name == id + "/" + bare && NoSlash(id) && id != "" && bare != "" && id in ids
                  && bare in ix.claims && exists k :: 0 <= k < |ix.claims[bare]| && ix.claims[bare][k].source == id
      {
        SplitsAs(name, id, bare);
        hide SplitQualified;
      }
    }
  }

  /** A name splits exactly at its first slash, into parts that are not empty. */
  lemma SplitsAs(name: string, id: string, bare: string)
    ensures SplitQualified(name) == Some(Parts(id, bare)) <==>
              name == id + "/" + bare && NoSlash(id) && id != "" && bare != ""
  {
    if name == id + "/" + bare && NoSlash(id) { SplitUndoesQualify(id, bare); }
    if SplitQualified(name) == Some(Parts(id, bare)) {
      var i := SlashAt(name);
      assert name == name[..i] + [name[i]] + name[i + 1..];
    }
  }

  /** An index over the sources ids. */
  ghost predicate WellFormed(ids: set<string>, ix: Index) {
    && AllSorted(ix) && DistinctOwners(ix) && NamesInOrder(ix)
    && forall name, k :: name in ix.claims && 0 <= k < |ix.claims[name]| ==>
         ix.claims[name][k].source in ids && ix.claims[name][k].def.name == name
  }

  ghost predicate LegalIds(ids: set<string>) { forall id :: id in ids ==> NoSlash(id) }

  // ---------------------------------------------------------------- the list

  /** One source's claim on one name. */
  datatype Place = Place(name: string, k: nat)

  predicate IsPlace(ix: Index, p: Place) { p.name in ix.claims && p.k < |ix.claims[p.name]| }

  function OwnerAt(ix: Index, p: Place): Owner requires IsPlace(ix, p) { ix.claims[p.name][p.k] }

  predicate Collides(ix: Index, name: string) { name in ix.claims && |ix.claims[name]| != 1 }

  /** The definition the model sees for a claim. */
  function Entry(ix: Index, p: Place): Def
    requires IsPlace(ix, p)
  {
    var o := OwnerAt(ix, p);
    if Collides(ix, p.name) then o.def.(name := Qualified(o.source, p.name)) else o.def
  }

  function PlacesOf(name: string, n: nat): seq<Place> { seq(n, k requires 0 <= k < n => Place(name, k)) }

  /** The claims in the order they are listed. */
  function Places(ix: Index, names: seq<string>): seq<Place> {
    if names == [] then []
    else
      var name := names[|names| - 1];
      Places(ix, names[..|names| - 1]) + PlacesOf(name, |OwnersOf(ix, name)|)
  }

  lemma {:induction false} PlacesHoldNames(ix: Index, names: seq<string>, p: Place)
    ensures p in Places(ix, names) <==> p.name in names && p.k < |OwnersOf(ix, p.name)|
  {
    if names != [] {
      var n := |names| - 1;
      var name := names[n];
      PlacesHoldNames(ix, names[..n], p);
      assert names == names[..n] + [name];
      var here := PlacesOf(name, |OwnersOf(ix, name)|);
      if p.name == name && p.k < |OwnersOf(ix, name)| { assert here[p.k] == p; }
    }
  }

  /** Every claim is listed, and nothing else is. */
  lemma EveryClaimIsListed(ids: set<string>, ix: Index, p: Place)
    requires WellFormed(ids, ix)
    ensures p in Places(ix, ix.names) <==> IsPlace(ix, p)
  {
    PlacesHoldNames(ix, ix.names, p);
    if p.name in ix.names {
      var i :| 0 <= i < |ix.names| && ix.names[i] == p.name;
      assert ix.names[i] in ix.claims;
    }
  }

  ghost predicate AllDiffer(ps: seq<Place>) { forall i, j :: 0 <= i < j < |ps| ==> ps[i] != ps[j] }

  lemma {:induction false} PlacesDiffer(ix: Index, names: seq<string>)
    requires Distinct(names)
    ensures AllDiffer(Places(ix, names))
  {
    if names != [] {
      var n := |names| - 1;
      PlacesDiffer(ix, names[..n]);
      var before := Places(ix, names[..n]);
      forall i | 0 <= i < |before| ensures before[i].name != names[n] {
        assert before[i] in before;
        PlacesHoldNames(ix, names[..n], before[i]);
        assert before[i].name in names[..n];
        var j :| 0 <= j < n && names[j] == before[i].name;
        assert names[j] != names[n];
      }
      var here := PlacesOf(names[n], |OwnersOf(ix, names[n])|);
      var ps := Places(ix, names);
      assert ps == before + here;
      forall i, j | 0 <= i < j < |ps| ensures ps[i] != ps[j] {
        if j < |before| {
          assert before[i] != before[j];
        } else {
          assert ps[j] == here[j - |before|] == Place(names[n], j - |before|);
          if i < |before| {
            assert ps[i] == before[i];
          } else {
            assert ps[i] == here[i - |before|] == Place(names[n], i - |before|);
          }
        }
      }
    }
  }

  // ---------------------------------------------------------------- listing and dispatch agree

  /** A listed claim resolves to its own source and bare name. */
  ghost predicate ResolvesHome(ids: set<string>, ix: Index, resolver: Resolver, p: Place)
    requires IsPlace(ix, p)
  {
    Resolve(ix, ids, resolver, Entry(ix, p).name) == Found(OwnerAt(ix, p).source, p.name)
  }

  /** The qualified form can be split again and is no tool's bare name. */
  predicate Reachable(ix: Index, p: Place)
    requires IsPlace(ix, p)
  {
    OwnerAt(ix, p).source != "" && p.name != "" && Qualified(OwnerAt(ix, p).source, p.name) !in ix.claims
  }

  lemma ClaimsAt(ix: Index, p: Place)
    requires IsPlace(ix, p)
    ensures Claims(OwnersOf(ix, p.name), OwnerAt(ix, p).source)
  {
    var owners := OwnersOf(ix, p.name);
    assert 0 <= p.k < |owners| && owners[p.k].source == OwnerAt(ix, p).source;
  }

  lemma OneResolvesHome(ids: set<string>, ix: Index, resolver: Resolver, p: Place)
    requires WellFormed(ids, ix) && LegalIds(ids) && IsPlace(ix, p)
    ensures ResolvesHome(ids, ix, resolver, p) <==> (Collides(ix, p.name) ==> Reachable(ix, p))
  {
    var o := OwnerAt(ix, p);
    assert o.source in ids && o.def.name == p.name;
    if Collides(ix, p.name) {
      hide Claims, SplitQualified, AllSorted, DistinctOwners, NamesInOrder;
      SplitUndoesQualify(o.source, p.name);
      ClaimsAt(ix, p);
      assert |Qualified(o.source, p.name)| > |p.name|;
    }
  }

  /** Every listed name resolves to exactly the source and bare name whose definition was listed, if and only if no
      qualified form has an empty part or is itself a tool's name. No resolver can make up for it. */
  lemma ListAndDispatchAgree(ids: set<string>, ix: Index, resolver: Resolver)
    requires WellFormed(ids, ix) && LegalIds(ids)
    ensures (forall p :: IsPlace(ix, p) ==> ResolvesHome(ids, ix, resolver, p))
       <==> (forall p :: IsPlace(ix, p) && Collides(ix, p.name) ==> Reachable(ix, p))
  {
    forall p | IsPlace(ix, p)
      ensures ResolvesHome(ids, ix, resolver, p) <==> (Collides(ix, p.name) ==> Reachable(ix, p))
    {
      OneResolvesHome(ids, ix, resolver, p);
    }
  }

  /** The qualified form of p is a name that a single source claims. */
  predicate Shadowed(ix: Index, p: Place)
    requires IsPlace(ix, p)
  {
    var q := Qualified(OwnerAt(ix, p).source, p.name);
    Collides(ix, p.name) && q in ix.claims && |ix.claims[q]| == 1
  }

  lemma SameOwnerSamePlace(ix: Index, p: Place, q: Place)
    requires DistinctOwners(ix) && IsPlace(ix, p) && IsPlace(ix, q)
    requires p.name == q.name && (OwnerAt(ix, p).source == OwnerAt(ix, q).source || |ix.claims[p.name]| == 1)
    ensures p == q
  {
  }

  /** Two claims are listed under one name only when one of them is shadowed. */
  lemma ListedTwice(ids: set<string>, ix: Index, p: Place, q: Place)
    requires WellFormed(ids, ix) && LegalIds(ids) && IsPlace(ix, p) && IsPlace(ix, q)
    requires p != q && Entry(ix, p).name == Entry(ix, q).name
    ensures Shadowed(ix, p) || Shadowed(ix, q)
  {
    hide AllSorted, NamesInOrder, DistinctOwners, Qualified;
    var a, b := OwnerAt(ix, p), OwnerAt(ix, q);
    assert a.source in ids && b.source in ids && a.def.name == p.name && b.def.name == q.name;
    if Collides(ix, p.name) && Collides(ix, q.name) {
      QualifiedIsInjective(a.source, p.name, b.source, q.name);
      SameOwnerSamePlace(ix, p, q);
    } else if !Collides(ix, p.name) && !Collides(ix, q.name) {
      SameOwnerSamePlace(ix, p, q);
    }
  }

  /** No name is listed twice exactly when no qualified form is the name of a tool of a single source. */
  lemma NoNameTwice(ids: set<string>, ix: Index)
    requires WellFormed(ids, ix) && LegalIds(ids)
    ensures var ps := Places(ix, ix.names);
            && (forall p :: p in ps <==> IsPlace(ix, p))
            && ((forall i, j :: 0 <= i < j < |ps| ==> Entry(ix, ps[i]).name != Entry(ix, ps[j]).name)
                <==> forall p :: IsPlace(ix, p) ==> !Shadowed(ix, p))
  {
    hide AllSorted, DistinctOwners, Entry, Shadowed, Places;
    var ps := Places(ix, ix.names);
    forall p ensures p in ps <==> IsPlace(ix, p) { EveryClaimIsListed(ids, ix, p); }
    PlacesDiffer(ix, ix.names);
    forall i, j | 0 <= i < j < |ps| && Entry(ix, ps[i]).name == Entry(ix, ps[j]).name
      ensures Shadowed(ix, ps[i]) || Shadowed(ix, ps[j])
    {
      ListedTwice(ids, ix, ps[i], ps[j]);
    }
    forall p | IsPlace(ix, p) && Shadowed(ix, p)
      ensures exists i, j :: 0 <= i < j < |ps| && Entry(ix, ps[i]).name == Entry(ix, ps[j]).name
    {
      var q := ShadowOf(ids, ix, p);
      assert p in ps && q in ps;
      var i :| 0 <= i < |ps| && ps[i] == p;
      var j :| 0 <= j < |ps| && ps[j] == q;
      assert Entry(ix, ps[i]).name == Entry(ix, ps[j]).name;
      if j < i { assert Entry(ix, ps[j]).name == Entry(ix, ps[i]).name; }
    }
  }

  lemma ShadowOf(ids: set<string>, ix: Index, p: Place) returns (q: Place)
    requires WellFormed(ids, ix) && IsPlace(ix, p) && Shadowed(ix, p)
    ensures IsPlace(ix, q) && q != p && Entry(ix, q).name == Entry(ix, p).name
  {
    q := Place(Qualified(OwnerAt(ix, p).source, p.name), 0);
    assert |q.name| > |p.name|;
    assert ix.claims[q.name][0].def.name == q.name;
  }

  function ShadowLists(id: string): Listing {
    Listed(if id == "c" then [Def("a/x", "")] else [Def("x", "")])
  }

  /** The convention is needed: sources a and b list x, source c lists a/x. The name a/x is then listed twice, and the
      entry for a's x leads to c instead. */
  lemma SlashNameShadows()
    ensures var g := Gather(["a", "b", "c"], ShadowLists);
            g.Some? && exists p :: IsPlace(g.value, p) && Shadowed(g.value, p)
                                 && forall r: Resolver :: !ResolvesHome({"a", "b", "c"}, g.value, r, p)
  {
    hide *;
    var order, g := ["a", "b", "c"], Gather(["a", "b", "c"], ShadowLists);
    ShadowGathers();
    GatherExact(order, ShadowLists);
    var p := ShadowPlace(g.value);
    forall r: Resolver ensures !ResolvesHome({"a", "b", "c"}, g.value, r, p) {
      ShadowedIsLost({"a", "b", "c"}, g.value, r, p);
    }
  }

  lemma ShadowGathers()
    ensures Distinct(["a", "b", "c"]) && Gather(["a", "b", "c"], ShadowLists).Some?
  {
    var order := ["a", "b", "c"];
    assert "a"[0] != "b"[0] && "a"[0] != "c"[0] && "b"[0] != "c"[0];
    hide Collect, SortIndex, Ids;
    CollectFails(order, ShadowLists);
    assert !SomeFails(Ids(order), ShadowLists);
  }

  lemma ShadowedIsLost(ids: set<string>, ix: Index, r: Resolver, p: Place)
    requires IsPlace(ix, p) && Shadowed(ix, p)
    ensures !ResolvesHome(ids, ix, r, p)
  {
    assert |Entry(ix, p).name| > |p.name|;
  }

  lemma ShadowPlace(ix: Index) returns (p: Place)
    requires Exact(Seen(Ids(["a", "b", "c"]), ShadowLists), ix)
    ensures IsPlace(ix, p) && Shadowed(ix, p)
  {
    assert Qualified("a", "x") == "a/x";
    ShadowOwners(ix);
    FirstTwoDiffer(ix, "a/x");
    FirstTwoDiffer(ix, "x");
    hide Accounted, NamesInOrder, DistinctOwners, Seen, Ids, Qualified, ShadowLists;
    var xs, ys := OwnersOf(ix, "x"), OwnersOf(ix, "a/x");
    var k :| 0 <= k < |xs| && xs[k] == Owner("a", Def("x", ""));
    p := Place("x", k);
    assert "a"[0] != "b"[0];
  }

  lemma ShadowOwners(ix: Index)
    requires Accounted(Seen(Ids(["a", "b", "c"]), ShadowLists), ix)
    ensures Owner("a", Def("x", "")) in OwnersOf(ix, "x") && Owner("b", Def("x", "")) in OwnersOf(ix, "x")
    ensures var ys := OwnersOf(ix, "a/x"); ys != [] && forall k :: 0 <= k < |ys| ==> ys[k] == Owner("c", Def("a/x", ""))
  {
    var order := ["a", "b", "c"];
    assert order[0] in Ids(order) && order[1] in Ids(order) && order[2] in Ids(order);
    ShadowDefs();
    hide FirstDef, ShadowLists, Ids;
    var ys, c := OwnersOf(ix, "a/x"), Owner("c", Def("a/x", ""));
    assert c in ys;
    forall k | 0 <= k < |ys| ensures ys[k] == c { ShadowOnlyC(ix, ys[k]); }
  }

  lemma FirstTwoDiffer(ix: Index, name: string)
    requires DistinctOwners(ix) && name in ix.claims
    ensures |ix.claims[name]| > 1 ==> ix.claims[name][0].source != ix.claims[name][1].source
  {
  }

  lemma ShadowDefs()
    ensures FirstDef(DefsOf(ShadowLists("a")), "x") == Some(Def("x", "")) == FirstDef(DefsOf(ShadowLists("b")), "x")
    ensures FirstDef(DefsOf(ShadowLists("c")), "a/x") == Some(Def("a/x", ""))
    ensures FirstDef(DefsOf(ShadowLists("a")), "a/x") == None == FirstDef(DefsOf(ShadowLists("b")), "a/x")
  {
    assert "a"[0] != "c"[0] && "b"[0] != "c"[0] && |"a/x"| != |"x"|;
  }

  lemma ShadowOnlyC(ix: Index, o: Owner)
    requires Accounted(Seen(Ids(["a", "b", "c"]), ShadowLists), ix) && o in OwnersOf(ix, "a/x")
    ensures o == Owner("c", Def("a/x", ""))
  {
    ShadowDefs();
    hide FirstDef;
    var seen := Seen(Ids(["a", "b", "c"]), ShadowLists);
    assert o.source in seen && FirstDef(seen[o.source], "a/x") == Some(o.def);
    assert o.source in ["a", "b", "c"];
  }

  ghost predicate StartsWith(s: string, t: string) { |t| <= |s| && s[..|t|] == t }

  /** The naming convention: no empty id, no empty tool name, no tool name that starts with an id and a slash. */
  ghost predicate Conventional(ids: set<string>, ix: Index) {
    && "" !in ids && "" !in ix.claims
    && forall name, id :: name in ix.claims && id in ids ==> !StartsWith(name, id + "/")
  }

  lemma QualifiedStarts(id: string, name: string)
    ensures StartsWith(Qualified(id, name), id + "/")
  {
  }

  /** Under the convention the list has no duplicates and every listed name leads home. */
  lemma ConventionSuffices(ids: set<string>, ix: Index, resolver: Resolver, p: Place)
    requires WellFormed(ids, ix) && LegalIds(ids) && Conventional(ids, ix) && IsPlace(ix, p)
    ensures ResolvesHome(ids, ix, resolver, p) && !Shadowed(ix, p)
  {
    assert OwnerAt(ix, p).source in ids;
    QualifiedStarts(OwnerAt(ix, p).source, p.name);
    OneResolvesHome(ids, ix, resolver, p);
  }

  /** The listed definitions do not depend on the order of registration. */
  lemma ListIgnoresOrder(order: seq<string>, other: seq<string>, lists: string -> Listing, d: Def)
    requires Distinct(order) && Distinct(other) && Ids(order) == Ids(other) && Gather(order, lists).Some?
    ensures Gather(other, lists).Some?
    ensures var a, b := Gather(order, lists).value, Gather(other, lists).value;
            (exists p :: IsPlace(a, p) && Entry(a, p) == d) <==> (exists p :: IsPlace(b, p) && Entry(b, p) == d)
  {
    ClaimsIgnoreOrder(order, other, lists);
    var a, b := Gather(order, lists).value, Gather(other, lists).value;
    forall p ensures IsPlace(a, p) <==> IsPlace(b, p) {}
    forall p | IsPlace(a, p) ensures Entry(a, p) == Entry(b, p) {}
  }

  // ---------------------------------------------------------------- operations

  datatype State = State(order: seq<string>, sources: map<string, Source>, index: Option<Index>)

  ghost predicate Coherent(s: State) {
    && Distinct(s.order) && Ids(s.order) == s.sources.Keys && LegalIds(s.sources.Keys)
    && (s.index.Some? ==> WellFormed(s.sources.Keys, s.index.value))
  }

  function Without(order: seq<string>, id: string): seq<string> {
    var i := Position(order, id);
    if i < |order| then order[..i] + order[i + 1..] else order
  }

  function Added(s: State, id: string, src: Source): State {
    if SlashAt(id) < |id| || id in s.sources then s
    else State(s.order + [id], s.sources[id := src], None)
  }

  function Removed(s: State, id: string): State {
    if id !in s.sources then s
    else State(Without(s.order, id), s.sources - {id}, None)
  }

  /** The memoized index, gathered if absent; a failed gathering leaves it absent. */
  function Indexed(s: State, lists: string -> Listing): State {
    if s.index.Some? then s else s.(index := Gather(s.order, lists))
  }

  datatype Located = Located(state: State, outcome: Outcome)

  /** What Call and OwnerOf do to find a name's source: one fresh gathering when the memoized index misses. */
  function Locate(s: State, lists: string -> Listing, resolver: Resolver, name: string): Located {
    var s1 := Indexed(s, lists);
    if s1.index.None? then Located(s1, ListFailed)
    else
      var out := Resolve(s1.index.value, s.sources.Keys, resolver, name);
      if out != Unknown then Located(s1, out)
      else
        var s2 := Indexed(s1.(index := None), lists);
        Located(s2, if s2.index.None? then Unknown else Resolve(s2.index.value, s.sources.Keys, resolver, name))
  }

  /** Every listed name is the tool's own, unless several sources claim it: then it is the source, a slash and that. The rest
      of the definition is the tool's. */
  lemma EntryRules(ids: set<string>, ix: Index, p: Place)
    requires WellFormed(ids, ix) && IsPlace(ix, p)
    ensures var o, d := OwnerAt(ix, p), Entry(ix, p);
            && d.rest == o.def.rest
            && d.name == if |ix.claims[p.name]| > 1 then o.source + "/" + p.name else p.name
  {
    hide AllSorted, NamesInOrder;
  }

  /** A name that the memoized index does not know is looked up among what the sources list now; if one source lists it, the
      call goes there. */
  lemma NewToolIsReachable(s: State, lists: string -> Listing, resolver: Resolver, name: string, id: string)
    requires Coherent(s) && id in s.sources && forall x :: x in s.sources ==> lists(x).Listed?
    requires forall x :: x in s.sources ==> (x == id <==> exists i :: 0 <= i < |lists(x).defs| && lists(x).defs[i].name == name)
    requires s.index.Some? ==> Resolve(s.index.value, s.sources.Keys, resolver, name) == Unknown
    ensures Locate(s, lists, resolver, name).outcome == Found(id, name)
    ensures Locate(s, lists, resolver, name).state == s.(index := Gather(s.order, lists))
  {
    CollectFails(s.order, lists);
    assert Gather(s.order, lists).Some?;
    GatherExact(s.order, lists);
    var ix := Gather(s.order, lists).value;
    OnlyOwner(s.sources.Keys, lists, ix, name, id);
    hide Gather, Exact, SplitQualified;
  }

  lemma OnlyOwner(ids: set<string>, lists: string -> Listing, ix: Index, name: string, id: string)
    requires Exact(Seen(ids, lists), ix) && id in ids && forall x :: x in ids ==> lists(x).Listed?
    requires forall x :: x in ids ==> (x == id <==> exists i :: 0 <= i < |lists(x).defs| && lists(x).defs[i].name == name)
    ensures name in ix.claims && |ix.claims[name]| == 1 && ix.claims[name][0].source == id
  {
    hide FirstDef;
    var owners, seen := OwnersOf(ix, name), Seen(ids, lists);
    FirstDefMeans(seen[id], name);
    assert Owner(id, FirstDef(seen[id], name).value) in owners;
    forall k | 0 <= k < |owners| ensures owners[k].source == id {
      assert owners[k] in owners;
      FirstDefMeans(seen[owners[k].source], name);
    }
    FirstTwoDiffer(ix, name);
  }

  lemma GatherIsWellFormed(order: seq<string>, lists: string -> Listing)
    requires Distinct(order) && Gather(order, lists).Some?
    ensures WellFormed(Ids(order), Gather(order, lists).value)
  {
    GatherExact(order, lists);
    hide Gather, FirstDef, AllSorted, DistinctOwners, NamesInOrder;
    var ix, seen := Gather(order, lists).value, Seen(Ids(order), lists);
    forall name, k | name in ix.claims && 0 <= k < |ix.claims[name]|
      ensures ix.claims[name][k].source in Ids(order) && ix.claims[name][k].def.name == name
    {
      var o := ix.claims[name][k];
      assert o in OwnersOf(ix, name);
      assert o.source in seen && FirstDef(seen[o.source], name) == Some(o.def);
    }
  }

  lemma IndexedCoherent(s: State, lists: string -> Listing)
    requires Coherent(s)
    ensures Coherent(Indexed(s, lists))
  {
    if s.index.None? && Gather(s.order, lists).Some? { GatherIsWellFormed(s.order, lists); }
  }

  lemma WithoutRemoves(order: seq<string>, id: string)
    requires Distinct(order)
    ensures Distinct(Without(order, id)) && Ids(Without(order, id)) == Ids(order) - {id}
  {
    var i := Position(order, id);
    var r := Without(order, id);
    if i < |order| {
      assert forall k :: 0 <= k < |r| ==> r[k] == if k < i then order[k] else order[k + 1];
      forall x ensures x in r <==> x in order && x != id {
        if x in order && x != id {
          var k :| 0 <= k < |order| && order[k] == x;
          assert r[if k < i then k else k - 1] == x;
        }
      }
    } else {
      assert id !in order;
    }
  }

  datatype Op =
    | Add(id: string, src: Source)
    | Remove(id: string)
    | Invalidate
    | List(lists: string -> Listing)
    | Lookup(lists: string -> Listing, resolver: Resolver, name: string)

  function Apply(s: State, op: Op): State {
    match op
    case Add(id, src) => Added(s, id, src)
    case Remove(id) => Removed(s, id)
    case Invalidate => s.(index := None)
    case List(lists) => Indexed(s, lists)
    case Lookup(lists, resolver, name) => Locate(s, lists, resolver, name).state
  }

  function Run(ops: seq<Op>): State {
    if ops == [] then State([], map[], None) else Apply(Run(ops[..|ops| - 1]), ops[|ops| - 1])
  }

  lemma AddKeeps(s: State, id: string, src: Source)
    requires Coherent(s)
    ensures Coherent(Added(s, id, src))
  {
    var s' := Added(s, id, src);
    if s' != s {
      assert Ids(s'.order) == Ids(s.order) + {id};
      forall i | 0 <= i < |s.order| ensures s.order[i] in Ids(s.order) {}
    }
  }

  lemma StepKeeps(s: State, op: Op)
    requires Coherent(s)
    ensures Coherent(Apply(s, op))
  {
    hide LegalIds, WellFormed, Distinct, Ids, Gather;
    match op
    case Add(id, src) => AddKeeps(s, id, src);
    case Remove(id) => RemoveKeeps(s, id);
    case Invalidate =>
    case List(lists) => IndexedCoherent(s, lists);
    case Lookup(lists, resolver, name) =>
      IndexedCoherent(s, lists);
      IndexedCoherent(Indexed(s, lists).(index := None), lists);
  }

  lemma RemoveKeeps(s: State, id: string)
    requires Coherent(s)
    ensures Coherent(Removed(s, id))
  {
    WithoutRemoves(s.order, id);
  }

  lemma {:induction false} RunKeeps(ops: seq<Op>)
    ensures Coherent(Run(ops))
  {
    if ops != [] {
      RunKeeps(ops[..|ops| - 1]);
      StepKeeps(Run(ops[..|ops| - 1]), ops[|ops| - 1]);
    }
  }

  /** After any run, a lookup that finds a source finds one that is registered now, never one removed before. */
  lemma NeverARemovedSource(ops: seq<Op>, lists: string -> Listing, resolver: Resolver, name: string)
    ensures var out := Locate(Run(ops), lists, resolver, name).outcome;
            out.Found? ==> out.source in Run(ops).sources
  {
    RunKeeps(ops);
    hide Resolve, WellFormed, Gather, Run, LegalIds, Distinct, Ids;
    var s := Run(ops);
    var s1 := Indexed(s, lists);
    var s2 := Indexed(s1.(index := None), lists);
    IndexedCoherent(s, lists);
    IndexedCoherent(s1.(index := None), lists);
    if s1.index.Some? { FoundIsRegistered(s.sources.Keys, s1.index.value, resolver, name); }
    if s2.index.Some? { FoundIsRegistered(s.sources.Keys, s2.index.value, resolver, name); }
  }

  lemma FoundIsRegistered(ids: set<string>, ix: Index, resolver: Resolver, name: string)
    requires WellFormed(ids, ix)
    ensures var out := Resolve(ix, ids, resolver, name); out.Found? ==> out.source in ids
  {
    hide SplitQualified, AllSorted, NamesInOrder, Claims;
  }

  /** OwnerOf names exactly the source that a Call with the same arguments then reaches, while the sources list the
      same. */
  lemma OwnerOfForetellsCall(s: State, lists: string -> Listing, resolver: Resolver, name: string)
    ensures var first := Locate(s, lists, resolver, name);
            var again := Locate(first.state, lists, resolver, name);
            && first.state.sources == s.sources
            && (first.outcome.Found? <==> again.outcome.Found?)
            && (first.outcome.Found? ==> again.outcome == first.outcome)
  {
    hide Gather, Resolve;
  }

  // ---------------------------------------------------------------- the class

  datatype Reply = Dispatch(to: Source, bare: string) | Refuse(why: Outcome)

  class MultiSource {
    var order: seq<string>
    var sources: map<string, Source>
    var index: Option<Index>
    const resolver: Resolver

    function View(): State reads this { State(order, sources, index) }

    ghost predicate Valid() reads this { Coherent(View()) }

    constructor (r: Resolver)
      ensures Valid() && View() == Run([]) && resolver == r
    {
      order, sources, index, resolver := [], map[], None, r;
    }

    method Add(id: string, src: Source) returns (ok: bool)
      requires Valid()
      modifies this
      ensures Valid() && View() == Added(old(View()), id, src)
      ensures ok <==> NoSlash(id) && id !in old(sources)
      ensures ok ==> order == old(order) + [id] && sources == old(sources)[id := src] && index == None
      ensures !ok ==> View() == old(View())
    {
      AddKeeps(View(), id, src);
      if SlashAt(id) < |id| { return false; }
      if id in sources { return false; }
      sources := sources[id := src];
      order := order + [id];
      index := None;
      ok := true;
    }

    method Invalidate()
      requires Valid()
      modifies this
      ensures Valid() && View() == old(View()).(index := None)
    {
      index := None;
    }

    method Remove(id: string)
      requires Valid()
      modifies this
      ensures Valid() && View() == Removed(old(View()), id)
      ensures id in old(sources) ==>
                && sources == old(sources) - {id} && index == None
                && exists i :: 0 <= i < |old(order)| && old(order)[i] == id && order == old(order)[..i] + old(order)[i + 1..]
      ensures id !in old(sources) ==> View() == old(View())
    {
      RemoveKeeps(View(), id);
      assert id in sources ==> id in order;
      if id !in sources { return; }
      sources := sources - {id};
      ghost var was := order;
      var i := 0;
      while i < |order|
        invariant 0 <= i <= |order| && order == was && forall k :: 0 <= k < i ==> order[k] != id
      {
        if order[i] == id { break; }
        i := i + 1;
      }
      assert i == Position(was, id);
      if i < |order| { order := order[..i] + order[i + 1..]; }
      index := None;
    }

    /** gatherLocked. */
    method Gathered(lists: string -> Listing) returns (r: Option<Index>)
      ensures r == Gather(order, lists)
    {
      var ix := EmptyIndex();
      for i := 0 to |order|
        invariant Collect(order[..i], lists) == Some(ix)
      {
        assert order[..i + 1][..i] == order[..i];
        var l := lists(order[i]);
        if l.Failed? {
          CollectStops(order, i, lists);
          return None;
        }
        ghost var start := ix;
        for j := 0 to |l.defs|
          invariant ix == ClaimAll(start, order[i], l.defs[..j])
        {
          assert l.defs[..j + 1][..j] == l.defs[..j];
          ix := Claim(ix, order[i], l.defs[j]);
        }
        assert l.defs[..|l.defs|] == l.defs;
      }
      assert order[..|order|] == order;
      r := Some(SortIndex(ix));
    }

    method IndexLocked(lists: string -> Listing)
      requires Valid()
      modifies this`index
      ensures Valid() && View() == Indexed(old(View()), lists)
    {
      IndexedCoherent(View(), lists);
      if index.None? {
        var r := Gathered(lists);
        if r.Some? { index := r; }
      }
    }

    /** The merged list: one entry per claim, in the order of Places. */
    method Tools(lists: string -> Listing) returns (out: Option<seq<Def>>)
      requires Valid()
      modifies this`index
      ensures Valid() && View() == Indexed(old(View()), lists)
      ensures out.None? <==> index.None?
      ensures out.Some? ==> Lists(index.value, Places(index.value, index.value.names), out.value)
    {
      IndexLocked(lists);
      if index.None? { return None; }
      var defs := Merge(sources.Keys, index.value);
      out := Some(defs);
    }

    method Find(lists: string -> Listing, name: string) returns (out: Outcome)
      requires Valid()
      modifies this`index
      ensures Valid()
      ensures var l := Locate(old(View()), lists, resolver, name); View() == l.state && out == l.outcome
      ensures out.Found? ==> out.source in sources
    {
      IndexLocked(lists);
      if index.None? { return ListFailed; }
      FoundIsRegistered(sources.Keys, index.value, resolver, name);
      out := Resolve(index.value, sources.Keys, resolver, name);
      if out == Unknown {
        index := None;
        IndexLocked(lists);
        if index.Some? {
          FoundIsRegistered(sources.Keys, index.value, resolver, name);
          out := Resolve(index.value, sources.Keys, resolver, name);
        }
      }
    }

    /** Call dispatches to the source found, which is registered. */
    method Call(lists: string -> Listing, name: string) returns (r: Reply)
      requires Valid()
      modifies this`index
      ensures Valid()
      ensures var l := Locate(old(View()), lists, resolver, name);
              && View() == l.state
              && (l.outcome.Found? ==>
                    l.outcome.source in sources && r == Dispatch(sources[l.outcome.source], l.outcome.bare))
              && (!l.outcome.Found? ==> r == Refuse(l.outcome))
    {
      hide Locate, Coherent;
      var out := Find(lists, name);
      r := if out.Found? then Dispatch(sources[out.source], out.bare) else Refuse(out);
    }

    method OwnerOf(lists: string -> Listing, name: string) returns (id: Option<string>)
      requires Valid()
      modifies this`index
      ensures Valid()
      ensures var l := Locate(old(View()), lists, resolver, name);
              View() == l.state && id == if l.outcome.Found? then Some(l.outcome.source) else None
    {
      hide Locate, Coherent;
      var out := Find(lists, name);
      id := if out.Found? then Some(out.source) else None;
    }
  }

  /** defs is the list of the entries of ps. */
  ghost predicate Lists(ix: Index, ps: seq<Place>, defs: seq<Def>) {
    |defs| == |ps| && forall i :: 0 <= i < |ps| ==> IsPlace(ix, ps[i]) && defs[i] == Entry(ix, ps[i])
  }

  lemma ListsAppend(ix: Index, ps: seq<Place>, qs: seq<Place>, ds: seq<Def>, es: seq<Def>)
    requires Lists(ix, ps, ds) && Lists(ix, qs, es)
    ensures Lists(ix, ps + qs, ds + es)
  {
  }

  method EntriesFor(ghost ids: set<string>, ix: Index, name: string) returns (defs: seq<Def>)
    requires WellFormed(ids, ix) && name in ix.claims
    ensures Lists(ix, PlacesOf(name, |ix.claims[name]|), defs)
  {
    hide AllSorted, DistinctOwners, NamesInOrder, Qualified;
    var owners := ix.claims[name];
    if |owners| == 1 { return [owners[0].def]; }
    defs := [];
    for k := 0 to |owners|
      invariant Lists(ix, PlacesOf(name, k), defs)
    {
      var o := owners[k];
      defs := defs + [o.def.(name := Qualified(o.source, name))];
    }
  }

  lemma PlacesBack(ix: Index, i: nat)
    requires i < |ix.names| && ix.names[i] in ix.claims
    ensures Places(ix, ix.names[..i + 1])
         == Places(ix, ix.names[..i]) + PlacesOf(ix.names[i], |ix.claims[ix.names[i]]|)
  {
    hide PlacesOf;
    assert ix.names[..i + 1][..i] == ix.names[..i];
  }

  method Merge(ghost ids: set<string>, ix: Index) returns (defs: seq<Def>)
    requires WellFormed(ids, ix)
    ensures Lists(ix, Places(ix, ix.names), defs)
  {
    defs := [];
    assert Lists(ix, [], defs);
    assert forall i :: 0 <= i < |ix.names| ==> ix.names[i] in ix.claims;
    assert Places(ix, ix.names[..0]) == [];
    hide WellFormed, NamesInOrder, Lists, PlacesOf, Places;
    for i := 0 to |ix.names|
      invariant Lists(ix, Places(ix, ix.names[..i]), defs)
    {
      PlacesBack(ix, i);
      var more := EntriesFor(ids, ix, ix.names[i]);
      ListsAppend(ix, Places(ix, ix.names[..i]), PlacesOf(ix.names[i], |ix.claims[ix.names[i]]|), defs, more);
      defs := defs + more;
    }
    assert ix.names[..|ix.names|] == ix.names;
  }

  lemma {:induction false} CollectStops(order: seq<string>, i: nat, lists: string -> Listing)
    requires i < |order| && lists(order[i]).Failed?
    ensures Collect(order, lists).None?
  {
    CollectFails(order, lists);
    assert order[i] in Ids(order);
  }
}
