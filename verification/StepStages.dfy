/** The chain of stages that shapes each model call.

Every stage has a scope that says how long its output lives: the record, the rest of the turn, or one
request. Providers, grammars and generation parameters are known here only by identity. */
module StepStages {
  import opened Wrappers
  import opened Messages
  import opened Sorting

  datatype Error = ContextBudget | TurnStopped | Failure(reason: string)

  datatype Result<+T> = Ok(value: T) | Err(error: Error)

  datatype Scope = Session | Turn | Request

  datatype Usage = Usage(input: int, output: int, cached: int)

  datatype StepInfo = StepInfo(step: nat, maxSteps: nat, usage: Usage, turn: seq<Message>)

  datatype View = View(messages: seq<Message>, tools: seq<string>, provider: Option<int>, providerName: string,
                       guided: Option<int>, generation: int)

  datatype Stage = Stage(name: string, scope: Scope, run: (StepInfo, View) -> Result<View>)

  /** A chain in progress: the turn's working messages, what session stages recorded, and the view so far. */
  datatype Chained = Chained(working: seq<Message>, recorded: seq<Message>, view: View)

  /** Content compared field by field, but tool calls only by their number. */
  predicate SameMessage(a: Message, b: Message) {
    a.role == b.role && a.text == b.text && a.toolCallId == b.toolCallId && |a.toolCalls| == |b.toolCalls|
  }

  predicate SameAll(a: seq<Message>, b: seq<Message>) {
    |a| == |b| && forall i :: 0 <= i < |a| ==> SameMessage(a[i], b[i])
  }

  /** out extends ms as far as SameMessage can tell. */
  predicate Extends(out: seq<Message>, ms: seq<Message>) { |ms| <= |out| && SameAll(out[..|ms|], ms) }

  function RunStage(st: Stage, info: StepInfo, c: Chained): Result<Chained> {
    match st.run(info, c.view)
    case Err(e) => Err(e)
    case Ok(out) =>
      var n := |c.view.messages|;
      if st.scope != Request && (out.provider.Some? || out.providerName != "") then Err(Failure("provider"))
      else if st.scope != Request && out.guided != c.view.guided then Err(Failure("grammar"))
      else if st.scope != Request && out.generation != c.view.generation then Err(Failure("generation"))
      else match st.scope
        case Session =>
          if !Extends(out.messages, c.view.messages) then Err(Failure("append only"))
          else Ok(Chained(out.messages, c.recorded + out.messages[n..], out.(tools := c.view.tools)))
        case Turn => Ok(Chained(out.messages, c.recorded, out.(tools := c.view.tools)))
        case Request => Ok(c.(view := out))
  }

  function RunChain(chain: seq<Stage>, info: StepInfo, c: Chained): Result<Chained> {
    if chain == [] then Ok(c)
    else match RunChain(chain[..|chain| - 1], info, c)
      case Err(e) => Err(e)
      case Ok(b) => RunStage(chain[|chain| - 1], info, b)
  }

  function Start(working: seq<Message>, tools: seq<string>, guided: Option<int>, gen: int): Chained {
    Chained(working, [], View(working, tools, None, "", guided, gen))
  }

  // ---------------------------------------------------------------- what a stage's output does

  /** A stage that outlives the request may not choose the provider, the grammar or the parameters, and one that writes
      the record may only append, tool calls being compared by their number. */
  ghost predicate Oversteps(st: Stage, v: View, out: View) {
    st.scope != Request && (
      || out.provider != None || out.providerName != "" || out.guided != v.guided || out.generation != v.generation
      || (st.scope == Session && !(
            && |v.messages| <= |out.messages|
            && forall i :: 0 <= i < |v.messages| ==>
                 && out.messages[i].role == v.messages[i].role && out.messages[i].text == v.messages[i].text
                 && out.messages[i].toolCallId == v.messages[i].toolCallId
                 && |out.messages[i].toolCalls| == |v.messages[i].toolCalls|)))
  }

  /** The view a stage made of the one before: all of it goes on if the stage shapes one request; otherwise the tools are
      put back, the messages become the working ones, and what a session stage appended is recorded. */
  ghost predicate Becomes(st: Stage, before: Chained, out: View, after: Chained) {
    if st.scope == Request then
      after.view == out && after.working == before.working && after.recorded == before.recorded
    else
      && after.view.messages == after.working == out.messages && after.view.tools == before.view.tools
      && after.view.provider == None && after.view.providerName == ""
      && after.view.guided == before.view.guided && after.view.generation == before.view.generation
      && (st.scope == Turn ==> after.recorded == before.recorded)
      && (st.scope == Session ==>
            && |before.view.messages| <= |out.messages|
            && after.recorded == before.recorded + out.messages[|before.view.messages|..])
  }

  /** A stage takes effect: its own error ends the chain, so does overstepping, and otherwise its view takes over. */
  ghost predicate TakesEffect(st: Stage, info: StepInfo, before: Chained, r: Result<Chained>) {
    match st.run(info, before.view)
    case Err(e) => r == Err(e)
    case Ok(out) =>
      if Oversteps(st, before.view, out) then r.Err? && r.error.Failure?
      else r.Ok? && Becomes(st, before, out, r.value)
  }

  /** The stages one after another, each on what the one before it left, up to the first that fails. */
  ghost predicate Folds(chain: seq<Stage>, info: StepInfo, c: Chained, mids: seq<Chained>, r: Result<Chained>) {
    && 1 <= |mids| <= |chain| + 1 && mids[0] == c
    && (forall i :: 0 <= i < |mids| - 1 ==> TakesEffect(chain[i], info, mids[i], Ok(mids[i + 1])))
    && (r.Ok? ==> |mids| == |chain| + 1 && r.value == mids[|chain|])
    && (r.Err? ==> |mids| <= |chain| && TakesEffect(chain[|mids| - 1], info, mids[|mids| - 1], r))
  }

  lemma StageTakesEffect(st: Stage, info: StepInfo, c: Chained)
    ensures TakesEffect(st, info, c, RunStage(st, info, c))
  {
    var r := st.run(info, c.view);
    if r.Ok? && st.scope == Session { ExtendsInFields(r.value.messages, c.view.messages); }
    hide Extends;
  }

  lemma ExtendsInFields(out: seq<Message>, ms: seq<Message>)
    ensures Extends(out, ms) <==>
              && |ms| <= |out|
              && forall i :: 0 <= i < |ms| ==>
                   && out[i].role == ms[i].role && out[i].text == ms[i].text && out[i].toolCallId == ms[i].toolCallId
                   && |out[i].toolCalls| == |ms[i].toolCalls|
  {
    if |ms| <= |out| {
      assert forall i :: 0 <= i < |ms| ==> out[..|ms|][i] == out[i];
    }
  }

  /** The chain is the fold of its stages: with the views the stages themselves return, and nothing else. */
  lemma {:induction false} ChainIsFold(chain: seq<Stage>, info: StepInfo, c: Chained) returns (mids: seq<Chained>)
    ensures Folds(chain, info, c, mids, RunChain(chain, info, c))
  {
    hide RunStage, TakesEffect;
    if chain == [] {
      mids := [c];
    } else {
      var n := |chain| - 1;
      mids := ChainIsFold(chain[..n], info, c);
      var b := RunChain(chain[..n], info, c);
      if b.Ok? {
        StageTakesEffect(chain[n], info, b.value);
        var r := RunStage(chain[n], info, b.value);
        if r.Ok? { mids := mids + [r.value]; }
      }
    }
  }

  /** runStepChain. */
  method RunStepChain(chain: seq<Stage>, info: StepInfo, working0: seq<Message>, tools: seq<string>,
                      guided: Option<int>, gen: int)
    returns (r: Result<Chained>)
    ensures r == RunChain(chain, info, Start(working0, tools, guided, gen))
    ensures exists mids ::
              Folds(chain, info, Chained(working0, [], View(working0, tools, None, "", guided, gen)), mids, r)
  {
    ghost var mids := ChainIsFold(chain, info, Start(working0, tools, guided, gen));
    hide Folds;
    var working, recorded: seq<Message> := working0, [];
    var view := View(working0, tools, None, "", guided, gen);
    ghost var start := Start(working0, tools, guided, gen);
    for i := 0 to |chain|
      invariant RunChain(chain[..i], info, start) == Ok(Chained(working, recorded, view))
    {
      hide Extends;
      Failing(chain, i + 1, info, start);
      assert chain[..i + 1][..i] == chain[..i];
      var st := chain[i];
      var inMessages := view.messages;
      var ran := st.run(info, view);
      if ran.Err? { return Err(ran.error); }
      var out := ran.value;
      if st.scope != Request && (out.provider.Some? || out.providerName != "") { return Err(Failure("provider")); }
      if st.scope != Request && out.guided != view.guided { return Err(Failure("grammar")); }
      if st.scope != Request && out.generation != view.generation { return Err(Failure("generation")); }
      match st.scope {
        case Session =>
          if !Extends(out.messages, inMessages) { return Err(Failure("append only")); }
          ExtendsLonger(out.messages, inMessages);
          recorded := recorded + out.messages[|inMessages|..];
          working := out.messages;
          out := out.(tools := view.tools);
        case Turn =>
          working := out.messages;
          out := out.(tools := view.tools);
        case Request =>
      }
      view := out;
    }
    assert chain[..|chain|] == chain;
    r := Ok(Chained(working, recorded, view));
  }

  lemma ExtendsLonger(out: seq<Message>, ms: seq<Message>)
    requires Extends(out, ms)
    ensures |ms| <= |out|
  {
  }

  /** A stage that fails fails the chain. */
  lemma {:induction false} Failing(chain: seq<Stage>, i: nat, info: StepInfo, c: Chained)
    requires i <= |chain|
    ensures RunChain(chain[..i], info, c).Err? ==> RunChain(chain, info, c) == RunChain(chain[..i], info, c)
    decreases |chain|
  {
    if i < |chain| {
      Failing(chain[..|chain| - 1], i, info, c);
      assert chain[..|chain| - 1][..i] == chain[..i];
    } else {
      assert chain[..i] == chain;
    }
  }

  // ---------------------------------------------------------------- the order of the chain

  function Rank(sc: Scope): nat { match sc case Session => 0 case Turn => 1 case Request => 2 }

  function ScopeRank(): Stage -> nat { (st: Stage) => Rank(st.scope) }

  function InScope(sc: Scope): Stage -> bool { HasRank(ScopeRank(), Rank(sc)) }

  /** The stages of one scope, in order. */
  function Of(s: seq<Stage>, sc: Scope): seq<Stage> { Keep(s, InScope(sc)) }

  /** The built-in stages first, then the ones the application adds. */
  function Configured(compactor: Option<Stage>, selector: Option<Stage>, stages: seq<Stage>): seq<Stage> {
    (if compactor.Some? then [compactor.value] else []) + (if selector.Some? then [selector.value] else []) + stages
  }

  /** The configured stages in scope order, the configured order kept within each scope. */
  function StepChain(compactor: Option<Stage>, selector: Option<Stage>, stages: seq<Stage>): seq<Stage> {
    ByScope(Configured(compactor, selector, stages))
  }

  /** The stable sort by scope. */
  function ByScope(s: seq<Stage>): seq<Stage> { ByRank(s, ScopeRank(), 3) }

  lemma ScopeParts(s: seq<Stage>)
    ensures ByScope(s) == Of(s, Session) + Of(s, Turn) + Of(s, Request)
  {
    hide Keep;
    assert ByRank(s, ScopeRank(), 0) == [];
    assert ByRank(s, ScopeRank(), 1) == Of(s, Session);
    assert ByRank(s, ScopeRank(), 2) == Of(s, Session) + Of(s, Turn);
  }

  ghost predicate AllOf(s: seq<Stage>, sc: Scope) { forall i :: 0 <= i < |s| ==> s[i].scope == sc }

  lemma OfScope(s: seq<Stage>, sc: Scope)
    ensures AllOf(Of(s, sc), sc)
  {
    var r := Of(s, sc);
    assert forall i :: 0 <= i < |r| ==> InScope(sc)(r[i]);
  }

  /** The chain is the one list that is sorted by scope and keeps the configured order within each scope. */
  lemma ChainIsStableSort(compactor: Option<Stage>, selector: Option<Stage>, stages: seq<Stage>, t: seq<Stage>)
    ensures var all := Configured(compactor, selector, stages);
            t == StepChain(compactor, selector, stages) <==>
              Sorted(t, ScopeRank()) && forall sc: Scope :: Of(t, sc) == Of(all, sc)
  {
    var all := Configured(compactor, selector, stages);
    hide Keep, ByRank, HasRank, Configured;
    StableSort(all, t, ScopeRank(), 3);
    assert Below(t, ScopeRank(), 3);
    assert Rank(Session) == 0 && Rank(Turn) == 1 && Rank(Request) == 2;
    if forall sc: Scope :: Of(t, sc) == Of(all, sc) {
      assert Of(t, Session) == Of(all, Session) && Of(t, Turn) == Of(all, Turn) && Of(t, Request) == Of(all, Request);
      forall r: nat | r < 3 ensures Keep(t, HasRank(ScopeRank(), r)) == Keep(all, HasRank(ScopeRank(), r)) {
        var sc := if r == 0 then Session else if r == 1 then Turn else Request;
        assert Of(t, sc) == Of(all, sc);
      }
    }
    if t == StepChain(compactor, selector, stages) {
      forall sc: Scope ensures Of(t, sc) == Of(all, sc) {
        assert Keep(t, HasRank(ScopeRank(), Rank(sc))) == Keep(all, HasRank(ScopeRank(), Rank(sc)));
      }
    }
  }

  // ---------------------------------------------------------------- scoping

  /** A chain taken up where another left off. */
  function Onward(r: Result<Chained>, chain: seq<Stage>, info: StepInfo): Result<Chained> {
    match r
    case Err(e) => Err(e)
    case Ok(m) => RunChain(chain, info, m)
  }

  lemma {:induction false} ChainAppend(a: seq<Stage>, b: seq<Stage>, info: StepInfo, c: Chained)
    ensures RunChain(a + b, info, c) == Onward(RunChain(a, info, c), b, info)
  {
    if b == [] {
      assert a + b == a;
    } else {
      ChainAppend(a, b[..|b| - 1], info, c);
      assert (a + b)[..|a + b| - 1] == a + b[..|b| - 1];
    }
  }

  /** What session and turn stages cannot touch. */
  predicate Untouched(c: Chained, tools: seq<string>, guided: Option<int>, gen: int) {
    && c.view.messages == c.working && c.view.tools == tools
    && c.view.provider == None && c.view.providerName == ""
    && c.view.guided == guided && c.view.generation == gen
  }

  lemma {:induction false} LongLivedChain(chain: seq<Stage>, info: StepInfo, c: Chained,
                                          tools: seq<string>, guided: Option<int>, gen: int)
    requires (forall i :: 0 <= i < |chain| ==> chain[i].scope != Request) && Untouched(c, tools, guided, gen)
    ensures RunChain(chain, info, c).Ok? ==> Untouched(RunChain(chain, info, c).value, tools, guided, gen)
  {
    hide Extends;
    if chain != [] {
      LongLivedChain(chain[..|chain| - 1], info, c, tools, guided, gen);
    }
  }

  lemma {:induction false} RequestChain(chain: seq<Stage>, info: StepInfo, c: Chained)
    requires AllOf(chain, Request)
    ensures RunChain(chain, info, c).Ok? ==>
              RunChain(chain, info, c).value.working == c.working && RunChain(chain, info, c).value.recorded == c.recorded
  {
    if chain != [] {
      RequestChain(chain[..|chain| - 1], info, c);
    }
  }

  lemma {:induction false} TurnChain(chain: seq<Stage>, info: StepInfo, c: Chained)
    requires AllOf(chain, Turn)
    ensures RunChain(chain, info, c).Ok? ==> RunChain(chain, info, c).value.recorded == c.recorded
  {
    hide Extends;
    if chain != [] {
      TurnChain(chain[..|chain| - 1], info, c);
    }
  }

  lemma SameAllTransitive(a: seq<Message>, b: seq<Message>, c: seq<Message>)
    requires SameAll(a, b) && SameAll(b, c)
    ensures SameAll(a, c)
  {
  }

  lemma SameAllAppend(a: seq<Message>, b: seq<Message>, x: seq<Message>, y: seq<Message>)
    requires SameAll(a, b) && SameAll(x, y)
    ensures SameAll(a + x, b + y)
  {
  }

  /** After session stages the working messages are the given ones followed by the record, message for
      message as far as SameMessage tells. */
  lemma {:induction false} SessionChain(chain: seq<Stage>, info: StepInfo, c: Chained)
    requires AllOf(chain, Session) && c.view.messages == c.working && c.recorded == []
    ensures var r := RunChain(chain, info, c);
            r.Ok? ==> r.value.view.messages == r.value.working && SameAll(r.value.working, c.working + r.value.recorded)
  {
    if chain == [] {
      assert c.working + [] == c.working;
    } else {
      SessionChain(chain[..|chain| - 1], info, c);
      var r := RunChain(chain, info, c);
      if r.Ok? { SessionStep(chain[|chain| - 1], info, RunChain(chain[..|chain| - 1], info, c).value, c.working); }
    }
  }

  lemma SessionStep(st: Stage, info: StepInfo, b: Chained, given: seq<Message>)
    requires st.scope == Session && RunStage(st, info, b).Ok?
    requires b.view.messages == b.working && SameAll(b.working, given + b.recorded)
    ensures var d := RunStage(st, info, b).value;
            d.view.messages == d.working && SameAll(d.working, given + d.recorded)
  {
    var d := RunStage(st, info, b).value;
    var n := |b.working|;
    var extra := d.working[n..];
    assert d.working == d.working[..n] + extra;
    SameAllTransitive(d.working[..n], b.working, given + b.recorded);
    SameAllAppend(d.working[..n], given + b.recorded, extra, extra);
    assert given + b.recorded + extra == given + (b.recorded + extra);
  }

  /** Stage scoping, for any configured order. The working messages and the record come from the session and
      turn stages alone; those leave the tools, provider, grammar and parameters as the turn set them; the view
      sent is what the request stages make of the working messages; and the record is what session stages
      appended. */
  lemma Scoping(stages: seq<Stage>, info: StepInfo, working: seq<Message>, tools: seq<string>, guided: Option<int>, gen: int)
    ensures var start := Start(working, tools, guided, gen);
            var long := RunChain(Of(stages, Session) + Of(stages, Turn), info, start);
            var all := RunChain(ByScope(stages), info, start);
            all == Onward(long, Of(stages, Request), info)
    ensures var start := Start(working, tools, guided, gen);
            var long := RunChain(Of(stages, Session) + Of(stages, Turn), info, start);
            var all := RunChain(ByScope(stages), info, start);
            all.Ok? ==>
              && long.Ok? && Untouched(long.value, tools, guided, gen)
              && all.value.working == long.value.working && all.value.recorded == long.value.recorded
    ensures var start := Start(working, tools, guided, gen);
            var first := RunChain(Of(stages, Session), info, start);
            var all := RunChain(ByScope(stages), info, start);
            all.Ok? ==>
              && first.Ok? && all.value.recorded == first.value.recorded
              && SameAll(first.value.working, working + all.value.recorded)
  {
    ScopeParts(stages);
    hide Of, RunChain, ByScope;
    var start := Start(working, tools, guided, gen);
    var S, T, R := Of(stages, Session), Of(stages, Turn), Of(stages, Request);
    OfScope(stages, Session);
    OfScope(stages, Turn);
    OfScope(stages, Request);
    ChainAppend(S + T, R, info, start);
    ChainAppend(S, T, info, start);
    SessionChain(S, info, start);
    LongLivedChain(S + T, info, start, tools, guided, gen);
    if RunChain(S, info, start).Ok? { TurnChain(T, info, RunChain(S, info, start).value); }
    if RunChain(S + T, info, start).Ok? { RequestChain(R, info, RunChain(S + T, info, start).value); }
  }

  /** So two configurations that agree on session and turn stages carry the same messages to the next step and
      record the same, whatever their request stages do and wherever they stand. */
  lemma RequestStagesLeaveNoTrace(a: seq<Stage>, b: seq<Stage>, info: StepInfo, start: Chained)
    requires Of(a, Session) == Of(b, Session) && Of(a, Turn) == Of(b, Turn)
    requires start == Start(start.working, start.view.tools, start.view.guided, start.view.generation)
    requires RunChain(ByScope(a), info, start).Ok? && RunChain(ByScope(b), info, start).Ok?
    ensures RunChain(ByScope(a), info, start).value.working == RunChain(ByScope(b), info, start).value.working
    ensures RunChain(ByScope(a), info, start).value.recorded == RunChain(ByScope(b), info, start).value.recorded
  {
    hide Of, RunChain, ByScope;
    Scoping(a, info, start.working, start.view.tools, start.view.guided, start.view.generation);
    Scoping(b, info, start.working, start.view.tools, start.view.guided, start.view.generation);
  }

  // ---------------------------------------------------------------- what append-only means

  /** ms with the id of the first call of message i lengthened. */
  function Renamed(ms: seq<Message>, i: nat): seq<Message>
    requires i < |ms| && ms[i].toolCalls != []
  {
    var calls := ms[i].toolCalls;
    ms[i := ms[i].(toolCalls := calls[0 := calls[0].(id := calls[0].id + "'")])]
  }

  /** A session stage that puts out in place of everything it was given. */
  function Replacing(out: seq<Message>): Stage {
    Stage("s", Session, (i: StepInfo, v: View) => Ok(v.(messages := out)))
  }

  lemma RenamedIsNoAppend(ms: seq<Message>, i: nat)
    requires i < |ms| && ms[i].toolCalls != []
    ensures Extends(Renamed(ms, i), ms) && !(SeeAll(ms) <= SeeAll(Renamed(ms, i)))
  {
    var out := Renamed(ms, i);
    assert out[..|ms|] == out;
    assert SeeAll(out)[i].calls[0].id != SeeAll(ms)[i].calls[0].id;
  }

  lemma AppendsWithoutCalls(out: seq<Message>, ms: seq<Message>)
    requires Extends(out, ms) && forall m :: m in ms ==> m.toolCalls == []
    ensures SeeAll(ms) <= SeeAll(out)
  {
    forall i | 0 <= i < |ms| ensures SeeAll(out)[i] == SeeAll(ms)[i] {
      assert SameMessage(out[..|ms|][i], ms[i]) && ms[i] in ms;
    }
  }

  /** "A session stage may only append" is checked by Extends, which compares tool calls by their number. So everything
      the check lets through was only appended to, as the model sees it, exactly when the messages given hold no tool
      calls. */
  lemma AppendOnlyIffNoCalls(ms: seq<Message>)
    ensures (forall out :: Extends(out, ms) ==> SeeAll(ms) <= SeeAll(out)) <==> (forall m :: m in ms ==> m.toolCalls == [])
  {
    if forall m :: m in ms ==> m.toolCalls == [] {
      forall out | Extends(out, ms) ensures SeeAll(ms) <= SeeAll(out) { AppendsWithoutCalls(out, ms); }
    } else {
      var m :| m in ms && m.toolCalls != [];
      var i :| 0 <= i < |ms| && ms[i] == m;
      RenamedIsNoAppend(ms, i);
    }
  }

  /** Wherever there is a call, a session stage that renames it passes, records nothing, and the model then sees the
      renamed call. */
  lemma RenamingPasses(info: StepInfo, ms: seq<Message>, i: nat, tools: seq<string>, guided: Option<int>, gen: int)
    requires i < |ms| && ms[i].toolCalls != []
    ensures var r := RunStage(Replacing(Renamed(ms, i)), info, Start(ms, tools, guided, gen));
            && r.Ok? && r.value.working == r.value.view.messages == Renamed(ms, i) && r.value.recorded == []
            && !(SeeAll(ms) <= SeeAll(r.value.working))
  {
    RenamedIsNoAppend(ms, i);
    var out := Renamed(ms, i);
    assert out[|ms|..] == [];
    hide Extends, SeeAll;
  }
}
