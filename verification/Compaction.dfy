/** The compactor that replaces the head of an over-budget conversation with one summary message, and the
stage that runs it before every step. Summarizing is a model call, so it is a parameter here. */
module Compaction {
  import opened Wrappers
  import opened Messages
  import opened Pairing
  import opened Sorting
  import opened StepStages

  const DEFAULT_KEEP := 6
  const DEFAULT_CHARS_PER_TOKEN := 4

  datatype Compactor = Compactor(estimate: seq<Message> -> int, maxTokens: int, keepRecent: int,
                                 summarize: seq<Message> -> Result<string>)
  {
    function Keep(): nat { if keepRecent <= 0 then DEFAULT_KEEP else keepRecent }
    predicate Fits(ms: seq<Message>) { estimate(ms) <= maxTokens }
  }

  type Selector = (seq<Message>, seq<string>) -> Result<seq<string>>

  // ---------------------------------------------------------------- the default estimator

  function CallChars(cs: seq<ToolCall>): nat {
    if cs == [] then 0 else CallChars(cs[..|cs| - 1]) + |cs[|cs| - 1].args|
  }

  function Chars(ms: seq<Message>): nat {
    if ms == [] then 0
    else var m := ms[|ms| - 1]; Chars(ms[..|ms| - 1]) + |m.text| + CallChars(m.toolCalls)
  }

  method CharEstimate(charsPerToken: int, ms: seq<Message>) returns (tokens: nat)
    ensures tokens == Chars(ms) / (if charsPerToken <= 0 then 4 else charsPerToken)
  {
    hide Chars;
    var per := if charsPerToken <= 0 then DEFAULT_CHARS_PER_TOKEN else charsPerToken;
    var chars := CountChars(ms);
    tokens := chars / per;
  }

  method CountChars(ms: seq<Message>) returns (chars: nat)
    ensures chars == Chars(ms)
  {
    chars := 0;
    assert Chars([]) == 0 && ms[..0] == [];
    hide CallChars, Chars;
    for i := 0 to |ms|
      invariant chars == Chars(ms[..i])
    {
      CharsBack(ms, i);
      var args := CountArgs(ms[i].toolCalls);
      chars := chars + |ms[i].text| + args;
    }
    assert ms[..|ms|] == ms;
  }

  lemma CharsBack(ms: seq<Message>, i: nat)
    requires i < |ms|
    ensures Chars(ms[..i + 1]) == Chars(ms[..i]) + |ms[i].text| + CallChars(ms[i].toolCalls)
  {
    hide CallChars;
    assert ms[..i + 1][..i] == ms[..i];
  }

  method CountArgs(cs: seq<ToolCall>) returns (chars: nat)
    ensures chars == CallChars(cs)
  {
    chars := 0;
    for j := 0 to |cs|
      invariant chars == CallChars(cs[..j])
    {
      assert cs[..j + 1][..j] == cs[..j];
      chars := chars + |cs[j].args|;
    }
    assert cs[..|cs|] == cs;
  }

  /** More messages never estimate fewer tokens. */
  lemma {:induction false} EstimateIsMonotonic(a: seq<Message>, b: seq<Message>, per: nat)
    requires per > 0
    ensures Chars(a) <= Chars(a + b) && Chars(a) / per <= Chars(a + b) / per
  {
    if b == [] {
      assert a + b == a;
    } else {
      EstimateIsMonotonic(a, b[..|b| - 1], per);
      assert (a + b)[..|a + b| - 1] == a + b[..|b| - 1];
      DivideKeepsOrder(Chars(a), Chars(a + b), per);
    }
  }

  /** What is counted: the text of each message and the arguments of its calls, and nothing else. */
  lemma CharsAddUp(a: seq<Message>, m: Message, calls: seq<ToolCall>, call: ToolCall)
    ensures Chars([]) == 0 && Chars([m.(toolCalls := [])]) == |m.text|
    ensures Chars([m.(toolCalls := calls + [call])]) == Chars([m.(toolCalls := calls)]) + |call.args|
    ensures Chars(a + [m]) == Chars(a) + Chars([m])
  {
    assert (a + [m])[..|a|] == a && (calls + [call])[..|calls|] == calls;
    assert forall k: Message :: [k][..0] == [];
    assert Chars([]) == 0;
    assert forall k: Message :: Chars([k]) == |k.text| + CallChars(k.toolCalls);
  }

  lemma DivideKeepsOrder(x: nat, y: nat, per: nat)
    requires per > 0 && x <= y
    ensures x / per <= y / per
  {
    var q, r := x / per, y / per;
    assert q * per <= x && y < r * per + per;
    if r < q { Scale(r + 1, q, per); }
  }

  lemma Scale(a: nat, b: nat, per: nat)
    requires a <= b
    ensures a * per <= b * per
  {
  }

  // ---------------------------------------------------------------- compacting

  /** The cut pulled earlier until the tail starts on a message that is not a tool result. */
  function PullBack(h: seq<Message>, cut: int): (r: int)
    requires cut < |h|
    ensures r <= cut && (0 < r ==> h[r].role != TOOL)
    ensures forall j :: r < j <= cut && 0 < j ==> h[j].role == TOOL
    decreases if cut < 0 then 0 else cut
  {
    if cut > 0 && h[cut].role == TOOL then PullBack(h, cut - 1) else cut
  }

  function Compacted(c: Compactor, h: seq<Message>): Result<seq<Message>> {
    if c.Fits(h) then Ok(h)
    else
      var cut := PullBack(h, |h| - c.Keep());
      if cut <= 0 then Ok(h)
      else match c.summarize(h[..cut])
        case Err(e) => Err(e)
        case Ok(s) => Ok([Note(SYSTEM, s)] + h[cut..])
  }

  method Compact(c: Compactor, history: seq<Message>) returns (r: Result<seq<Message>>)
    ensures r == Compacted(c, history)
  {
    if c.estimate(history) <= c.maxTokens { return Ok(history); }
    var cut := |history| - c.Keep();
    while cut > 0 && history[cut].role == TOOL
      invariant cut < |history| && PullBack(history, cut) == PullBack(history, |history| - c.Keep())
    {
      cut := cut - 1;
    }
    if cut <= 0 { return Ok(history); }
    var head, tail := history[..cut], history[cut..];
    match c.summarize(head) {
      case Err(e) => return Err(e);
      case Ok(s) => return Ok([Note(SYSTEM, s)] + tail);
    }
  }

  /** Where a history may be cut: before the last KeepRecent messages, six unless configured, and then at the last
      message that is not a tool result. */
  ghost predicate CutsAt(c: Compactor, h: seq<Message>, cut: nat) {
    var latest := |h| - (if c.keepRecent <= 0 then 6 else c.keepRecent);
    0 < cut <= latest && h[cut].role != TOOL && forall j :: cut < j <= latest ==> h[j].role == TOOL
  }

  /** Over budget, everything before the cut is summarized, and a failure to summarize it is the only failure; within the
      budget, or without a place to cut, the history stays. */
  lemma CompactsTheHead(c: Compactor, h: seq<Message>)
    ensures c.estimate(h) <= c.maxTokens || (forall cut: nat :: !CutsAt(c, h, cut)) ==> Compacted(c, h) == Ok(h)
    ensures forall cut: nat :: c.estimate(h) > c.maxTokens && CutsAt(c, h, cut) ==>
              match c.summarize(h[..cut])
              case Err(e) => Compacted(c, h) == Err(e)
              case Ok(s) => Compacted(c, h) == Ok([Note(SYSTEM, s)] + h[cut..])
  {
    var at := PullBack(h, |h| - c.Keep());
    assert at > 0 ==> CutsAt(c, h, at);
    assert forall cut: nat :: CutsAt(c, h, cut) ==> at == cut;
    hide PullBack, CutsAt;
  }

  /** A compaction is the history, or one message that summarizes the head and a verbatim tail that holds at least the
      last KeepRecent messages: head and tail make up the history. It never parts a request from its results. */
  lemma CompactionShape(c: Compactor, h: seq<Message>, out: seq<Message>)
    requires Compacted(c, h) == Ok(out)
    ensures out == h || (
              && c.estimate(h) > c.maxTokens
              && |out| >= 1 + (if c.keepRecent <= 0 then 6 else c.keepRecent)
              && |out| <= |h| && out[1..] == h[|h| - |out| + 1..]
              && out[0] == Note(SYSTEM, out[0].text) && c.summarize(h[..|h| - |out| + 1]) == Ok(out[0].text))
    ensures Paired(h) ==> Paired(out)
  {
    hide Paired, Compacted, PullBack;
    if out != h {
      var s := CompactedForm(c, h, out);
      var cut := PullBack(h, |h| - c.Keep());
      if Paired(h) { SummaryPaired(h, cut, Note(SYSTEM, s)); }
      SplitAt(c, h, cut, s, out);
    }
  }

  lemma SplitAt(c: Compactor, h: seq<Message>, cut: nat, s: string, out: seq<Message>)
    requires cut < |h| && out == [Note(SYSTEM, s)] + h[cut..] && c.summarize(h[..cut]) == Ok(s)
    ensures 1 <= |out| == 1 + |h| - cut && out[0] == Note(SYSTEM, s) && out[1..] == h[|h| - |out| + 1..]
    ensures cut > 0 ==> c.summarize(h[..|h| - |out| + 1]) == Ok(out[0].text)
  {
    assert |h| - |out| + 1 == cut;
  }

  /** A compaction that changes the history is a summary and the tail from the cut on. */
  lemma CompactedForm(c: Compactor, h: seq<Message>, out: seq<Message>) returns (s: string)
    requires Compacted(c, h) == Ok(out) && out != h
    ensures c.estimate(h) > c.maxTokens
    ensures var cut := PullBack(h, |h| - c.Keep());
            0 < cut && c.summarize(h[..cut]) == Ok(s) && out == [Note(SYSTEM, s)] + h[cut..]
  {
    hide PullBack;
    s := c.summarize(h[..PullBack(h, |h| - c.Keep())]).value;
  }

  lemma SummaryPaired(h: seq<Message>, cut: int, summary: Message)
    requires Paired(h) && 0 <= cut < |h| && h[cut].role != TOOL && Plain(summary)
    ensures Paired([summary] + h[cut..])
  {
    hide Paired;
    PairedTail(h, cut);
    PlainIsPaired(summary);
    PairedAppend([summary], h[cut..]);
  }

  /** Compaction as a stage. A result of the same length is thrown away, and from the second step on messages
      that still do not fit end the turn. */
  function RunCompaction(c: Compactor, info: StepInfo, v: View): Result<View> {
    match Compacted(c, v.messages)
    case Err(e) => Err(e)
    case Ok(ms) =>
      var w := if |ms| != |v.messages| then v.(messages := ms) else v;
      if info.step > 1 && !c.Fits(w.messages) then Err(ContextBudget) else Ok(w)
  }

  function CompactionStage(c: Compactor): Stage {
    Stage("agent.compaction", Turn, (info: StepInfo, v: View) => RunCompaction(c, info, v))
  }

  /** The stage changes nothing but the messages, and those only by making them fewer: a cut of one message is
      as long as what it replaces, so the smallest compaction that takes effect drops two messages for one. */
  lemma CompactionOnlyShortens(c: Compactor, info: StepInfo, v: View)
    requires RunCompaction(c, info, v).Ok?
    ensures var w := RunCompaction(c, info, v).value;
            && w == v.(messages := w.messages)
            && (w.messages != v.messages <==> !c.Fits(v.messages) && PullBack(v.messages, |v.messages| - c.Keep()) >= 2)
            && (w.messages != v.messages ==> |w.messages| < |v.messages|)
            && (info.step > 1 ==> c.Fits(w.messages))
            && (Paired(v.messages) ==> Paired(w.messages))
  {
    var ms := Compacted(c, v.messages).value;
    CompactionShape(c, v.messages, ms);
  }

  /** The stage fails with the summarizer's error, or after the first step with the context budget when what is left does
      not fit; and with nothing else. */
  lemma CompactionFails(c: Compactor, info: StepInfo, v: View, e: Error)
    requires RunCompaction(c, info, v) == Err(e)
    ensures c.estimate(v.messages) > c.maxTokens
    ensures (exists cut: nat :: CutsAt(c, v.messages, cut) && c.summarize(v.messages[..cut]) == Err(e)) || (
              && e == ContextBudget && info.step > 1
              && exists ms ::
                   && Compacted(c, v.messages) == Ok(ms)
                   && (|ms| == |v.messages| || c.estimate(ms) > c.maxTokens))
  {
    CompactsTheHead(c, v.messages);
    var r := Compacted(c, v.messages);
    if r.Err? {
      var cut: nat :| CutsAt(c, v.messages, cut);
    }
  }

  // ---------------------------------------------------------------- stages that respect pairing

  /** What a stage may do without breaking tool pairing: it keeps a paired history paired, and what a session
      stage adds to the record takes no part in pairing. */
  predicate Respects(st: Stage, v: View, r: Result<View>) {
    r.Ok? && Paired(v.messages) ==>
      && Paired(r.value.messages)
      && (st.scope == Session && |v.messages| <= |r.value.messages| ==>
            forall i :: |v.messages| <= i < |r.value.messages| ==> Plain(r.value.messages[i]))
  }

  ghost predicate Gentle(st: Stage) {
    forall info: StepInfo, v: View :: Respects(st, v, st.run(info, v))
  }

  lemma CompactionIsGentle(c: Compactor)
    ensures Gentle(CompactionStage(c))
  {
    forall info: StepInfo, v: View ensures Respects(CompactionStage(c), v, CompactionStage(c).run(info, v)) {
      var r := RunCompaction(c, info, v);
      assert CompactionStage(c).run(info, v) == r;
      if r.Ok? { CompactionOnlyShortens(c, info, v); }
    }
  }

  /** RunnerConfig.Selector as a stage: it changes the tools offered and nothing else. */
  function SelectorStage(sel: Selector): Stage {
    Stage("agent.selector", Request, (info: StepInfo, v: View) =>
      match sel(v.messages, v.tools)
      case Err(e) => Err(e)
      case Ok(tools) => Ok(v.(tools := tools)))
  }

  lemma SelectorIsGentle(sel: Selector)
    ensures Gentle(SelectorStage(sel))
    ensures forall info: StepInfo, v: View ::
              match sel(v.messages, v.tools)
              case Err(e) => SelectorStage(sel).run(info, v) == Err(e)
              case Ok(tools) => SelectorStage(sel).run(info, v) == Ok(v.(tools := tools))
  {
    hide Paired;
  }

  ghost predicate AllGentle(s: seq<Stage>) { forall i :: 0 <= i < |s| ==> Gentle(s[i]) }

  /** The chain the runner builds keeps tool pairing if the configured stages do, whatever compactor and selector stand in
      it and whatever the configured order. */
  lemma ConfiguredChainIsGentle(compactor: Option<Compactor>, selector: Option<Selector>,
                                stages: seq<Stage>)
    requires AllGentle(stages)
    ensures AllGentle(ConfiguredChain(compactor, selector, stages))
  {
    if compactor.Some? { CompactionIsGentle(compactor.value); }
    if selector.Some? { SelectorIsGentle(selector.value); }
    hide Gentle, CompactionStage, SelectorStage;
    var all, chain := Configured(CompactorStages(compactor), SelectorStages(selector), stages), ConfiguredChain(compactor, selector, stages);
    assert AllGentle(all);
    forall i | 0 <= i < |chain| ensures Gentle(chain[i]) {
      var k := ByRankFrom(all, ScopeRank(), 3, i);
    }
  }

  /** The chain spelled out: the session stages, the compactor before the other turn stages, and the selector before the
      other request stages, each kind in its configured order. */
  lemma ChainSpelledOut(compactor: Option<Compactor>, selector: Option<Selector>, stages: seq<Stage>)
    ensures ConfiguredChain(compactor, selector, stages) ==
              Of(stages, Session)
              + (if compactor.Some? then [CompactionStage(compactor.value)] else []) + Of(stages, Turn)
              + (if selector.Some? then [SelectorStage(selector.value)] else []) + Of(stages, Request)
  {
    hide *;
    var a, b := ConfiguredParts(compactor, selector, stages);
    var all := a + b + stages;
    ScopeParts(all);
    BuiltInsFirst(a, b, stages);
    assert Of(all, Session) + Of(all, Turn) + Of(all, Request)
        == Of(stages, Session) + a + Of(stages, Turn) + b + Of(stages, Request);
  }

  lemma ConfiguredParts(compactor: Option<Compactor>, selector: Option<Selector>, stages: seq<Stage>)
    returns (a: seq<Stage>, b: seq<Stage>)
    ensures a == (if compactor.Some? then [CompactionStage(compactor.value)] else []) && AllOf(a, Turn)
    ensures b == (if selector.Some? then [SelectorStage(selector.value)] else []) && AllOf(b, Request)
    ensures ConfiguredChain(compactor, selector, stages) == ByScope(a + b + stages)
  {
    hide ByScope;
    a := if compactor.Some? then [CompactionStage(compactor.value)] else [];
    b := if selector.Some? then [SelectorStage(selector.value)] else [];
  }

  lemma BuiltInsFirst(a: seq<Stage>, b: seq<Stage>, stages: seq<Stage>)
    requires AllOf(a, Turn) && AllOf(b, Request)
    ensures Of(a + b + stages, Session) == Of(stages, Session)
    ensures Of(a + b + stages, Turn) == a + Of(stages, Turn)
    ensures Of(a + b + stages, Request) == b + Of(stages, Request)
  {
    hide Keep;
    forall sc: Scope
      ensures Of(a + b + stages, sc) == (if sc == Turn then a else []) + (if sc == Request then b else []) + Of(stages, sc)
    {
      KeepAppend(a + b, stages, InScope(sc));
      KeepAppend(a, b, InScope(sc));
      OnlyScope(a, Turn, sc);
      OnlyScope(b, Request, sc);
    }
  }

  lemma OnlyScope(s: seq<Stage>, own: Scope, sc: Scope)
    requires AllOf(s, own)
    ensures Of(s, sc) == if sc == own then s else []
  {
    hide Keep;
    if sc == own { KeepAll(s, InScope(sc)); } else { KeepNone(s, InScope(sc)); }
  }

  function CompactorStages(compactor: Option<Compactor>): Option<Stage> {
    if compactor.Some? then Some(CompactionStage(compactor.value)) else None
  }

  function SelectorStages(selector: Option<Selector>): Option<Stage> {
    if selector.Some? then Some(SelectorStage(selector.value)) else None
  }

  function ConfiguredChain(compactor: Option<Compactor>, selector: Option<Selector>,
                           stages: seq<Stage>): seq<Stage>
  {
    StepChain(CompactorStages(compactor), SelectorStages(selector), stages)
  }

  /** A stage that adds one system note, or none: the step budget and stuck notes are such stages. */
  function NoteStage(name: string, scope: Scope, text: (StepInfo, View) -> Option<string>): Stage {
    Stage(name, scope, (info: StepInfo, v: View) =>
      match text(info, v)
      case None => Ok(v)
      case Some(t) => Ok(v.(messages := v.messages + [Note(SYSTEM, t)])))
  }

  lemma NoteStageIsGentle(name: string, scope: Scope, text: (StepInfo, View) -> Option<string>)
    ensures Gentle(NoteStage(name, scope, text))
  {
    var st := NoteStage(name, scope, text);
    forall info: StepInfo, v: View ensures Respects(st, v, st.run(info, v)) {
      if Paired(v.messages) && text(info, v).Some? {
        var n := Note(SYSTEM, text(info, v).value);
        PlainIsPaired(n);
        PairedAppend(v.messages, [n]);
      }
    }
  }

  /** StepBudgetStage: the note appears once at most w steps are left, w being a quarter of the cap and at
      least three unless configured. */
  function StepBudgetNote(within: int, info: StepInfo): Option<string> {
    var quarter := info.maxSteps / 4;
    var w := if within <= 0 then (if quarter > 3 then quarter else 3) else within;
    var left := info.maxSteps - info.step;
    if left > w then None else if left == 0 then Some("last step") else Some("steps left")
  }

  function StepBudgetText(within: int): (StepInfo, View) -> Option<string> {
    (info: StepInfo, v: View) => StepBudgetNote(within, info)
  }

  function StepBudgetStage(within: int): Stage {
    NoteStage("agent.step_budget", Request, StepBudgetText(within))
  }

  /** The step budget keeps tool pairing: it appends one system note, or nothing while more steps are left than it warns
      of. Once its note appears it appears at every later step, and the last step is always told that it is the last. */
  lemma StepBudgetWarns(within: int, info: StepInfo, later: StepInfo)
    requires info.maxSteps == later.maxSteps && info.step <= later.step <= later.maxSteps
    ensures Gentle(StepBudgetStage(within))
    ensures var warned := if within > 0 then within else if info.maxSteps >= 16 then info.maxSteps / 4 else 3;
            forall v: View :: StepBudgetStage(within).run(info, v) ==
              if info.maxSteps - info.step > warned then Ok(v)
              else
                var text := if info.step == info.maxSteps then "last step" else "steps left";
                Ok(v.(messages := v.messages + [Note(SYSTEM, text)]))
    ensures StepBudgetNote(within, info).Some? ==> StepBudgetNote(within, later).Some?
    ensures StepBudgetNote(within, later) == Some("last step") <==> later.step == later.maxSteps
  {
    NoteStageIsGentle("agent.step_budget", Request, StepBudgetText(within));
    hide Gentle;
    assert "last step"[0] != "steps left"[0] || |"last step"| != |"steps left"|;
  }

  lemma {:induction false} ChainKeepsPairing(chain: seq<Stage>, info: StepInfo, c: Chained)
    requires forall i :: 0 <= i < |chain| ==> Gentle(chain[i])
    requires Paired(c.working) && Paired(c.view.messages) && forall m :: m in c.recorded ==> Plain(m)
    ensures var r := RunChain(chain, info, c);
            r.Ok? ==> Paired(r.value.working) && Paired(r.value.view.messages) && forall m :: m in r.value.recorded ==> Plain(m)
  {
    if chain != [] {
      hide Paired, Extends;
      var front, st := chain[..|chain| - 1], chain[|chain| - 1];
      ChainKeepsPairing(front, info, c);
      var b := RunChain(front, info, c);
      if b.Ok? {
        assert Gentle(st);
        assert Respects(st, b.value.view, st.run(info, b.value.view));
        if RunStage(st, info, b.value).Ok? && st.scope == Session {
          ExtendsLonger(st.run(info, b.value.view).value.messages, b.value.view.messages);
        }
      }
    }
  }
}
