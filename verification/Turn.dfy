/** The turn machine: a bounded loop of stage chain, model call, tool calls and their results.

Everything outside the loop is arbitrary: the environment says, as functions of the step, what the stages,
the model, the hooks and the budgets do, and how the tool calls of a step are scheduled; their results and signals are
then those of that run of Dispatch. The loop keeps two logs, the working messages the model
is shown and the record the caller keeps, and counts usage in total and per provider name. */
module Turn {
  import opened Wrappers
  import opened Messages
  import opened Pairing
  import opened StepStages
  import opened Compaction
  import Dispatch

  // ---------------------------------------------------------------- usage

  const ZERO := Usage(0, 0, 0)

  function Plus(a: Usage, b: Usage): Usage { Usage(a.input + b.input, a.output + b.output, a.cached + b.cached) }

  function OrZero(u: Option<Usage>): Usage { if u.Some? then u.value else ZERO }

  type ByModel = map<string, Usage>

  /** A named step counts as named even without usage. */
  function Credit(m: ByModel, name: string, u: Usage): ByModel {
    m[name := Plus(if name in m then m[name] else ZERO, u)]
  }

  /** The per-name usage reported: none unless some step was named. */
  function Named(m: ByModel): Option<ByModel> {
    if exists name :: name in m && name != "" then Some(m) else None
  }

  ghost function Total(m: ByModel): Usage
    decreases |m|
  {
    if m == map[] then ZERO
    else var k :| k in m; assert |m - {k}| < |m| by { SmallerMap(m, k); } Plus(m[k], Total(m - {k}))
  }

  lemma SmallerMap(m: ByModel, k: string)
    requires k in m
    ensures |m - {k}| == |m| - 1
  {
    assert (m - {k}).Keys == m.Keys - {k};
  }

  lemma {:induction false} TotalTakeOut(m: ByModel, k: string)
    requires k in m
    ensures Total(m) == Plus(m[k], Total(m - {k}))
    decreases |m|
  {
    var c :| c in m && Total(m) == Plus(m[c], Total(m - {c}));
    if c != k {
      SmallerMap(m, c);
      SmallerMap(m, k);
      var mc, mk := m - {c}, m - {k};
      TotalTakeOut(mc, k);
      TotalTakeOut(mk, c);
      assert mc[k] == m[k] && mk[c] == m[c];
      assert mc - {k} == mk - {c};
      assert Total(m) == Plus(m[c], Plus(m[k], Total(mc - {k})));
    }
  }

  lemma TotalCredit(m: ByModel, name: string, u: Usage)
    ensures Total(Credit(m, name, u)) == Plus(Total(m), u)
  {
    var n := Credit(m, name, u);
    TotalTakeOut(n, name);
    if name in m {
      TotalTakeOut(m, name);
      assert n - {name} == m - {name};
    } else {
      assert n - {name} == m;
    }
  }

  // ---------------------------------------------------------------- the environment and the outcome

  datatype Response = Response(text: string, calls: seq<ToolCall>, usage: Option<Usage>, finish: string)

  datatype Verdict = Accept | ContinueWith(text: string, asUser: bool) | StopWith(reason: string)

  datatype Written = Written(text: string, usage: Option<Usage>)

  /** What the hooks at the end of a turn are told: the answer, the free answer it was written from, why a structured
      answer does not match, and the usage and the record so far. */
  datatype EndInfo = EndInfo(text: string, draft: string, invalid: string, usage: Usage, messages: seq<Message>)

  datatype Env = Env(
    maxSteps: nat,
    compactor: Option<Compactor>,
    selector: Option<Selector>,
    stages: seq<Stage>,
    guided: Option<int>,
    generation: int,
    schema: bool,
    budget: nat -> bool,
    listTools: nat -> Result<seq<string>>,
    guidedOk: (nat, View) -> bool,
    model: (nat, View) -> Result<Response>,
    guide: (nat, seq<Message>) -> Result<Written>,
    coerce: (nat, nat, seq<Message>) -> Result<Written>,
    strip: string -> string,
    invalid: string -> string,
    turnEnd: (nat, EndInfo) -> Result<Verdict>,
    join: Dispatch.Config,
    schedule: (nat, seq<ToolCall>) -> seq<Dispatch.Step>,
    cancelled: nat -> bool,
    render: seq<Dispatch.Signal> -> string,
    aborts: seq<Dispatch.Signal> -> bool)
  {
    function Chain(): seq<Stage> { ConfiguredChain(compactor, selector, stages) }
  }

  /** A structured answer, and why it does not match the schema, if it does not. */
  datatype Doc = Doc(text: string, invalid: string)

  datatype TurnResult = TurnResult(
    text: string, messages: seq<Message>, usage: Usage, byModel: Option<ByModel>, steps: nat, finish: string,
    structured: Option<Doc>)

  datatype Exit = MaxStepsReached | OverBudget | Stopped

  /** Broken: an error without a result, or a dispatch that never returns. */
  datatype Outcome = Finished(r: TurnResult) | Partial(r: TurnResult, why: Exit) | Broken

  /** The turn so far. */
  datatype Log = Log(msgs: seq<Message>, added: seq<Message>, usage: Usage, byModel: ByModel, defaultName: string)

  function Both(log: Log, ms: seq<Message>): Log { log.(msgs := log.msgs + ms, added := log.added + ms) }

  function Spend(log: Log, name: string, u: Usage): Log {
    log.(usage := Plus(log.usage, u), byModel := Credit(log.byModel, name, u))
  }

  /** What is known of a turn from outside: that its history is paired and its stages respect pairing, and that
      it has request stages only, so that nothing rewrites its working messages. */
  datatype Context = Context(good: bool, viewOnly: bool, history: seq<Message>)

  ghost predicate Sound(x: Context, log: Log) {
    && (x.good ==> Paired(log.msgs) && Paired(log.added))
    && (x.viewOnly ==> log.msgs == x.history + log.added)
    && Total(log.byModel) == log.usage
  }

  ghost predicate SoundResult(x: Context, r: TurnResult) {
    && (x.good ==> Paired(r.messages))
    && (r.byModel.Some? ==> Total(r.byModel.value) == r.usage)
  }

  ghost predicate AllPaired(x: Context, sent: seq<seq<Message>>) {
    x.good ==> forall i :: 0 <= i < |sent| ==> Paired(sent[i])
  }

  /** What the dispatch of a step's calls returns, if it does. */
  function Joined(env: Env, step: nat, calls: seq<ToolCall>): (r: Option<Dispatch.Main>)
    ensures r.Some? ==> r.value.Returned?
  {
    var (ok, w) := Dispatch.Exec(env.join, calls, env.schedule(step, calls));
    if ok && w.main.Returned? then Some(w.main) else None
  }

  /** One result per call, in call order: that is what dispatch returns with. */
  lemma JoinedAnswers(env: Env, step: nat, calls: seq<ToolCall>)
    requires Joined(env, step, calls).Some?
    ensures Answers(calls, Joined(env, step, calls).value.results)
  {
    hide Dispatch.Exec;
    Dispatch.JoinIsComplete(env.join, calls, env.schedule(step, calls));
  }

  function Results(env: Env, step: nat, calls: seq<ToolCall>): seq<Message> {
    var j := Joined(env, step, calls);
    if j.Some? then j.value.results else []
  }

  /** The request and results a reply gives rise to, if it calls tools. */
  function Round(env: Env, step: nat, resp: Response): seq<Message> {
    if resp.calls == [] then [] else [Reply(resp.text, resp.calls)] + Results(env, step, resp.calls)
  }

  /** The rounds of the first replies of a turn. */
  function Rounds(env: Env, replies: seq<Response>): seq<Message> {
    if replies == [] then []
    else Rounds(env, replies[..|replies| - 1]) + Round(env, |replies|, replies[|replies| - 1])
  }

  /** The finalizing answers of one step: the constrained one, and the attempts at a structured one. */
  datatype Final = Final(guided: Option<Written>, coerced: seq<Written>)

  function UsageOfWritten(ws: seq<Written>): Usage {
    if ws == [] then ZERO else Plus(UsageOfWritten(ws[..|ws| - 1]), OrZero(ws[|ws| - 1].usage))
  }

  function FinalUsage(f: Final): Usage {
    Plus(if f.guided.Some? then OrZero(f.guided.value.usage) else ZERO, UsageOfWritten(f.coerced))
  }

  /** The usage of the replies and of the finalizing answers to each. */
  function UsageOf(replies: seq<Response>, finals: seq<Final>): Usage
    requires |replies| == |finals|
  {
    if replies == [] then ZERO
    else
      var n := |replies| - 1;
      Plus(UsageOf(replies[..n], finals[..n]), Plus(OrZero(replies[n].usage), FinalUsage(finals[n])))
  }

  lemma RoundTraffic(env: Env, step: nat, resp: Response)
    requires resp.calls != [] && Joined(env, step, resp.calls).Some?
    ensures Traffic(Round(env, step, resp)) == Round(env, step, resp) && Paired(Round(env, step, resp))
  {
    hide Paired, Traffic, Joined;
    JoinedAnswers(env, step, resp.calls);
    RoundIsPaired(Reply(resp.text, resp.calls), Results(env, step, resp.calls));
    AllTraffic(Round(env, step, resp));
  }

  /** Both logs grow alike. */
  lemma BothSound(x: Context, log: Log, ms: seq<Message>)
    requires Sound(x, log) && Paired(ms)
    ensures Sound(x, Both(log, ms)) && log.added <= Both(log, ms).added
    ensures Traffic(Both(log, ms).added) == Traffic(log.added) + Traffic(ms)
  {
    hide Paired, Total, Traffic;
    if x.good {
      PairedAppend(log.msgs, ms);
      PairedAppend(log.added, ms);
    }
    TrafficAppend(log.added, ms);
    assert x.history + log.added + ms == x.history + (log.added + ms);
  }

  lemma NoteSound(x: Context, log: Log, m: Message)
    requires Sound(x, log) && Plain(m)
    ensures Sound(x, Both(log, [m])) && log.added <= Both(log, [m]).added
    ensures Traffic(Both(log, [m]).added) == Traffic(log.added)
  {
    hide Total, Sound;
    PlainIsPaired(m);
    NoTraffic([m]);
    BothSound(x, log, [m]);
  }

  lemma SpendSound(x: Context, log: Log, name: string, u: Usage)
    requires Sound(x, log)
    ensures Sound(x, Spend(log, name, u))
  {
    hide Paired;
    TotalCredit(log.byModel, name, u);
  }

  // ---------------------------------------------------------------- leaving early

  ghost predicate NoAnswer(r: TurnResult) { r.text == "" && r.finish == "" && r.structured == None }

  /** The record does not end with a request. */
  ghost predicate Closed(log: Log) { log.added == [] || !Requests(log.added[|log.added| - 1]) }

  /** The result of a turn that ends without an answer: its record and usage. */
  ghost function Unanswered(log: Log, steps: nat): TurnResult {
    TurnResult("", log.added, log.usage, Named(log.byModel), steps, "", None)
  }

  method PartialResult(log: Log, steps: nat, why: Exit, ghost x: Context) returns (o: Outcome)
    requires Sound(x, log)
    ensures o.Partial? && o.why == why && o.r.steps == steps && o.r.usage == log.usage && NoAnswer(o.r)
    ensures SoundResult(x, o.r) && (x.good ==> o.r.messages == log.added)
    ensures Closed(log) ==> o == Partial(Unanswered(log, steps), why)
  {
    var msgs := DropUnanswered(log.added);
    o := Partial(TurnResult("", msgs, log.usage, Named(log.byModel), steps, "", None), why);
  }

  // ---------------------------------------------------------------- the end of a turn

  const STRUCTURED_ATTEMPTS := 2

  /** The document a coerced answer gives, and what is wrong with it. */
  function DocOf(env: Env, w: Written): Doc { Doc(env.strip(w.text), env.invalid(env.strip(w.text))) }

  /** The correction that follows a document that does not match. */
  function Correction(env: Env, w: Written): seq<Message> { [Reply(w.text, []), Note(USER, DocOf(env, w).invalid)] }

  /** The attempts at a structured answer: each but the last was answered with a document that does not match, and the
      next request is the same with that answer and its correction added. */
  ghost predicate Attempts(env: Env, step: nat, msgs0: seq<Message>, sent: seq<seq<Message>>, replies: seq<Written>) {
    && |replies| <= |sent| <= |replies| + 1 && (sent != [] ==> sent[0] == msgs0)
    && (forall i :: 0 <= i < |replies| ==> env.coerce(step, i, sent[i]) == Ok(replies[i]))
    && (forall i :: 0 <= i < |sent| - 1 ==>
          DocOf(env, replies[i]).invalid != "" && sent[i + 1] == sent[i] + Correction(env, replies[i]))
  }

  /** Between two attempts: the next request, the usage so far and the last document are those of the attempts made. */
  ghost predicate Trying(x: Context, env: Env, step: nat, msgs0: seq<Message>, sent: seq<seq<Message>>,
                         replies: seq<Written>, msgs: seq<Message>, used: Usage, last: Doc)
  {
    && |sent| == |replies| && Attempts(env, step, msgs0, sent, replies) && AllPaired(x, sent) && (x.good ==> Paired(msgs))
    && used == UsageOfWritten(replies) && (sent == [] ==> msgs == msgs0)
    && (sent != [] ==>
          var w := replies[|replies| - 1];
          last == DocOf(env, w) && last.invalid != "" && msgs == sent[|sent| - 1] + Correction(env, w))
  }

  lemma AttemptsSend(env: Env, step: nat, msgs0: seq<Message>, sent: seq<seq<Message>>, replies: seq<Written>, msgs: seq<Message>)
    requires Attempts(env, step, msgs0, sent, replies) && |sent| == |replies|
    requires sent == [] ==> msgs == msgs0
    requires sent != [] ==>
               var w := replies[|replies| - 1];
               DocOf(env, w).invalid != "" && msgs == sent[|sent| - 1] + Correction(env, w)
    ensures Attempts(env, step, msgs0, sent + [msgs], replies)
  {
    hide DocOf, Correction;
  }

  lemma AttemptsReply(env: Env, step: nat, msgs0: seq<Message>, sent: seq<seq<Message>>, replies: seq<Written>, w: Written)
    requires Attempts(env, step, msgs0, sent, replies) && |sent| == |replies| + 1
    requires env.coerce(step, |replies|, sent[|replies|]) == Ok(w)
    ensures Attempts(env, step, msgs0, sent, replies + [w])
  {
    hide DocOf, Correction;
  }

  lemma OneMoreUsage(replies: seq<Written>, w: Written)
    ensures UsageOfWritten(replies + [w]) == Plus(UsageOfWritten(replies), OrZero(w.usage))
  {
    assert (replies + [w])[..|replies|] == replies;
  }

  lemma TrySend(x: Context, env: Env, step: nat, msgs0: seq<Message>, sent: seq<seq<Message>>, replies: seq<Written>,
                msgs: seq<Message>, used: Usage, last: Doc)
    requires Trying(x, env, step, msgs0, sent, replies, msgs, used, last)
    ensures AllPaired(x, sent + [msgs]) && Attempts(env, step, msgs0, sent + [msgs], replies) && |sent| == |replies|
  {
    hide Paired, Attempts, AllPaired, DocOf, Correction, UsageOfWritten;
    AllPairedMore(x, sent, msgs);
    AttemptsSend(env, step, msgs0, sent, replies, msgs);
  }

  lemma TryStart(x: Context, env: Env, step: nat, msgs0: seq<Message>, last: Doc)
    requires x.good ==> Paired(msgs0)
    ensures Trying(x, env, step, msgs0, [], [], msgs0, ZERO, last)
  {
    hide Paired;
  }

  lemma TryEnd(x: Context, env: Env, step: nat, msgs0: seq<Message>, sent: seq<seq<Message>>, replies: seq<Written>,
               msgs: seq<Message>, used: Usage, last: Doc)
    requires Trying(x, env, step, msgs0, sent, replies, msgs, used, last) && sent != []
    ensures AllPaired(x, sent) && Attempts(env, step, msgs0, sent, replies) && used == UsageOfWritten(replies)
    ensures replies != [] && last == DocOf(env, replies[|replies| - 1])
  {
    hide Paired, Attempts, AllPaired, DocOf, Correction, UsageOfWritten;
  }

  lemma TryReply(x: Context, env: Env, step: nat, msgs0: seq<Message>, sent: seq<seq<Message>>, replies: seq<Written>,
                 msgs: seq<Message>, used: Usage, last: Doc, w: Written)
    requires Trying(x, env, step, msgs0, sent, replies, msgs, used, last) && env.coerce(step, |replies|, msgs) == Ok(w)
    ensures Attempts(env, step, msgs0, sent + [msgs], replies + [w])
    ensures UsageOfWritten(replies + [w]) == Plus(used, OrZero(w.usage))
    ensures DocOf(env, w).invalid != "" ==>
              Trying(x, env, step, msgs0, sent + [msgs], replies + [w], msgs + Correction(env, w),
                     Plus(used, OrZero(w.usage)), DocOf(env, w))
  {
    hide Paired, Attempts, AllPaired, DocOf, Correction, UsageOfWritten;
    TrySend(x, env, step, msgs0, sent, replies, msgs, used, last);
    assert (sent + [msgs])[|replies|] == msgs;
    AttemptsReply(env, step, msgs0, sent + [msgs], replies, w);
    OneMoreUsage(replies, w);
    CorrectionPaired(x, env, msgs, w);
  }

  lemma AllPairedMore(x: Context, sent: seq<seq<Message>>, msgs: seq<Message>)
    requires AllPaired(x, sent) && (x.good ==> Paired(msgs))
    ensures AllPaired(x, sent + [msgs])
  {
    hide Paired;
  }

  lemma CorrectionPaired(x: Context, env: Env, msgs: seq<Message>, w: Written)
    requires x.good ==> Paired(msgs)
    ensures x.good ==> Paired(msgs + Correction(env, w))
  {
    hide Paired;
    PlainsArePaired(Correction(env, w));
    if x.good { PairedAppend(msgs, Correction(env, w)); }
  }

  datatype Coerced = Coerced(doc: Doc, usage: Usage)

  /** finalizeStructured: up to two attempts, each one shown what was wrong with the last. The document is that of the last
      answer, matching or not, and the usage is that of all answers; it gives up on a document that does not match only
      after the last attempt. */
  method FinalizeStructured(env: Env, step: nat, msgs0: seq<Message>, ghost x: Context)
    returns (r: Result<Coerced>, ghost sent: seq<seq<Message>>, ghost replies: seq<Written>)
    requires x.good ==> Paired(msgs0)
    ensures AllPaired(x, sent) && 1 <= |sent| <= STRUCTURED_ATTEMPTS
    ensures Attempts(env, step, msgs0, sent, replies)
    ensures r.Ok? ==>
              && |replies| == |sent| && r.value.doc == DocOf(env, replies[|replies| - 1])
              && r.value.usage == UsageOfWritten(replies)
              && (r.value.doc.invalid != "" ==> |replies| == STRUCTURED_ATTEMPTS)
    ensures r.Err? ==> |replies| < |sent| && env.coerce(step, |replies|, sent[|replies|]).Err?
  {
    hide Trying, Attempts, UsageOfWritten, AllPaired, Paired;
    var msgs, used, last := msgs0, ZERO, Doc("", "");
    sent, replies := [], [];
    TryStart(x, env, step, msgs0, last);
    var attempt := 0;
    while attempt < STRUCTURED_ATTEMPTS
      invariant attempt <= STRUCTURED_ATTEMPTS && |sent| == |replies| == attempt
      invariant Trying(x, env, step, msgs0, sent, replies, msgs, used, last)
    {
      TrySend(x, env, step, msgs0, sent, replies, msgs, used, last);
      var resp := env.coerce(step, attempt, msgs);
      if resp.Err? {
        sent := sent + [msgs];
        return Err(resp.error), sent, replies;
      }
      var w := resp.value;
      TryReply(x, env, step, msgs0, sent, replies, msgs, used, last, w);
      sent, replies := sent + [msgs], replies + [w];
      if w.usage.Some? { used := Plus(used, w.usage.value); }
      var text := env.strip(w.text);
      last := Doc(text, env.invalid(text));
      if last.invalid == "" { return Ok(Coerced(last, used)), sent, replies; }
      msgs := msgs + [Reply(w.text, []), Note(USER, last.invalid)];
      attempt := attempt + 1;
    }
    TryEnd(x, env, step, msgs0, sent, replies, msgs, used, last);
    r := Ok(Coerced(last, used));
  }

  // ---------------------------------------------------------------- what finalizing comes to

  /** The text of the answer: the constrained one, if there is one. */
  ghost function Said(resp: Response, f: Final): string { if f.guided.Some? then f.guided.value.text else resp.text }

  /** The document of the answer: that of the last attempt, if the turn has a schema. */
  ghost function DocFor(env: Env, f: Final): Option<Doc> {
    if f.coerced == [] then None else Some(DocOf(env, f.coerced[|f.coerced| - 1]))
  }

  /** The log with the finalizing answers paid for, under the name of the configured provider. */
  ghost function PaidFinal(spent: Log, f: Final): Log {
    var g := if f.guided.Some? then Spend(spent, spent.defaultName, OrZero(f.guided.value.usage)) else spent;
    if f.coerced == [] then g else Spend(g, g.defaultName, UsageOfWritten(f.coerced))
  }

  /** The log once a reply that calls no tools is finalized: both logs end with the answer. */
  ghost function Done(spent: Log, resp: Response, f: Final): Log {
    var last := [Reply(Said(resp, f), [])];
    PaidFinal(spent, f).(msgs := spent.msgs + last, added := spent.added + last)
  }

  /** The constrained answer: asked for exactly when the step has a grammar and offered tools, from what came before the
      free answer. */
  ghost predicate GuidedMade(env: Env, step: nat, view: View, before: seq<Message>, w: Option<Written>) {
    && (w.Some? <==> view.guided.Some? && view.tools != [])
    && (w.Some? ==> env.guide(step, before) == Ok(w.value))
  }

  /** The structured answers: attempts from the conversation with its answer, one unless the first does not match, and
      at most two. */
  ghost predicate CoercedMade(env: Env, step: nat, msgs: seq<Message>, ws: seq<Written>) {
    if !env.schema then ws == []
    else
      && 1 <= |ws| <= 2 && (|ws| == 1 ==> DocOf(env, ws[0]).invalid == "")
      && exists sent :: |sent| == |ws| && Attempts(env, step, msgs, sent, ws)
  }

  ghost predicate FinalsMade(env: Env, step: nat, view: View, before: seq<Message>, resp: Response, f: Final) {
    && GuidedMade(env, step, view, before, f.guided)
    && CoercedMade(env, step, before + [Reply(Said(resp, f), [])], f.coerced)
  }

  ghost predicate CoerceFails(env: Env, step: nat, msgs: seq<Message>, sent: seq<seq<Message>>, ws: seq<Written>) {
    && env.schema && Attempts(env, step, msgs, sent, ws) && |ws| < |sent| <= 2
    && env.coerce(step, |ws|, sent[|ws|]).Err?
  }

  /** A finalizing call that is due fails. */
  ghost predicate FinalsFail(env: Env, step: nat, view: View, before: seq<Message>, resp: Response) {
    || (view.guided.Some? && view.tools != [] && env.guide(step, before).Err?)
    || exists w, sent, ws ::
         && GuidedMade(env, step, view, before, w)
         && CoerceFails(env, step, before + [Reply(Said(resp, Final(w, [])), [])], sent, ws)
  }

  /** Finalizing keeps the log sound; the answer adds no traffic. */
  lemma DoneSound(x: Context, spent: Log, resp: Response, f: Final)
    requires Sound(x, spent)
    ensures var d := Done(spent, resp, f);
            && Sound(x, d) && spent.added <= d.added && Traffic(d.added) == Traffic(spent.added)
            && d.usage == Plus(spent.usage, FinalUsage(f)) && d.defaultName == spent.defaultName
  {
    hide Sound, Traffic, Credit, UsageOfWritten, Paired, OrZero, Plus;
    var u := if f.guided.Some? then OrZero(f.guided.value.usage) else ZERO;
    SpendSound(x, spent, spent.defaultName, u);
    var g := if f.guided.Some? then Spend(spent, spent.defaultName, u) else spent;
    SpendSound(x, g, g.defaultName, UsageOfWritten(f.coerced));
    PlusAgain(spent.usage, u, UsageOfWritten(f.coerced));
    PlusAgain(u, ZERO, ZERO);
    EmptyWritten();
    NoteSound(x, PaidFinal(spent, f), Reply(Said(resp, f), []));
  }

  lemma Retexted(ms: seq<Message>, was: string, text: string)
    ensures Retext(ms + [Reply(was, [])], text) == ms + [Reply(text, [])]
  {
  }

  function Retext(ms: seq<Message>, text: string): seq<Message>
    requires ms != []
  {
    ms[|ms| - 1 := ms[|ms| - 1].(text := text)]
  }

  /** finalizeGuided: the constrained answer, written from what came before the free one, replaces it and is paid for. */
  method FinalizeGuided(env: Env, step: nat, log0: Log, ghost spent: Log, ghost resp: Response, ghost x: Context)
    returns (log: Option<Log>, ghost sent: seq<seq<Message>>, ghost w: Option<Written>)
    requires Sound(x, spent) && log0 == Both(spent, [Reply(resp.text, [])])
    ensures AllPaired(x, sent) && sent == [spent.msgs] && (log.Some? <==> w.Some?)
    ensures log.Some? ==> env.guide(step, spent.msgs) == Ok(w.value) && log.value == Done(spent, resp, Final(w, []))
    ensures log.None? ==> env.guide(step, spent.msgs).Err?
  {
    hide Paired, Total, Retext, Plus, Credit;
    var before := log0.msgs[..|log0.msgs| - 1];
    assert before == spent.msgs;
    sent, w := [before], None;
    var answer := env.guide(step, before);
    if answer.Err? { return None, sent, w; }
    var text, used := answer.value.text, if answer.value.usage.Some? then answer.value.usage.value else ZERO;
    w := Some(answer.value);
    Retexted(spent.msgs, resp.text, text);
    Retexted(spent.added, resp.text, text);
    var l := Spend(log0, log0.defaultName, used);
    log := Some(l.(msgs := Retext(l.msgs, text), added := Retext(l.added, text)));
  }

  /** The guided and structured finalizing calls, when the turn asks for them. */
  method Finalize(env: Env, step: nat, view: View, log0: Log, ghost spent: Log, ghost resp: Response, ghost x: Context)
    returns (log: Option<Log>, doc: Option<Doc>, ghost sent: seq<seq<Message>>, ghost f: Final)
    requires Sound(x, spent) && log0 == Both(spent, [Reply(resp.text, [])])
    ensures log.Some? ==>
              && FinalsMade(env, step, view, spent.msgs, resp, f) && doc == DocFor(env, f)
              && log.value == Done(spent, resp, f)
    ensures log.None? ==> FinalsFail(env, step, view, spent.msgs, resp)
    ensures AllPaired(x, sent)
  {
    hide Paired, Total, Attempts, Sound, UsageOfWritten, DocOf, AllPaired, CoercedMade, Spend, CoerceFails;
    sent, doc, f := [], None, Final(None, []);
    NoneAsked(x);
    var l := log0;
    if view.guided.Some? && view.tools != [] {
      ghost var w;
      var revised;
      revised, sent, w := FinalizeGuided(env, step, l, spent, resp, x);
      if revised.None? { return None, None, sent, f; }
      f := Final(w, []);
      l := revised.value;
    }
    assert l == Done(spent, resp, f) && GuidedMade(env, step, view, spent.msgs, f.guided);
    if !env.schema {
      NotCoerced(env, step, l.msgs);
      return Some(l), None, sent, f;
    }
    DonePaired(x, spent, resp, f);
    ghost var more, replies;
    var s;
    s, more, replies := FinalizeStructured(env, step, l.msgs, x);
    AllPairedJoin(x, sent, more);
    sent := sent + more;
    if s.Err? {
      CoerceFailed(env, step, l.msgs, more, replies);
      return None, None, sent, f;
    }
    WasCoerced(env, step, l.msgs, more, replies);
    f := Final(f.guided, replies);
    log, doc := Some(Spend(l, l.defaultName, s.value.usage)), Some(s.value.doc);
    SpendAfter(spent, resp, f);
  }

  lemma NotCoerced(env: Env, step: nat, msgs: seq<Message>)
    ensures !env.schema ==> CoercedMade(env, step, msgs, [])
  {
  }

  lemma WasCoerced(env: Env, step: nat, msgs: seq<Message>, sent: seq<seq<Message>>, ws: seq<Written>)
    requires env.schema && Attempts(env, step, msgs, sent, ws) && 1 <= |ws| == |sent| <= 2
    requires DocOf(env, ws[|ws| - 1]).invalid != "" ==> |ws| == 2
    ensures CoercedMade(env, step, msgs, ws)
  {
    hide Attempts, DocOf;
  }

  lemma CoerceFailed(env: Env, step: nat, msgs: seq<Message>, sent: seq<seq<Message>>, ws: seq<Written>)
    requires env.schema && Attempts(env, step, msgs, sent, ws) && |ws| < |sent| <= 2
    requires env.coerce(step, |ws|, sent[|ws|]).Err?
    ensures CoerceFails(env, step, msgs, sent, ws)
  {
    hide Attempts;
  }

  /** Paying for the structured answers after the constrained one is in place. */
  lemma SpendAfter(spent: Log, resp: Response, f: Final)
    requires f.coerced != []
    ensures var l := Done(spent, resp, Final(f.guided, []));
            Spend(l, l.defaultName, UsageOfWritten(f.coerced)) == Done(spent, resp, f)
  {
    hide Credit, Plus, OrZero, UsageOfWritten;
  }

  lemma DonePaired(x: Context, spent: Log, resp: Response, f: Final)
    requires Sound(x, spent)
    ensures x.good ==> Paired(Done(spent, resp, f).msgs)
  {
    hide Paired, Total, Done, Traffic;
    DoneSound(x, spent, resp, f);
  }

  lemma EmptyWritten()
    ensures UsageOfWritten([]) == ZERO && FinalUsage(Final(None, [])) == ZERO
  {
  }

  lemma NoneAsked(x: Context)
    ensures AllPaired(x, [])
  {
  }

  lemma AllPairedJoin(x: Context, a: seq<seq<Message>>, b: seq<seq<Message>>)
    requires AllPaired(x, a) && AllPaired(x, b)
    ensures AllPaired(x, a + b)
  {
    hide Paired;
  }

  // ---------------------------------------------------------------- one step

  /** What a step that got a reply leaves behind: a sound log to go on with, or a sound result. The record grows,
      its requests and results are those of the reply, and a turn that ends with an answer ends with its text. */
  ghost predicate Progress(x: Context, env: Env, step: nat, log0: Log, resp: Response, o: Option<Outcome>, log: Log, f: Final)
  {
    && (o.None? ==>
          && Sound(x, log) && log0.added <= log.added
          && Traffic(log.added) == Traffic(log0.added) + Round(env, step, resp)
          && log.usage == Plus(log0.usage, Plus(OrZero(resp.usage), FinalUsage(f))))
    && (o.Some? && !o.value.Broken? ==>
          && SoundResult(x, o.value.r) && o.value.r.steps == step
          && o.value.r.usage == Plus(log0.usage, Plus(OrZero(resp.usage), FinalUsage(f)))
          && (x.good ==>
                && log0.added <= o.value.r.messages
                && Traffic(o.value.r.messages) == Traffic(log0.added) + Round(env, step, resp)))
    && (o.Some? && o.value.Finished? ==>
          && |o.value.r.messages| == |log0.added| + 1
          && o.value.r.messages[|log0.added|] == Reply(o.value.r.text, [])
          && o.value.r.text == Said(resp, f) && o.value.r.structured == DocFor(env, f) && o.value.r.finish == resp.finish)
    && (o.Some? && o.value.Partial? ==> o.value.why == Stopped && NoAnswer(o.value.r))
  }

  lemma PlusAgain(a: Usage, b: Usage, c: Usage)
    ensures Plus(Plus(a, b), c) == Plus(a, Plus(b, c)) && Plus(a, ZERO) == a
  {
  }

  /** What the hooks are told of an answer. */
  ghost function Told(env: Env, resp: Response, f: Final, done: Log): EndInfo {
    match DocFor(env, f)
    case Some(doc) => EndInfo(doc.text, Said(resp, f), doc.invalid, done.usage, done.added)
    case None => EndInfo(Said(resp, f), if f.guided.Some? then resp.text else "", "", done.usage, done.added)
  }

  /** How a reply without tool calls ends: the hooks accept it and it is the answer; or they stop the turn, which keeps the
      record; or they send it on, with their note after the answer; or a finalizing call or a hook failed. */
  ghost predicate EndsAs(env: Env, step: nat, view: View, spent: Log, resp: Response, f: Final, o: Option<Outcome>,
                         more: seq<Message>)
  {
    var made := FinalsMade(env, step, view, spent.msgs, resp, f);
    var done := Done(spent, resp, f);
    var verdict := env.turnEnd(step, Told(env, resp, f, done));
    match o
    case None =>
      && made && verdict.Ok? && verdict.value.ContinueWith?
      && more == [Reply(Said(resp, f), []), Note(if verdict.value.asUser then "user" else "system", verdict.value.text)]
    case Some(Finished(r)) =>
      && made && verdict == Ok(Accept)
      && r == TurnResult(Said(resp, f), done.added, done.usage, Named(done.byModel), step, resp.finish, DocFor(env, f))
    case Some(Partial(r, why)) =>
      made && verdict.Ok? && verdict.value.StopWith? && why == Stopped && r == Unanswered(done, step)
    case Some(Broken) => FinalsFail(env, step, view, spent.msgs, resp) || (made && verdict.Err?)
  }

  /** A reply without tool calls: finalize it, and let the hooks accept it, refuse it or send the turn on. log0 is the
      log before the reply. */
  method TurnEnd(env: Env, step: nat, view: View, resp: Response, spent: Log, ghost log0: Log, ghost x: Context)
    returns (o: Option<Outcome>, log: Log, ghost asked: seq<seq<Message>>, ghost f: Final, ghost more: seq<Message>)
    requires Sound(x, spent) && resp.calls == []
    requires spent.added == log0.added && spent.usage == Plus(log0.usage, OrZero(resp.usage))
    ensures AllPaired(x, asked)
    ensures Progress(x, env, step, log0, resp, o, log, f)
    ensures EndsAs(env, step, view, spent, resp, f, o, more)
    ensures o.None? ==>
              log == PaidFinal(spent, f).(msgs := spent.msgs + more, added := spent.added + more)
  {
    hide Paired, Total, Traffic, DocFor, FinalUsage, FinalsMade, FinalsFail, PaidFinal, Sound, SoundResult;
    var l := Both(spent, [Reply(resp.text, [])]);
    more := [];
    var fin, doc;
    fin, doc, asked, f := Finalize(env, step, view, l, spent, resp, x);
    log := l;
    if fin.None? { return Some(Broken), log, asked, f, more; }
    log := fin.value;
    DoneSound(x, spent, resp, f);
    PlusAgain(log0.usage, OrZero(resp.usage), FinalUsage(f));
    var text := log.added[|log.added| - 1].text;
    var info := EndInfo(text, "", "", log.usage, log.added);
    if view.guided.Some? && view.tools != [] { info := info.(draft := resp.text); }
    if doc.Some? { info := EndInfo(doc.value.text, text, doc.value.invalid, log.usage, log.added); }
    WasTold(env, step, view, spent, resp, f);
    var verdict := env.turnEnd(step, info);
    if verdict.Err? { return Some(Broken), log, asked, f, more; }
    match verdict.value {
      case StopWith(_) =>
        SoundTotals(x, log);
        var p := PartialResult(log, step, Stopped, x);
        o := Some(p);
      case ContinueWith(note, asUser) =>
        var cont := Note(if asUser then USER else SYSTEM, note);
        NoteSound(x, log, cont);
        log := Both(log, [cont]);
        more := [Reply(Said(resp, f), []), cont];
        o := None;
      case Accept =>
        SoundTotals(x, log);
        o := Some(Finished(TurnResult(text, log.added, log.usage, Named(log.byModel), step, resp.finish, doc)));
    }
  }

  lemma WasTold(env: Env, step: nat, view: View, spent: Log, resp: Response, f: Final)
    requires FinalsMade(env, step, view, spent.msgs, resp, f)
    ensures f.guided.Some? <==> view.guided.Some? && view.tools != []
    ensures DocFor(env, f).Some? <==> f.coerced != []
  {
    hide CoercedMade;
  }

  lemma SoundTotals(x: Context, log: Log)
    requires Sound(x, log)
    ensures x.good ==> Paired(log.added)
    ensures Total(log.byModel) == log.usage
    ensures forall r: TurnResult ::
              r.messages == log.added && r.usage == log.usage && r.byModel == Named(log.byModel) ==> SoundResult(x, r)
  {
    hide Paired, Total;
  }

  /** How a round of tool calls ends: the dispatch returned, the turn goes on with the request, its results and a note of
      the signals raised, if any; or the dispatch did not return, the turn was cancelled, or the signals abort it. */
  ghost predicate RoundEnds(env: Env, step: nat, resp: Response, o: Option<Outcome>, more: seq<Message>) {
    var (ok, w) := Dispatch.Exec(env.join, resp.calls, env.schedule(step, resp.calls));
    var returned := ok && w.main.Returned? && !env.cancelled(step);
    match o
    case None =>
      && returned && (w.main.signals != [] ==> !env.aborts(w.main.signals))
      && more == [Reply(resp.text, resp.calls)] + w.main.results
                 + (if w.main.signals == [] then [] else [Note("system", env.render(w.main.signals))])
    case Some(Broken) => returned ==> w.main.signals != [] && env.aborts(w.main.signals)
    case Some(_) => false
  }

  method UseTools(env: Env, step: nat, resp: Response, log0: Log, ghost x: Context)
    returns (o: Option<Outcome>, log: Log, ghost more: seq<Message>)
    requires Sound(x, log0) && resp.calls != []
    ensures o.None? ==>
              && Sound(x, log) && log0.added <= log.added && log.usage == log0.usage
              && Traffic(log.added) == Traffic(log0.added) + Round(env, step, resp)
    ensures o.Some? ==> o.value == Broken
    ensures RoundEnds(env, step, resp, o, more)
    ensures o.None? ==>
              && log == log0.(msgs := log0.msgs + more, added := log0.added + more)
              && more != [] && !Requests(more[|more| - 1])
  {
    hide Paired, Total, Traffic, Dispatch.Exec, Sound;
    log, more := log0, [];
    var joined := Joined(env, step, resp.calls);
    if joined.None? || env.cancelled(step) { return Some(Broken), log, more; }
    JoinedAnswers(env, step, resp.calls);
    var results := joined.value.results;
    var round := [Reply(resp.text, resp.calls)] + results;
    RoundTraffic(env, step, resp);
    BothSound(x, log, round);
    log := Both(log, round);
    more := round;
    var signals := joined.value.signals;
    if |signals| > 0 {
      if env.aborts(signals) { return Some(Broken), log, more; }
      var m := Note(SYSTEM, env.render(signals));
      NoteSound(x, log, m);
      log := Both(log, [m]);
      more := round + [m];
      assert log0.msgs + round + [m] == log0.msgs + more && log0.added + round + [m] == log0.added + more;
    }
    o := None;
  }

  /** What becomes of a reply, whether it calls tools or not. */
  ghost predicate Turned(env: Env, step: nat, view: View, spent: Log, resp: Response, f: Final, o: Option<Outcome>,
                         more: seq<Message>)
  {
    if resp.calls == [] then EndsAs(env, step, view, spent, resp, f, o, more)
    else f == Final(None, []) && RoundEnds(env, step, resp, o, more)
  }

  /** The model call of a step and what follows from its reply. */
  method AskModel(env: Env, step: nat, view: View, log0: Log, ghost x: Context)
    returns (o: Option<Outcome>, log: Log, ghost reply: Option<Response>, ghost asked: seq<seq<Message>>, ghost f: Final,
             ghost more: seq<Message>)
    requires Sound(x, log0)
    ensures AllPaired(x, asked)
    ensures reply.None? ==> o == Some(Broken) && env.model(step, view).Err?
    ensures reply.Some? ==>
              env.model(step, view) == Ok(reply.value) && Progress(x, env, step, log0, reply.value, o, log, f)
    ensures reply.Some? ==>
              var spent := Spend(log0, view.providerName, OrZero(reply.value.usage));
              && Turned(env, step, view, spent, reply.value, f, o, more)
              && (o.None? ==>
                    && log == PaidFinal(spent, f).(msgs := log0.msgs + more, added := log0.added + more)
                    && more != [] && !Requests(more[|more| - 1]))
  {
    hide Paired, Total, Traffic, FinalUsage, DocFor, Said, NoAnswer, RoundEnds, FinalsMade, FinalsFail, Done, Sound, Credit;
    log, asked, reply, f, more := log0, [], None, Final(None, []), [];
    NoneAsked(x);
    var replied := env.model(step, view);
    if replied.Err? { return Some(Broken), log, reply, asked, f, more; }
    var resp := replied.value;
    reply := Some(resp);
    var used := if resp.usage.Some? then resp.usage.value else ZERO;
    SpendSound(x, log, view.providerName, used);
    log := Spend(log, view.providerName, used);
    if resp.calls == [] {
      o, log, asked, f, more := TurnEnd(env, step, view, resp, log, log0, x);
    } else {
      EmptyWritten();
      PlusAgain(log0.usage, OrZero(resp.usage), ZERO);
      o, log, more := UseTools(env, step, resp, log, x);
    }
  }

  // ---------------------------------------------------------------- the loop

  /** The stages the application adds respect pairing; the compactor and the selector always do. */
  ghost predicate GoodStages(env: Env) { AllGentle(env.stages) }

  ghost function Known(env: Env, history: seq<Message>): Context {
    Context(Paired(history) && GoodStages(env), AllOf(env.Chain(), Request), history)
  }

  /** The stages leave the logs sound, record nothing that takes part in pairing, and send a paired view. */
  lemma ChainSound(env: Env, info: StepInfo, tools: seq<string>, log: Log, c: Chained, x: Context)
    requires Sound(x, log) && (x.good ==> GoodStages(env)) && (x.viewOnly ==> AllOf(env.Chain(), Request))
    requires RunChain(env.Chain(), info, Start(log.msgs, tools, env.guided, env.generation)) == Ok(c)
    ensures Sound(x, log.(msgs := c.working, added := log.added + c.recorded))
    ensures x.good ==> Paired(c.view.messages) && Traffic(log.added + c.recorded) == Traffic(log.added)
  {
    hide Gentle, Paired, RunChain, Traffic, Total, ConfiguredChain;
    var start := Start(log.msgs, tools, env.guided, env.generation);
    if x.good {
      ConfiguredChainIsGentle(env.compactor, env.selector, env.stages);
      ChainKeepsPairing(env.Chain(), info, start);
      PlainsArePaired(c.recorded);
      PairedAppend(log.added, c.recorded);
      TrafficAppend(log.added, c.recorded);
      NoTraffic(c.recorded);
    }
    if x.viewOnly {
      RequestChain(env.Chain(), info, start);
      assert log.added + c.recorded == log.added;
    }
  }

  /** One model call: the log before its step, the tools listed, what the stages made of them, the reply, the finalizing
      answers to it, and what the step then added to both logs if the turn went on. */
  datatype ModelCall = ModelCall(
    at: Log, tools: seq<string>, chained: Chained, reply: Response, final: Final, more: seq<Message>)

  /** What the stages make of the log at a step. */
  ghost function Shaped(env: Env, step: nat, log: Log, tools: seq<string>): Result<Chained> {
    RunChain(env.Chain(), StepInfo(step, env.maxSteps, log.usage, log.added),
             Chained(log.msgs, [], View(log.msgs, tools, None, "", env.guided, env.generation)))
  }

  /** The model was asked at this step: the budget allowed it, the view is what the stages made of the log and the listed
      tools, its grammar passed, and the reply is the model's to that view. */
  ghost predicate WasAsked(env: Env, step: nat, k: ModelCall) {
    && env.budget(step) && env.listTools(step) == Ok(k.tools) && Shaped(env, step, k.at, k.tools) == Ok(k.chained)
    && env.guidedOk(step, k.chained.view) && env.model(step, k.chained.view) == Ok(k.reply)
  }

  /** The turn ended at this step without a reply, and why. */
  ghost predicate CutShort(env: Env, step: nat, log: Log, o: Outcome)
    requires step >= 1
  {
    if !env.budget(step) || env.listTools(step).Err? then o == Broken
    else
      match Shaped(env, step, log, env.listTools(step).value)
      case Err(ContextBudget) => o == Partial(Unanswered(log, step - 1), OverBudget)
      case Err(TurnStopped) => o == Partial(Unanswered(log, step - 1), Stopped)
      case Err(Failure(_)) => o == Broken
      case Ok(c) => o == Broken && (!env.guidedOk(step, c.view) || env.model(step, c.view).Err?)
  }

  /** The log once the stages have run on it: their messages, their record, and the name a stage gave a step it left on the
      configured provider. */
  ghost function Staged(log: Log, c: Chained): Log {
    Log(c.working, log.added + c.recorded, log.usage, log.byModel,
        if c.view.provider == None && c.view.providerName != "" then c.view.providerName else log.defaultName)
  }

  /** The log once the reply is paid for. */
  ghost function Replied(k: ModelCall): Log {
    Spend(Staged(k.at, k.chained), k.chained.view.providerName, OrZero(k.reply.usage))
  }

  ghost predicate Became(env: Env, step: nat, k: ModelCall, o: Option<Outcome>) {
    Turned(env, step, k.chained.view, Replied(k), k.reply, k.final, o, k.more)
  }

  /** The log after a step of a turn that goes on: what was added stands last in both logs. */
  ghost function After(k: ModelCall): Log {
    PaidFinal(Replied(k), k.final).(msgs := k.chained.working + k.more, added := k.at.added + k.chained.recorded + k.more)
  }

  /** One step of the loop. No call means that the turn ended before the model answered; no outcome means that it
      goes on. */
  method TakeStep(env: Env, step: nat, log0: Log, ghost x: Context)
    returns (o: Option<Outcome>, log: Log, ghost sent: seq<seq<Message>>, ghost call: Option<ModelCall>,
             ghost asked: seq<seq<Message>>)
    requires step >= 1 && Sound(x, log0) && (x.good ==> GoodStages(env)) && (x.viewOnly ==> AllOf(env.Chain(), Request))
    requires Closed(log0)
    ensures |sent| <= 1 && AllPaired(x, sent) && AllPaired(x, asked)
    ensures env.Chain() == [] ==> forall i :: 0 <= i < |sent| ==> sent[i] == log0.msgs
    ensures call.None? ==>
              && o.Some? && CutShort(env, step, log0, o.value)
              && (o.value.Partial? ==>
                    && sent == [] && asked == []
                    && SoundResult(x, o.value.r) && (x.good ==> o.value.r.messages == log0.added))
    ensures call.Some? ==>
              && call.value.at == log0 && WasAsked(env, step, call.value) && sent == [call.value.chained.view.messages]
              && Became(env, step, call.value, o)
              && (o.None? ==> log == After(call.value) && Closed(log))
    ensures call.Some? ==>
              exists mid: Log ::
                && Started(x, log0, mid)
                && Progress(x, env, step, mid, call.value.reply, o, log, call.value.final)
  {
    hide Gentle, Paired, Total, RunChain, Traffic, Progress, ConfiguredChain, NoAnswer, Turned, PaidFinal, Sound, SoundResult,
         Requests, Credit, Plus;
    log, sent, asked, call := log0, [], [], None;
    NoneAsked(x);
    if !env.budget(step) { return Some(Broken), log, sent, call, asked; }
    var listed := env.listTools(step);
    if listed.Err? { return Some(Broken), log, sent, call, asked; }
    var info := StepInfo(step, env.maxSteps, log.usage, log.added);
    var ran := RunStepChain(env.Chain(), info, log.msgs, listed.value, env.guided, env.generation);
    match ran {
      case Err(ContextBudget) =>
        var p := PartialResult(log, step - 1, OverBudget, x);
        return Some(p), log, sent, call, asked;
      case Err(TurnStopped) =>
        var p := PartialResult(log, step - 1, Stopped, x);
        return Some(p), log, sent, call, asked;
      case Err(Failure(_)) =>
        return Some(Broken), log, sent, call, asked;
      case Ok(c) =>
        ChainSound(env, info, listed.value, log, c, x);
        EmptyChain(env.Chain(), info, Start(log.msgs, listed.value, env.guided, env.generation));
        log := log.(msgs := c.working, added := log.added + c.recorded);
        var view := c.view;
        if view.provider.None? && view.providerName != "" { log := log.(defaultName := view.providerName); }
        if !env.guidedOk(step, view) { return Some(Broken), log, sent, call, asked; }
        sent := [view.messages];
        SentPaired(x, view.messages);
        assert Started(x, log0, log);
        StillSound(x, log0.(msgs := c.working, added := log0.added + c.recorded), log);
        ghost var reply, f, more;
        o, log, reply, asked, f, more := AskModel(env, step, view, log, x);
        if reply.Some? { call := Some(ModelCall(log0, listed.value, c, reply.value, f, more)); }
    }
  }

  lemma SentPaired(x: Context, ms: seq<Message>)
    requires x.good ==> Paired(ms)
    ensures AllPaired(x, [ms])
  {
    hide Paired;
  }

  /** The name of the configured provider is no part of what makes a log sound. */
  lemma StillSound(x: Context, log: Log, now: Log)
    requires Sound(x, log) && now == log.(defaultName := now.defaultName)
    ensures Sound(x, now)
  {
    hide Paired, Total;
  }

  lemma EmptyChain(chain: seq<Stage>, info: StepInfo, c: Chained)
    ensures chain == [] ==> RunChain(chain, info, c) == Ok(c)
  {
  }

  /** The log once the stages have run. */
  ghost predicate Started(x: Context, log0: Log, mid: Log) {
    log0.added <= mid.added && mid.usage == log0.usage && (x.good ==> Traffic(mid.added) == Traffic(log0.added))
  }

  /** The answer is that of the last reply and of the finalizing answers to it. */
  ghost predicate Answered(env: Env, step: nat, r: TurnResult, resp: Response, f: Final) {
    && r.text == Said(resp, f) && r.finish == resp.finish && r.structured == DocFor(env, f)
  }

  /** One more reply and its step, in terms of all replies so far. */
  lemma StepOn(x: Context, env: Env, step: nat, log0: Log, mid: Log, resp: Response, o: Option<Outcome>, log: Log,
               f: Final, replies: seq<Response>, finals: seq<Final>)
    requires Started(x, log0, mid) && Progress(x, env, step, mid, resp, o, log, f) && step == |replies| + 1
    requires x.good ==> Traffic(log0.added) == Rounds(env, replies)
    requires |finals| == |replies| && log0.usage == UsageOf(replies, finals)
    ensures var all, fs := replies + [resp], finals + [f];
            && (o.None? ==>
                  && Sound(x, log) && log0.added <= log.added
                  && (x.good ==> Traffic(log.added) == Rounds(env, all))
                  && log.usage == UsageOf(all, fs))
            && (o.Some? && !o.value.Broken? ==>
                  && SoundResult(x, o.value.r) && o.value.r.steps == step
                  && o.value.r.usage == UsageOf(all, fs)
                  && (x.good ==> log0.added <= o.value.r.messages && Traffic(o.value.r.messages) == Rounds(env, all)))
            && (o.Some? && o.value.Finished? ==>
                  && o.value.r.messages != []
                  && o.value.r.messages[|o.value.r.messages| - 1] == Reply(o.value.r.text, [])
                  && Answered(env, step, o.value.r, resp, f))
            && (o.Some? && o.value.Partial? ==> o.value.why == Stopped && NoAnswer(o.value.r))
  {
    hide Paired, Total, Traffic, Round, NoAnswer, DocFor, FinalUsage;
    assert (replies + [resp])[..|replies|] == replies && (finals + [f])[..|finals|] == finals;
  }

  /** A turn as seen by someone watching the model: what it was sent at each step, what the stages saw of the
      record then, the calls that were answered, their replies, the finalizing answers to each reply, and the requests made
      for those. */
  datatype Watched = Watched(
    sent: seq<seq<Message>>, turns: seq<seq<Message>>, calls: seq<ModelCall>, replies: seq<Response>, finals: seq<Final>,
    asked: seq<seq<Message>>)

  /** What is listed beside the calls is that of the calls. */
  ghost predicate Lists(w: Watched) {
    && |w.finals| == |w.replies| == |w.calls| <= |w.sent| <= |w.turns|
    && forall i :: 0 <= i < |w.calls| ==>
         && w.replies[i] == w.calls[i].reply && w.finals[i] == w.calls[i].final
         && w.sent[i] == w.calls[i].chained.view.messages && w.turns[i] == w.calls[i].at.added
  }

  /** The log a turn starts with. */
  ghost function First(history: seq<Message>): Log { Log(history, [], ZERO, map[], "") }

  /** The log after these calls, if the turn goes on. */
  ghost function LogAt(history: seq<Message>, calls: seq<ModelCall>): Log {
    if calls == [] then First(history) else After(calls[|calls| - 1])
  }

  /** The calls of a turn: each was made on the log the one before it left, and each but the last sent the turn on. */
  ghost predicate Story(env: Env, history: seq<Message>, calls: seq<ModelCall>) {
    && (forall i :: 0 <= i < |calls| ==> WasAsked(env, i + 1, calls[i]))
    && (calls != [] ==> calls[0].at == First(history))
    && (forall i :: 0 < i < |calls| ==> calls[i].at == After(calls[i - 1]) && Became(env, i, calls[i - 1], None))
  }

  ghost predicate WentOn(env: Env, calls: seq<ModelCall>) {
    calls != [] ==> Became(env, |calls|, calls[|calls| - 1], None)
  }

  /** How the turn ended: with what became of the last reply, at a step without a reply, or out of steps. */
  ghost predicate EndOfStory(env: Env, history: seq<Message>, calls: seq<ModelCall>, o: Outcome) {
    || (calls != [] && Became(env, |calls|, calls[|calls| - 1], Some(o)))
    || (|calls| < env.maxSteps && WentOn(env, calls) && CutShort(env, |calls| + 1, LogAt(history, calls), o))
    || (|calls| == env.maxSteps && WentOn(env, calls)
        && o == Partial(Unanswered(LogAt(history, calls), env.maxSteps), MaxStepsReached))
  }

  lemma StoryGoesOn(env: Env, history: seq<Message>, calls: seq<ModelCall>, k: ModelCall)
    requires Story(env, history, calls) && WentOn(env, calls)
    requires k.at == LogAt(history, calls) && WasAsked(env, |calls| + 1, k)
    ensures Story(env, history, calls + [k])
  {
    hide WasAsked, Became, After;
  }

  /** RunTurn. Whatever the model, tools, hooks and budgets do:
      - each model call is made on what the stages make of the log at its step, the reply is the model's to that request,
        and the log of the next step has what follows from the reply: the answer and the hook's note, or the request, its
        results and the note of their signals;
      - the turn is finished exactly with an answer that the hooks accept; it stops when they or a stage say so, runs out of
        steps only when every reply sent it on, and breaks only for the reasons that CutShort, EndsAs and RoundEnds list;
      - if the history was paired and the stages respect pairing, then every request sent, finalizing ones included,
        is paired, and so are the messages returned, on success and on every early exit; trimming unanswered calls
        changed nothing; the requests and results returned are exactly those of the model's replies, in order; and
        what each step's stages saw of the record is a beginning of the messages returned;
      - with no stages, each request is the history followed by the record so far;
      - the steps reported are the model calls made; the total usage is that of the replies and of the finalizing answers
        to them, and the per-name usage adds up to it; and the text, the document and the finish reason are those of the
        last reply and the finalizing answers to it. */
  method RunTurn(env: Env, history: seq<Message>) returns (o: Outcome, ghost w: Watched)
    ensures Story(env, history, w.calls) && EndOfStory(env, history, w.calls, o) && Lists(w)
    ensures Reports(env, history, w, o)
  {
    hide *;
    ghost var x := Known(env, history);
    var log := Log(history, [], ZERO, map[], "");
    w := Watched([], [], [], [], [], []);
    TurnStarts(env, history);
    for step := 1 to env.maxSteps + 1
      invariant |w.calls| == step - 1
      invariant Underway(env, history, w, log)
      invariant Story(env, history, w.calls) && WentOn(env, w.calls) && log == LogAt(history, w.calls) && Lists(w)
    {
      ghost var was := log;
      Resumes(env, history, w, log);
      ghost var now, call, late;
      var r;
      r, log, now, call, late := TakeStep(env, step, log, x);
      if call.Some? {
        ghost var k := call.value;
        StoryGoesOn(env, history, w.calls, k);
        GoneOn(env, history, w.calls, k);
        ListsMore(w, now, k, late);
        StepReports(env, history, w, was, k, r, log, now, late);
        w := Watched(w.sent + now, w.turns + [was.added], w.calls + [k], w.replies + [k.reply], w.finals + [k.final],
                     w.asked + late);
        if r.Some? { EndsWithReply(env, history, w.calls, r.value); }
      } else {
        ListsStill(w, now, was.added, late);
        EndsCut(env, history, w.calls, r.value);
        CutReports(env, history, w, was, r.value, now, late);
        w := Watched(w.sent + now, w.turns + [was.added], w.calls, w.replies, w.finals, w.asked + late);
      }
      if r.Some? { return r.value, w; }
    }
    Resumes(env, history, w, log);
    o := PartialResult(log, env.maxSteps, MaxStepsReached, x);
    EndsOutOfSteps(env, history, w.calls);
    OutReports(env, history, w, log, o);
  }

  /** What a caller can rely on whatever the turn came to; see RunTurn. */
  ghost predicate Reports(env: Env, history: seq<Message>, w: Watched, o: Outcome) {
    && |w.finals| == |w.replies| <= |w.sent| <= |w.turns| <= env.maxSteps
    && AllPaired(Known(env, history), w.sent) && AllPaired(Known(env, history), w.asked)
    && (env.Chain() == [] ==> forall i :: 0 <= i < |w.sent| ==> w.sent[i] == history + w.turns[i])
    && (!o.Broken? ==>
          && SoundResult(Known(env, history), o.r)
          && o.r.steps == |w.sent| == |w.replies|
          && o.r.usage == UsageOf(w.replies, w.finals))
    && (!o.Broken? && Known(env, history).good ==>
          && Traffic(o.r.messages) == Rounds(env, w.replies)
          && forall i :: 0 <= i < |w.turns| ==> w.turns[i] <= o.r.messages)
    && (o.Finished? ==>
          && o.r.messages != [] && o.r.messages[|o.r.messages| - 1] == Reply(o.r.text, []) && w.replies != []
          && Answered(env, |w.replies|, o.r, w.replies[|w.replies| - 1], w.finals[|w.replies| - 1]))
    && (o.Partial? ==> NoAnswer(o.r))
    && (o.Partial? && o.why == MaxStepsReached ==> |w.sent| == env.maxSteps)
  }

  /** Between two steps: every step so far was answered, and the logs stand as the replies left them. */
  ghost predicate Underway(env: Env, history: seq<Message>, w: Watched, log: Log) {
    var x := Known(env, history);
    && |w.sent| == |w.turns| == |w.calls| == |w.replies| == |w.finals| && Sound(x, log) && Closed(log)
    && AllPaired(x, w.sent) && AllPaired(x, w.asked)
    && (forall i :: 0 <= i < |w.turns| ==> w.turns[i] <= log.added)
    && (env.Chain() == [] ==> forall i :: 0 <= i < |w.sent| ==> w.sent[i] == history + w.turns[i])
    && log.usage == UsageOf(w.replies, w.finals)
    && (x.good ==> Traffic(log.added) == Rounds(env, w.replies))
  }

  lemma TurnStarts(env: Env, history: seq<Message>)
    ensures var w := Watched([], [], [], [], [], []);
            && Underway(env, history, w, First(history)) && Lists(w)
            && Story(env, history, []) && WentOn(env, []) && LogAt(history, []) == First(history)
            && First(history) == Log(history, [], ZERO, map[], "")
  {
    hide Paired, Gentle, ConfiguredChain;
    EmptySound(Known(env, history), history);
  }

  lemma Resumes(env: Env, history: seq<Message>, w: Watched, log: Log)
    requires Underway(env, history, w, log)
    ensures var x := Known(env, history);
            && Sound(x, log) && Closed(log) && |w.sent| == |w.turns| == |w.calls|
            && (x.good ==> GoodStages(env)) && (x.viewOnly ==> AllOf(env.Chain(), Request))
  {
    hide Sound, Closed, Paired, Rounds, UsageOf, Traffic;
  }

  /** One more step that was answered. */
  lemma StepReports(env: Env, history: seq<Message>, w: Watched, was: Log, k: ModelCall, r: Option<Outcome>, log: Log,
                    now: seq<seq<Message>>, late: seq<seq<Message>>)
    requires Underway(env, history, w, was) && |w.calls| < env.maxSteps
    requires now == [k.chained.view.messages] && AllPaired(Known(env, history), now) && AllPaired(Known(env, history), late)
    requires env.Chain() == [] ==> forall i :: 0 <= i < |now| ==> now[i] == was.msgs
    requires r.None? ==> Closed(log)
    requires exists mid: Log ::
               Started(Known(env, history), was, mid)
               && Progress(Known(env, history), env, |w.calls| + 1, mid, k.reply, r, log, k.final)
    ensures var w' := Watched(w.sent + now, w.turns + [was.added], w.calls + [k], w.replies + [k.reply], w.finals + [k.final],
                              w.asked + late);
            (r.None? ==> Underway(env, history, w', log)) && (r.Some? ==> Reports(env, history, w', r.value))
  {
    var x := Known(env, history);
    hide Known, Paired, Total, Traffic, Progress, Sound, SoundResult, Rounds, UsageOf, ConfiguredChain, Answered, AllPaired,
         Closed, NoAnswer, Started;
    Aligned(x, was);
    AllRequests(env, history);
    AllPairedJoin(x, w.sent, now);
    AllPairedJoin(x, w.asked, late);
    var mid: Log :| Started(x, was, mid) && Progress(x, env, |w.calls| + 1, mid, k.reply, r, log, k.final);
    StepOn(x, env, |w.calls| + 1, was, mid, k.reply, r, log, k.final, w.replies, w.finals);
  }

  lemma AllRequests(env: Env, history: seq<Message>)
    ensures Known(env, history).history == history
    ensures env.Chain() == [] ==> Known(env, history).viewOnly
  {
  }

  lemma CutReports(env: Env, history: seq<Message>, w: Watched, was: Log, o: Outcome, now: seq<seq<Message>>,
                   late: seq<seq<Message>>)
    requires Underway(env, history, w, was) && |w.calls| < env.maxSteps && !o.Finished? && |now| <= 1
    requires AllPaired(Known(env, history), now) && AllPaired(Known(env, history), late)
    requires env.Chain() == [] ==> forall i :: 0 <= i < |now| ==> now[i] == was.msgs
    requires o.Partial? ==>
               && NoAnswer(o.r) && o.why != MaxStepsReached && o.r.steps == |w.calls| && now == []
               && o.r.usage == was.usage && SoundResult(Known(env, history), o.r)
               && (Known(env, history).good ==> o.r.messages == was.added)
    ensures Reports(env, history, Watched(w.sent + now, w.turns + [was.added], w.calls, w.replies, w.finals, w.asked + late), o)
  {
    var x := Known(env, history);
    hide Known, Paired, Total, Traffic, Sound, SoundResult, Rounds, UsageOf, ConfiguredChain, Answered, AllPaired, Closed,
         NoAnswer;
    Aligned(x, was);
    AllRequests(env, history);
    AllPairedJoin(x, w.sent, now);
    AllPairedJoin(x, w.asked, late);
  }

  lemma OutReports(env: Env, history: seq<Message>, w: Watched, log: Log, o: Outcome)
    requires Underway(env, history, w, log) && |w.calls| == env.maxSteps
    requires o.Partial? && o.r.steps == env.maxSteps && o.r.usage == log.usage && NoAnswer(o.r)
    requires SoundResult(Known(env, history), o.r) && (Known(env, history).good ==> o.r.messages == log.added)
    ensures Reports(env, history, w, o)
  {
    hide Known, Paired, Total, Traffic, Sound, SoundResult, Rounds, UsageOf, ConfiguredChain, Answered, AllPaired, Closed,
         NoAnswer;
  }

  // ---------------------------------------------------------------- usage per name

  /** The name of the configured provider when this call is finalized. */
  ghost function Home(k: ModelCall): string { Staged(k.at, k.chained).defaultName }

  ghost predicate Bills(k: ModelCall, name: string) {
    k.chained.view.providerName == name || (k.final != Final(None, []) && Home(k) == name)
  }

  /** What a call bills to a name: its reply to the name its stages gave it, its finalizing answers to the name of the
      configured provider. */
  ghost function BilledBy(k: ModelCall, name: string): Usage {
    Plus(if k.chained.view.providerName == name then OrZero(k.reply.usage) else ZERO,
         if Home(k) == name then FinalUsage(k.final) else ZERO)
  }

  ghost function Billed(calls: seq<ModelCall>, name: string): Usage {
    if calls == [] then ZERO else Plus(Billed(calls[..|calls| - 1], name), BilledBy(calls[|calls| - 1], name))
  }

  ghost predicate BilledIn(calls: seq<ModelCall>, name: string) { exists i :: 0 <= i < |calls| && Bills(calls[i], name) }

  /** A stage named some call. */
  ghost predicate SomeNamed(calls: seq<ModelCall>) { exists i :: 0 <= i < |calls| && calls[i].chained.view.providerName != "" }

  ghost function At(m: ByModel, name: string): Usage { if name in m then m[name] else ZERO }

  /** The names of m are those billed, each with what was billed to it. */
  ghost predicate Books(calls: seq<ModelCall>, m: ByModel) {
    forall name :: (name in m <==> BilledIn(calls, name)) && At(m, name) == Billed(calls, name)
  }

  lemma PaidAt(k: ModelCall, name: string)
    ensures var m := PaidFinal(Replied(k), k.final).byModel;
            && (name in m <==> name in k.at.byModel || Bills(k, name))
            && At(m, name) == Plus(At(k.at.byModel, name), BilledBy(k, name))
  {
    hide OrZero, UsageOfWritten;
    EmptyWritten();
  }

  lemma BilledMore(calls: seq<ModelCall>, k: ModelCall, name: string)
    ensures Billed(calls + [k], name) == Plus(Billed(calls, name), BilledBy(k, name))
    ensures BilledIn(calls + [k], name) <==> BilledIn(calls, name) || Bills(k, name)
  {
    hide BilledBy, Bills, Plus;
    var all := calls + [k];
    assert all[..|calls|] == calls && all[|calls|] == k;
    if BilledIn(calls, name) {
      var i :| 0 <= i < |calls| && Bills(calls[i], name);
      assert Bills(all[i], name);
    }
    if Bills(k, name) { assert Bills(all[|calls|], name); }
  }

  lemma BooksMore(calls: seq<ModelCall>, k: ModelCall)
    requires Books(calls, k.at.byModel)
    ensures Books(calls + [k], PaidFinal(Replied(k), k.final).byModel)
  {
    hide Billed, BilledBy, BilledIn, Bills, PaidFinal, Replied, Plus, At;
    forall name
      ensures name in PaidFinal(Replied(k), k.final).byModel <==> BilledIn(calls + [k], name)
      ensures At(PaidFinal(Replied(k), k.final).byModel, name) == Billed(calls + [k], name)
    {
      assert name in k.at.byModel <==> BilledIn(calls, name);
      assert At(k.at.byModel, name) == Billed(calls, name);
      PaidAt(k, name);
      BilledMore(calls, k, name);
    }
  }

  /** The books after the calls of a turn, and the name of the configured provider, which some call was given. */
  lemma {:induction false} BooksAgree(env: Env, history: seq<Message>, calls: seq<ModelCall>)
    requires Story(env, history, calls)
    ensures Books(calls, LogAt(history, calls).byModel)
    ensures LogAt(history, calls).defaultName != "" ==> SomeNamed(calls)
  {
    if calls == [] {
      hide Bills;
    } else {
      var n := |calls| - 1;
      var front, k := calls[..n], calls[n];
      StoryPrefix(env, history, calls, n);
      BooksAgree(env, history, front);
      hide WasAsked, Became, Books, Story, SomeNamed;
      assert calls == front + [k];
      NamedMore(front, k);
      BooksMore(front, k);
    }
  }

  lemma NamedMore(calls: seq<ModelCall>, k: ModelCall)
    requires k.at.defaultName != "" ==> SomeNamed(calls)
    ensures After(k).defaultName != "" ==> SomeNamed(calls + [k])
    ensures SomeNamed(calls + [k]) <==> SomeNamed(calls) || k.chained.view.providerName != ""
  {
    hide Credit, Plus;
    var all := calls + [k];
    assert all[|calls|] == k && forall i :: 0 <= i < |calls| ==> all[i] == calls[i];
    if SomeNamed(calls) {
      var i :| 0 <= i < |calls| && calls[i].chained.view.providerName != "";
      assert all[i].chained.view.providerName != "";
    }
  }

  /** Some name other than the empty one is billed exactly when a stage named some call. */
  lemma NamedIffBilled(env: Env, history: seq<Message>, calls: seq<ModelCall>)
    requires Story(env, history, calls)
    ensures (exists name :: BilledIn(calls, name) && name != "") <==> SomeNamed(calls)
  {
    hide Story, Bills, LogAt;
    if SomeNamed(calls) {
      var i :| 0 <= i < |calls| && calls[i].chained.view.providerName != "";
      BilledName(calls[i], calls[i].chained.view.providerName);
      assert BilledIn(calls, calls[i].chained.view.providerName);
    }
    if exists name :: BilledIn(calls, name) && name != "" {
      var name :| BilledIn(calls, name) && name != "";
      var i :| 0 <= i < |calls| && Bills(calls[i], name);
      NamedBy(env, history, calls, i, name);
    }
  }

  lemma BilledName(k: ModelCall, name: string)
    ensures k.chained.view.providerName == name ==> Bills(k, name)
    ensures Bills(k, name) && name != "" ==> k.chained.view.providerName != "" || k.at.defaultName != ""
  {
  }

  lemma NamedBy(env: Env, history: seq<Message>, calls: seq<ModelCall>, i: nat, name: string)
    requires Story(env, history, calls) && i < |calls| && Bills(calls[i], name) && name != ""
    ensures SomeNamed(calls)
  {
    hide Story, Bills, LogAt, Books;
    StoryPrefix(env, history, calls, i);
    BooksAgree(env, history, calls[..i]);
    BilledName(calls[i], name);
    if calls[i].chained.view.providerName == "" {
      var j :| 0 <= j < i && calls[..i][j].chained.view.providerName != "";
      assert calls[j].chained.view.providerName != "";
    }
  }

  lemma StoryPrefix(env: Env, history: seq<Message>, calls: seq<ModelCall>, i: nat)
    requires Story(env, history, calls) && i < |calls|
    ensures Story(env, history, calls[..i]) && calls[i].at == LogAt(history, calls[..i])
  {
    hide WasAsked, Became, After;
    assert i > 0 ==> calls[..i][i - 1] == calls[i - 1];
  }

  /** The per-name usage a turn reports: none unless a stage named some call, and otherwise for each name billed what its
      calls cost, finalizing answers under the name of the configured provider. */
  lemma UsageByName(env: Env, history: seq<Message>, calls: seq<ModelCall>, o: Outcome)
    requires Story(env, history, calls) && EndOfStory(env, history, calls, o) && !o.Broken?
    ensures o.r.byModel.Some? <==> SomeNamed(calls)
    ensures o.r.byModel.Some? ==>
              forall name :: if BilledIn(calls, name) then
                               name in o.r.byModel.value && o.r.byModel.value[name] == Billed(calls, name)
                             else name !in o.r.byModel.value
  {
    BooksAgree(env, history, calls);
    NamedIffBilled(env, history, calls);
    ReportedBooks(env, history, calls, o);
    hide BilledIn, Billed, SomeNamed, Story, EndOfStory, LogAt;
    var m := LogAt(history, calls).byModel;
    assert forall name :: At(m, name) == Billed(calls, name);
  }

  lemma ReportedBooks(env: Env, history: seq<Message>, calls: seq<ModelCall>, o: Outcome)
    requires EndOfStory(env, history, calls, o) && !o.Broken?
    ensures o.r.byModel == Named(LogAt(history, calls).byModel)
  {
    hide Named, FinalsMade, FinalsFail, RoundEnds, Shaped, DocFor, Spend, PaidFinal, Said, Told, Replied;
    if calls != [] && Became(env, |calls|, calls[|calls| - 1], Some(o)) {
      ReplyBooks(env, |calls|, calls[|calls| - 1], o);
    }
  }

  lemma ReplyBooks(env: Env, step: nat, k: ModelCall, o: Outcome)
    requires Became(env, step, k, Some(o)) && !o.Broken?
    ensures o.r.byModel == Named(After(k).byModel)
  {
    hide Named, FinalsMade, FinalsFail, DocFor, Spend, PaidFinal, Said, Told, Replied;
  }

  lemma ListsMore(w: Watched, now: seq<seq<Message>>, k: ModelCall, late: seq<seq<Message>>)
    requires Lists(w) && |w.calls| == |w.sent| == |w.turns| && now == [k.chained.view.messages]
    ensures Lists(Watched(w.sent + now, w.turns + [k.at.added], w.calls + [k], w.replies + [k.reply], w.finals + [k.final],
                          w.asked + late))
  {
  }

  lemma ListsStill(w: Watched, now: seq<seq<Message>>, added: seq<Message>, late: seq<seq<Message>>)
    requires Lists(w) && |w.sent| == |w.turns| && |now| <= 1
    ensures Lists(Watched(w.sent + now, w.turns + [added], w.calls, w.replies, w.finals, w.asked + late))
  {
  }

  lemma EndsWithReply(env: Env, history: seq<Message>, calls: seq<ModelCall>, o: Outcome)
    requires calls != [] && Became(env, |calls|, calls[|calls| - 1], Some(o))
    ensures EndOfStory(env, history, calls, o)
  {
  }

  /** A turn cut short has no answer, and has made the calls of the steps before. */
  lemma EndsCut(env: Env, history: seq<Message>, calls: seq<ModelCall>, o: Outcome)
    requires |calls| < env.maxSteps && WentOn(env, calls) && CutShort(env, |calls| + 1, LogAt(history, calls), o)
    ensures EndOfStory(env, history, calls, o) && !o.Finished?
    ensures o.Partial? ==>
              && NoAnswer(o.r) && o.why != MaxStepsReached && o.r.steps == |calls|
              && o.r.usage == LogAt(history, calls).usage
  {
    hide Shaped, LogAt, WentOn, Became;
  }

  lemma EndsOutOfSteps(env: Env, history: seq<Message>, calls: seq<ModelCall>)
    requires |calls| == env.maxSteps && WentOn(env, calls)
    ensures EndOfStory(env, history, calls, Partial(Unanswered(LogAt(history, calls), env.maxSteps), MaxStepsReached))
  {
    hide LogAt, WentOn, Became;
  }

  lemma GoneOn(env: Env, history: seq<Message>, calls: seq<ModelCall>, k: ModelCall)
    ensures LogAt(history, calls + [k]) == After(k)
    ensures Became(env, |calls| + 1, k, None) ==> WentOn(env, calls + [k])
  {
    hide Became, After;
  }

  lemma Aligned(x: Context, log: Log)
    requires Sound(x, log)
    ensures x.viewOnly ==> log.msgs == x.history + log.added
  {
  }

  lemma EmptySound(x: Context, history: seq<Message>)
    requires (x.good ==> Paired(history)) && x.history == history
    ensures Sound(x, Log(history, [], ZERO, map[], "")) && Traffic([]) == [] && UsageOf([], []) == ZERO
    ensures forall env: Env :: Rounds(env, []) == []
  {
  }
}
