/** The gate that decides whether a tool call runs, is refused, or is put to the user.

Calls run at the same time, so a call is two steps: it begins, which reads the mode and the remembered approvals at
once, and, if it asks, it is resolved later, when the user answers. Modes may change in between. */
module Approval {
  import opened Wrappers

  datatype Mode = AlwaysAsk | ReadOnlyAuto | ReversibleAuto | AlwaysAllow

  datatype Rule = RuleAsk | RuleAllow | RuleDeny

  datatype Disposition = Unclear | ReadOnly | Reversible | Destructive | Forbidden | AskAlways

  datatype Class = Class(disposition: Disposition, key: string)

  datatype Info = Info(name: string, args: string, readOnly: bool, destructive: bool, cls: Option<Class>)

  /** The gate's settings, which do not change: asks and chooses say whether there is an AskFunc and a ChooseFunc. A nil
      classifier claims no call. */
  datatype Config = Config(
    rules: map<string, Rule>, classify: Info -> Option<Class>, key: Option<Info -> Option<string>>,
    remember: bool, asks: bool, chooses: bool)

  const NUL: char := '\0'

  function Classified(info: Info, c: Class): Info {
    match c.disposition
    case ReadOnly => info.(cls := Some(c), readOnly := true, destructive := false)
    case Reversible => info.(cls := Some(c), readOnly := false, destructive := false)
    case Destructive => info.(cls := Some(c), readOnly := false, destructive := true)
    case AskAlways => info.(cls := Some(c), readOnly := false, destructive := true)
    case _ => info.(cls := Some(c))
  }

  function RememberKey(c: Config, info: Info): Option<string> {
    match info.cls
    case Some(k) =>
      if k.key == "" || k.disposition == AskAlways then None else Some(info.name + [NUL] + k.key)
    case None =>
      if c.key.None? then Some(info.name) else c.key.value(info)
  }

  predicate Has(c: Config, name: string, r: Rule) { name in c.rules && c.rules[name] == r }

  // ---------------------------------------------------------------- the gate

  datatype Decision = Deny | Run(info: Info) | Ask(info: Info)

  function ByMode(mode: Mode, info: Info): Decision {
    match mode
    case AlwaysAllow => Run(info)
    case ReadOnlyAuto => if info.readOnly then Run(info) else Ask(info)
    case ReversibleAuto => if info.readOnly || !info.destructive then Run(info) else Ask(info)
    case AlwaysAsk => Ask(info)
  }

  /** The ladder once the classifier has spoken. */
  function Ladder(c: Config, mode: Mode, remembered: set<string>, info: Info, granted: bool): Decision {
    var key := RememberKey(c, info);
    if c.remember && key.Some? && key.value in remembered then Run(info)
    else if Has(c, info.name, RuleDeny) then Deny
    else if granted then Run(info)
    else if Has(c, info.name, RuleAllow) then Run(info)
    else if Has(c, info.name, RuleAsk) then Ask(info)
    else ByMode(mode, info)
  }

  function Decide(c: Config, mode: Mode, remembered: set<string>, info: Info, granted: bool): Decision {
    var v := c.classify(info);
    if v.None? then Ladder(c, mode, remembered, info, granted)
    else if v.value.disposition == Forbidden then Deny
    else if v.value.disposition == AskAlways then
      (if Has(c, info.name, RuleDeny) then Deny else Ask(Classified(info, v.value)))
    else Ladder(c, mode, remembered, Classified(info, v.value), granted)
  }

  // ---------------------------------------------------------------- the answer

  /** What the chooser and the asker say. Errors of either end the call like a refusal. */
  datatype Answer =
    | Failed
    | Choice(approved: bool, args: string)
    | Reply(yes: bool)

  datatype Resolved = Resolved(run: Option<Info>, whole: bool)

  /** A chooser's part approval replaces the arguments only; without an asker a plain ask is refused, and without a
      chooser there is no choice. */
  function Resolve(c: Config, info: Info, a: Answer): Resolved {
    match a
    case Failed => Resolved(None, false)
    case Choice(approved, args) =>
      if !c.chooses || !approved then Resolved(None, false)
      else if args != "" then Resolved(Some(info.(args := args)), false)
      else Resolved(Some(info), true)
    case Reply(yes) => if c.asks && yes then Resolved(Some(info), true) else Resolved(None, false)
  }

  /** What is remembered after a whole approval of info. */
  function Remembering(c: Config, remembered: set<string>, info: Info): set<string> {
    var key := RememberKey(c, info);
    if c.remember && key.Some? then remembered + {key.value} else remembered
  }

  // ---------------------------------------------------------------- runs

  datatype Op = SetMode(mode: Mode) | Begin(id: nat, info: Info, granted: bool) | Settle(id: nat, answer: Answer)

  /** Calls by id: as the model made them, those waiting for an answer, those the user accepted, those sent on. */
  datatype World = World(
    mode: Mode, remembered: set<string>, calls: map<nat, Info>, waiting: map<nat, Info>, accepted: set<nat>,
    sent: map<nat, Info>)

  function Start(mode: Mode): World { World(mode, {}, map[], map[], {}, map[]) }

  /** Ids are fresh, a call is made by a caller that may make it, without a verdict, and answered once. */
  predicate Enabled(callable: Info -> bool, w: World, op: Op) {
    match op
    case SetMode(_) => true
    case Begin(id, info, _) => id !in w.calls && callable(info) && info.cls.None?
    case Settle(id, _) => id in w.waiting
  }

  function Next(c: Config, w: World, op: Op): World
    requires op.Settle? ==> op.id in w.waiting
  {
    match op
    case SetMode(mode) => w.(mode := mode)
    case Begin(id, info, granted) =>
      var d := Decide(c, w.mode, w.remembered, info, granted);
      var w1 := w.(calls := w.calls[id := info]);
      (match d
       case Deny => w1
       case Run(i) => w1.(sent := w.sent[id := i])
       case Ask(i) => w1.(waiting := w.waiting[id := i]))
    case Settle(id, answer) =>
      var info := w.waiting[id];
      var r := Resolve(c, info, answer);
      var w1 := w.(waiting := w.waiting - {id});
      if r.run.None? then w1
      else w1.(accepted := w.accepted + {id}, sent := w.sent[id := r.run.value],
               remembered := if r.whole then Remembering(c, w.remembered, info) else w.remembered)
  }

  function Exec(c: Config, callable: Info -> bool, start: World, ops: seq<Op>): Option<World> {
    if ops == [] then Some(start)
    else
      var w := Exec(c, callable, start, ops[..|ops| - 1]);
      if w.None? || !Enabled(callable, w.value, ops[|ops| - 1]) then None
      else Some(Next(c, w.value, ops[|ops| - 1]))
  }

  /** What the gate makes of a call before it decides. */
  function Prepared(c: Config, info: Info): Info {
    var v := c.classify(info);
    if v.None? then info else Classified(info, v.value)
  }

  predicate Judged(c: Config, info: Info, d: Disposition) {
    c.classify(info).Some? && c.classify(info).value.disposition == d
  }

  /** Calls that may put a key in the cache: asked about, and not each time anew. */
  predicate Remembers(c: Config, info: Info) {
    !Has(c, info.name, RuleDeny) && !Has(c, info.name, RuleAllow) && !Judged(c, info, Forbidden)
  }

  /** Somebody can approve a call, and approvals are remembered. */
  predicate CanRemember(c: Config) { c.remember && (c.asks || c.chooses) }

  /** Every remembered key is the key of a call that may be remembered. */
  ghost predicate Grounded(c: Config, callable: Info -> bool, remembered: set<string>) {
    (remembered != {} ==> CanRemember(c)) && forall k :: k in remembered ==>
      exists b :: callable(b) && b.cls.None? && Remembers(c, b) && RememberKey(c, Prepared(c, b)) == Some(k)
  }

  ghost predicate WaitingOk(c: Config, callable: Info -> bool, w: World) {
    forall id :: id in w.waiting ==>
      && id in w.calls && id !in w.sent && id !in w.accepted
      && callable(w.calls[id]) && w.calls[id].cls.None? && w.waiting[id] == Prepared(c, w.calls[id])
      && !Has(c, w.calls[id].name, RuleDeny) && !Judged(c, w.calls[id], Forbidden)
      && (Has(c, w.calls[id].name, RuleAllow) ==> Judged(c, w.calls[id], AskAlways))
  }

  ghost predicate SentOk(c: Config, w: World) {
    forall id :: id in w.sent ==>
      && id in w.calls && w.sent[id].name == w.calls[id].name && w.sent[id].cls == Prepared(c, w.calls[id]).cls
      && !Judged(c, w.calls[id], Forbidden)
      && (Judged(c, w.calls[id], AskAlways) ==> id in w.accepted)
      && (w.sent[id].args != w.calls[id].args ==> id in w.accepted)
  }

  ghost predicate Inv(c: Config, callable: Info -> bool, w: World) {
    WaitingOk(c, callable, w) && SentOk(c, w) && Grounded(c, callable, w.remembered)
    && w.accepted <= w.calls.Keys
  }

  lemma ClassifiedKeeps(info: Info, v: Class)
    ensures var i := Classified(info, v); i.name == info.name && i.args == info.args && i.cls == Some(v)
  {
  }

  /** What a decision says of the call it is about. */
  lemma DecideFacts(c: Config, mode: Mode, remembered: set<string>, info: Info, granted: bool)
    requires info.cls.None?
    ensures var d := Decide(c, mode, remembered, info, granted); var p := Prepared(c, info);
            && p.name == info.name && p.args == info.args
            && (d.Run? || d.Ask? ==> d.info == p && !Judged(c, info, Forbidden))
            && (d.Run? ==> !Judged(c, info, AskAlways))
            && (d.Ask? ==> !Has(c, info.name, RuleDeny)
                           && (Has(c, info.name, RuleAllow) ==> Judged(c, info, AskAlways)))
            && (d.Run? && Has(c, info.name, RuleDeny) ==>
                  c.remember && RememberKey(c, p).Some? && RememberKey(c, p).value in remembered)
  {
    var v := c.classify(info);
    if v.Some? { ClassifiedKeeps(info, v.value); }
    hide Classified, RememberKey;
  }

  lemma BeginWaiting(c: Config, callable: Info -> bool, w: World, op: Op)
    requires Inv(c, callable, w) && op.Begin? && Enabled(callable, w, op)
    ensures WaitingOk(c, callable, Next(c, w, op))
  {
    DecideFacts(c, w.mode, w.remembered, op.info, op.granted);
    hide Decide, Prepared, RememberKey, Has, Judged, Grounded;
  }

  lemma BeginSent(c: Config, callable: Info -> bool, w: World, op: Op)
    requires Inv(c, callable, w) && op.Begin? && Enabled(callable, w, op)
    ensures SentOk(c, Next(c, w, op))
  {
    DecideFacts(c, w.mode, w.remembered, op.info, op.granted);
    hide Decide, Prepared, RememberKey, Has, Judged, Grounded, WaitingOk;
  }

  lemma BeginKeeps(c: Config, callable: Info -> bool, w: World, op: Op)
    requires Inv(c, callable, w) && op.Begin? && Enabled(callable, w, op)
    ensures Inv(c, callable, Next(c, w, op))
  {
    BeginWaiting(c, callable, w, op);
    BeginSent(c, callable, w, op);
    hide Decide, Grounded, WaitingOk, SentOk;
  }

  lemma GroundedMore(c: Config, callable: Info -> bool, remembered: set<string>, b: Info)
    requires Grounded(c, callable, remembered) && callable(b) && b.cls.None?
    requires !Has(c, b.name, RuleDeny) && !Judged(c, b, Forbidden)
    requires (Has(c, b.name, RuleAllow) ==> Judged(c, b, AskAlways)) && (c.asks || c.chooses)
    ensures Grounded(c, callable, Remembering(c, remembered, Prepared(c, b)))
  {
    var key := RememberKey(c, Prepared(c, b));
    if Judged(c, b, AskAlways) {
      ClassifiedKeeps(b, c.classify(b).value);
      assert key == None;
    } else {
      assert Remembers(c, b);
    }
  }

  lemma SettleWaiting(c: Config, callable: Info -> bool, w: World, op: Op)
    requires WaitingOk(c, callable, w) && op.Settle? && Enabled(callable, w, op)
    ensures WaitingOk(c, callable, Next(c, w, op))
  {
    hide Prepared, RememberKey, Has, Judged, Remembering;
  }

  lemma SettleSent(c: Config, callable: Info -> bool, w: World, op: Op)
    requires WaitingOk(c, callable, w) && SentOk(c, w) && op.Settle? && Enabled(callable, w, op)
    ensures SentOk(c, Next(c, w, op))
  {
    var info := w.calls[op.id];
    DecideFacts(c, w.mode, w.remembered, info, false);
    assert w.waiting[op.id] == Prepared(c, info) && !Judged(c, info, Forbidden);
    hide Decide, Prepared, RememberKey, Has, Judged, Remembering, WaitingOk;
  }

  lemma SettleKeeps(c: Config, callable: Info -> bool, w: World, op: Op)
    requires Inv(c, callable, w) && op.Settle? && Enabled(callable, w, op)
    ensures Inv(c, callable, Next(c, w, op))
  {
    assert op.id in w.calls && w.waiting[op.id] == Prepared(c, w.calls[op.id]);
    if c.asks || c.chooses { GroundedMore(c, callable, w.remembered, w.calls[op.id]); }
    SettleWaiting(c, callable, w, op);
    SettleSent(c, callable, w, op);
    hide Grounded, WaitingOk, SentOk, Prepared, Remembering;
  }

  lemma {:induction false} ExecKeeps(c: Config, callable: Info -> bool, mode: Mode, ops: seq<Op>)
    requires Exec(c, callable, Start(mode), ops).Some?
    ensures Inv(c, callable, Exec(c, callable, Start(mode), ops).value)
  {
    if ops != [] {
      ExecKeeps(c, callable, mode, ops[..|ops| - 1]);
      var w, op := Exec(c, callable, Start(mode), ops[..|ops| - 1]).value, ops[|ops| - 1];
      if op.Begin? { BeginKeeps(c, callable, w, op); }
      if op.Settle? { SettleKeeps(c, callable, w, op); }
    }
  }

  /** In every run: a call the classifier forbids is never sent on; one it says to ask about every time is sent on only
      after the user accepted that very call; and a call is sent on under the name the model gave it, with other
      arguments only if the user accepted it. */
  lemma GateIsSafe(c: Config, callable: Info -> bool, mode: Mode, ops: seq<Op>, id: nat)
    requires Exec(c, callable, Start(mode), ops).Some?
    ensures var w := Exec(c, callable, Start(mode), ops).value;
            id in w.sent ==>
              && id in w.calls && w.sent[id].name == w.calls[id].name
              && !Judged(c, w.calls[id], Forbidden)
              && (Judged(c, w.calls[id], AskAlways) ==> id in w.accepted)
              && (w.sent[id].args != w.calls[id].args ==> id in w.accepted)
  {
    ExecKeeps(c, callable, mode, ops);
  }

  // ---------------------------------------------------------------- what may run unasked

  /** The two flags the modes read: those a verdict gives, and the tool's own if there is none or it is unclear. */
  ghost predicate ReadsOnly(c: Config, info: Info) {
    match c.classify(info)
    case None => info.readOnly
    case Some(v) => v.disposition == ReadOnly || (v.disposition in {Unclear, Forbidden} && info.readOnly)
  }

  ghost predicate Destroys(c: Config, info: Info) {
    match c.classify(info)
    case None => info.destructive
    case Some(v) =>
      v.disposition in {Destructive, AskAlways} || (v.disposition in {Unclear, Forbidden} && info.destructive)
  }

  /** The modes: always allow lets everything run, the read-only one calls that read only, the reversible one also those
      that do not destroy, and always ask nothing. */
  ghost predicate ModeAllows(c: Config, mode: Mode, info: Info) {
    || mode == AlwaysAllow
    || (mode == ReadOnlyAuto && ReadsOnly(c, info))
    || (mode == ReversibleAuto && (ReadsOnly(c, info) || !Destroys(c, info)))
  }

  /** What an approval of a call covers: for a classified call its tool and the classifier's key, unless that is empty or
      the call is to be asked about each time; otherwise what the application says, or the tool. */
  ghost function Covers(c: Config, info: Info): Option<string> {
    match c.classify(info)
    case Some(v) =>
      if v.key == "" || v.disposition == AskAlways then None else Some(info.name + "\0" + v.key)
    case None => if c.key.Some? then c.key.value(info) else Some(info.name)
  }

  lemma PreparedFlags(c: Config, info: Info)
    requires info.cls.None?
    ensures var p := Prepared(c, info);
            && p.readOnly == ReadsOnly(c, info) && p.destructive == Destroys(c, info)
            && RememberKey(c, p) == Covers(c, info)
  {
    assert [NUL] == "\0";
  }

  /** A call that no one is asked about needs one of these. covered says that an approval given before covers it. */
  ghost predicate Unasked(c: Config, mode: Mode, covered: bool, info: Info, granted: bool) {
    && !Judged(c, info, Forbidden) && !Judged(c, info, AskAlways)
    && (covered || (!Has(c, info.name, RuleDeny) &&
                    (granted || Has(c, info.name, RuleAllow) || (info.name !in c.rules && ModeAllows(c, mode, info)))))
  }

  ghost predicate Refused(c: Config, covered: bool, info: Info) {
    || Judged(c, info, Forbidden)
    || (Has(c, info.name, RuleDeny) && (Judged(c, info, AskAlways) || !covered))
  }

  /** The gate's decision, exactly: it runs a call unasked, refuses it, or asks. */
  lemma DecidesBy(c: Config, mode: Mode, remembered: set<string>, info: Info, granted: bool)
    requires info.cls.None?
    ensures var covered := c.remember && Covers(c, info).Some? && Covers(c, info).value in remembered;
            Decide(c, mode, remembered, info, granted) ==
              if Refused(c, covered, info) then Deny
              else if Unasked(c, mode, covered, info, granted) then Run(Prepared(c, info))
              else Ask(Prepared(c, info))
  {
    var v := c.classify(info);
    if v.Some? { ClassifiedKeeps(info, v.value); }
    PreparedFlags(c, info);
    hide Covers, ReadsOnly, Destroys, RememberKey, Classified;
  }

  /** The user said yes to the call: the chooser approved it, or the asker did. Whole, if the chooser changed nothing. */
  ghost predicate SaidYes(c: Config, a: Answer) { (a.Choice? && c.chooses && a.approved) || (a.Reply? && c.asks && a.yes) }

  ghost predicate SaidYesToAll(c: Config, a: Answer) { SaidYes(c, a) && (a.Choice? ==> a.args == "") }

  /** An answer lets a call run exactly when it is a yes, as the chooser narrowed it, and only a whole yes is remembered. */
  lemma AnswerRules(c: Config, info: Info, a: Answer)
    ensures var r := Resolve(c, info, a);
            && (r.run.Some? <==> SaidYes(c, a)) && (r.whole <==> SaidYesToAll(c, a))
            && (r.run.Some? ==> r.run.value == if SaidYesToAll(c, a) then info else info.(args := a.args))
  {
  }

  // From here on runs are read off their operations alone.

  /** The mode after ops: the last one set. */
  ghost function ModeAfter(mode: Mode, ops: seq<Op>): Mode {
    if ops == [] then mode
    else if ops[|ops| - 1].SetMode? then ops[|ops| - 1].mode
    else ModeAfter(mode, ops[..|ops| - 1])
  }

  ghost predicate Began(ops: seq<Op>, id: nat, info: Info) { exists g :: Begin(id, info, g) in ops }

  ghost predicate WholeYes(c: Config, ops: seq<Op>, id: nat) { exists a :: Settle(id, a) in ops && SaidYesToAll(c, a) }

  /** The user said yes in these ops to a call whose approval covers k. */
  ghost predicate Learned(c: Config, ops: seq<Op>, k: string) {
    c.remember && exists id: nat, b :: Began(ops, id, b) && WholeYes(c, ops, id) && Covers(c, b) == Some(k)
  }

  /** An approval given in these ops covers the call. */
  ghost predicate CoveredBy(c: Config, ops: seq<Op>, info: Info) {
    Covers(c, info).Some? && Learned(c, ops, Covers(c, info).value)
  }

  ghost predicate CallsTold(ops: seq<Op>, w: World) {
    && (forall id, info :: Began(ops, id, info) ==> id in w.calls && w.calls[id] == info)
    && (forall id :: id in w.calls ==> Began(ops, id, w.calls[id]))
    && (forall id, a :: Settle(id, a) in ops ==> id in w.calls)
  }

  ghost predicate KeysTold(c: Config, ops: seq<Op>, w: World) {
    forall k :: k in w.remembered <==> Learned(c, ops, k)
  }

  lemma MoreOps(ops: seq<Op>, op: Op)
    ensures forall x: Op :: x in ops + [op] <==> x in ops || x == op
    ensures forall id, info :: Began(ops + [op], id, info) <==> Began(ops, id, info) || (op.Begin? && op.id == id && op.info == info)
  {
    forall id, info ensures Began(ops + [op], id, info) <==> Began(ops, id, info) || (op.Begin? && op.id == id && op.info == info) {
      if Began(ops, id, info) {
        var g :| Begin(id, info, g) in ops;
        assert Begin(id, info, g) in ops + [op];
      }
      if op.Begin? && op.id == id && op.info == info { assert Begin(id, info, op.granted) in ops + [op]; }
    }
  }

  lemma MoreYes(c: Config, ops: seq<Op>, op: Op)
    ensures forall id: nat ::
              WholeYes(c, ops + [op], id) <==> WholeYes(c, ops, id) || (op.Settle? && op.id == id && SaidYesToAll(c, op.answer))
  {
    forall id: nat
      ensures WholeYes(c, ops + [op], id) <==> WholeYes(c, ops, id) || (op.Settle? && op.id == id && SaidYesToAll(c, op.answer))
    {
      if WholeYes(c, ops, id) {
        var a :| Settle(id, a) in ops && SaidYesToAll(c, a);
        assert Settle(id, a) in ops + [op];
      }
      if op.Settle? && op.id == id && SaidYesToAll(c, op.answer) { assert Settle(id, op.answer) in ops + [op]; }
    }
  }

  lemma CallsStep(c: Config, callable: Info -> bool, ops: seq<Op>, w: World, op: Op)
    requires Inv(c, callable, w) && CallsTold(ops, w) && Enabled(callable, w, op)
    ensures CallsTold(ops + [op], Next(c, w, op))
  {
    MoreOps(ops, op);
    NextCalls(c, w, op);
    assert op.Settle? ==> op.id in w.calls;
    hide Began, Inv, Next;
  }

  lemma NextCalls(c: Config, w: World, op: Op)
    requires op.Settle? ==> op.id in w.waiting
    ensures Next(c, w, op).calls == if op.Begin? then w.calls[op.id := op.info] else w.calls
    ensures !op.Settle? ==> Next(c, w, op).remembered == w.remembered
  {
    hide Decide, Resolve, Remembering;
  }

  /** What an answer adds to the keys. */
  lemma SettleKeys(c: Config, callable: Info -> bool, w: World, op: Op)
    requires Inv(c, callable, w) && op.Settle? && Enabled(callable, w, op)
    ensures op.id in w.calls
    ensures var key := Covers(c, w.calls[op.id]);
            Next(c, w, op).remembered ==
              if SaidYesToAll(c, op.answer) && c.remember && key.Some? then w.remembered + {key.value} else w.remembered
  {
    assert op.id in w.calls && w.waiting[op.id] == Prepared(c, w.calls[op.id]) && w.calls[op.id].cls.None?;
    PreparedFlags(c, w.calls[op.id]);
    AnswerRules(c, w.waiting[op.id], op.answer);
    hide Inv, Resolve, Prepared, RememberKey, Covers, SaidYesToAll, SaidYes;
  }

  lemma KeysStep(c: Config, callable: Info -> bool, ops: seq<Op>, w: World, op: Op)
    requires Inv(c, callable, w) && CallsTold(ops, w) && KeysTold(c, ops, w) && Enabled(callable, w, op)
    ensures KeysTold(c, ops + [op], Next(c, w, op))
  {
    var w' := Next(c, w, op);
    MoreOps(ops, op);
    MoreYes(c, ops, op);
    NextCalls(c, w, op);
    if op.Settle? { SettleKeys(c, callable, w, op); }
    assert forall id: nat :: WholeYes(c, ops, id) ==> id in w.calls;
    hide Inv, Next, Began, WholeYes, Covers, SaidYesToAll;
    forall k ensures k in w'.remembered <==> Learned(c, ops + [op], k) {
      assert k in w.remembered <==> Learned(c, ops, k);
      if Learned(c, ops, k) {
        var id: nat, b :| Began(ops, id, b) && WholeYes(c, ops, id) && Covers(c, b) == Some(k);
        assert Began(ops + [op], id, b) && WholeYes(c, ops + [op], id);
      }
      if Learned(c, ops + [op], k) {
        var id: nat, b :| Began(ops + [op], id, b) && WholeYes(c, ops + [op], id) && Covers(c, b) == Some(k);
        if Began(ops, id, b) && WholeYes(c, ops, id) {
          assert Learned(c, ops, k);
        }
      }
      if k in w'.remembered && k !in w.remembered {
        assert Began(ops + [op], op.id, w.calls[op.id]) && WholeYes(c, ops + [op], op.id);
      }
    }
  }

  lemma {:induction false} RunTells(c: Config, callable: Info -> bool, mode: Mode, ops: seq<Op>)
    requires Exec(c, callable, Start(mode), ops).Some?
    ensures var w := Exec(c, callable, Start(mode), ops).value;
            w.mode == ModeAfter(mode, ops) && CallsTold(ops, w) && KeysTold(c, ops, w)
  {
    hide Inv, CallsTold, KeysTold, Next, Enabled;
    if ops == [] {
      NoneTold(c, mode);
    } else {
      var front, op := ops[..|ops| - 1], ops[|ops| - 1];
      RunTells(c, callable, mode, front);
      ExecKeeps(c, callable, mode, front);
      var w := Exec(c, callable, Start(mode), front).value;
      CallsStep(c, callable, front, w, op);
      KeysStep(c, callable, front, w, op);
      NextMode(c, callable, w, op);
      assert ops == front + [op];
    }
  }

  lemma NoneTold(c: Config, mode: Mode)
    ensures CallsTold([], Start(mode)) && KeysTold(c, [], Start(mode))
  {
    hide Covers;
  }

  lemma NextMode(c: Config, callable: Info -> bool, w: World, op: Op)
    requires Enabled(callable, w, op)
    ensures Next(c, w, op).mode == if op.SetMode? then op.mode else w.mode
  {
    hide Decide, Resolve, Remembering;
  }

  /** In every run, when a call begins: it is sent on at once exactly if it is neither forbidden nor to be asked about each
      time, and an approval given before covers it, or its tool is not denied and it is granted, its tool is allowed, or
      no rule covers its tool and the mode last set allows it. It is refused, or put to the user, exactly otherwise. */
  lemma BeginDecides(c: Config, callable: Info -> bool, mode: Mode, ops: seq<Op>, id: nat, info: Info, granted: bool)
    requires Exec(c, callable, Start(mode), ops + [Begin(id, info, granted)]).Some?
    ensures var w := Exec(c, callable, Start(mode), ops + [Begin(id, info, granted)]).value;
            var covered := CoveredBy(c, ops, info);
            && (id in w.sent <==> !Refused(c, covered, info) && Unasked(c, ModeAfter(mode, ops), covered, info, granted))
            && (id in w.waiting <==> !Refused(c, covered, info) && !Unasked(c, ModeAfter(mode, ops), covered, info, granted))
            && (id in w.sent ==> w.sent[id].name == info.name && w.sent[id].args == info.args)
  {
    var all, op := ops + [Begin(id, info, granted)], Begin(id, info, granted);
    assert all[..|ops|] == ops;
    RunTells(c, callable, mode, ops);
    ExecKeeps(c, callable, mode, ops);
    var w := Exec(c, callable, Start(mode), ops).value;
    assert Exec(c, callable, Start(mode), all) == Some(Next(c, w, op)) && Enabled(callable, w, op);
    FreshId(c, callable, w, id);
    DecidesBy(c, w.mode, w.remembered, info, granted);
    DecideFacts(c, w.mode, w.remembered, info, granted);
    assert CoveredBy(c, ops, info) <==> c.remember && Covers(c, info).Some? && Covers(c, info).value in w.remembered;
    hide Exec, Inv, Covers, Refused, Unasked, Decide, Prepared, Learned, CallsTold;
  }

  lemma FreshId(c: Config, callable: Info -> bool, w: World, id: nat)
    requires Inv(c, callable, w) && id !in w.calls
    ensures id !in w.sent && id !in w.waiting && id !in w.accepted
  {
  }

  /** And a call is accepted, and then sent on, exactly by an answer that says yes to it while it waits. */
  lemma SettleDecides(c: Config, callable: Info -> bool, mode: Mode, ops: seq<Op>, id: nat, a: Answer)
    requires Exec(c, callable, Start(mode), ops + [Settle(id, a)]).Some?
    ensures var w := Exec(c, callable, Start(mode), ops + [Settle(id, a)]).value;
            && (id in w.sent <==> SaidYes(c, a)) && (id in w.accepted <==> SaidYes(c, a)) && id in w.calls
            && (id in w.sent ==>
                  && w.sent[id].name == w.calls[id].name
                  && w.sent[id].args == if SaidYesToAll(c, a) then w.calls[id].args else a.args)
  {
    var all, op := ops + [Settle(id, a)], Settle(id, a);
    assert all[..|ops|] == ops;
    ExecKeeps(c, callable, mode, ops);
    var w := Exec(c, callable, Start(mode), ops).value;
    assert Exec(c, callable, Start(mode), all) == Some(Next(c, w, op)) && Enabled(callable, w, op);
    assert id in w.calls && id !in w.sent && id !in w.accepted && w.waiting[id] == Prepared(c, w.calls[id]);
    DecideFacts(c, w.mode, w.remembered, w.calls[id], false);
    AnswerRules(c, w.waiting[id], a);
    hide Exec, Inv, Prepared, Resolve, Remembering, SaidYes, Decide;
  }

  /** Some beginning of the run ends with the begin of call id, which then could run unasked. */
  ghost predicate BeganUnasked(c: Config, mode: Mode, ops: seq<Op>, id: nat, n: nat) {
    && n < |ops| && ops[n].Begin? && ops[n].id == id
    && Unasked(c, ModeAfter(mode, ops[..n]), CoveredBy(c, ops[..n], ops[n].info), ops[n].info, ops[n].granted)
  }

  /** So in every run a call that is sent on was accepted by the user, or could run unasked when it began. */
  lemma {:induction false} NothingRunsUnasked(c: Config, callable: Info -> bool, mode: Mode, ops: seq<Op>, id: nat)
    requires Exec(c, callable, Start(mode), ops).Some? && id in Exec(c, callable, Start(mode), ops).value.sent
    ensures (exists a :: Settle(id, a) in ops && SaidYes(c, a)) || exists n: nat :: BeganUnasked(c, mode, ops, id, n)
  {
    if ops != [] {
      var front, op := ops[..|ops| - 1], ops[|ops| - 1];
      assert ops == front + [op];
      var w := Exec(c, callable, Start(mode), front).value;
      if id in w.sent {
        NothingRunsUnasked(c, callable, mode, front, id);
        StillUnasked(c, mode, front, op, id);
      } else if op.Begin? && op.id == id {
        BeginDecides(c, callable, mode, front, id, op.info, op.granted);
        assert ops[..|front|] == front && BeganUnasked(c, mode, ops, id, |front|);
      } else if op.Settle? && op.id == id {
        SettleDecides(c, callable, mode, front, id, op.answer);
        assert Settle(id, op.answer) in ops;
      }
    }
  }

  lemma StillUnasked(c: Config, mode: Mode, front: seq<Op>, op: Op, id: nat)
    ensures (exists n: nat :: BeganUnasked(c, mode, front, id, n)) ==> exists n: nat :: BeganUnasked(c, mode, front + [op], id, n)
    ensures (exists a :: Settle(id, a) in front && SaidYes(c, a)) ==> exists a :: Settle(id, a) in front + [op] && SaidYes(c, a)
  {
    hide Unasked, CoveredBy, SaidYes;
    if n: nat :| BeganUnasked(c, mode, front, id, n) {
      assert (front + [op])[..n] == front[..n];
      assert BeganUnasked(c, mode, front + [op], id, n);
    }
    if a :| Settle(id, a) in front && SaidYes(c, a) {
      assert Settle(id, a) in front + [op];
    }
  }

  // ---------------------------------------------------------------- denied tools

  /** A call to a denied tool that the classifier does not forbid. */
  predicate DeniedCall(c: Config, info: Info) { Has(c, info.name, RuleDeny) && !Judged(c, info, Forbidden) }

  ghost predicate Clash(c: Config, callable: Info -> bool, a: Info, b: Info) {
    && callable(a) && callable(b) && a.cls.None? && b.cls.None? && DeniedCall(c, a) && Remembers(c, b)
    && RememberKey(c, Prepared(c, a)).Some? && RememberKey(c, Prepared(c, a)) == RememberKey(c, Prepared(c, b))
  }

  /** No call that may be remembered shares its key with a call to a denied tool, or nothing is ever remembered. */
  ghost predicate Separated(c: Config, callable: Info -> bool) {
    CanRemember(c) ==> forall a, b :: !Clash(c, callable, a, b)
  }

  ghost predicate NoneDenied(c: Config, w: World) {
    forall id :: id in w.sent ==> id in w.calls && !Has(c, w.calls[id].name, RuleDeny)
  }

  lemma DenyStep(c: Config, callable: Info -> bool, w: World, op: Op)
    requires Inv(c, callable, w) && Enabled(callable, w, op) && Separated(c, callable) && NoneDenied(c, w)
    ensures NoneDenied(c, Next(c, w, op))
  {
    if op.Begin? {
      DecideFacts(c, w.mode, w.remembered, op.info, op.granted);
      var p := Prepared(c, op.info);
      if Has(c, op.info.name, RuleDeny) && RememberKey(c, p).Some? {
        NotRemembered(c, callable, w.remembered, op.info);
      }
      hide Decide, Prepared, RememberKey, Has, Judged, Grounded;
    }
  }

  lemma NotRemembered(c: Config, callable: Info -> bool, remembered: set<string>, a: Info)
    requires Grounded(c, callable, remembered) && Separated(c, callable) && callable(a) && a.cls.None?
    requires Has(c, a.name, RuleDeny) && RememberKey(c, Prepared(c, a)).Some?
    ensures Judged(c, a, Forbidden) || RememberKey(c, Prepared(c, a)).value !in remembered
  {
    hide Prepared, RememberKey, Judged, Has;
    var k := RememberKey(c, Prepared(c, a)).value;
    if !Judged(c, a, Forbidden) && CanRemember(c) {
      forall b | callable(b) && b.cls.None? && Remembers(c, b) ensures RememberKey(c, Prepared(c, b)) != Some(k) {
        assert !Clash(c, callable, a, b);
      }
    }
  }

  lemma {:induction false} SeparatedIsEnough(c: Config, callable: Info -> bool, mode: Mode, ops: seq<Op>)
    requires Separated(c, callable) && Exec(c, callable, Start(mode), ops).Some?
    ensures NoneDenied(c, Exec(c, callable, Start(mode), ops).value)
  {
    if ops != [] {
      var front, op := ops[..|ops| - 1], ops[|ops| - 1];
      SeparatedIsEnough(c, callable, mode, front);
      ExecKeeps(c, callable, mode, front);
      DenyStep(c, callable, Exec(c, callable, Start(mode), front).value, op);
    }
  }

  /** The run in which an approved call's key lets a denied tool through. */
  function LeakyRun(c: Config, a: Info, b: Info): seq<Op> {
    [Begin(0, b, false), Settle(0, if c.asks then Reply(true) else Choice(true, "")), Begin(1, a, false)]
  }

  lemma ClashLeaks(c: Config, callable: Info -> bool, a: Info, b: Info)
    requires CanRemember(c) && Clash(c, callable, a, b)
    ensures var w := Exec(c, callable, Start(AlwaysAsk), LeakyRun(c, a, b)); w.Some? && !NoneDenied(c, w.value)
  {
    var ops, w0 := LeakyRun(c, a, b), Start(AlwaysAsk);
    var pb, pa := Prepared(c, b), Prepared(c, a);
    DecideFacts(c, AlwaysAsk, {}, b, false);
    assert Decide(c, AlwaysAsk, {}, b, false) == Ask(pb);
    var w1 := Next(c, w0, ops[0]);
    assert w1.waiting == map[0 := pb] && w1.calls == map[0 := b];
    var w2 := Next(c, w1, ops[1]);
    var k := RememberKey(c, pa).value;
    assert w2.remembered == {k} && w2.calls == map[0 := b];
    assert Decide(c, AlwaysAsk, {k}, a, false) == Run(pa);
    var w3 := Next(c, w2, ops[2]);
    assert 1 in w3.sent && w3.calls[1] == a;
    assert ops[..2][..1] == ops[..1] && ops[..1][..0] == [];
    assert Exec(c, callable, w0, ops[..1]) == Some(w1);
    assert Exec(c, callable, w0, ops[..2]) == Some(w2);
  }

  /** A gate sends no call to a denied tool, in any run, exactly when its keys are separated. */
  lemma DenyHoldsIffSeparated(c: Config, callable: Info -> bool)
    ensures (forall mode, ops ::
               var w := Exec(c, callable, Start(mode), ops); w.Some? ==> NoneDenied(c, w.value))
       <==> Separated(c, callable)
  {
    if Separated(c, callable) {
      forall mode, ops | Exec(c, callable, Start(mode), ops).Some?
        ensures NoneDenied(c, Exec(c, callable, Start(mode), ops).value)
      {
        SeparatedIsEnough(c, callable, mode, ops);
      }
    } else {
      var a, b :| Clash(c, callable, a, b);
      ClashLeaks(c, callable, a, b);
    }
  }

  // ---------------------------------------------------------------- when keys are separated

  ghost predicate NulFree(s: string) { forall i :: 0 <= i < |s| ==> s[i] != NUL }

  /** The application's keys, if it sets any, name one tool each and hold no NUL. */
  ghost predicate ToolScoped(c: Config, callable: Info -> bool) {
    c.key.Some? ==> forall a :: callable(a) ==>
      var k := c.key.value(a);
      k.Some? ==> NulFree(k.value) && forall b :: callable(b) && c.key.value(b) == k ==> a.name == b.name
  }

  lemma PrefixToNul(a: string, x: string, b: string, y: string)
    requires NulFree(a) && NulFree(b) && a + [NUL] + x == b + [NUL] + y
    ensures a == b
  {
    var s, t := a + [NUL] + x, b + [NUL] + y;
    forall i | 0 <= i < |a| ensures s[i] != NUL { assert s[i] == a[i]; }
    forall i | 0 <= i < |b| ensures t[i] != NUL { assert t[i] == b[i]; }
    assert s[|a|] == NUL && t[|b|] == NUL;
    assert s[..|a|] == a && t[..|b|] == b;
  }

  lemma HasNul(a: string, x: string)
    ensures !NulFree(a + [NUL] + x)
  {
    assert (a + [NUL] + x)[|a|] == NUL;
  }

  /** With names free of NUL, and tool-scoped keys, equal keys mean equal tools. */
  lemma SameKeySameTool(c: Config, callable: Info -> bool, a: Info, b: Info)
    requires callable(a) && callable(b) && a.cls.None? && b.cls.None?
    requires NulFree(a.name) && NulFree(b.name) && ToolScoped(c, callable)
    requires RememberKey(c, Prepared(c, a)).Some? && RememberKey(c, Prepared(c, a)) == RememberKey(c, Prepared(c, b))
    ensures a.name == b.name
  {
    var va, vb := c.classify(a), c.classify(b);
    if va.Some? { ClassifiedKeeps(a, va.value); }
    if vb.Some? { ClassifiedKeeps(b, vb.value); }
    hide Classified;
    if va.Some? && vb.Some? {
      PrefixToNul(a.name, va.value.key, b.name, vb.value.key);
    } else if va.Some? {
      HasNul(a.name, va.value.key);
    } else if vb.Some? {
      HasNul(b.name, vb.value.key);
    }
  }

  /** Tool names free of NUL and tool-scoped keys keep denied tools apart. */
  lemma NulFreeSeparates(c: Config, callable: Info -> bool)
    requires ToolScoped(c, callable) && forall a :: callable(a) ==> NulFree(a.name)
    ensures Separated(c, callable)
  {
    hide RememberKey, Prepared, ToolScoped, NulFree;
    forall a, b ensures !Clash(c, callable, a, b) {
      if Clash(c, callable, a, b) { SameKeySameTool(c, callable, a, b); }
    }
  }

  function ClassifyA(info: Info): Option<Class> { if info.name == "a" then Some(Class(Unclear, "b")) else None }

  function AnyCall(info: Info): bool { true }

  /** The condition is needed: tool "a", whose calls the classifier keys with "b", and a denied tool whose name is a, NUL,
      b share a key, so approving the first lets the second through. */
  lemma NulInNameLeaks()
    ensures var denied := "a" + [NUL] + "b";
            var c := Config(map[denied := RuleDeny], ClassifyA, None, true, true, false);
            exists ops :: var w := Exec(c, AnyCall, Start(AlwaysAsk), ops); w.Some? && !NoneDenied(c, w.value)
  {
    var denied := "a" + [NUL] + "b";
    var c := Config(map[denied := RuleDeny], ClassifyA, None, true, true, false);
    var a, b := Info(denied, "", false, true, None), Info("a", "", false, true, None);
    assert |denied| == 3 && |"a"| == 1;
    assert Prepared(c, a) == a && Prepared(c, b).name == "a";
    assert RememberKey(c, a) == Some(denied) && RememberKey(c, Prepared(c, b)) == Some("a" + [NUL] + "b");
    assert Clash(c, AnyCall, a, b);
    ClashLeaks(c, AnyCall, a, b);
  }

  // ---------------------------------------------------------------- modes

  function Looseness(m: Mode): nat {
    match m
    case AlwaysAsk => 0
    case ReadOnlyAuto => 1
    case ReversibleAuto => 2
    case AlwaysAllow => 3
  }

  /** A looser mode refuses the same calls and asks about no more of them; so switching modes never turns a call that
      would run into one that is refused. */
  lemma LooserAsksLess(c: Config, m: Mode, m': Mode, remembered: set<string>, info: Info, granted: bool)
    requires Looseness(m) <= Looseness(m')
    ensures var d, d' := Decide(c, m, remembered, info, granted), Decide(c, m', remembered, info, granted);
            (d.Deny? <==> d'.Deny?) && (d'.Ask? ==> d.Ask?) && (d.Run? ==> d' == d)
  {
    hide RememberKey, Classified;
  }

  // ---------------------------------------------------------------- the class

  class TieredApproval {
    const c: Config
    var mode: Mode
    var remembered: set<string>

    constructor (c: Config, mode: Mode)
      ensures this.c == c && this.mode == mode && remembered == {}
    {
      this.c, this.mode, remembered := c, mode, {};
    }

    method SetDefaultMode(m: Mode)
      modifies this`mode
      ensures mode == m
    {
      mode := m;
    }

    /** WrapToolCall up to the point where the call is sent on, refused, or put to the user. */
    method WrapToolCall(call: Info, granted: bool) returns (d: Decision)
      ensures d == Decide(c, mode, remembered, call, granted)
    {
      hide RememberKey, Classified;
      var info := call;
      var v := c.classify(call);
      if v.Some? {
        if v.value.disposition == Forbidden { return Deny; }
        info := Classified(info, v.value);
        if v.value.disposition == AskAlways {
          if call.name in c.rules && c.rules[call.name] == RuleDeny { return Deny; }
          return Ask(info);
        }
        NameKept(call, v.value);
      }
      var key := RememberKey(c, info);
      if c.remember && key.Some? && key.value in remembered { return Run(info); }
      var hasRule := info.name in c.rules;
      if hasRule && c.rules[info.name] == RuleDeny { return Deny; }
      if granted { return Run(info); }
      if hasRule {
        match c.rules[info.name]
        case RuleAllow => return Run(info);
        case RuleDeny => return Deny;
        case RuleAsk => return Ask(info);
      }
      d := ByMode(mode, info);
    }

    /** doAsk and doChoice: what becomes of an asked call, and what is remembered. */
    method DoAsk(info: Info, answer: Answer) returns (run: Option<Info>)
      modifies this`remembered
      ensures var r := Resolve(c, info, answer);
              run == r.run && remembered == if r.whole then Remembering(c, old(remembered), info) else old(remembered)
    {
      hide RememberKey;
      match answer {
        case Failed => return None;
        case Choice(approved, args) =>
          if !c.chooses || !approved { return None; }
          if args != "" { return Some(info.(args := args)); }
        case Reply(yes) =>
          if !c.asks || !yes { return None; }
      }
      if c.remember {
        var key := RememberKey(c, info);
        if key.Some? { remembered := remembered + {key.value}; }
      }
      run := Some(info);
    }
  }

  lemma NameKept(info: Info, v: Class)
    ensures Classified(info, v).name == info.name
  {
  }
}
