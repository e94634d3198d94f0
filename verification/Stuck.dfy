/** The detector that notices a turn repeating itself.

A turn's record is split into steps, each step gets a key or is left out, and the detector looks at the steps
after the last one left out. The code tries the patterns in the order repeat, same error, alternation. */
module Stuck {
  import opened Wrappers
  import opened Messages

  // ---------------------------------------------------------------- splitting the record

  datatype StepRecord = StepRecord(step: nat, assistant: Message, results: seq<Message>)

  function Records(turn: seq<Message>): seq<StepRecord> {
    if turn == [] then [] else Extended(Records(turn[..|turn| - 1]), turn[|turn| - 1])
  }

  /** An assistant message opens a step; any other joins the step that is open, if one is. */
  function Extended(rs: seq<StepRecord>, m: Message): seq<StepRecord> {
    if m.role == ASSISTANT then rs + [StepRecord(|rs| + 1, m, [])]
    else if rs == [] then []
    else rs[|rs| - 1 := rs[|rs| - 1].(results := rs[|rs| - 1].results + [m])]
  }

  method SplitRecord(turn: seq<Message>) returns (out: seq<StepRecord>)
    ensures out == Records(turn)
  {
    out := [];
    for i := 0 to |turn|
      invariant out == Records(turn[..i])
    {
      assert turn[..i + 1][..i] == turn[..i];
      var m := turn[i];
      if m.role == ASSISTANT {
        out := out + [StepRecord(|out| + 1, m, [])];
        continue;
      }
      if |out| > 0 {
        var last := out[|out| - 1];
        out := out[|out| - 1 := last.(results := last.results + [m])];
      }
    }
    assert turn[..|turn|] == turn;
  }

  function Flatten(rs: seq<StepRecord>): seq<Message> {
    if rs == [] then [] else Flatten(rs[..|rs| - 1]) + ([rs[|rs| - 1].assistant] + rs[|rs| - 1].results)
  }

  lemma {:induction false} StepsCountFromOne(turn: seq<Message>)
    ensures forall i :: 0 <= i < |Records(turn)| ==> Records(turn)[i].step == i + 1
  {
    if turn != [] { StepsCountFromOne(turn[..|turn| - 1]); }
  }

  lemma FlattenBack(rs: seq<StepRecord>, r: StepRecord)
    ensures Flatten(rs + [r]) == Flatten(rs) + ([r.assistant] + r.results)
  {
    assert (rs + [r])[..|rs|] == rs;
  }

  lemma FlattenGrowLast(rs: seq<StepRecord>, m: Message)
    requires rs != []
    ensures Flatten(rs[|rs| - 1 := rs[|rs| - 1].(results := rs[|rs| - 1].results + [m])]) == Flatten(rs) + [m]
  {
    hide Flatten;
    var n := |rs| - 1;
    var front, l := rs[..n], rs[n];
    var l' := l.(results := l.results + [m]);
    FlattenBack(front, l);
    FlattenBack(front, l');
    assert rs == front + [l] && rs[n := l'] == front + [l'];
    Regroup(Flatten(front), [l.assistant], l.results, [m]);
  }

  lemma FlattenExtended(rs: seq<StepRecord>, m: Message)
    ensures Extended(rs, m) == [] <==> rs == [] && m.role != ASSISTANT
    ensures Flatten(Extended(rs, m)) == if m.role == ASSISTANT || rs != [] then Flatten(rs) + [m] else []
  {
    if m.role == ASSISTANT {
      FlattenBack(rs, StepRecord(|rs| + 1, m, []));
      assert [m] + [] == [m];
    } else if rs != [] {
      FlattenGrowLast(rs, m);
    }
  }

  lemma Regroup(a: seq<Message>, b: seq<Message>, c: seq<Message>, d: seq<Message>)
    ensures a + (b + (c + d)) == a + (b + c) + d
  {
  }

  /** The messages before the first assistant message. */
  function Preamble(turn: seq<Message>): (k: nat)
    ensures k <= |turn| && forall i :: 0 <= i < k ==> turn[i].role != ASSISTANT
    ensures k < |turn| ==> turn[k].role == ASSISTANT
  {
    if turn == [] || turn[0].role == ASSISTANT then 0 else 1 + Preamble(turn[1..])
  }

  lemma PreambleOfFront(turn: seq<Message>)
    requires turn != []
    ensures var n := |turn| - 1; var k := Preamble(turn[..n]);
            Preamble(turn) == if k < n || turn[n].role == ASSISTANT then k else |turn|
  {
    var n := |turn| - 1;
    forall i | 0 <= i < n ensures turn[..n][i] == turn[i] {}
  }

  lemma SuffixGrows(turn: seq<Message>, k: nat)
    requires k < |turn|
    ensures turn[k..] == turn[..|turn| - 1][k..] + [turn[|turn| - 1]] && turn[|turn|..] == []
  {
  }

  /** Splitting loses nothing but what precedes the first assistant message. */
  lemma {:induction false} RecordsCoverTurn(turn: seq<Message>)
    ensures Records(turn) == [] <==> Preamble(turn) == |turn|
    ensures Flatten(Records(turn)) == turn[Preamble(turn)..]
  {
    if turn != [] {
      var n := |turn| - 1;
      var front, m := turn[..n], turn[n];
      RecordsCoverTurn(front);
      PreambleOfFront(turn);
      var rs := Records(front);
      assert Records(turn) == Extended(rs, m);
      FlattenExtended(rs, m);
      hide *;
      SuffixGrows(turn, Preamble(front));
    } else {
      assert Flatten([]) == [];
    }
  }

  // ---------------------------------------------------------------- keys and the segment

  datatype Key = Key(call: string, result: string, error: bool, tools: seq<string>)

  datatype Keyed = Keyed(step: nat, key: Key)

  predicate Same(a: Keyed, b: Keyed) { a.key.call == b.key.call && a.key.result == b.key.result }

  predicate SameError(a: Keyed, b: Keyed) { a.key.error && a.key.result == b.key.result }

  /** The keyed steps after the last step left out. */
  function Segment(recs: seq<StepRecord>, keyOf: StepRecord -> Option<Key>): seq<Keyed> {
    if recs == [] then []
    else
      var r := recs[|recs| - 1];
      match keyOf(r)
      case None => []
      case Some(k) => Segment(recs[..|recs| - 1], keyOf) + [Keyed(r.step, k)]
  }

  /** The segment is the longest end of the record whose steps all have a key: each with its step and its key, and the step
      before it, if any, has none. */
  lemma {:induction false} SegmentIsLastKeyed(recs: seq<StepRecord>, keyOf: StepRecord -> Option<Key>)
    ensures var seg := Segment(recs, keyOf); var n := |recs| - |seg|;
            && n >= 0 && (n > 0 ==> keyOf(recs[n - 1]) == None)
            && forall i :: 0 <= i < |seg| ==> seg[i].step == recs[n + i].step && keyOf(recs[n + i]) == Some(seg[i].key)
  {
    if recs != [] { SegmentIsLastKeyed(recs[..|recs| - 1], keyOf); }
  }

  // ---------------------------------------------------------------- the patterns

  function Last(seg: seq<Keyed>): Keyed requires seg != [] { seg[|seg| - 1] }

  function Tail(seg: seq<Keyed>, length: nat): (t: seq<Keyed>)
    requires length <= |seg|
    ensures |t| == length
  {
    seg[|seg| - length..]
  }

  /** The last r steps all have the last step's key. */
  ghost predicate RepeatTail(seg: seq<Keyed>, r: nat) {
    1 <= r <= |seg| && forall i :: |seg| - r <= i < |seg| ==> Same(seg[i], Last(seg))
  }

  /** The last r steps all failed with the last step's result. */
  ghost predicate ErrorTail(seg: seq<Keyed>, r: nat) {
    1 <= r <= |seg| && forall i :: |seg| - r <= i < |seg| ==> SameError(seg[i], Last(seg))
  }

  /** The last 2p steps are A B A B and so on, with A and B different. */
  ghost predicate AlternatingTail(seg: seq<Keyed>, p: nat) {
    && 1 <= p && 2 * p <= |seg| && !Same(seg[|seg| - 2], Last(seg))
    && forall i :: |seg| - 2 * p <= i < |seg| ==> Same(seg[i], seg[if (|seg| - i) % 2 == 1 then |seg| - 1 else |seg| - 2])
  }

  ghost predicate Repeats(seg: seq<Keyed>, t: int) { t > 0 && exists r: nat :: r >= t && RepeatTail(seg, r) }

  ghost predicate FailsAlike(seg: seq<Keyed>, t: int) { t > 0 && exists r: nat :: r >= t && ErrorTail(seg, r) }

  ghost predicate Alternates(seg: seq<Keyed>, t: int) { t > 0 && exists p: nat :: p >= t && AlternatingTail(seg, p) }

  // ---------------------------------------------------------------- detection

  datatype Pattern = Repeat | FailAlike | Alternate

  datatype Finding = Finding(pattern: Pattern, count: nat, steps: seq<nat>, tools: seq<string>, call: string)

  function StepNumbers(steps: seq<Keyed>): (r: seq<nat>)
    ensures |r| == |steps| && forall i :: 0 <= i < |r| ==> r[i] == steps[i].step
  {
    seq(|steps|, i requires 0 <= i < |steps| => steps[i].step)
  }

  ghost predicate NoDuplicates(ts: seq<string>) { forall i, j :: 0 <= i < j < |ts| ==> ts[i] != ts[j] }

  ghost predicate ExactlyTheTools(steps: seq<Keyed>, tools: seq<string>) {
    forall t :: t in tools <==> exists i :: 0 <= i < |steps| && t in steps[i].key.tools
  }

  function CutTo200(c: string): string { if |c| > 200 then c[..200] else c }

  method Report(pattern: Pattern, count: nat, steps: seq<Keyed>) returns (f: Finding)
    requires steps != []
    ensures f.pattern == pattern && f.count == count && f.steps == StepNumbers(steps)
    ensures NoDuplicates(f.tools) && ExactlyTheTools(steps, f.tools)
    ensures f.call == CutTo200(Last(steps).key.call)
    ensures var call := steps[|steps| - 1].key.call; f.call == if |call| > 200 then call[..200] else call
  {
    var numbers, tools := [], [];
    for i := 0 to |steps|
      invariant numbers == StepNumbers(steps)[..i]
      invariant NoDuplicates(tools)
      invariant ExactlyTheTools(steps[..i], tools)
    {
      numbers := numbers + [steps[i].step];
      ghost var was := tools;
      var ts := steps[i].key.tools;
      for j := 0 to |ts|
        invariant NoDuplicates(tools)
        invariant forall t :: t in tools <==> t in was || t in ts[..j]
      {
        if ts[j] !in tools { tools := tools + [ts[j]]; }
      }
      assert ts[..|ts|] == ts;
      assert steps[..i + 1] == steps[..i] + [steps[i]];
    }
    assert steps[..|steps|] == steps;
    f := Finding(pattern, count, numbers, tools, CutTo200(Last(steps).key.call));
  }

  /** The longest run of the last step's key. */
  method RepeatRun(seg: seq<Keyed>) returns (run: nat)
    requires seg != []
    ensures RepeatTail(seg, run) && forall r: nat :: RepeatTail(seg, r) ==> r <= run
  {
    var n := |seg|;
    run := 1;
    while run < n && seg[n - 1 - run].key.call == seg[n - 1].key.call && seg[n - 1 - run].key.result == seg[n - 1].key.result
      invariant RepeatTail(seg, run)
    {
      run := run + 1;
    }
  }

  method ErrorRun(seg: seq<Keyed>) returns (run: nat)
    requires seg != [] && Last(seg).key.error
    ensures ErrorTail(seg, run) && forall r: nat :: ErrorTail(seg, r) ==> r <= run
  {
    var n := |seg|;
    run := 1;
    while run < n && seg[n - 1 - run].key.error && seg[n - 1 - run].key.result == seg[n - 1].key.result
      invariant ErrorTail(seg, run)
    {
      run := run + 1;
    }
  }

  /** Steps two apart agree over the last `length` steps. */
  ghost predicate EveryOther(seg: seq<Keyed>, length: nat) {
    2 <= length <= |seg| && forall i :: |seg| - length <= i < |seg| - 2 ==> Same(seg[i], seg[i + 2])
  }

  /** Agreeing two apart is the same as alternating between the last two steps. */
  lemma {:induction false} EveryOtherAlternates(seg: seq<Keyed>, length: nat, i: nat)
    requires EveryOther(seg, length) && |seg| - length <= i < |seg|
    ensures Same(seg[i], seg[if (|seg| - i) % 2 == 1 then |seg| - 1 else |seg| - 2])
    decreases |seg| - i
  {
    if i < |seg| - 2 {
      assert Same(seg[i], seg[i + 2]);
      EveryOtherAlternates(seg, length, i + 2);
    }
  }

  lemma AlternatingIsEveryOther(seg: seq<Keyed>, p: nat)
    requires |seg| >= 2 && !Same(seg[|seg| - 2], Last(seg)) && 1 <= p
    ensures AlternatingTail(seg, p) <==> EveryOther(seg, 2 * p)
  {
    var n := |seg|;
    if AlternatingTail(seg, p) {
      forall i | n - 2 * p <= i < n - 2 ensures Same(seg[i], seg[i + 2]) {
        var a := seg[if (n - i) % 2 == 1 then n - 1 else n - 2];
        assert (n - (i + 2)) % 2 == (n - i) % 2;
        assert Same(seg[i], a) && Same(seg[i + 2], a);
      }
    }
    if EveryOther(seg, 2 * p) {
      forall i | n - 2 * p <= i < n ensures Same(seg[i], seg[if (n - i) % 2 == 1 then n - 1 else n - 2]) {
        EveryOtherAlternates(seg, 2 * p, i);
      }
    }
  }

  lemma EveryOtherBound(seg: seq<Keyed>, length: nat, other: nat)
    requires EveryOther(seg, length) && EveryOther(seg, other)
    requires length < |seg| ==> !Same(seg[|seg| - 1 - length], seg[|seg| - 1 - length + 2])
    ensures other <= length
  {
  }

  /** The largest whole number of alternating pairs at the end. */
  method AlternatingPairs(seg: seq<Keyed>) returns (pairs: nat)
    requires |seg| >= 2 && !Same(seg[|seg| - 2], Last(seg))
    ensures AlternatingTail(seg, pairs) && forall p: nat :: AlternatingTail(seg, p) ==> p <= pairs
  {
    var n := |seg|;
    var length := 2;
    while length < n && seg[n - 1 - length].key.call == seg[n + 1 - length].key.call
          && seg[n - 1 - length].key.result == seg[n + 1 - length].key.result
      invariant EveryOther(seg, length)
    {
      length := length + 1;
    }
    pairs := length / 2;
    assert EveryOther(seg, 2 * pairs);
    AlternatingIsEveryOther(seg, pairs);
    forall p: nat | AlternatingTail(seg, p) ensures p <= pairs {
      AlternatingIsEveryOther(seg, p);
      EveryOtherBound(seg, length, 2 * p);
    }
  }

  /** f reports the maximal run of its pattern at the end of the segment: its steps, its tools and its latest call. */
  ghost predicate Reports(seg: seq<Keyed>, f: Finding) {
    var length := if f.pattern == Alternate then 2 * f.count else f.count;
    && 1 <= length <= |seg| && f.steps == StepNumbers(Tail(seg, length))
    && NoDuplicates(f.tools) && ExactlyTheTools(Tail(seg, length), f.tools) && f.call == CutTo200(Last(seg).key.call)
    && match f.pattern
       case Repeat => RepeatTail(seg, f.count) && forall r: nat :: RepeatTail(seg, r) ==> r <= f.count
       case FailAlike => ErrorTail(seg, f.count) && forall r: nat :: ErrorTail(seg, r) ==> r <= f.count
       case Alternate => AlternatingTail(seg, f.count) && forall p: nat :: AlternatingTail(seg, p) ==> p <= f.count
  }

  lemma ReportIsMaximal(seg: seq<Keyed>, f: Finding)
    requires var length := if f.pattern == Alternate then 2 * f.count else f.count;
             && 1 <= length <= |seg| && f.steps == StepNumbers(Tail(seg, length))
             && NoDuplicates(f.tools) && ExactlyTheTools(Tail(seg, length), f.tools)
             && f.call == CutTo200(Last(Tail(seg, length)).key.call)
    requires f.pattern == Repeat ==> RepeatTail(seg, f.count) && forall r: nat :: RepeatTail(seg, r) ==> r <= f.count
    requires f.pattern == FailAlike ==> ErrorTail(seg, f.count) && forall r: nat :: ErrorTail(seg, r) ==> r <= f.count
    requires f.pattern == Alternate ==>
               AlternatingTail(seg, f.count) && forall p: nat :: AlternatingTail(seg, p) ==> p <= f.count
    ensures Reports(seg, f)
  {
  }

  /** The guards under which detectStuck does not look for a pattern. */
  lemma NotThere(seg: seq<Keyed>, t: int)
    ensures t <= 0 || seg == [] ==> !Repeats(seg, t) && !FailsAlike(seg, t) && !Alternates(seg, t)
    ensures seg != [] && !Last(seg).key.error ==> !FailsAlike(seg, t)
    ensures |seg| < 2 || Same(seg[|seg| - 2], Last(seg)) ==> !Alternates(seg, t)
  {
  }

  lemma RepeatDecided(seg: seq<Keyed>, run: nat, t: int)
    requires RepeatTail(seg, run) && forall r: nat :: RepeatTail(seg, r) ==> r <= run
    ensures 1 <= run <= |seg| && (Repeats(seg, t) <==> t > 0 && run >= t)
  {
  }

  lemma ErrorDecided(seg: seq<Keyed>, run: nat, t: int)
    requires ErrorTail(seg, run) && forall r: nat :: ErrorTail(seg, r) ==> r <= run
    ensures 1 <= run <= |seg| && (FailsAlike(seg, t) <==> t > 0 && run >= t)
  {
  }

  lemma AlternationDecided(seg: seq<Keyed>, pairs: nat, t: int)
    requires AlternatingTail(seg, pairs) && forall p: nat :: AlternatingTail(seg, p) ==> p <= pairs
    ensures 1 <= pairs && 2 * pairs <= |seg| && (Alternates(seg, t) <==> t > 0 && pairs >= t)
  {
  }

  /** The first loop of detectStuck. */
  method KeySteps(recs: seq<StepRecord>, keyOf: StepRecord -> Option<Key>) returns (seg: seq<Keyed>)
    ensures seg == Segment(recs, keyOf)
  {
    seg := [];
    for i := 0 to |recs|
      invariant seg == Segment(recs[..i], keyOf)
    {
      assert recs[..i + 1][..i] == recs[..i];
      var k := keyOf(recs[i]);
      if k.None? {
        seg := [];
        continue;
      }
      seg := seg + [Keyed(recs[i].step, k.value)];
    }
    assert recs[..|recs|] == recs;
  }

  method FindRepeat(seg: seq<Keyed>, t: int) returns (f: Option<Finding>)
    ensures f.Some? <==> Repeats(seg, t)
    ensures f.Some? ==> f.value.pattern == Repeat && f.value.count >= t > 0 && Reports(seg, f.value)
  {
    hide RepeatTail, Repeats, Reports, ExactlyTheTools, NoDuplicates, StepNumbers, CutTo200, Tail;
    NotThere(seg, t);
    f := None;
    if |seg| == 0 { return; }
    var run := RepeatRun(seg);
    RepeatDecided(seg, run, t);
    if t > 0 && run >= t {
      var r := Report(Repeat, run, Tail(seg, run));
      ReportIsMaximal(seg, r);
      f := Some(r);
    }
  }

  method FindError(seg: seq<Keyed>, t: int) returns (f: Option<Finding>)
    ensures f.Some? <==> FailsAlike(seg, t)
    ensures f.Some? ==> f.value.pattern == FailAlike && f.value.count >= t > 0 && Reports(seg, f.value)
  {
    hide ErrorTail, FailsAlike, Reports, ExactlyTheTools, NoDuplicates, StepNumbers, CutTo200, Tail;
    NotThere(seg, t);
    f := None;
    if t > 0 && |seg| > 0 && Last(seg).key.error {
      var run := ErrorRun(seg);
      ErrorDecided(seg, run, t);
      if run >= t {
        var r := Report(FailAlike, run, Tail(seg, run));
        ReportIsMaximal(seg, r);
        f := Some(r);
      }
    }
  }

  method FindAlternation(seg: seq<Keyed>, t: int) returns (f: Option<Finding>)
    ensures f.Some? <==> Alternates(seg, t)
    ensures f.Some? ==> f.value.pattern == Alternate && f.value.count >= t > 0 && Reports(seg, f.value)
  {
    hide AlternatingTail, Alternates, Reports, ExactlyTheTools, NoDuplicates, StepNumbers, CutTo200, Tail;
    NotThere(seg, t);
    f := None;
    if t > 0 && |seg| >= 2
       && (seg[|seg| - 2].key.call != seg[|seg| - 1].key.call || seg[|seg| - 2].key.result != seg[|seg| - 1].key.result) {
      var pairs := AlternatingPairs(seg);
      AlternationDecided(seg, pairs, t);
      if pairs >= t {
        var r := Report(Alternate, pairs, Tail(seg, 2 * pairs));
        ReportIsMaximal(seg, r);
        f := Some(r);
      }
    }
  }

  /** detectStuck is sound and complete. Nothing is found exactly when no enabled pattern holds at its threshold; a
      finding is of the first pattern that holds, in the order repeat, same error, alternation, and names its maximal
      run. */
  method DetectStuck(recs: seq<StepRecord>, keyOf: StepRecord -> Option<Key>, repeats: int, alternations: int, errs: int)
    returns (f: Option<Finding>)
    ensures var seg := Segment(recs, keyOf);
            f.None? <==> !Repeats(seg, repeats) && !FailsAlike(seg, errs) && !Alternates(seg, alternations)
    ensures var seg := Segment(recs, keyOf);
            f.Some? ==> Reports(seg, f.value) && match f.value.pattern
                        case Repeat => f.value.count >= repeats > 0
                        case FailAlike => f.value.count >= errs > 0 && !Repeats(seg, repeats)
                        case Alternate => f.value.count >= alternations > 0 && !Repeats(seg, repeats) && !FailsAlike(seg, errs)
  {
    hide *;
    var seg := KeySteps(recs, keyOf);
    f := FindRepeat(seg, repeats);
    if f.None? { f := FindError(seg, errs); }
    if f.None? { f := FindAlternation(seg, alternations); }
  }

  // ---------------------------------------------------------------- doing something new

  /** The last step's call and result have not been seen in the segment. */
  ghost predicate NewKey(seg: seq<Keyed>) {
    seg != [] && forall i :: 0 <= i < |seg| - 1 ==> !Same(seg[i], Last(seg))
  }

  lemma TwoRepeat(seg: seq<Keyed>, r: nat)
    requires RepeatTail(seg, r) && r >= 2
    ensures Same(seg[|seg| - 2], Last(seg))
  {
  }

  lemma TwoPairs(seg: seq<Keyed>, p: nat)
    requires AlternatingTail(seg, p) && p >= 2
    ensures Same(seg[|seg| - 3], Last(seg))
  {
  }

  /** The last step failed, and so did the t - 1 steps before it, with its result. */
  ghost predicate CarriesOn(seg: seq<Keyed>, t: int) {
    && 1 <= t <= |seg| && Last(seg).key.error
    && forall i :: |seg| - t <= i < |seg| - 1 ==> SameError(seg[i], Last(seg))
  }

  lemma FailsAlikeIffCarriesOn(seg: seq<Keyed>, t: int)
    requires t >= 1
    ensures FailsAlike(seg, t) <==> CarriesOn(seg, t)
  {
    if CarriesOn(seg, t) { assert ErrorTail(seg, t); }
  }

  /** At a threshold of at least two, a step with a new key leaves only one pattern possible, a run of one error through
      different calls. So it silences the detector exactly when it does not carry on such a run of that length. */
  lemma NewKeySilences(seg: seq<Keyed>, t: int)
    requires NewKey(seg) && t >= 2
    ensures !Repeats(seg, t) && !Alternates(seg, t) && (FailsAlike(seg, t) <==> CarriesOn(seg, t))
  {
    forall r: nat | r >= 2 ensures !RepeatTail(seg, r) {
      if RepeatTail(seg, r) { TwoRepeat(seg, r); }
    }
    forall p: nat | p >= 2 ensures !AlternatingTail(seg, p) {
      if AlternatingTail(seg, p) { TwoPairs(seg, p); }
    }
    FailsAlikeIffCarriesOn(seg, t);
  }

  /** t steps whose calls all differ, and that fail with one result. */
  function Failures(t: nat): (r: seq<Keyed>)
    ensures |r| == t && forall i :: 0 <= i < t ==> |r[i].key.call| == i && r[i].key.result == "e" && r[i].key.error
  {
    seq(t, i requires 0 <= i < t => Keyed(i + 1, Key(seq(i, _ => 'x'), "e", true, [])))
  }

  /** The exception is real at every threshold: so many different calls that fail with the same result trip the detector,
      although the last one's key is new. */
  lemma NewKeyMayStillTrip(t: nat)
    requires t >= 2
    ensures NewKey(Failures(t)) && FailsAlike(Failures(t), t)
  {
    assert ErrorTail(Failures(t), t);
  }
}
