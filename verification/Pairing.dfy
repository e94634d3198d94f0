/** Tool pairing: a provider accepts a history only if each assistant message that requests tool calls is
followed at once by one tool message per call, in call order, and no tool message stands anywhere else. */
module Pairing {
  import opened Messages

  predicate Requests(m: Message) { m.role == ASSISTANT && m.toolCalls != [] }

  /** A message that takes no part in pairing. */
  predicate Plain(m: Message) { m.role != TOOL && !Requests(m) }

  predicate Answers(calls: seq<ToolCall>, ms: seq<Message>) {
    |ms| == |calls| && forall i :: 0 <= i < |ms| ==> ms[i].role == TOOL && ms[i].toolCallId == calls[i].id
  }

  /** How many messages a block that starts with m takes: a request with its results, or one message. */
  function Block(m: Message): nat { if Requests(m) then 1 + |m.toolCalls| else 1 }

  predicate GoodBlock(b: seq<Message>) {
    b != [] && if Requests(b[0]) then Answers(b[0].toolCalls, b[1..]) else b[0].role != TOOL
  }

  predicate Paired(ms: seq<Message>)
    decreases |ms|
  {
    ms == [] || (Block(ms[0]) <= |ms| && GoodBlock(ms[..Block(ms[0])]) && Paired(ms[Block(ms[0])..]))
  }

  lemma InsideBlock(ms: seq<Message>, i: nat)
    requires Paired(ms) && ms != [] && 1 <= i < Block(ms[0])
    ensures ms[i].role == TOOL
  {
    assert ms[..Block(ms[0])][1..][i - 1] == ms[i];
  }

  lemma {:induction false} PairedAppend(a: seq<Message>, b: seq<Message>)
    requires Paired(a) && Paired(b)
    ensures Paired(a + b)
    decreases |a|
  {
    if a == [] {
      assert a + b == b;
    } else {
      var n := Block(a[0]);
      assert (a + b)[..n] == a[..n];
      assert (a + b)[n..] == a[n..] + b;
      PairedAppend(a[n..], b);
    }
  }

  lemma PlainIsPaired(m: Message)
    requires Plain(m)
    ensures Paired([m])
  {
    assert [m][..1] == [m] && [m][1..] == [];
  }

  lemma {:induction false} PlainsArePaired(ms: seq<Message>)
    requires forall m :: m in ms ==> Plain(m)
    ensures Paired(ms)
  {
    if ms != [] {
      assert Plain(ms[0]);
      PlainsArePaired(ms[1..]);
    }
  }

  lemma RoundIsPaired(m: Message, results: seq<Message>)
    requires Requests(m) && Answers(m.toolCalls, results)
    ensures Paired([m] + results)
  {
    var ms := [m] + results;
    assert ms[..1 + |results|] == ms && ms[1..] == results;
  }

  /** A paired history can be cut at any message that is not a tool result. */
  lemma {:induction false} PairedTail(ms: seq<Message>, cut: nat)
    requires Paired(ms) && cut < |ms| && ms[cut].role != TOOL
    ensures Paired(ms[cut..])
    decreases |ms|
  {
    if cut == 0 {
      assert ms[0..] == ms;
    } else {
      var n := Block(ms[0]);
      if cut < n {
        InsideBlock(ms, cut);
      } else {
        PairedTail(ms[n..], cut - n);
        assert ms[n..][cut - n..] == ms[cut..];
      }
    }
  }

  /** A paired history never ends with a request. */
  lemma {:induction false} PairedEnd(ms: seq<Message>)
    requires Paired(ms) && ms != []
    ensures !Requests(ms[|ms| - 1])
    decreases |ms|
  {
    var n := Block(ms[0]);
    if n < |ms| {
      PairedEnd(ms[n..]);
    } else if n > 1 {
      InsideBlock(ms, n - 1);
    }
  }

  /** The requests and tool results among ms, in order. */
  function Traffic(ms: seq<Message>): seq<Message> {
    if ms == [] then []
    else Traffic(ms[..|ms| - 1]) + if Plain(ms[|ms| - 1]) then [] else [ms[|ms| - 1]]
  }

  lemma {:induction false} TrafficAppend(a: seq<Message>, b: seq<Message>)
    ensures Traffic(a + b) == Traffic(a) + Traffic(b)
  {
    if b == [] {
      assert a + b == a;
    } else {
      TrafficAppend(a, b[..|b| - 1]);
      assert (a + b)[..|a + b| - 1] == a + b[..|b| - 1];
    }
  }

  lemma {:induction false} NoTraffic(ms: seq<Message>)
    requires forall m :: m in ms ==> Plain(m)
    ensures Traffic(ms) == []
  {
    if ms != [] { NoTraffic(ms[..|ms| - 1]); }
  }

  lemma {:induction false} AllTraffic(ms: seq<Message>)
    requires forall i :: 0 <= i < |ms| ==> !Plain(ms[i])
    ensures Traffic(ms) == ms
  {
    if ms != [] {
      AllTraffic(ms[..|ms| - 1]);
      assert ms == ms[..|ms| - 1] + [ms[|ms| - 1]];
    }
  }

  /** DropUnansweredToolCalls: trailing requests go, everything else stays. */
  method DropUnanswered(msgs: seq<Message>) returns (r: seq<Message>)
    ensures r <= msgs && (forall i :: |r| <= i < |msgs| ==> Requests(msgs[i]))
    ensures r == [] || !Requests(r[|r| - 1])
    ensures Paired(msgs) ==> r == msgs
  {
    r := msgs;
    while |r| > 0
      invariant r <= msgs && (forall i :: |r| <= i < |msgs| ==> Requests(msgs[i]))
      invariant Paired(msgs) ==> r == msgs
    {
      var last := r[|r| - 1];
      if last.role != ASSISTANT || |last.toolCalls| == 0 { return; }
      if Paired(msgs) { PairedEnd(msgs); }
      r := r[..|r| - 1];
    }
  }
}
