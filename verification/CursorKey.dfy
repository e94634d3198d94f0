/** The bytes a history is hashed from. Every field is length-prefixed with eight big-endian bytes; no
message count is written. */
module CursorKey {
  import opened Messages

  function Pow256(k: nat): (p: nat) ensures p > 0 { if k == 0 then 1 else 256 * Pow256(k - 1) }

  /** The low k bytes of n, most significant first. */
  function BigEndian(n: nat, k: nat): (r: string)
    ensures |r| == k
  {
    if k == 0 then "" else BigEndian(n / 256, k - 1) + [(n % 256) as char]
  }

  function Value(s: string): nat {
    if s == "" then 0 else 256 * Value(s[..|s| - 1]) + s[|s| - 1] as nat
  }

  /** The bytes give the number back modulo 256 to the k. */
  lemma {:induction false} ValueOfBigEndian(n: nat, k: nat)
    ensures Value(BigEndian(n, k)) == n % Pow256(k)
  {
    if k > 0 {
      ValueOfBigEndian(n / 256, k - 1);
      assert BigEndian(n, k)[..k - 1] == BigEndian(n / 256, k - 1);
      ModByParts(n, Pow256(k - 1));
    }
  }

  lemma ModByParts(n: nat, m: nat)
    requires m > 0
    ensures n % (256 * m) == 256 * ((n / 256) % m) + n % 256
  {
    var q := n / 256;
    var a, b := q / m, q % m;
    var rest := 256 * b + n % 256;
    assert n == 256 * q + n % 256 && q == m * a + b;
    assert 256 * (m * a) == (256 * m) * a;
    ModUnique(n, 256 * m, a, rest);
  }

  lemma ModUnique(n: nat, d: nat, a: nat, r: nat)
    requires n == d * a + r && r < d
    ensures n % d == r
  {
    var x := n / d;
    assert n == d * x + n % d;
    Multiples(d, x, a);
    Multiples(d, a, x);
  }

  lemma {:induction false} Multiples(d: nat, a: nat, b: nat)
    ensures a < b ==> d * a + d <= d * b
  {
    if a + 1 < b { Multiples(d, a, b - 1); }
  }

  const TWO_TO_64: nat := 0x1_0000_0000_0000_0000

  /** uint64 wraps: a count of 2^64 or more keeps only its low eight bytes. */
  function Count(n: nat): (r: string)
    ensures |r| == 8
  {
    BigEndian(n, 8)
  }

  function Field(s: string): string { Count(|s|) + s }

  function CallFields(c: ToolCall): string { Field(c.id) + (Field(c.name) + Field(c.args)) }

  function CallsBytes(cs: seq<ToolCall>): string {
    if cs == [] then "" else CallFields(cs[0]) + CallsBytes(cs[1..])
  }

  function MessageBytes(m: Seen): string {
    Field(m.role) + (Field(m.text) + (Field(m.toolCallId) + (Count(|m.calls|) + CallsBytes(m.calls))))
  }

  function Bytes(ms: seq<Seen>): string {
    if ms == [] then "" else MessageBytes(ms[0]) + Bytes(ms[1..])
  }

  predicate FitsCall(c: ToolCall) { |c.id| < TWO_TO_64 && |c.name| < TWO_TO_64 && |c.args| < TWO_TO_64 }

  /** Every length written is below 2^64. */
  predicate Fits(m: Seen) {
    && |m.role| < TWO_TO_64 && |m.text| < TWO_TO_64 && |m.toolCallId| < TWO_TO_64 && |m.calls| < TWO_TO_64
    && forall c :: c in m.calls ==> FitsCall(c)
  }

  predicate AllFit(ms: seq<Seen>) { forall m :: m in ms ==> Fits(m) }

  // ---------------------------------------------------------------- each piece can be read off the front

  lemma SameFront(a: string, b: string, x: string, y: string)
    requires |a| == |b| && a + x == b + y
    ensures a == b && x == y
  {
    assert a == (a + x)[..|a|] && b == (b + y)[..|b|];
    assert x == (a + x)[|a|..] && y == (b + y)[|b|..];
  }

  lemma Regroup(a: string, b: string, x: string)
    ensures a + b + x == a + (b + x)
  {
  }

  lemma CountFront(n: nat, k: nat, x: string, y: string)
    requires n < TWO_TO_64 && k < TWO_TO_64
    requires Count(n) + x == Count(k) + y
    ensures n == k && x == y
  {
    SameFront(Count(n), Count(k), x, y);
    CountValue(n);
    CountValue(k);
    hide Count;
  }

  /** Eight bytes hold every count below 2^64. */
  lemma CountValue(n: nat)
    requires n < TWO_TO_64
    ensures Value(Count(n)) == n
  {
    assert Pow256(8) == TWO_TO_64;
    ValueOfBigEndian(n, 8);
    hide Value, BigEndian, Pow256;
    assert n % TWO_TO_64 == n;
  }

  lemma FieldFront(s: string, t: string, x: string, y: string)
    requires |s| < TWO_TO_64 && |t| < TWO_TO_64
    requires Field(s) + x == Field(t) + y
    ensures s == t && x == y
  {
    hide Count;
    Regroup(Count(|s|), s, x);
    Regroup(Count(|t|), t, y);
    CountFront(|s|, |t|, s + x, t + y);
    SameFront(s, t, x, y);
  }

  lemma CallFront(c: ToolCall, d: ToolCall, x: string, y: string)
    requires FitsCall(c) && FitsCall(d)
    requires CallFields(c) + x == CallFields(d) + y
    ensures c == d && x == y
  {
    hide Field;
    Unnest3(Field(c.id), Field(c.name), Field(c.args), x);
    Unnest3(Field(d.id), Field(d.name), Field(d.args), y);
    FieldFront(c.id, d.id, Field(c.name) + (Field(c.args) + x), Field(d.name) + (Field(d.args) + y));
    FieldFront(c.name, d.name, Field(c.args) + x, Field(d.args) + y);
    FieldFront(c.args, d.args, x, y);
  }

  lemma Unnest3(a: string, b: string, c: string, x: string)
    ensures a + (b + c) + x == a + (b + (c + x))
  {
    Regroup(a, b + c, x);
    Regroup(b, c, x);
  }

  lemma {:induction false} CallsFront(cs: seq<ToolCall>, ds: seq<ToolCall>, x: string, y: string)
    requires |cs| == |ds| && (forall c :: c in cs ==> FitsCall(c)) && (forall d :: d in ds ==> FitsCall(d))
    requires CallsBytes(cs) + x == CallsBytes(ds) + y
    ensures cs == ds && x == y
  {
    hide CallFields;
    if cs == [] {
      assert "" + x == x && "" + y == y;
    } else {
      Regroup(CallFields(cs[0]), CallsBytes(cs[1..]), x);
      Regroup(CallFields(ds[0]), CallsBytes(ds[1..]), y);
      CallFront(cs[0], ds[0], CallsBytes(cs[1..]) + x, CallsBytes(ds[1..]) + y);
      CallsFront(cs[1..], ds[1..], x, y);
      assert cs == [cs[0]] + cs[1..] && ds == [ds[0]] + ds[1..];
    }
  }

  lemma MessageFront(m: Seen, n: Seen, x: string, y: string)
    requires Fits(m) && Fits(n)
    requires MessageBytes(m) + x == MessageBytes(n) + y
    ensures m == n && x == y
  {
    hide Field, CallsBytes, Count;
    Unnest5(Field(m.role), Field(m.text), Field(m.toolCallId), Count(|m.calls|), CallsBytes(m.calls), x);
    Unnest5(Field(n.role), Field(n.text), Field(n.toolCallId), Count(|n.calls|), CallsBytes(n.calls), y);
    var x1, y1 := CallsBytes(m.calls) + x, CallsBytes(n.calls) + y;
    var x2, y2 := Count(|m.calls|) + x1, Count(|n.calls|) + y1;
    var x3, y3 := Field(m.toolCallId) + x2, Field(n.toolCallId) + y2;
    FieldFront(m.role, n.role, Field(m.text) + x3, Field(n.text) + y3);
    FieldFront(m.text, n.text, x3, y3);
    FieldFront(m.toolCallId, n.toolCallId, x2, y2);
    CountFront(|m.calls|, |n.calls|, x1, y1);
    CallsFront(m.calls, n.calls, x, y);
  }

  lemma Unnest5(a: string, b: string, c: string, d: string, e: string, x: string)
    ensures a + (b + (c + (d + e))) + x == a + (b + (c + (d + (e + x))))
  {
    Regroup(a, b + (c + (d + e)), x);
    Regroup(b, c + (d + e), x);
    Unnest3(c, d, e, x);
  }

  lemma MessageNotEmpty(m: Seen)
    ensures MessageBytes(m) != ""
  {
    hide CallsBytes;
  }

  /** The encoding is injective on whole histories although no message count is written: two histories give
      the same bytes exactly when the model sees the same messages. */
  lemma {:induction false} SameBytesSameHistory(a: seq<Seen>, b: seq<Seen>)
    requires AllFit(a) && AllFit(b)
    ensures Bytes(a) == Bytes(b) <==> a == b
  {
    hide MessageBytes;
    if Bytes(a) == Bytes(b) {
      if a != [] { MessageNotEmpty(a[0]); }
      if b != [] { MessageNotEmpty(b[0]); }
      if a != [] && b != [] {
        MessageFront(a[0], b[0], Bytes(a[1..]), Bytes(b[1..]));
        SameBytesSameHistory(a[1..], b[1..]);
        assert a == [a[0]] + a[1..] && b == [b[0]] + b[1..];
      }
    }
  }

  // ---------------------------------------------------------------- the writing loop

  lemma {:induction false} CallsBytesBack(cs: seq<ToolCall>, c: ToolCall)
    ensures CallsBytes(cs + [c]) == CallsBytes(cs) + CallFields(c)
  {
    hide CallFields;
    if cs == [] {
      assert [c][1..] == [];
      assert CallsBytes([c]) == CallFields(c) + CallsBytes([]);
    } else {
      CallsBytesBack(cs[1..], c);
      assert (cs + [c])[1..] == cs[1..] + [c];
      Regroup(CallFields(cs[0]), CallsBytes(cs[1..]), CallFields(c));
    }
  }

  lemma {:induction false} BytesBack(ms: seq<Seen>, m: Seen)
    ensures Bytes(ms + [m]) == Bytes(ms) + MessageBytes(m)
  {
    hide MessageBytes;
    if ms == [] {
      assert [m][1..] == [];
      assert Bytes([m]) == MessageBytes(m) + Bytes([]);
    } else {
      BytesBack(ms[1..], m);
      assert (ms + [m])[1..] == ms[1..] + [m];
      Regroup(MessageBytes(ms[0]), Bytes(ms[1..]), MessageBytes(m));
    }
  }

  /** What cursorKey writes into the hash. */
  method HashedBytes(msgs: seq<Message>) returns (h: string)
    ensures h == Bytes(SeeAll(msgs))
  {
    hide Field, Count, CallsBytes, Bytes;
    h := "";
    Empty();
    assert SeeAll(msgs)[..0] == [];
    for i := 0 to |msgs|
      invariant h == Bytes(SeeAll(msgs)[..i])
    {
      var m := msgs[i];
      var w := Field(m.role);
      w := w + Field(m.text);
      w := w + Field(m.toolCallId);
      w := w + Count(|m.toolCalls|);
      ghost var head := w;
      ghost var calls := "";
      assert head + "" == head;
      for j := 0 to |m.toolCalls|
        invariant calls == CallsBytes(m.toolCalls[..j]) && w == head + calls
      {
        var tc := m.toolCalls[j];
        CallsBytesBack(m.toolCalls[..j], tc);
        assert m.toolCalls[..j + 1] == m.toolCalls[..j] + [tc];
        Regroup(Field(tc.id), Field(tc.name), Field(tc.args));
        Regroup(head, calls, CallFields(tc));
        calls := calls + CallFields(tc);
        w := w + (Field(tc.id) + Field(tc.name) + Field(tc.args));
      }
      assert m.toolCalls[..|m.toolCalls|] == m.toolCalls;
      Flatten5(Field(m.role), Field(m.text), Field(m.toolCallId), Count(|m.toolCalls|), CallsBytes(m.toolCalls));
      BytesBack(SeeAll(msgs)[..i], See(m));
      assert SeeAll(msgs)[..i + 1] == SeeAll(msgs)[..i] + [See(m)];
      h := h + w;
    }
    assert SeeAll(msgs)[..|msgs|] == SeeAll(msgs);
  }

  lemma Empty()
    ensures Bytes([]) == "" && CallsBytes([]) == ""
  {
  }

  lemma Flatten5(a: string, b: string, c: string, d: string, e: string)
    ensures a + b + c + d + e == a + (b + (c + (d + e)))
  {
    Regroup(a + b + c, d, e);
    Regroup(a + b, c, d + e);
    Regroup(a, b, c + (d + e));
  }
}
