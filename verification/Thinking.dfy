/** The inline-reasoning parser and the stream that wraps it.

A model interleaves answer text with reasoning between an open and a close tag. The parser re-emits the
text as two kinds of delta while the text arrives in arbitrary fragments, so it holds back a tail that may
be the start of a tag. `Scan` is what one feed of a whole text does; `Split` is an independent reading of
the same text, as the pieces between tags. */
module Thinking {

  /** A delta of a provider stream. `Other` stands for every kind that carries no text to re-split. */
  datatype Delta = Text(text: string) | Reasoning(text: string) | Other(id: nat)

  /** One unit of mode-tagged output: a character with its mode, a forwarded delta, or a stream error. */
  datatype Mark = Char(reasoning: bool, c: char) | Forwarded(id: nat) | Broken

  datatype Tags = Tags(open: string, close: string) {
    function Wanted(inThink: bool): string { if inThink then close else open }
  }

  function Marks(mode: bool, s: string): (r: seq<Mark>)
    ensures |r| == |s| && forall i :: 0 <= i < |s| ==> r[i] == Char(mode, s[i])
  {
    seq(|s|, i requires 0 <= i < |s| => Char(mode, s[i]))
  }

  function Flat(d: Delta): seq<Mark> {
    match d
    case Text(s) => Marks(false, s)
    case Reasoning(s) => Marks(true, s)
    case Other(id) => [Forwarded(id)]
  }

  /** Deltas with adjacent pieces of one mode merged: what a consumer that concatenates sees. */
  function Flats(ds: seq<Delta>): seq<Mark> {
    if ds == [] then [] else Flats(ds[..|ds| - 1]) + Flat(ds[|ds| - 1])
  }

  lemma {:induction false} FlatsAppend(a: seq<Delta>, b: seq<Delta>)
    ensures Flats(a + b) == Flats(a) + Flats(b)
  {
    hide Flats, Flat;
    if b == [] {
      FlatsNone(a);
    } else {
      var front, d := b[..|b| - 1], b[|b| - 1];
      FlatsAppend(a, front);
      FlatsBack(a + front, d);
      FlatsBack(front, d);
      assert b == front + [d];
      Assoc(a, front, [d]);
      Assoc(Flats(a), Flats(front), Flat(d));
    }
  }

  lemma FlatsNone(a: seq<Delta>)
    ensures Flats(a + []) == Flats(a) + Flats([])
  {
    hide Flat;
    assert a + [] == a && Flats([]) == [];
  }

  lemma FlatsFront(q: seq<Delta>)
    requires q != []
    ensures Flats(q) == Flat(q[0]) + Flats(q[1..])
  {
    hide Flat;
    FlatsAppend([q[0]], q[1..]);
    assert [q[0]] + q[1..] == q;
    assert Flats([q[0]]) == [] + Flat(q[0]);
  }

  lemma FlatsBack(q: seq<Delta>, d: Delta)
    ensures Flats(q + [d]) == Flats(q) + Flat(d)
  {
    hide Flat;
    assert (q + [d])[..|q|] == q;
  }

  lemma Assoc<T>(a: seq<T>, b: seq<T>, c: seq<T>)
    ensures a + b + c == a + (b + c)
  {
  }

  // ---------------------------------------------------------------- searching

  predicate At(s: string, tag: string, i: int) {
    0 <= i && i + |tag| <= |s| && forall j :: 0 <= j < |tag| ==> s[i + j] == tag[j]
  }

  /** First occurrence of tag in s, or -1. */
  function Index(s: string, tag: string): (r: int)
    ensures r < 0 ==> forall i :: !At(s, tag, i)
    ensures r >= 0 ==> At(s, tag, r) && forall i :: i < r ==> !At(s, tag, i)
  {
    IndexFrom(s, tag, |s|)
  }

  /** First occurrence of tag that starts no more than k characters before the end of s, or -1. */
  function IndexFrom(s: string, tag: string, k: nat): (r: int)
    requires k <= |s|
    ensures r < 0 ==> forall i :: |s| - k <= i ==> !At(s, tag, i)
    ensures r >= 0 ==> |s| - k <= r && At(s, tag, r) && forall i :: |s| - k <= i < r ==> !At(s, tag, i)
  {
    if At(s, tag, |s| - k) then |s| - k
    else if k == 0 then -1
    else IndexFrom(s, tag, k - 1)
  }

  /** The last k characters of s are a proper prefix of tag. */
  predicate Overlaps(s: string, tag: string, k: nat) {
    k < |tag| && k <= |s| && forall j :: 0 <= j < k ==> s[|s| - k + j] == tag[j]
  }

  /** Length of the longest held-back tail of at most k characters. */
  function Overlap(s: string, tag: string, k: nat): (r: nat)
    requires tag != ""
    ensures Overlaps(s, tag, r) && r <= k
    ensures forall j :: r < j <= k ==> !Overlaps(s, tag, j)
  {
    if Overlaps(s, tag, k) then k else Overlap(s, tag, k - 1)
  }

  method PrefixOverlap(s: string, tag: string) returns (k: nat)
    requires tag != ""
    ensures Overlaps(s, tag, k)
    ensures forall j: nat :: Overlaps(s, tag, j) ==> j <= k
    ensures k == Overlap(s, tag, |s|)
  {
    k := if |s| < |tag| - 1 then |s| else |tag| - 1;
    while k > 0
      invariant k <= |s| && k < |tag|
      invariant forall j: nat :: Overlaps(s, tag, j) ==> j <= k
    {
      PrefixIsOverlap(s, tag, k);
      if s[|s| - k..] <= tag {
        LongestOverlap(s, tag, k);
        return;
      }
      k := k - 1;
    }
    LongestOverlap(s, tag, 0);
  }

  lemma PrefixIsOverlap(s: string, tag: string, k: nat)
    requires k <= |s| && k < |tag|
    ensures s[|s| - k..] <= tag <==> Overlaps(s, tag, k)
  {
    var u := s[|s| - k..];
    assert forall j :: 0 <= j < k ==> u[j] == s[|s| - k + j];
  }

  lemma LongestOverlap(s: string, tag: string, k: nat)
    requires tag != "" && Overlaps(s, tag, k) && forall j: nat :: Overlaps(s, tag, j) ==> j <= k
    ensures k == Overlap(s, tag, |s|)
  {
    assert k <= |s|;
    hide Overlap, Overlaps;
  }

  // ---------------------------------------------------------------- one feed

  datatype Scanned = Scanned(flat: seq<Mark>, inThink: bool, held: string)

  function Scan(t: Tags, m: bool, s: string): Scanned
    decreases |s|
  {
    var tag := t.Wanted(m);
    if tag == "" then Scanned(Marks(m, s), m, "")
    else
      var i := Index(s, tag);
      if i >= 0 then
        var r := Scan(t, !m, s[i + |tag|..]);
        Scanned(Marks(m, s[..i]) + r.flat, r.inThink, r.held)
      else
        var k := Overlap(s, tag, |s|);
        Scanned(Marks(m, s[..|s| - k]), m, s[|s| - k..])
  }

  /** Everything a text yields once it is flushed. */
  function Whole(t: Tags, m: bool, s: string): seq<Mark> {
    var r := Scan(t, m, s);
    r.flat + Marks(r.inThink, r.held)
  }

  // Scan unfolded once, so that proofs can keep its body out of sight.

  lemma ScanPlain(t: Tags, m: bool, s: string)
    requires t.Wanted(m) == ""
    ensures Scan(t, m, s) == Scanned(Marks(m, s), m, "")
  {
    hide Index, Overlap, Marks;
  }

  lemma ScanHit(t: Tags, m: bool, s: string)
    requires t.Wanted(m) != "" && Index(s, t.Wanted(m)) >= 0
    ensures Index(s, t.Wanted(m)) + |t.Wanted(m)| <= |s|
    ensures var i := Index(s, t.Wanted(m));
            var r := Scan(t, !m, s[i + |t.Wanted(m)|..]);
            Scan(t, m, s) == Scanned(Marks(m, s[..i]) + r.flat, r.inThink, r.held)
  {
    hide Index, Overlap, Marks;
  }

  lemma ScanMiss(t: Tags, m: bool, s: string)
    requires t.Wanted(m) != "" && Index(s, t.Wanted(m)) < 0
    ensures var k := Overlap(s, t.Wanted(m), |s|);
            Scan(t, m, s) == Scanned(Marks(m, s[..|s| - k]), m, s[|s| - k..])
  {
    hide Index, Overlap, Marks;
  }

  lemma IndexUnique(s: string, tag: string, i: nat)
    requires At(s, tag, i) && forall j :: 0 <= j < i ==> !At(s, tag, j)
    ensures Index(s, tag) == i
  {
  }

  /** More text cannot move the first match of a tag already matched. */
  lemma MatchStays(x: string, y: string, tag: string)
    requires Index(x, tag) >= 0
    ensures Index(x + y, tag) == Index(x, tag)
  {
    var i := Index(x, tag);
    forall j | 0 <= j <= i ensures At(x + y, tag, j) == At(x, tag, j) {
    }
    IndexUnique(x + y, tag, i);
  }

  // The proof of ScanAppend reads every text as a window [a, b) of one fixed text w, so that feeding more
  // text only moves b.

  ghost predicate AtIn(w: string, tag: string, i: int, b: nat)
    requires b <= |w|
  {
    0 <= i && i + |tag| <= b && forall j :: 0 <= j < |tag| ==> w[i + j] == tag[j]
  }

  ghost predicate FirstIn(w: string, tag: string, a: nat, b: nat, i: nat)
    requires b <= |w|
  {
    a <= i && AtIn(w, tag, i, b) && forall j :: a <= j < i ==> !AtIn(w, tag, j, b)
  }

  ghost predicate NoneIn(w: string, tag: string, a: nat, b: nat)
    requires b <= |w|
  {
    forall j :: a <= j ==> !AtIn(w, tag, j, b)
  }

  ghost predicate TailIn(w: string, tag: string, h: nat, b: nat)
    requires b <= |w|
  {
    h <= b && b - h < |tag| && forall j :: 0 <= j < b - h ==> w[h + j] == tag[j]
  }

  /** h is where the tail held back from the window starts. */
  ghost predicate HoldIn(w: string, tag: string, a: nat, b: nat, h: nat)
    requires b <= |w|
  {
    a <= h && TailIn(w, tag, h, b) && forall j :: a <= j < h ==> !TailIn(w, tag, j, b)
  }

  lemma WindowAt(w: string, tag: string, a: nat, b: nat, i: nat)
    requires a <= b <= |w| && a <= i
    ensures At(w[a..b], tag, i - a) == AtIn(w, tag, i, b)
  {
  }

  lemma WindowTail(w: string, tag: string, a: nat, b: nat, h: nat)
    requires a <= h <= b <= |w|
    ensures Overlaps(w[a..b], tag, b - h) == TailIn(w, tag, h, b)
  {
    assert w[a..b][h - a..] == w[h..b];
  }

  lemma Slices<T>(w: seq<T>, a: nat, h: nat, b: nat)
    requires a <= h <= b <= |w|
    ensures w[a..b][..h - a] == w[a..h] && w[a..b][h - a..] == w[h..b]
  {
  }

  lemma WindowHit(t: Tags, m: bool, w: string, a: nat, b: nat, i: nat)
    requires a <= b <= |w| && t.Wanted(m) != "" && FirstIn(w, t.Wanted(m), a, b, i)
    ensures i + |t.Wanted(m)| <= b
    ensures var r := Scan(t, !m, w[i + |t.Wanted(m)|..b]);
            Scan(t, m, w[a..b]) == Scanned(Marks(m, w[a..i]) + r.flat, r.inThink, r.held)
  {
    hide Scan, Index, Marks;
    var tag := t.Wanted(m);
    WindowAt(w, tag, a, b, i);
    forall j | 0 <= j < i - a ensures !At(w[a..b], tag, j) {
      WindowAt(w, tag, a, b, a + j);
    }
    IndexUnique(w[a..b], tag, i - a);
    ScanHit(t, m, w[a..b]);
    Slices(w, a, i + |tag|, b);
    Slices(w, a, i, b);
  }

  lemma WindowOverlap(w: string, tag: string, a: nat, b: nat, h: nat)
    requires a <= b <= |w| && tag != "" && HoldIn(w, tag, a, b, h)
    ensures Overlap(w[a..b], tag, |w[a..b]|) == b - h
  {
    hide Overlap;
    var s := w[a..b];
    var o := Overlap(s, tag, |s|);
    WindowTail(w, tag, a, b, b - o);
    WindowTail(w, tag, a, b, h);
  }

  lemma WindowMiss(t: Tags, m: bool, w: string, a: nat, b: nat, h: nat)
    requires a <= b <= |w| && t.Wanted(m) != ""
    requires NoneIn(w, t.Wanted(m), a, b) && HoldIn(w, t.Wanted(m), a, b, h)
    ensures Scan(t, m, w[a..b]) == Scanned(Marks(m, w[a..h]), m, w[h..b])
  {
    hide Scan, Overlap, Marks, HoldIn;
    var tag := t.Wanted(m);
    forall i: nat ensures !At(w[a..b], tag, i) {
      WindowAt(w, tag, a, b, a + i);
    }
    WindowOverlap(w, tag, a, b, h);
    ScanMiss(t, m, w[a..b]);
    Slices(w, a, h, b);
  }

  lemma Found(w: string, tag: string, a: nat, b: nat) returns (i: nat)
    requires a <= b <= |w| && tag != "" && !NoneIn(w, tag, a, b)
    ensures FirstIn(w, tag, a, b, i)
  {
    i := a;
    while !AtIn(w, tag, i, b)
      invariant a <= i && forall j :: a <= j < i ==> !AtIn(w, tag, j, b)
      decreases b - i
    {
      i := i + 1;
    }
  }

  lemma Held(w: string, tag: string, a: nat, b: nat) returns (h: nat)
    requires a <= b <= |w| && tag != ""
    ensures HoldIn(w, tag, a, b, h)
  {
    h := a;
    while !TailIn(w, tag, h, b)
      invariant a <= h <= b && forall j :: a <= j < h ==> !TailIn(w, tag, j, b)
      decreases b - h
    {
      h := h + 1;
    }
  }

  lemma MatchOrTail(w: string, tag: string, b: nat, c: nat, i: nat)
    requires i <= b <= c <= |w| && AtIn(w, tag, i, c)
    ensures AtIn(w, tag, i, b) || TailIn(w, tag, i, b)
  {
  }

  /** With no match before b, a match with more text starts inside the held tail or after it. */
  lemma NoEarlyMatch(w: string, tag: string, a: nat, b: nat, c: nat, h: nat, i: nat)
    requires a <= i < h && b <= c <= |w| && NoneIn(w, tag, a, b) && HoldIn(w, tag, a, b, h)
    ensures !AtIn(w, tag, i, c)
  {
    if AtIn(w, tag, i, c) {
      MatchOrTail(w, tag, b, c, i);
    }
  }

  /** With no match before b, going on to c starts again from the held tail. */
  lemma FromTail(t: Tags, m: bool, w: string, a: nat, b: nat, c: nat, h: nat)
    requires a <= b <= c <= |w| && t.Wanted(m) != ""
    requires NoneIn(w, t.Wanted(m), a, b) && HoldIn(w, t.Wanted(m), a, b, h)
    ensures var r := Scan(t, m, w[h..c]);
            Scan(t, m, w[a..c]) == Scanned(Marks(m, w[a..h]) + r.flat, r.inThink, r.held)
  {
    hide Scan, Marks;
    var tag := t.Wanted(m);
    forall i: nat | a <= i < h ensures !AtIn(w, tag, i, c) {
      NoEarlyMatch(w, tag, a, b, c, h, i);
    }
    if NoneIn(w, tag, h, c) {
      var g := Held(w, tag, h, c);
      assert forall j :: a <= j < h && TailIn(w, tag, j, c) ==> TailIn(w, tag, j, b);
      WindowMiss(t, m, w, a, c, g);
      WindowMiss(t, m, w, h, c, g);
      MarksWindow(m, w, a, h, g);
    } else {
      var i := Found(w, tag, h, c);
      WindowHit(t, m, w, a, c, i);
      WindowHit(t, m, w, h, c, i);
      MarksWindow(m, w, a, h, i);
      Assoc(Marks(m, w[a..h]), Marks(m, w[h..i]), Scan(t, !m, w[i + |tag|..c]).flat);
    }
  }

  lemma MarksWindow(m: bool, w: string, a: nat, b: nat, c: nat)
    requires a <= b <= c <= |w|
    ensures Marks(m, w[a..c]) == Marks(m, w[a..b]) + Marks(m, w[b..c])
  {
  }

  lemma {:induction false} ScanWindow(t: Tags, m: bool, w: string, a: nat, b: nat, c: nat) returns (h: nat)
    requires a <= b <= c <= |w|
    ensures a <= h <= b && Scan(t, m, w[a..b]).held == w[h..b]
    ensures var r := Scan(t, m, w[a..b]);
            var q := Scan(t, r.inThink, w[h..c]);
            Scan(t, m, w[a..c]) == Scanned(r.flat + q.flat, q.inThink, q.held)
    decreases b - a
  {
    hide Scan, Marks;
    var tag := t.Wanted(m);
    if tag == "" {
      h := b;
      ScanPlain(t, m, w[a..b]);
      ScanPlain(t, m, w[a..c]);
      ScanPlain(t, m, w[b..c]);
      assert w[b..b] == "";
      MarksWindow(m, w, a, b, c);
    } else if NoneIn(w, tag, a, b) {
      h := Held(w, tag, a, b);
      WindowMiss(t, m, w, a, b, h);
      FromTail(t, m, w, a, b, c, h);
    } else {
      var i := Found(w, tag, a, b);
      assert forall j :: a <= j <= i ==> AtIn(w, tag, j, b) == AtIn(w, tag, j, c);
      WindowHit(t, m, w, a, b, i);
      WindowHit(t, m, w, a, c, i);
      h := ScanWindow(t, !m, w, i + |tag|, b, c);
      var r := Scan(t, !m, w[i + |tag|..b]);
      Assoc(Marks(m, w[a..i]), r.flat, Scan(t, r.inThink, w[h..c]).flat);
    }
  }

  /** Feeding x then y leaves the parser, and the text it has emitted, as feeding x + y does. */
  lemma ScanAppend(t: Tags, m: bool, x: string, y: string)
    ensures var a := Scan(t, m, x);
            var b := Scan(t, a.inThink, a.held + y);
            Scan(t, m, x + y) == Scanned(a.flat + b.flat, b.inThink, b.held)
  {
    hide Scan;
    var w := x + y;
    var h := ScanWindow(t, m, w, 0, |x|, |w|);
    assert w[0..|x|] == x && w[0..|w|] == w;
    assert w[h..|w|] == w[h..|x|] + y;
  }

  // ---------------------------------------------------------------- the pieces between tags

  /** The pieces of s between alternating tags, read left to right. */
  function Split(t: Tags, m: bool, s: string): (r: seq<string>)
    ensures |r| >= 1
    decreases |s|
  {
    var tag := t.Wanted(m);
    if tag == "" || Index(s, tag) < 0 then [s]
    else
      var i := Index(s, tag);
      [s[..i]] + Split(t, !m, s[i + |tag|..])
  }

  /** The pieces put back together with the tags between them. */
  function Join(t: Tags, m: bool, ps: seq<string>): string
    decreases |ps|
  {
    if ps == [] then ""
    else if |ps| == 1 then ps[0]
    else ps[0] + t.Wanted(m) + Join(t, !m, ps[1..])
  }

  /** Each piece but the last is followed by the first match of its tag; the last holds no match. */
  predicate Leftmost(t: Tags, m: bool, ps: seq<string>)
    decreases |ps|
  {
    if |ps| <= 1 then |ps| == 1 && (t.Wanted(m) == "" || Index(ps[0], t.Wanted(m)) < 0)
    else t.Wanted(m) != "" && Index(ps[0] + t.Wanted(m), t.Wanted(m)) == |ps[0]| && Leftmost(t, !m, ps[1..])
  }

  function TagPieces(m: bool, ps: seq<string>): seq<Mark>
    decreases |ps|
  {
    if ps == [] then [] else Marks(m, ps[0]) + TagPieces(!m, ps[1..])
  }

  lemma CutAtTag(s: string, tag: string)
    requires Index(s, tag) >= 0
    ensures var i := Index(s, tag);
            s == s[..i] + tag + s[i + |tag|..] && Index(s[..i] + tag, tag) == i
  {
    var i := Index(s, tag);
    UpToTag(s, tag, i);
    var n := i + |tag|;
    forall j | 0 <= j < i ensures !At(s[..n], tag, j) {
      assert !At(s, tag, j);
    }
    IndexUnique(s[..n], tag, i);
    assert s == s[..i + |tag|] + s[i + |tag|..];
  }

  lemma UpToTag(s: string, tag: string, i: nat)
    requires At(s, tag, i)
    ensures s[..i + |tag|] == s[..i] + tag
  {
  }

  lemma {:induction false} SplitJoins(t: Tags, m: bool, s: string)
    ensures Join(t, m, Split(t, m, s)) == s
    ensures Leftmost(t, m, Split(t, m, s))
    decreases |s|
  {
    var tag := t.Wanted(m);
    if tag != "" && Index(s, tag) >= 0 {
      var rest := s[Index(s, tag) + |tag|..];
      CutAtTag(s, tag);
      SplitJoins(t, !m, rest);
      assert Split(t, m, s)[1..] == Split(t, !m, rest);
    }
  }

  lemma {:induction false} SplitUnique(t: Tags, m: bool, ps: seq<string>)
    requires Leftmost(t, m, ps)
    ensures Split(t, m, Join(t, m, ps)) == ps
    decreases |ps|
  {
    hide Index, At;
    if |ps| > 1 {
      var tag := t.Wanted(m);
      var rest := Join(t, !m, ps[1..]);
      SplitUnique(t, !m, ps[1..]);
      MatchStays(ps[0] + tag, rest, tag);
      var s := Join(t, m, ps);
      assert s == ps[0] + tag + rest;
      assert s[..|ps[0]|] == ps[0] && s[|ps[0]| + |tag|..] == rest;
    }
  }

  /** Only matched tags are removed: ps are the pieces of s exactly when they join back to s with each tag
      at its first match, and those pieces, tagged with alternating modes, are what feed and flush emit. */
  lemma OnlyTagsRemoved(t: Tags, m: bool, s: string, ps: seq<string>)
    ensures (Leftmost(t, m, ps) && Join(t, m, ps) == s) <==> ps == Split(t, m, s)
    ensures Whole(t, m, s) == TagPieces(m, Split(t, m, s))
  {
    SplitJoins(t, m, s);
    if Leftmost(t, m, ps) { SplitUnique(t, m, ps); }
    WholeIsPieces(t, m, s);
  }

  lemma {:induction false} WholeIsPieces(t: Tags, m: bool, s: string)
    ensures Whole(t, m, s) == TagPieces(m, Split(t, m, s))
    decreases |s|
  {
    hide Scan, Index, Overlap, Marks;
    var tag := t.Wanted(m);
    var ps := Split(t, m, s);
    if tag == "" {
      ScanPlain(t, m, s);
      assert TagPieces(m, ps) == Marks(m, s) + TagPieces(!m, []);
    } else if Index(s, tag) < 0 {
      ScanMiss(t, m, s);
      assert TagPieces(m, ps) == Marks(m, s) + TagPieces(!m, []);
      assert s[0..|s|] == s && s[0..] == s;
      MarksWindow(m, s, 0, |s| - Overlap(s, tag, |s|), |s|);
    } else {
      var i := Index(s, tag);
      ScanHit(t, m, s);
      WholeIsPieces(t, !m, s[i + |tag|..]);
      assert ps[1..] == Split(t, !m, s[i + |tag|..]);
      var r := Scan(t, !m, s[i + |tag|..]);
      Assoc(Marks(m, s[..i]), r.flat, Marks(r.inThink, r.held));
    }
  }

  // ---------------------------------------------------------------- streams

  /** What the wrapped stream hands over: a delta, or an error that is not end of stream. */
  datatype Item = Got(d: Delta) | Failed

  /** The output of a stream whose parser is in state (m, held) and whose inner stream is items. */
  function Output(t: Tags, m: bool, held: string, items: seq<Item>): seq<Mark>
    decreases |items|
  {
    if items == [] then Marks(m, held)
    else match items[0]
      case Got(Text(x)) =>
        var a := Scan(t, m, held + x);
        a.flat + Output(t, a.inThink, a.held, items[1..])
      case Got(d) => Marks(m, held) + Flat(d) + Output(t, m, "", items[1..])
      case Failed => [Broken] + Output(t, m, held, items[1..])
  }

  lemma OutputEnd(t: Tags, m: bool, held: string)
    ensures Output(t, m, held, []) == Marks(m, held)
  {
  }

  lemma OutputStep(t: Tags, m: bool, held: string, it: Item, rest: seq<Item>)
    ensures Output(t, m, held, [it] + rest) ==
            if it.Failed? then [Broken] + Output(t, m, held, rest)
            else if it.d.Text? then
              var a := Scan(t, m, held + it.d.text);
              a.flat + Output(t, a.inThink, a.held, rest)
            else Marks(m, held) + Flat(it.d) + Output(t, m, "", rest)
  {
    hide Scan, Marks, Flat;
    assert ([it] + rest)[1..] == rest;
  }

  predicate IsText(it: Item) { it.Got? && it.d.Text? }

  /** The stream with every run of adjacent text deltas merged into one. */
  function MergeRuns(items: seq<Item>): (r: seq<Item>) {
    if |items| <= 1 then items
    else
      var rest := MergeRuns(items[1..]);
      if IsText(items[0]) && rest != [] && IsText(rest[0])
      then [Got(Text(items[0].d.text + rest[0].d.text))] + rest[1..]
      else [items[0]] + rest
  }

  lemma {:induction false} TwoFragments(t: Tags, m: bool, held: string, x: string, y: string, rest: seq<Item>)
    ensures Output(t, m, held, [Got(Text(x)), Got(Text(y))] + rest) == Output(t, m, held, [Got(Text(x + y))] + rest)
  {
    hide Scan;
    var items := [Got(Text(x)), Got(Text(y))] + rest;
    var a := Scan(t, m, held + x);
    ScanAppend(t, m, held + x, y);
    Assoc(held, x, y);
    var b := Scan(t, a.inThink, a.held + y);
    Assoc(a.flat, b.flat, Output(t, b.inThink, b.held, rest));
    assert items[1..] == [Got(Text(y))] + rest;
    assert items[1..][1..] == rest;
    assert ([Got(Text(x + y))] + rest)[1..] == rest;
  }

  /** Chunk independence: the output depends only on the merged text runs, errors and forwarded deltas
      included, so two streams that differ only in how a run was cut give the same tagged text. */
  lemma {:induction false} ChunkingIsInvisible(t: Tags, m: bool, held: string, items: seq<Item>)
    ensures Output(t, m, held, items) == Output(t, m, held, MergeRuns(items))
    decreases |items|
  {
    if |items| > 1 {
      var it, rest := items[0], MergeRuns(items[1..]);
      assert ([it] + rest)[1..] == rest;
      match it {
        case Got(Text(x)) =>
          var a := Scan(t, m, held + x);
          ChunkingIsInvisible(t, a.inThink, a.held, items[1..]);
          assert Output(t, m, held, items) == Output(t, m, held, [it] + rest);
          if rest != [] && IsText(rest[0]) {
            TwoFragments(t, m, held, x, rest[0].d.text, rest[1..]);
            assert [it] + rest == [Got(Text(x)), Got(Text(rest[0].d.text))] + rest[1..];
          }
        case Got(d) => ChunkingIsInvisible(t, m, "", items[1..]);
        case Failed => ChunkingIsInvisible(t, m, held, items[1..]);
      }
    }
  }

  function Texts(chunks: seq<string>): seq<Item> {
    seq(|chunks|, i requires 0 <= i < |chunks| => Got(Text(chunks[i])))
  }

  function Concat(chunks: seq<string>): string {
    if chunks == [] then "" else chunks[0] + Concat(chunks[1..])
  }

  lemma {:induction false} FragmentsFrom(t: Tags, m: bool, s: string, chunks: seq<string>)
    ensures var a := Scan(t, m, s);
            a.flat + Output(t, a.inThink, a.held, Texts(chunks)) == Whole(t, m, s + Concat(chunks))
    decreases |chunks|
  {
    hide Scan, Marks;
    var a := Scan(t, m, s);
    if chunks == [] {
      assert s + Concat(chunks) == s;
    } else {
      ScanAppend(t, m, s, chunks[0]);
      FragmentsFrom(t, m, s + chunks[0], chunks[1..]);
      assert Texts(chunks)[1..] == Texts(chunks[1..]);
      Assoc(s, chunks[0], Concat(chunks[1..]));
      var b := Scan(t, a.inThink, a.held + chunks[0]);
      Assoc(a.flat, b.flat, Output(t, b.inThink, b.held, Texts(chunks[1..])));
    }
  }

  /** Stream and Generate agree: any way of cutting a text into fragments, none and empty ones included,
      yields the mode-tagged text of parsing the whole text at once. */
  lemma StreamAgreesWithWhole(t: Tags, chunks: seq<string>)
    ensures Output(t, t.open == "", "", Texts(chunks)) == Whole(t, t.open == "", Concat(chunks))
  {
    var m := t.open == "";
    var a := Scan(t, m, "");
    FragmentsFrom(t, m, "", chunks);
    assert a.flat == [] && a.held == "" && a.inThink == m;
    assert "" + Concat(chunks) == Concat(chunks);
  }

  /** Where a text starts and how it goes on, by its tags. Without an open tag it starts with reasoning, up to the first
      close tag, and all that follows is answer. With one it starts with answer, up to the first open tag, and goes on
      with reasoning up to the next close tag. */
  lemma Opening(t: Tags, text: string)
    ensures t.open == "" && (t.close == "" || Index(text, t.close) < 0) ==> Whole(t, true, text) == Marks(true, text)
    ensures t.open == "" && t.close != "" && Index(text, t.close) >= 0 ==>
              var i := Index(text, t.close);
              Whole(t, true, text) == Marks(true, text[..i]) + Marks(false, text[i + |t.close|..])
    ensures t.open != "" && Index(text, t.open) < 0 ==> Whole(t, false, text) == Marks(false, text)
    ensures t.open != "" && Index(text, t.open) >= 0 ==>
              var i := Index(text, t.open);
              Whole(t, false, text) == Marks(false, text[..i]) + Whole(t, true, text[i + |t.open|..])
  {
    hide Scan, Marks, Index, Overlap;
    if t.open == "" && (t.close == "" || Index(text, t.close) < 0) {
      ModeStays(t, true, text);
    } else if t.open == "" {
      ModeTurns(t, true, text);
      ModeStays(t, false, text[Index(text, t.close) + |t.close|..]);
    } else if Index(text, t.open) < 0 {
      ModeStays(t, false, text);
    } else {
      ModeTurns(t, false, text);
    }
  }

  lemma ModeStays(t: Tags, m: bool, s: string)
    requires t.Wanted(m) == "" || Index(s, t.Wanted(m)) < 0
    ensures Whole(t, m, s) == Marks(m, s)
  {
    hide Scan, Index, Overlap;
    if t.Wanted(m) == "" {
      ScanPlain(t, m, s);
    } else {
      ScanMiss(t, m, s);
    }
  }

  lemma ModeTurns(t: Tags, m: bool, s: string)
    requires t.Wanted(m) != "" && Index(s, t.Wanted(m)) >= 0
    ensures Index(s, t.Wanted(m)) + |t.Wanted(m)| <= |s|
    ensures var i := Index(s, t.Wanted(m));
            Whole(t, m, s) == Marks(m, s[..i]) + Whole(t, !m, s[i + |t.Wanted(m)|..])
  {
    hide Scan, Marks, Index, Overlap;
    ScanHit(t, m, s);
    var r := Scan(t, !m, s[Index(s, t.Wanted(m)) + |t.Wanted(m)|..]);
    Assoc(Marks(m, s[..Index(s, t.Wanted(m))]), r.flat, Marks(r.inThink, r.held));
  }

  /** The same of any stream of that text. */
  lemma StreamOpening(t: Tags, chunks: seq<string>)
    ensures var text, out := Concat(chunks), Output(t, t.open == "", "", Texts(chunks));
            && (t.open == "" && t.close != "" && Index(text, t.close) >= 0 ==>
                  out == Marks(true, text[..Index(text, t.close)]) + Marks(false, text[Index(text, t.close) + |t.close|..]))
            && (t.open == "" && (t.close == "" || Index(text, t.close) < 0) ==> out == Marks(true, text))
            && (t.open != "" && Index(text, t.open) < 0 ==> out == Marks(false, text))
            && (t.open != "" && Index(text, t.open) >= 0 ==> Marks(false, text[..Index(text, t.open)]) <= out)
  {
    hide Whole, Output, Texts, Index, Marks, Concat;
    StreamAgreesWithWhole(t, chunks);
    Opening(t, Concat(chunks));
  }

  // ---------------------------------------------------------------- the objects

  /** Between two turns of the feed loop: what was emitted and what the rest of the text will give make up the whole. */
  ghost predicate Fed(t: Tags, m: bool, buf: string, out: seq<Delta>, all: Scanned) {
    var r := Scan(t, m, buf);
    all == Scanned(Flats(out) + r.flat, r.inThink, r.held)
  }

  lemma FeedStarts(t: Tags, m: bool, buf: string)
    ensures Fed(t, m, buf, [], Scan(t, m, buf)) && Spoken([])
  {
    hide Scan;
    NothingYet();
  }

  lemma FedPlain(t: Tags, m: bool, buf: string, out: seq<Delta>, all: Scanned)
    requires Fed(t, m, buf, out, all) && t.Wanted(m) == ""
    ensures all == Scanned(Flats(out) + Marks(m, buf), m, "")
  {
    hide Scan, Flats;
    ScanPlain(t, m, buf);
  }

  lemma FedHit(t: Tags, m: bool, buf: string, out: seq<Delta>, all: Scanned)
    requires Fed(t, m, buf, out, all) && t.Wanted(m) != "" && Index(buf, t.Wanted(m)) >= 0
    ensures Index(buf, t.Wanted(m)) + |t.Wanted(m)| <= |buf|
    ensures forall next ::
              Flats(next) == Flats(out) + Marks(m, buf[..Index(buf, t.Wanted(m))]) ==>
                Fed(t, !m, buf[Index(buf, t.Wanted(m)) + |t.Wanted(m)|..], next, all)
  {
    hide Scan, Flats, Index, Marks;
    ScanHit(t, m, buf);
    var i := Index(buf, t.Wanted(m));
    Assoc(Flats(out), Marks(m, buf[..i]), Scan(t, !m, buf[i + |t.Wanted(m)|..]).flat);
  }

  lemma FedMiss(t: Tags, m: bool, buf: string, out: seq<Delta>, all: Scanned)
    requires Fed(t, m, buf, out, all) && t.Wanted(m) != "" && Index(buf, t.Wanted(m)) < 0
    ensures var k := Overlap(buf, t.Wanted(m), |buf|);
            k <= |buf| && all == Scanned(Flats(out) + Marks(m, buf[..|buf| - k]), m, buf[|buf| - k..])
  {
    ScanMiss(t, m, buf);
    hide Scan, Flats, Index, Overlap, Marks;
  }

  class ThinkParser {
    const tags: Tags
    var inThink: bool
    var buf: string

    constructor (t: Tags)
      ensures tags == t && inThink == (t.open == "") && buf == ""
    {
      tags, inThink, buf := t, t.open == "", "";
    }

    function Emit(text: string): (d: Delta)
      reads this
      ensures !d.Other? && d.text == text && Flat(d) == Marks(inThink, text)
    {
      if inThink then Reasoning(text) else Text(text)
    }

    method Feed(s: string) returns (out: seq<Delta>)
      modifies this
      ensures Scan(tags, old(inThink), old(buf) + s) == Scanned(Flats(out), inThink, buf)
      ensures Spoken(out)
    {
      hide *;
      buf := buf + s;
      out := [];
      ghost var all := Scan(tags, inThink, buf);
      FeedStarts(tags, inThink, buf);
      while true
        invariant Spoken(out)
        invariant Fed(tags, inThink, buf, out, all)
        decreases |buf|
      {
        var tag := tags.Wanted(inThink);
        if tag == "" {
          FedPlain(tags, inThink, buf, out, all);
          out := AppendNonEmpty(out, Emit(buf));
          buf := "";
          break;
        }
        var idx := Index(buf, tag);
        if idx >= 0 {
          FedHit(tags, inThink, buf, out, all);
          out := AppendNonEmpty(out, Emit(buf[..idx]));
          buf := buf[idx + |tag|..];
          inThink := !inThink;
          continue;
        }
        FedMiss(tags, inThink, buf, out, all);
        var keep := PrefixOverlap(buf, tag);
        out := AppendNonEmpty(out, Emit(buf[..|buf| - keep]));
        buf := buf[|buf| - keep..];
        break;
      }
    }

    method Flush() returns (out: seq<Delta>)
      modifies this
      ensures Flats(out) == Marks(old(inThink), old(buf))
      ensures buf == "" && inThink == old(inThink)
      ensures Spoken(out)
    {
      if buf == "" { return []; }
      out := [Emit(buf)];
      buf := "";
    }
  }

  /** Every delta is text or reasoning, and none is empty. */
  ghost predicate Spoken(ds: seq<Delta>) { forall i :: 0 <= i < |ds| ==> !ds[i].Other? && ds[i].text != "" }

  function AppendNonEmpty(out: seq<Delta>, d: Delta): (r: seq<Delta>)
    requires !d.Other?
    ensures Flats(r) == Flats(out) + Flat(d)
    ensures Spoken(out) ==> Spoken(r)
  {
    if d.text == "" then out
    else
      assert (out + [d])[..|out|] == out;
      out + [d]
  }

  datatype Received = Delivered(d: Delta) | Error | EOF

  class ThinkingStream {
    const p: ThinkParser
    var queue: seq<Delta>
    var done: bool
    var inner: seq<Item>

    constructor (t: Tags, items: seq<Item>)
      ensures fresh(p) && Pending() == Output(t, t.open == "", "", items)
    {
      p := new ThinkParser(t);
      queue, done, inner := [], false, items;
    }

    /** All that Recv has still to hand out. */
    ghost function Pending(): seq<Mark>
      reads this, p
    {
      Flats(queue) + if done then [] else Output(p.tags, p.inThink, p.buf, inner)
    }

    /** Each call hands out exactly the front of what is pending; EOF comes only when nothing is. */
    method Recv() returns (r: Received)
      modifies this, p
      ensures match r
              case Delivered(d) => old(Pending()) == Flat(d) + Pending()
              case Error => old(Pending()) == [Broken] + Pending()
              case EOF => old(Pending()) == [] && Pending() == []
    {
      hide Scan, Marks, Flat, Flats, Output;
      NothingYet();
      while queue == []
        invariant Pending() == old(Pending())
        decreases |inner|, !done
      {
        if done { return EOF; }
        if inner == [] {
          OutputEnd(p.tags, p.inThink, p.buf);
          done := true;
          queue := p.Flush();
          continue;
        }
        var it := inner[0];
        OutputStep(p.tags, p.inThink, p.buf, it, inner[1..]);
        assert [it] + inner[1..] == inner;
        inner := inner[1..];
        if it.Failed? { return Error; }
        if it.d.Text? {
          queue := p.Feed(it.d.text);
          continue;
        }
        var held := p.Flush();
        FlatsBack(held, it.d);
        queue := held + [it.d];
      }
      FlatsFront(queue);
      Assoc(Flat(queue[0]), Flats(queue[1..]), if done then [] else Output(p.tags, p.inThink, p.buf, inner));
      r := Delivered(queue[0]);
      queue := queue[1..];
    }
  }

  /** The characters of one mode, in order. */
  function OfMode(mode: bool, ms: seq<Mark>): string {
    if ms == [] then ""
    else OfMode(mode, ms[..|ms| - 1]) +
         var l := ms[|ms| - 1]; if l.Char? && l.reasoning == mode then [l.c] else ""
  }

  lemma {:induction false} OfModeAppend(mode: bool, a: seq<Mark>, b: seq<Mark>)
    ensures OfMode(mode, a + b) == OfMode(mode, a) + OfMode(mode, b)
  {
    if b == [] {
      assert a + b == a;
    } else {
      OfModeAppend(mode, a, b[..|b| - 1]);
      assert (a + b)[..|a + b| - 1] == a + b[..|b| - 1];
    }
  }

  lemma {:induction false} OfModeMarks(mode: bool, m: bool, s: string)
    ensures OfMode(mode, Marks(m, s)) == if mode == m then s else ""
  {
    if s != "" {
      OfModeMarks(mode, m, s[..|s| - 1]);
      assert Marks(m, s)[..|s| - 1] == Marks(m, s[..|s| - 1]);
      assert s == s[..|s| - 1] + [s[|s| - 1]];
    }
  }

  lemma {:induction false} OfModeBack(mode: bool, ds: seq<Delta>, d: Delta)
    requires !d.Other?
    ensures OfMode(mode, Flats(ds + [d])) == OfMode(mode, Flats(ds)) + if mode == d.Reasoning? then d.text else ""
  {
    FlatsBack(ds, d);
    OfModeAppend(mode, Flats(ds), Flat(d));
    OfModeMarks(mode, d.Reasoning?, d.text);
  }

  lemma NothingYet()
    ensures Flats([]) == [] && OfMode(false, []) == "" && OfMode(true, []) == "" && Spoken([])
  {
  }

  lemma OpeningByMode(t: Tags, text: string)
    ensures var all := Whole(t, t.open == "", text);
            && (t.open == "" && t.close != "" && Index(text, t.close) >= 0 ==>
                  && OfMode(false, all) == text[Index(text, t.close) + |t.close|..]
                  && OfMode(true, all) == text[..Index(text, t.close)])
            && (t.open == "" && (t.close == "" || Index(text, t.close) < 0) ==>
                  OfMode(false, all) == "" && OfMode(true, all) == text)
            && (t.open != "" && Index(text, t.open) < 0 ==> OfMode(false, all) == text && OfMode(true, all) == "")
            && (t.open != "" && Index(text, t.open) >= 0 ==> text[..Index(text, t.open)] <= OfMode(false, all))
  {
    hide Whole, Index, Marks, OfMode;
    Opening(t, text);
    OfModeMarks(true, true, text);
    OfModeMarks(false, true, text);
    OfModeMarks(true, false, text);
    OfModeMarks(false, false, text);
    var tag := t.Wanted(t.open == "");
    var i := Index(text, tag);
    if tag != "" && i >= 0 {
      var front, rest := text[..i], text[i + |tag|..];
      forall mode: bool, m: bool ensures OfMode(mode, Marks(m, front)) == if mode == m then front else "" {
        OfModeMarks(mode, m, front);
      }
      forall mode: bool, m: bool ensures OfMode(mode, Marks(m, rest)) == if mode == m then rest else "" {
        OfModeMarks(mode, m, rest);
      }
      OfModeAppend(true, Marks(true, front), Marks(false, rest));
      OfModeAppend(false, Marks(true, front), Marks(false, rest));
      OfModeAppend(false, Marks(false, front), Whole(t, true, rest));
    }
  }

  /** The non-streaming path: the completed text is split into answer and reasoning. */
  method Generate(t: Tags, text: string, reasoning: string) returns (answer: string, thought: string)
    ensures answer == OfMode(false, Whole(t, t.open == "", text))
    ensures thought == reasoning + OfMode(true, Whole(t, t.open == "", text))
    ensures t.open == "" && t.close != "" && Index(text, t.close) >= 0 ==>
              var i := Index(text, t.close); answer == text[i + |t.close|..] && thought == reasoning + text[..i]
    ensures t.open == "" && (t.close == "" || Index(text, t.close) < 0) ==> answer == "" && thought == reasoning + text
    ensures t.open != "" && Index(text, t.open) < 0 ==> answer == text && thought == reasoning
    ensures t.open != "" && Index(text, t.open) >= 0 ==> text[..Index(text, t.open)] <= answer
  {
    hide Scan, Marks, Flats, OfMode, Flat, Index;
    OpeningByMode(t, text);
    var p := new ThinkParser(t);
    var fed := p.Feed(text);
    assert "" + text == text;
    var rest := p.Flush();
    FlatsAppend(fed, rest);
    var ds := fed + rest;
    NothingYet();
    answer := "";
    var r := "";
    for i := 0 to |ds|
      invariant answer == OfMode(false, Flats(ds[..i]))
      invariant r == OfMode(true, Flats(ds[..i]))
    {
      var d := ds[i];
      assert ds[..i + 1] == ds[..i] + [d];
      OfModeBack(false, ds[..i], d);
      OfModeBack(true, ds[..i], d);
      if d.Reasoning? { r := r + d.text; } else { answer := answer + d.text; }
    }
    assert ds[..|ds|] == ds;
    thought := if r == "" then reasoning else if reasoning != "" then reasoning + r else r;
  }
}
