/** Streams in which other deltas stand between the fragments of the text.

A forwarded delta ends the current run of text: what the parser held back is flushed before it. Generate parses the whole
text at once, so the two paths see the same tags exactly when no tag is cut by a forwarded delta. */
module Interleaving {
  import opened Thinking

  // ---------------------------------------------------------------- parsing a text in two parts

  /** The mode a text leaves the parser in. */
  function ModeAfter(t: Tags, m: bool, s: string): bool
    decreases |s|
  {
    var tag := t.Wanted(m);
    if tag == "" || Index(s, tag) < 0 then m else ModeAfter(t, !m, s[Index(s, tag) + |tag|..])
  }

  function LastOf(ps: seq<string>): string requires ps != [] { ps[|ps| - 1] }

  /** The pieces of two texts in a row, the last piece of one and the first of the other being one piece. */
  function Glue(a: seq<string>, b: seq<string>): seq<string>
    requires a != [] && b != []
  {
    a[..|a| - 1] + [LastOf(a) + b[0]] + b[1..]
  }

  /** The next tag after x starts in x and ends in y. */
  predicate Straddles(t: Tags, m: bool, x: string, y: string) {
    var tag, l := t.Wanted(ModeAfter(t, m, x)), LastOf(Split(t, m, x));
    tag != "" && 0 <= Index(l + y, tag) < |l|
  }

  lemma SplitMiss(t: Tags, m: bool, s: string)
    requires t.Wanted(m) == "" || Index(s, t.Wanted(m)) < 0
    ensures Split(t, m, s) == [s] && ModeAfter(t, m, s) == m
  {
  }

  lemma SplitHit(t: Tags, m: bool, s: string)
    requires t.Wanted(m) != "" && Index(s, t.Wanted(m)) >= 0
    ensures Index(s, t.Wanted(m)) + |t.Wanted(m)| <= |s|
    ensures var i := Index(s, t.Wanted(m)); var rest := s[i + |t.Wanted(m)|..];
            Split(t, m, s) == [s[..i]] + Split(t, !m, rest) && ModeAfter(t, m, s) == ModeAfter(t, !m, rest)
  {
    hide Index, At;
    IndexBound(s, t.Wanted(m));
  }

  lemma IndexBound(s: string, tag: string)
    ensures Index(s, tag) >= 0 ==> Index(s, tag) + |tag| <= |s|
  {
    hide Index;
  }

  lemma AtShift(x: string, y: string, tag: string, i: int)
    requires 0 <= i
    ensures At(y, tag, i) <==> At(x + y, tag, |x| + i)
  {
    var w := x + y;
    if i + |tag| <= |y| {
      forall k | |x| <= k < |w| ensures w[k] == y[k - |x|] {}
    }
  }

  /** When no match starts in x, the first match in x + y is the first match in y. */
  lemma IndexShift(x: string, y: string, tag: string)
    requires Index(x + y, tag) < 0 || Index(x + y, tag) >= |x|
    ensures Index(x + y, tag) < 0 <==> Index(y, tag) < 0
    ensures Index(x + y, tag) >= 0 ==> Index(y, tag) == Index(x + y, tag) - |x|
  {
    var j, i := Index(x + y, tag), Index(y, tag);
    hide Index, At;
    if i >= 0 { AtShift(x, y, tag, i); }
    if j >= 0 {
      AtShift(x, y, tag, j - |x|);
      forall k | 0 <= k < j - |x| ensures !At(y, tag, k) { AtShift(x, y, tag, k); }
      IndexUnique(y, tag, j - |x|);
    }
  }

  /** If the next tag is cut, the piece it ends is shorter than what x alone leaves of it. */
  lemma {:induction false} StraddleShortens(t: Tags, m: bool, x: string, y: string)
    requires Straddles(t, m, x, y)
    ensures var a, c := Split(t, m, x), Split(t, m, x + y); |a| <= |c| && |c[|a| - 1]| < |LastOf(a)|
    decreases |x|
  {
    hide Index, At, Split, ModeAfter;
    var tag := t.Wanted(m);
    if tag == "" || Index(x, tag) < 0 {
      SplitMiss(t, m, x);
      SplitHit(t, m, x + y);
    } else {
      var i := Index(x, tag);
      SplitHit(t, m, x);
      MatchStays(x, y, tag);
      SplitHit(t, m, x + y);
      var rest := x[i + |tag|..];
      assert (x + y)[i + |tag|..] == rest + y;
      StraddleShortens(t, !m, rest, y);
    }
  }

  lemma StraddlesLater(t: Tags, m: bool, x: string, y: string)
    requires t.Wanted(m) != "" && Index(x, t.Wanted(m)) >= 0
    ensures Index(x, t.Wanted(m)) + |t.Wanted(m)| <= |x|
    ensures Straddles(t, m, x, y) <==> Straddles(t, !m, x[Index(x, t.Wanted(m)) + |t.Wanted(m)|..], y)
  {
    hide Index, At, Split, ModeAfter;
    SplitHit(t, m, x);
  }

  lemma StraddlesMiss(t: Tags, m: bool, x: string, y: string)
    requires t.Wanted(m) == "" || Index(x, t.Wanted(m)) < 0
    ensures Straddles(t, m, x, y) <==> t.Wanted(m) != "" && 0 <= Index(x + y, t.Wanted(m)) < |x|
  {
    hide Index, At, Split, ModeAfter;
    SplitMiss(t, m, x);
  }

  lemma {:induction false} CleanCut(t: Tags, m: bool, x: string, y: string)
    requires !Straddles(t, m, x, y)
    ensures Split(t, m, x + y) == Glue(Split(t, m, x), Split(t, ModeAfter(t, m, x), y))
    decreases |x|
  {
    hide Index, At, Split, ModeAfter, Straddles, Glue;
    var tag := t.Wanted(m);
    if tag == "" || Index(x, tag) < 0 {
      SplitMiss(t, m, x);
      StraddlesMiss(t, m, x, y);
      CleanCutMiss(t, m, x, y);
    } else {
      var i := Index(x, tag);
      StraddlesLater(t, m, x, y);
      SplitHit(t, m, x);
      MatchStays(x, y, tag);
      SplitHit(t, m, x + y);
      var rest := x[i + |tag|..];
      assert (x + y)[i + |tag|..] == rest + y && (x + y)[..i] == x[..i];
      CleanCut(t, !m, rest, y);
      GlueFront(x[..i], Split(t, !m, rest), Split(t, ModeAfter(t, m, x), y));
    }
  }

  lemma CleanCutMiss(t: Tags, m: bool, x: string, y: string)
    requires t.Wanted(m) == "" || Index(x + y, t.Wanted(m)) < 0 || Index(x + y, t.Wanted(m)) >= |x|
    ensures Split(t, m, x + y) == Glue([x], Split(t, m, y))
  {
    hide Index, At, Split, ModeAfter;
    var tag := t.Wanted(m);
    if tag != "" { IndexShift(x, y, tag); }
    if tag == "" || Index(x + y, tag) < 0 {
      SplitMiss(t, m, x + y);
      SplitMiss(t, m, y);
    } else {
      SplitHit(t, m, x + y);
      SplitHit(t, m, y);
      var j := Index(y, tag);
      assert (x + y)[..|x| + j] == x + y[..j];
      assert (x + y)[|x| + j + |tag|..] == y[j + |tag|..];
    }
  }

  lemma GlueFront(p: string, a: seq<string>, b: seq<string>)
    requires a != [] && b != []
    ensures [p] + Glue(a, b) == Glue([p] + a, b)
  {
    assert ([p] + a)[..|a|] == [p] + a[..|a| - 1];
  }

  // ---------------------------------------------------------------- runs of text

  /** What the parser makes of runs of text with a flush after each. */
  function RunPieces(t: Tags, m: bool, runs: seq<string>): (r: seq<string>)
    requires runs != []
    ensures r != []
    decreases |runs|
  {
    var first := Split(t, m, runs[0]);
    if |runs| == 1 then first else Glue(first, RunPieces(t, ModeAfter(t, m, runs[0]), runs[1..]))
  }

  /** No tag is cut by the end of a run. */
  predicate Clean(t: Tags, m: bool, runs: seq<string>)
    requires runs != []
    decreases |runs|
  {
    |runs| == 1 || (!Straddles(t, m, runs[0], Concat(runs[1..])) && Clean(t, ModeAfter(t, m, runs[0]), runs[1..]))
  }

  lemma GlueInjective(a: seq<string>, b: seq<string>, c: seq<string>)
    requires a != [] && b != [] && c != [] && Glue(a, b) == Glue(a, c)
    ensures b == c
  {
    var n, g := |a| - 1, Glue(a, b);
    assert g[n] == LastOf(a) + b[0] == LastOf(a) + c[0];
    assert (LastOf(a) + b[0])[|LastOf(a)|..] == b[0] && (LastOf(a) + c[0])[|LastOf(a)|..] == c[0];
    assert g[n + 1..] == b[1..] && Glue(a, c)[n + 1..] == c[1..];
    assert b == [b[0]] + b[1..] && c == [c[0]] + c[1..];
  }

  lemma GlueIsLonger(a: seq<string>, b: seq<string>)
    requires a != [] && b != []
    ensures |Glue(a, b)| >= |a| && |Glue(a, b)[|a| - 1]| >= |LastOf(a)|
  {
  }

  /** The stream removes the same tags as Generate, and so splits the text into the same pieces, exactly when no tag is
      cut by a forwarded delta. */
  lemma {:induction false} SameTagsIffClean(t: Tags, m: bool, runs: seq<string>)
    requires runs != []
    ensures RunPieces(t, m, runs) == Split(t, m, Concat(runs)) <==> Clean(t, m, runs)
    decreases |runs|
  {
    if |runs| == 1 {
      assert Concat(runs[1..]) == "" && runs[0] + "" == runs[0];
    } else {
      hide Split, ModeAfter, Straddles, Glue;
      var x, rest := runs[0], runs[1..];
      var y, m1 := Concat(rest), ModeAfter(t, m, x);
      var a, p, q := Split(t, m, x), RunPieces(t, m1, rest), Split(t, m1, y);
      SameTagsIffClean(t, m1, rest);
      if Straddles(t, m, x, y) {
        StraddleShortens(t, m, x, y);
        GlueIsLonger(a, p);
      } else {
        CleanCut(t, m, x, y);
        if Glue(a, p) == Glue(a, q) { GlueInjective(a, p, q); }
      }
    }
  }

  // ---------------------------------------------------------------- the stream

  /** The runs of text of a stream: every delta that is not text ends one. */
  function Runs(items: seq<Item>): (r: seq<string>)
    ensures r != []
  {
    if items == [] then [""]
    else
      var rest := Runs(items[1..]);
      if items[0].Failed? then rest
      else if items[0].d.Text? then [items[0].d.text + rest[0]] + rest[1..]
      else [""] + rest
  }

  /** The part of a stream's output that the parser makes of its text, without the deltas forwarded. */
  function Parsed(t: Tags, m: bool, held: string, items: seq<Item>): seq<Mark>
    decreases |items|
  {
    if items == [] then Marks(m, held)
    else if items[0].Failed? then Parsed(t, m, held, items[1..])
    else if items[0].d.Text? then
      var a := Scan(t, m, held + items[0].d.text);
      a.flat + Parsed(t, a.inThink, a.held, items[1..])
    else Marks(m, held) + Parsed(t, m, "", items[1..])
  }

  /** Forwarded deltas carry no answer text. */
  lemma {:induction false} ForwardsCarryNoAnswer(t: Tags, m: bool, held: string, items: seq<Item>)
    ensures OfMode(false, Output(t, m, held, items)) == OfMode(false, Parsed(t, m, held, items))
    decreases |items|
  {
    hide Scan, OfMode, Marks;
    if items != [] {
      var it, rest := items[0], items[1..];
      if it.Failed? {
        ForwardsCarryNoAnswer(t, m, held, rest);
        OneMark(Broken);
        OfModeAppend(false, [Broken], Output(t, m, held, rest));
      } else if it.d.Text? {
        var a := Scan(t, m, held + it.d.text);
        ForwardsCarryNoAnswer(t, a.inThink, a.held, rest);
        OfModeAppend(false, a.flat, Output(t, a.inThink, a.held, rest));
        OfModeAppend(false, a.flat, Parsed(t, a.inThink, a.held, rest));
      } else {
        ForwardsCarryNoAnswer(t, m, "", rest);
        FlatHasNoAnswer(it.d);
        OfModeAppend(false, Marks(m, held) + Flat(it.d), Output(t, m, "", rest));
        OfModeAppend(false, Marks(m, held), Flat(it.d));
        OfModeAppend(false, Marks(m, held), Parsed(t, m, "", rest));
      }
    }
  }

  /** A forwarded delta keeps its place: all that came before it is out before it, held-back text included, and it is
      itself passed on unchanged. The stream goes on after it with nothing held back. */
  lemma {:induction false} ForwardKeepsPlace(t: Tags, m: bool, held: string, before: seq<Item>, d: Delta, after: seq<Item>)
    returns (mode: bool)
    requires !d.Text?
    ensures Output(t, m, held, before + [Got(d)] + after)
         == Output(t, m, held, before) + Flat(d) + Output(t, mode, "", after)
    decreases |before|
  {
    hide Scan, Marks, Output, Flat;
    Assoc(before, [Got(d)], after);
    if before == [] {
      assert before + ([Got(d)] + after) == [Got(d)] + after;
      OutputStep(t, m, held, Got(d), after);
      OutputEnd(t, m, held);
      mode := m;
    } else {
      var it, rest := before[0], before[1..];
      var all := rest + [Got(d)] + after;
      assert before + [Got(d)] + after == [it] + all && before == [it] + rest;
      OutputStep(t, m, held, it, all);
      OutputStep(t, m, held, it, rest);
      if it.Failed? {
        mode := ForwardKeepsPlace(t, m, held, rest, d, after);
        Assoc4([Broken], Output(t, m, held, rest), Flat(d), Output(t, mode, "", after));
      } else if it.d.Text? {
        var a := Scan(t, m, held + it.d.text);
        mode := ForwardKeepsPlace(t, a.inThink, a.held, rest, d, after);
        Assoc4(a.flat, Output(t, a.inThink, a.held, rest), Flat(d), Output(t, mode, "", after));
      } else {
        mode := ForwardKeepsPlace(t, m, "", rest, d, after);
        Assoc4(Marks(m, held) + Flat(it.d), Output(t, m, "", rest), Flat(d), Output(t, mode, "", after));
      }
    }
  }

  lemma Assoc4<T>(a: seq<T>, b: seq<T>, c: seq<T>, d: seq<T>)
    ensures a + (b + c + d) == a + b + c + d
  {
  }

  lemma OneMark(k: Mark)
    ensures OfMode(false, [k]) == if k.Char? && !k.reasoning then [k.c] else ""
  {
    assert [k][..0] == [];
  }

  lemma FlatHasNoAnswer(d: Delta)
    requires !d.Text?
    ensures OfMode(false, Flat(d)) == ""
  {
    if d.Reasoning? { OfModeMarks(false, true, d.text); } else { OneMark(Forwarded(d.id)); }
  }

  /** Each run parsed and flushed, in the mode the one before left. */
  function RunTags(t: Tags, m: bool, runs: seq<string>): seq<Mark>
    decreases |runs|
  {
    if runs == [] then [] else Whole(t, m, runs[0]) + RunTags(t, ModeAfter(t, m, runs[0]), runs[1..])
  }

  lemma {:induction false} ModeAfterScan(t: Tags, m: bool, s: string)
    ensures ModeAfter(t, m, s) == Scan(t, m, s).inThink
    decreases |s|
  {
    hide Index, At, Scan, Marks, Split;
    var tag := t.Wanted(m);
    if tag == "" {
      ScanPlain(t, m, s);
    } else if Index(s, tag) < 0 {
      ScanMiss(t, m, s);
    } else {
      ScanHit(t, m, s);
      ModeAfterScan(t, !m, s[Index(s, tag) + |tag|..]);
    }
  }

  lemma ScanNothing(t: Tags, m: bool)
    ensures Scan(t, m, "") == Scanned([], m, "")
  {
  }

  /** A stream after s has been fed: the rest of it goes on from s. */
  lemma {:induction false} ParsedFrom(t: Tags, m: bool, s: string, items: seq<Item>)
    ensures var a, rs := Scan(t, m, s), Runs(items);
            a.flat + Parsed(t, a.inThink, a.held, items) == RunTags(t, m, [s + rs[0]] + rs[1..])
    decreases |items|
  {
    hide Scan, Marks, ModeAfter;
    var a, rs := Scan(t, m, s), Runs(items);
    if items == [] {
      LastRun(t, m, s);
    } else {
      var it, rest := items[0], items[1..];
      var after := Runs(rest);
      if it.Failed? {
        ParsedFrom(t, m, s, rest);
      } else if it.d.Text? {
        var x := it.d.text;
        ScanAppend(t, m, s, x);
        ParsedFrom(t, m, s + x, rest);
        Assoc(s, x, after[0]);
        var b := Scan(t, a.inThink, a.held + x);
        Assoc(a.flat, b.flat, Parsed(t, b.inThink, b.held, rest));
        assert rs[0] == x + after[0] && rs[1..] == after[1..];
      } else {
        ModeAfterScan(t, m, s);
        ScanNothing(t, a.inThink);
        ParsedFrom(t, a.inThink, "", rest);
        NextRun(t, m, s, after);
        assert "" + after[0] == after[0] && [after[0]] + after[1..] == after;
        assert [] + Parsed(t, a.inThink, "", rest) == Parsed(t, a.inThink, "", rest);
        Assoc(a.flat, Marks(a.inThink, a.held), Parsed(t, a.inThink, "", rest));
        assert s + "" == s && rs == [""] + after && [s + rs[0]] + rs[1..] == [s] + after;
      }
    }
  }

  lemma LastRun(t: Tags, m: bool, s: string)
    ensures RunTags(t, m, [s + ""] + [""][1..]) == Whole(t, m, s)
  {
    hide Scan, ModeAfter;
    var rs := [s + ""] + [""][1..];
    assert rs[0] == s && rs[1..] == [] && RunTags(t, ModeAfter(t, m, s), []) == [];
  }

  lemma NextRun(t: Tags, m: bool, s: string, after: seq<string>)
    ensures RunTags(t, m, [s] + after) == Whole(t, m, s) + RunTags(t, ModeAfter(t, m, s), after)
  {
    hide Scan, ModeAfter;
    assert ([s] + after)[1..] == after;
  }

  /** What the parser makes of a stream's text is each run parsed and flushed. */
  lemma ParsedIsRunTags(t: Tags, m: bool, items: seq<Item>)
    ensures Parsed(t, m, "", items) == RunTags(t, m, Runs(items))
  {
    hide Parsed, RunTags, Runs;
    var rs := Runs(items);
    ScanNothing(t, m);
    ParsedFrom(t, m, "", items);
    hide Scan;
    assert "" + rs[0] == rs[0] && [rs[0]] + rs[1..] == rs;
    assert [] + Parsed(t, m, "", items) == Parsed(t, m, "", items);
  }

  function Flipped(m: bool, n: nat): bool { if n % 2 == 0 then m else !m }

  lemma {:induction false} ModeByPieces(t: Tags, m: bool, s: string)
    ensures ModeAfter(t, m, s) == Flipped(m, |Split(t, m, s)| - 1)
    decreases |s|
  {
    hide Index, At, Split, ModeAfter;
    var tag := t.Wanted(m);
    if tag == "" || Index(s, tag) < 0 {
      SplitMiss(t, m, s);
    } else {
      SplitHit(t, m, s);
      ModeByPieces(t, !m, s[Index(s, tag) + |tag|..]);
    }
  }

  lemma {:induction false} TagGlue(m: bool, a: seq<string>, b: seq<string>)
    requires a != [] && b != []
    ensures TagPieces(m, Glue(a, b)) == TagPieces(m, a) + TagPieces(Flipped(m, |a| - 1), b)
    decreases |a|
  {
    hide Marks, Glue, TagPieces;
    if |a| == 1 {
      TagGlueOne(m, a[0], b);
      assert a == [a[0]];
    } else {
      var rest := a[1..];
      assert a == [a[0]] + rest;
      GlueFront(a[0], rest, b);
      TagGlue(!m, rest, b);
      TagFront(m, a[0], rest);
      TagFront(m, a[0], Glue(rest, b));
      Assoc(Marks(m, a[0]), TagPieces(!m, rest), TagPieces(Flipped(m, |a| - 1), b));
    }
  }

  lemma TagFront(m: bool, p: string, ps: seq<string>)
    ensures TagPieces(m, [p] + ps) == Marks(m, p) + TagPieces(!m, ps)
  {
    hide Marks;
    assert ([p] + ps)[1..] == ps;
  }

  lemma TagGlueOne(m: bool, p: string, b: seq<string>)
    requires b != []
    ensures TagPieces(m, Glue([p], b)) == TagPieces(m, [p]) + TagPieces(m, b)
  {
    hide Marks, TagPieces;
    assert Glue([p], b) == [p + b[0]] + b[1..] && b == [b[0]] + b[1..] && [p] == [p] + [];
    TagFront(m, p + b[0], b[1..]);
    TagFront(m, b[0], b[1..]);
    TagFront(m, p, []);
    NoPieces(!m);
    MarksJoin(m, p, b[0]);
    Assoc(Marks(m, p), Marks(m, b[0]), TagPieces(!m, b[1..]));
  }

  lemma NoPieces(m: bool)
    ensures TagPieces(m, []) == []
  {
  }

  lemma MarksJoin(m: bool, a: string, b: string)
    ensures Marks(m, a + b) == Marks(m, a) + Marks(m, b)
  {
  }

  lemma {:induction false} RunTagsArePieces(t: Tags, m: bool, runs: seq<string>)
    requires runs != []
    ensures RunTags(t, m, runs) == TagPieces(m, RunPieces(t, m, runs))
    decreases |runs|
  {
    hide Whole, Split, ModeAfter, TagPieces, Glue;
    var x, m1 := runs[0], ModeAfter(t, m, runs[0]);
    WholeIsPieces(t, m, x);
    if |runs| == 1 {
      assert RunTags(t, m1, []) == [] && runs[1..] == [];
    } else {
      RunTagsArePieces(t, m1, runs[1..]);
      ModeByPieces(t, m, x);
      TagGlue(m, Split(t, m, x), RunPieces(t, m1, runs[1..]));
    }
  }

  /** Stream and Generate agree on interleaved streams: when no tag is cut by a forwarded delta, the parser makes the same
      tagged text of the stream as of the whole text, and a consumer collects the same answer. */
  lemma InterleavedAgrees(t: Tags, items: seq<Item>)
    requires Clean(t, t.open == "", Runs(items))
    ensures var m := t.open == ""; var text := Concat(Runs(items));
            && Parsed(t, m, "", items) == Whole(t, m, text)
            && OfMode(false, Output(t, m, "", items)) == OfMode(false, Whole(t, m, text))
  {
    hide *;
    var m := t.open == "";
    var runs := Runs(items);
    SameTagsIffClean(t, m, runs);
    ParsedIsRunTags(t, m, items);
    RunTagsArePieces(t, m, runs);
    WholeIsPieces(t, m, Concat(runs));
    ForwardsCarryNoAnswer(t, m, "", items);
  }

  /** Any forwarded delta inside an open tag makes them differ: the stream leaves the tag in the answer. */
  lemma ForwardInsideTag(t: Tags, k: nat, id: nat)
    requires 0 < k < |t.open|
    ensures var runs := [t.open[..k], t.open[k..]];
            var items := [Got(Text(runs[0])), Got(Other(id)), Got(Text(runs[1]))];
            && Runs(items) == runs && !Clean(t, false, runs)
            && Parsed(t, false, "", items) == Marks(false, t.open) && Whole(t, false, t.open) == []
  {
    var tag := t.open;
    var x, y := tag[..k], tag[k..];
    var runs := [x, y];
    var items := [Got(Text(x)), Got(Other(id)), Got(Text(y))];
    assert x + y == tag;
    ShortRuns(x, y, id);
    TooShort(x, tag);
    TooShort(y, tag);
    SplitMiss(t, false, x);
    SplitMiss(t, false, y);
    TagItself(t);
    hide Index, At, Split, ModeAfter, Marks, Scan;
    assert runs[1..] == [y];
    OneRun(y);
    StraddlesMiss(t, false, x, y);
    ParsedIsRunTags(t, false, items);
    RunTagsArePieces(t, false, runs);
    assert RunPieces(t, false, [y]) == [y];
    assert RunPieces(t, false, runs) == Glue([x], [y]) == [tag];
    assert TagPieces(false, [tag]) == Marks(false, tag) + TagPieces(true, [][..]);
  }

  lemma ShortRuns(x: string, y: string, id: nat)
    ensures Runs([Got(Text(x)), Got(Other(id)), Got(Text(y))]) == [x, y]
  {
    var items := [Got(Text(x)), Got(Other(id)), Got(Text(y))];
    assert items[1..][1..] == [Got(Text(y))] && items[1..][1..][1..] == [];
    assert y + "" == y;
    assert Runs([Got(Text(y))]) == [y];
    assert Runs(items[1..]) == ["", y];
    assert x + "" == x;
  }

  lemma OneRun(y: string)
    ensures Concat([y]) == y
  {
    assert Concat([y][1..]) == "" && y + "" == y;
  }

  lemma TooShort(s: string, tag: string)
    requires |s| < |tag|
    ensures Index(s, tag) < 0
  {
    hide Index;
  }

  lemma TagItself(t: Tags)
    requires t.open != ""
    ensures Index(t.open, t.open) == 0 && Whole(t, false, t.open) == []
  {
    hide Index, Scan, Marks;
    AtStart(t.open);
    hide At;
    IndexUnique(t.open, t.open, 0);
    ScanHit(t, false, t.open);
    ScanNothing(t, true);
    assert t.open[|t.open|..] == "" && t.open[..0] == "";
    assert Marks(false, "") == [] && Marks(true, "") == [];
  }

  lemma AtStart(tag: string)
    ensures At(tag, tag, 0)
  {
  }

  /** Other tags removed may leave the same text, so the text alone does not tell: with tags xx and x, the text x, then a
      forwarded delta, then xxxy. The stream keeps the first x and the last y, Generate the last x and y. */
  lemma SameTextByChance()
    ensures var t := Tags("xx", "x"); var runs := ["x", "xxxy"];
            !Clean(t, false, runs) && RunTags(t, false, runs) == Whole(t, false, Concat(runs))
  {
    var t, runs := Tags("xx", "x"), ["x", "xxxy"];
    hide Index, Split, ModeAfter, Whole, RunTags, Marks;
    TooShort("x", "xx");
    SplitMiss(t, false, "x");
    assert runs[1..] == ["xxxy"];
    OneRun("xxxy");
    assert Concat(runs) == "xxxxy";
    OpenClose(t, "y");
    OpenClose(t, "xy");
    assert "x" + "xxxy" == "xxxxy" && "xxx" + "y" == "xxxy" && "xxx" + "xy" == "xxxxy";
    FindsAt("xxxxy", "xx");
    StraddlesMiss(t, false, "x", "xxxy");
    RunTagsArePieces(t, false, runs);
    WholeIsPieces(t, false, "xxxxy");
    assert RunPieces(t, false, ["xxxy"]) == ["", "", "y"];
    GlueOne("x", "", "y");
    assert RunPieces(t, false, runs) == Glue(["x"], ["", "", "y"]);
    ThreePieces("x", "y");
    ThreePieces("", "xy");
    MarksJoin(false, "x", "y");
    MarksJoin(false, "", "xy");
    assert "x" + "y" == "xy" && "" + "xy" == "xy";
  }

  lemma GlueOne(p: string, q: string, r: string)
    ensures Glue([p], ["", q, r]) == [p, q, r]
  {
    assert p + "" == p && ["", q, r][1..] == [q, r] && [p][..0] == [];
    assert [] + [p] + [q, r] == [p, q, r];
  }

  lemma FindsAt(s: string, tag: string)
    requires tag <= s
    ensures Index(s, tag) == 0
  {
    hide Index;
    assert At(s, tag, 0);
    IndexUnique(s, tag, 0);
  }

  /** xxx opens and closes at once. */
  lemma OpenClose(t: Tags, rest: string)
    requires t == Tags("xx", "x") && (rest == "y" || rest == "xy")
    ensures Split(t, false, "xxx" + rest) == ["", "", rest]
  {
    var s := "xxx" + rest;
    assert s[2..] == "x" + rest && ("x" + rest)[1..] == rest && s[..0] == "" && ("x" + rest)[..0] == "";
    assert s[..2] == "xx" && ("x" + rest)[..1] == "x";
    hide Split, ModeAfter;
    FindsAt(s, "xx");
    FindsAt("x" + rest, "x");
    NoDouble(rest);
    hide Index, At;
    SplitHit(t, false, s);
    SplitHit(t, true, "x" + rest);
    SplitMiss(t, false, rest);
  }

  lemma NoDouble(rest: string)
    requires rest == "y" || rest == "xy"
    ensures Index(rest, "xx") < 0
  {
    hide Index;
    forall i ensures !At(rest, "xx", i) {
      if 0 <= i && i + 2 <= |rest| { assert rest[i + 1] == 'y' && "xx"[1] == 'x'; }
    }
  }

  lemma ThreePieces(p: string, q: string)
    ensures TagPieces(false, [p, "", q]) == Marks(false, p) + Marks(false, q)
  {
    hide Marks, TagPieces;
    assert [p, "", q] == [p] + ([""] + ([q] + []));
    TagFront(false, p, [""] + ([q] + []));
    TagFront(true, "", [q] + []);
    TagFront(false, q, []);
    NoPieces(true);
    NoMarks();
  }

  lemma NoMarks()
    ensures Marks(true, "") == []
  {
  }
}
