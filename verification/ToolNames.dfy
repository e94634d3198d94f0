/** Tool names on the wire.

Providers accept only names of 1 to 64 letters, digits, underscores and hyphens. Each request maps its real
tool names to such names and back, with numeric suffixes where two names would fall together. */
module ToolNames {

  const MAX_LEN := 64

  predicate ValidChar(c: char) {
    'a' <= c <= 'z' || 'A' <= c <= 'Z' || '0' <= c <= '9' || c == '_' || c == '-'
  }

  predicate WireName(s: string) { 1 <= |s| <= MAX_LEN && forall i :: 0 <= i < |s| ==> ValidChar(s[i]) }

  /** Runs of invalid characters become one underscore. */
  function Collapse(s: string, inRun: bool): (r: string)
    ensures forall i :: 0 <= i < |r| ==> ValidChar(r[i])
    ensures s != "" && !inRun ==> r != ""
  {
    if s == "" then ""
    else if ValidChar(s[0]) then [s[0]] + Collapse(s[1..], false)
    else (if inRun then "" else "_") + Collapse(s[1..], true)
  }

  function Truncate(s: string): string { if |s| > MAX_LEN then s[..MAX_LEN] else s }

  function Sanitize(name: string): (r: string)
    ensures WireName(r)
  {
    var s := Collapse(name, false);
    Truncate(if s == "" then "tool" else s)
  }

  lemma {:induction false} CollapseValid(s: string)
    requires forall i :: 0 <= i < |s| ==> ValidChar(s[i])
    ensures Collapse(s, false) == s
  {
    if s != "" { CollapseValid(s[1..]); }
  }

  /** Sanitizing changes nothing in a name that was already fit for the wire. */
  lemma SanitizeIsNoOp(name: string)
    ensures Sanitize(name) == name <==> WireName(name)
  {
    if WireName(name) { CollapseValid(name); }
  }

  /** What sanitizing does, character by character: a legal character stays where it is, a run of others becomes one
      underscore, an empty name becomes "tool", and what is over 64 characters is cut off. */
  lemma SanitizeRules(a: string, c: char, b: string, bad: string)
    requires ValidChar(c) && bad != "" && forall i :: 0 <= i < |bad| ==> !ValidChar(bad[i])
    ensures Collapse(a + [c] + b, false) == Collapse(a, false) + [c] + Collapse(b, false)
    ensures Collapse(bad, false) == "_"
    ensures Sanitize("") == "tool"
    ensures a != "" ==> Sanitize(a) == if |Collapse(a, false)| > 64 then Collapse(a, false)[..64] else Collapse(a, false)
  {
    CollapseSplits(a, c, b, false);
    CollapseBad(bad, false);
  }

  lemma {:induction false} CollapseSplits(a: string, c: char, b: string, inRun: bool)
    requires ValidChar(c)
    ensures Collapse(a + [c] + b, inRun) == Collapse(a, inRun) + [c] + Collapse(b, false)
  {
    hide *;
    if a == "" {
      assert a + [c] + b == [c] + b && Collapse(a, inRun) == "" by { CollapseNone(inRun); }
      CollapseFront(c, b, inRun);
    } else {
      var x, rest := a[0], a[1..];
      assert a == [x] + rest && a + [c] + b == [x] + (rest + [c] + b);
      CollapseSplits(rest, c, b, !ValidChar(x));
      CollapseFront(x, rest, inRun);
      CollapseFront(x, rest + [c] + b, inRun);
    }
  }

  lemma CollapseNone(inRun: bool)
    ensures Collapse("", inRun) == ""
  {
  }

  lemma CollapseFront(x: char, s: string, inRun: bool)
    ensures Collapse([x] + s, inRun) == (if ValidChar(x) then [x] else if inRun then "" else "_") + Collapse(s, !ValidChar(x))
  {
    hide ValidChar;
    assert ([x] + s)[1..] == s;
  }

  lemma {:induction false} CollapseBad(bad: string, inRun: bool)
    requires forall i :: 0 <= i < |bad| ==> !ValidChar(bad[i])
    ensures Collapse(bad, inRun) == if bad == "" || inRun then "" else "_"
  {
    if bad != "" { CollapseBad(bad[1..], true); }
  }

  // ---------------------------------------------------------------- decimal suffixes

  function Pow10(d: nat): nat { if d == 0 then 1 else 10 * Pow10(d - 1) }

  function Digits(n: nat): (r: string)
    ensures r != "" && forall i :: 0 <= i < |r| ==> '0' <= r[i] <= '9'
  {
    if n < 10 then ['0' + n as char] else Digits(n / 10) + ['0' + (n % 10) as char]
  }

  function Number(s: string): int {
    if s == "" then 0 else 10 * Number(s[..|s| - 1]) + (s[|s| - 1] as int - '0' as int)
  }

  lemma {:induction false} DigitsRoundTrip(n: nat)
    ensures Number(Digits(n)) == n
  {
    if n < 10 {
      assert Digits(n)[..0] == "";
    } else {
      DigitsRoundTrip(n / 10);
      assert Digits(n)[..|Digits(n)| - 1] == Digits(n / 10);
    }
  }

  lemma {:induction false} DigitsLength(n: nat, d: nat)
    requires d >= 1 && n < Pow10(d)
    ensures |Digits(n)| <= d
  {
    if n >= 10 {
      assert d >= 2;
      DigitsLength(n / 10, d - 1);
    }
  }

  function Suffix(n: nat): string { "_" + Digits(n) }

  predicate Roomy(n: nat) { n < Pow10(MAX_LEN - 1) }

  /** The name tried under number n. */
  function Candidate(name: string, n: nat): (r: string)
    requires Roomy(n)
    ensures WireName(r)
  {
    var suffix := Suffix(n);
    DigitsLength(n, MAX_LEN - 1);
    var base := Sanitize(name);
    (if |base| + |suffix| > MAX_LEN then base[..MAX_LEN - |suffix|] else base) + suffix
  }

  /** The digits after the last underscore can be read back. */
  lemma AfterLastUnderscore(a: string, b: string, p: string, q: string)
    requires '_' !in p && '_' !in q && a + ("_" + p) == b + ("_" + q)
    ensures p == q
  {
    var s := a + ("_" + p);
    assert s[|a|] == '_' && s[|b|] == '_';
    assert forall i :: |a| < i < |s| ==> s[i] == p[i - |a| - 1];
    assert forall i :: |b| < i < |s| ==> s[i] == q[i - |b| - 1];
    assert |a| == |b|;
    assert p == s[|a| + 1..] && q == s[|b| + 1..];
  }

  /** Different numbers give different names, so a search through them cannot go round. */
  lemma CandidatesDiffer(name: string, i: nat, j: nat)
    requires Roomy(i) && Roomy(j) && Candidate(name, i) == Candidate(name, j)
    ensures i == j
  {
    hide Sanitize;
    var a := Candidate(name, i)[..|Candidate(name, i)| - |Suffix(i)|];
    var b := Candidate(name, j)[..|Candidate(name, j)| - |Suffix(j)|];
    assert Candidate(name, i) == a + Suffix(i) && Candidate(name, j) == b + Suffix(j);
    AfterLastUnderscore(a, b, Digits(i), Digits(j));
    DigitsRoundTrip(i);
    DigitsRoundTrip(j);
  }

  /** Every candidate from 2 up to n is taken. */
  ghost predicate TakenBelow(name: string, taken: set<string>, n: nat) {
    forall j :: 2 <= j < n && Roomy(j) ==> Candidate(name, j) in taken
  }

  /** Pigeonhole: if all candidates below n are taken, at least n - 2 names are. */
  lemma {:induction false} Pigeonhole(name: string, taken: set<string>, n: nat)
    requires 2 <= n && Roomy(n) && TakenBelow(name, taken, n)
    ensures n - 2 <= |taken|
  {
    hide Candidate;
    if n > 2 {
      var last := Candidate(name, n - 1);
      forall j | 2 <= j < n - 1 ensures Candidate(name, j) in taken - {last} {
        if Candidate(name, j) == last { CandidatesDiffer(name, j, n - 1); }
      }
      Pigeonhole(name, taken - {last}, n - 1);
    }
  }

  /** The first free candidate from n on; the search ends by the pigeonhole. */
  function FirstFree(name: string, taken: set<string>, n: nat): (r: string)
    requires 2 <= n && Roomy(|taken| + 3) && n <= |taken| + 2 && TakenBelow(name, taken, n)
    ensures r !in taken && WireName(r)
    decreases |taken| + 3 - n
  {
    if Candidate(name, n) !in taken then Candidate(name, n)
    else
      Pigeonhole(name, taken, n + 1);
      FirstFree(name, taken, n + 1)
  }

  lemma SearchStep(name: string, taken: set<string>, n: nat)
    requires 2 <= n && Roomy(|taken| + 3) && n <= |taken| + 2 && TakenBelow(name, taken, n)
    ensures Candidate(name, n) !in taken ==> FirstFree(name, taken, n) == Candidate(name, n)
    ensures Candidate(name, n) in taken ==>
              && TakenBelow(name, taken, n + 1) && n + 1 <= |taken| + 2
              && FirstFree(name, taken, n) == FirstFree(name, taken, n + 1)
  {
    hide Candidate;
    if Candidate(name, n) in taken { Pigeonhole(name, taken, n + 1); }
  }

  function Pick(name: string, taken: set<string>): (r: string)
    requires Roomy(|taken| + 3)
    ensures r !in taken && WireName(r)
  {
    if Sanitize(name) !in taken then Sanitize(name) else FirstFree(name, taken, 2)
  }

  /** The name tried under a number: as much of the sanitized name as leaves room, an underscore and the number. */
  lemma CandidateRules(name: string, n: nat)
    requires Roomy(n)
    ensures var base, tail := Sanitize(name), "_" + Digits(n);
            |tail| <= 64 && Candidate(name, n) == (if |base| + |tail| > 64 then base[..64 - |tail|] else base) + tail
  {
    DigitsLength(n, MAX_LEN - 1);
    hide Sanitize, Digits;
  }

  /** The name picked is the sanitized one if that is free, and otherwise the first free candidate from 2 on. */
  lemma PickRules(name: string, taken: set<string>) returns (k: nat)
    requires Roomy(|taken| + 3)
    ensures Sanitize(name) !in taken ==> Pick(name, taken) == Sanitize(name)
    ensures Sanitize(name) in taken ==>
              2 <= k <= |taken| + 2 && Roomy(k) && Pick(name, taken) == Candidate(name, k) && TakenBelow(name, taken, k)
  {
    hide Sanitize, Candidate, Digits;
    k := 2;
    if Sanitize(name) in taken { k := SearchEnds(name, taken, 2); }
  }

  lemma {:induction false} SearchEnds(name: string, taken: set<string>, n: nat) returns (k: nat)
    requires 2 <= n && Roomy(|taken| + 3) && n <= |taken| + 2 && TakenBelow(name, taken, n)
    ensures n <= k <= |taken| + 2 && Roomy(k) && FirstFree(name, taken, n) == Candidate(name, k) && TakenBelow(name, taken, k)
    decreases |taken| + 3 - n
  {
    hide Candidate, FirstFree;
    SearchStep(name, taken, n);
    k := n;
    if Candidate(name, n) in taken { k := SearchEnds(name, taken, n + 1); }
  }

  // ---------------------------------------------------------------- the two maps

  datatype Maps = Maps(toSafe: map<string, string>, toReal: map<string, string>)

  function Extend(m: Maps, name: string): Maps
    requires Roomy(|m.toReal.Keys| + 3)
  {
    if name in m.toSafe then m
    else
      var safe := Pick(name, m.toReal.Keys);
      Maps(m.toSafe[name := safe], m.toReal[safe := name])
  }

  /** The maps a list of tools gives; a list of fewer than 10^63 - 3 tools leaves room for every suffix. */
  function Build(names: seq<string>): (m: Maps)
    requires Roomy(|names| + 3)
    ensures |m.toReal.Keys| <= |names|
  {
    if names == [] then Maps(map[], map[])
    else
      var m := Build(names[..|names| - 1]);
      var r := Extend(m, names[|names| - 1]);
      assert names[|names| - 1] !in m.toSafe ==> r.toReal.Keys == m.toReal.Keys + {Pick(names[|names| - 1], m.toReal.Keys)};
      r
  }

  /** The two maps are inverse to each other on exactly the offered names, and wire names are legal. */
  ghost predicate Bijection(m: Maps, names: seq<string>) {
    && (forall x :: x in m.toSafe <==> x in names)
    && (forall x :: x in m.toSafe ==> WireName(m.toSafe[x]) && m.toSafe[x] in m.toReal && m.toReal[m.toSafe[x]] == x)
    && (forall y :: y in m.toReal ==> m.toReal[y] in m.toSafe && m.toSafe[m.toReal[y]] == y)
  }

  lemma ExtendKeeps(m: Maps, names: seq<string>, name: string)
    requires Roomy(|m.toReal.Keys| + 3) && Bijection(m, names)
    ensures Bijection(Extend(m, name), names + [name])
  {
    hide Pick, WireName;
  }

  lemma {:induction false} BuildIsBijection(names: seq<string>)
    requires Roomy(|names| + 3)
    ensures Bijection(Build(names), names)
  {
    if names != [] {
      hide Bijection, Extend;
      var front := names[..|names| - 1];
      BuildIsBijection(front);
      ExtendKeeps(Build(front), front, names[|names| - 1]);
      assert names == front + [names[|names| - 1]];
    }
  }

  /** toolNameMaps: nested loops, the inner one without a bound of its own. */
  method ToolNameMaps(names: seq<string>) returns (m: Maps)
    requires Roomy(|names| + 3)
    ensures m == Build(names)
    ensures Bijection(m, names)
  {
    hide Candidate, FirstFree, Sanitize;
    var toSafe, toReal := map[], map[];
    for i := 0 to |names|
      invariant Maps(toSafe, toReal) == Build(names[..i])
    {
      assert names[..i + 1][..i] == names[..i];
      var name := names[i];
      if name !in toSafe {
        var safe := Sanitize(name);
        var n := 2;
        ghost var taken := toReal.Keys;
        while safe in toReal
          invariant 2 <= n <= |taken| + 3
          invariant n == 2 ==> safe == Sanitize(name)
          invariant n > 2 ==> Sanitize(name) in taken && safe == Candidate(name, n - 1)
          invariant n > 2 ==> TakenBelow(name, taken, n - 1) && n - 1 <= |taken| + 2
          invariant n > 2 ==> Pick(name, taken) == FirstFree(name, taken, n - 1)
          decreases |taken| + 4 - n
        {
          if n > 2 { SearchStep(name, taken, n - 1); }
          safe := Candidate(name, n);
          n := n + 1;
        }
        if n > 2 { SearchStep(name, taken, n - 1); }
        assert safe == Pick(name, taken);
        toSafe := toSafe[name := safe];
        toReal := toReal[safe := name];
      }
    }
    assert names[..|names|] == names;
    BuildIsBijection(names);
    m := Maps(toSafe, toReal);
  }

  function SafeToolName(m: Maps, name: string): string {
    if name in m.toSafe then m.toSafe[name] else Sanitize(name)
  }

  function RealToolName(m: Maps, wire: string): string {
    if wire in m.toReal then m.toReal[wire] else wire
  }

  /** Out and back is the identity on every offered name, colliding and over-long ones included; every name
      sent, offered or not, is legal; and different tools never share a wire name. */
  lemma OutAndBack(names: seq<string>, x: string, y: string)
    requires Roomy(|names| + 3)
    ensures var m := Build(names);
            && WireName(SafeToolName(m, x))
            && (x in names ==> RealToolName(m, SafeToolName(m, x)) == x)
            && (x in names && y in names && SafeToolName(m, x) == SafeToolName(m, y) ==> x == y)
  {
    hide Build, Sanitize, WireName;
    BuildIsBijection(names);
  }

  /** Names that are already legal are sent as they are. */
  lemma {:induction false} LegalNamesStay(names: seq<string>)
    requires Roomy(|names| + 3) && forall x :: x in names ==> WireName(x)
    ensures forall x :: x in names ==> SafeToolName(Build(names), x) == x
    ensures forall y :: y in Build(names).toReal ==> Build(names).toReal[y] == y
  {
    hide Sanitize, FirstFree, WireName;
    if names != [] {
      var front, last := names[..|names| - 1], names[|names| - 1];
      LegalNamesStay(front);
      BuildIsBijection(front);
      SanitizeIsNoOp(last);
      assert names == front + [last];
    }
  }
}
