/**
 * The case converter that names Python handlers. `CamelToSnake` is three global regular-expression
 * passes and a lowering; a single left-to-right scan is shown to compute the same, and the scan
 * tells exactly which method names survive the round trip and which names collide.
 */
module CaseConversion {
  import opened Envelope

  predicate IsLowerOrDigit(c: char) { IsLower(c) || IsDigit(c) }

  /** Toggles the case of an ASCII letter; other characters stay. */
  function LowerChar(c: char): char {
    if IsUpper(c) then (c as int + 32) as char else c
  }

  function UpperChar(c: char): char {
    if IsLower(c) then (c as int - 32) as char else c
  }

  predicate UpperAt(s: string, i: nat) { i < |s| && IsUpper(s[i]) }

  predicate LowerAt(s: string, i: nat) { i < |s| && IsLower(s[i]) }

  // ---------------------------------------------------------------------------------------
  // The passes. Each scans left to right and resumes after the text a match has consumed.
  // ---------------------------------------------------------------------------------------

  /** Replaces ([a-z0-9])([A-Z]) by $1_$2. */
  function BreakBeforeCapital(s: string): string {
    if s == "" then ""
    else if IsLowerOrDigit(s[0]) && UpperAt(s, 1) then [s[0], '_', s[1]] + BreakBeforeCapital(s[2..])
    else [s[0]] + BreakBeforeCapital(s[1..])
  }

  /** Replaces ([A-Z])([A-Z][a-z]) by $1_$2. */
  function BreakBeforeWord(s: string): string {
    if s == "" then ""
    else if IsUpper(s[0]) && UpperAt(s, 1) && LowerAt(s, 2) then [s[0], '_', s[1], s[2]] + BreakBeforeWord(s[3..])
    else [s[0]] + BreakBeforeWord(s[1..])
  }

  /** Replaces ([A-Z])([A-Z]) by $1_$2. */
  function BreakCapitalPairs(s: string): string {
    if s == "" then ""
    else if IsUpper(s[0]) && UpperAt(s, 1) then [s[0], '_', s[1]] + BreakCapitalPairs(s[2..])
    else [s[0]] + BreakCapitalPairs(s[1..])
  }

  function ToLower(s: string): string {
    if s == "" then "" else [LowerChar(s[0])] + ToLower(s[1..])
  }

  function CamelToSnake(s: string): string {
    ToLower(BreakCapitalPairs(BreakBeforeWord(BreakBeforeCapital(s))))
  }

  /** Replaces _([a-z0-9]) by the capital of $1. */
  function SnakeToCamel(w: string): string {
    if w == "" then ""
    else if w[0] == '_' && |w| >= 2 && IsLowerOrDigit(w[1]) then [UpperChar(w[1])] + SnakeToCamel(w[2..])
    else [w[0]] + SnakeToCamel(w[1..])
  }

  // ---------------------------------------------------------------------------------------
  // One scan in place of the three passes.
  // ---------------------------------------------------------------------------------------

  /** After a lowercase letter or digit: a capital starts a new run. */
  function Scan(s: string): string
    decreases |s|, 1
  {
    if s == "" then ""
    else if IsUpper(s[0]) then "_" + ScanRun(s)
    else [s[0]] + Scan(s[1..])
  }

  /** At a capital that no break is due before. */
  function ScanRun(s: string): string
    requires UpperAt(s, 0)
    decreases |s|, 0
  {
    [LowerChar(s[0])] +
    if UpperAt(s, 1) then ['_', LowerChar(s[1])] + ScanAfterPair(s[2..]) else Scan(s[1..])
  }

  /** After a pair of capitals was consumed: only a capital that begins a word is broken off. */
  function ScanAfterPair(s: string): string
    decreases |s|, 2
  {
    if !UpperAt(s, 0) then Scan(s)
    else if LowerAt(s, 1) then ['_', LowerChar(s[0])] + Scan(s[1..])
    else ScanRun(s)
  }

  /** What the passes give on the rest of a name, no break being due before it. */
  function ScanRest(s: string): string {
    if UpperAt(s, 0) then ScanRun(s) else Scan(s)
  }

  function Break(due: bool): string {
    if due then "_" else ""
  }

  lemma CapitalPassHead(s: string)
    requires s != ""
    ensures BreakBeforeCapital(s)
            == [s[0]] + (Break(IsLowerOrDigit(s[0]) && UpperAt(s, 1)) + BreakBeforeCapital(s[1..]))
  {
  }

  lemma WordPassHead(s: string)
    requires s != ""
    ensures BreakBeforeWord(s)
            == [s[0]] + (Break(IsUpper(s[0]) && UpperAt(s, 1) && LowerAt(s, 2)) + BreakBeforeWord(s[1..]))
  {
  }

  /** The first pass keeps the characters and breaks no run of capitals. */
  lemma CapitalPassFirst(s: string)
    requires s != ""
    ensures var first := BreakBeforeCapital(s);
            && first != "" && first[0] == s[0]
            && (IsUpper(s[0]) ==> first[1..] == BreakBeforeCapital(s[1..]))
  {
  }

  /** A break is due between the first two characters of `s` after the first two passes. */
  predicate Gap(s: string) {
    s != "" && UpperAt(s, 1) && (IsLowerOrDigit(s[0]) || (IsUpper(s[0]) && LowerAt(s, 2)))
  }

  function TwoPasses(s: string): string {
    BreakBeforeWord(BreakBeforeCapital(s))
  }

  /** The first two passes together, one character at a time. */
  lemma TwoPassesHead(s: string)
    requires s != ""
    ensures TwoPasses(s) == [s[0]] + (Break(Gap(s)) + TwoPasses(s[1..]))
  {
    var first, rest := BreakBeforeCapital(s), BreakBeforeCapital(s[1..]);
    CapitalPassHead(s);
    WordPassHead(first);
    if IsLowerOrDigit(s[0]) && UpperAt(s, 1) {
      assert first[1..] == "_" + rest;
      WordPassHead("_" + rest);
      assert ("_" + rest)[1..] == rest;
      assert TwoPasses(s) == [s[0]] + ("" + ("_" + ("" + TwoPasses(s[1..]))));
    } else {
      assert first[1..] == rest;
      if |s| > 1 {
        CapitalPassFirst(s[1..]);
        if |s| > 2 { CapitalPassFirst(s[2..]); }
      }
    }
  }

  lemma LowerCons(c: char, t: string)
    ensures ToLower([c] + t) == [LowerChar(c)] + ToLower(t)
  {
  }

  lemma LowerBreak(due: bool, t: string)
    ensures ToLower(Break(due) + t) == Break(due) + ToLower(t)
  {
    if due {
      LowerCons('_', t);
    } else {
      assert "" + t == t && "" + ToLower(t) == ToLower(t);
    }
  }

  lemma PairPassCons(c: char, t: string)
    requires !IsUpper(c) || !UpperAt(t, 0)
    ensures BreakCapitalPairs([c] + t) == [c] + BreakCapitalPairs(t)
  {
  }

  lemma PairPassBreak(due: bool, t: string)
    ensures BreakCapitalPairs(Break(due) + t) == Break(due) + BreakCapitalPairs(t)
  {
    if due {
      PairPassCons('_', t);
    } else {
      assert "" + t == t && "" + BreakCapitalPairs(t) == BreakCapitalPairs(t);
    }
  }

  lemma PairPassPair(c: char, d: char, t: string)
    requires IsUpper(c) && IsUpper(d)
    ensures BreakCapitalPairs([c] + ([d] + t)) == [c] + ("_" + ([d] + BreakCapitalPairs(t)))
  {
    var s := [c] + ([d] + t);
    assert s[2..] == t && s[1] == d;
    assert [c, '_', d] + BreakCapitalPairs(t) == [c] + ("_" + ([d] + BreakCapitalPairs(t)));
  }

  /** The third pass and the lowering, where no pair of capitals is consumed. */
  lemma LastPassesHead(s: string)
    requires s != "" && (Gap(s) || !IsUpper(s[0]) || !UpperAt(s, 1))
    ensures CamelToSnake(s) == [LowerChar(s[0])] + (Break(Gap(s)) + CamelToSnake(s[1..]))
  {
    var due, rest := Gap(s), TwoPasses(s[1..]);
    TwoPassesHead(s);
    assert !UpperAt(Break(due) + rest, 0) || !IsUpper(s[0]) by {
      if |s| > 1 { TwoPassesHead(s[1..]); }
    }
    PairPassCons(s[0], Break(due) + rest);
    PairPassBreak(due, rest);
    LowerCons(s[0], Break(due) + BreakCapitalPairs(rest));
    LowerBreak(due, BreakCapitalPairs(rest));
  }

  /** Where one is consumed: two capitals that no lowercase letter follows. */
  lemma LastPassesPair(s: string)
    requires UpperAt(s, 0) && UpperAt(s, 1) && !LowerAt(s, 2)
    ensures CamelToSnake(s)
            == [LowerChar(s[0])] +
               ("_" + ([LowerChar(s[1])] + (Break(UpperAt(s, 2) && LowerAt(s, 3)) + CamelToSnake(s[2..]))))
  {
    var due, rest := UpperAt(s, 2) && LowerAt(s, 3), TwoPasses(s[2..]);
    assert TwoPasses(s) == [s[0]] + ([s[1]] + (Break(due) + rest)) by {
      TwoPassesHead(s);
      TwoPassesHead(s[1..]);
      assert s[1..][1..] == s[2..];
      assert "" + TwoPasses(s[1..]) == TwoPasses(s[1..]);
    }
    PairPassPair(s[0], s[1], Break(due) + rest);
    PairPassBreak(due, rest);
    var end := Break(due) + BreakCapitalPairs(rest);
    LowerBreak(due, BreakCapitalPairs(rest));
    LowerCons(s[1], end);
    LowerCons('_', [s[1]] + end);
    LowerCons(s[0], "_" + ([s[1]] + end));
  }

  lemma AfterPairIsRestWithBreak(t: string)
    ensures ScanAfterPair(t) == Break(UpperAt(t, 0) && LowerAt(t, 1)) + ScanRest(t)
  {
  }

  lemma ScanRestPair(s: string)
    requires UpperAt(s, 0) && UpperAt(s, 1) && !LowerAt(s, 2)
    ensures ScanRest(s)
            == [LowerChar(s[0])] +
               ("_" + ([LowerChar(s[1])] + (Break(UpperAt(s, 2) && LowerAt(s, 3)) + ScanRest(s[2..]))))
  {
    assert s[1..][1..] == s[2..];
    AfterPairIsRestWithBreak(s[2..]);
    var end := ScanAfterPair(s[2..]);
    assert ScanRun(s) == [LowerChar(s[0])] + (['_', LowerChar(s[1])] + end);
    assert ['_', LowerChar(s[1])] + end == "_" + ([LowerChar(s[1])] + end);
  }

  lemma RunBeforeWord(s: string)
    requires UpperAt(s, 0) && UpperAt(s, 1) && LowerAt(s, 2)
    ensures ScanRun(s) == [LowerChar(s[0])] + ("_" + ScanRun(s[1..]))
  {
  }

  lemma ScanRestHead(s: string)
    requires s != "" && (Gap(s) || !IsUpper(s[0]) || !UpperAt(s, 1)) && MethodTail(s)
    ensures ScanRest(s) == [LowerChar(s[0])] + (Break(Gap(s)) + ScanRest(s[1..]))
  {
    if IsUpper(s[0]) && Gap(s) {
      RunBeforeWord(s);
    } else {
      var tail := s[1..];
      assert UpperAt(s, 1) == UpperAt(tail, 0);
      assert "" + ScanRest(tail) == ScanRest(tail);
      if !IsUpper(s[0]) {
        assert IsLowerOrDigit(s[0]);
        assert Scan(s) == [s[0]] + Scan(tail);
      }
    }
  }

  /** The scan refines the passes. */
  lemma {:induction false} PassesAreOneScan(s: string)
    requires MethodTail(s)
    ensures CamelToSnake(s) == ScanRest(s)
  {
    if s == "" {
    } else if Gap(s) || !IsUpper(s[0]) || !UpperAt(s, 1) {
      LastPassesHead(s);
      PassesAreOneScan(s[1..]);
      ScanRestHead(s);
    } else {
      LastPassesPair(s);
      assert MethodTail(s[1..]) && s[1..][1..] == s[2..];
      PassesAreOneScan(s[2..]);
      ScanRestPair(s);
    }
  }

  // ---------------------------------------------------------------------------------------
  // What the way back makes of the scan.
  // ---------------------------------------------------------------------------------------

  /** `SnakeToCamel` after `Scan`: the name again, but a capital that got no break stays lowercase. */
  function Canon(s: string): string
    decreases |s|, 1
  {
    if s == "" then ""
    else if IsUpper(s[0]) then CanonRun(s, s[0])
    else [s[0]] + Canon(s[1..])
  }

  function CanonRun(s: string, head: char): string
    requires UpperAt(s, 0)
    decreases |s|, 0
  {
    [head] + if UpperAt(s, 1) then [s[1]] + CanonAfterPair(s[2..]) else Canon(s[1..])
  }

  function CanonAfterPair(s: string): string
    decreases |s|, 2
  {
    if !UpperAt(s, 0) then Canon(s)
    else if LowerAt(s, 1) then [s[0]] + Canon(s[1..])
    else CanonRun(s, LowerChar(s[0]))
  }

  lemma CamelCons(c: char, w: string)
    requires c != '_'
    ensures SnakeToCamel([c] + w) == [c] + SnakeToCamel(w)
  {
  }

  lemma CamelBreak(c: char, w: string)
    requires IsUpper(c)
    ensures SnakeToCamel("_" + ([LowerChar(c)] + w)) == [c] + SnakeToCamel(w)
  {
    assert ("_" + ([LowerChar(c)] + w))[2..] == w;
  }

  /** The scan of a run without its first letter. */
  function ScanRunTail(s: string): string
    requires UpperAt(s, 0)
  {
    if UpperAt(s, 1) then "_" + ([LowerChar(s[1])] + ScanAfterPair(s[2..])) else Scan(s[1..])
  }

  lemma ScanRunSplit(s: string)
    requires UpperAt(s, 0)
    ensures ScanRun(s) == [LowerChar(s[0])] + ScanRunTail(s)
  {
  }

  lemma {:induction false} CamelOfScan(s: string)
    requires MethodTail(s)
    ensures SnakeToCamel(Scan(s)) == Canon(s)
    decreases |s|, 1
  {
    if s == "" {
    } else if IsUpper(s[0]) {
      ScanRunSplit(s);
      CamelOfRunTail(s);
      CamelBreak(s[0], ScanRunTail(s));
    } else {
      CamelCons(s[0], Scan(s[1..]));
      CamelOfScan(s[1..]);
    }
  }

  lemma {:induction false} CamelOfRunTail(s: string)
    requires MethodTail(s) && UpperAt(s, 0)
    ensures SnakeToCamel(ScanRunTail(s)) == CanonRun(s, s[0])[1..] == CanonRun(s, LowerChar(s[0]))[1..]
    decreases |s|, 0
  {
    if UpperAt(s, 1) {
      assert s[1..][1..] == s[2..];
      CamelBreak(s[1], ScanAfterPair(s[2..]));
      CamelOfAfterPair(s[2..]);
    } else {
      CamelOfScan(s[1..]);
    }
  }

  lemma {:induction false} CamelOfAfterPair(s: string)
    requires MethodTail(s)
    ensures SnakeToCamel(ScanAfterPair(s)) == CanonAfterPair(s)
    decreases |s|, 2
  {
    if !UpperAt(s, 0) {
      CamelOfScan(s);
    } else if LowerAt(s, 1) {
      assert ['_', LowerChar(s[0])] + Scan(s[1..]) == "_" + ([LowerChar(s[0])] + Scan(s[1..]));
      CamelBreak(s[0], Scan(s[1..]));
      CamelOfScan(s[1..]);
    } else {
      ScanRunSplit(s);
      CamelCons(LowerChar(s[0]), ScanRunTail(s));
      CamelOfRunTail(s);
    }
  }

  /** The round trip on a whole name. */
  lemma RoundTripIsCanon(s: string)
    requires IsMethod(s)
    ensures CamelToSnake(s) == Scan(s) && SnakeToCamel(CamelToSnake(s)) == Canon(s)
  {
    assert MethodTail(s);
    PassesAreOneScan(s);
    CamelOfScan(s);
  }

  // ---------------------------------------------------------------------------------------
  // Which names survive.
  // ---------------------------------------------------------------------------------------

  /** Three capitals in a row only where a lowercase letter follows them directly. */
  ghost predicate ShortRuns(s: string) {
    forall i: nat | UpperAt(s, i) && UpperAt(s, i + 1) && UpperAt(s, i + 2) :: LowerAt(s, i + 3)
  }

  ghost predicate MaximalRun(s: string, i: nat, j: nat) {
    && i < j <= |s|
    && (forall k | i <= k < j :: IsUpper(s[k]))
    && (i == 0 || !IsUpper(s[i - 1]))
    && !UpperAt(s, j)
  }

  function RunStart(s: string, i: nat): (a: nat)
    requires UpperAt(s, i)
    ensures a <= i && (forall k | a <= k <= i :: IsUpper(s[k])) && (a == 0 || !IsUpper(s[a - 1]))
  {
    if i == 0 || !IsUpper(s[i - 1]) then i else RunStart(s, i - 1)
  }

  function RunEnd(s: string, i: nat): (b: nat)
    requires UpperAt(s, i)
    ensures i < b <= |s| && (forall k | i <= k < b :: IsUpper(s[k])) && !UpperAt(s, b)
    decreases |s| - i
  {
    if UpperAt(s, i + 1) then RunEnd(s, i + 1) else i + 1
  }

  /** In words of runs: every maximal run of capitals has length at most 2, or 3 before a lowercase letter. */
  lemma ShortRunsByLength(s: string)
    ensures ShortRuns(s) <==>
            forall i: nat, j: nat | MaximalRun(s, i, j) :: j - i <= 2 || (j - i == 3 && LowerAt(s, j))
  {
    if ShortRuns(s) {
      forall i: nat, j: nat | MaximalRun(s, i, j)
        ensures j - i <= 2 || (j - i == 3 && LowerAt(s, j))
      {
        if j - i > 2 {
          assert UpperAt(s, i) && UpperAt(s, i + 1) && UpperAt(s, i + 2);
        }
      }
    }
    if forall i: nat, j: nat | MaximalRun(s, i, j) :: j - i <= 2 || (j - i == 3 && LowerAt(s, j)) {
      forall i: nat | UpperAt(s, i) && UpperAt(s, i + 1) && UpperAt(s, i + 2)
        ensures LowerAt(s, i + 3)
      {
        assert MaximalRun(s, RunStart(s, i), RunEnd(s, i + 2));
      }
    }
  }

  lemma ShortRunsTail(s: string, n: nat)
    requires ShortRuns(s) && n <= |s|
    ensures ShortRuns(s[n..])
  {
    var t := s[n..];
    forall i: nat | UpperAt(t, i) && UpperAt(t, i + 1) && UpperAt(t, i + 2)
      ensures LowerAt(t, i + 3)
    {
      assert UpperAt(s, n + i) && UpperAt(s, n + i + 1) && UpperAt(s, n + i + 2);
      assert LowerAt(s, n + i + 3);
    }
  }

  /** `n` characters before which no run of three capitals starts. */
  lemma ShortRunsPrepend(s: string, n: nat)
    requires n <= |s| && ShortRuns(s[n..])
    requires forall i: nat | i < n && UpperAt(s, i) && UpperAt(s, i + 1) && UpperAt(s, i + 2) :: LowerAt(s, i + 3)
    ensures ShortRuns(s)
  {
    var t := s[n..];
    forall i: nat | UpperAt(s, i) && UpperAt(s, i + 1) && UpperAt(s, i + 2)
      ensures LowerAt(s, i + 3)
    {
      if i >= n {
        assert UpperAt(t, i - n) && UpperAt(t, i - n + 1) && UpperAt(t, i - n + 2);
        assert LowerAt(t, i - n + 3);
      }
    }
  }

  lemma {:induction false} ShortRunsKept(s: string)
    requires ShortRuns(s)
    ensures Canon(s) == s
  {
    if s == "" {
    } else if !UpperAt(s, 0) || !UpperAt(s, 1) {
      ShortRunsTail(s, 1);
      ShortRunsKept(s[1..]);
      assert s == [s[0]] + s[1..];
    } else {
      ShortRunsTail(s, 2);
      assert UpperAt(s[2..], 0) == UpperAt(s, 2) && LowerAt(s[2..], 1) == LowerAt(s, 3);
      if UpperAt(s, 2) {
        ShortRunsTail(s, 3);
        ShortRunsKept(s[3..]);
        assert s[2..][1..] == s[3..];
        assert s == [s[0]] + ([s[1]] + ([s[2]] + s[3..]));
      } else {
        ShortRunsKept(s[2..]);
        assert CanonAfterPair(s[2..]) == Canon(s[2..]);
        assert Canon(s) == CanonRun(s, s[0]);
        assert s == [s[0]] + ([s[1]] + s[2..]);
      }
    }
  }

  /** `v` starts with no capital, or with one that begins a word. */
  predicate StartsGently(v: string) {
    UpperAt(v, 0) ==> LowerAt(v, 1)
  }

  lemma PrependPair(pair: string, v: string)
    requires |pair| <= 2 && ShortRuns(v) && StartsGently(v)
    ensures ShortRuns(pair + v)
  {
    var c := pair + v;
    assert c[|pair|..] == v;
    assert forall k: nat :: UpperAt(v, k) == UpperAt(c, |pair| + k) || |pair| + k < |pair|;
    assert UpperAt(c, |pair|) == UpperAt(v, 0) && UpperAt(c, |pair| + 1) == UpperAt(v, 1);
    assert LowerAt(c, |pair| + 1) == LowerAt(v, 1);
    ShortRunsPrepend(c, |pair|);
  }

  /** Away from a pair of capitals the first character is kept. */
  lemma CanonHead(s: string)
    requires s != "" && (!UpperAt(s, 0) || !UpperAt(s, 1))
    ensures Canon(s) == [s[0]] + Canon(s[1..]) && Canon(s)[1..] == Canon(s[1..])
    ensures UpperAt(s[1..], 0) == UpperAt(s, 1)
  {
    if UpperAt(s, 0) { assert Canon(s) == CanonRun(s, s[0]); }
  }

  lemma {:induction false} CanonIsShort(s: string)
    ensures ShortRuns(Canon(s))
    ensures UpperAt(Canon(s), 0) == UpperAt(s, 0) && LowerAt(Canon(s), 0) == LowerAt(s, 0)
    decreases |s|, 1
  {
    if s == "" {
    } else if !UpperAt(s, 0) || !UpperAt(s, 1) {
      CanonIsShort(s[1..]);
      CanonHead(s);
      var c := Canon(s);
      assert UpperAt(c, 1) == UpperAt(c[1..], 0);
      ShortRunsPrepend(c, 1);
    } else {
      CanonAfterPairIsShort(s[2..]);
      PrependPair([s[0], s[1]], CanonAfterPair(s[2..]));
      assert Canon(s) == [s[0], s[1]] + CanonAfterPair(s[2..]);
    }
  }

  lemma {:induction false} CanonAfterPairIsShort(s: string)
    ensures ShortRuns(CanonAfterPair(s)) && StartsGently(CanonAfterPair(s))
    decreases |s|, 2
  {
    var v := CanonAfterPair(s);
    if !UpperAt(s, 0) {
      CanonIsShort(s);
    } else if LowerAt(s, 1) {
      CanonIsShort(s[1..]);
      assert LowerAt(s[1..], 0);
      assert StartsGently(Canon(s[1..]));
      PrependPair([s[0]], Canon(s[1..]));
      assert LowerAt(v, 1) == LowerAt(Canon(s[1..]), 0);
    } else if UpperAt(s, 1) {
      var w := CanonAfterPair(s[2..]);
      CanonAfterPairIsShort(s[2..]);
      PrependPair([LowerChar(s[0]), s[1]], w);
      assert v == CanonRun(s, LowerChar(s[0]));
      assert v == [LowerChar(s[0]), s[1]] + w;
    } else {
      CanonIsShort(s[1..]);
      assert !UpperAt(s[1..], 0);
      PrependPair([LowerChar(s[0])], Canon(s[1..]));
    }
  }

  lemma ScanCons(c: char, v: string)
    requires !IsUpper(c)
    ensures Scan([c] + v) == [c] + Scan(v)
  {
  }

  /** A capital before a string that starts gently. */
  lemma ScanRunGently(c: char, v: string)
    requires IsUpper(c) && StartsGently(v)
    ensures ScanRun([c] + v) == [LowerChar(c)] + ScanAfterPair(v)
  {
    var s := [c] + v;
    assert s[1..] == v && UpperAt(s, 1) == UpperAt(v, 0);
    if UpperAt(v, 0) {
      assert s[2..] == v[1..] && LowerAt(v, 1) && v[1..][0] == v[1];
      assert ScanAfterPair(v[1..]) == Scan(v[1..]);
    }
  }

  lemma ScanRunPair(c: char, d: char, v: string)
    requires IsUpper(c) && IsUpper(d)
    ensures ScanRun([c, d] + v) == [LowerChar(c)] + (['_', LowerChar(d)] + ScanAfterPair(v))
  {
  }

  lemma ScanOfCanonPair(s: string)
    requires UpperAt(s, 0) && UpperAt(s, 1)
    requires ScanAfterPair(CanonAfterPair(s[2..])) == ScanAfterPair(s[2..])
    ensures Scan(Canon(s)) == Scan(s)
  {
    ScanRunPair(s[0], s[1], CanonAfterPair(s[2..]));
    assert Canon(s) == [s[0], s[1]] + CanonAfterPair(s[2..]);
  }

  lemma {:induction false} ScanOfCanon(s: string)
    ensures Scan(Canon(s)) == Scan(s)
    decreases |s|, 1
  {
    if s == "" {
    } else if !UpperAt(s, 0) {
      ScanOfCanon(s[1..]);
      ScanCons(s[0], Canon(s[1..]));
    } else if UpperAt(s, 1) {
      ScanOfCanonAfterPair(s[2..]);
      ScanOfCanonPair(s);
    } else {
      ScanOfCanon(s[1..]);
      CanonIsShort(s[1..]);
      assert !UpperAt(s[1..], 0);
      ScanRunGently(s[0], Canon(s[1..]));
    }
  }

  lemma {:induction false} ScanOfCanonAfterPair(s: string)
    ensures ScanAfterPair(CanonAfterPair(s)) == ScanAfterPair(s)
    decreases |s|, 2
  {
    var v := CanonAfterPair(s);
    if !UpperAt(s, 0) {
      CanonIsShort(s);
      ScanOfCanon(s);
    } else if LowerAt(s, 1) {
      CanonIsShort(s[1..]);
      ScanOfCanon(s[1..]);
      assert LowerAt(s[1..], 0);
      assert v[1..] == Canon(s[1..]) && LowerAt(v, 1);
    } else if UpperAt(s, 1) {
      var w := CanonAfterPair(s[2..]);
      CanonAfterPairIsShort(s[2..]);
      ScanOfCanonAfterPair(s[2..]);
      assert v == CanonRun(s, LowerChar(s[0]));
      assert v == [LowerChar(s[0])] + ([s[1]] + w);
      ScanCons(LowerChar(s[0]), [s[1]] + w);
      ScanRunGently(s[1], w);
      assert Scan([s[1]] + w) == "_" + ([LowerChar(s[1])] + ScanAfterPair(w));
      ScanRunSplit(s);
    } else {
      ScanOfCanon(s[1..]);
      ScanCons(LowerChar(s[0]), Canon(s[1..]));
    }
  }

  lemma {:induction false} CanonIsMethodTail(s: string)
    requires MethodTail(s)
    ensures MethodTail(Canon(s))
    decreases |s|, 1
  {
    if s == "" {
    } else if !UpperAt(s, 0) || !UpperAt(s, 1) {
      CanonIsMethodTail(s[1..]);
      assert Canon(s)[1..] == Canon(s[1..]);
    } else {
      assert s[1..][1..] == s[2..];
      CanonAfterPairIsMethodTail(s[2..]);
      assert Canon(s)[1..][1..] == CanonAfterPair(s[2..]);
    }
  }

  lemma {:induction false} CanonAfterPairIsMethodTail(s: string)
    requires MethodTail(s)
    ensures MethodTail(CanonAfterPair(s))
    decreases |s|, 2
  {
    if !UpperAt(s, 0) {
      CanonIsMethodTail(s);
    } else if !UpperAt(s, 1) {
      CanonIsMethodTail(s[1..]);
      assert CanonAfterPair(s) == CanonRun(s, LowerChar(s[0])) || CanonAfterPair(s) == [s[0]] + Canon(s[1..]);
      assert CanonAfterPair(s)[1..] == Canon(s[1..]);
    } else {
      assert s[1..][1..] == s[2..];
      CanonAfterPairIsMethodTail(s[2..]);
      assert CanonAfterPair(s) == CanonRun(s, LowerChar(s[0]));
      assert CanonAfterPair(s)[1..][1..] == CanonAfterPair(s[2..]);
    }
  }

  // ---------------------------------------------------------------------------------------
  // The names themselves, character by character.
  // ---------------------------------------------------------------------------------------

  /** How many capitals stand directly before position `k`. */
  function CapitalsBefore(s: string, k: nat): (n: nat)
    requires k <= |s|
    ensures n <= k && forall i | k - n <= i < k :: IsUpper(s[i])
    ensures n < k ==> !IsUpper(s[k - n - 1])
  {
    if k > 0 && IsUpper(s[k - 1]) then 1 + CapitalsBefore(s, k - 1) else 0
  }

  /**
   * A capital gets a break before it if it is the first, second, fourth, sixth... of its run of capitals, or
   * a lowercase letter follows.
   */
  predicate BreakAt(s: string, k: nat)
    requires k < |s|
  {
    var n := CapitalsBefore(s, k);
    n == 0 || n % 2 == 1 || (k + 1 < |s| && 'a' <= s[k + 1] <= 'z')
  }

  /** The handler name from position `k` on: each capital lowered, with a break before it where one is due. */
  function Spelled(s: string, k: nat): string
    requires k <= |s|
    decreases |s| - k
  {
    if k == |s| then ""
    else if 'A' <= s[k] <= 'Z' then Break(BreakAt(s, k)) + ([(s[k] - 'A') + 'a'] + Spelled(s, k + 1))
    else [s[k]] + Spelled(s, k + 1)
  }

  /** The same on the rest of a name: `offset` capitals stand directly before it. */
  function SpelledRest(t: string, offset: nat): string {
    if t == "" then ""
    else if IsUpper(t[0]) then
      Break(offset == 0 || offset % 2 == 1 || LowerAt(t, 1)) + ([LowerChar(t[0])] + SpelledRest(t[1..], offset + 1))
    else [t[0]] + SpelledRest(t[1..], 0)
  }

  lemma {:induction false} ScanIsSpelled(t: string, offset: nat)
    requires offset == 0 || !UpperAt(t, 0)
    ensures Scan(t) == SpelledRest(t, offset)
    decreases |t|, 1
  {
    if t != "" {
      if IsUpper(t[0]) {
        ScanRunIsSpelled(t, 0);
      } else {
        ScanIsSpelled(t[1..], 0);
      }
    }
  }

  lemma {:induction false} ScanRunIsSpelled(t: string, offset: nat)
    requires UpperAt(t, 0) && offset % 2 == 0
    ensures ScanRun(t) == [LowerChar(t[0])] + SpelledRest(t[1..], offset + 1)
    decreases |t|, 0
  {
    var rest := t[1..];
    if UpperAt(t, 1) {
      assert rest[1..] == t[2..];
      ScanAfterPairIsSpelled(t[2..], offset + 2);
      assert ['_', LowerChar(t[1])] + ScanAfterPair(t[2..]) == "_" + ([LowerChar(rest[0])] + SpelledRest(rest[1..], offset + 2));
    } else {
      ScanIsSpelled(rest, offset + 1);
    }
  }

  lemma {:induction false} ScanAfterPairIsSpelled(t: string, offset: nat)
    requires offset > 0 && offset % 2 == 0
    ensures ScanAfterPair(t) == SpelledRest(t, offset)
    decreases |t|, 2
  {
    if !UpperAt(t, 0) {
      ScanIsSpelled(t, offset);
    } else if LowerAt(t, 1) {
      ScanIsSpelled(t[1..], offset + 1);
      assert ['_', LowerChar(t[0])] + Scan(t[1..]) == "_" + ([LowerChar(t[0])] + SpelledRest(t[1..], offset + 1));
    } else {
      ScanRunIsSpelled(t, offset);
      assert SpelledRest(t, offset) == "" + ([LowerChar(t[0])] + SpelledRest(t[1..], offset + 1));
    }
  }

  lemma {:induction false} RestIsSpelled(s: string, k: nat)
    requires k <= |s|
    ensures SpelledRest(s[k..], CapitalsBefore(s, k)) == Spelled(s, k)
    decreases |s| - k
  {
    if k < |s| {
      var t := s[k..];
      RestIsSpelled(s, k + 1);
      assert t[1..] == s[k + 1..] && LowerAt(t, 1) == LowerAt(s, k + 1);
      assert LowerChar(t[0]) == if 'A' <= s[k] <= 'Z' then (s[k] - 'A') + 'a' else s[k];
      assert CapitalsBefore(s, k + 1) == if IsUpper(s[k]) then CapitalsBefore(s, k) + 1 else 0;
    }
  }

  /** The handler name of every method, spelled out: each capital lowered, with a break where one is due. */
  lemma HandlerNameIsSpelled(s: string)
    requires IsMethod(s)
    ensures CamelToSnake(s) == Spelled(s, 0)
  {
    assert MethodTail(s) && s[0..] == s;
    PassesAreOneScan(s);
    ScanIsSpelled(s, 0);
    RestIsSpelled(s, 0);
  }

  /** The way back on any text: a break before a lowercase letter or digit goes, and raises what follows; all else stays. */
  lemma {:induction false} WayBackKeeps(plain: string, w: string)
    requires '_' !in plain
    ensures SnakeToCamel(plain + w) == plain + SnakeToCamel(w)
  {
    if plain == "" {
      assert plain + w == w;
    } else {
      var rest := plain[1..];
      WayBackKeeps(rest, w);
      CamelCons(plain[0], rest + w);
      assert plain + w == [plain[0]] + (rest + w);
      assert plain + SnakeToCamel(w) == [plain[0]] + (rest + SnakeToCamel(w));
    }
  }

  lemma WayBackIsSpelled(plain: string, w: string)
    requires '_' !in plain && (w == "" || w[0] == '_')
    ensures SnakeToCamel(plain + w)
            == plain +
               if |w| >= 2 && 'a' <= w[1] <= 'z' then [(w[1] - 'a') + 'A'] + SnakeToCamel(w[2..])
               else if |w| >= 2 && '0' <= w[1] <= '9' then [w[1]] + SnakeToCamel(w[2..])
               else if |w| >= 1 then "_" + SnakeToCamel(w[1..])
               else ""
  {
    WayBackKeeps(plain, w);
  }

  // ---------------------------------------------------------------------------------------
  // Main results.
  // ---------------------------------------------------------------------------------------

  /** A method name survives the round trip exactly when its runs of capitals are short. */
  lemma RoundTripExactly(s: string)
    requires IsMethod(s)
    ensures SnakeToCamel(CamelToSnake(s)) == s <==> ShortRuns(s)
  {
    RoundTripIsCanon(s);
    CanonIsShort(s);
    if ShortRuns(s) { ShortRunsKept(s); }
  }

  /** Every name shares its handler name with exactly one name whose runs are short: its own round trip. */
  lemma RoundTripIsRepresentative(s: string, t: string)
    requires IsMethod(s) && IsMethod(t)
    ensures var c := SnakeToCamel(CamelToSnake(s));
            IsMethod(c) && ShortRuns(c) && CamelToSnake(c) == CamelToSnake(s)
    ensures ShortRuns(t) && CamelToSnake(t) == CamelToSnake(s) <==> t == SnakeToCamel(CamelToSnake(s))
  {
    RoundTripIsCanon(s);
    CanonIsMethodTail(s[1..]);
    var c := Canon(s);
    assert c == [s[0]] + Canon(s[1..]) && c[1..] == Canon(s[1..]);
    CanonIsShort(s);
    RoundTripIsCanon(c);
    ScanOfCanon(s);
    RoundTripExactly(t);
  }

  /** Two methods get the same Python handler name exactly when their round trips meet. */
  lemma HandlerNamesCollideExactly(a: string, b: string)
    requires IsMethod(a) && IsMethod(b)
    ensures CamelToSnake(a) == CamelToSnake(b)
            <==> SnakeToCamel(CamelToSnake(a)) == SnakeToCamel(CamelToSnake(b))
  {
    RoundTripIsRepresentative(a, b);
    RoundTripIsRepresentative(b, a);
  }

  /** So names with short runs never collide with each other, and every other name collides with one of them. */
  lemma ShortRunsNeverCollide(a: string, b: string)
    requires IsMethod(a) && IsMethod(b) && ShortRuns(a)
    ensures ShortRuns(b) && CamelToSnake(a) == CamelToSnake(b) ==> a == b
    ensures !ShortRuns(b) ==>
              SnakeToCamel(CamelToSnake(b)) != b && CamelToSnake(SnakeToCamel(CamelToSnake(b))) == CamelToSnake(b)
  {
    RoundTripExactly(a);
    RoundTripExactly(b);
    RoundTripIsRepresentative(b, a);
  }

  /** Outside that class the collisions are real. */
  lemma LongRunCollides()
    ensures IsMethod("aBCD") && IsMethod("aBCd") && CamelToSnake("aBCD") == CamelToSnake("aBCd")
  {
    var s, t := "aBCD", "aBCd";
    assert s[1..] == ['B', 'C'] + "D" && t[1..] == ['B', 'C'] + "d";
    assert MethodTail("D") && MethodTail("d");
    assert s[1..][1..] == ['C'] + "D" && s[1..][1..][1..] == "D";
    assert t[1..][1..] == ['C'] + "d" && t[1..][1..][1..] == "d";
    RoundTripIsCanon(s);
    RoundTripIsCanon(t);
    ScanRunPair('B', 'C', "D");
    ScanRunPair('B', 'C', "d");
    assert ScanRun("D") == "d";
    assert Scan(s) == "a" + ("_" + ScanRun(s[1..])) && Scan(t) == "a" + ("_" + ScanRun(t[1..]));
  }
}
