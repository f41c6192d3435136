/**
 * The five anchor rules of the coordinate extractor and the first-match
 * cascade over them (src/feature_engineering.py, `CoordinateExtractor`).
 *
 * Every rule is an anchor followed by the capture `(\d{6})`. An anchor is a
 * sequence of regex elements; `Matches` gives each element its regex meaning
 * (some split of the text matches, as a backtracking engine would find), and
 * `Scan` matches the elements greedily without backtracking. For the five
 * rules the two agree (`ScanAtIsMatch`), because no element can consume a
 * character that could start what follows it (`Deterministic`).
 */
module Patterns {
  import opened Wrappers
  import opened Text

  /** One element of an anchor pattern. */
  datatype Elem =
    | Lit(c: char)                              // the character `c`
    | Opt(c: char)                              // `c?`
    | Star(cls: set<char>)                      // `[cls]*`
    | Plus(cls: set<char>)                      // `[cls]+`
    | StarPair(lead: set<char>, tail: set<char>) // `[lead]*[tail]*`

  predicate AllIn(t: string, cls: set<char>) {
    forall i :: 0 <= i < |t| ==> t[i] in cls
  }

  /** The strings the element matches as a regex. */
  predicate ElemMatches(e: Elem, t: string) {
    match e
    case Lit(c) => t == [c]
    case Opt(c) => t == [] || t == [c]
    case Star(cls) => AllIn(t, cls)
    case Plus(cls) => |t| >= 1 && AllIn(t, cls)
    case StarPair(a, b) => exists k :: 0 <= k <= |t| && AllIn(t[..k], a) && AllIn(t[k..], b)
  }

  /** `t` splits into consecutive pieces matched by the elements of `es`. */
  predicate Matches(es: seq<Elem>, t: string)
    decreases |es|
  {
    if es == [] then t == []
    else exists k :: 0 <= k <= |t| && ElemMatches(es[0], t[..k]) && Matches(es[1..], t[k..])
  }

  // ------------------------------------------------------------ greedy scan

  /** The end of the longest run of `cls` characters starting at `p`. */
  function RunEnd(s: string, p: nat, cls: set<char>): (q: nat)
    requires p <= |s|
    ensures p <= q <= |s| && AllIn(s[p..q], cls) && (q < |s| ==> s[q] !in cls)
    decreases |s| - p
  {
    if p < |s| && s[p] in cls then
      var q := RunEnd(s, p + 1, cls);
      assert s[p..q] == [s[p]] + s[p + 1..q];
      q
    else p
  }

  lemma {:induction false} RunEndExact(s: string, p: nat, q: nat, cls: set<char>)
    requires p <= q < |s| && AllIn(s[p..q], cls) && s[q] !in cls
    ensures RunEnd(s, p, cls) == q
    decreases q - p
  {
    if p < q {
      assert s[p] == s[p..q][0];
      assert s[p + 1..q] == s[p..q][1..];
      RunEndExact(s, p + 1, q, cls);
    }
  }

  lemma {:induction false} RunEndStops(s: string, p: nat, q: nat, cls: set<char>)
    requires p <= q < |s| && s[q] !in cls
    ensures RunEnd(s, p, cls) <= q
    decreases q - p
  {
    if p < q && s[p] in cls {
      RunEndStops(s, p + 1, q, cls);
    }
  }

  /** The greedy match of one element at `p`: its end, or None. */
  function Step(e: Elem, s: string, p: nat): (r: Option<nat>)
    requires p <= |s|
    ensures r.Some? ==> p <= r.value <= |s| && ElemMatches(e, s[p..r.value])
  {
    match e
    case Lit(c) => if p < |s| && s[p] == c then Some(p + 1) else None
    case Opt(c) => if p < |s| && s[p] == c then Some(p + 1) else Some(p)
    case Star(cls) => Some(RunEnd(s, p, cls))
    case Plus(cls) => if p < |s| && s[p] in cls then Some(RunEnd(s, p, cls)) else None
    case StarPair(a, b) =>
      var m := RunEnd(s, p, a);
      var q := RunEnd(s, m, b);
      assert s[p..q][..m - p] == s[p..m] && s[p..q][m - p..] == s[m..q];
      Some(q)
  }

  /** The greedy match of a sequence of elements at `p`: its end, or None. */
  function Scan(es: seq<Elem>, s: string, p: nat): (r: Option<nat>)
    requires p <= |s|
    ensures r.Some? ==> p <= r.value <= |s| && Matches(es, s[p..r.value])
    decreases |es|
  {
    if es == [] then Some(p)
    else
      match Step(es[0], s, p)
      case None => None
      case Some(q) =>
        var r := Scan(es[1..], s, q);
        if r.Some? then
          assert s[p..r.value][..q - p] == s[p..q] && s[p..r.value][q - p..] == s[q..r.value];
          r
        else r
  }

  // ---------------------------------------------------------- determinism

  /** The characters that can start a match of `e` followed by a `next` character. */
  function FirstOf(e: Elem, next: set<char>): set<char> {
    match e
    case Lit(c) => {c}
    case Opt(c) => {c} + next
    case Star(cls) => cls + next
    case Plus(cls) => cls
    case StarPair(a, b) => a + b + next
  }

  /** The characters that can start a match of `es` followed by a `follow` character. */
  function FirstSet(es: seq<Elem>, follow: set<char>): set<char>
    decreases |es|
  {
    if es == [] then follow else FirstOf(es[0], FirstSet(es[1..], follow))
  }

  /** An element whose extent is never in doubt when `next` starts what follows. */
  predicate Unambiguous(e: Elem, next: set<char>) {
    match e
    case Lit(_) => true
    case Opt(c) => c !in next
    case Star(cls) => cls !! next
    case Plus(cls) => cls !! next
    case StarPair(a, b) => a <= b && b !! next
  }

  predicate Deterministic(es: seq<Elem>, follow: set<char>)
    decreases |es|
  {
    es == [] || (Unambiguous(es[0], FirstSet(es[1..], follow)) && Deterministic(es[1..], follow))
  }

  /** A match of `es` at `s[p..j]` splits into a match of its first element and the rest. */
  lemma Uncons(es: seq<Elem>, s: string, p: nat, j: nat) returns (q: nat)
    requires es != [] && p <= j <= |s| && Matches(es, s[p..j])
    ensures p <= q <= j && ElemMatches(es[0], s[p..q]) && Matches(es[1..], s[q..j])
  {
    var t := s[p..j];
    var k :| 0 <= k <= |t| && ElemMatches(es[0], t[..k]) && Matches(es[1..], t[k..]);
    assert t[..k] == s[p..p + k] && t[k..] == s[p + k..j];
    q := p + k;
  }

  /** A match followed by a `follow` character starts with a character of `FirstSet`. */
  lemma {:induction false} FirstChar(es: seq<Elem>, follow: set<char>, s: string, p: nat, j: nat)
    requires p <= j < |s| && s[j] in follow && Matches(es, s[p..j])
    ensures s[p] in FirstSet(es, follow)
    decreases |es|
  {
    if es != [] {
      var q := Uncons(es, s, p, j);
      if q == p {
        FirstChar(es[1..], follow, s, p, j);
      } else {
        var t := s[p..q];
        assert t[0] == s[p];
        if es[0].StarPair? {
          var m :| 0 <= m <= |t| && AllIn(t[..m], es[0].lead) && AllIn(t[m..], es[0].tail);
          if m > 0 {
            assert t[..m][0] == s[p];
          } else {
            assert t[m..][0] == s[p];
          }
        }
      }
    }
  }

  /** For a deterministic pattern the greedy step lands where every regex match splits. */
  lemma StepExact(e: Elem, next: set<char>, s: string, p: nat, q: nat)
    requires p <= q < |s| && s[q] in next && Unambiguous(e, next) && ElemMatches(e, s[p..q])
    ensures Step(e, s, p) == Some(q)
  {
    match e
    case Lit(c) =>
      assert s[p] == s[p..q][0];
    case Opt(c) =>
      if p < q {
        assert s[p] == s[p..q][0];
      }
    case Star(cls) =>
      RunEndExact(s, p, q, cls);
    case Plus(cls) =>
      assert s[p] == s[p..q][0];
      RunEndExact(s, p, q, cls);
    case StarPair(a, b) =>
      var t := s[p..q];
      var k :| 0 <= k <= |t| && AllIn(t[..k], a) && AllIn(t[k..], b);
      assert AllIn(t, b) by {
        forall i | 0 <= i < |t| ensures t[i] in b {
          if i < k {
            assert t[..k][i] == t[i];
          } else {
            assert t[k..][i - k] == t[i];
          }
        }
      }
      RunEndStops(s, p, q, a);
      var m := RunEnd(s, p, a);
      assert forall i :: 0 <= i < q - m ==> s[m..q][i] == t[i + m - p];
      RunEndExact(s, m, q, b);
  }

  /** A regex match that a `follow` character ends is the one the greedy scan finds. */
  lemma {:induction false} ScanComplete(es: seq<Elem>, follow: set<char>, s: string, p: nat, j: nat)
    requires Deterministic(es, follow)
    requires p <= j < |s| && s[j] in follow && Matches(es, s[p..j])
    ensures Scan(es, s, p) == Some(j)
    decreases |es|
  {
    if es != [] {
      var q := Uncons(es, s, p, j);
      FirstChar(es[1..], follow, s, q, j);
      StepExact(es[0], FirstSet(es[1..], follow), s, p, q);
      ScanComplete(es[1..], follow, s, q, j);
    }
  }

  // ----------------------------------------------------------------- rules

  /** A rule: an anchor followed by the capture group `(\d{6})`. */
  datatype Rule = Rule(anchor: seq<Elem>)

  /** `\s*[:\s]*` */
  const SeparatorRun: Elem := StarPair(Spaces, Separators)

  /** Rule 1, `נ\.צ\.?\s*(\d{6})`. */
  const Rule1: Rule := Rule([Lit('נ'), Lit('.'), Lit('צ'), Opt('.'), Star(Spaces)])

  /** Rule 2, `נקודת\s+ציון\s*[:\s]*(\d{6})`. */
  const Rule2: Rule :=
    Rule([Lit('נ'), Lit('ק'), Lit('ו'), Lit('ד'), Lit('ת'), Plus(Spaces),
          Lit('צ'), Lit('י'), Lit('ו'), Lit('ן'), SeparatorRun])

  /** Rule 3, `מיקום\s*[:\s]*(\d{6})`. */
  const Rule3: Rule := Rule([Lit('מ'), Lit('י'), Lit('ק'), Lit('ו'), Lit('ם'), SeparatorRun])

  /** Rule 4, `נ\s*צ\s*[:\s]*(\d{6})`. */
  const Rule4: Rule := Rule([Lit('נ'), Star(Spaces), Lit('צ'), SeparatorRun])

  /** Rule 5, `קו[אר]*[דד]*ינט[הא]*\s*[:\s]*(\d{6})`; the class `[דד]` is the single letter ד. */
  const Rule5: Rule :=
    Rule([Lit('ק'), Lit('ו'), Star({'א', 'ר'}), Star({'ד'}), Lit('י'), Lit('נ'), Lit('ט'),
          Star({'ה', 'א'}), SeparatorRun])

  /** The rules in the order the extractor tries them. */
  const Rules: seq<Rule> := [Rule1, Rule2, Rule3, Rule4, Rule5]

  /** Rule `r` matches with its anchor at `s[i..j]` and its capture at `s[j..j + 6]`. */
  predicate MatchesAt(r: Rule, s: string, i: nat, j: nat) {
    i <= j <= |s| && Matches(r.anchor, s[i..j]) && DigitsAt(s, j, 6)
  }

  /** The greedy match of rule `r` at `i`: where its capture starts, or None. */
  function ScanAt(r: Rule, s: string, i: nat): (res: Option<nat>)
    requires i <= |s|
    ensures res.Some? ==> MatchesAt(r, s, i, res.value)
  {
    match Scan(r.anchor, s, i)
    case Some(j) => if DigitsAt(s, j, 6) then Some(j) else None
    case None => None
  }

  /** Putting `e` in front of `tail`: the first characters and determinism, one element at a time. */
  lemma Cons(e: Elem, tail: seq<Elem>, follow: set<char>)
    ensures FirstSet([e] + tail, follow) == FirstOf(e, FirstSet(tail, follow))
    ensures Deterministic([e] + tail, follow) <==>
      Unambiguous(e, FirstSet(tail, follow)) && Deterministic(tail, follow)
  {
    assert ([e] + tail)[0] == e && ([e] + tail)[1..] == tail;
  }

  /** Literal characters in front of a deterministic tail keep it deterministic. */
  lemma {:induction false} Literals(lits: seq<Elem>, tail: seq<Elem>, follow: set<char>)
    requires lits != [] && forall i :: 0 <= i < |lits| ==> lits[i].Lit?
    requires Deterministic(tail, follow)
    ensures Deterministic(lits + tail, follow) && FirstSet(lits + tail, follow) == {lits[0].c}
    decreases |lits|
  {
    if |lits| > 1 {
      Literals(lits[1..], tail, follow);
    }
    assert lits + tail == [lits[0]] + (lits[1..] + tail);
    Cons(lits[0], lits[1..] + tail, follow);
  }

  lemma SeparatorRunDeterministic()
    ensures Deterministic([SeparatorRun], Digits)
    ensures FirstSet([SeparatorRun], Digits) == Separators + Digits
  {
    Cons(SeparatorRun, [], Digits);
    assert [SeparatorRun] + [] == [SeparatorRun];
  }

  lemma Rule1Deterministic()
    ensures Deterministic(Rule1.anchor, Digits)
  {
    var star := [Star(Spaces)];
    Cons(Star(Spaces), [], Digits);
    assert star == [Star(Spaces)] + [];
    var opt := [Opt('.')] + star;
    Cons(Opt('.'), star, Digits);
    Literals([Lit('נ'), Lit('.'), Lit('צ')], opt, Digits);
    assert Rule1.anchor == [Lit('נ'), Lit('.'), Lit('צ')] + opt;
  }

  lemma Rule2Deterministic()
    ensures Deterministic(Rule2.anchor, Digits)
  {
    SeparatorRunDeterministic();
    var tail := [Lit('צ'), Lit('י'), Lit('ו'), Lit('ן')] + [SeparatorRun];
    Literals([Lit('צ'), Lit('י'), Lit('ו'), Lit('ן')], [SeparatorRun], Digits);
    Cons(Plus(Spaces), tail, Digits);
    Literals([Lit('נ'), Lit('ק'), Lit('ו'), Lit('ד'), Lit('ת')], [Plus(Spaces)] + tail, Digits);
    assert Rule2.anchor == [Lit('נ'), Lit('ק'), Lit('ו'), Lit('ד'), Lit('ת')] + ([Plus(Spaces)] + tail);
  }

  lemma Rule3Deterministic()
    ensures Deterministic(Rule3.anchor, Digits)
  {
    SeparatorRunDeterministic();
    Literals([Lit('מ'), Lit('י'), Lit('ק'), Lit('ו'), Lit('ם')], [SeparatorRun], Digits);
    assert Rule3.anchor == [Lit('מ'), Lit('י'), Lit('ק'), Lit('ו'), Lit('ם')] + [SeparatorRun];
  }

  lemma Rule4Deterministic()
    ensures Deterministic(Rule4.anchor, Digits)
  {
    SeparatorRunDeterministic();
    Literals([Lit('צ')], [SeparatorRun], Digits);
    var tail := [Lit('צ')] + [SeparatorRun];
    Cons(Star(Spaces), tail, Digits);
    Literals([Lit('נ')], [Star(Spaces)] + tail, Digits);
    assert Rule4.anchor == [Lit('נ')] + ([Star(Spaces)] + tail);
  }

  lemma Rule5Deterministic()
    ensures Deterministic(Rule5.anchor, Digits)
  {
    SeparatorRunDeterministic();
    Cons(Star({'ה', 'א'}), [SeparatorRun], Digits);
    var t1 := [Star({'ה', 'א'})] + [SeparatorRun];
    Literals([Lit('י'), Lit('נ'), Lit('ט')], t1, Digits);
    var t2 := [Lit('י'), Lit('נ'), Lit('ט')] + t1;
    Cons(Star({'ד'}), t2, Digits);
    var t3 := [Star({'ד'})] + t2;
    Cons(Star({'א', 'ר'}), t3, Digits);
    var t4 := [Star({'א', 'ר'})] + t3;
    Literals([Lit('ק'), Lit('ו')], t4, Digits);
    assert Rule5.anchor == [Lit('ק'), Lit('ו')] + t4;
  }

  /** None of the five anchors leaves the extent of an element in doubt. */
  lemma RulesDeterministic()
    ensures forall k :: 0 <= k < |Rules| ==> Deterministic(Rules[k].anchor, Digits)
  {
    Rule1Deterministic();
    Rule2Deterministic();
    Rule3Deterministic();
    Rule4Deterministic();
    Rule5Deterministic();
  }

  /** For a deterministic rule, the greedy scan at `i` finds exactly the regex matches at `i`. */
  lemma ScanAtIsMatch(r: Rule, s: string, i: nat, j: nat)
    requires Deterministic(r.anchor, Digits) && i <= |s|
    ensures ScanAt(r, s, i) == Some(j) <==> MatchesAt(r, s, i, j)
  {
    if MatchesAt(r, s, i, j) {
      assert s[j] == s[j..j + 6][0];
      ScanComplete(r.anchor, Digits, s, i, j);
    }
  }

  // ---------------------------------------------------------------- search

  /** `re.search` from position `i` on: the capture and where the match starts. */
  function SearchFrom(r: Rule, s: string, i: nat): (res: Option<(string, nat)>)
    requires i <= |s|
    ensures res.Some? ==> i <= res.value.1 <= |s|
    decreases |s| - i
  {
    match ScanAt(r, s, i)
    case Some(j) => Some((s[j..j + 6], i))
    case None => if i == |s| then None else SearchFrom(r, s, i + 1)
  }

  /** `re.search(pattern, s)`: the leftmost match, as (captured digits, start). */
  function Search(r: Rule, s: string): Option<(string, nat)> {
    SearchFrom(r, s, 0)
  }

  /** The leftmost match of `r` starting at `i` or later: its start and capture. */
  ghost predicate IsLeftmostFrom(r: Rule, s: string, i: nat, res: Option<(string, nat)>) {
    match res
    case None => forall p: nat, j: nat :: i <= p ==> !MatchesAt(r, s, p, j)
    case Some((c, p)) =>
      (exists j: nat :: MatchesAt(r, s, p, j) && c == s[j..j + 6]) &&
      forall p': nat, j: nat :: i <= p' < p ==> !MatchesAt(r, s, p', j)
  }

  lemma {:induction false} SearchFromSpec(r: Rule, s: string, i: nat)
    requires Deterministic(r.anchor, Digits) && i <= |s|
    ensures IsLeftmostFrom(r, s, i, SearchFrom(r, s, i))
    decreases |s| - i
  {
    forall j: nat ensures ScanAt(r, s, i) == Some(j) <==> MatchesAt(r, s, i, j) {
      ScanAtIsMatch(r, s, i, j);
    }
    if ScanAt(r, s, i).None? && i < |s| {
      SearchFromSpec(r, s, i + 1);
    }
  }

  /**
   * `re.search` takes the leftmost start at which the rule matches, and its
   * capture is the six digits that follow the anchor there.
   */
  lemma SearchSpec(k: nat, s: string)
    requires k < |Rules|
    ensures IsLeftmostFrom(Rules[k], s, 0, Search(Rules[k], s))
    ensures Search(Rules[k], s).Some? ==>
      var c := Search(Rules[k], s).value.0; |c| == 6 && AllDigits(c)
  {
    RulesDeterministic();
    SearchFromSpec(Rules[k], s, 0);
  }

  // --------------------------------------------------------------- cascade

  /** The label of the `i`-th rule, `f"Pattern_{i}"` for 1 <= i <= 9. */
  function PatternName(i: nat): (name: string)
    requires 1 <= i <= 9
    ensures |name| == 9 && name[..8] == "Pattern_" && name[8] == ('0' as int + i) as char
  {
    "Pattern_" + [('0' as int + i) as char]
  }

  lemma PatternNameInjective(i: nat, j: nat)
    requires 1 <= i <= 9 && 1 <= j <= 9 && PatternName(i) == PatternName(j)
    ensures i == j
  {
    assert PatternName(i)[8] == PatternName(j)[8];
  }

  /** The rules tried in order: the first one that matches wins, with its 0-based index. */
  function FirstMatch(rules: seq<Rule>, s: string): (res: Option<(string, nat)>)
    ensures res.Some? ==> res.value.1 < |rules|
  {
    if rules == [] then None
    else match Search(rules[0], s)
      case Some((c, _)) => Some((c, 0))
      case None =>
        match FirstMatch(rules[1..], s)
        case None => None
        case Some((c, k)) => Some((c, k + 1))
  }

  lemma {:induction false} FirstMatchSpec(rules: seq<Rule>, s: string)
    ensures match FirstMatch(rules, s)
      case None => forall k :: 0 <= k < |rules| ==> Search(rules[k], s).None?
      case Some((c, k)) =>
        k < |rules| && Search(rules[k], s).Some? && Search(rules[k], s).value.0 == c &&
        forall k' :: 0 <= k' < k ==> Search(rules[k'], s).None?
  {
    if rules != [] {
      FirstMatchSpec(rules[1..], s);
      assert forall k :: 1 <= k < |rules| ==> rules[k] == rules[1..][k - 1];
    }
  }

  /**
   * `extract_coordinate`: missing or non-string text gives (None, None);
   * otherwise the capture of the first rule that matches, and its label.
   */
  function ExtractCoordinate(text: Option<string>): (res: (Option<string>, Option<string>))
    ensures text.None? ==> res == (None, None)
    ensures res.0.Some? <==> res.1.Some?
  {
    match text
    case None => (None, None)
    case Some(s) =>
      match FirstMatch(Rules, s)
      case None => (None, None)
      case Some((c, k)) => (Some(c), Some(PatternName(k + 1)))
  }

  /** No rule matches anywhere in `s`, or rule `k` is the first that does and `c` is its capture. */
  ghost predicate IsCascadeResult(s: string, res: (Option<string>, Option<string>)) {
    match res.0
    case None => res.1.None? && forall k, p: nat, j: nat :: 0 <= k < |Rules| ==> !MatchesAt(Rules[k], s, p, j)
    case Some(c) =>
      exists k :: 0 <= k < |Rules| && res.1 == Some(PatternName(k + 1)) &&
        |c| == 6 && AllDigits(c) &&
        (forall k', p: nat, j: nat :: 0 <= k' < k ==> !MatchesAt(Rules[k'], s, p, j)) &&
        IsLeftmostFrom(Rules[k], s, 0, Search(Rules[k], s)) &&
        Search(Rules[k], s).Some? && Search(Rules[k], s).value.0 == c
  }

  /**
   * The label is `Pattern_i` for the lowest-numbered rule that matches
   * anywhere in the text, and the coordinate is that rule's leftmost capture:
   * six digits standing right after the rule's anchor, with no match of the
   * rule starting further left. No coordinate means no rule matches anywhere.
   */
  lemma ExtractCoordinateSpec(s: string)
    ensures IsCascadeResult(s, ExtractCoordinate(Some(s)))
  {
    FirstMatchSpec(Rules, s);
    forall k | 0 <= k < |Rules| ensures IsLeftmostFrom(Rules[k], s, 0, Search(Rules[k], s)) &&
      (Search(Rules[k], s).Some? ==> |Search(Rules[k], s).value.0| == 6 && AllDigits(Search(Rules[k], s).value.0))
    {
      SearchSpec(k, s);
    }
  }

  /** A coordinate is six digits that occur in the text. */
  lemma ExtractedCoordinateOccurs(s: string)
    requires ExtractCoordinate(Some(s)).0.Some?
    ensures var c := ExtractCoordinate(Some(s)).0.value;
      |c| == 6 && AllDigits(c) && Contains(s, c)
  {
    FirstMatchSpec(Rules, s);
    var c, k := FirstMatch(Rules, s).value.0, FirstMatch(Rules, s).value.1;
    assert ExtractCoordinate(Some(s)).0.value == c;
    SearchSpec(k, s);
    var p := Search(Rules[k], s).value.1;
    assert IsLeftmostFrom(Rules[k], s, 0, Some((c, p)));
    var j: nat :| MatchesAt(Rules[k], s, p, j) && c == s[j..j + 6];
    assert OccursAt(s, c, j);
    ContainsIff(s, c);
  }

  // -------------------------------------------------------------- examples

  const Example1: string := "נ.צ. 123456 בשטח"

  lemma Example1Scan()
    ensures ScanAt(Rule1, Example1, 0) == Some(5)
  {
    var s, a := Example1, Rule1.anchor;
    assert RunEnd(s, 5, Spaces) == 5;
    assert RunEnd(s, 4, Spaces) == 5;
    assert Scan(a[5..], s, 5) == Some(5);
    assert a[4..][1..] == a[5..];
    assert Scan(a[4..], s, 4) == Some(5);
    assert a[3..][1..] == a[4..];
    assert Scan(a[3..], s, 3) == Some(5);
    assert a[2..][1..] == a[3..];
    assert Scan(a[2..], s, 2) == Some(5);
    assert a[1..][1..] == a[2..];
    assert Scan(a[1..], s, 1) == Some(5);
    assert Scan(a, s, 0) == Some(5);
    assert DigitsAt(s, 5, 6);
  }

  /** `נ.צ. 123456 בשטח` gives ("123456", "Pattern_1"). */
  lemma ExampleRule1()
    ensures ExtractCoordinate(Some(Example1)) == (Some("123456"), Some("Pattern_1"))
  {
    Example1Scan();
    assert Example1[5..11] == "123456";
    assert Search(Rule1, Example1) == Some(("123456", 0));
    assert FirstMatch(Rules, Example1) == Some(("123456", 0));
    assert PatternName(1) == "Pattern_1";
  }
}
