/**
 * The edge-case score of the tagging sampler
 * (src/tagging_generator.py, `calculate_edge_case_scores`): ten weighted
 * conditions over a report's text, its extraction outcome and its
 * reliability label. The score is the sum of the weights of the conditions
 * that hold, and the reasons are their tags in table order, joined by ", ".
 */
module Scoring {
  import opened Wrappers
  import opened Seqs
  import opened Text
  import opened Reports

  /** The ten conditions, in the order the scorer tests them. */
  datatype Reason =
    | VeryShortText | VeryLongText | ManyNumbers | Near6Digit | Multiple6Digits
    | MissedPotentialCoord | MultipleCandidates | LowReliability | NonStandardAnchor | CoordAtEdge

  const RuleTable: seq<Reason> :=
    [VeryShortText, VeryLongText, ManyNumbers, Near6Digit, Multiple6Digits,
     MissedPotentialCoord, MultipleCandidates, LowReliability, NonStandardAnchor, CoordAtEdge]

  function Weight(r: Reason): nat {
    match r
    case VeryShortText => 3
    case VeryLongText => 2
    case ManyNumbers => 3
    case Near6Digit => 4
    case Multiple6Digits => 5
    case MissedPotentialCoord => 6
    case MultipleCandidates => 4
    case LowReliability => 2
    case NonStandardAnchor => 3
    case CoordAtEdge => 2
  }

  function Tag(r: Reason): string {
    match r
    case VeryShortText => "very_short_text"
    case VeryLongText => "very_long_text"
    case ManyNumbers => "many_numbers"
    case Near6Digit => "near_6_digit"
    case Multiple6Digits => "multiple_6_digits"
    case MissedPotentialCoord => "missed_potential_coord"
    case MultipleCandidates => "multiple_candidates"
    case LowReliability => "low_reliability"
    case NonStandardAnchor => "non_standard_anchor"
    case CoordAtEdge => "coord_at_edge"
  }

  /** The columns the scorer derives from `Content_Body` before it visits the rows. */
  datatype Features = Features(
    length: Option<nat>,   // `content_length`, NaN for a missing body
    numCount: nat,         // `len(findall(r'\d+'))`
    sixCount: nat,         // `len(findall(r'\d{6}'))`
    nearCount: nat)        // `len(findall(r'\d{5}|\d{7}'))`

  function FeaturesOf(content: Option<string>): (f: Features)
    ensures content.None? ==> f.length.None? && f.numCount == 0 && f.sixCount == 0 && f.nearCount == 0
    ensures content.Some? ==> f.length == Some(|content.value|)
  {
    match content
    case None => Features(None, 0, 0, 0)
    case Some(s) => Features(Some(|s|), CountDigitRuns(s), CountFixedDigits(s, 6), CountFiveOrSevenDigits(s))
  }

  /** `str(Content_Body).lower()`, the text conditions 9 and 10 search. */
  function Lowered(row: Report): string {
    Lower(CellText(row.content))
  }

  /** Condition `r` holds for `row`, whose derived columns are `f`. */
  predicate HoldsWith(r: Reason, row: Report, f: Features) {
    match r
    case VeryShortText => f.length.Some? && f.length.value < 30
    case VeryLongText => f.length.Some? && f.length.value > 200
    case ManyNumbers => f.numCount >= 5
    case Near6Digit => f.nearCount > 0
    case Multiple6Digits => f.sixCount > 1
    case MissedPotentialCoord => row.hasCoordinate == 0 && f.sixCount > 0
    case MultipleCandidates => row.hasCoordinate == 1 && f.sixCount > 1
    case LowReliability =>
      row.reliability.Some? && (Contains(row.reliability.value, "D") || Contains(row.reliability.value, "F"))
    case NonStandardAnchor => Contains(Lowered(row), "נצ") && !Contains(Lowered(row), "נ.צ")
    case CoordAtEdge =>
      row.hasCoordinate == 1 &&
      var pos := Find(Lowered(row), CellText(row.coordinate));
      pos >= 0 && (pos < 15 || (f.length.Some? && pos > f.length.value - 20))
  }

  /** Condition `r` holds for `row`. */
  predicate Holds(r: Reason, row: Report) {
    HoldsWith(r, row, FeaturesOf(row.content))
  }

  function HoldsFor(row: Report, f: Features): Reason -> bool {
    r => HoldsWith(r, row, f)
  }

  /** `[r]` when `r` holds and nothing otherwise: what one of the scorer's ten tests appends. */
  function PickIf(h: Reason -> bool, r: Reason): seq<Reason> {
    if h(r) then [r] else []
  }

  /** The conditions that hold, evaluated one after the other in the scorer's order. */
  function Picks(h: Reason -> bool): seq<Reason> {
    PickIf(h, VeryShortText) + (PickIf(h, VeryLongText) + (PickIf(h, ManyNumbers) +
    (PickIf(h, Near6Digit) + (PickIf(h, Multiple6Digits) + (PickIf(h, MissedPotentialCoord) +
    (PickIf(h, MultipleCandidates) + (PickIf(h, LowReliability) + (PickIf(h, NonStandardAnchor) +
    PickIf(h, CoordAtEdge)))))))))
  }

  /** Testing the ten conditions in turn keeps exactly the table rows that hold, in table order. */
  lemma PicksAreFilter(h: Reason -> bool)
    ensures Picks(h) == Filter(RuleTable, h)
  {
    FilterOfTen(h, RuleTable);
  }

  /** Filtering ten conditions is testing them one after the other. */
  lemma FilterOfTen(h: Reason -> bool, a: seq<Reason>)
    requires |a| == 10
    ensures Filter(a, h) == PickIf(h, a[0]) + (PickIf(h, a[1]) + (PickIf(h, a[2]) +
      (PickIf(h, a[3]) + (PickIf(h, a[4]) + (PickIf(h, a[5]) +
      (PickIf(h, a[6]) + (PickIf(h, a[7]) + (PickIf(h, a[8]) + PickIf(h, a[9])))))))))
  {
    FilterStep(h, a, 9);
    assert a[10..] == [];
    assert Filter(a[9..], h) == PickIf(h, a[9]);
    FilterStep(h, a, 8);
    FilterStep(h, a, 7);
    FilterStep(h, a, 6);
    FilterStep(h, a, 5);
    FilterStep(h, a, 4);
    FilterStep(h, a, 3);
    FilterStep(h, a, 2);
    FilterStep(h, a, 1);
    FilterStep(h, a, 0);
    assert a[0..] == a;
  }

  lemma FilterStep(h: Reason -> bool, a: seq<Reason>, k: nat)
    requires k < |a|
    ensures Filter(a[k..], h) == PickIf(h, a[k]) + Filter(a[k + 1..], h)
  {
    assert a[k..] == [a[k]] + a[k + 1..];
    FilterCons(a[k], a[k + 1..], h);
  }

  /** The conditions that hold, in table order, given the derived columns. */
  function TriggeredWith(row: Report, f: Features): seq<Reason> {
    Picks(HoldsFor(row, f))
  }

  /** The conditions that hold for `row`, in table order. */
  function Triggered(row: Report): seq<Reason> {
    TriggeredWith(row, FeaturesOf(row.content))
  }

  function SumWeights(rs: seq<Reason>): nat {
    if rs == [] then 0 else Weight(rs[0]) + SumWeights(rs[1..])
  }

  function Tags(rs: seq<Reason>): (ts: seq<string>)
    ensures |ts| == |rs| && forall i :: 0 <= i < |rs| ==> ts[i] == Tag(rs[i])
  {
    if rs == [] then [] else [Tag(rs[0])] + Tags(rs[1..])
  }

  /** The score the table assigns: the weights of the conditions that hold, added up. */
  function TableScore(row: Report): nat {
    SumWeights(Triggered(row))
  }

  /** The `edge_reasons` text: the tags of the conditions that hold, joined by ", ". */
  function ReasonsText(row: Report): string {
    Join(Tags(Triggered(row)), ", ")
  }

  // ------------------------------------------------------- imperative scorer

  lemma SumWeightsConcat(a: seq<Reason>, b: seq<Reason>)
    ensures SumWeights(a + b) == SumWeights(a) + SumWeights(b)
  {
    if a == [] {
      assert a + b == b;
    } else {
      SumWeightsConcat(a[1..], b);
      assert (a + b)[1..] == a[1..] + b;
    }
  }

  lemma TagsConcat(a: seq<Reason>, b: seq<Reason>)
    ensures Tags(a + b) == Tags(a) + Tags(b)
  {
  }

  /** Row `k` of the table as a one-element list when condition `h` holds for it, and empty otherwise. */
  function Pick(h: Reason -> bool, k: nat): seq<Reason>
    requires k < |RuleTable|
  {
    if h(RuleTable[k]) then [RuleTable[k]] else []
  }

  /** Testing one more row of the table appends that row exactly when its condition holds. */
  lemma PrefixStep(h: Reason -> bool, k: nat)
    requires k < |RuleTable|
    ensures Filter(RuleTable[..k + 1], h) == Filter(RuleTable[..k], h) + Pick(h, k)
  {
    var one := [RuleTable[k]];
    assert RuleTable[..k + 1] == RuleTable[..k] + one;
    FilterConcat(RuleTable[..k], one, h);
    assert Filter(one, h) == Pick(h, k);
  }

  /**
   * The scorer's loop body for one row, given the derived columns `f`: the
   * ten tests in table order, each adding its weight and appending its tag
   * when its condition holds. The result is the table's score and reasons.
   */
  method ScoreRow(row: Report, f: Features) returns (score: int, reasons: seq<string>)
    ensures score == SumWeights(TriggeredWith(row, f)) && reasons == Tags(TriggeredWith(row, f))
  {
    ghost var h := HoldsFor(row, f);
    score, reasons := 0, [];
    var k := 0;
    while k < |RuleTable|
      invariant 0 <= k <= |RuleTable|
      invariant score == SumWeights(Filter(RuleTable[..k], h))
      invariant reasons == Tags(Filter(RuleTable[..k], h))
    {
      var r := RuleTable[k];
      PrefixStep(h, k);
      SumWeightsConcat(Filter(RuleTable[..k], h), Pick(h, k));
      TagsConcat(Filter(RuleTable[..k], h), Pick(h, k));
      if HoldsWith(r, row, f) {
        score := score + Weight(r);
        reasons := reasons + [Tag(r)];
      }
      k := k + 1;
    }
    assert RuleTable[..k] == RuleTable;
    PicksAreFilter(h);
  }

  // ------------------------------------------------------------ properties

  /** Conditions that read the same cells hold alike on any list of conditions. */
  lemma {:induction false} SameCellsSameFilter(s: seq<Reason>, a: Report, b: Report, f: Features)
    requires a.content == b.content && a.hasCoordinate == b.hasCoordinate
    requires a.reliability == b.reliability && a.coordinate == b.coordinate
    ensures Filter(s, HoldsFor(a, f)) == Filter(s, HoldsFor(b, f))
  {
    forall r ensures HoldsFor(a, f)(r) <==> HoldsFor(b, f)(r) {
      assert Lowered(a) == Lowered(b);
    }
    FilterAgree(s, HoldsFor(a, f), HoldsFor(b, f));
  }

  /**
   * The conditions read only a report's text, label, reliability and
   * coordinate: reports that agree on those trigger the same conditions.
   */
  lemma SameCellsSameTriggered(a: Report, b: Report)
    requires a.content == b.content && a.hasCoordinate == b.hasCoordinate
    requires a.reliability == b.reliability && a.coordinate == b.coordinate
    ensures Triggered(a) == Triggered(b)
  {
    PicksAreFilter(HoldsFor(a, FeaturesOf(a.content)));
    PicksAreFilter(HoldsFor(b, FeaturesOf(b.content)));
    SameCellsSameFilter(RuleTable, a, b, FeaturesOf(a.content));
  }


  /** The weight condition `h` gives to `r`: its weight when it holds, and 0 otherwise. */
  function Gain(h: Reason -> bool, r: Reason): nat {
    if h(r) then Weight(r) else 0
  }

  lemma TwoGains(h: Reason -> bool, a: Reason, b: Reason)
    ensures SumWeights(Filter([a, b], h)) == Gain(h, a) + Gain(h, b)
  {
    var fa, fb := if h(a) then [a] else [], if h(b) then [b] else [];
    assert [a, b][1..] == [b] && [b][1..] == [];
    assert Filter([b], h) == fb;
    assert Filter([a, b], h) == fa + fb;
    SumWeightsConcat(fa, fb);
  }

  lemma ThreeGains(h: Reason -> bool, a: Reason, b: Reason, c: Reason)
    ensures SumWeights(Filter([a, b, c], h)) == Gain(h, a) + Gain(h, b) + Gain(h, c)
  {
    assert [a, b, c][1..] == [b, c];
    TwoGains(h, b, c);
    var fa := if h(a) then [a] else [];
    assert Filter([a, b, c], h) == fa + Filter([b, c], h);
    SumWeightsConcat(fa, Filter([b, c], h));
  }

  /** `SumWeights` over a filtered list splits over concatenation. */
  lemma FilteredWeightsConcat(a: seq<Reason>, b: seq<Reason>, h: Reason -> bool)
    ensures SumWeights(Filter(a + b, h)) == SumWeights(Filter(a, h)) + SumWeights(Filter(b, h))
  {
    FilterConcat(a, b, h);
    SumWeightsConcat(Filter(a, h), Filter(b, h));
  }

  /** The gains of the ten conditions, added up. */
  function GainTotal(h: Reason -> bool): nat {
    Gain(h, VeryShortText) + Gain(h, VeryLongText) + Gain(h, ManyNumbers) + Gain(h, Near6Digit) +
    Gain(h, Multiple6Digits) + Gain(h, MissedPotentialCoord) + Gain(h, MultipleCandidates) +
    Gain(h, LowReliability) + Gain(h, NonStandardAnchor) + Gain(h, CoordAtEdge)
  }

  /** The table's score is the sum of the ten gains. */
  lemma TableGains(h: Reason -> bool)
    ensures SumWeights(Filter(RuleTable, h)) == GainTotal(h)
  {
    var a, b := [VeryShortText, VeryLongText], [ManyNumbers, Near6Digit, Multiple6Digits];
    var c, d := [MissedPotentialCoord, MultipleCandidates], [LowReliability, NonStandardAnchor, CoordAtEdge];
    assert RuleTable == a + (b + (c + d));
    FilteredWeightsConcat(a, b + (c + d), h);
    FilteredWeightsConcat(b, c + d, h);
    FilteredWeightsConcat(c, d, h);
    TwoGains(h, VeryShortText, VeryLongText);
    ThreeGains(h, ManyNumbers, Near6Digit, Multiple6Digits);
    TwoGains(h, MissedPotentialCoord, MultipleCandidates);
    ThreeGains(h, LowReliability, NonStandardAnchor, CoordAtEdge);
  }

  /**
   * Any choice of conditions scores at most 26, provided the short and long
   * tests never hold together and the missed-coordinate test excludes the
   * two tests that need an extracted coordinate.
   */
  lemma ScoreBound(h: Reason -> bool)
    requires !(h(VeryShortText) && h(VeryLongText))
    requires h(MissedPotentialCoord) ==> !h(MultipleCandidates) && !h(CoordAtEdge)
    ensures GainTotal(h) <= 26
  {
  }

  /** Under the two exclusions, the table scores at most 26. */
  lemma FilteredScoreBound(h: Reason -> bool)
    requires !(h(VeryShortText) && h(VeryLongText))
    requires h(MissedPotentialCoord) ==> !h(MultipleCandidates) && !h(CoordAtEdge)
    ensures SumWeights(Filter(RuleTable, h)) <= 26
  {
    TableGains(h);
    ScoreBound(h);
  }

  /** `edge_score` lies in [0, 26]. */
  lemma TableScoreBound(row: Report)
    ensures 0 <= TableScore(row) <= 26
  {
    var h := HoldsFor(row, FeaturesOf(row.content));
    assert h(VeryShortText) ==> !h(VeryLongText);
    assert h(MissedPotentialCoord) ==> row.hasCoordinate == 0;
    PickedScoreBound(h);
  }

  /** Under the two exclusions, the conditions picked in turn score at most 26. */
  lemma PickedScoreBound(h: Reason -> bool)
    requires !(h(VeryShortText) && h(VeryLongText))
    requires h(MissedPotentialCoord) ==> !h(MultipleCandidates) && !h(CoordAtEdge)
    ensures SumWeights(Picks(h)) <= 26
  {
    PicksAreFilter(h);
    FilteredScoreBound(h);
  }

  /** A condition in the middle of a list adds its weight to the rest. */
  lemma SumMiddle(left: seq<Reason>, x: Reason, right: seq<Reason>)
    ensures SumWeights(left + ([x] + right)) == SumWeights(left + right) + Weight(x)
  {
    SumWeightsConcat(left, [x] + right);
    SumWeightsConcat([x], right);
    SumWeightsConcat(left, right);
  }

  /** Lists holding the same conditions, in any order, weigh the same. */
  lemma {:induction false} PermutedSum(a: seq<Reason>, b: seq<Reason>)
    requires multiset(a) == multiset(b)
    ensures SumWeights(a) == SumWeights(b)
    decreases |a|
  {
    if a == [] {
      assert |b| == |multiset(b)| == 0;
    } else {
      var x := a[0];
      assert a == [x] + a[1..];
      assert x in multiset(b);
      var i :| 0 <= i < |b| && b[i] == x;
      WithoutMultiset(b, i);
      WithoutPieces(b, i);
      assert multiset(a[1..]) == multiset(Without(b, i));
      PermutedSum(a[1..], Without(b, i));
      SumMiddle(b[..i], x, b[i + 1..]);
    }
  }

  /** The weight of the conditions that hold depends only on which conditions are listed, not on their order. */
  lemma PermutedWeights(a: seq<Reason>, b: seq<Reason>, h: Reason -> bool)
    requires multiset(a) == multiset(b)
    ensures SumWeights(Filter(a, h)) == SumWeights(Filter(b, h))
  {
    FilterPermutation(a, b, h);
    PermutedSum(Filter(a, h), Filter(b, h));
  }

  /** Testing the ten conditions in any other order gives the same `edge_score`. */
  lemma ScoreOrderIndependent(row: Report, order: seq<Reason>)
    requires multiset(order) == multiset(RuleTable)
    ensures SumWeights(Filter(order, HoldsFor(row, FeaturesOf(row.content)))) == TableScore(row)
  {
    PicksAreFilter(HoldsFor(row, FeaturesOf(row.content)));
    PermutedWeights(order, RuleTable, HoldsFor(row, FeaturesOf(row.content)));
  }

  /** Every condition is in the table, so `Triggered` misses none. */
  lemma InTable(r: Reason)
    ensures r in RuleTable
  {
    match r
    case VeryShortText => assert RuleTable[0] == r;
    case VeryLongText => assert RuleTable[1] == r;
    case ManyNumbers => assert RuleTable[2] == r;
    case Near6Digit => assert RuleTable[3] == r;
    case Multiple6Digits => assert RuleTable[4] == r;
    case MissedPotentialCoord => assert RuleTable[5] == r;
    case MultipleCandidates => assert RuleTable[6] == r;
    case LowReliability => assert RuleTable[7] == r;
    case NonStandardAnchor => assert RuleTable[8] == r;
    case CoordAtEdge => assert RuleTable[9] == r;
  }

  /** A filtered list keeps its order and holds exactly the listed elements that pass. */
  lemma FilteredInOrder(s: seq<Reason>, h: Reason -> bool)
    ensures IsSubsequence(Filter(s, h), s)
    ensures forall r :: r in s ==> (r in Filter(s, h) <==> h(r))
  {
    FilterIsSubsequence(s, h);
    FilterMembers(s, h);
  }

  /**
   * The reasons are the conditions that hold, listed in the order the
   * scorer tests them.
   */
  lemma TriggeredInOrder(row: Report)
    ensures IsSubsequence(Triggered(row), RuleTable)
    ensures forall r: Reason :: r in Triggered(row) <==> Holds(r, row)
  {
    PicksAreFilter(HoldsFor(row, FeaturesOf(row.content)));
    FilteredInOrder(RuleTable, HoldsFor(row, FeaturesOf(row.content)));
    forall r: Reason ensures r in Triggered(row) <==> Holds(r, row) {
      InTable(r);
    }
  }

  /** `near_6_digit` fires exactly when the text holds five digits in a row. */
  lemma Near6DigitIff(row: Report)
    ensures Holds(Near6Digit, row) <==> row.content.Some? && exists i: nat :: DigitsAt(row.content.value, i, 5)
  {
    if row.content.Some? {
      FiveOrSevenIsFive(row.content.value);
      CountFixedPositive(row.content.value, 5);
    }
  }

  /** Every text with a 6-digit chunk also fires `near_6_digit`. */
  lemma SixDigitsFireNear6(row: Report)
    requires FeaturesOf(row.content).sixCount > 0
    ensures Holds(Near6Digit, row)
  {
    FiveOrSevenIsFive(row.content.value);
    SixDigitsGiveFive(row.content.value);
  }

  /** The condition a tag names, if it names one. */
  function ReasonOf(t: string): (r: Option<Reason>)
    ensures r.Some? ==> Tag(r.value) == t
  {
    if t == "very_short_text" then Some(VeryShortText)
    else if t == "very_long_text" then Some(VeryLongText)
    else if t == "many_numbers" then Some(ManyNumbers)
    else if t == "near_6_digit" then Some(Near6Digit)
    else if t == "multiple_6_digits" then Some(Multiple6Digits)
    else if t == "missed_potential_coord" then Some(MissedPotentialCoord)
    else if t == "multiple_candidates" then Some(MultipleCandidates)
    else if t == "low_reliability" then Some(LowReliability)
    else if t == "non_standard_anchor" then Some(NonStandardAnchor)
    else if t == "coord_at_edge" then Some(CoordAtEdge)
    else None
  }

  /** Each tag names its own condition, so no two conditions share a tag. */
  lemma ReasonOfTag(r: Reason)
    ensures ReasonOf(Tag(r)) == Some(r)
  {
  }

  /** `t` has no comma in it. */
  predicate CommaFree(t: string) {
    forall i :: 0 <= i < |t| ==> t[i] != ','
  }

  /** No tag contains a comma, so the ", " separator cannot occur inside one. */
  lemma TagHasNoComma(r: Reason)
    ensures CommaFree(Tag(r))
  {
    match r
    case VeryShortText => assert CommaFree("very_short_text");
    case VeryLongText => assert CommaFree("very_long_text");
    case ManyNumbers => assert CommaFree("many_numbers");
    case Near6Digit => assert CommaFree("near_6_digit");
    case Multiple6Digits => assert CommaFree("multiple_6_digits");
    case MissedPotentialCoord => assert CommaFree("missed_potential_coord");
    case MultipleCandidates => assert CommaFree("multiple_candidates");
    case LowReliability => assert CommaFree("low_reliability");
    case NonStandardAnchor => assert CommaFree("non_standard_anchor");
    case CoordAtEdge => assert CommaFree("coord_at_edge");
  }

  /** The reason list a report's `edge_reasons` text stands for: empty, or the text split on ", ". */
  function ReasonList(text: string): seq<string> {
    if text == "" then [] else Split(text, ", ")
  }

  lemma TagsHaveNoComma(rs: seq<Reason>)
    ensures forall k, i :: 0 <= k < |rs| && 0 <= i < |Tags(rs)[k]| ==> Tags(rs)[k][i] != ','
  {
    forall k | 0 <= k < |rs| {
      TagHasNoComma(rs[k]);
    }
  }

  /** Joining any list of tags with ", " and splitting the text again gives the list back. */
  lemma TagsRoundTrip(rs: seq<Reason>)
    ensures ReasonList(Join(Tags(rs), ", ")) == Tags(rs)
  {
    var ts := Tags(rs);
    if ts != [] {
      TagsHaveNoComma(rs);
      SplitJoin(ts, ", ");
      JoinStartsWith(ts, ", ");
    }
  }

  /** Splitting `edge_reasons` on ", " gives back the tags of the conditions that hold, in order. */
  lemma ReasonsRoundTrip(row: Report)
    ensures ReasonList(ReasonsText(row)) == Tags(Triggered(row))
  {
    TagsRoundTrip(Triggered(row));
  }

  /** Each condition appears in the table exactly once. */
  lemma TableListsOnce(r: Reason)
    ensures multiset(RuleTable)[r] == 1
  {
  }

  /** A tag occurs among the reasons drawn from a list holding its condition once, exactly when the condition holds. */
  lemma FilteredTagCount(s: seq<Reason>, h: Reason -> bool, r: Reason)
    requires multiset(s)[r] == 1
    ensures Count(Tags(Filter(s, h)), Tag(r)) == if h(r) then 1 else 0
  {
    CountMultiset(s, r);
    TagsCount(Filter(s, h), r);
    CountFilter(s, h, r);
  }

  /** A tag occurs in a report's reasons once when its condition holds and not at all otherwise. */
  lemma TagCount(row: Report, r: Reason)
    ensures Count(Tags(Triggered(row)), Tag(r)) == if Holds(r, row) then 1 else 0
  {
    TableListsOnce(r);
    PicksAreFilter(HoldsFor(row, FeaturesOf(row.content)));
    FilteredTagCount(RuleTable, HoldsFor(row, FeaturesOf(row.content)), r);
  }

  lemma {:induction false} TagsCount(rs: seq<Reason>, r: Reason)
    ensures Count(Tags(rs), Tag(r)) == Count(rs, r)
  {
    if rs != [] {
      TagsCount(rs[1..], r);
      ReasonOfTag(rs[0]);
      ReasonOfTag(r);
    }
  }
}
