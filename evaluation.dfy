/**
 * The performance evaluator (src/performance_eval.py,
 * `PerformanceEvaluator`): the tagged file is cleaned to records whose two
 * answers are YES or NO, the confusion matrix and the five metrics are
 * computed from them, the errors are broken down by sector and reliability,
 * and the observations of the console and of the saved report are chosen
 * by fixed thresholds.
 */
module Evaluation {
  import opened Wrappers
  import opened Seqs
  import opened Text
  import opened Ratios
  import opened Ordering

  // ------------------------------------------------------------ the records

  /**
   * A row of the tagged file as read: the model's answer `Y_N_MODEL`, the
   * tagger's answer `Y_N_TAG` (None for an empty cell), the sector and the
   * reliability label.
   */
  datatype TaggedRow = TaggedRow(
    id: Option<string>,
    content: Option<string>,
    model: Option<string>,
    tag: Option<string>,
    sector: string,
    reliability: string)

  /** A row after loading, its two answers in the cleaned form. */
  datatype Record = Record(
    id: Option<string>,
    content: Option<string>,
    model: string,
    tag: string,
    sector: string,
    reliability: string)

  /** `astype(str).str.strip().str.upper()` on one cell. */
  function CleanAnswer(cell: Option<string>): string {
    Upper(Strip(CellText(cell)))
  }

  function Cleaned(x: TaggedRow): Record {
    Record(x.id, x.content, CleanAnswer(x.model), CleanAnswer(x.tag), x.sector, x.reliability)
  }

  /** The frame after the two columns are cleaned, row by row. */
  function CleanAll(raw: seq<TaggedRow>): (r: seq<Record>)
    ensures |r| == |raw| && forall i :: 0 <= i < |raw| ==> r[i] == Cleaned(raw[i])
  {
    seq(|raw|, i requires 0 <= i < |raw| => Cleaned(raw[i]))
  }

  predicate IsAnswer(v: string) {
    v == "YES" || v == "NO"
  }

  /** Both answers are in `valid_values`. */
  predicate IsValid(x: Record) {
    IsAnswer(x.model) && IsAnswer(x.tag)
  }

  const Valid: Record -> bool := (x: Record) => IsValid(x)
  const Invalid: Record -> bool := (x: Record) => !IsValid(x)

  /** The frame `load_tagged_data` keeps: the cleaned rows whose two answers are valid, in file order. */
  function Loaded(raw: seq<TaggedRow>): seq<Record> {
    Filter(CleanAll(raw), Valid)
  }

  /**
   * Loading keeps, in order, exactly the rows whose cleaned answers are
   * both YES or NO, and drops every row with an invalid answer, so the
   * kept and the dropped rows add up to the file.
   */
  lemma LoadedRows(raw: seq<TaggedRow>)
    ensures IsSubsequence(Loaded(raw), CleanAll(raw))
    ensures forall x :: x in CleanAll(raw) ==> (x in Loaded(raw) <==> IsValid(x))
    ensures forall i :: 0 <= i < |Loaded(raw)| ==> IsValid(Loaded(raw)[i])
    ensures |Loaded(raw)| + |Filter(CleanAll(raw), Invalid)| == |raw|
  {
    FilterIsSubsequence(CleanAll(raw), Valid);
    FilterMembers(CleanAll(raw), Valid);
    FilterPartition(CleanAll(raw), Valid, Invalid);
  }

  // ---------------------------------------------------- the confusion matrix

  /** The mask `(Y_N_MODEL == m) & (Y_N_TAG == t)`. */
  function Cell(m: string, t: string): Record -> bool {
    (x: Record) => x.model == m && x.tag == t
  }

  datatype Confusion = Confusion(tp: nat, fp: nat, tn: nat, fn: nat)

  function ConfusionOf(df: seq<Record>): Confusion {
    Confusion(|Filter(df, Cell("YES", "YES"))|, |Filter(df, Cell("YES", "NO"))|,
              |Filter(df, Cell("NO", "NO"))|, |Filter(df, Cell("NO", "YES"))|)
  }

  function Total(c: Confusion): nat {
    c.tp + c.fp + c.tn + c.fn
  }

  /** Every valid record lies in exactly one of the four cells, so the cells add up to the frame. */
  lemma {:induction false} CellsCoverFrame(df: seq<Record>)
    requires forall i :: 0 <= i < |df| ==> IsValid(df[i])
    ensures Total(ConfusionOf(df)) == |df|
  {
    if df != [] {
      var x, t := df[0], df[1..];
      assert df == [x] + t;
      CellsCoverFrame(t);
      FilterCons(x, t, Cell("YES", "YES"));
      FilterCons(x, t, Cell("YES", "NO"));
      FilterCons(x, t, Cell("NO", "NO"));
      FilterCons(x, t, Cell("NO", "YES"));
    }
  }

  /** The stored error lists hold exactly the false positives and the false negatives, as many as the matrix counts. */
  lemma ErrorListsExact(df: seq<Record>)
    ensures forall x :: x in df ==> (x in Filter(df, Cell("YES", "NO")) <==> x.model == "YES" && x.tag == "NO")
    ensures forall x :: x in df ==> (x in Filter(df, Cell("NO", "YES")) <==> x.model == "NO" && x.tag == "YES")
    ensures |Filter(df, Cell("YES", "NO"))| == ConfusionOf(df).fp
    ensures |Filter(df, Cell("NO", "YES"))| == ConfusionOf(df).fn
  {
    FilterMembers(df, Cell("YES", "NO"));
    FilterMembers(df, Cell("NO", "YES"));
  }

  // ------------------------------------------------------------- the metrics

  datatype Metrics = Metrics(precision: real, recall: real, f1: real, accuracy: real, specificity: real)

  /** `2PR / (P + R)`, or 0 when `P + R` is 0. */
  function F1(p: real, r: real): real {
    if p + r > 0.0 then 2.0 * (p * r) / (p + r) else 0.0
  }

  function MetricsOf(c: Confusion): Metrics {
    var p := SafeRatio(c.tp, c.tp + c.fp);
    var r := SafeRatio(c.tp, c.tp + c.fn);
    Metrics(p, r, F1(p, r), SafeRatio(c.tp + c.tn, Total(c)), SafeRatio(c.tn, c.tn + c.fp))
  }

  /** A count over a count that contains it lies in [0, 1]; 0 when the whole is 0. */
  lemma PartRatio(a: nat, b: nat)
    requires a <= b
    ensures 0.0 <= SafeRatio(a, b) <= 1.0
    ensures SafeRatio(a, b) == 1.0 <==> b > 0 && a == b
    ensures SafeRatio(a, b) == 0.0 <==> a == 0
  {
    if b > 0 {
      Fraction(a, b);
      var q := SafeRatio(a, b);
      assert q * b as real == a as real;
    }
  }

  /** The harmonic mean of two positive rates lies between them. */
  lemma F1Between(p: real, r: real)
    requires p > 0.0 && r > 0.0
    ensures F1(p, r) >= (if p <= r then p else r)
    ensures F1(p, r) <= (if p <= r then r else p)
  {
    var n, s := 2.0 * (p * r), p + r;
    assert F1(p, r) == n / s;
    RatioCompare(n, s, p);
    RatioCompare(n, s, r);
    if p <= r {
      assert p * (r - p) >= 0.0 && r * (r - p) >= 0.0;
      assert n - p * s == p * (r - p);
      assert r * s - n == r * (r - p);
    } else {
      assert r * (p - r) >= 0.0 && p * (p - r) >= 0.0;
      assert n - r * s == r * (p - r);
      assert p * s - n == p * (p - r);
    }
  }

  /**
   * The five metrics lie in [0, 1]; precision and recall are 1 exactly
   * when nothing of their kind was missed, accuracy is 1 exactly when there
   * are records and no errors, and F1 is 0 exactly when precision and
   * recall are both 0 (that is, when there is no true positive).
   */
  lemma MetricsMeaning(c: Confusion)
    ensures var m := MetricsOf(c);
      0.0 <= m.precision <= 1.0 && 0.0 <= m.recall <= 1.0 && 0.0 <= m.f1 <= 1.0 &&
      0.0 <= m.accuracy <= 1.0 && 0.0 <= m.specificity <= 1.0
    ensures MetricsOf(c).precision == 1.0 <==> c.tp > 0 && c.fp == 0
    ensures MetricsOf(c).recall == 1.0 <==> c.tp > 0 && c.fn == 0
    ensures MetricsOf(c).accuracy == 1.0 <==> Total(c) > 0 && c.fp == 0 && c.fn == 0
    ensures MetricsOf(c).f1 == 0.0 <==> MetricsOf(c).precision + MetricsOf(c).recall == 0.0
    ensures MetricsOf(c).f1 == 0.0 <==> c.tp == 0
  {
    var m := MetricsOf(c);
    PartRatio(c.tp, c.tp + c.fp);
    PartRatio(c.tp, c.tp + c.fn);
    PartRatio(c.tp + c.tn, Total(c));
    PartRatio(c.tn, c.tn + c.fp);
    if c.tp > 0 {
      F1Between(m.precision, m.recall);
    }
  }

  // ------------------------------------------------------------ the segments

  function SectorKey(x: Record): string { x.sector }
  function ReliabilityKey(x: Record): string { x.reliability }

  /** The mask `df['Sector'] == s`. */
  function SectorIs(s: string): Record -> bool {
    KeyIs(SectorKey, s)
  }

  /** The mask `df['Reliability_Score'] == v`. */
  function ReliabilityIs(v: string): Record -> bool {
    KeyIs(ReliabilityKey, v)
  }

  lemma SectorIsAt(s: string, x: Record)
    ensures SectorIs(s)(x) <==> x.sector == s
  {
    assert SectorIs(s)(x) == (SectorKey(x) == s);
  }

  lemma ReliabilityIsAt(v: string, x: Record)
    ensures ReliabilityIs(v)(x) <==> x.reliability == v
  {
    assert ReliabilityIs(v)(x) == (ReliabilityKey(x) == v);
  }

  function SectorColumn(df: seq<Record>): (c: seq<string>)
    ensures |c| == |df| && forall i :: 0 <= i < |df| ==> c[i] == df[i].sector
  {
    seq(|df|, i requires 0 <= i < |df| => df[i].sector)
  }

  function ReliabilityColumn(df: seq<Record>): (c: seq<string>)
    ensures |c| == |df| && forall i :: 0 <= i < |df| ==> c[i] == df[i].reliability
  {
    seq(|df|, i requires 0 <= i < |df| => df[i].reliability)
  }

  /** One line of a breakdown table: the rows of one value, their four cells and their accuracy. */
  datatype Segment = Segment(key: string, total: nat, counts: Confusion, accuracy: real)

  function SegmentOf(df: seq<Record>, key: string, p: Record -> bool): Segment {
    var part := Filter(df, p);
    var c := ConfusionOf(part);
    Segment(key, |part|, c, SafeRatio(c.tp + c.tn, |part|))
  }

  /**
   * Over valid records a segment's four counts add up to its size, and its
   * accuracy is the share of its correct rows (0 for an empty segment).
   */
  lemma SegmentSums(df: seq<Record>, key: string, p: Record -> bool)
    requires forall i :: 0 <= i < |df| ==> IsValid(df[i])
    ensures var g := SegmentOf(df, key, p);
      Total(g.counts) == g.total && 0.0 <= g.accuracy <= 1.0 &&
      (g.total > 0 ==> g.accuracy * g.total as real == (g.counts.tp + g.counts.tn) as real) &&
      (g.total == 0 ==> g.accuracy == 0.0)
  {
    var part := Filter(df, p);
    ValidFiltered(df, p);
    CellsCoverFrame(part);
    var c := ConfusionOf(part);
    PartRatio(c.tp + c.tn, |part|);
  }

  /** Rows selected from valid records are valid. */
  lemma ValidFiltered(df: seq<Record>, p: Record -> bool)
    requires forall i :: 0 <= i < |df| ==> IsValid(df[i])
    ensures forall i :: 0 <= i < |Filter(df, p)| ==> IsValid(Filter(df, p)[i])
  {
    var part := Filter(df, p);
    FilterMembers(df, p);
    forall i | 0 <= i < |part| ensures IsValid(part[i]) {
      assert part[i] in df;
    }
  }

  /** The lines of a breakdown table, one per listed value of `key`. */
  function SegmentTable(df: seq<Record>, key: Record -> string, keys: seq<string>): (t: seq<Segment>)
    ensures |t| == |keys| && forall i :: 0 <= i < |keys| ==> t[i] == SegmentOf(df, keys[i], KeyIs(key, keys[i]))
  {
    seq(|keys|, i requires 0 <= i < |keys| => SegmentOf(df, keys[i], KeyIs(key, keys[i])))
  }

  /** The table by sector, in sorted sector order. */
  function SectorTable(df: seq<Record>): seq<Segment> {
    SegmentTable(df, SectorKey, SortStrings(Distinct(SectorColumn(df))))
  }

  /** The table by reliability, in sorted reliability order. */
  function ReliabilityTable(df: seq<Record>): seq<Segment> {
    SegmentTable(df, ReliabilityKey, SortStrings(Distinct(ReliabilityColumn(df))))
  }

  /** A sorted list of the values a column takes holds each of them once. */
  lemma SortedValues(col: seq<string>)
    ensures var ks := SortStrings(Distinct(col));
      NoRepeats(ks) && (forall i :: 0 <= i < |col| ==> col[i] in ks) && (forall k :: k in ks ==> k in col)
  {
    var d := Distinct(col);
    var ks := SortStrings(d);
    NoRepeatsPermuted(d, ks);
    forall i | 0 <= i < |col| ensures col[i] in ks {
      assert col[i] in multiset(d);
    }
    forall k | k in ks ensures k in col {
      assert k in multiset(d);
    }
  }

  /** The sector table has one line per sector, and its lines add up to the frame. */
  lemma SectorTableCovers(df: seq<Record>)
    ensures var keys := SortStrings(Distinct(SectorColumn(df)));
      GroupSizes(df, SectorKey, keys) == |df|
  {
    var keys := SortStrings(Distinct(SectorColumn(df)));
    SortedValues(SectorColumn(df));
    forall x | x in df ensures SectorKey(x) in keys {
      var i :| 0 <= i < |df| && df[i] == x;
      assert SectorColumn(df)[i] == x.sector;
    }
    GroupSizesCover(df, SectorKey, keys);
  }

  // ----------------------------------------------------- the worst segments

  /** The false positives plus false negatives of one sector. */
  function SectorErrors(df: seq<Record>, sector: string): nat {
    var c := ConfusionOf(Filter(df, SectorIs(sector)));
    c.fp + c.fn
  }

  /** A value with the number of errors counted for it. */
  datatype Tally = Tally(key: string, errors: nat)

  function Errors(t: seq<Tally>): (e: seq<int>)
    ensures |e| == |t| && forall i :: 0 <= i < |t| ==> e[i] == t[i].errors
  {
    seq(|t|, i requires 0 <= i < |t| => t[i].errors)
  }

  /** `sectors[k]` has the most errors, and every sector listed before it has fewer. */
  predicate FirstWorst(df: seq<Record>, sectors: seq<string>, k: nat)
    requires k < |sectors|
  {
    (forall j :: 0 <= j < |sectors| ==> SectorErrors(df, sectors[j]) <= SectorErrors(df, sectors[k])) &&
    (forall j :: 0 <= j < k ==> SectorErrors(df, sectors[j]) < SectorErrors(df, sectors[k]))
  }

  /** The sectors of a frame, in order of first appearance. */
  function Sectors(df: seq<Record>): seq<string> {
    Distinct(SectorColumn(df))
  }

  /** A frame has a sector exactly when it has a row. */
  lemma SectorsOfFrame(df: seq<Record>)
    ensures |Sectors(df)| > 0 <==> |df| > 0
  {
    if |df| > 0 {
      assert SectorColumn(df)[0] in Sectors(df);
    }
  }

  /** The `(sector, errors)` pairs of the worst-sector search, in the frame's sector order. */
  method SectorErrorList(df: seq<Record>, sectors: seq<string>) returns (list: seq<Tally>)
    ensures |list| == |sectors|
    ensures forall i :: 0 <= i < |sectors| ==> list[i] == Tally(sectors[i], SectorErrors(df, sectors[i]))
  {
    list := [];
    var k := 0;
    while k < |sectors|
      invariant 0 <= k <= |sectors| && |list| == k
      invariant forall i :: 0 <= i < k ==> list[i] == Tally(sectors[i], SectorErrors(df, sectors[i]))
    {
      var part := Filter(df, SectorIs(sectors[k]));
      var fp := |Filter(part, Cell("YES", "NO"))|;
      var fn := |Filter(part, Cell("NO", "YES"))|;
      list := list + [Tally(sectors[k], fp + fn)];
      k := k + 1;
    }
  }

  // ------------------------------------------------------ the cross analysis

  /** The mask of the errors, `(YES, NO) | (NO, YES)`. */
  predicate IsError(x: Record) {
    (x.model == "YES" && x.tag == "NO") || (x.model == "NO" && x.tag == "YES")
  }

  function ModelSays(v: string): Record -> bool {
    (x: Record) => x.model == v
  }

  /** `errors_df`. */
  function ErrorRows(df: seq<Record>): seq<Record> {
    Filter(df, IsError)
  }

  /** The errors of one sector. */
  function ErrorsInSector(df: seq<Record>, sector: string): nat {
    |Filter(ErrorRows(df), SectorIs(sector))|
  }

  function ErrorCounts(df: seq<Record>, sectors: seq<string>): (e: seq<int>)
    ensures |e| == |sectors| && forall i :: 0 <= i < |sectors| ==> e[i] == ErrorsInSector(df, sectors[i])
  {
    seq(|sectors|, i requires 0 <= i < |sectors| => ErrorsInSector(df, sectors[i]))
  }

  /** The sector with the most errors, the first of them in order of first appearance. */
  function WorstErrorSector(df: seq<Record>): (w: string)
    requires |df| > 0
    ensures w in Sectors(df)
    ensures forall s :: s in Sectors(df) ==> ErrorsInSector(df, s) <= ErrorsInSector(df, w)
    ensures exists k :: (0 <= k < |Sectors(df)| && Sectors(df)[k] == w &&
                         forall j :: 0 <= j < k ==> ErrorsInSector(df, Sectors(df)[j]) < ErrorsInSector(df, w))
  {
    SectorsOfFrame(df);
    var sectors := Sectors(df);
    var k := FirstMax(ErrorCounts(df, sectors));
    sectors[k]
  }

  /** One line of the focus: a reliability of the worst sector with its errors, split into FP and FN, and its reports. */
  datatype Split = Split(reliability: string, errors: nat, fp: nat, fn: nat, reports: nat)

  function SplitOf(df: seq<Record>, sector: string, errs: seq<Record>, rel: string): Split {
    var relErrors := Filter(errs, ReliabilityIs(rel));
    Split(rel, |relErrors|, |Filter(relErrors, ModelSays("YES"))|, |Filter(relErrors, ModelSays("NO"))|,
          |Filter(Filter(df, SectorIs(sector)), ReliabilityIs(rel))|)
  }

  /** The focus lines, one per reliability in `rels`. */
  function SplitsOf(df: seq<Record>, sector: string, errs: seq<Record>, rels: seq<string>): (r: seq<Split>)
    ensures |r| == |rels|
  {
    if rels == [] then [] else [SplitOf(df, sector, errs, rels[0])] + SplitsOf(df, sector, errs, rels[1..])
  }

  /** The outcome of `analyze_sector_reliability_cross`. */
  datatype Cross =
    | NoErrors
      /** The errors, the worst sector and, unless its name is empty, one line per reliability of its errors in sorted order. */
    | Focus(errorCount: nat, worst: string, splits: seq<Split>)

  /** The errors of the worst sector. */
  function WorstErrors(df: seq<Record>): seq<Record>
    requires |df| > 0
  {
    Filter(ErrorRows(df), SectorIs(WorstErrorSector(df)))
  }

  function CrossOf(df: seq<Record>): Cross {
    var errs := ErrorRows(df);
    if errs == [] then NoErrors
    else
      var w := WorstErrorSector(df);
      Focus(|errs|, w, if w != "" then WorstSplits(df) else [])
  }

  function SplitErrors(splits: seq<Split>): nat {
    if splits == [] then 0 else splits[0].errors + SplitErrors(splits[1..])
  }

  /** The focus lines count the groups of the errors by reliability. */
  lemma {:induction false} SplitsAreGroups(df: seq<Record>, sector: string, errs: seq<Record>, rels: seq<string>)
    ensures SplitErrors(SplitsOf(df, sector, errs, rels)) == GroupSizes(errs, ReliabilityKey, rels)
  {
    if rels != [] {
      SplitsAreGroups(df, sector, errs, rels[1..]);
    }
  }

  /** Errors are valid records whose model said YES or NO, one or the other. */
  lemma ErrorsSayOne(df: seq<Record>, errs: seq<Record>)
    requires multiset(errs) <= multiset(ErrorRows(df))
    ensures forall x :: x in errs ==> (x.model == "YES" <==> x.model != "NO")
  {
    FilterMembers(df, IsError);
    forall x | x in errs ensures x.model == "YES" <==> x.model != "NO" {
      assert x in multiset(ErrorRows(df));
      var i :| 0 <= i < |ErrorRows(df)| && ErrorRows(df)[i] == x;
      assert IsError(x);
    }
  }

  /** Each focus line splits its errors into FP and FN, and they add up to the reports it names. */
  lemma SplitAddsUp(df: seq<Record>, sector: string, rel: string)
    requires |df| > 0
    ensures var s := SplitOf(df, sector, Filter(ErrorRows(df), SectorIs(sector)), rel);
      s.fp + s.fn == s.errors && s.errors <= s.reports
  {
    var errs := ErrorRows(df);
    var se := Filter(errs, SectorIs(sector));
    var relErrors := Filter(se, ReliabilityIs(rel));
    FilterMultiset(errs, SectorIs(sector));
    FilterMultiset(se, ReliabilityIs(rel));
    ErrorsSayOne(df, relErrors);
    FilterPartition(relErrors, ModelSays("YES"), ModelSays("NO"));
    ErrorsInside(df, sector, rel);
  }

  /** The errors of a sector and reliability are among its reports. */
  lemma ErrorsInside(df: seq<Record>, sector: string, rel: string)
    ensures |Filter(Filter(Filter(df, IsError), SectorIs(sector)), ReliabilityIs(rel))| <=
            |Filter(Filter(df, SectorIs(sector)), ReliabilityIs(rel))|
  {
    FilterSwap(df, IsError, SectorIs(sector));
    FilterSwap(Filter(df, SectorIs(sector)), IsError, ReliabilityIs(rel));
  }

  /** Every line's errors are its false positives plus its false negatives. */
  predicate Balanced(ss: seq<Split>) {
    forall i :: 0 <= i < |ss| ==> ss[i].fp + ss[i].fn == ss[i].errors
  }

  /** Every focus line over a sector's errors splits into FP and FN. */
  lemma SplitsAddUp(df: seq<Record>, sector: string, errs: seq<Record>, rels: seq<string>)
    requires |df| > 0 && errs == Filter(ErrorRows(df), SectorIs(sector))
    ensures Balanced(SplitsOf(df, sector, errs, rels))
  {
    forall i | 0 <= i < |rels|
      ensures SplitsOf(df, sector, errs, rels)[i].fp + SplitsOf(df, sector, errs, rels)[i].fn == SplitsOf(df, sector, errs, rels)[i].errors
    {
      SplitsAt(df, sector, errs, rels, i);
      SplitAddsUp(df, sector, rels[i]);
    }
  }

  /** The reliabilities listed for a set of errors are the values of its reliability column. */
  lemma RelsCover(we: seq<Record>)
    ensures var rels := SortStrings(Distinct(ReliabilityColumn(we)));
      NoRepeats(rels) && forall x :: x in we ==> ReliabilityKey(x) in rels
  {
    SortedValues(ReliabilityColumn(we));
    forall x | x in we ensures ReliabilityKey(x) in SortStrings(Distinct(ReliabilityColumn(we))) {
      var i :| 0 <= i < |we| && we[i] == x;
      assert ReliabilityColumn(we)[i] == x.reliability;
    }
  }

  /** The focus lines of the worst sector's reliabilities. */
  function WorstSplits(df: seq<Record>): seq<Split>
    requires |df| > 0
  {
    var we := WorstErrors(df);
    SplitsOf(df, WorstErrorSector(df), we, SortStrings(Distinct(ReliabilityColumn(we))))
  }

  /** The focus lines add up to the worst sector's errors. */
  lemma WorstSplitsSum(df: seq<Record>)
    requires |df| > 0
    ensures SplitErrors(WorstSplits(df)) == ErrorsInSector(df, WorstErrorSector(df))
  {
    var w := WorstErrorSector(df);
    var we := WorstErrors(df);
    var rels := SortStrings(Distinct(ReliabilityColumn(we)));
    RelsCover(we);
    GroupSizesCover(we, ReliabilityKey, rels);
    SplitsAreGroups(df, w, we, rels);
  }

  /** Each focus line of the worst sector splits into FP and FN. */
  lemma WorstSplitsSplit(df: seq<Record>)
    requires |df| > 0
    ensures Balanced(WorstSplits(df))
  {
    var w := WorstErrorSector(df);
    SplitsAddUp(df, w, WorstErrors(df), SortStrings(Distinct(ReliabilityColumn(WorstErrors(df)))));
  }

  /**
   * When there are errors and the worst sector's name is not empty, the
   * focus lines add up to that sector's errors, the largest error count of
   * any sector, and each line splits into FP and FN.
   */
  lemma CrossAddsUp(df: seq<Record>)
    requires CrossOf(df).Focus? && CrossOf(df).worst != ""
    ensures var c := CrossOf(df);
      SplitErrors(c.splits) == ErrorsInSector(df, c.worst) &&
      (forall s :: s in Sectors(df) ==> ErrorsInSector(df, s) <= SplitErrors(c.splits)) &&
      Balanced(c.splits)
  {
    assert |df| > 0;
    assert CrossOf(df).splits == WorstSplits(df);
    WorstSplitsSum(df);
    WorstSplitsSplit(df);
  }

  lemma {:induction false} SplitsAt(df: seq<Record>, sector: string, errs: seq<Record>, rels: seq<string>, i: nat)
    requires i < |rels|
    ensures SplitsOf(df, sector, errs, rels)[i] == SplitOf(df, sector, errs, rels[i])
  {
    if i > 0 {
      SplitsAt(df, sector, errs, rels[1..], i - 1);
    }
  }

  // ------------------------------------------------------------- the verdicts

  /** The interpretation band of the saved report. */
  datatype Grade = Excellent | Good | Fair | Poor

  function GradeOf(accuracy: real): Grade {
    if accuracy >= 0.95 then Excellent
    else if accuracy >= 0.85 then Good
    else if accuracy >= 0.75 then Fair
    else Poor
  }

  function GradeRank(g: Grade): nat {
    match g
    case Poor => 0
    case Fair => 1
    case Good => 2
    case Excellent => 3
  }

  /** A higher accuracy never gets a lower band. */
  lemma GradeMonotone(a: real, b: real)
    requires a <= b
    ensures GradeRank(GradeOf(a)) <= GradeRank(GradeOf(b))
  {
  }

  /** The band of a confusion matrix, read off its counts: Excellent means at most one error in twenty. */
  lemma GradeOfCounts(c: Confusion)
    ensures GradeOf(MetricsOf(c).accuracy) == Excellent <==> Total(c) > 0 && 20 * (c.tp + c.tn) >= 19 * Total(c)
    ensures GradeOf(MetricsOf(c).accuracy) == Poor <==> Total(c) == 0 || 4 * (c.tp + c.tn) < 3 * Total(c)
  {
    var n := Total(c);
    var k := c.tp + c.tn;
    if n > 0 {
      assert MetricsOf(c).accuracy == k as real / n as real;
      RatioCompare(k as real, n as real, 0.95);
      RatioCompare(k as real, n as real, 0.75);
      assert k as real >= 0.95 * n as real <==> 20 * k >= 19 * n;
      assert k as real < 0.75 * n as real <==> 4 * k < 3 * n;
    }
  }

  /** The wording of the accuracy observation. */
  datatype Tone = Promising | Reasonable | Questionable

  function ToneOf(accuracy: real): Tone {
    if accuracy >= 0.90 then Promising
    else if accuracy >= 0.80 then Reasonable
    else Questionable
  }

  function ToneRank(t: Tone): nat {
    match t
    case Questionable => 0
    case Reasonable => 1
    case Promising => 2
  }

  /** A higher accuracy never gets a worse wording, and the report's top band is always read as promising. */
  lemma ToneMonotone(a: real, b: real)
    requires a <= b
    ensures ToneRank(ToneOf(a)) <= ToneRank(ToneOf(b))
    ensures GradeOf(a) == Excellent ==> ToneOf(a) == Promising
    ensures ToneOf(a) == Questionable ==> GradeOf(a) in {Fair, Poor}
  {
  }

  /** The reading of the FP:FN ratio. */
  datatype Balance = OverExtraction | UnderExtraction | Even

  /** No reading unless both kinds of error occur; otherwise by `fp / fn` against 2 and 0.5. */
  function BalanceOf(fp: nat, fn: nat): Option<Balance> {
    if fp > 0 && fn > 0 then
      var ratio := fp as real / fn as real;
      Some(if ratio > 2.0 then OverExtraction else if ratio < 0.5 then UnderExtraction else Even)
    else None
  }

  /** The reading in whole numbers: over-extraction means more than twice as many FPs as FNs. */
  lemma BalanceByCounts(fp: nat, fn: nat)
    ensures BalanceOf(fp, fn).None? <==> fp == 0 || fn == 0
    ensures BalanceOf(fp, fn) == Some(OverExtraction) <==> fn > 0 && fp > 2 * fn
    ensures BalanceOf(fp, fn) == Some(UnderExtraction) <==> fp > 0 && 2 * fp < fn
    ensures BalanceOf(fp, fn) == Some(Even) <==> fp > 0 && fn > 0 && fn <= 2 * fp && fp <= 2 * fn
  {
    if fp > 0 && fn > 0 {
      RatioCompare(fp as real, fn as real, 2.0);
      RatioCompare(fp as real, fn as real, 0.5);
      assert fp as real < 0.5 * fn as real <==> 2 * fp < fn;
    }
  }

  /** Swapping the two counts swaps over- and under-extraction. */
  lemma BalanceMirror(fp: nat, fn: nat)
    ensures BalanceOf(fp, fn) == Some(OverExtraction) <==> BalanceOf(fn, fp) == Some(UnderExtraction)
    ensures BalanceOf(fp, fn) == Some(Even) <==> BalanceOf(fn, fp) == Some(Even)
  {
    BalanceByCounts(fp, fn);
    BalanceByCounts(fn, fp);
  }

  // ------------------------------------------------------------ observations

  predicate FromD4(x: Record) {
    Contains(x.reliability, "D4")
  }

  /** The D4 warning: there are false positives and every one of them has `D4` in its reliability. */
  predicate AllFpFromD4(df: seq<Record>) {
    var fps := Filter(df, Cell("YES", "NO"));
    |fps| > 0 && |Filter(fps, FromD4)| == |fps|
  }

  lemma AllFpFromD4Meaning(df: seq<Record>)
    ensures AllFpFromD4(df) <==>
      (exists x :: x in df && x.model == "YES" && x.tag == "NO") &&
      (forall x :: x in df && x.model == "YES" && x.tag == "NO" ==> FromD4(x))
  {
    var fps := Filter(df, Cell("YES", "NO"));
    FilterFull(fps, FromD4);
    FilterMembers(df, Cell("YES", "NO"));
    forall x | x in df && x.model == "YES" && x.tag == "NO" ensures x in fps {
      var i :| 0 <= i < |df| && df[i] == x;
      assert Cell("YES", "NO")(df[i]);
    }
    if |fps| > 0 {
      assert fps[0] in fps;
    }
  }

  /** The notes of `generate_observations`. */
  datatype Observations = Observations(tone: Tone, fpNote: bool, allFpFromD4: bool, fnNote: bool, balance: Option<Balance>)

  /** The notes for an accuracy and a count of false positives and false negatives; the D4 warning looks at the frame's own FP rows. */
  function ObservationsOf(accuracy: real, fp: nat, fn: nat, df: seq<Record>): (o: Observations)
    ensures o.fpNote <==> fp > 0
    ensures o.fnNote <==> fn > 0
    ensures o.allFpFromD4 ==> o.fpNote
    ensures o.balance.Some? <==> o.fpNote && o.fnNote
  {
    Observations(ToneOf(accuracy), fp > 0, fp > 0 && AllFpFromD4(df), fn > 0, BalanceOf(fp, fn))
  }

  /** The printed observations of a frame. */
  function PrintedObservations(df: seq<Record>): Observations {
    var c := ConfusionOf(df);
    ObservationsOf(MetricsOf(c).accuracy, c.fp, c.fn, df)
  }

  /**
   * The `fp` and `fn` that the observation section of `save_report` reads.
   * The cross analysis reuses both names in its loop over the worst
   * sector's reliabilities, so when that loop runs at least once they hold
   * the counts of its last reliability instead of the confusion matrix's.
   */
  function LeakedCounts(df: seq<Record>): (nat, nat) {
    var c := ConfusionOf(df);
    var cross := CrossOf(df);
    if cross.Focus? && |cross.splits| > 0 then
      var last := cross.splits[|cross.splits| - 1];
      (last.fp, last.fn)
    else (c.fp, c.fn)
  }

  /** The observation section of the saved report as written. */
  function SavedObservationsAsWritten(df: seq<Record>): Observations {
    var (fp, fn) := LeakedCounts(df);
    ObservationsOf(MetricsOf(ConfusionOf(df)).accuracy, fp, fn, df)
  }

  /** The observation section of the saved report read from the confusion matrix, as its headings promise. */
  function SavedObservations(df: seq<Record>): (o: Observations)
    ensures o == PrintedObservations(df)
    ensures o.fpNote <==> exists x :: x in df && x.model == "YES" && x.tag == "NO"
    ensures o.fnNote <==> exists x :: x in df && x.model == "NO" && x.tag == "YES"
  {
    var c := ConfusionOf(df);
    CountOfCell(df, "YES", "NO");
    CountOfCell(df, "NO", "YES");
    ObservationsOf(MetricsOf(c).accuracy, c.fp, c.fn, df)
  }

  /** A cell of the confusion matrix is non-empty exactly when some record falls in it. */
  lemma CountOfCell(df: seq<Record>, m: string, t: string)
    ensures |Filter(df, Cell(m, t))| > 0 <==> exists x :: x in df && x.model == m && x.tag == t
  {
    FilterMembers(df, Cell(m, t));
    if |Filter(df, Cell(m, t))| > 0 {
      assert Filter(df, Cell(m, t))[0] in df;
    }
    if exists x :: x in df && x.model == m && x.tag == t {
      var x :| x in df && x.model == m && x.tag == t;
      var i :| 0 <= i < |df| && df[i] == x;
      assert Cell(m, t)(df[i]);
    }
  }

  /** Without errors to focus on, the saved observations as written are the printed ones. */
  lemma AsWrittenWithoutFocus(df: seq<Record>)
    requires CrossOf(df).NoErrors? || CrossOf(df).worst == ""
    ensures SavedObservationsAsWritten(df) == PrintedObservations(df)
  {
  }

  /**
   * Three records: two false positives in one sector and one false
   * negative in another, all of one reliability, the first sector named.
   */
  predicate LeakShape(a: Record, b: Record, c: Record) {
    a.model == "YES" && a.tag == "NO" && b.model == "YES" && b.tag == "NO" && c.model == "NO" && c.tag == "YES" &&
    a.sector == b.sector && a.sector != c.sector && a.sector != "" &&
    a.reliability == b.reliability == c.reliability
  }

  /** Filtering a three-record frame, one record at a time. */
  lemma FilterThree(a: Record, b: Record, c: Record, p: Record -> bool)
    ensures Filter([a, b, c], p) == (if p(a) then [a] else []) + (if p(b) then [b] else []) + (if p(c) then [c] else [])
  {
    assert [a, b, c] == [a] + [b, c] && [b, c] == [b] + [c] && [c] == [c] + [];
    FilterCons(a, [b, c], p);
    FilterCons(b, [c], p);
    FilterCons(c, [], p);
  }

  /** Every record of such a frame is an error: two false positives and a false negative. */
  lemma LeakFrameErrors(a: Record, b: Record, c: Record)
    requires LeakShape(a, b, c)
    ensures ConfusionOf([a, b, c]).fp == 2 && ConfusionOf([a, b, c]).fn == 1
    ensures ErrorRows([a, b, c]) == [a, b, c]
  {
    FilterThree(a, b, c, Cell("YES", "NO"));
    FilterThree(a, b, c, Cell("NO", "YES"));
    FilterThree(a, b, c, IsError);
  }

  /** The first sector holds two errors and the other one. */
  lemma LeakFrameSectors(a: Record, b: Record, c: Record)
    requires LeakShape(a, b, c)
    ensures ErrorsInSector([a, b, c], a.sector) == 2 && ErrorsInSector([a, b, c], c.sector) == 1
    ensures Filter(ErrorRows([a, b, c]), SectorIs(a.sector)) == [a, b]
  {
    LeakFrameErrors(a, b, c);
    SectorIsAt(a.sector, a); SectorIsAt(a.sector, b); SectorIsAt(a.sector, c);
    SectorIsAt(c.sector, a); SectorIsAt(c.sector, b); SectorIsAt(c.sector, c);
    FilterThree(a, b, c, SectorIs(a.sector));
    FilterThree(a, b, c, SectorIs(c.sector));
  }

  /** The worst sector of such a frame is the first. */
  lemma LeakFrameWorst(a: Record, b: Record, c: Record)
    requires LeakShape(a, b, c)
    ensures WorstErrorSector([a, b, c]) == a.sector && WorstErrors([a, b, c]) == [a, b]
  {
    var df := [a, b, c];
    LeakFrameSectors(a, b, c);
    assert SectorColumn(df)[0] == a.sector;
    assert a.sector in Sectors(df);
    forall s | s in Sectors(df) ensures s == a.sector || s == c.sector {
      var i :| 0 <= i < |SectorColumn(df)| && SectorColumn(df)[i] == s;
    }
  }

  /** Two records of one reliability list that reliability once. */
  lemma OneReliability(a: Record, b: Record)
    requires a.reliability == b.reliability
    ensures SortStrings(Distinct(ReliabilityColumn([a, b]))) == [a.reliability]
  {
    var v := a.reliability;
    var col := ReliabilityColumn([a, b]);
    assert col == [v, v];
    assert col[..1] == [v] && [v][..0] == [];
    assert Distinct(col) == [v];
    var rels := SortStrings([v]);
    assert |multiset(rels)| == 1;
    assert rels[0] in multiset([v]);
  }

  /** Two false positives of one reliability make a focus line without false negatives. */
  lemma TwoFalsePositives(df: seq<Record>, sector: string, a: Record, b: Record)
    requires a.model == "YES" && b.model == "YES" && a.reliability == b.reliability
    ensures SplitOf(df, sector, [a, b], a.reliability).fn == 0
  {
    var v := a.reliability;
    ReliabilityIsAt(v, a);
    ReliabilityIsAt(v, b);
    var we := [a, b];
    assert we[1..] == [b] && [b][1..] == [];
    assert Filter(we, ReliabilityIs(v)) == we;
    assert Filter(we, ModelSays("NO")) == [];
  }

  /** The worst sector's errors share one reliability, so its focus is a single line without false negatives. */
  lemma LeakFrameSplits(a: Record, b: Record, c: Record)
    requires LeakShape(a, b, c)
    ensures WorstSplits([a, b, c]) == [SplitOf([a, b, c], a.sector, [a, b], a.reliability)]
    ensures SplitOf([a, b, c], a.sector, [a, b], a.reliability).fn == 0
  {
    LeakFrameWorst(a, b, c);
    OneReliability(a, b);
    TwoFalsePositives([a, b, c], a.sector, a, b);
  }

  /** Such a frame makes the saved report, as written, drop the FN note and the balance note that the printed observations carry. */
  lemma LeakShapeDropsNotes(a: Record, b: Record, c: Record)
    requires LeakShape(a, b, c)
    ensures PrintedObservations([a, b, c]).fnNote && PrintedObservations([a, b, c]).balance.Some?
    ensures !SavedObservationsAsWritten([a, b, c]).fnNote && SavedObservationsAsWritten([a, b, c]).balance.None?
  {
    var df := [a, b, c];
    LeakFrameErrors(a, b, c);
    LeakFrameWorst(a, b, c);
    LeakFrameSplits(a, b, c);
    var cross := CrossOf(df);
    assert cross.splits == WorstSplits(df);
    assert LeakedCounts(df).1 == 0;
  }

  /** Two false positives in sector A and one false negative in sector B, all of reliability X. */
  lemma LeakCounterexample()
    ensures var df := [Record(Some("1"), Some("a"), "YES", "NO", "A", "X"),
                       Record(Some("2"), Some("b"), "YES", "NO", "A", "X"),
                       Record(Some("3"), Some("c"), "NO", "YES", "B", "X")];
      PrintedObservations(df).fnNote && !SavedObservationsAsWritten(df).fnNote
  {
    LeakShapeDropsNotes(Record(Some("1"), Some("a"), "YES", "NO", "A", "X"),
                        Record(Some("2"), Some("b"), "YES", "NO", "A", "X"),
                        Record(Some("3"), Some("c"), "NO", "YES", "B", "X"));
  }

  // ----------------------------------------------- the saved report's verdicts

  /** Counting a sector's errors through its confusion matrix or through the error rows gives the same number. */
  lemma SectorErrorsAgree(df: seq<Record>, sector: string)
    ensures SectorErrors(df, sector) == ErrorsInSector(df, sector)
  {
    var part := Filter(df, SectorIs(sector));
    FilterSwap(df, IsError, SectorIs(sector));
    FilterDisjoint(part, Cell("YES", "NO"), Cell("NO", "YES"), IsError);
  }

  /** The errors of one line of a breakdown table. */
  function Err(g: Segment): nat {
    g.counts.fp + g.counts.fn
  }

  /** `t[k]` has the most errors and every line before it has fewer. */
  predicate FirstMost(t: seq<Segment>, k: int) {
    0 <= k < |t| && (forall j :: 0 <= j < |t| ==> Err(t[j]) <= Err(t[k])) && (forall j :: 0 <= j < k ==> Err(t[j]) < Err(t[k]))
  }

  /** `t[k]` has the fewest errors and every line before it has more. */
  predicate FirstLeast(t: seq<Segment>, k: int) {
    0 <= k < |t| && (forall j :: 0 <= j < |t| ==> Err(t[k]) <= Err(t[j])) && (forall j :: 0 <= j < k ==> Err(t[k]) < Err(t[j]))
  }

  /** `t[k]` has the most errors and every line after it has fewer. */
  predicate LastMost(t: seq<Segment>, k: int) {
    0 <= k < |t| && (forall j :: 0 <= j < |t| ==> Err(t[j]) <= Err(t[k])) && (forall j :: k < j < |t| ==> Err(t[j]) < Err(t[k]))
  }

  function ErrList(t: seq<Segment>): (e: seq<int>)
    ensures |e| == |t| && forall i :: 0 <= i < |t| ==> e[i] == Err(t[i])
  {
    seq(|t|, i requires 0 <= i < |t| => Err(t[i]))
  }

  /** A sorted list of a column's values is empty exactly when the column is. */
  lemma SortedValuesEmpty(col: seq<string>)
    ensures |SortStrings(Distinct(col))| == 0 <==> |col| == 0
  {
    var d := Distinct(col);
    assert |multiset(SortStrings(d))| == |multiset(d)|;
    if |col| > 0 {
      assert col[0] in d;
    }
  }

  /** The "Key Findings" of the saved report's sector section: the worst line, named only when it has errors, and the best. */
  datatype SectorVerdict = SectorVerdict(worst: Option<Segment>, best: Segment)

  /**
   * Over the sector table in sorted order: a stable sort by errors in
   * descending order puts the first line with the most errors at its head,
   * and `min` returns the first line with the fewest. An empty table fails
   * on reading the head of the sorted list.
   */
  function SectorVerdictOf(t: seq<Segment>): (r: Result<SectorVerdict, string>)
    ensures r.Failure? <==> |t| == 0
    ensures r.Success? ==> exists k :: FirstLeast(t, k) && t[k] == r.value.best
    ensures r.Success? ==> (r.value.worst.Some? <==> exists j :: 0 <= j < |t| && Err(t[j]) > 0)
    ensures r.Success? && r.value.worst.Some? ==> exists k :: FirstMost(t, k) && t[k] == r.value.worst.value
  {
    if |t| == 0 then Failure("IndexError: list index out of range")
    else
      var w := FirstMax(ErrList(t));
      var b := FirstMin(ErrList(t));
      assert FirstMost(t, w) && FirstLeast(t, b);
      Success(SectorVerdict(if Err(t[w]) > 0 then Some(t[w]) else None, t[b]))
  }

  /** The sector verdict of a frame fails exactly when the frame has no rows. */
  function SectorFindings(df: seq<Record>): (r: Result<SectorVerdict, string>)
    ensures r.Failure? <==> |df| == 0
  {
    SortedValuesEmpty(SectorColumn(df));
    SectorVerdictOf(SectorTable(df))
  }

  /** The observations of the saved report's reliability section: the first line of a stable ascending sort by errors, and the last. */
  datatype ReliabilityVerdict = ReliabilityVerdict(best: Segment, worst: Segment)

  function ReliabilityVerdictOf(t: seq<Segment>): (r: Option<ReliabilityVerdict>)
    ensures r.None? <==> |t| == 0
    ensures r.Some? ==> exists k :: FirstLeast(t, k) && t[k] == r.value.best
    ensures r.Some? ==> exists k :: LastMost(t, k) && t[k] == r.value.worst
  {
    if |t| == 0 then None
    else
      var b := FirstMin(ErrList(t));
      var w := LastMax(ErrList(t));
      assert FirstLeast(t, b) && LastMost(t, w);
      Some(ReliabilityVerdict(t[b], t[w]))
  }

  /** The reliability verdict of a frame is missing exactly when the frame has no rows. */
  function ReliabilityFindings(df: seq<Record>): (r: Option<ReliabilityVerdict>)
    ensures r.None? <==> |df| == 0
  {
    SortedValuesEmpty(ReliabilityColumn(df));
    ReliabilityVerdictOf(ReliabilityTable(df))
  }

  /** The errors whose reliability mentions D4, for the key insight. */
  function D4Errors(df: seq<Record>): (n: nat)
    ensures n <= |ErrorRows(df)|
    ensures n == |ErrorRows(df)| <==> forall x :: x in ErrorRows(df) ==> FromD4(x)
  {
    FilterFull(ErrorRows(df), FromD4);
    |Filter(ErrorRows(df), FromD4)|
  }

  // ------------------------------------------------------------ the evaluator

  /** The evaluator's state: the loaded frame, the confusion matrix, the metrics and the two error lists. */
  class PerformanceEvaluator {
    var df: seq<Record>
    var confusion: Option<Confusion>
    var metrics: Option<Metrics>
    var falsePositives: seq<Record>
    var falseNegatives: seq<Record>

    constructor ()
      ensures df == [] && confusion.None? && metrics.None? && falsePositives == [] && falseNegatives == []
    {
      df := [];
      confusion := None;
      metrics := None;
      falsePositives := [];
      falseNegatives := [];
    }

    /** Keeps the rows of the tagged file whose two cleaned answers are YES or NO. */
    method LoadTaggedData(raw: seq<TaggedRow>)
      modifies this
      ensures df == Loaded(raw)
      ensures confusion == old(confusion) && metrics == old(metrics)
      ensures falsePositives == old(falsePositives) && falseNegatives == old(falseNegatives)
    {
      df := Loaded(raw);
    }

    /** Counts the four cells and keeps the FP and FN rows. */
    method CalculateConfusionMatrix()
      modifies this
      ensures confusion == Some(ConfusionOf(df))
      ensures falsePositives == Filter(df, Cell("YES", "NO")) && falseNegatives == Filter(df, Cell("NO", "YES"))
      ensures df == old(df) && metrics == old(metrics)
    {
      confusion := Some(ConfusionOf(df));
      falsePositives := Filter(df, Cell("YES", "NO"));
      falseNegatives := Filter(df, Cell("NO", "YES"));
    }

    /** The five rates of the stored confusion matrix. */
    method CalculateMetrics()
      requires confusion.Some?
      modifies this
      ensures df == old(df) && confusion == old(confusion)
      ensures metrics == Some(MetricsOf(confusion.value))
      ensures falsePositives == old(falsePositives) && falseNegatives == old(falseNegatives)
    {
      metrics := Some(MetricsOf(confusion.value));
    }

    /**
     * The worst sector of `analyze_errors_by_sector`: the errors of each
     * sector, sorted by count in descending order by a stable sort, and the
     * head taken. It is the sector with the most errors, the first of them in
     * order of first appearance on a tie; a frame without rows has none.
     */
    method AnalyzeErrorsBySector() returns (worst: Option<Tally>)
      ensures worst.None? <==> |df| == 0
      ensures worst.Some? ==>
        (exists k :: 0 <= k < |Sectors(df)| && Sectors(df)[k] == worst.value.key && FirstWorst(df, Sectors(df), k)) &&
        worst.value.errors == SectorErrors(df, worst.value.key)
    {
      var sectors := Sectors(df);
      SectorsOfFrame(df);
      if |sectors| == 0 {
        return None;
      }
      var list := SectorErrorList(df, sectors);
      var k := FirstMax(Errors(list));
      worst := Some(list[k]);
      assert FirstWorst(df, sectors, k);
    }

    /** The notes of `generate_observations`, read from the stored matrix and metrics. */
    method GenerateObservations() returns (o: Observations)
      requires confusion.Some? && metrics.Some?
      ensures o == ObservationsOf(metrics.value.accuracy, confusion.value.fp, confusion.value.fn, df)
      ensures confusion == Some(ConfusionOf(df)) && metrics == Some(MetricsOf(ConfusionOf(df))) ==> o == PrintedObservations(df)
    {
      o := ObservationsOf(metrics.value.accuracy, confusion.value.fp, confusion.value.fn, df);
    }
  }

  /**
   * `run_evaluation`: the observations describe the loaded frame's own
   * confusion matrix, and the run reports success (`True`) exactly when
   * `save_report` gets through its sector and reliability findings. On a
   * file with no valid record, `sector_errors[0]` raises `IndexError`, which
   * the `except` turns into `False`.
   */
  method RunEvaluation(raw: seq<TaggedRow>) returns (ok: bool, o: Observations, worst: Option<Tally>)
    ensures ok <==> |Loaded(raw)| > 0
    ensures o == PrintedObservations(Loaded(raw))
    ensures worst.None? <==> |Loaded(raw)| == 0
    ensures worst.Some? ==> worst.value.errors == SectorErrors(Loaded(raw), worst.value.key)
  {
    var e := new PerformanceEvaluator();
    e.LoadTaggedData(raw);
    e.CalculateConfusionMatrix();
    e.CalculateMetrics();
    worst := e.AnalyzeErrorsBySector();
    o := e.GenerateObservations();
    var sectorFindings := SectorFindings(e.df);
    var reliabilityFindings := ReliabilityFindings(e.df);
    ok := sectorFindings.Success? && reliabilityFindings.Some?;
  }
}
