/**
 * The coordinate extractor's frame pass and its statistics
 * (src/feature_engineering.py, `process_dataframe` and `_calculate_statistics`).
 */
module Extraction {
  import opened Wrappers
  import opened Seqs
  import opened Patterns
  import opened Ratios

  /** The three columns `process_dataframe` adds to a report. */
  datatype Extracted = Extracted(coordinate: Option<string>, pattern: Option<string>, hasCoordinate: int)

  /** One row's new columns: the extraction result and `notna(coordinate).astype(int)`. */
  function Annotate(text: Option<string>): (e: Extracted)
    ensures e.hasCoordinate == (if e.coordinate.Some? then 1 else 0)
    ensures e.coordinate.Some? <==> e.pattern.Some?
    ensures (e.coordinate, e.pattern) == ExtractCoordinate(text)
    ensures e.pattern.Some? ==> exists i :: 1 <= i <= 5 && e.pattern.value == PatternName(i)
  {
    var (c, p) := ExtractCoordinate(text);
    Extracted(c, p, if c.Some? then 1 else 0)
  }

  /** `df['Has_Coordinate'].sum()`. */
  function SumHas(rows: seq<Extracted>): int {
    if rows == [] then 0 else rows[0].hasCoordinate + SumHas(rows[1..])
  }

  /** The labels of the rows that have one, in row order. */
  function PatternColumn(rows: seq<Extracted>): (ps: seq<string>)
    ensures |ps| <= |rows|
  {
    if rows == [] then []
    else (if rows[0].pattern.Some? then [rows[0].pattern.value] else []) + PatternColumn(rows[1..])
  }

  /** `value_counts()`: each value of `ps` with the number of times it occurs. */
  function ValueCounts(ps: seq<string>): map<string, nat> {
    map p | p in ps :: GroupSize(ps, Id, p)
  }

  /** `value_counts().to_dict()` of the non-null labels. */
  function PatternCounts(rows: seq<Extracted>): map<string, nat> {
    ValueCounts(PatternColumn(rows))
  }

  /** The counts of `m` added up over the keys `ks`. */
  function SumOver(m: map<string, nat>, ks: seq<string>): nat
    requires forall i :: 0 <= i < |ks| ==> ks[i] in m
  {
    if ks == [] then 0 else m[ks[0]] + SumOver(m, ks[1..])
  }

  /** A frame produced by `process_dataframe`: flags are 0/1 and agree with the coordinate. */
  predicate WellFlagged(rows: seq<Extracted>) {
    forall i :: 0 <= i < |rows| ==>
      rows[i].hasCoordinate == (if rows[i].coordinate.Some? then 1 else 0) &&
      (rows[i].coordinate.Some? <==> rows[i].pattern.Some?)
  }

  /** With 0/1 flags the flag sum is the number of rows that have a coordinate. */
  lemma {:induction false} SumHasCounts(rows: seq<Extracted>)
    requires WellFlagged(rows)
    ensures SumHas(rows) == |Filter(rows, (r: Extracted) => r.coordinate.Some?)|
    ensures SumHas(rows) == |PatternColumn(rows)|
  {
    if rows != [] {
      SumHasCounts(rows[1..]);
    }
  }

  /**
   * The per-pattern counts are keyed by exactly the labels that occur and
   * add up to the number of rows that have a coordinate.
   */
  lemma PatternCountsSum(rows: seq<Extracted>)
    requires WellFlagged(rows)
    ensures PatternCounts(rows).Keys == set p | p in PatternColumn(rows)
    ensures var ks := Distinct(PatternColumn(rows));
      SumOver(PatternCounts(rows), ks) == SumHas(rows)
  {
    var ps := PatternColumn(rows);
    var ks := Distinct(ps);
    SumOverGroups(ps, ks);
    GroupSizesCover(ps, Id, ks);
    SumHasCounts(rows);
  }

  lemma {:induction false} SumOverGroups(ps: seq<string>, ks: seq<string>)
    requires forall i :: 0 <= i < |ks| ==> ks[i] in ps
    ensures forall i :: 0 <= i < |ks| ==> ks[i] in ValueCounts(ps)
    ensures SumOver(ValueCounts(ps), ks) == GroupSizes(ps, Id, ks)
  {
    if ks != [] {
      SumOverGroups(ps, ks[1..]);
    }
  }

  /** The extractor's `stats` dictionary. */
  class CoordinateExtractor {
    var totalReports: int
    var reportsWithCoordinates: int
    var reportsWithoutCoordinates: int
    var extractionRate: real
    var patternMatches: map<string, nat>

    constructor()
      ensures totalReports == 0 && reportsWithCoordinates == 0 && reportsWithoutCoordinates == 0
      ensures extractionRate == 0.0 && patternMatches == map[]
    {
      totalReports := 0;
      reportsWithCoordinates := 0;
      reportsWithoutCoordinates := 0;
      extractionRate := 0.0;
      patternMatches := map[];
    }

    /** The counts agree with each other and the rate is a percentage. */
    predicate Consistent()
      reads this
    {
      totalReports >= 0 &&
      reportsWithCoordinates + reportsWithoutCoordinates == totalReports &&
      0.0 <= extractionRate <= 100.0
    }

    /**
     * `_calculate_statistics`: the totals, and the rate when there is at
     * least one report; an empty frame leaves the previous rate in place.
     */
    method CalculateStatistics(rows: seq<Extracted>)
      modifies this
      ensures totalReports == |rows| && reportsWithCoordinates == SumHas(rows)
      ensures reportsWithoutCoordinates == |rows| - SumHas(rows)
      ensures extractionRate ==
        if |rows| > 0 then SumHas(rows) as real / |rows| as real * 100.0 else old(extractionRate)
      ensures patternMatches == PatternCounts(rows)
      ensures WellFlagged(rows) && old(Consistent()) ==> Consistent()
    {
      totalReports := |rows|;
      reportsWithCoordinates := SumHas(rows);
      reportsWithoutCoordinates := |rows| - reportsWithCoordinates;
      if totalReports > 0 {
        if WellFlagged(rows) {
          SumHasCounts(rows);
          Percent(SumHas(rows), |rows|);
        }
        extractionRate := reportsWithCoordinates as real / totalReports as real * 100.0;
      }
      patternMatches := PatternCounts(rows);
    }

    /**
     * `process_dataframe`: every report gets its extraction columns, then
     * the statistics are taken over the annotated frame.
     */
    method ProcessDataframe(contents: seq<Option<string>>) returns (rows: seq<Extracted>)
      modifies this
      ensures |rows| == |contents| && forall i :: 0 <= i < |rows| ==> rows[i] == Annotate(contents[i])
      ensures WellFlagged(rows)
      ensures totalReports == |contents| && reportsWithCoordinates == SumHas(rows)
      ensures reportsWithoutCoordinates == |rows| - SumHas(rows)
      ensures extractionRate ==
        if |rows| > 0 then SumHas(rows) as real / |rows| as real * 100.0 else old(extractionRate)
      ensures patternMatches == PatternCounts(rows)
      ensures old(Consistent()) ==> Consistent()
    {
      rows := seq(|contents|, i requires 0 <= i < |contents| => Annotate(contents[i]));
      CalculateStatistics(rows);
    }
  }

  /**
   * The statistics of a processed frame: `with` counts the rows that have a
   * coordinate, `without` (total − with) those that do not, and the rate
   * with/total·100 is a percentage.
   */
  lemma StatisticsMeaning(rows: seq<Extracted>)
    requires WellFlagged(rows)
    ensures var with := SumHas(rows);
      0 <= with <= |rows| &&
      with == |Filter(rows, (r: Extracted) => r.coordinate.Some?)| &&
      |rows| - with == |Filter(rows, (r: Extracted) => r.coordinate.None?)| &&
      (|rows| > 0 ==> 0.0 <= with as real / |rows| as real * 100.0 <= 100.0)
  {
    SumHasCounts(rows);
    FilterPartition(rows, (r: Extracted) => r.coordinate.Some?, (r: Extracted) => r.coordinate.None?);
    if |rows| > 0 {
      Percent(SumHas(rows), |rows|);
    }
  }
}
