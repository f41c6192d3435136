/**
 * The tagging sample generator (src/tagging_generator.py,
 * `TaggingSampleGenerator`) as an object: the frame it was given, the
 * sample it hands to the tagger and the IDs of the rows chosen as edge
 * cases, with the operations that fill them in; then the two columns of
 * the tagging file the model derives, and the reason tally of the tagging
 * report.
 */
module Tagging {
  import opened Wrappers
  import opened Seqs
  import opened Reports
  import opened Text
  import opened Scoring
  import opened Selection
  import opened Sampler

  // ------------------------------------------------------------ the object

  class TaggingSampleGenerator {
    /** `self.df`, the frame being sampled. */
    var rows: seq<Report>
    /** `self.sample`, empty until `GenerateSample` runs. */
    var sample: seq<Report>
    /** `self.edge_case_ids`. */
    var edgeCaseIds: set<string>
    /** The seeded draws (`random_state=42`). */
    const pick: Oracle

    constructor (df: seq<Report>, pick: Oracle)
      ensures rows == df && sample == [] && edgeCaseIds == {} && this.pick == pick
    {
      rows := df;
      sample := [];
      edgeCaseIds := {};
      this.pick := pick;
    }

    /**
     * `calculate_edge_case_scores`: every row gets the table's score and
     * its reasons joined by ", "; nothing else changes.
     */
    method CalculateEdgeCaseScores()
      modifies this
      ensures rows == Scored(old(rows))
      ensures sample == old(sample) && edgeCaseIds == old(edgeCaseIds)
    {
      var df := rows;
      var scored: seq<Report> := [];
      var i := 0;
      while i < |df|
        invariant 0 <= i <= |df|
        invariant scored == Scored(df[..i])
        invariant rows == df && sample == old(sample) && edgeCaseIds == old(edgeCaseIds)
      {
        var r := ScoreOne(df[i]);
        ScoredSnoc(df, i, scored, r);
        scored := scored + [r];
        i := i + 1;
      }
      assert df[..i] == df;
      rows := scored;
    }

    /**
     * `generate_sample`: score the frame, draw 40 positive rows, 40
     * negative rows avoiding them and 20 edge cases avoiding both, drop
     * repeated IDs (refilling by score if any were dropped) and shuffle.
     * The sample holds rows of the scored frame with unique IDs, as many as
     * the three draws could find together, and every edge-case ID is in it.
     */
    method GenerateSample() returns (result: seq<Report>)
      requires UniqueIds(rows)
      modifies this
      ensures rows == Scored(old(rows))
      ensures result == sample
      ensures multiset(sample) <= multiset(rows) && UniqueIds(sample)
      ensures |sample| == Min(PositiveShare(rows) + NegativeShare(rows) + 20, |rows|)
      ensures edgeCaseIds <= IdSet(sample)
      ensures |edgeCaseIds| == Min(20, |rows| - PositiveShare(rows) - NegativeShare(rows))
    {
      ghost var before := rows;
      CalculateEdgeCaseScores();
      ScoringKeepsIds(before);
      sample, edgeCaseIds := DrawSample(rows, pick);
      result := sample;
    }
  }

  /**
   * The draws of `generate_sample` on the scored frame `rows`: 40 positive
   * rows, 40 negative rows avoiding them and 20 edge cases avoiding both;
   * repeated IDs are dropped (and refilled by score if any were dropped)
   * and the result is shuffled. The sample holds rows of the frame with
   * unique IDs, as many as the three draws could find together, and every
   * edge-case ID is in it.
   */
  method DrawSample(rows: seq<Report>, pick: Oracle) returns (sample: seq<Report>, edgeIds: set<string>)
    requires UniqueIds(rows)
    ensures multiset(sample) <= multiset(rows) && UniqueIds(sample)
    ensures |sample| == Min(PositiveShare(rows) + NegativeShare(rows) + 20, |rows|)
    ensures edgeIds <= IdSet(sample)
    ensures |edgeIds| == Min(20, |rows| - PositiveShare(rows) - NegativeShare(rows))
  {
    var pos;
    ghost var stage;
    pos, stage := SelectPositiveSamples(rows, 40, {}, pick);
    var selected := IdSet(pos);
    var neg := NegativeSamples(rows, 40, selected, pick);
    selected := selected + IdSet(neg);
    var edge := EdgeCases(rows, 20, selected);
    edgeIds := IdSet(edge);
    var combined := pos + neg + edge;
    var deduped := DedupIds(combined);
    var merged := deduped;
    if |deduped| < |combined| {
      var missing := |combined| - |deduped|;
      merged := deduped + TopK(Exclude(rows, IdSet(deduped)), missing);
    }
    AllDraws(rows, pos, pick);
    DedupKeepsUnique(combined);
    sample := Shuffle(merged, pick);
    ShuffledDraws(rows, combined, edge, pick);
  }

  /**
   * After the positive draw `pos`, the negative draw and the edge cases
   * that avoid it make three draws whose sizes add up to the shares of the
   * frame, with unique IDs, edge cases included once each.
   */
  lemma AllDraws(rows: seq<Report>, pos: seq<Report>, pick: Oracle)
    requires UniqueIds(rows)
    requires forall i :: 0 <= i < |pos| ==> pos[i].hasCoordinate == 1
    requires multiset(pos) <= multiset(rows)
    requires |pos| == Min(40, |Pool(rows, 1, {})|)
    ensures var neg := NegativeSamples(rows, 40, IdSet(pos), pick);
      var edge := EdgeCases(rows, 20, IdSet(pos) + IdSet(neg));
      multiset(pos + neg + edge) <= multiset(rows) && UniqueIds(pos + neg + edge) &&
      UniqueIds(edge) && IdSet(edge) <= IdSet(pos + neg + edge) &&
      |pos + neg + edge| == Min(PositiveShare(rows) + NegativeShare(rows) + 20, |rows|) &&
      |edge| == Min(20, |rows| - PositiveShare(rows) - NegativeShare(rows))
  {
    var neg := NegativeSamples(rows, 40, IdSet(pos), pick);
    var edge := EdgeCases(rows, 20, IdSet(pos) + IdSet(neg));
    DrawSizes(rows, pos, pick);
    ThreeDraws(rows, pos, neg, edge);
  }

  /** Shuffling the three draws keeps them rows of the frame with unique IDs, edge cases included. */
  lemma ShuffledDraws(rows: seq<Report>, combined: seq<Report>, edge: seq<Report>, pick: Oracle)
    requires UniqueIds(rows) && multiset(combined) <= multiset(rows)
    requires UniqueIds(edge) && IdSet(edge) <= IdSet(combined)
    ensures var sample := Shuffle(combined, pick);
      multiset(sample) <= multiset(rows) && UniqueIds(sample) && |sample| == |combined| &&
      IdSet(edge) <= IdSet(sample) && |IdSet(edge)| == |edge|
  {
    var sample := Shuffle(combined, pick);
    ShufflePermutes(combined, pick);
    assert |sample| == |multiset(sample)| == |multiset(combined)| == |combined|;
    PermutedIds(sample, combined);
    IdSetSize(edge);
    SubFrameUnique(sample, rows);
  }

  // ------------------------------------------------- what the draws add up to

  /** How many rows the positive draw takes from a frame: `min(40, rows with a coordinate)`. */
  function PositiveShare(rows: seq<Report>): nat {
    Min(40, |Filter(rows, HasCoordinateIs(1))|)
  }

  /** How many rows the negative draw takes from a frame: `min(40, rows without a coordinate)`. */
  function NegativeShare(rows: seq<Report>): nat {
    Min(40, |Filter(rows, HasCoordinateIs(0))|)
  }

  /**
   * On a frame with unique IDs, the positive draw (nothing excluded) takes
   * `PositiveShare` rows, and the negative draw that avoids those rows
   * loses nothing by the exclusion and takes `NegativeShare` rows, none of
   * them positive.
   */
  lemma DrawSizes(rows: seq<Report>, pos: seq<Report>, pick: Oracle)
    requires UniqueIds(rows)
    requires forall i :: 0 <= i < |pos| ==> pos[i].hasCoordinate == 1
    requires multiset(pos) <= multiset(rows)
    requires |pos| == Min(40, |Pool(rows, 1, {})|)
    ensures |pos| == PositiveShare(rows)
    ensures var neg := NegativeSamples(rows, 40, IdSet(pos), pick);
      |neg| == NegativeShare(rows) && multiset(neg) <= multiset(rows) && UniqueIds(neg) &&
      forall i :: 0 <= i < |neg| ==> neg[i].hasCoordinate == 0 && neg[i].id !in IdSet(pos)
  {
    ExcludeNothing(Filter(rows, HasCoordinateIs(1)));
    DrawnMembers(pos, rows);
    LabelsApart(rows, pos, 1, 0);
    NegativeSamplesFacts(rows, 40, IdSet(pos), pick);
  }

  /**
   * The negative draw and the edge cases avoid the IDs drawn before them,
   * so the three draws end to end are rows of the frame with unique IDs,
   * and the edge cases take `min(20, what the first two draws left)`.
   */
  lemma ThreeDraws(rows: seq<Report>, pos: seq<Report>, neg: seq<Report>, edge: seq<Report>)
    requires UniqueIds(rows)
    requires multiset(pos) <= multiset(rows)
    requires multiset(neg) <= multiset(rows)
    requires forall i :: 0 <= i < |neg| ==> neg[i].id !in IdSet(pos)
    requires edge == EdgeCases(rows, 20, IdSet(pos) + IdSet(neg))
    ensures multiset(pos + neg + edge) <= multiset(rows)
    ensures UniqueIds(pos + neg + edge)
    ensures UniqueIds(edge) && IdSet(edge) <= IdSet(pos + neg + edge)
    ensures |edge| == Min(20, |rows| - |pos| - |neg|)
  {
    OutsideIds(neg, rows, IdSet(pos));
    AppendDraws(pos, neg, rows);
    LeftInPool(pos + neg, rows);
    EdgeCasesFacts(rows, 20, IdSet(pos + neg));
    OutsideIds(edge, rows, IdSet(pos + neg));
    AppendDraws(pos + neg, edge, rows);
    SubFrameUnique(pos + neg + edge, rows);
  }

  // ------------------------------------------------------ the tagging file

  /** The "Yes"/"No" cells of the tagging file. */
  function YesNo(b: bool): string {
    if b then "Yes" else "No"
  }

  /**
   * A row of the tagging file: the report's own columns, the model's answer
   * `Y_N_MODEL`, the two empty columns the tagger fills in (`Y_N_TAG`,
   * `Tagged_Coordinate`) and the `Is_Edge_Case` flag.
   */
  datatype TaggingRow = TaggingRow(
    id: string,
    content: Option<string>,
    ynModel: string,
    ynTag: string,
    taggedCoordinate: string,
    isEdgeCase: string,
    sector: Option<string>,
    reliability: Option<string>)

  function TaggingRowOf(x: Report, edgeIds: set<string>): TaggingRow {
    TaggingRow(x.id, x.content, YesNo(x.hasCoordinate == 1), "", "",
               YesNo(x.id in edgeIds), x.sector, x.reliability)
  }

  /** The rows of `create_tagging_file`, one per sampled report, in sample order. */
  function TaggingFile(sample: seq<Report>, edgeIds: set<string>): (t: seq<TaggingRow>)
    ensures |t| == |sample|
  {
    if sample == [] then [] else [TaggingRowOf(sample[0], edgeIds)] + TaggingFile(sample[1..], edgeIds)
  }

  lemma {:induction false} TaggingFileAt(sample: seq<Report>, edgeIds: set<string>, i: nat)
    requires i < |sample|
    ensures TaggingFile(sample, edgeIds)[i] == TaggingRowOf(sample[i], edgeIds)
  {
    if i > 0 {
      TaggingFileAt(sample[1..], edgeIds, i - 1);
    }
  }

  /**
   * Each row of the tagging file is its report's row: `Y_N_MODEL` is "Yes"
   * exactly when the report has a coordinate and "No" otherwise,
   * `Is_Edge_Case` is "Yes" exactly when the report was drawn as an edge
   * case and "No" otherwise, and the tagger's two columns start empty.
   */
  lemma TaggingColumns(sample: seq<Report>, edgeIds: set<string>, i: nat)
    requires i < |sample|
    ensures var t := TaggingFile(sample, edgeIds)[i];
      t.id == sample[i].id && t.content == sample[i].content &&
      (t.ynModel == "Yes" <==> sample[i].hasCoordinate == 1) &&
      (t.ynModel == "No" <==> sample[i].hasCoordinate != 1) &&
      (t.isEdgeCase == "Yes" <==> sample[i].id in edgeIds) &&
      (t.isEdgeCase == "No" <==> sample[i].id !in edgeIds) &&
      t.ynTag == "" && t.taggedCoordinate == ""
  {
    TaggingFileAt(sample, edgeIds, i);
  }

  /** A test on tagging rows that agrees with a test on the reports selects as many rows. */
  lemma {:induction false} TaggingFileFilter(sample: seq<Report>, edgeIds: set<string>, p: TaggingRow -> bool, q: Report -> bool)
    requires forall x :: p(TaggingRowOf(x, edgeIds)) == q(x)
    ensures |Filter(TaggingFile(sample, edgeIds), p)| == |Filter(sample, q)|
  {
    if sample != [] {
      var x, t := sample[0], sample[1..];
      assert sample == [x] + t;
      TaggingFileFilter(t, edgeIds, p, q);
      FilterCons(x, t, q);
      FilterCons(TaggingRowOf(x, edgeIds), TaggingFile(t, edgeIds), p);
    }
  }

  const SaysYes: TaggingRow -> bool := (t: TaggingRow) => t.ynModel == "Yes"
  const Flagged: TaggingRow -> bool := (t: TaggingRow) => t.isEdgeCase == "Yes"

  /** The file answers "Yes" for exactly the sampled reports that have a coordinate. */
  lemma ModelYesCount(sample: seq<Report>, edgeIds: set<string>)
    ensures |Filter(TaggingFile(sample, edgeIds), SaysYes)| == |Filter(sample, HasCoordinateIs(1))|
  {
    TaggingFileFilter(sample, edgeIds, SaysYes, HasCoordinateIs(1));
  }

  /**
   * When the sample has unique IDs and holds every edge-case ID, as
   * `GenerateSample` leaves it, exactly as many rows are flagged as edge
   * cases as there are edge-case IDs.
   */
  lemma FlaggedCount(sample: seq<Report>, edgeIds: set<string>)
    requires UniqueIds(sample) && edgeIds <= IdSet(sample)
    ensures |Filter(TaggingFile(sample, edgeIds), Flagged)| == |edgeIds|
  {
    TaggingFileFilter(sample, edgeIds, Flagged, IdIn(edgeIds));
    IdInSize(sample, edgeIds);
    assert edgeIds * IdSet(sample) == edgeIds;
  }

  // ------------------------------------------------------- the reason tally

  /** The list `generate_tagging_report` builds: every non-empty reasons cell split on ", ", in sample order. */
  function ReasonsOf(sample: seq<Report>): seq<string> {
    if sample == [] then []
    else ReasonsOf(sample[..|sample| - 1]) + ReasonList(sample[|sample| - 1].edgeReasons)
  }

  /** The report's loop that gathers the reasons of the sample. */
  method AllReasons(sample: seq<Report>) returns (all: seq<string>)
    ensures all == ReasonsOf(sample)
  {
    all := [];
    var i := 0;
    while i < |sample|
      invariant 0 <= i <= |sample|
      invariant all == ReasonsOf(sample[..i])
    {
      var reasons := sample[i].edgeReasons;
      assert sample[..i + 1][..i] == sample[..i];
      if reasons != "" {
        all := all + Split(reasons, ", ");
      }
      i := i + 1;
    }
    assert sample[..i] == sample;
  }

  /** A row whose reasons cell is the one scoring writes for it. */
  predicate CarriesReasons(x: Report) {
    x.edgeReasons == ReasonsText(x)
  }

  /** Every row of a scored frame carries its reasons. */
  lemma ScoredCarryReasons(rows: seq<Report>, i: nat)
    requires i < |rows|
    ensures CarriesReasons(Scored(rows)[i])
  {
    MapRowsAt(rows, ScoredRow, i);
    SameCellsSameTriggered(ScoredRow(rows[i]), rows[i]);
  }

  /** Every row drawn from a scored frame carries its reasons, so the tally below applies to the sample. */
  lemma SampleCarriesReasons(before: seq<Report>, sample: seq<Report>)
    requires multiset(sample) <= multiset(Scored(before))
    ensures forall i :: 0 <= i < |sample| ==> CarriesReasons(sample[i])
  {
    forall i | 0 <= i < |sample| ensures CarriesReasons(sample[i]) {
      assert sample[i] in multiset(Scored(before));
      var j :| 0 <= j < |Scored(before)| && Scored(before)[j] == sample[i];
      ScoredCarryReasons(before, j);
    }
  }

  function HoldsOn(r: Reason): Report -> bool {
    x => Holds(r, x)
  }

  /**
   * On rows that carry their reasons, the `Counter` of the gathered list
   * counts for each reason the rows for which its condition holds.
   */
  lemma {:induction false} ReasonTally(sample: seq<Report>, r: Reason)
    requires forall i :: 0 <= i < |sample| ==> CarriesReasons(sample[i])
    ensures Count(ReasonsOf(sample), Tag(r)) == |Filter(sample, HoldsOn(r))|
  {
    if sample != [] {
      var m := |sample| - 1;
      var init, x := sample[..m], sample[m];
      assert sample == init + [x];
      ReasonTally(init, r);
      CountConcat(ReasonsOf(init), ReasonList(x.edgeReasons), Tag(r));
      ReasonsRoundTrip(x);
      TagCount(x, r);
      FilterConcat(init, [x], HoldsOn(r));
    }
  }
}
