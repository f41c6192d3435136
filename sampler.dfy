/**
 * The stratified tagging sampler (src/tagging_generator.py,
 * `TaggingSampleGenerator`): it scores every report, draws 40 reports with
 * a coordinate, 40 without and 20 edge cases, none of them twice, and
 * shuffles the result into the sample handed to the human tagger.
 *
 * Every seeded draw (`random_state=42`) is the oracle `pick` of `Draw`.
 */
module Sampler {
  import opened Wrappers
  import opened Seqs
  import opened Text
  import opened Reports
  import opened Scoring
  import opened Selection

  // ---------------------------------------------------------------- scoring

  /** A report with its `edge_score` and `edge_reasons` cells filled in. */
  function ScoredRow(row: Report): (r: Report)
    ensures r.(edgeScore := row.edgeScore, edgeReasons := row.edgeReasons) == row
  {
    row.(edgeScore := TableScore(row), edgeReasons := ReasonsText(row))
  }

  /** The scorer's loop body, given the derived columns of a row, computes that row's scored version. */
  lemma ScoreRowIsScored(row: Report, score: int, reasons: seq<string>)
    requires score == SumWeights(TriggeredWith(row, FeaturesOf(row.content)))
    requires reasons == Tags(TriggeredWith(row, FeaturesOf(row.content)))
    ensures row.(edgeScore := score, edgeReasons := Join(reasons, ", ")) == ScoredRow(row)
  {
  }

  /**
   * The scorer's work on one row: the ten tests on the row's derived
   * columns, then its score and its reasons joined by ", " written in.
   */
  method ScoreOne(row: Report) returns (r: Report)
    ensures r == ScoredRow(row)
  {
    var score, reasons := ScoreRow(row, FeaturesOf(row.content));
    ScoreRowIsScored(row, score, reasons);
    r := row.(edgeScore := score, edgeReasons := Join(reasons, ", "));
  }

  /** `f` applied to every row, in order. */
  function MapRows(rows: seq<Report>, f: Report -> Report): (r: seq<Report>)
    ensures |r| == |rows|
  {
    if rows == [] then [] else [f(rows[0])] + MapRows(rows[1..], f)
  }

  lemma {:induction false} MapRowsAt(rows: seq<Report>, f: Report -> Report, i: nat)
    requires i < |rows|
    ensures MapRows(rows, f)[i] == f(rows[i])
  {
    if i > 0 {
      MapRowsAt(rows[1..], f, i - 1);
    }
  }

  lemma {:induction false} MapRowsSnoc(rows: seq<Report>, f: Report -> Report, x: Report)
    ensures MapRows(rows + [x], f) == MapRows(rows, f) + [f(x)]
  {
    if rows != [] {
      assert (rows + [x])[1..] == rows[1..] + [x];
      MapRowsSnoc(rows[1..], f, x);
    }
  }

  /** The frame after `calculate_edge_case_scores`. */
  function Scored(rows: seq<Report>): (r: seq<Report>)
    ensures |r| == |rows|
  {
    MapRows(rows, ScoredRow)
  }

  /** Scoring one more row of a frame extends the scored prefix by that row's scored version. */
  lemma ScoredSnoc(rows: seq<Report>, i: nat, scored: seq<Report>, r: Report)
    requires i < |rows| && scored == Scored(rows[..i]) && r == ScoredRow(rows[i])
    ensures scored + [r] == Scored(rows[..i + 1])
  {
    PrefixSnoc(rows, i);
    MapRowsSnoc(rows[..i], ScoredRow, rows[i]);
  }

  /**
   * A scored report carries the score and reasons of the table, the score
   * lies between the two bounds the weights allow, and its reasons text
   * splits back into the tags of the conditions that hold.
   */
  lemma ScoredRowFacts(row: Report)
    ensures ScoredRow(row).edgeScore == TableScore(row)
    ensures 0 <= ScoredRow(row).edgeScore <= 26
    ensures ReasonList(ScoredRow(row).edgeReasons) == Tags(Triggered(row))
  {
    TableScoreBound(row);
    ReasonsRoundTrip(row);
  }

  /** Scoring looks only at the columns it does not write, so scoring twice changes nothing. */
  lemma ScoringIdempotent(row: Report)
    ensures ScoredRow(ScoredRow(row)) == ScoredRow(row)
  {
    SameCellsSameTriggered(ScoredRow(row), row);
  }

  /** Scoring keeps the rows, their order and their IDs. */
  lemma ScoringKeepsIds(rows: seq<Report>)
    ensures Ids(Scored(rows)) == Ids(rows)
    ensures IdSet(Scored(rows)) == IdSet(rows)
    ensures UniqueIds(Scored(rows)) <==> UniqueIds(rows)
  {
    forall i | 0 <= i < |rows| ensures Scored(rows)[i].id == rows[i].id {
      MapRowsAt(rows, ScoredRow, i);
    }
    SameIdColumn(Scored(rows), rows);
  }

  // ------------------------------------------------------------- the pools

  /** The mask `Has_Coordinate == v`. */
  function HasCoordinateIs(v: int): Report -> bool {
    (r: Report) => r.hasCoordinate == v
  }

  /**
   * The mask `Sector == sector`. Comparing with NaN is false for every row,
   * so the missing sector selects nothing.
   */
  function InSector(sector: Option<string>): Report -> bool {
    (r: Report) => sector.Some? && r.sector == sector
  }

  /** The `Sector` column. */
  function Sectors(s: seq<Report>): (r: seq<Option<string>>)
    ensures |r| == |s| && forall i :: 0 <= i < |s| ==> r[i] == s[i].sector
  {
    if s == [] then [] else [s[0].sector] + Sectors(s[1..])
  }

  /** The rows with `Has_Coordinate == v` whose IDs are not excluded. */
  function Pool(df: seq<Report>, v: int, exclude: set<string>): seq<Report> {
    Exclude(Filter(df, HasCoordinateIs(v)), exclude)
  }

  /** A pool holds the rows of the frame with the wanted label and an ID not excluded. */
  lemma PoolFacts(df: seq<Report>, v: int, exclude: set<string>)
    ensures forall x :: x in Pool(df, v, exclude) <==> x in df && x.hasCoordinate == v && x.id !in exclude
    ensures multiset(Pool(df, v, exclude)) <= multiset(df)
  {
    var labelled := Filter(df, HasCoordinateIs(v));
    FilterMembers(df, HasCoordinateIs(v));
    FilterMultiset(df, HasCoordinateIs(v));
    ExcludeMembers(labelled, exclude);
    MultisetTrans(multiset(Pool(df, v, exclude)), multiset(labelled), multiset(df));
  }

  /** Rows drawn from a pool of a frame with unique IDs are rows of the frame, with unique IDs, of the pool's label and not excluded. */
  lemma DrawnFromPool(r: seq<Report>, df: seq<Report>, v: int, exclude: set<string>)
    requires UniqueIds(df) && multiset(r) <= multiset(Pool(df, v, exclude))
    ensures forall i :: 0 <= i < |r| ==> r[i].hasCoordinate == v && r[i].id !in exclude
    ensures multiset(r) <= multiset(df) && UniqueIds(r)
  {
    PoolFacts(df, v, exclude);
    DrawnMembers(r, Pool(df, v, exclude));
    MultisetTrans(multiset(r), multiset(Pool(df, v, exclude)), multiset(df));
    SubFrameUnique(r, df);
  }

  /** A pool of a frame with unique IDs has unique IDs. */
  lemma PoolUnique(df: seq<Report>, v: int, exclude: set<string>)
    requires UniqueIds(df)
    ensures UniqueIds(Pool(df, v, exclude))
  {
    PoolFacts(df, v, exclude);
    SubFrameUnique(Pool(df, v, exclude), df);
  }

  lemma MultisetTrans<T>(a: multiset<T>, b: multiset<T>, c: multiset<T>)
    requires a <= b && b <= c
    ensures a <= c
  {
  }

  /** Rows drawn from a pool are rows of the pool. */
  lemma DrawnMembers(r: seq<Report>, pool: seq<Report>)
    requires multiset(r) <= multiset(pool)
    ensures forall i :: 0 <= i < |r| ==> r[i] in pool
  {
    forall i | 0 <= i < |r| ensures r[i] in pool {
      assert r[i] in multiset(r);
    }
  }

  /**
   * Adding to `result` rows drawn from `sub`, a part of the pool whose IDs
   * are not yet in `result`, keeps `result` inside the pool and records the
   * new IDs.
   */
  lemma Extend(result: seq<Report>, chosen: seq<Report>, sub: seq<Report>, pool: seq<Report>)
    requires multiset(result) <= multiset(pool)
    requires multiset(chosen) <= multiset(sub)
    requires multiset(sub) <= multiset(Exclude(pool, IdSet(result)))
    ensures multiset(result + chosen) <= multiset(pool)
    ensures IdSet(result + chosen) == IdSet(result) + IdSet(chosen)
  {
    MultisetTrans(multiset(chosen), multiset(sub), multiset(Exclude(pool, IdSet(result))));
    AppendDraws(result, chosen, pool);
  }

  /**
   * In a pool with unique IDs, the rows whose IDs are not yet drawn number
   * the pool's size less the number drawn.
   */
  lemma LeftInPool(result: seq<Report>, pool: seq<Report>)
    requires UniqueIds(pool) && multiset(result) <= multiset(pool)
    ensures |Exclude(pool, IdSet(result))| == |pool| - |result|
    ensures UniqueIds(result)
  {
    SubFrameUnique(result, pool);
    IdSetSize(result);
    ExcludeSize(pool, IdSet(result));
  }

  /** A filtered, excluded part of a pool lies inside what the exclusion keeps. */
  lemma PartWithin(pool: seq<Report>, ids: set<string>, p: Report -> bool)
    ensures multiset(Filter(Exclude(pool, ids), p)) <= multiset(Exclude(pool, ids))
  {
    FilterMultiset(Exclude(pool, ids), p);
  }

  /** A draw among the `q` best-scoring rows takes rows of the frame. */
  lemma DrawTopWithin(s: seq<Report>, q: nat, k: nat, pick: Oracle)
    ensures multiset(Draw(TopK(s, q), k, pick)) <= multiset(s)
  {
    DrawFromFrame(TopK(s, q), k, pick);
    TopKIsTop(s, q);
    MultisetTrans(multiset(Draw(TopK(s, q), k, pick)), multiset(TopK(s, q)), multiset(s));
  }

  // ------------------------------------------------------ positive samples

  /**
   * One sector's share: `nlargest(size * 2, 'edge_score')` of the sector's
   * rows not yet drawn, then `sample(n=size)` of those, where `size` is the
   * per-sector quota capped by the rows the sector has.
   */
  function SectorSample(sectorRows: seq<Report>, per: nat, pick: Oracle): (r: seq<Report>)
    ensures |r| == Min(per, |sectorRows|)
  {
    Draw(SectorTop(sectorRows, per), Min(per, |sectorRows|), pick)
  }

  /** `nlargest(size * 2, 'edge_score')` of a sector's rows: where its share is drawn from. */
  function SectorTop(sectorRows: seq<Report>, per: nat): seq<Report> {
    TopK(sectorRows, Min(per, |sectorRows|) * 2)
  }

  /** `n // len(sectors)`: the per-sector quota, which never exceeds `n`. */
  function Quota(n: nat, sectors: nat): (q: nat)
    requires sectors > 0
    ensures q <= n && sectors * q <= n
  {
    n / sectors
  }

  /** A nonempty pool has at least one sector. */
  lemma SomeSector(pool: seq<Report>)
    requires pool != []
    ensures |Distinct(Sectors(pool))| > 0
  {
    assert pool[0].sector == Sectors(pool)[0];
  }

  /** The rows of `s` in `sector`. */
  function SectorCount(s: seq<Report>, sector: Option<string>): nat {
    |Filter(s, InSector(sector))|
  }

  /** Appending rows of one sector adds to that sector's count only. */
  lemma AddSector(result: seq<Report>, chosen: seq<Report>, sector: Option<string>)
    requires forall i :: 0 <= i < |chosen| ==> InSector(sector)(chosen[i])
    ensures forall s :: SectorCount(result + chosen, s) == SectorCount(result, s) + (if s == sector then |chosen| else 0)
  {
    forall s ensures SectorCount(result + chosen, s) == SectorCount(result, s) + (if s == sector then |chosen| else 0) {
      FilterConcat(result, chosen, InSector(s));
      if s == sector {
        FilterKeepsAll(chosen, InSector(s));
      } else {
        FilterKeepsNone(chosen, InSector(s));
      }
    }
  }

  lemma QuotaStep(k: nat, per: nat)
    ensures (k + 1) * per == k * per + per
  {
  }

  /** The sector counts bounded by the quota for the sectors visited, and 0 for the others. */
  ghost predicate WithinQuota(result: seq<Report>, visited: seq<Option<string>>, per: nat) {
    forall s :: SectorCount(result, s) <= (if s in visited then per else 0)
  }

  /** No sector has more than `per` rows in `result`. */
  ghost predicate AllWithin(result: seq<Report>, per: nat) {
    forall s :: SectorCount(result, s) <= per
  }

  /** Within the quota of some sectors means within the quota for every sector. */
  lemma QuotaBound(result: seq<Report>, visited: seq<Option<string>>, per: nat)
    requires WithinQuota(result, visited, per)
    ensures AllWithin(result, per)
  {
    forall s ensures SectorCount(result, s) <= per {
      assert SectorCount(result, s) <= (if s in visited then per else 0);
    }
  }

  /**
   * A sector's share is drawn from the sector's `2 * size` best-scoring
   * rows, at most the quota of them: no row of the sector left out of
   * those scores above a row of the share.
   */
  lemma SectorSampleWithin(sectorRows: seq<Report>, per: nat, pick: Oracle)
    ensures multiset(SectorSample(sectorRows, per, pick)) <= multiset(SectorTop(sectorRows, per))
    ensures multiset(SectorSample(sectorRows, per, pick)) <= multiset(sectorRows)
    ensures forall y, x :: y in sectorRows && y !in SectorTop(sectorRows, per) && x in SectorSample(sectorRows, per, pick) ==>
      y.edgeScore <= x.edgeScore
    ensures |SectorSample(sectorRows, per, pick)| <= per
  {
    var size := Min(per, |sectorRows|);
    DrawFromFrame(SectorTop(sectorRows, per), size, pick);
    DrawTopWithin(sectorRows, size * 2, size, pick);
    WithinTopRanks(sectorRows, size * 2, SectorSample(sectorRows, per, pick));
  }

  /**
   * In a pool with unique IDs, excluding the IDs of rows outside a sector
   * leaves that sector's rows whole.
   */
  lemma UntouchedSector(pool: seq<Report>, result: seq<Report>, sector: Option<string>)
    requires UniqueIds(pool) && multiset(result) <= multiset(pool)
    requires Filter(result, InSector(sector)) == []
    ensures Filter(Exclude(pool, IdSet(result)), InSector(sector)) == Filter(pool, InSector(sector))
  {
    var ids := IdSet(result);
    FilterSwap(pool, IdNotIn(ids), InSector(sector));
    FilterMembers(result, InSector(sector));
    FilterMembers(pool, InSector(sector));
    forall x | x in Filter(pool, InSector(sector)) ensures IdNotIn(ids)(x) {
      forall j | 0 <= j < |result| ensures result[j].id != x.id {
        var r := result[j];
        assert !InSector(sector)(r);
        assert r in multiset(pool);
        var a :| 0 <= a < |pool| && pool[a] == x;
        var b :| 0 <= b < |pool| && pool[b] == r;
        assert a != b;
      }
    }
    FilterKeepsAll(Filter(pool, InSector(sector)), IdNotIn(ids));
  }

  /** The rows of `sector` come from that sector's best-scoring rows of the pool. */
  ghost predicate FromSectorTop(result: seq<Report>, pool: seq<Report>, per: nat, sector: Option<string>) {
    multiset(Filter(result, InSector(sector))) <= multiset(SectorTop(Filter(pool, InSector(sector)), per))
  }

  /** With unique IDs, the rows of every sector come from that sector's best-scoring rows of the pool. */
  ghost predicate TopsIfUnique(result: seq<Report>, pool: seq<Report>, per: nat) {
    UniqueIds(pool) ==> FromSectorTops(result, pool, per)
  }

  /** The rows of every sector come from that sector's best-scoring rows of the pool. */
  ghost predicate FromSectorTops(result: seq<Report>, pool: seq<Report>, per: nat) {
    forall s :: FromSectorTop(result, pool, per, s)
  }

  /**
   * The ranking a sector's rows keep: no row of the sector in the pool
   * that is left out of its `2 * size` best scores above a row drawn.
   */
  lemma SectorStageRanks(result: seq<Report>, pool: seq<Report>, per: nat, sector: Option<string>)
    requires FromSectorTop(result, pool, per, sector)
    ensures var rows := Filter(pool, InSector(sector));
      forall y, x :: y in rows && y !in SectorTop(rows, per) && x in Filter(result, InSector(sector)) ==>
        y.edgeScore <= x.edgeScore
  {
    var rows := Filter(pool, InSector(sector));
    WithinTopRanks(rows, Min(per, |rows|) * 2, Filter(result, InSector(sector)));
  }

  /**
   * Appending rows of one sector, drawn from its best-scoring rows of the
   * pool, to rows with none of that sector keeps every sector's rows inside
   * its best-scoring rows of the pool.
   */
  lemma AddSectorTops(result: seq<Report>, chosen: seq<Report>, pool: seq<Report>, sector: Option<string>, per: nat)
    requires FromSectorTops(result, pool, per) && Filter(result, InSector(sector)) == []
    requires forall i :: 0 <= i < |chosen| ==> InSector(sector)(chosen[i])
    requires multiset(chosen) <= multiset(SectorTop(Filter(pool, InSector(sector)), per))
    ensures FromSectorTops(result + chosen, pool, per)
  {
    forall x | x in chosen ensures InSector(sector)(x) {
      var i :| 0 <= i < |chosen| && chosen[i] == x;
    }
    forall s ensures FromSectorTop(result + chosen, pool, per, s) {
      assert FromSectorTop(result, pool, per, s);
      FilterConcat(result, chosen, InSector(s));
      if s == sector {
        FilterKeepsAll(chosen, InSector(s));
      } else {
        FilterKeepsNone(chosen, InSector(s));
      }
    }
  }

  /**
   * A round of the per-sector stage on a sector not visited before draws
   * rows of that sector from its best-scoring rows of the pool.
   */
  lemma TopStep(result: seq<Report>, chosen: seq<Report>, pool: seq<Report>, sector: Option<string>, per: nat, pick: Oracle)
    requires UniqueIds(pool) && multiset(result) <= multiset(pool)
    requires Filter(result, InSector(sector)) == []
    requires var sectorRows := Filter(Exclude(pool, IdSet(result)), InSector(sector));
      (|sectorRows| > 0 ==> chosen == SectorSample(sectorRows, per, pick)) && (|sectorRows| == 0 ==> chosen == [])
    ensures forall i :: 0 <= i < |chosen| ==> InSector(sector)(chosen[i])
    ensures multiset(chosen) <= multiset(SectorTop(Filter(pool, InSector(sector)), per))
  {
    var sectorRows := Filter(Exclude(pool, IdSet(result)), InSector(sector));
    UntouchedSector(pool, result, sector);
    if |sectorRows| > 0 {
      SectorSampleWithin(sectorRows, per, pick);
    }
    assert multiset(chosen) <= multiset(sectorRows);
    OfSector(chosen, Exclude(pool, IdSet(result)), sector);
  }

  /** Rows drawn from a sector's rows are of that sector. */
  lemma OfSector(chosen: seq<Report>, rows: seq<Report>, sector: Option<string>)
    requires multiset(chosen) <= multiset(Filter(rows, InSector(sector)))
    ensures forall i :: 0 <= i < |chosen| ==> InSector(sector)(chosen[i])
  {
    var sectorRows := Filter(rows, InSector(sector));
    DrawnMembers(chosen, sectorRows);
    FilterMembers(rows, InSector(sector));
    forall i | 0 <= i < |chosen| ensures InSector(sector)(chosen[i]) {
      var j :| 0 <= j < |sectorRows| && sectorRows[j] == chosen[i];
    }
  }

  /**
   * A round of the per-sector stage, on the next sector in order of first
   * appearance, keeps every sector's rows inside its best-scoring rows of
   * the pool.
   */
  lemma TopRound(result: seq<Report>, chosen: seq<Report>, pool: seq<Report>, sectors: seq<Option<string>>, k: nat, per: nat, pick: Oracle)
    requires k < |sectors| && forall i, j :: 0 <= i < j < |sectors| ==> sectors[i] != sectors[j]
    requires multiset(result) <= multiset(pool) && WithinQuota(result, sectors[..k], per)
    requires UniqueIds(pool) ==> FromSectorTops(result, pool, per)
    requires var sectorRows := Filter(Exclude(pool, IdSet(result)), InSector(sectors[k]));
      (|sectorRows| > 0 ==> chosen == SectorSample(sectorRows, per, pick)) && (|sectorRows| == 0 ==> chosen == [])
    ensures UniqueIds(pool) ==> FromSectorTops(result + chosen, pool, per)
  {
    if UniqueIds(pool) {
      NotBefore(sectors, k);
      assert SectorCount(result, sectors[k]) <= 0;
      TopStep(result, chosen, pool, sectors[k], per, pick);
      AddSectorTops(result, chosen, pool, sectors[k], per);
    }
  }

  /**
   * One round of the per-sector stage: rows of the round's sector not drawn
   * yet, at most the quota of them, keep the draw inside the pool and every
   * sector within its quota.
   */
  lemma StageStep(result: seq<Report>, chosen: seq<Report>, pool: seq<Report>, sectors: seq<Option<string>>, k: nat, per: nat)
    requires k < |sectors| && forall i, j :: 0 <= i < j < |sectors| ==> sectors[i] != sectors[j]
    requires multiset(result) <= multiset(pool)
    requires WithinQuota(result, sectors[..k], per) && |result| <= k * per
    requires multiset(chosen) <= multiset(Filter(Exclude(pool, IdSet(result)), InSector(sectors[k])))
    requires |chosen| <= per
    ensures multiset(result + chosen) <= multiset(pool)
    ensures IdSet(result + chosen) == IdSet(result) + IdSet(chosen)
    ensures WithinQuota(result + chosen, sectors[..k + 1], per) && |result + chosen| <= (k + 1) * per
  {
    var sectorRows := Filter(Exclude(pool, IdSet(result)), InSector(sectors[k]));
    QuotaStep(k, per);
    PrefixGrows(sectors, k);
    NotBefore(sectors, k);
    PartWithin(pool, IdSet(result), InSector(sectors[k]));
    Extend(result, chosen, sectorRows, pool);
    DrawnMembers(chosen, sectorRows);
    FilterMembers(Exclude(pool, IdSet(result)), InSector(sectors[k]));
    AddSector(result, chosen, sectors[k]);
  }

  /** What one round of the per-sector stage keeps of the stage's invariant. */
  lemma RoundStep(result: seq<Report>, chosen: seq<Report>, pool: seq<Report>, sectors: seq<Option<string>>, k: nat, per: nat, pick: Oracle)
    requires k < |sectors| && forall i, j :: 0 <= i < j < |sectors| ==> sectors[i] != sectors[j]
    requires multiset(result) <= multiset(pool)
    requires WithinQuota(result, sectors[..k], per) && |result| <= k * per
    requires TopsIfUnique(result, pool, per)
    requires var sectorRows := Filter(Exclude(pool, IdSet(result)), InSector(sectors[k]));
      (|sectorRows| > 0 ==> chosen == SectorSample(sectorRows, per, pick)) && (|sectorRows| == 0 ==> chosen == [])
      && multiset(chosen) <= multiset(sectorRows) && |chosen| <= per
    ensures multiset(result + chosen) <= multiset(pool)
    ensures IdSet(result + chosen) == IdSet(result) + IdSet(chosen)
    ensures WithinQuota(result + chosen, sectors[..k + 1], per) && |result + chosen| <= (k + 1) * per
    ensures TopsIfUnique(result + chosen, pool, per)
  {
    TopRound(result, chosen, pool, sectors, k, per, pick);
    StageStep(result, chosen, pool, sectors, k, per);
  }

  /**
   * One round of the per-sector stage: the sector's rows not drawn yet and,
   * when there are any, `SectorSample` of them.
   */
  method SectorRound(pool: seq<Report>, selected: set<string>, sector: Option<string>, per: nat, pick: Oracle)
    returns (chosen: seq<Report>)
    ensures var sectorRows := Filter(Exclude(pool, selected), InSector(sector));
      (|sectorRows| > 0 ==> chosen == SectorSample(sectorRows, per, pick)) && (|sectorRows| == 0 ==> chosen == [])
    ensures multiset(chosen) <= multiset(Filter(Exclude(pool, selected), InSector(sector)))
    ensures |chosen| <= per
  {
    var sectorRows := Filter(Exclude(pool, selected), InSector(sector));
    chosen := [];
    if |sectorRows| > 0 {
      chosen := SectorSample(sectorRows, per, pick);
      SectorSampleWithin(sectorRows, per, pick);
    }
  }

  /**
   * The per-sector stage of `select_positive_samples`: for each sector in
   * order of first appearance, its share of the rows not drawn yet. No
   * sector gives more than the quota `n // len(sectors)`, so the stage
   * never draws more than `n` rows.
   */
  method DrawBySector(pool: seq<Report>, n: nat, pick: Oracle) returns (result: seq<Report>)
    requires pool != []
    ensures multiset(result) <= multiset(pool)
    ensures AllWithin(result, Quota(n, |Distinct(Sectors(pool))|))
    ensures |result| <= n
    ensures TopsIfUnique(result, pool, Quota(n, |Distinct(Sectors(pool))|))
  {
    var sectors := Distinct(Sectors(pool));
    SomeSector(pool);
    var per := Quota(n, |sectors|);
    var selected: set<string> := {};
    result := [];
    var k := 0;
    while k < |sectors|
      invariant 0 <= k <= |sectors|
      invariant selected == IdSet(result)
      invariant multiset(result) <= multiset(pool)
      invariant WithinQuota(result, sectors[..k], per)
      invariant |result| <= k * per
      invariant TopsIfUnique(result, pool, per)
    {
      var chosen := SectorRound(pool, selected, sectors[k], per, pick);
      RoundStep(result, chosen, pool, sectors, k, per, pick);
      result := result + chosen;
      selected := selected + IdSet(chosen);
      k := k + 1;
    }
    QuotaBound(result, sectors[..k], per);
  }

  /**
   * The top-up shared by the positive and negative draws: when fewer than
   * `n` rows were drawn, a random draw of the shortfall from the pool's
   * rows not drawn yet (as many as there are).
   */
  function TopUp(result: seq<Report>, pool: seq<Report>, n: nat, pick: Oracle): seq<Report> {
    if |result| < n then
      var rest := Exclude(pool, IdSet(result));
      if |rest| > 0 then result + Draw(rest, Min(n - |result|, |rest|), pick) else result
    else result
  }

  /**
   * Topping up rows drawn from a pool with unique IDs keeps them inside the
   * pool, and brings a short draw up to `n` rows, or to the whole pool when
   * it has fewer.
   */
  lemma TopUpFacts(result: seq<Report>, pool: seq<Report>, n: nat, pick: Oracle)
    requires UniqueIds(pool) && multiset(result) <= multiset(pool)
    ensures multiset(TopUp(result, pool, n, pick)) <= multiset(pool)
    ensures |TopUp(result, pool, n, pick)| == if |result| < n then Min(n, |pool|) else |result|
  {
    LeftInPool(result, pool);
    if |result| < n {
      var rest := Exclude(pool, IdSet(result));
      if |rest| > 0 {
        DrawFromFrame(rest, Min(n - |result|, |rest|), pick);
        Extend(result, Draw(rest, Min(n - |result|, |rest|), pick), rest, pool);
      }
    }
  }

  /**
   * `select_positive_samples`: the rows with a coordinate and an ID not
   * excluded; all of them when there are fewer than `n`, and otherwise the
   * per-sector stage, a top-up to `n`, and a random cut to `n` (which, as
   * the stage never overshoots, leaves the draw as it is).
   */
  method SelectPositiveSamples(df: seq<Report>, n: nat, exclude: set<string>, pick: Oracle)
    returns (result: seq<Report>, ghost stage: seq<Report>)
    requires UniqueIds(df)
    requires n > 0 || Pool(df, 1, exclude) != []
    ensures forall i :: 0 <= i < |result| ==> result[i].hasCoordinate == 1 && result[i].id !in exclude
    ensures multiset(result) <= multiset(df) && UniqueIds(result)
    ensures |result| == Min(n, |Pool(df, 1, exclude)|)
    ensures |Pool(df, 1, exclude)| < n ==> result == Pool(df, 1, exclude)
    ensures |Pool(df, 1, exclude)| >= n ==>
      var pool := Pool(df, 1, exclude);
      var per := Quota(n, |Distinct(Sectors(pool))|);
      result == TopUp(stage, pool, n, pick) && multiset(stage) <= multiset(pool) && |stage| <= n &&
      AllWithin(stage, per) && TopsIfUnique(stage, pool, per)
  {
    var pool := Pool(df, 1, exclude);
    PoolUnique(df, 1, exclude);
    stage := [];
    if |pool| < n {
      result := pool;
    } else {
      result := DrawBySector(pool, n, pick);
      stage := result;
      TopUpFacts(result, pool, n, pick);
      result := TopUp(result, pool, n, pick);
      if |result| > n {
        result := Draw(result, n, pick);
      }
    }
    DrawnFromPool(result, df, 1, exclude);
  }

  // ------------------------------------------------------ negative samples

  /** `num_count == 0`: the text has no digit run (a missing text counts none). */
  const NoNumbers: Report -> bool := (r: Report) => FeaturesOf(r.content).numCount == 0

  /** `num_count > 0 & six_digit_count == 0`. */
  const NumbersNoSix: Report -> bool :=
    (r: Report) => FeaturesOf(r.content).numCount > 0 && FeaturesOf(r.content).sixCount == 0

  /** `six_digit_count > 0`. */
  const SixDigits: Report -> bool := (r: Report) => FeaturesOf(r.content).sixCount > 0

  /** Every report falls into exactly one of the three negative buckets. */
  lemma BucketsPartition(r: Report)
    ensures NoNumbers(r) || NumbersNoSix(r) || SixDigits(r)
    ensures !(NoNumbers(r) && NumbersNoSix(r)) && !(NoNumbers(r) && SixDigits(r)) && !(NumbersNoSix(r) && SixDigits(r))
  {
    if r.content.Some? && CountFixedDigits(r.content.value, 6) > 0 {
      FixedDigitsGiveRuns(r.content.value, 6);
    }
  }

  /** `rows.sample(n=min(quota, len(rows)))` when `rows` is not empty, and nothing otherwise. */
  function RandomBucket(rows: seq<Report>, quota: nat, pick: Oracle): (r: seq<Report>)
    ensures |r| == Min(quota, |rows|)
  {
    if |rows| > 0 then Draw(rows, Min(quota, |rows|), pick) else []
  }

  /** Bucket 1: 15 rows without numbers (nothing is drawn yet, so nothing is excluded). */
  function NoNumbersBucket(pool: seq<Report>, pick: Oracle): seq<Report> {
    RandomBucket(Filter(pool, NoNumbers), 15, pick)
  }

  /** Bucket 2: 15 rows with numbers but no 6-digit run, among those not drawn yet. */
  function NumbersBucket(pool: seq<Report>, taken: set<string>, pick: Oracle): seq<Report> {
    RandomBucket(Filter(Exclude(pool, taken), NumbersNoSix), 15, pick)
  }

  /** Bucket 3: the 10 best-scoring rows with a 6-digit run, among those not drawn yet. */
  function SixDigitBucket(pool: seq<Report>, taken: set<string>): seq<Report> {
    var potential := Filter(Exclude(pool, taken), SixDigits);
    if |potential| > 0 then TopK(potential, Min(10, |potential|)) else []
  }

  /** The three buckets of `select_negative_samples`, each excluding the IDs of the ones before. */
  function NegativeBuckets(pool: seq<Report>, pick: Oracle): seq<Report> {
    var first := NoNumbersBucket(pool, pick);
    var second := NumbersBucket(pool, IdSet(first), pick);
    first + second + SixDigitBucket(pool, IdSet(first) + IdSet(second))
  }

  /**
   * Bucket 3 is `nlargest(10)` of its rows: at most ten rows, and no row
   * with a 6-digit run left out of it scores above one taken.
   */
  lemma SixDigitBucketIsTop(pool: seq<Report>, taken: set<string>)
    ensures var potential := Filter(Exclude(pool, taken), SixDigits);
      var bucket := SixDigitBucket(pool, taken);
      |bucket| == Min(10, |potential|) &&
      forall y, j :: y in potential && y !in bucket && 0 <= j < |bucket| ==> y.edgeScore <= bucket[j].edgeScore
  {
    var potential := Filter(Exclude(pool, taken), SixDigits);
    TopKRanks(potential, Min(10, |potential|));
  }

  /** A bucket drawn from a part of what the exclusion keeps. */
  lemma BucketWithin(pool: seq<Report>, taken: set<string>, p: Report -> bool, quota: nat, pick: Oracle)
    ensures multiset(RandomBucket(Filter(Exclude(pool, taken), p), quota, pick)) <= multiset(Exclude(pool, taken))
    ensures forall i :: 0 <= i < |RandomBucket(Filter(Exclude(pool, taken), p), quota, pick)| ==>
      p(RandomBucket(Filter(Exclude(pool, taken), p), quota, pick)[i])
  {
    var rows := Filter(Exclude(pool, taken), p);
    PartWithin(pool, taken, p);
    FilterMembers(Exclude(pool, taken), p);
    if |rows| > 0 {
      DrawFromFrame(rows, Min(quota, |rows|), pick);
      MultisetTrans(multiset(RandomBucket(rows, quota, pick)), multiset(rows), multiset(Exclude(pool, taken)));
      DrawnMembers(RandomBucket(rows, quota, pick), rows);
    }
  }

  /** Excluding no IDs keeps the whole frame. */
  lemma ExcludeNothing(s: seq<Report>)
    ensures Exclude(s, {}) == s
  {
    FilterKeepsAll(s, IdNotIn({}));
  }

  /**
   * The buckets take rows of the pool, at most 15 + 15 + 10 of them, the
   * rows of each bucket satisfy its mask, and no row is taken twice.
   */
  lemma NegativeBucketsFacts(pool: seq<Report>, pick: Oracle)
    requires UniqueIds(pool)
    ensures multiset(NegativeBuckets(pool, pick)) <= multiset(pool)
    ensures |NegativeBuckets(pool, pick)| <= 40
    ensures UniqueIds(NegativeBuckets(pool, pick))
    ensures forall x :: x in NoNumbersBucket(pool, pick) ==> NoNumbers(x)
  {
    var first := NoNumbersBucket(pool, pick);
    var second := NumbersBucket(pool, IdSet(first), pick);
    var third := SixDigitBucket(pool, IdSet(first) + IdSet(second));
    ExcludeNothing(pool);
    BucketWithin(pool, {}, NoNumbers, 15, pick);
    assert multiset(first) <= multiset(pool);
    BucketWithin(pool, IdSet(first), NumbersNoSix, 15, pick);
    Extend(first, second, Exclude(pool, IdSet(first)), pool);
    var potential := Filter(Exclude(pool, IdSet(first + second)), SixDigits);
    PartWithin(pool, IdSet(first + second), SixDigits);
    TopKIsTop(potential, Min(10, |potential|));
    Extend(first + second, third, potential, pool);
    LeftInPool(first + second + third, pool);
  }

  /**
   * `select_negative_samples`: the rows without a coordinate and with an ID
   * not excluded; all of them when there are fewer than `n`, and otherwise
   * the three buckets, a top-up to `n`, and, when the buckets alone
   * overshoot a small `n`, `drop_duplicates` and a random cut to `n`.
   */
  function NegativeSamples(df: seq<Report>, n: nat, exclude: set<string>, pick: Oracle): seq<Report> {
    var pool := Pool(df, 0, exclude);
    if |pool| < n then pool
    else
      var result := TopUp(NegativeBuckets(pool, pick), pool, n, pick);
      if |result| > n then Draw(DedupIds(result), n, pick) else result
  }

  /** The negative draw: unlabelled rows, none excluded, no ID twice, `min(n, available)` of them. */
  lemma NegativeSamplesFacts(df: seq<Report>, n: nat, exclude: set<string>, pick: Oracle)
    requires UniqueIds(df)
    ensures var r := NegativeSamples(df, n, exclude, pick);
      (forall i :: 0 <= i < |r| ==> r[i].hasCoordinate == 0 && r[i].id !in exclude) &&
      multiset(r) <= multiset(df) && UniqueIds(r) &&
      |r| == Min(n, |Pool(df, 0, exclude)|)
  {
    var pool := Pool(df, 0, exclude);
    PoolUnique(df, 0, exclude);
    var r := NegativeSamples(df, n, exclude, pick);
    if |pool| >= n {
      var buckets := NegativeBuckets(pool, pick);
      NegativeBucketsFacts(pool, pick);
      TopUpFacts(buckets, pool, n, pick);
      var result := TopUp(buckets, pool, n, pick);
      if |result| > n {
        LeftInPool(result, pool);
        DedupKeepsUnique(result);
        DrawFromFrame(result, n, pick);
        MultisetTrans(multiset(r), multiset(result), multiset(pool));
      }
    }
    DrawnFromPool(r, df, 0, exclude);
  }

  // ------------------------------------------------------------ edge cases

  /**
   * One side of `select_edge_cases`: `nlargest(half)` of the available rows
   * with label `v` when there are at least `half`, and all of them otherwise.
   */
  function EdgePart(available: seq<Report>, v: int, half: nat): seq<Report> {
    var rows := Filter(available, HasCoordinateIs(v));
    if |rows| >= half then TopK(rows, half) else rows
  }

  /**
   * A side holds `min(half, |rows|)` rows of its label, and no row of that
   * label left out of it scores above one taken.
   */
  lemma EdgePartIsTop(available: seq<Report>, v: int, half: nat)
    ensures var rows := Filter(available, HasCoordinateIs(v));
      var part := EdgePart(available, v, half);
      |part| == Min(half, |rows|) && multiset(part) <= multiset(rows) &&
      (forall i :: 0 <= i < |part| ==> part[i].hasCoordinate == v) &&
      forall y, j :: y in rows && y !in part && 0 <= j < |part| ==> y.edgeScore <= part[j].edgeScore
  {
    var rows := Filter(available, HasCoordinateIs(v));
    FilterMembers(available, HasCoordinateIs(v));
    TopKRanks(rows, half);
    TopKIsTop(rows, half);
    DrawnMembers(EdgePart(available, v, half), rows);
  }

  /** Filtering and excluding IDs can be done in either order. */
  lemma FilterExclude(s: seq<Report>, p: Report -> bool, ids: set<string>)
    ensures Exclude(Filter(s, p), ids) == Filter(Exclude(s, ids), p)
  {
    var both := (r: Report) => p(r) && r.id !in ids;
    FilterFilter(s, p, IdNotIn(ids), both);
    FilterFilter(s, IdNotIn(ids), p, both);
  }

  /**
   * In a frame with unique IDs, rows of one label share no ID with the rows
   * of another: excluding their IDs leaves the other label's rows whole.
   */
  lemma LabelsApart(df: seq<Report>, a: seq<Report>, v: int, w: int)
    requires UniqueIds(df) && v != w
    requires forall i :: 0 <= i < |a| ==> a[i] in df && a[i].hasCoordinate == v
    ensures Exclude(Filter(df, HasCoordinateIs(w)), IdSet(a)) == Filter(df, HasCoordinateIs(w))
  {
    var rows := Filter(df, HasCoordinateIs(w));
    FilterMembers(df, HasCoordinateIs(w));
    FilterKeepsAll(rows, IdNotIn(IdSet(a)));
  }

  /**
   * `select_edge_cases`: `n // 2` best-scoring rows with a coordinate and as
   * many without, among the rows not excluded, then a fill by score from
   * the rest of them.
   */
  function EdgeCases(df: seq<Report>, n: nat, exclude: set<string>): seq<Report> {
    var available := Exclude(df, exclude);
    var result := EdgePart(available, 1, n / 2) + EdgePart(available, 0, n / 2);
    if |result| < n then ScoreFill(result, available, n - |result|) else result
  }

  /**
   * The fill by score: the `k` best-scoring rows of the pool whose IDs are
   * not drawn yet, appended to the draw.
   */
  function ScoreFill(result: seq<Report>, pool: seq<Report>, k: nat): seq<Report> {
    result + TopK(Exclude(pool, IdSet(result)), k)
  }

  /**
   * Filling by score keeps the draw inside a pool with unique IDs and adds
   * `k` rows, or as many as the pool has left.
   */
  lemma ScoreFillFacts(result: seq<Report>, pool: seq<Report>, k: nat)
    requires UniqueIds(pool) && multiset(result) <= multiset(pool)
    ensures multiset(ScoreFill(result, pool, k)) <= multiset(pool)
    ensures UniqueIds(ScoreFill(result, pool, k))
    ensures |ScoreFill(result, pool, k)| == |result| + Min(k, |pool| - |result|)
  {
    var rest := Exclude(pool, IdSet(result));
    LeftInPool(result, pool);
    TopKIsTop(rest, k);
    Extend(result, TopK(rest, k), rest, pool);
    SubFrameUnique(ScoreFill(result, pool, k), pool);
  }

  /** Both sides together are rows of the available frame, with unique IDs. */
  lemma EdgeSidesWithin(available: seq<Report>, half: nat)
    requires UniqueIds(available)
    ensures var sides := EdgePart(available, 1, half) + EdgePart(available, 0, half);
      multiset(sides) <= multiset(available) && UniqueIds(sides) &&
      |sides| == Min(half, |Filter(available, HasCoordinateIs(1))|) + Min(half, |Filter(available, HasCoordinateIs(0))|)
  {
    var pos, neg := EdgePart(available, 1, half), EdgePart(available, 0, half);
    var negatives := Filter(available, HasCoordinateIs(0));
    EdgePartIsTop(available, 1, half);
    EdgePartIsTop(available, 0, half);
    FilterMultiset(available, HasCoordinateIs(1));
    FilterMultiset(available, HasCoordinateIs(0));
    MultisetTrans(multiset(pos), multiset(Filter(available, HasCoordinateIs(1))), multiset(available));
    MultisetTrans(multiset(neg), multiset(negatives), multiset(available));
    DrawnMembers(pos, available);
    LabelsApart(available, pos, 1, 0);
    FilterExclude(available, HasCoordinateIs(0), IdSet(pos));
    PartWithin(available, IdSet(pos), HasCoordinateIs(0));
    Extend(pos, neg, negatives, available);
    LeftInPool(pos + neg, available);
  }

  /**
   * The edge cases open with the positive side and then the negative side:
   * each the top `n // 2` of its label by score, when it has that many.
   */
  lemma EdgeCasesOrder(df: seq<Report>, n: nat, exclude: set<string>)
    ensures var available := Exclude(df, exclude);
      var pos, neg := EdgePart(available, 1, n / 2), EdgePart(available, 0, n / 2);
      var r := EdgeCases(df, n, exclude);
      |pos| + |neg| <= |r| && r[..|pos|] == pos && r[|pos|..|pos| + |neg|] == neg
  {
    var available := Exclude(df, exclude);
    var pos, neg := EdgePart(available, 1, n / 2), EdgePart(available, 0, n / 2);
    var r := EdgeCases(df, n, exclude);
    var fill := if |pos + neg| < n then TopK(Exclude(available, IdSet(pos + neg)), n - |pos + neg|) else [];
    assert |pos + neg| < n ==> ScoreFill(pos + neg, available, n - |pos + neg|) == pos + neg + fill;
    assert r == pos + neg + fill;
    ThreePieces(pos, neg, fill);
  }

  /** Filling a draw of at most `n` rows by score brings it to `n` rows, or to the whole pool. */
  lemma FillTo(sides: seq<Report>, pool: seq<Report>, n: nat)
    requires UniqueIds(pool) && multiset(sides) <= multiset(pool) && |sides| <= n
    ensures |sides| < n ==> multiset(ScoreFill(sides, pool, n - |sides|)) <= multiset(pool)
    ensures |sides| < n ==> UniqueIds(ScoreFill(sides, pool, n - |sides|))
    ensures |sides| < n ==> |ScoreFill(sides, pool, n - |sides|)| == Min(n, |pool|)
    ensures |sides| == n ==> UniqueIds(sides) && |sides| == Min(n, |pool|)
  {
    LeftInPool(sides, pool);
    if |sides| < n {
      ScoreFillFacts(sides, pool, n - |sides|);
    }
  }

  /** Two sides of at most `n // 2` rows each make at most `n` rows. */
  lemma Halves(n: nat, p: nat, q: nat)
    ensures Min(n / 2, p) + Min(n / 2, q) <= n
  {
  }

  /** The edge cases drawn from the available rows: rows of them with unique IDs, `min(n, available)` of them. */
  lemma AvailableEdgeCases(available: seq<Report>, n: nat)
    requires UniqueIds(available)
    ensures var sides := EdgePart(available, 1, n / 2) + EdgePart(available, 0, n / 2);
      var r := if |sides| < n then ScoreFill(sides, available, n - |sides|) else sides;
      multiset(r) <= multiset(available) && UniqueIds(r) && |r| == Min(n, |available|)
  {
    EdgeSidesWithin(available, n / 2);
    var sides := EdgePart(available, 1, n / 2) + EdgePart(available, 0, n / 2);
    Halves(n, |Filter(available, HasCoordinateIs(1))|, |Filter(available, HasCoordinateIs(0))|);
    FillTo(sides, available, n);
  }

  /**
   * The edge cases: no excluded ID, rows of the frame with unique IDs, and
   * `min(n, available)` of them.
   */
  lemma EdgeCasesFacts(df: seq<Report>, n: nat, exclude: set<string>)
    requires UniqueIds(df)
    ensures var r := EdgeCases(df, n, exclude);
      (forall i :: 0 <= i < |r| ==> r[i].id !in exclude) &&
      multiset(r) <= multiset(df) && UniqueIds(r) &&
      |r| == Min(n, |Exclude(df, exclude)|)
  {
    var available := Exclude(df, exclude);
    ExcludeMembers(df, exclude);
    SubFrameUnique(available, df);
    AvailableEdgeCases(available, n);
    var r := EdgeCases(df, n, exclude);
    DrawnMembers(r, available);
    forall i | 0 <= i < |r| ensures r[i].id !in exclude {
      assert r[i] in available;
    }
    MultisetTrans(multiset(r), multiset(available), multiset(df));
  }
}
