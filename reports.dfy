/** The report rows the tagging sampler works on, and their identifiers. */
module Reports {
  import opened Wrappers

  /**
   * One row of the extraction output: the report's own columns, the
   * extractor's columns, and the sampler's `edge_score` / `edge_reasons`.
   * A missing value (NaN) is None. `coordinate` is the text of the
   * `Extracted_Coordinate` cell as loaded.
   */
  datatype Report = Report(
    id: string,
    content: Option<string>,
    sector: Option<string>,
    reliability: Option<string>,
    coordinate: Option<string>,
    pattern: Option<string>,
    hasCoordinate: int,
    edgeScore: int,
    edgeReasons: string)

  /** The `Report_ID` column. */
  function Ids(s: seq<Report>): (ids: seq<string>)
    ensures |ids| == |s| && forall i :: 0 <= i < |s| ==> ids[i] == s[i].id
  {
    if s == [] then [] else [s[0].id] + Ids(s[1..])
  }

  /** The set of `Report_ID`s of a frame. */
  function IdSet(s: seq<Report>): (ids: set<string>)
    ensures forall x :: x in ids <==> exists i :: 0 <= i < |s| && s[i].id == x
  {
    set i | 0 <= i < |s| :: s[i].id
  }

  /** No two rows share a `Report_ID`. */
  predicate UniqueIds(s: seq<Report>) {
    forall i, j :: 0 <= i < j < |s| ==> s[i].id != s[j].id
  }

  /** The IDs of a row followed by a frame. */
  lemma IdSetCons(x: Report, t: seq<Report>)
    ensures IdSet([x] + t) == {x.id} + IdSet(t)
  {
    var s := [x] + t;
    forall y | y in IdSet(s) ensures y in {x.id} + IdSet(t) {
      var i :| 0 <= i < |s| && s[i].id == y;
      if i > 0 {
        assert t[i - 1].id == y;
      }
    }
    forall y | y in IdSet(t) ensures y in IdSet(s) {
      var i :| 0 <= i < |t| && t[i].id == y;
      assert s[i + 1].id == y;
    }
    assert s[0].id == x.id;
  }

  /** The IDs of two frames put end to end. */
  lemma IdSetConcat(a: seq<Report>, b: seq<Report>)
    ensures IdSet(a + b) == IdSet(a) + IdSet(b)
  {
    forall y | y in IdSet(a + b) ensures y in IdSet(a) + IdSet(b) {
      var j :| 0 <= j < |a + b| && (a + b)[j].id == y;
      if j >= |a| {
        assert b[j - |a|].id == y;
      }
    }
    forall y | y in IdSet(a) ensures y in IdSet(a + b) {
      var j :| 0 <= j < |a| && a[j].id == y;
      assert (a + b)[j].id == y;
    }
    forall y | y in IdSet(b) ensures y in IdSet(a + b) {
      var j :| 0 <= j < |b| && b[j].id == y;
      assert (a + b)[|a| + j].id == y;
    }
  }

  /** A row followed by a frame has unique IDs exactly when the frame does and lacks the row's ID. */
  lemma UniqueCons(x: Report, t: seq<Report>)
    ensures UniqueIds([x] + t) <==> UniqueIds(t) && x.id !in IdSet(t)
  {
    var s := [x] + t;
    if UniqueIds(s) {
      forall i, j | 0 <= i < j < |t| ensures t[i].id != t[j].id {
        assert t[i] == s[i + 1] && t[j] == s[j + 1];
      }
      forall i | 0 <= i < |t| ensures t[i].id != x.id {
        assert t[i] == s[i + 1] && s[0] == x;
      }
    }
    if UniqueIds(t) && x.id !in IdSet(t) {
      forall i, j | 0 <= i < j < |s| ensures s[i].id != s[j].id {
        assert s[j] == t[j - 1];
        if i > 0 {
          assert s[i] == t[i - 1];
        } else {
          assert s[i] == x;
        }
      }
    }
  }

  /** Frames whose rows carry the same IDs position by position have the same ID column. */
  lemma SameIdColumn(a: seq<Report>, b: seq<Report>)
    requires |a| == |b| && forall i :: 0 <= i < |a| ==> a[i].id == b[i].id
    ensures Ids(a) == Ids(b) && IdSet(a) == IdSet(b) && (UniqueIds(a) <==> UniqueIds(b))
  {
  }
}
