/**
 * `extract_errors`: the false positives and false negatives of the tagged
 * file, labelled with their kind and ordered by reliability, then sector.
 */
module ErrorExtraction {
  import opened Wrappers
  import opened Seqs
  import opened Text
  import opened Ordering

  /** A tagged record as read from the file; `None` is a missing cell. */
  datatype TaggedRecord = TaggedRecord(id: Option<string>, content: Option<string>, model: Option<string>,
                                       tag: Option<string>, sector: Option<string>, reliability: Option<string>)

  /** `col.str.upper() == v`: a missing cell never matches, and nothing is stripped. */
  predicate UpperIs(cell: Option<string>, v: string) {
    cell.Some? && Upper(cell.value) == v
  }

  /** The FP mask. */
  predicate IsFp(r: TaggedRecord) {
    UpperIs(r.model, "YES") && UpperIs(r.tag, "NO")
  }

  /** The FN mask. */
  predicate IsFn(r: TaggedRecord) {
    UpperIs(r.model, "NO") && UpperIs(r.tag, "YES")
  }

  /** `fp_mask | fn_mask`. */
  predicate IsError(r: TaggedRecord) {
    IsFp(r) || IsFn(r)
  }

  /** No record is both a false positive and a false negative. */
  lemma MasksDisjoint(r: TaggedRecord)
    ensures !(IsFp(r) && IsFn(r))
  {
    if IsFp(r) {
      assert Upper(r.model.value) == "YES";
      assert "YES"[0] != "NO"[0];
    }
  }

  /** Unlike the evaluator's loading, the masks do not strip: a padded answer is no error. */
  lemma PaddedAnswerIsNoError(r: TaggedRecord)
    requires r.model == Some(" YES") && r.tag == Some("NO")
    ensures !IsError(r)
  {
    assert |Upper(" YES")| == 4;
  }

  /** `errors_df`. */
  function Errors(df: seq<TaggedRecord>): seq<TaggedRecord> {
    Filter(df, IsError)
  }

  /** The number of errors is the FP count plus the FN count. */
  lemma ErrorCountSplits(df: seq<TaggedRecord>)
    ensures |Errors(df)| == |Filter(df, IsFp)| + |Filter(df, IsFn)|
  {
    forall x | x in df ensures !(IsFp(x) && IsFn(x)) {
      MasksDisjoint(x);
    }
    FilterDisjoint(df, IsFp, IsFn, IsError);
  }

  /** The `Error_Type` column. */
  datatype ErrorType = FP | FN

  /** `'FP'` when the model says YES and the tag NO, `'FN'` for every other error. */
  function ErrorTypeOf(r: TaggedRecord): (t: ErrorType)
    requires IsError(r)
    ensures t == FP <==> IsFp(r)
    ensures t == FN <==> IsFn(r)
  {
    MasksDisjoint(r);
    if Upper(r.model.value) == "YES" && Upper(r.tag.value) == "NO" then FP else FN
  }

  /** An error with its type. */
  datatype Labelled = Labelled(kind: ErrorType, row: TaggedRecord)

  /** Each error labelled, in file order. */
  function LabelAll(errs: seq<TaggedRecord>): (r: seq<Labelled>)
    requires forall x :: x in errs ==> IsError(x)
    ensures |r| == |errs| && forall i :: 0 <= i < |errs| ==> r[i] == Labelled(ErrorTypeOf(errs[i]), errs[i])
  {
    seq(|errs|, i requires 0 <= i < |errs| => Labelled(ErrorTypeOf(errs[i]), errs[i]))
  }

  // ---------------------------------------------------------------- the order

  /** Ascending order on a column with missing cells placed last. */
  predicate CellLe(a: Option<string>, b: Option<string>) {
    b.None? || (a.Some? && StrLe(a.value, b.value))
  }

  lemma CellLeRefl(a: Option<string>)
    ensures CellLe(a, a)
  {
    if a.Some? {
      StrLeRefl(a.value);
    }
  }

  lemma CellLeTotal(a: Option<string>, b: Option<string>)
    ensures CellLe(a, b) || CellLe(b, a)
  {
    if a.Some? && b.Some? {
      StrLeTotal(a.value, b.value);
    }
  }

  lemma CellLeTrans(a: Option<string>, b: Option<string>, c: Option<string>)
    requires CellLe(a, b) && CellLe(b, c)
    ensures CellLe(a, c)
  {
    if c.Some? {
      StrLeTrans(a.value, b.value, c.value);
    }
  }

  lemma CellLeAntisym(a: Option<string>, b: Option<string>)
    requires CellLe(a, b) && CellLe(b, a)
    ensures a == b
  {
    if a.Some? && b.Some? {
      StrLeAntisym(a.value, b.value);
    }
  }

  /** `sort_values(by=['Reliability_Score', 'Sector'])`: by reliability, and by sector within one reliability. */
  predicate RecordLe(x: TaggedRecord, y: TaggedRecord) {
    (x.reliability != y.reliability && CellLe(x.reliability, y.reliability)) ||
    (x.reliability == y.reliability && CellLe(x.sector, y.sector))
  }

  lemma RecordLeTotal(x: TaggedRecord, y: TaggedRecord)
    ensures RecordLe(x, y) || RecordLe(y, x)
  {
    CellLeTotal(x.reliability, y.reliability);
    CellLeTotal(x.sector, y.sector);
  }

  lemma RecordLeTrans(x: TaggedRecord, y: TaggedRecord, z: TaggedRecord)
    requires RecordLe(x, y) && RecordLe(y, z)
    ensures RecordLe(x, z)
  {
    if x.reliability == y.reliability && y.reliability == z.reliability {
      CellLeTrans(x.sector, y.sector, z.sector);
    } else {
      CellLeRefl(x.reliability);
      CellLeRefl(y.reliability);
      CellLeTrans(x.reliability, y.reliability, z.reliability);
      if x.reliability == z.reliability {
        CellLeAntisym(x.reliability, y.reliability);
      }
    }
  }

  function LabelledLe(): (Labelled, Labelled) -> bool {
    (a: Labelled, b: Labelled) => RecordLe(a.row, b.row)
  }

  /** The order on labelled errors is a total preorder. */
  lemma LabelledLeTotalPreorder()
    ensures TotalPreorder(LabelledLe())
  {
    forall a: Labelled, b: Labelled ensures LabelledLe()(a, b) || LabelledLe()(b, a) {
      RecordLeTotal(a.row, b.row);
    }
    forall a: Labelled, b: Labelled, c: Labelled | LabelledLe()(a, b) && LabelledLe()(b, c)
      ensures LabelledLe()(a, c)
    {
      RecordLeTrans(a.row, b.row, c.row);
    }
  }

  /** The sorted error table: every labelled error once, in (reliability, sector) order. */
  function SortErrors(ls: seq<Labelled>): (r: seq<Labelled>)
    ensures multiset(r) == multiset(ls)
    ensures forall i, j :: 0 <= i < j < |r| ==> RecordLe(r[i].row, r[j].row)
  {
    LabelledLeTotalPreorder();
    SortByPermutes(ls, LabelledLe());
    SortBySorted(ls, LabelledLe());
    var r := SortBy(ls, LabelledLe());
    assert forall i, j :: 0 <= i < j < |r| ==> LabelledLe()(r[i], r[j]);
    r
  }

  /** The sorted table holds each labelled error once, so it is as long as the list of errors and made of them. */
  lemma SortedTable(df: seq<TaggedRecord>)
    ensures var errs := Errors(df);
      (forall x :: x in errs ==> IsError(x)) &&
      var r := SortErrors(LabelAll(errs));
      |r| == |errs| &&
      (forall x :: x in r ==> x.row in df && IsError(x.row) && (x.kind == FP <==> IsFp(x.row))) &&
      (forall x :: x in df && IsError(x) ==> exists l :: l in r && l.row == x)
  {
    var errs := Errors(df);
    FilterMembers(df, IsError);
    var ls := LabelAll(errs);
    var r := SortErrors(ls);
    assert |multiset(r)| == |multiset(ls)|;
    forall x | x in r ensures x.row in df && IsError(x.row) && (x.kind == FP <==> IsFp(x.row)) {
      assert x in multiset(ls);
    }
    forall x | x in df && IsError(x) ensures exists l :: l in r && l.row == x {
      var i :| 0 <= i < |df| && df[i] == x;
      assert x in errs;
      var k :| 0 <= k < |errs| && errs[k] == x;
      assert ls[k] in multiset(r);
    }
  }

  /** The table `extract_errors` saves: the errors labelled with their type and sorted. */
  function ErrorTable(df: seq<TaggedRecord>): (r: seq<Labelled>)
    ensures forall x :: x in Errors(df) ==> IsError(x)
    ensures multiset(r) == multiset(LabelAll(Errors(df)))
    ensures |r| == |Errors(df)|
    ensures forall x :: x in r ==> x.row in df && IsError(x.row) && (x.kind == FP <==> IsFp(x.row))
    ensures forall x :: x in df && IsError(x) ==> exists l :: l in r && l.row == x
    ensures forall i, j :: 0 <= i < j < |r| ==> RecordLe(r[i].row, r[j].row)
  {
    SortedTable(df);
    SortErrors(LabelAll(Errors(df)))
  }

  /** The labelled errors with reliability `rel` and sector `sec`: records the sort keys tie. */
  function Tied(rel: Option<string>, sec: Option<string>): Labelled -> bool {
    (l: Labelled) => l.row.reliability == rel && l.row.sector == sec
  }

  /**
   * The multi-column `sort_values` goes through a stable lexicographic sort,
   * so records tied on (reliability, sector) keep the order they have in the
   * file.
   */
  lemma ErrorTableStable(df: seq<TaggedRecord>, rel: Option<string>, sec: Option<string>)
    ensures forall x :: x in Errors(df) ==> IsError(x)
    ensures Filter(ErrorTable(df), Tied(rel, sec)) == Filter(LabelAll(Errors(df)), Tied(rel, sec))
  {
    FilterMembers(df, IsError);
    forall a, b | Tied(rel, sec)(a) && Tied(rel, sec)(b) ensures LabelledLe()(a, b) {
      CellLeRefl(sec);
    }
    SortByStable(LabelAll(Errors(df)), LabelledLe(), Tied(rel, sec));
  }

  /**
   * `extract_errors` up to the saved table. With no error, `errors_df` is
   * empty, and pandas' `apply(..., axis=1)` on an empty frame returns a
   * frame rather than a column, so assigning it to `Error_Type` raises
   * `ValueError` and nothing is saved.
   */
  function ExtractErrors(df: seq<TaggedRecord>): (r: Result<seq<Labelled>, string>)
    ensures r.Failure? <==> forall x :: x in df ==> !IsError(x)
    ensures r.Success? ==> r.value == ErrorTable(df) && |r.value| > 0
  {
    FilterMembers(df, IsError);
    if Errors(df) == [] then Failure("ValueError: cannot set a frame with multiple columns to the single column Error_Type")
    else Success(ErrorTable(df))
  }

  // ------------------------------------------------------------ the breakdown

  /** The FP and FN counts of one group of the breakdown add up to the group's size. */
  lemma GroupSplits(ls: seq<Labelled>, inGroup: Labelled -> bool)
    ensures var g := Filter(ls, inGroup);
      |Filter(g, (l: Labelled) => l.kind == FP)| + |Filter(g, (l: Labelled) => l.kind == FN)| == |g|
  {
    var g := Filter(ls, inGroup);
    FilterPartition(g, (l: Labelled) => l.kind == FP, (l: Labelled) => l.kind == FN);
  }

  /** The lines `By Reliability Score`: for every reliability, its errors are its FPs plus its FNs. */
  lemma ReliabilityBreakdown(df: seq<TaggedRecord>, rel: string)
    ensures var g := Filter(ErrorTable(df), (l: Labelled) => l.row.reliability == Some(rel));
      |Filter(g, (l: Labelled) => l.kind == FP)| + |Filter(g, (l: Labelled) => l.kind == FN)| == |g|
  {
    GroupSplits(ErrorTable(df), (l: Labelled) => l.row.reliability == Some(rel));
  }

  /** The lines `By Sector`: for every sector, its errors are its FPs plus its FNs. */
  lemma SectorBreakdown(df: seq<TaggedRecord>, sector: string)
    ensures var g := Filter(ErrorTable(df), (l: Labelled) => l.row.sector == Some(sector));
      |Filter(g, (l: Labelled) => l.kind == FP)| + |Filter(g, (l: Labelled) => l.kind == FN)| == |g|
  {
    GroupSplits(ErrorTable(df), (l: Labelled) => l.row.sector == Some(sector));
  }

  /** The FP lines of the table are exactly as many as the FP mask selects. */
  lemma TableCountsMasks(df: seq<TaggedRecord>)
    ensures |Filter(ErrorTable(df), (l: Labelled) => l.kind == FP)| == |Filter(df, IsFp)|
  {
    var errs := Errors(df);
    SortedTable(df);
    var ls := LabelAll(errs);
    var isFpLine := (l: Labelled) => l.kind == FP;
    FilterPermutation(ErrorTable(df), ls, isFpLine);
    assert |multiset(Filter(ErrorTable(df), isFpLine))| == |multiset(Filter(ls, isFpLine))|;
    LabelCount(errs);
    FilterFilter(df, IsError, IsFp, IsFp);
  }

  /** Labelling keeps the FPs: as many FP labels as FP rows. */
  lemma {:induction false} LabelCount(errs: seq<TaggedRecord>)
    requires forall x :: x in errs ==> IsError(x)
    ensures |Filter(LabelAll(errs), (l: Labelled) => l.kind == FP)| == |Filter(errs, IsFp)|
  {
    if errs != [] {
      var rest := errs[1..];
      assert forall x :: x in rest ==> x in errs;
      LabelCount(rest);
      assert LabelAll(errs) == [LabelAll(errs)[0]] + LabelAll(rest);
    }
  }
}
