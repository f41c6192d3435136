/**
 * Stage A of the pipeline, `clean_data`: three successive row filters over
 * the raw reports and the removal counts they report.
 */
module Cleansing {
  import opened Wrappers
  import opened Seqs
  import opened Ratios

  /** A raw report; `None` is a missing cell. */
  datatype RawRow = RawRow(id: Option<string>, content: Option<string>, sector: Option<string>,
                           urgency: Option<string>, reliability: Option<string>)

  /** `Report_ID.notna()`: an empty identifier is present. */
  predicate HasId(r: RawRow) {
    r.id.Some?
  }

  /** `Content_Body.notna()`. */
  predicate HasContent(r: RawRow) {
    r.content.Some?
  }

  /** The shortest content kept, in characters. */
  const MinContentLength := 5

  /** `Content_Body.str.len() >= 5`, on rows that have content. */
  predicate LongEnough(r: RawRow) {
    r.content.Some? && |r.content.value| >= MinContentLength
  }

  /** `s` contains the letter F in either case. */
  predicate HasLetterF(s: string) {
    s != [] && (s[0] == 'F' || s[0] == 'f' || HasLetterF(s[1..]))
  }

  lemma {:induction false} HasLetterFIff(s: string)
    ensures HasLetterF(s) <==> exists i :: 0 <= i < |s| && (s[i] == 'F' || s[i] == 'f')
  {
    if s != [] {
      HasLetterFIff(s[1..]);
      if exists i :: 0 <= i < |s| && (s[i] == 'F' || s[i] == 'f') {
        var i :| 0 <= i < |s| && (s[i] == 'F' || s[i] == 'f');
        if i > 0 {
          assert s[1..][i - 1] == s[i];
        }
      }
      if HasLetterF(s[1..]) {
        var i :| 0 <= i < |s[1..]| && (s[1..][i] == 'F' || s[1..][i] == 'f');
        assert s[i + 1] == s[1..][i];
      }
    }
  }

  /** `~str.contains('F', na=False, case=False)`: a missing reliability is kept. */
  predicate Reliable(r: RawRow) {
    !(r.reliability.Some? && HasLetterF(r.reliability.value))
  }

  /** Step 1. */
  function WithId(df: seq<RawRow>): seq<RawRow> {
    Filter(df, HasId)
  }

  /** Step 2: first the missing content, then the short content. */
  function WithContent(df: seq<RawRow>): seq<RawRow> {
    Filter(Filter(WithId(df), HasContent), LongEnough)
  }

  /** Step 3. */
  function WithReliable(df: seq<RawRow>): seq<RawRow> {
    Filter(WithContent(df), Reliable)
  }

  /** What a report must satisfy to be kept. */
  predicate Kept(r: RawRow) {
    HasId(r) && LongEnough(r) && Reliable(r)
  }

  /** The counts `clean_data` collects. */
  datatype Stats = Stats(initial: nat, removedNoId: nat, removedShort: nat, removedUnreliable: nat, final: nat)

  function StatsOf(df: seq<RawRow>): Stats {
    var s1 := WithId(df);
    var s2 := WithContent(df);
    var s3 := WithReliable(df);
    Stats(|df|, |df| - |s1|, |s1| - |s2|, |s2| - |s3|, |s3|)
  }

  /** Each step keeps an order-preserving part of the rows before it, so every count of removed rows is a true difference. */
  lemma StepsShrink(df: seq<RawRow>)
    ensures IsSubsequence(WithId(df), df)
    ensures IsSubsequence(WithContent(df), WithId(df))
    ensures IsSubsequence(WithReliable(df), WithContent(df))
  {
    FilterIsSubsequence(df, HasId);
    var s1 := WithId(df);
    FilterIsSubsequence(s1, HasContent);
    FilterIsSubsequence(Filter(s1, HasContent), LongEnough);
    SubsequenceTransitive(WithContent(df), Filter(s1, HasContent), s1);
    FilterIsSubsequence(WithContent(df), Reliable);
  }

  /** The initial count is the three removal counts plus the final count. */
  lemma CountsAddUp(df: seq<RawRow>)
    ensures var s := StatsOf(df);
      s.initial == s.removedNoId + s.removedShort + s.removedUnreliable + s.final
  {
    var s1 := WithId(df);
    assert |Filter(s1, HasContent)| <= |s1|;
  }

  /** A report is kept exactly when it has an identifier, content of five characters or more, and no F in its reliability. */
  lemma KeptRows(df: seq<RawRow>)
    ensures forall x :: x in WithReliable(df) <==> x in df && Kept(x)
  {
    var s1 := WithId(df);
    var s2a := Filter(s1, HasContent);
    var s2 := WithContent(df);
    var s3 := WithReliable(df);
    FilterMembers(df, HasId);
    FilterMembers(s1, HasContent);
    FilterMembers(s2a, LongEnough);
    FilterMembers(s2, Reliable);
    forall x | x in s3 ensures x in df && Kept(x) {
      assert x in s2 && x in s2a && x in s1;
    }
    forall x | x in df && Kept(x) ensures x in s3 {
      var i :| 0 <= i < |df| && df[i] == x;
      assert x in s1;
      var j :| 0 <= j < |s1| && s1[j] == x;
      assert x in s2a;
      var k :| 0 <= k < |s2a| && s2a[k] == x;
      assert x in s2;
      var m :| 0 <= m < |s2| && s2[m] == x;
    }
  }

  /** An empty identifier is not removed: a report whose only flaw is `Report_ID == ""` survives the cleansing. */
  lemma EmptyIdKept(r: RawRow)
    requires r.id == Some("") && LongEnough(r) && Reliable(r)
    ensures WithReliable([r]) == [r]
  {
    assert [r][1..] == [];
  }

  /** Cleansing a cleansed frame changes nothing. */
  lemma CleansingIdempotent(df: seq<RawRow>)
    ensures WithReliable(WithReliable(df)) == WithReliable(df)
  {
    var s3 := WithReliable(df);
    KeptRows(df);
    FilterKeepsAll(s3, HasId);
    FilterKeepsAll(s3, HasContent);
    FilterKeepsAll(s3, LongEnough);
    FilterKeepsAll(s3, Reliable);
  }

  /** The outcome of `clean_data`: the kept rows, the counts and the retention rate in percent. */
  datatype Cleaned = Cleaned(rows: seq<RawRow>, stats: Stats, retention: real)

  /**
   * `clean_data`. The retention rate divides by the initial count without a
   * guard, so an empty frame raises instead of returning.
   */
  function CleanData(df: seq<RawRow>): (r: Result<Cleaned, string>)
    ensures r.Failure? <==> |df| == 0
    ensures r.Success? ==> r.value.rows == WithReliable(df) && r.value.stats == StatsOf(df)
    ensures r.Success? ==> r.value.stats.final == |r.value.rows| && r.value.stats.initial == |df|
    ensures r.Success? ==>
      r.value.stats.final <= r.value.stats.initial && r.value.retention == Percentage(r.value.stats.final, r.value.stats.initial)
    ensures r.Success? ==> 0.0 <= r.value.retention <= 100.0
  {
    if |df| == 0 then Failure("ZeroDivisionError: division by zero")
    else
      var rows := WithReliable(df);
      assert |rows| <= |Filter(WithId(df), HasContent)| <= |WithId(df)| <= |df|;
      Success(Cleaned(rows, StatsOf(df), Percentage(|rows|, |df|)))
  }
}
