/**
 * The frame operations the tagging sampler is built from: a seeded random
 * draw (`sample(n=k, random_state=42)`), `nlargest(k, 'edge_score')`,
 * `drop_duplicates(subset=['Report_ID'], keep='first')` and the
 * `~Report_ID.isin(ids)` exclusion mask.
 */
module Selection {
  import opened Seqs
  import opened Reports

  // ------------------------------------------------------------ random draw

  /**
   * The generator `np.random.RandomState(42)` that every `sample(...,
   * random_state=42)` seeds afresh. What it does to a frame depends only on
   * the frame's size `n`: `choice(n, k, replace=False)` is
   * `permutation(n)[:k]`. `pick(n)` is that permutation as a sequence of
   * choices: with `m` of the `n` rows still in the pool, the next row is the
   * one at position `pick(n)(m)` among them. Every permutation of `n` rows
   * arises this way (its Lehmer code), so every seed is one `Oracle`.
   */
  type Oracle = nat -> nat -> nat

  /** The position a choice sequence names in a pool of `m` rows. */
  function Slot(next: nat -> nat, m: nat): (i: nat)
    requires m > 0
    ensures i < m
  {
    if next(m) < m then next(m) else 0
  }

  /**
   * The first `k` rows of the permutation given by the choice sequence
   * `next`: the row at `Slot(next, m)` of the `m` rows left, then the rest
   * from the others.
   */
  function Take<T>(s: seq<T>, k: nat, next: nat -> nat): (r: seq<T>)
    ensures |r| == Min(k, |s|)
    decreases k
  {
    if k == 0 || s == [] then []
    else
      var i := Slot(next, |s|);
      [s[i]] + Take(Without(s, i), k - 1, next)
  }

  /**
   * `s.sample(n=k, random_state=42)`: the first `k` rows of the seed's
   * permutation of a frame of `|s|` rows. Two calls on frames of the same
   * size permute them alike, and a smaller `k` draws a prefix of what a
   * larger one draws.
   */
  function Draw<T>(s: seq<T>, k: nat, pick: Oracle): (r: seq<T>)
    ensures |r| == Min(k, |s|)
  {
    Take(s, k, pick(|s|))
  }

  /** A take chooses the row the choice sequence points at, then takes from the others. */
  lemma TakeUnfold<T>(s: seq<T>, k: nat, next: nat -> nat)
    requires k > 0 && s != []
    ensures Take(s, k, next) == [s[Slot(next, |s|)]] + Take(Without(s, Slot(next, |s|)), k - 1, next)
  {
  }

  /** A prefix of `x` followed by `u` is `x` followed by a prefix of `u`. */
  lemma PrefixCons<T>(x: T, u: seq<T>, m: nat)
    requires 0 < m <= |u| + 1
    ensures ([x] + u)[..m] == [x] + u[..m - 1]
  {
  }

  /** A smaller take with the same choices is a prefix of a larger one. */
  lemma {:induction false} TakePrefix<T>(s: seq<T>, k: nat, k2: nat, next: nat -> nat)
    requires k <= k2
    ensures Take(s, k, next) == Take(s, k2, next)[..Min(k, |s|)]
    decreases k
  {
    if k > 0 && s != [] {
      var i := Slot(next, |s|);
      var w := Without(s, i);
      TakeUnfold(s, k, next);
      TakeUnfold(s, k2, next);
      TakePrefix(w, k - 1, k2 - 1, next);
      PrefixCons(s[i], Take(w, k2 - 1, next), Min(k, |s|));
    }
  }

  /** Taking every row rearranges the frame. */
  lemma {:induction false} TakeAllPermutes<T>(s: seq<T>, next: nat -> nat)
    ensures multiset(Take(s, |s|, next)) == multiset(s)
    decreases |s|
  {
    if s != [] {
      var i := Slot(next, |s|);
      WithoutMultiset(s, i);
      TakeAllPermutes(Without(s, i), next);
      assert Take(s, |s|, next) == [s[i]] + Take(Without(s, i), |s| - 1, next);
    }
  }

  /** A smaller draw with the same seed is a prefix of a larger one. */
  lemma DrawPrefix<T>(s: seq<T>, k: nat, k2: nat, pick: Oracle)
    requires k <= k2
    ensures Draw(s, k, pick) == Draw(s, k2, pick)[..Min(k, |s|)]
  {
    TakePrefix(s, k, k2, pick(|s|));
  }

  /** `s.sample(frac=1, random_state=42)`: the whole frame in the seed's order. */
  function Shuffle<T>(s: seq<T>, pick: Oracle): seq<T> {
    Draw(s, |s|, pick)
  }

  /** A shuffle is a permutation of the frame. */
  lemma ShufflePermutes<T>(s: seq<T>, pick: Oracle)
    ensures multiset(Shuffle(s, pick)) == multiset(s)
  {
    TakeAllPermutes(s, pick(|s|));
  }

  /** Frames of one size are shuffled alike: row `i` of one lands where row `i` of the other does. */
  lemma {:induction false} TakeAlike<T, U>(s: seq<T>, t: seq<U>, k: nat, next: nat -> nat, f: T -> U)
    requires |s| == |t| && forall i :: 0 <= i < |s| ==> t[i] == f(s[i])
    ensures |Take(s, k, next)| == |Take(t, k, next)|
    ensures forall j :: 0 <= j < |Take(s, k, next)| ==> Take(t, k, next)[j] == f(Take(s, k, next)[j])
    decreases k
  {
    if k > 0 && s != [] {
      var i := Slot(next, |s|);
      var ws, wt := Without(s, i), Without(t, i);
      assert forall j :: 0 <= j < |ws| ==> wt[j] == f(ws[j]) by {
        forall j | 0 <= j < |ws| ensures wt[j] == f(ws[j]) {
          if j < i { assert ws[j] == s[j] && wt[j] == t[j]; } else { assert ws[j] == s[j + 1] && wt[j] == t[j + 1]; }
        }
      }
      TakeAlike(ws, wt, k - 1, next, f);
      TakeUnfold(s, k, next);
      TakeUnfold(t, k, next);
    }
  }

  /**
   * The seed permutes row positions, not row values: drawing from a frame
   * and then mapping every row gives the draw from the mapped frame.
   */
  lemma DrawAlike<T, U>(s: seq<T>, t: seq<U>, k: nat, pick: Oracle, f: T -> U)
    requires |s| == |t| && forall i :: 0 <= i < |s| ==> t[i] == f(s[i])
    ensures |Draw(s, k, pick)| == |Draw(t, k, pick)|
    ensures forall j :: 0 <= j < |Draw(s, k, pick)| ==> Draw(t, k, pick)[j] == f(Draw(s, k, pick)[j])
  {
    TakeAlike(s, t, k, pick(|s|), f);
  }

  /**
   * Draws from frames of different sizes are independent: one seed can
   * reverse every 2-row frame and keep every 3-row frame in order, as
   * `permutation(2) == [1, 0]` and `permutation(3) == [0, 1, 2]` would.
   */
  lemma SizesDrawIndependently<T>(a: T, b: T, c: T)
    ensures var pick: Oracle := n => m => if n == 2 then 1 else 0;
      Shuffle([a, b], pick) == [b, a] && Shuffle([a, b, c], pick) == [a, b, c]
  {
    var pick: Oracle := n => m => if n == 2 then 1 else 0;
    assert Without([a, b], 1) == [a];
    assert Take([a], 1, pick(2)) == [a];
    assert Without([a, b, c], 0) == [b, c];
    assert Without([b, c], 0) == [c];
    assert Take([c], 1, pick(3)) == [c];
    assert Take([b, c], 2, pick(3)) == [b, c];
  }

  /** A draw is the front of the shuffle with the same seed. */
  lemma DrawIsShuffleFront<T>(s: seq<T>, k: nat, pick: Oracle)
    ensures Draw(s, k, pick) == Shuffle(s, pick)[..Min(k, |s|)]
  {
    if k <= |s| {
      DrawPrefix(s, k, |s|, pick);
    } else {
      DrawPrefix(s, |s|, k, pick);
    }
  }

  /** A draw and the rows it leaves (the rest of the shuffle) are the frame, rearranged. */
  lemma DrawAndRest<T>(s: seq<T>, k: nat, pick: Oracle)
    ensures multiset(Draw(s, k, pick)) + multiset(Shuffle(s, pick)[Min(k, |s|)..]) == multiset(s)
  {
    DrawIsShuffleFront(s, k, pick);
    ShufflePermutes(s, pick);
    SplitAt(Shuffle(s, pick), Min(k, |s|));
  }

  /** A draw takes rows of the frame, each at most as often as the frame has it. */
  lemma DrawFromFrame<T>(s: seq<T>, k: nat, pick: Oracle)
    ensures multiset(Draw(s, k, pick)) <= multiset(s)
  {
    DrawAndRest(s, k, pick);
    PartOfWhole(multiset(Draw(s, k, pick)), multiset(Shuffle(s, pick)[Min(k, |s|)..]), multiset(s));
  }

  // --------------------------------------------------------------- nlargest

  /** Scores never rise along `t`. */
  predicate Descending(t: seq<Report>) {
    forall i, j :: 0 <= i < j < |t| ==> t[j].edgeScore <= t[i].edgeScore
  }

  /**
   * Puts `x` into the descending list `t` ahead of the first row that does
   * not score higher, so rows with equal scores keep their frame order.
   */
  function Insert(x: Report, t: seq<Report>): (r: seq<Report>)
    ensures |r| == |t| + 1
  {
    if t == [] || t[0].edgeScore <= x.edgeScore then [x] + t
    else [t[0]] + Insert(x, t[1..])
  }

  /** The whole frame ordered by decreasing `edge_score`, ties in frame order. */
  function SortDesc(s: seq<Report>): (r: seq<Report>)
    ensures |r| == |s|
  {
    if s == [] then [] else Insert(s[0], SortDesc(s[1..]))
  }

  /**
   * `s.nlargest(k, 'edge_score')`: the first `k` rows of the frame ordered by
   * decreasing score, ties kept in frame order.
   */
  function TopK(s: seq<Report>, k: nat): (r: seq<Report>)
    ensures |r| == Min(k, |s|)
  {
    SortDesc(s)[..Min(k, |s|)]
  }

  /** The rows `nlargest(k)` leaves behind. */
  function Unpicked(s: seq<Report>, k: nat): seq<Report> {
    SortDesc(s)[Min(k, |s|)..]
  }

  /** Inserting adds exactly the one row. */
  lemma {:induction false} InsertMultiset(x: Report, t: seq<Report>)
    ensures multiset(Insert(x, t)) == multiset{x} + multiset(t)
    decreases |t|
  {
    if t != [] && x.edgeScore < t[0].edgeScore {
      assert t == [t[0]] + t[1..];
      InsertMultiset(x, t[1..]);
    }
  }

  /** Sorting rearranges the frame. */
  lemma {:induction false} SortPermutes(s: seq<Report>)
    ensures multiset(SortDesc(s)) == multiset(s)
  {
    if s != [] {
      assert s == [s[0]] + s[1..];
      SortPermutes(s[1..]);
      InsertMultiset(s[0], SortDesc(s[1..]));
    }
  }

  /** A bound on every score of `x` and `t` bounds every score of the insertion. */
  lemma {:induction false} InsertBound(x: Report, t: seq<Report>, b: int)
    requires x.edgeScore <= b && forall i :: 0 <= i < |t| ==> t[i].edgeScore <= b
    ensures forall i :: 0 <= i < |Insert(x, t)| ==> Insert(x, t)[i].edgeScore <= b
    decreases |t|
  {
    if t != [] && x.edgeScore < t[0].edgeScore {
      InsertBound(x, t[1..], b);
    }
  }

  /** Inserting into a descending list keeps it descending. */
  lemma {:induction false} InsertDescending(x: Report, t: seq<Report>)
    requires Descending(t)
    ensures Descending(Insert(x, t))
    decreases |t|
  {
    if t != [] && x.edgeScore < t[0].edgeScore {
      var u := t[1..];
      assert Descending(u);
      InsertDescending(x, u);
      InsertBound(x, u, t[0].edgeScore);
      var r := Insert(x, t);
      assert r == [t[0]] + Insert(x, u);
      forall i, j | 0 <= i < j < |r| ensures r[j].edgeScore <= r[i].edgeScore {
        if i > 0 {
          assert r[i] == Insert(x, u)[i - 1] && r[j] == Insert(x, u)[j - 1];
        } else {
          assert r[j] == Insert(x, u)[j - 1];
        }
      }
    } else if t != [] {
      var r := Insert(x, t);
      forall i, j | 0 <= i < j < |r| ensures r[j].edgeScore <= r[i].edgeScore {
        assert r[j] == t[j - 1];
        if i > 0 {
          assert r[i] == t[i - 1];
        }
      }
    }
  }

  /** Sorting gives a descending list. */
  lemma {:induction false} SortDescending(s: seq<Report>)
    ensures Descending(SortDesc(s))
  {
    if s != [] {
      SortDescending(s[1..]);
      InsertDescending(s[0], SortDesc(s[1..]));
    }
  }

  /**
   * `nlargest` takes rows of the frame and leaves the rest behind, lists
   * them by non-increasing score, and no row left behind scores higher
   * than a row taken.
   */
  lemma TopKIsTop(s: seq<Report>, k: nat)
    ensures multiset(TopK(s, k)) + multiset(Unpicked(s, k)) == multiset(s)
    ensures multiset(TopK(s, k)) <= multiset(s)
    ensures Descending(TopK(s, k))
    ensures forall y, j :: y in Unpicked(s, k) && 0 <= j < |TopK(s, k)| ==>
      y.edgeScore <= TopK(s, k)[j].edgeScore
  {
    var t, m := SortDesc(s), Min(k, |s|);
    SplitAt(t, m);
    SortPermutes(s);
    PartOfWhole(multiset(t[..m]), multiset(t[m..]), multiset(s));
    SortDescending(s);
    forall y, j | y in t[m..] && 0 <= j < m ensures y.edgeScore <= t[..m][j].edgeScore {
      var q :| 0 <= q < |t| - m && t[m..][q] == y;
      assert t[m + q] == y;
    }
  }

  /** No row that `nlargest(k)` leaves out scores above a row it takes. */
  lemma TopKRanks(s: seq<Report>, k: nat)
    ensures forall y, j :: y in s && y !in TopK(s, k) && 0 <= j < |TopK(s, k)| ==>
      y.edgeScore <= TopK(s, k)[j].edgeScore
  {
    TopKIsTop(s, k);
    forall y | y in s && y !in TopK(s, k) ensures y in Unpicked(s, k) {
      assert y in multiset(s);
      assert y !in multiset(TopK(s, k));
    }
  }

  /**
   * Rows taken from among `nlargest(k)` score at least as high as every row
   * `nlargest(k)` leaves out.
   */
  lemma WithinTopRanks(s: seq<Report>, k: nat, sub: seq<Report>)
    requires multiset(sub) <= multiset(TopK(s, k))
    ensures forall y, x :: y in s && y !in TopK(s, k) && x in sub ==> y.edgeScore <= x.edgeScore
  {
    TopKRanks(s, k);
    forall y, x | y in s && y !in TopK(s, k) && x in sub ensures y.edgeScore <= x.edgeScore {
      assert x in multiset(sub);
      assert x in TopK(s, k);
      var j :| 0 <= j < |TopK(s, k)| && TopK(s, k)[j] == x;
    }
  }

  // --------------------------------------------------------- ID bookkeeping

  /** The mask `Report_ID.isin(ids)`. */
  function IdIn(ids: set<string>): Report -> bool {
    (r: Report) => r.id in ids
  }

  /** The mask `~Report_ID.isin(ids)`. */
  function IdNotIn(ids: set<string>): Report -> bool {
    (r: Report) => r.id !in ids
  }

  /** `s[~s['Report_ID'].isin(ids)]`. */
  function Exclude(s: seq<Report>, ids: set<string>): seq<Report> {
    Filter(s, IdNotIn(ids))
  }

  /** In a frame with unique IDs, an ID picks out one row. */
  lemma SameIdSameRow(s: seq<Report>, i: nat, j: nat)
    requires UniqueIds(s) && i < |s| && j < |s|
    ensures s[i].id == s[j].id ==> i == j
  {
  }

  /** In a frame with unique IDs, no row occurs twice. */
  lemma {:induction false} UniqueRowsOnce(s: seq<Report>, x: Report)
    requires UniqueIds(s)
    ensures multiset(s)[x] <= 1
  {
    if s != [] {
      var y, t := s[0], s[1..];
      assert s == [y] + t;
      UniqueCons(y, t);
      UniqueRowsOnce(t, x);
      if x == y {
        forall i | 0 <= i < |t| ensures t[i] != x {
          assert t[i].id in IdSet(t);
        }
      }
    }
  }

  /** Two equal rows at different positions make two copies. */
  lemma TwoCopies(a: seq<Report>, i: nat, j: nat)
    requires i < j < |a|
    ensures a[i] == a[j] ==> multiset(a)[a[i]] >= 2
  {
    var x := a[i];
    var left, mid, right := a[..i], a[i + 1..j], a[j + 1..];
    assert a == left + [a[i]] + mid + [a[j]] + right;
    assert multiset(a) == multiset(left) + multiset{a[i]} + multiset(mid) + multiset{a[j]} + multiset(right);
  }

  /**
   * Rows drawn from a frame with unique IDs have unique IDs, and their IDs
   * are IDs of the frame.
   */
  lemma SubFrameUnique(a: seq<Report>, s: seq<Report>)
    requires UniqueIds(s) && multiset(a) <= multiset(s)
    ensures UniqueIds(a) && IdSet(a) <= IdSet(s)
  {
    forall i, j | 0 <= i < j < |a| ensures a[i].id != a[j].id {
      assert a[i] in multiset(s) && a[j] in multiset(s);
      var p :| 0 <= p < |s| && s[p] == a[i];
      var q :| 0 <= q < |s| && s[q] == a[j];
      SameIdSameRow(s, p, q);
      TwoCopies(a, i, j);
      UniqueRowsOnce(s, a[i]);
    }
    forall x | x in IdSet(a) ensures x in IdSet(s) {
      var i :| 0 <= i < |a| && a[i].id == x;
      assert a[i] in multiset(s);
    }
  }

  /** A frame with unique IDs has as many IDs as rows. */
  lemma {:induction false} IdSetSize(s: seq<Report>)
    requires UniqueIds(s)
    ensures |IdSet(s)| == |s|
  {
    if s != [] {
      var x, t := s[0], s[1..];
      assert s == [x] + t;
      UniqueCons(x, t);
      IdSetCons(x, t);
      IdSetSize(t);
    }
  }

  /** Counting the listed IDs of a row followed by a frame that lacks the row's ID. */
  lemma ListedCons(x: Report, t: seq<Report>, ids: set<string>)
    requires x.id !in IdSet(t)
    ensures |ids * IdSet([x] + t)| == |ids * IdSet(t)| + (if x.id in ids then 1 else 0)
  {
    IdSetCons(x, t);
    if x.id in ids {
      assert ids * IdSet([x] + t) == {x.id} + ids * IdSet(t);
    } else {
      assert ids * IdSet([x] + t) == ids * IdSet(t);
    }
  }

  /**
   * In a frame with unique IDs, `isin(ids)` selects one row for each listed
   * ID that the frame has.
   */
  lemma {:induction false} IdInSize(s: seq<Report>, ids: set<string>)
    requires UniqueIds(s)
    ensures |Filter(s, IdIn(ids))| == |ids * IdSet(s)|
  {
    if s == [] {
      assert ids * IdSet(s) == {};
    } else {
      var x, t := s[0], s[1..];
      assert s == [x] + t;
      UniqueCons(x, t);
      IdInSize(t, ids);
      FilterCons(x, t, IdIn(ids));
      ListedCons(x, t, ids);
    }
  }

  /**
   * Excluding IDs that a frame with unique IDs has removes exactly one row
   * per ID.
   */
  lemma ExcludeSize(s: seq<Report>, ids: set<string>)
    requires UniqueIds(s) && ids <= IdSet(s)
    ensures |Exclude(s, ids)| == |s| - |ids|
  {
    IdInSize(s, ids);
    assert ids * IdSet(s) == ids;
    FilterPartition(s, IdIn(ids), IdNotIn(ids));
  }

  /** The rows `Exclude` keeps are the rows whose IDs are not excluded. */
  lemma ExcludeMembers(s: seq<Report>, ids: set<string>)
    ensures forall x :: x in Exclude(s, ids) <==> x in s && x.id !in ids
    ensures multiset(Exclude(s, ids)) <= multiset(s)
  {
    FilterMembers(s, IdNotIn(ids));
    FilterMultiset(s, IdNotIn(ids));
  }

  /** No row drawn from what `Exclude(s, IdSet(a))` keeps has an ID of `a`. */
  lemma DrawnAfterExclude(a: seq<Report>, b: seq<Report>, s: seq<Report>)
    requires multiset(b) <= multiset(Exclude(s, IdSet(a)))
    ensures forall x :: x in multiset(b) ==> x.id !in IdSet(a) && x !in multiset(a)
    ensures multiset(b) <= multiset(s)
  {
    ExcludeMembers(s, IdSet(a));
    forall x | x in multiset(b) ensures x.id !in IdSet(a) && x !in multiset(a) {
      assert x in Exclude(s, IdSet(a));
      forall i | 0 <= i < |a| ensures a[i] != x {
        assert a[i].id in IdSet(a);
      }
    }
  }

  /**
   * Appending rows drawn from what the first draw left (its IDs excluded)
   * gives rows of the frame, with disjoint ID sets.
   */
  lemma AppendDraws(a: seq<Report>, b: seq<Report>, s: seq<Report>)
    requires multiset(a) <= multiset(s)
    requires multiset(b) <= multiset(Exclude(s, IdSet(a)))
    ensures multiset(a + b) <= multiset(s)
    ensures IdSet(a) !! IdSet(b)
    ensures IdSet(a + b) == IdSet(a) + IdSet(b)
  {
    DrawnAfterExclude(a, b, s);
    forall x ensures multiset(a + b)[x] <= multiset(s)[x] {
      assert multiset(a + b)[x] == multiset(a)[x] + multiset(b)[x];
    }
    MultisetLe(multiset(a + b), multiset(s));
    forall y | y in IdSet(b) ensures y !in IdSet(a) {
      var j :| 0 <= j < |b| && b[j].id == y;
      assert b[j] in multiset(b);
    }
    IdSetConcat(a, b);
  }

  /** Rows of a frame that avoid some IDs are rows of what excluding those IDs keeps. */
  lemma OutsideIds(b: seq<Report>, s: seq<Report>, ids: set<string>)
    requires multiset(b) <= multiset(s)
    requires forall i :: 0 <= i < |b| ==> b[i].id !in ids
    ensures multiset(b) <= multiset(Exclude(s, ids))
  {
    forall x ensures multiset(b)[x] <= multiset(Exclude(s, ids))[x] {
      FilterMultisetCount(s, IdNotIn(ids), x);
      if x in b {
        var i :| 0 <= i < |b| && b[i] == x;
      }
    }
    MultisetLe(multiset(b), multiset(Exclude(s, ids)));
  }

  /** Frames holding the same rows hold the same IDs. */
  lemma PermutedIds(a: seq<Report>, b: seq<Report>)
    requires multiset(a) == multiset(b)
    ensures IdSet(a) == IdSet(b)
  {
    forall y | y in IdSet(a) ensures y in IdSet(b) {
      var i :| 0 <= i < |a| && a[i].id == y;
      assert a[i] in multiset(b);
    }
    forall y | y in IdSet(b) ensures y in IdSet(a) {
      var i :| 0 <= i < |b| && b[i].id == y;
      assert b[i] in multiset(a);
    }
  }

  /** Excluding IDs removes exactly those IDs from the frame's ID set. */
  lemma {:induction false} ExcludeIdSet(s: seq<Report>, ids: set<string>)
    ensures IdSet(Exclude(s, ids)) == IdSet(s) - ids
  {
    if s == [] {
      assert Exclude(s, ids) == [];
    } else {
      var x, t := s[0], s[1..];
      assert s == [x] + t;
      FilterCons(x, t, IdNotIn(ids));
      ExcludeIdSet(t, ids);
      IdSetCons(x, t);
      if x.id !in ids {
        IdSetCons(x, Exclude(t, ids));
        assert ({x.id} + IdSet(t)) - ids == {x.id} + (IdSet(t) - ids);
      } else {
        assert Exclude(s, ids) == Exclude(t, ids);
        assert ({x.id} + IdSet(t)) - ids == IdSet(t) - ids;
      }
    }
  }

  /** Excluding two ID sets one after the other excludes their union. */
  lemma ExcludeTwice(s: seq<Report>, a: set<string>, b: set<string>)
    ensures Exclude(Exclude(s, a), b) == Exclude(s, a + b)
  {
    FilterFilter(s, IdNotIn(a), IdNotIn(b), IdNotIn(a + b));
  }

  // --------------------------------------------------------- drop_duplicates

  /**
   * `drop_duplicates(subset=['Report_ID'], keep='first')`: the first row,
   * then the same of the later rows with other IDs.
   */
  function DedupIds(s: seq<Report>): (r: seq<Report>)
    ensures |r| <= |s|
    decreases |s|
  {
    if s == [] then [] else [s[0]] + DedupIds(Exclude(s[1..], {s[0].id}))
  }

  /**
   * The same operation as a scan that remembers the IDs already seen, the
   * way `duplicated(keep='first')` marks rows: a row is kept when its ID has
   * not been seen.
   */
  function KeepFirst(s: seq<Report>, seen: set<string>): seq<Report> {
    if s == [] then []
    else if s[0].id in seen then KeepFirst(s[1..], seen)
    else [s[0]] + KeepFirst(s[1..], seen + {s[0].id})
  }

  /** Dropping duplicates agrees with the scan: rows are kept exactly when their ID is new. */
  lemma {:induction false} DedupIsKeepFirst(s: seq<Report>, seen: set<string>)
    ensures KeepFirst(s, seen) == DedupIds(Exclude(s, seen))
    decreases |s|
  {
    if s == [] {
      assert Exclude(s, seen) == [];
    } else {
      var x, t := s[0], s[1..];
      assert s == [x] + t;
      FilterCons(x, t, IdNotIn(seen));
      if x.id in seen {
        assert Exclude(s, seen) == Exclude(t, seen);
        DedupIsKeepFirst(t, seen);
      } else {
        var e := Exclude(t, seen);
        assert Exclude(s, seen) == [x] + e;
        assert ([x] + e)[1..] == e;
        ExcludeTwice(t, seen, {x.id});
        DedupIsKeepFirst(t, seen + {x.id});
      }
    }
  }

  /** After dropping duplicates the IDs are unique and every ID is still there. */
  lemma {:induction false} DedupUnique(s: seq<Report>)
    ensures UniqueIds(DedupIds(s))
    ensures IdSet(DedupIds(s)) == IdSet(s)
    decreases |s|
  {
    if s != [] {
      var x, t := s[0], s[1..];
      var e := Exclude(t, {x.id});
      var d := DedupIds(e);
      assert s == [x] + t;
      assert DedupIds(s) == [x] + d;
      DedupUnique(e);
      ExcludeIdSet(t, {x.id});
      assert IdSet(d) == IdSet(t) - {x.id};
      IdSetCons(x, d);
      IdSetCons(x, t);
      assert {x.id} + (IdSet(t) - {x.id}) == {x.id} + IdSet(t);
      UniqueCons(x, d);
    }
  }

  /** The rows kept are rows of the frame, in frame order. */
  lemma {:induction false} DedupInOrder(s: seq<Report>)
    ensures IsSubsequence(DedupIds(s), s)
    decreases |s|
  {
    if s != [] {
      var x, t := s[0], s[1..];
      var e := Exclude(t, {x.id});
      var d := DedupIds(e);
      DedupInOrder(e);
      FilterIsSubsequence(t, IdNotIn({x.id}));
      SubsequenceTransitive(d, e, t);
      assert ([x] + d)[1..] == d;
    }
  }

  /** A frame whose IDs are already unique loses nothing. */
  lemma {:induction false} DedupKeepsUnique(s: seq<Report>)
    requires UniqueIds(s)
    ensures DedupIds(s) == s
    decreases |s|
  {
    if s != [] {
      var x, t := s[0], s[1..];
      assert s == [x] + t;
      UniqueCons(x, t);
      forall y | y in t ensures IdNotIn({x.id})(y) {
        var i :| 0 <= i < |t| && t[i] == y;
      }
      FilterKeepsAll(t, IdNotIn({x.id}));
      DedupKeepsUnique(t);
    }
  }
}
