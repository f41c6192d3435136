/**
 * Character classes and the string operations the pipeline relies on:
 * `re.findall` counters for digit runs, `str.find`, `in`, `strip`, `upper`,
 * `join` and `split`. Digits are '0'..'9' and whitespace is ASCII whitespace.
 */
module Text {
  import opened Wrappers

  /** Python's `\d`, restricted to ASCII digits. */
  const Digits: set<char> := {'0', '1', '2', '3', '4', '5', '6', '7', '8', '9'}

  /** Python's `\s`, restricted to ASCII whitespace. */
  const Spaces: set<char> := {' ', '\t', '\n', '\r', '\U{000B}', '\U{000C}'}

  /** The character class `[:\s]`. */
  const Separators: set<char> := Spaces + {':'}

  predicate IsDigit(c: char) {
    c in Digits
  }

  predicate IsSpace(c: char) {
    c in Spaces
  }

  predicate AllDigits(s: string) {
    forall i :: 0 <= i < |s| ==> IsDigit(s[i])
  }

  /** Length of the run of digits at the front of `s` (the match of a greedy `\d+`). */
  function DigitRunLength(s: string): (n: nat)
    ensures n <= |s|
    ensures AllDigits(s[..n])
    ensures n < |s| ==> !IsDigit(s[n])
  {
    if s == [] || !IsDigit(s[0]) then 0
    else
      var n := 1 + DigitRunLength(s[1..]);
      assert s[..n] == [s[0]] + s[1..][..n - 1];
      n
  }

  /** `len(re.findall(r'\d+', s))`: the number of maximal digit runs. */
  function CountDigitRuns(s: string): nat
    decreases |s|
  {
    if s == [] then 0
    else if IsDigit(s[0]) then 1 + CountDigitRuns(s[DigitRunLength(s)..])
    else CountDigitRuns(s[1..])
  }

  /**
   * `len(re.findall(r'\d{w}', s))`: scanning left to right, a match of w
   * digits is counted and the scan resumes after it; otherwise the scan
   * moves on by one character. A run of 12 digits holds two 6-digit matches.
   */
  function CountFixedDigits(s: string, w: nat): nat
    requires w > 0
    decreases |s|
  {
    if s == [] then 0
    else if |s| >= w && AllDigits(s[..w]) then 1 + CountFixedDigits(s[w..], w)
    else CountFixedDigits(s[1..], w)
  }

  /**
   * `len(re.findall(r'\d{5}|\d{7}', s))`: at each position the first
   * alternative is tried before the second.
   */
  function CountFiveOrSevenDigits(s: string): nat
    decreases |s|
  {
    if s == [] then 0
    else if |s| >= 5 && AllDigits(s[..5]) then 1 + CountFiveOrSevenDigits(s[5..])
    else if |s| >= 7 && AllDigits(s[..7]) then 1 + CountFiveOrSevenDigits(s[7..])
    else CountFiveOrSevenDigits(s[1..])
  }

  /**
   * The alternative `\d{7}` never wins: wherever seven digits start, five do,
   * and `\d{5}` is tried first. So the pattern counts 5-digit chunks.
   */
  lemma {:induction false} FiveOrSevenIsFive(s: string)
    ensures CountFiveOrSevenDigits(s) == CountFixedDigits(s, 5)
    decreases |s|
  {
    if s != [] {
      if |s| >= 5 && AllDigits(s[..5]) {
        FiveOrSevenIsFive(s[5..]);
      } else {
        if |s| >= 7 {
          assert s[..7][..5] == s[..5];
        }
        FiveOrSevenIsFive(s[1..]);
      }
    }
  }

  /** `w` digits in a row start at position `i` of `s`. */
  predicate DigitsAt(s: string, i: nat, w: nat) {
    i + w <= |s| && AllDigits(s[i..i + w])
  }

  lemma {:induction false} CountFixedFindsWitness(s: string, w: nat, i: nat)
    requires w > 0 && DigitsAt(s, i, w)
    ensures CountFixedDigits(s, w) > 0
    decreases |s|
  {
    if i == 0 {
      assert s[..w] == s[i..i + w];
    } else if !(|s| >= w && AllDigits(s[..w])) {
      assert s[1..][i - 1..i - 1 + w] == s[i..i + w];
      CountFixedFindsWitness(s[1..], w, i - 1);
    }
  }

  lemma {:induction false} CountFixedGivesWitness(s: string, w: nat) returns (i: nat)
    requires w > 0 && CountFixedDigits(s, w) > 0
    ensures DigitsAt(s, i, w)
    decreases |s|
  {
    if |s| >= w && AllDigits(s[..w]) {
      i := 0;
      assert s[i..i + w] == s[..w];
    } else {
      var j := CountFixedGivesWitness(s[1..], w);
      i := j + 1;
      assert s[1..][j..j + w] == s[i..i + w];
    }
  }

  /** `findall(r'\d{w}')` finds something exactly when some w digits stand in a row. */
  lemma CountFixedPositive(s: string, w: nat)
    requires w > 0
    ensures CountFixedDigits(s, w) > 0 <==> exists i: nat :: DigitsAt(s, i, w)
  {
    if CountFixedDigits(s, w) > 0 {
      var i := CountFixedGivesWitness(s, w);
    }
    if exists i: nat :: DigitsAt(s, i, w) {
      var i: nat :| DigitsAt(s, i, w);
      CountFixedFindsWitness(s, w, i);
    }
  }

  /** Every text with a 6-digit chunk also has a 5-digit chunk. */
  lemma SixDigitsGiveFive(s: string)
    requires CountFixedDigits(s, 6) > 0
    ensures CountFixedDigits(s, 5) > 0
  {
    var i := CountFixedGivesWitness(s, 6);
    assert s[i..i + 5] == s[i..i + 6][..5];
    CountFixedFindsWitness(s, 5, i);
  }

  /** No digit run at all means no digit anywhere, and conversely. */
  lemma {:induction false} NoDigitRuns(s: string)
    ensures CountDigitRuns(s) == 0 <==> forall i :: 0 <= i < |s| ==> !IsDigit(s[i])
    decreases |s|
  {
    if s != [] && !IsDigit(s[0]) {
      NoDigitRuns(s[1..]);
      assert forall i :: 1 <= i < |s| ==> s[i] == s[1..][i - 1];
    }
  }

  /** A text with a chunk of `w` digits has at least one digit run. */
  lemma FixedDigitsGiveRuns(s: string, w: nat)
    requires w > 0 && CountFixedDigits(s, w) > 0
    ensures CountDigitRuns(s) > 0
  {
    var i := CountFixedGivesWitness(s, w);
    assert IsDigit(s[i..i + w][0]);
    NoDigitRuns(s);
  }

  // ---------------------------------------------------------------- find / in

  /** `pat` occurs in `s` starting at position `j`. */
  predicate OccursAt(s: string, pat: string, j: nat) {
    j + |pat| <= |s| && s[j..j + |pat|] == pat
  }

  function FindFrom(s: string, pat: string, i: nat): int
    requires i <= |s|
    decreases |s| - i
  {
    if i + |pat| > |s| then -1
    else if s[i..i + |pat|] == pat then i
    else FindFrom(s, pat, i + 1)
  }

  /** `s.find(pat)`: the first position where `pat` occurs, or -1. */
  function Find(s: string, pat: string): int {
    FindFrom(s, pat, 0)
  }

  lemma {:induction false} FindFromSpec(s: string, pat: string, i: nat)
    requires i <= |s|
    ensures var k := FindFrom(s, pat, i);
      (k == -1 || (i <= k && OccursAt(s, pat, k))) &&
      forall j: nat :: i <= j && (k == -1 || j < k) ==> !OccursAt(s, pat, j)
    decreases |s| - i
  {
    if i + |pat| <= |s| && s[i..i + |pat|] != pat {
      FindFromSpec(s, pat, i + 1);
    }
  }

  /** `s.find(pat)` is -1 when `pat` does not occur, and otherwise its first occurrence. */
  lemma FindSpec(s: string, pat: string)
    ensures var k := Find(s, pat);
      (k == -1 || (k >= 0 && OccursAt(s, pat, k))) &&
      forall j: nat :: (k == -1 || j < k) ==> !OccursAt(s, pat, j)
  {
    FindFromSpec(s, pat, 0);
  }

  /** `pat in s`. */
  predicate Contains(s: string, pat: string) {
    Find(s, pat) >= 0
  }

  lemma ContainsIff(s: string, pat: string)
    ensures Contains(s, pat) <==> exists j: nat :: OccursAt(s, pat, j)
  {
    FindSpec(s, pat);
  }

  // ------------------------------------------------------------ strip / upper

  /** `str(x)` of a cell: its text, or "nan" when it is missing. */
  function CellText(x: Option<string>): string {
    match x
    case Some(s) => s
    case None => "nan"
  }


  function TrimStart(s: string): (r: string)
    ensures |r| <= |s| && (r == [] || !IsSpace(r[0]))
    ensures r == s[|s| - |r|..]
  {
    if s != [] && IsSpace(s[0]) then TrimStart(s[1..]) else s
  }

  function TrimEnd(s: string): (r: string)
    ensures |r| <= |s| && (r == [] || !IsSpace(r[|r| - 1]))
    ensures r == s[..|r|]
  {
    if s != [] && IsSpace(s[|s| - 1]) then TrimEnd(s[..|s| - 1]) else s
  }

  /** `s.strip()`: leading and trailing whitespace removed. */
  function Strip(s: string): (r: string)
    ensures r == [] || (!IsSpace(r[0]) && !IsSpace(r[|r| - 1]))
  {
    TrimEnd(TrimStart(s))
  }

  function UpperChar(c: char): char {
    if 'a' <= c <= 'z' then (c as int - 32) as char else c
  }

  /** `s.upper()` on ASCII letters. */
  function Upper(s: string): (r: string)
    ensures |r| == |s|
  {
    if s == [] then [] else [UpperChar(s[0])] + Upper(s[1..])
  }

  function LowerChar(c: char): char {
    if 'A' <= c <= 'Z' then (c as int + 32) as char else c
  }

  /** `s.lower()` on ASCII letters. */
  function Lower(s: string): (r: string)
    ensures |r| == |s|
  {
    if s == [] then [] else [LowerChar(s[0])] + Lower(s[1..])
  }

  // ------------------------------------------------------------- join / split

  /** `sep.join(parts)`. */
  function Join(parts: seq<string>, sep: string): string
    decreases |parts|
  {
    if parts == [] then ""
    else if |parts| == 1 then parts[0]
    else parts[0] + sep + Join(parts[1..], sep)
  }

  /** A joined text starts with its first part. */
  lemma JoinStartsWith(parts: seq<string>, sep: string)
    requires parts != []
    ensures |Join(parts, sep)| >= |parts[0]| && Join(parts, sep)[..|parts[0]|] == parts[0]
  {
    if |parts| > 1 {
      assert Join(parts, sep) == parts[0] + (sep + Join(parts[1..], sep));
    }
  }

  /** `s.split(sep)` for a non-empty separator. */
  function Split(s: string, sep: string): (r: seq<string>)
    requires sep != []
    ensures r != []
    decreases |s|
  {
    var k := Find(s, sep);
    FindSpec(s, sep);
    if k < 0 then [s] else [s[..k]] + Split(s[k + |sep|..], sep)
  }

  /** No occurrence of the separator can start inside a part without its first character. */
  lemma FindAfterPart(p: string, sep: string, rest: string)
    requires sep != [] && forall i :: 0 <= i < |p| ==> p[i] != sep[0]
    ensures Find(p + sep + rest, sep) == |p|
  {
    var s := p + sep + rest;
    FindSpec(s, sep);
    assert s[|p|..|p| + |sep|] == sep;
    assert OccursAt(s, sep, |p|);
    forall j: nat | j < |p| ensures !OccursAt(s, sep, j) {
      if j + |sep| <= |s| {
        assert s[j..j + |sep|][0] == p[j];
      }
    }
  }

  /** Splitting a joined list on the same separator gives the list back. */
  lemma {:induction false} SplitJoin(parts: seq<string>, sep: string)
    requires sep != [] && parts != []
    requires forall k, i :: 0 <= k < |parts| && 0 <= i < |parts[k]| ==> parts[k][i] != sep[0]
    ensures Split(Join(parts, sep), sep) == parts
    decreases |parts|
  {
    var p := parts[0];
    if |parts| == 1 {
      FindSpec(p, sep);
      forall j: nat ensures !OccursAt(p, sep, j) {
        if j + |sep| <= |p| {
          assert p[j..j + |sep|][0] == p[j];
        }
      }
    } else {
      var rest := Join(parts[1..], sep);
      assert Join(parts, sep) == p + sep + rest;
      FindAfterPart(p, sep, rest);
      var s := p + sep + rest;
      assert s[..|p|] == p;
      assert s[|p| + |sep|..] == rest;
      SplitJoin(parts[1..], sep);
      assert parts == [p] + parts[1..];
    }
  }
}
