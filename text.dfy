/** The JavaScript string operations the scraper relies on, on strings as sequences of characters. */
module Text {
  import opened Wrappers

  predicate IsDigit(c: char) {
    '0' <= c <= '9'
  }

  /** `pat` occurs in `s` starting at index `i`. */
  predicate OccursAt(s: string, pat: string, i: nat) {
    i + |pat| <= |s| && s[i..i + |pat|] == pat
  }

  /**
   * The first occurrence of `pat` at or after `from`: the search by which `includes` and
   * `replace` with a string pattern are defined below, always from 0. It agrees with
   * `s.indexOf(pat, from)` for `from <= |s|`; beyond the end JavaScript clamps `from` to `|s|`.
   */
  function IndexOf(s: string, pat: string, from: nat): (r: Option<nat>)
    ensures r.Some? ==> from <= r.value && r.value + |pat| <= |s|
    decreases |s| - from
  {
    if from + |pat| > |s| then None
    else if s[from..from + |pat|] == pat then Some(from)
    else IndexOf(s, pat, from + 1)
  }

  /** indexOf finds the least index at or after `from` where `pat` occurs, and nothing when there is none. */
  lemma {:induction false} IndexOfFirst(s: string, pat: string, from: nat)
    ensures var r := IndexOf(s, pat, from);
      (r.Some? ==> from <= r.value && OccursAt(s, pat, r.value))
      && (r.Some? ==> forall j :: from <= j < r.value ==> !OccursAt(s, pat, j))
      && (r.None? ==> forall j :: from <= j ==> !OccursAt(s, pat, j))
    decreases |s| - from
  {
    if from + |pat| <= |s| && s[from..from + |pat|] != pat {
      IndexOfFirst(s, pat, from + 1);
    }
  }

  /** `s.includes(pat)`. */
  predicate Includes(s: string, pat: string) {
    IndexOf(s, pat, 0).Some?
  }

  lemma IncludesOccurs(s: string, pat: string)
    ensures Includes(s, pat) <==> exists j :: OccursAt(s, pat, j)
  {
    IndexOfFirst(s, pat, 0);
  }

  /** `s.replace(pat, rep)` with a string pattern: only the first occurrence is replaced. */
  function ReplaceFirst(s: string, pat: string, rep: string): string {
    match IndexOf(s, pat, 0)
    case None => s
    case Some(i) => s[..i] + rep + s[i + |pat|..]
  }

  /** Without an occurrence nothing changes; otherwise `rep` stands where the first occurrence of `pat` was. */
  lemma ReplaceFirstOccurrence(s: string, pat: string, rep: string)
    ensures !Includes(s, pat) ==> ReplaceFirst(s, pat, rep) == s
    ensures Includes(s, pat) ==>
      var r := ReplaceFirst(s, pat, rep);
      var i := IndexOf(s, pat, 0).value;
      |r| == |s| - |pat| + |rep| && r[..i] == s[..i] && OccursAt(r, rep, i) && r[i + |rep|..] == s[i + |pat|..]
  {
  }

  /** `s.slice(0, n)`. */
  function Prefix(s: string, n: nat): string {
    if |s| <= n then s else s[..n]
  }

  /**
   * The match of the regular expression /[^-]*$/ against `s`. The engine tries the
   * start positions from left to right and accepts the first one from which no '-'
   * remains, so the match is the longest suffix of `s` without a '-'.
   */
  function DashFreeSuffix(s: string): (r: string)
    ensures |r| <= |s| && r == s[|s| - |r|..]
    ensures '-' !in r
    ensures |r| < |s| ==> s[|s| - |r| - 1] == '-'
  {
    if '-' !in s then s else DashFreeSuffix(s[1..])
  }

  /** The least index at or after `from` holding a decimal digit. */
  function FirstDigitIndex(s: string, from: nat): (r: Option<nat>)
    ensures r.Some? ==> from <= r.value < |s| && IsDigit(s[r.value])
    ensures r.Some? ==> forall j :: from <= j < r.value ==> !IsDigit(s[j])
    ensures r.None? ==> forall j :: from <= j < |s| ==> !IsDigit(s[j])
    decreases |s| - from
  {
    if from >= |s| then None
    else if IsDigit(s[from]) then Some(from)
    else FirstDigitIndex(s, from + 1)
  }

  /** The end of the run of digits that starts at `from` (greedy `\d+`). */
  function DigitRunEnd(s: string, from: nat): (e: nat)
    requires from <= |s|
    ensures from <= e <= |s|
    ensures forall j :: from <= j < e ==> IsDigit(s[j])
    ensures e < |s| ==> !IsDigit(s[e])
    decreases |s| - from
  {
    if from < |s| && IsDigit(s[from]) then DigitRunEnd(s, from + 1) else from
  }

  /** `s.match(/\d+/)`: the leftmost maximal run of decimal digits, or null. */
  function FirstDigitRun(s: string): Option<string> {
    match FirstDigitIndex(s, 0)
    case None => None
    case Some(p) => Some(s[p..DigitRunEnd(s, p)])
  }

  lemma FirstDigitRunIsLeftmostMaximal(s: string)
    ensures FirstDigitRun(s).None? <==> forall j :: 0 <= j < |s| ==> !IsDigit(s[j])
    ensures FirstDigitRun(s).Some? ==>
      exists p, e :: 0 <= p < e <= |s| && FirstDigitRun(s).value == s[p..e]
        && (forall j :: 0 <= j < p ==> !IsDigit(s[j]))
        && (forall j :: p <= j < e ==> IsDigit(s[j]))
        && (e < |s| ==> !IsDigit(s[e]))
  {
    match FirstDigitIndex(s, 0)
    case None =>
    case Some(p) =>
      var e := DigitRunEnd(s, p);
      assert p < e;
  }

  function DigitValue(c: char): nat {
    if IsDigit(c) then c as int - '0' as int else 0
  }

  /** `parseInt` of a run of decimal digits: the number it denotes in base 10. */
  function DecimalValue(ds: string): nat {
    if ds == [] then 0 else 10 * DecimalValue(ds[..|ds| - 1]) + DigitValue(ds[|ds| - 1])
  }

  /** A run of digits stands for at least 10 exactly when it has a non-zero digit before its last one. */
  lemma {:induction false} DecimalValueAtLeastTen(ds: string)
    requires forall j :: 0 <= j < |ds| ==> IsDigit(ds[j])
    ensures DecimalValue(ds) >= 10 <==> exists j :: 0 <= j < |ds| - 1 && ds[j] != '0'
  {
    if ds != [] {
      var init := ds[..|ds| - 1];
      DecimalValueAtLeastTen(init);
      if exists j :: 0 <= j < |init| && init[j] != '0' {
        var j :| 0 <= j < |init| && init[j] != '0';
        assert DecimalValue(init) >= 1 by { DecimalValuePositive(init, j); }
      } else {
        DecimalValueZeros(init);
      }
    }
  }

  lemma {:induction false} DecimalValuePositive(ds: string, j: nat)
    requires forall i :: 0 <= i < |ds| ==> IsDigit(ds[i])
    requires j < |ds| && ds[j] != '0'
    ensures DecimalValue(ds) >= 1
  {
    if j < |ds| - 1 {
      DecimalValuePositive(ds[..|ds| - 1], j);
    }
  }

  lemma {:induction false} DecimalValueZeros(ds: string)
    requires forall i :: 0 <= i < |ds| ==> ds[i] == '0'
    ensures DecimalValue(ds) == 0
  {
    if ds != [] {
      DecimalValueZeros(ds[..|ds| - 1]);
    }
  }
}
