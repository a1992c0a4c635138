/**
 * The text step of the Word export: before conversion, every bold date of the form
 * `**DD.DD.DDDD**` in the markdown is replaced by the chosen date, in bold.
 */
module Export {
  import opened Wrappers
  import opened Strings

  /** The length of a bold date: two asterisks, ten characters of date, two asterisks. */
  const DATE_LEN: nat := 14

  predicate IsDigit(c: char) {
    '0' <= c <= '9'
  }

  /** `w` is a bold date: `**`, two digits, `.`, two digits, `.`, four digits, `**`. */
  predicate IsBoldDate(w: string) {
    |w| == DATE_LEN &&
    w[0] == '*' && w[1] == '*' &&
    IsDigit(w[2]) && IsDigit(w[3]) && w[4] == '.' &&
    IsDigit(w[5]) && IsDigit(w[6]) && w[7] == '.' &&
    IsDigit(w[8]) && IsDigit(w[9]) && IsDigit(w[10]) && IsDigit(w[11]) &&
    w[12] == '*' && w[13] == '*'
  }

  /** A bold date starts at position `i` of `s`. */
  predicate DateAt(s: string, i: nat) {
    i + DATE_LEN <= |s| && IsBoldDate(s[i..i + DATE_LEN])
  }

  /** `re.sub` of the bold-date pattern by `repl`: a left-to-right scan that skips past each match. */
  function Substitute(s: string, repl: string): string
    decreases |s|
  {
    if s == [] then []
    else if DateAt(s, 0) then repl + Substitute(s[DATE_LEN..], repl)
    else [s[0]] + Substitute(s[1..], repl)
  }

  /** The positions the scan replaces, in order. */
  function MatchPositions(s: string): (r: seq<nat>)
    ensures forall k | 0 <= k < |r| :: DateAt(s, r[k])
    ensures forall k | 0 <= k < |r| - 1 :: r[k] + DATE_LEN <= r[k + 1]
    decreases |s|
  {
    if s == [] then []
    else if DateAt(s, 0) then
      var ps := MatchPositions(s[DATE_LEN..]);
      ShiftedDates(s, DATE_LEN, ps);
      var r := [0] + Shift(ps, DATE_LEN);
      assert forall k | 1 <= k < |r| :: r[k] == ps[k - 1] + DATE_LEN;
      r
    else
      var ps := MatchPositions(s[1..]);
      ShiftedDates(s, 1, ps);
      Shift(ps, 1)
  }

  function Shift(ps: seq<nat>, d: nat): (r: seq<nat>)
    ensures |r| == |ps| && forall k | 0 <= k < |ps| :: r[k] == ps[k] + d
  {
    seq(|ps|, k requires 0 <= k < |ps| => ps[k] + d)
  }

  /** A date in a suffix of `s` is a date of `s`, further along by the suffix's offset. */
  lemma ShiftedDates(s: string, d: nat, ps: seq<nat>)
    requires d <= |s|
    requires forall k | 0 <= k < |ps| :: DateAt(s[d..], ps[k])
    ensures forall k | 0 <= k < |ps| :: DateAt(s, ps[k] + d)
  {
    forall k | 0 <= k < |ps|
      ensures DateAt(s, ps[k] + d)
    {
      assert s[d..][ps[k]..ps[k] + DATE_LEN] == s[ps[k] + d..ps[k] + d + DATE_LEN];
    }
  }

  /** The pieces of `s` between the matches the scan replaces: one more than there are matches. */
  function Gaps(s: string): (r: seq<string>)
    ensures |r| >= 1
    ensures |r[0]| <= |s| && r[0] == s[..|r[0]|]
    decreases |s|
  {
    if s == [] then [[]]
    else if DateAt(s, 0) then [[]] + Gaps(s[DATE_LEN..])
    else
      var g := Gaps(s[1..]);
      [[s[0]] + g[0]] + g[1..]
  }

  /** The result is the pieces between the matches, glued together by the replacement. */
  lemma {:induction false} SubstituteGaps(s: string, repl: string)
    ensures Substitute(s, repl) == Join(Gaps(s), repl)
    decreases |s|
  {
    if s != [] {
      if DateAt(s, 0) {
        SubstituteGaps(s[DATE_LEN..], repl);
        JoinEmptyHead(Gaps(s[DATE_LEN..]), repl);
      } else {
        SubstituteGaps(s[1..], repl);
        JoinExtendHead(s[0], Gaps(s[1..]), repl);
      }
    }
  }

  lemma JoinEmptyHead(g: seq<string>, repl: string)
    requires |g| >= 1
    ensures Join([[]] + g, repl) == repl + Join(g, repl)
  {
    assert ([[]] + g)[1..] == g;
  }

  lemma JoinExtendHead(c: char, g: seq<string>, repl: string)
    requires |g| >= 1
    ensures Join([[c] + g[0]] + g[1..], repl) == [c] + Join(g, repl)
  {
    var first := [c] + g[0];
    if |g| > 1 {
      assert ([first] + g[1..])[1..] == g[1..];
    }
  }

  /** There is one more piece than there are matches. */
  lemma {:induction false} GapsCount(s: string)
    ensures |Gaps(s)| == |MatchPositions(s)| + 1
    decreases |s|
  {
    if s != [] {
      if DateAt(s, 0) {
        GapsCount(s[DATE_LEN..]);
      } else {
        GapsCount(s[1..]);
      }
    }
  }

  /** Where the `k`-th piece starts, given the match positions `ps`: at 0, or past the match before it. */
  function Start(ps: seq<nat>, k: nat): nat
    requires k <= |ps|
  {
    if k == 0 then 0 else ps[k - 1] + DATE_LEN
  }

  /** Where the `k`-th piece ends in a text of length `n`: at the match after it, or at `n`. */
  function End(ps: seq<nat>, n: nat, k: nat): nat
    requires k <= |ps|
  {
    if k < |ps| then ps[k] else n
  }

  function GapStart(s: string, k: nat): nat
    requires k <= |MatchPositions(s)|
  {
    Start(MatchPositions(s), k)
  }

  function GapEnd(s: string, k: nat): (r: nat)
    requires k <= |MatchPositions(s)|
    ensures GapStart(s, k) <= r <= |s|
  {
    End(MatchPositions(s), |s|, k)
  }

  /** The `k`-th piece is the original text between the match before it and the match after it. */
  lemma {:induction false} GapSlice(s: string, k: nat)
    requires k <= |MatchPositions(s)|
    ensures |Gaps(s)| == |MatchPositions(s)| + 1
    ensures Gaps(s)[k] == s[GapStart(s, k)..GapEnd(s, k)]
    decreases |s|
  {
    GapsCount(s);
    if s != [] {
      if DateAt(s, 0) {
        if k > 0 {
          var t := s[DATE_LEN..];
          GapSlice(t, k - 1);
          ScanDate(s);
          PieceAfterDate(s, Gaps(t), MatchPositions(t), k);
        }
      } else {
        var t := s[1..];
        GapSlice(t, k);
        ScanChar(s);
        PieceAfterChar(s, Gaps(t), MatchPositions(t), k);
      }
    }
  }

  /** One step of the scan over a text that starts with a bold date. */
  lemma ScanDate(s: string)
    requires DateAt(s, 0)
    ensures MatchPositions(s) == [0] + Shift(MatchPositions(s[DATE_LEN..]), DATE_LEN)
    ensures Gaps(s) == [[]] + Gaps(s[DATE_LEN..])
  {
  }

  /** One step of the scan over a text that does not start with a bold date. */
  lemma ScanChar(s: string)
    requires s != [] && !DateAt(s, 0)
    ensures MatchPositions(s) == Shift(MatchPositions(s[1..]), 1)
    ensures Gaps(s) == [[s[0]] + Gaps(s[1..])[0]] + Gaps(s[1..])[1..]
  {
  }

  /** A piece found after a leading bold date lies `DATE_LEN` further along in the whole text. */
  lemma PieceAfterDate(s: string, g: seq<string>, ps: seq<nat>, k: nat)
    requires DATE_LEN <= |s| && 0 < k <= |ps| + 1 && |g| == |ps| + 1
    requires Start(ps, k - 1) <= End(ps, |s| - DATE_LEN, k - 1) <= |s| - DATE_LEN
    requires g[k - 1] == s[DATE_LEN..][Start(ps, k - 1)..End(ps, |s| - DATE_LEN, k - 1)]
    ensures var qs := [0] + Shift(ps, DATE_LEN);
      ([[]] + g)[k] == s[Start(qs, k)..End(qs, |s|, k)]
  {
    var qs := [0] + Shift(ps, DATE_LEN);
    var a, b := Start(ps, k - 1), End(ps, |s| - DATE_LEN, k - 1);
    assert Start(qs, k) == a + DATE_LEN;
    assert End(qs, |s|, k) == b + DATE_LEN;
    assert ([[]] + g)[k] == g[k - 1];
    SliceOfSuffix(s, DATE_LEN, a, b);
  }

  /** A piece found after a leading ordinary character lies one further along; the first piece gains it. */
  lemma PieceAfterChar(s: string, g: seq<string>, ps: seq<nat>, k: nat)
    requires s != [] && k <= |ps| && |g| == |ps| + 1
    requires Start(ps, k) <= End(ps, |s| - 1, k) <= |s| - 1
    requires g[k] == s[1..][Start(ps, k)..End(ps, |s| - 1, k)]
    ensures var qs := Shift(ps, 1);
      ([[s[0]] + g[0]] + g[1..])[k] == s[Start(qs, k)..End(qs, |s|, k)]
  {
    var qs := Shift(ps, 1);
    var a, b := Start(ps, k), End(ps, |s| - 1, k);
    assert End(qs, |s|, k) == b + 1;
    SliceOfSuffix(s, 1, a, b);
    if k == 0 {
      assert s[0..b + 1] == [s[0]] + s[1..b + 1];
    } else {
      assert Start(qs, k) == a + 1;
      assert ([[s[0]] + g[0]] + g[1..])[k] == g[k];
    }
  }

  /** The pieces of a suffix `s[d..]`, read in `s`, lie `d` further along. */
  lemma SliceOfSuffix(s: string, d: nat, a: nat, b: nat)
    requires d <= |s| && a <= b <= |s| - d
    ensures s[d..][a..b] == s[a + d..b + d]
  {
  }

  /** Every piece is the original text between consecutive matches: nothing else is changed. */
  lemma GapsAreSlices(s: string)
    ensures |Gaps(s)| == |MatchPositions(s)| + 1
    ensures forall k | 0 <= k < |Gaps(s)| :: Gaps(s)[k] == s[GapStart(s, k)..GapEnd(s, k)]
  {
    GapsCount(s);
    forall k | 0 <= k < |Gaps(s)|
      ensures Gaps(s)[k] == s[GapStart(s, k)..GapEnd(s, k)]
    {
      GapSlice(s, k);
    }
  }

  /** The scan misses nothing: no piece between two replacements holds a bold date. */
  lemma {:induction false} GapsHoldNoDate(s: string)
    ensures forall k, i | 0 <= k < |Gaps(s)| && 0 <= i :: !DateAt(Gaps(s)[k], i)
    decreases |s|
  {
    if s != [] {
      if DateAt(s, 0) {
        GapsHoldNoDate(s[DATE_LEN..]);
        assert forall k | 1 <= k < |Gaps(s)| :: Gaps(s)[k] == Gaps(s[DATE_LEN..])[k - 1];
      } else {
        var g := Gaps(s[1..]);
        GapsHoldNoDate(s[1..]);
        var first := [s[0]] + g[0];
        assert first == s[..|first|];
        forall i: nat
          ensures !DateAt(first, i)
        {
          if i + DATE_LEN <= |first| {
            if i == 0 {
              assert first[0..DATE_LEN] == s[0..DATE_LEN];
            } else {
              assert first[i..i + DATE_LEN] == g[0][i - 1..i - 1 + DATE_LEN];
              assert !DateAt(g[0], i - 1);
            }
          }
        }
        assert forall k | 1 <= k < |Gaps(s)| :: Gaps(s)[k] == g[k];
      }
    }
  }

  /** A text without a bold date comes back unchanged. */
  lemma {:induction false} SubstituteNoDate(s: string, repl: string)
    requires forall i: nat :: !DateAt(s, i)
    ensures Substitute(s, repl) == s
    ensures MatchPositions(s) == []
    decreases |s|
  {
    if s != [] {
      forall i: nat
        ensures !DateAt(s[1..], i)
      {
        if i + DATE_LEN <= |s| - 1 {
          assert s[1..][i..i + DATE_LEN] == s[i + 1..i + 1 + DATE_LEN];
          assert !DateAt(s, i + 1);
        }
      }
      SubstituteNoDate(s[1..], repl);
    }
  }

  /** The date step of `markdown_to_docx`: without a date, or with an empty one, the text is kept. */
  function SubstituteDate(markdown: string, date: Option<string>): (r: string)
    ensures date.None? || date.value == [] ==> r == markdown
  {
    if date.None? || date.value == [] then markdown else Substitute(markdown, "**" + date.value + "**")
  }

  /**
   * With a date, the text becomes its pieces between the bold dates found, glued by the new
   * bold date: one replacement per bold date found, and none left inside a piece.
   */
  lemma SubstituteDateReplaces(markdown: string, date: string)
    requires date != []
    ensures var gaps := Gaps(markdown);
      SubstituteDate(markdown, Some(date)) == Join(gaps, "**" + date + "**") &&
      |gaps| == |MatchPositions(markdown)| + 1 &&
      (forall k | 0 <= k < |gaps| :: gaps[k] == markdown[GapStart(markdown, k)..GapEnd(markdown, k)]) &&
      forall k, i | 0 <= k < |gaps| && 0 <= i :: !DateAt(gaps[k], i)
  {
    SubstituteGaps(markdown, "**" + date + "**");
    GapsAreSlices(markdown);
    GapsHoldNoDate(markdown);
  }

  /** A text without a bold date is kept even when a date is given. */
  lemma SubstituteDateNoMatch(markdown: string, date: Option<string>)
    requires forall i: nat :: !DateAt(markdown, i)
    ensures SubstituteDate(markdown, date) == markdown
  {
    if date.Some? && date.value != [] {
      SubstituteNoDate(markdown, "**" + date.value + "**");
    }
  }
}
