/**
 * The Python string operations the source relies on, over `string` (a `seq<char>`):
 * `str.strip`, `in` on strings, `str.split`, `str.split(sep)`, `str.split(sep, 1)`,
 * `str.join`, `str.splitlines` and `str()` of an integer.
 */
module Strings {
  import opened Wrappers

  /** Python's `str.isspace` for a single character. */
  predicate IsSpace(c: char) {
    || c == ' '
    || ('\t' <= c <= '\r')
    || ('\U{1C}' <= c <= '\U{1F}')
    || c == '\U{85}' || c == '\U{A0}' || c == '\U{1680}'
    || ('\U{2000}' <= c <= '\U{200A}')
    || c == '\U{2028}' || c == '\U{2029}' || c == '\U{202F}' || c == '\U{205F}' || c == '\U{3000}'
  }

  /** Every character of `s` is whitespace. */
  predicate AllSpace(s: string) {
    forall k | 0 <= k < |s| :: IsSpace(s[k])
  }

  /** `s.lstrip()`: the suffix of `s` that starts at its first non-space character. */
  function LStrip(s: string): (r: string)
    ensures |r| <= |s| && r == s[|s| - |r|..]
    ensures AllSpace(s[..|s| - |r|])
    ensures r == [] || !IsSpace(r[0])
  {
    if s != [] && IsSpace(s[0]) then
      var r := LStrip(s[1..]);
      var n := |s| - |r|;
      assert forall k | 1 <= k < n :: s[..n][k] == s[1..][..n - 1][k - 1];
      r
    else s
  }

  /** `s.rstrip()`: the prefix of `s` that ends at its last non-space character. */
  function RStrip(s: string): (r: string)
    ensures |r| <= |s| && r == s[..|r|]
    ensures AllSpace(s[|r|..])
    ensures r == [] || !IsSpace(r[|r| - 1])
  {
    if s != [] && IsSpace(s[|s| - 1]) then
      var r := RStrip(s[..|s| - 1]);
      assert s[|r|..] == s[..|s| - 1][|r|..] + [s[|s| - 1]];
      r
    else s
  }

  /** `s.strip()`: `s` without its leading and trailing whitespace. */
  function Strip(s: string): (r: string)
    ensures r == [] <==> AllSpace(s)
    ensures r != [] ==> !IsSpace(r[0]) && !IsSpace(r[|r| - 1])
    ensures IsTrimmed(r)
  {
    StripEmpty(s);
    StripNonEmpty(s);
    StripNotAllSpace(s);
    RStrip(LStrip(s))
  }

  lemma StripEmpty(s: string)
    ensures RStrip(LStrip(s)) == [] ==> AllSpace(s)
  {
    var l := LStrip(s);
    if RStrip(l) == [] {
      assert l[0..] == l;
      assert l == [];
      assert s[..|s|] == s;
    }
  }

  lemma StripNonEmpty(s: string)
    ensures var r := RStrip(LStrip(s));
      r != [] ==> !IsSpace(r[0]) && !IsSpace(r[|r| - 1])
  {
    var l := LStrip(s);
    var r := RStrip(l);
    if r != [] {
      assert r[0] == l[0];
    }
  }

  lemma StripNotAllSpace(s: string)
    ensures RStrip(LStrip(s)) != [] ==> !AllSpace(s)
  {
    var l := LStrip(s);
    if RStrip(l) != [] {
      var k := |s| - |l|;
      assert s[k] == l[0];
      NotAllSpaceAt(s, k);
    }
  }

  lemma AllSpaceTail(s: string)
    requires s != [] && IsSpace(s[0])
    ensures AllSpace(s) <==> AllSpace(s[1..])
  {
    if AllSpace(s[1..]) {
      forall k | 0 <= k < |s|
        ensures IsSpace(s[k])
      {
        if k > 0 {
          assert s[k] == s[1..][k - 1];
        }
      }
    } else {
      var j :| 0 <= j < |s[1..]| && !IsSpace(s[1..][j]);
      NotAllSpaceAt(s, j + 1);
    }
  }

  lemma NotAllSpaceAt(s: string, k: nat)
    requires k < |s| && !IsSpace(s[k])
    ensures !AllSpace(s)
  {
  }

  /** `not s or not s.strip()`: empty or whitespace only. */
  predicate IsBlank(s: string) {
    Strip(s) == []
  }

  /** A string `strip` leaves alone: empty, or non-space at both ends. */
  predicate IsTrimmed(s: string) {
    s == [] || (!IsSpace(s[0]) && !IsSpace(s[|s| - 1]))
  }

  lemma StripTrimmed(s: string)
    requires IsTrimmed(s)
    ensures Strip(s) == s
  {
  }

  /** `strip` is idempotent. */
  lemma StripIdempotent(s: string)
    ensures Strip(Strip(s)) == Strip(s)
  {
    StripTrimmed(Strip(s));
  }

  /** `p` occurs in `s` starting at position `i`. */
  predicate OccursAt(s: string, p: string, i: int) {
    0 <= i <= |s| - |p| && s[i..i + |p|] == p
  }

  /** Python's `p in s` for strings: `p` occurs in `s` as a contiguous piece. */
  predicate Contains(s: string, p: string) {
    exists i | 0 <= i <= |s| - |p| :: OccursAt(s, p, i)
  }

  /** A piece of a string contains only what the whole string contains. */
  lemma ContainsOfSlice(s: string, a: nat, b: nat, p: string)
    requires a <= b <= |s|
    requires Contains(s[a..b], p)
    ensures Contains(s, p)
  {
    var t := s[a..b];
    var i :| 0 <= i <= |t| - |p| && OccursAt(t, p, i);
    SliceOfSlice(s, a, b, i, i + |p|);
    assert OccursAt(s, p, a + i);
  }

  lemma SliceOfSlice(s: string, a: nat, b: nat, i: nat, j: nat)
    requires a <= b <= |s| && i <= j <= b - a
    ensures s[a..b][i..j] == s[a + i..a + j]
  {
    assert forall k | 0 <= k < j - i :: s[a..b][i..j][k] == s[a + i + k];
  }

  /**
   * Gluing two strings with a separator character that `p` does not contain
   * creates no new occurrence of `p`.
   */
  lemma {:induction false} NotContainsAcrossSeparator(a: string, c: char, b: string, p: string)
    requires p != [] && c !in p
    requires !Contains(a, p) && !Contains(b, p)
    ensures !Contains(a + [c] + b, p)
  {
    var s := a + [c] + b;
    forall i | 0 <= i <= |s| - |p|
      ensures !OccursAt(s, p, i)
    {
      if i + |p| <= |a| {
        assert a[i..i + |p|] == s[i..i + |p|];
        assert !OccursAt(a, p, i);
      } else if i > |a| {
        assert b[i - |a| - 1..i - |a| - 1 + |p|] == s[i..i + |p|];
        assert !OccursAt(b, p, i - |a| - 1);
      } else {
        assert s[i..i + |p|][|a| - i] == c;
      }
    }
  }

  /** The first position of `c` in `s`, as `str.find` finds it. */
  function IndexOf(s: string, c: char): (r: Option<nat>)
    ensures r.None? <==> c !in s
    ensures r.Some? ==> r.value < |s| && s[r.value] == c && c !in s[..r.value]
  {
    if s == [] then None
    else if s[0] == c then Some(0)
    else match IndexOf(s[1..], c)
      case None => None
      case Some(i) => assert s[..i + 1] == [s[0]] + s[1..][..i]; Some(i + 1)
  }

  /** `s.split(c, 1)` when it yields two parts: the text before and after the first `c`. */
  function SplitOnce(s: string, c: char): (r: Option<(string, string)>)
    ensures r.None? <==> c !in s
    ensures r.Some? ==> s == r.value.0 + [c] + r.value.1 && c !in r.value.0
  {
    match IndexOf(s, c)
    case None => None
    case Some(i) => assert s == s[..i] + [c] + s[i + 1..]; Some((s[..i], s[i + 1..]))
  }

  lemma {:induction false} IndexOfFirst(a: string, c: char, b: string)
    requires c !in a
    ensures IndexOf(a + [c] + b, c) == Some(|a|)
  {
    if a != [] {
      assert (a + [c] + b)[1..] == a[1..] + [c] + b;
      IndexOfFirst(a[1..], c, b);
    }
  }

  /** A string has only one way to be cut at the first `c`. */
  lemma SplitOnceOf(a: string, c: char, b: string)
    requires c !in a
    ensures SplitOnce(a + [c] + b, c) == Some((a, b))
  {
    var s := a + [c] + b;
    IndexOfFirst(a, c, b);
    assert s[..|a|] == a;
    assert s[|a| + 1..] == b;
  }

  /** `s.split(c)`: the pieces of `s` between occurrences of `c`. */
  function SplitOn(s: string, c: char): (r: seq<string>)
    ensures |r| >= 1
    ensures forall k | 0 <= k < |r| :: c !in r[k]
    decreases |s|
  {
    match SplitOnce(s, c)
    case None => [s]
    case Some((a, b)) => [a] + SplitOn(b, c)
  }

  /** `sep.join(parts)`. */
  function Join(parts: seq<string>, sep: string): string
  {
    if parts == [] then ""
    else if |parts| == 1 then parts[0]
    else parts[0] + sep + Join(parts[1..], sep)
  }

  /** Joining the pieces of a split restores the string. */
  lemma {:induction false} JoinSplitOn(s: string, c: char)
    ensures Join(SplitOn(s, c), [c]) == s
    decreases |s|
  {
    match SplitOnce(s, c)
    case None =>
    case Some((a, b)) =>
      JoinSplitOn(b, c);
  }

  /** Splitting a join restores the pieces when none of them holds the separator. */
  lemma {:induction false} SplitOnJoin(parts: seq<string>, c: char)
    requires |parts| >= 1
    requires forall k | 0 <= k < |parts| :: c !in parts[k]
    ensures SplitOn(Join(parts, [c]), c) == parts
  {
    if |parts| > 1 {
      SplitOnceOf(parts[0], c, Join(parts[1..], [c]));
      SplitOnJoin(parts[1..], c);
      assert parts == [parts[0]] + parts[1..];
    }
  }

  /** A string without the separator is one piece. */
  lemma SplitOnAbsent(s: string, c: char)
    requires c !in s
    ensures SplitOn(s, c) == [s]
  {
  }

  /** Splitting at a separator between two strings splits each of them. */
  lemma {:induction false} SplitOnSeparated(a: string, c: char, b: string)
    ensures SplitOn(a + [c] + b, c) == SplitOn(a, c) + SplitOn(b, c)
    decreases |a|
  {
    match SplitOnce(a, c)
    case None =>
      SplitOnceOf(a, c, b);
    case Some((a1, a2)) =>
      assert a + [c] + b == a1 + [c] + (a2 + [c] + b);
      SplitOnceOf(a1, c, a2 + [c] + b);
      SplitOnSeparated(a2, c, b);
  }

  /** The number of occurrences of `c` in `s`. */
  function CountChar(s: string, c: char): nat
  {
    if s == [] then 0 else (if s[0] == c then 1 else 0) + CountChar(s[1..], c)
  }

  lemma {:induction false} CountCharConcat(a: string, b: string, c: char)
    ensures CountChar(a + b, c) == CountChar(a, c) + CountChar(b, c)
  {
    if a == [] {
      assert a + b == b;
    } else {
      assert (a + b)[1..] == a[1..] + b;
      CountCharConcat(a[1..], b, c);
    }
  }

  lemma {:induction false} CountCharAbsent(s: string, c: char)
    requires c !in s
    ensures CountChar(s, c) == 0
  {
    if s != [] {
      CountCharAbsent(s[1..], c);
    }
  }

  /** `s.split(c)` has one more piece than `s` has occurrences of `c`. */
  lemma {:induction false} SplitOnLength(s: string, c: char)
    ensures |SplitOn(s, c)| == CountChar(s, c) + 1
    decreases |s|
  {
    match SplitOnce(s, c)
    case None =>
      CountCharAbsent(s, c);
    case Some((a, b)) =>
      SplitOnLength(b, c);
      CountCharConcat(a + [c], b, c);
      CountCharConcat(a, [c], c);
      CountCharAbsent(a, c);
  }

  /** Every line followed by the character `c`, as built by repeated `+= line + "\n"`. */
  function Terminated(lines: seq<string>, c: char): string
  {
    if lines == [] then "" else lines[0] + [c] + Terminated(lines[1..], c)
  }

  lemma {:induction false} TerminatedSnoc(lines: seq<string>, line: string, c: char)
    ensures Terminated(lines + [line], c) == Terminated(lines, c) + line + [c]
  {
    if lines != [] {
      assert (lines + [line])[1..] == lines[1..] + [line];
      TerminatedSnoc(lines[1..], line, c);
    }
  }

  /** Each terminated line comes back as one piece of the split, in order, with an empty tail. */
  lemma {:induction false} SplitOnTerminated(lines: seq<string>, c: char)
    requires forall k | 0 <= k < |lines| :: c !in lines[k]
    ensures SplitOn(Terminated(lines, c), c) == lines + [""]
  {
    if lines != [] {
      SplitOnceOf(lines[0], c, Terminated(lines[1..], c));
      SplitOnTerminated(lines[1..], c);
      assert lines + [""] == [lines[0]] + (lines[1..] + [""]);
    }
  }

  /** A non-empty string of non-space characters: a token of `str.split()`. */
  predicate IsWord(w: string) {
    w != [] && forall k | 0 <= k < |w| :: !IsSpace(w[k])
  }

  /** The longest prefix of `s` without whitespace. */
  function TakeWord(s: string): (w: string)
    ensures |w| <= |s| && w == s[..|w|]
    ensures forall k | 0 <= k < |w| :: !IsSpace(w[k])
    ensures |w| < |s| ==> IsSpace(s[|w|])
    ensures s != [] && !IsSpace(s[0]) ==> |w| >= 1
  {
    if s == [] || IsSpace(s[0]) then [] else [s[0]] + TakeWord(s[1..])
  }

  /** `s.split()`: the maximal runs of non-space characters, in order. */
  function SplitWs(s: string): (r: seq<string>)
    ensures forall k | 0 <= k < |r| :: IsWord(r[k])
    decreases |s|
  {
    var t := LStrip(s);
    if t == [] then []
    else
      var w := TakeWord(t);
      var rest := SplitWs(t[|w|..]);
      WordsCons(w, rest);
      [w] + rest
  }

  lemma WordsCons(w: string, ws: seq<string>)
    requires IsWord(w)
    requires forall k | 0 <= k < |ws| :: IsWord(ws[k])
    ensures forall k | 0 <= k < |[w] + ws| :: IsWord(([w] + ws)[k])
  {
    forall k | 0 <= k < |[w] + ws|
      ensures IsWord(([w] + ws)[k])
    {
      if k > 0 {
        assert ([w] + ws)[k] == ws[k - 1];
      }
    }
  }

  lemma TakeWordOfWord(w: string, rest: string)
    requires IsWord(w)
    requires rest == [] || IsSpace(rest[0])
    ensures TakeWord(w + rest) == w
  {
    var t := TakeWord(w + rest);
    assert t == (w + rest)[..|w|] == w;
  }

  lemma {:induction false} JoinWordsEnds(ws: seq<string>)
    requires |ws| >= 1
    requires forall k | 0 <= k < |ws| :: IsWord(ws[k])
    requires IsWord(ws[0]) && IsWord(ws[|ws| - 1])
    ensures Join(ws, " ") != []
    ensures Join(ws, " ")[0] == ws[0][0]
    ensures Join(ws, " ")[|Join(ws, " ")| - 1] == ws[|ws| - 1][|ws[|ws| - 1]| - 1]
  {
    if |ws| > 1 {
      assert IsWord(ws[1..][0]);
      JoinWordsEnds(ws[1..]);
    }
  }

  /** Words joined by single spaces are already stripped. */
  lemma JoinWordsTrimmed(ws: seq<string>)
    requires forall k | 0 <= k < |ws| :: IsWord(ws[k])
    ensures IsTrimmed(Join(ws, " "))
    ensures Strip(Join(ws, " ")) == Join(ws, " ")
  {
    if ws != [] {
      assert IsWord(ws[0]) && IsWord(ws[|ws| - 1]);
      JoinWordsEnds(ws);
    }
  }

  /** Splitting a word followed by whitespace-led text takes the word off the front. */
  lemma SplitWsCons(w: string, rest: string)
    requires IsWord(w)
    requires rest == [] || IsSpace(rest[0])
    ensures SplitWs(w + rest) == [w] + SplitWs(rest)
  {
    var s := w + rest;
    assert s[0] == w[0];
    assert LStrip(s) == s;
    TakeWordOfWord(w, rest);
    assert s[|w|..] == rest;
  }

  /** Leading whitespace does not change `split()`. */
  lemma SplitWsSpaceLead(c: char, t: string)
    requires IsSpace(c)
    ensures SplitWs([c] + t) == SplitWs(t)
  {
    assert ([c] + t)[1..] == t;
    assert LStrip([c] + t) == LStrip(t);
  }

  /** A single word splits to itself. */
  lemma SplitWsWord(w: string)
    requires IsWord(w)
    ensures SplitWs(w) == [w]
  {
    SplitWsCons(w, []);
    assert w + [] == w;
  }

  /** A word, a space, then more text: `split()` takes the word off the front. */
  lemma SplitWsWordSpace(w: string, j: string)
    requires IsWord(w)
    ensures SplitWs(w + ([' '] + j)) == [w] + SplitWs(j)
  {
    SplitWsCons(w, [' '] + j);
    SplitWsSpaceLead(' ', j);
  }

  lemma JoinCons(ws: seq<string>, sep: string)
    requires |ws| > 1
    ensures Join(ws, sep) == ws[0] + (sep + Join(ws[1..], sep))
  {
  }

  lemma SplitWsJoinStep(ws: seq<string>)
    requires |ws| > 1 && IsWord(ws[0])
    requires SplitWs(Join(ws[1..], " ")) == ws[1..]
    ensures SplitWs(Join(ws, " ")) == ws
  {
    JoinCons(ws, " ");
    SplitWsWordSpace(ws[0], Join(ws[1..], " "));
    assert ws == [ws[0]] + ws[1..];
  }

  /** `" ".join(ws).split() == ws` for words `ws`. */
  lemma {:induction false} SplitWsJoin(ws: seq<string>)
    requires forall k | 0 <= k < |ws| :: IsWord(ws[k])
    ensures SplitWs(Join(ws, " ")) == ws
  {
    if ws == [] {
    } else if |ws| == 1 {
      SplitWsWord(ws[0]);
    } else {
      var rest := ws[1..];
      forall k | 0 <= k < |rest|
        ensures IsWord(rest[k])
      {
        assert rest[k] == ws[k + 1];
      }
      SplitWsJoin(rest);
      SplitWsJoinStep(ws);
    }
  }

  /** Python's line boundaries for `str.splitlines`. */
  predicate IsLineBreak(c: char) {
    || c == '\n' || c == '\r' || c == '\U{0B}' || c == '\U{0C}'
    || ('\U{1C}' <= c <= '\U{1E}')
    || c == '\U{85}' || c == '\U{2028}' || c == '\U{2029}'
  }

  function FirstBreak(s: string): (r: Option<nat>)
    ensures r.None? ==> forall k | 0 <= k < |s| :: !IsLineBreak(s[k])
    ensures r.Some? ==> r.value < |s| && IsLineBreak(s[r.value])
    ensures r.Some? ==> forall k | 0 <= k < r.value :: !IsLineBreak(s[k])
  {
    if s == [] then None
    else if IsLineBreak(s[0]) then Some(0)
    else match FirstBreak(s[1..])
      case None => None
      case Some(i) => Some(i + 1)
  }

  /** `s.splitlines()`: the lines of `s` without their line breaks (`\r\n` counts as one). */
  function SplitLines(s: string): (r: seq<string>)
    ensures forall k, j | 0 <= k < |r| && 0 <= j < |r[k]| :: !IsLineBreak(r[k][j])
    decreases |s|
  {
    if s == [] then []
    else match FirstBreak(s)
      case None => [s]
      case Some(i) =>
        var w := if s[i] == '\r' && i + 1 < |s| && s[i + 1] == '\n' then 2 else 1;
        [s[..i]] + SplitLines(s[i + w..])
  }

  /** Each line of `s` is a piece of `s`, so the lines contain nothing `s` does not. */
  lemma {:induction false} SplitLinesNotContains(s: string, p: string)
    requires !Contains(s, p)
    ensures forall k | 0 <= k < |SplitLines(s)| :: !Contains(SplitLines(s)[k], p)
    decreases |s|
  {
    if s != [] {
      match FirstBreak(s)
      case None =>
      case Some(i) =>
        var w := if s[i] == '\r' && i + 1 < |s| && s[i + 1] == '\n' then 2 else 1;
        if Contains(s[0..i], p) {
          ContainsOfSlice(s, 0, i, p);
        }
        if Contains(s[i + w..|s|], p) {
          ContainsOfSlice(s, i + w, |s|, p);
        }
        assert s[..i] == s[0..i] && s[i + w..] == s[i + w..|s|];
        SplitLinesNotContains(s[i + w..], p);
    }
  }

  /**
   * When `\n` is the only line break in `s`, joining its lines with `\n` gives `s` back,
   * or `s` without its final `\n`.
   */
  lemma {:induction false} JoinSplitLines(s: string)
    requires forall k | 0 <= k < |s| :: IsLineBreak(s[k]) ==> s[k] == '\n'
    ensures Join(SplitLines(s), "\n") == s || Join(SplitLines(s), "\n") + "\n" == s
    decreases |s|
  {
    if s != [] {
      match FirstBreak(s)
      case None =>
      case Some(i) =>
        var rest := s[i + 1..];
        assert s == s[..i] + "\n" + rest;
        JoinSplitLines(rest);
        if rest != [] {
          assert SplitLines(rest) != [] by {
            if FirstBreak(rest).Some? {
              var j := FirstBreak(rest).value;
              var v := if rest[j] == '\r' && j + 1 < |rest| && rest[j + 1] == '\n' then 2 else 1;
              assert SplitLines(rest) == [rest[..j]] + SplitLines(rest[j + v..]);
            }
          }
        }
    }
  }

  /** Joining pieces that lack `p` with a separator outside `p` creates no occurrence of `p`. */
  lemma {:induction false} JoinNotContains(parts: seq<string>, c: char, p: string)
    requires p != [] && c !in p
    requires forall k | 0 <= k < |parts| :: !Contains(parts[k], p)
    ensures !Contains(Join(parts, [c]), p)
  {
    if parts == [] {
      assert !OccursAt([], p, 0);
    } else if |parts| > 1 {
      JoinNotContains(parts[1..], c, p);
      assert !Contains(parts[0], p);
      NotContainsAcrossSeparator(parts[0], c, Join(parts[1..], [c]), p);
    }
  }

  /** Trimming keeps a piece of the string, so it contains nothing the string does not. */
  lemma StripNotContains(s: string, p: string)
    requires !Contains(s, p)
    ensures !Contains(Strip(s), p)
  {
    var a := StripSlice(s);
    if Contains(s[a..a + |Strip(s)|], p) {
      ContainsOfSlice(s, a, a + |Strip(s)|, p);
    }
  }

  /** `strip` keeps the piece of `s` that starts at `a`. */
  lemma StripSlice(s: string) returns (a: nat)
    ensures a + |Strip(s)| <= |s| && Strip(s) == s[a..a + |Strip(s)|]
  {
    var l := LStrip(s);
    a := |s| - |l|;
    var r := RStrip(l);
    assert Strip(s) == r;
    assert l == s[a..];
    assert r == s[a..][..|r|];
    assert s[a..][..|r|] == s[a..a + |r|];
  }

  lemma {:induction false} LStripSnocSpace(s: string, c: char)
    requires IsSpace(c)
    ensures LStrip(s + [c]) == if AllSpace(s) then [] else LStrip(s) + [c]
  {
    if s != [] && IsSpace(s[0]) {
      assert (s + [c])[1..] == s[1..] + [c];
      LStripSnocSpace(s[1..], c);
      AllSpaceTail(s);
    } else if s != [] {
      NotAllSpaceAt(s, 0);
      assert (s + [c])[0] == s[0];
    } else {
      assert [] + [c] == [c];
    }
  }

  /** Whitespace added at the end makes no difference once the string is trimmed. */
  lemma StripSnocSpace(s: string, c: char)
    requires IsSpace(c)
    ensures Strip(s + [c]) == Strip(s)
  {
    LStripSnocSpace(s, c);
    if !AllSpace(s) {
      var l := LStrip(s);
      assert (l + [c])[..|l|] == l;
    }
  }

  function DigitChar(d: nat): char
    requires d < 10
  {
    "0123456789"[d]
  }

  function DigitValue(c: char): nat
  {
    if '0' <= c <= '9' then (c as int - '0' as int) as nat else 0
  }

  /** `str(n)` for a natural number. */
  function NatToString(n: nat): (r: string)
    ensures r != []
    ensures forall k | 0 <= k < |r| :: '0' <= r[k] <= '9'
  {
    if n < 10 then [DigitChar(n)] else NatToString(n / 10) + [DigitChar(n % 10)]
  }

  /** Reading a string of decimal digits back as a number. */
  function ParseNat(s: string): nat
  {
    if s == [] then 0 else ParseNat(s[..|s| - 1]) * 10 + DigitValue(s[|s| - 1])
  }

  /** `int(str(n)) == n`: the rendering of a number can be read back. */
  lemma {:induction false} ParseNatToString(n: nat)
    ensures ParseNat(NatToString(n)) == n
  {
    if n >= 10 {
      var s := NatToString(n);
      assert s[..|s| - 1] == NatToString(n / 10);
      ParseNatToString(n / 10);
    }
  }

  /** `str(i)` for an integer. */
  function IntToString(i: int): string
  {
    if i < 0 then "-" + NatToString(-i) else NatToString(i)
  }
}
