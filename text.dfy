/**
 * The string operations the page and the route rely on: the regular
 * expression `\s` (restricted to ASCII), JavaScript's `split` with the two
 * delimiters the page uses, `join`, `includes`, and decimal rendering of
 * natural numbers.
 */
module Text {

  /** `\s`, restricted to the ASCII whitespace characters. */
  predicate IsSpace(c: char) {
    c == ' ' || c == '\t' || c == '\n' || c == '\r' || c == '\U{000B}' || c == '\U{000C}'
  }

  /** The character class `[.!?]`. */
  predicate IsTerminator(c: char) {
    c == '.' || c == '!' || c == '?'
  }

  /**
   * The two delimiters the page splits on:
   * SentenceEnd is `/(?<=[.!?])\s+/`, AnySpace is `/\s+/`.
   */
  datatype Delimiter = SentenceEnd | AnySpace

  /** A match of the delimiter can start at index i of s. */
  predicate DelimiterAt(d: Delimiter, s: string, i: nat)
    requires i < |s|
  {
    IsSpace(s[i]) && (d == AnySpace || (i > 0 && IsTerminator(s[i - 1])))
  }

  /** No match of the delimiter starts anywhere in s. */
  predicate NoDelimiter(d: Delimiter, s: string) {
    forall i :: 0 <= i < |s| ==> !DelimiterAt(d, s, i)
  }

  /** The first index at or after i where a match of d starts, or |s| when there is none. */
  function NextDelimiter(d: Delimiter, s: string, i: nat): (j: nat)
    requires i <= |s|
    ensures i <= j <= |s|
    ensures j < |s| ==> DelimiterAt(d, s, j)
    ensures forall k :: i <= k < j ==> !DelimiterAt(d, s, k)
    decreases |s| - i
  {
    if i == |s| then i
    else if DelimiterAt(d, s, i) then i
    else NextDelimiter(d, s, i + 1)
  }

  /** The end of the maximal run of whitespace that starts at i (the greedy `\s+`). */
  function SpaceRunEnd(s: string, i: nat): (j: nat)
    requires i <= |s|
    ensures i <= j <= |s|
    ensures forall k :: i <= k < j ==> IsSpace(s[k])
    ensures j < |s| ==> !IsSpace(s[j])
    decreases |s| - i
  {
    if i < |s| && IsSpace(s[i]) then SpaceRunEnd(s, i + 1) else i
  }

  /**
   * `s.split(re)` for the two delimiters: the pieces between the matches,
   * each match being a maximal whitespace run. The empty string splits
   * into one empty piece, as in JavaScript.
   */
  function Split(d: Delimiter, s: string): (pieces: seq<string>)
    ensures |pieces| >= 1
    ensures pieces[0] <= s
    decreases |s|
  {
    var b := NextDelimiter(d, s, 0);
    if b == |s| then [s]
    else [s[..b]] + Split(d, s[SpaceRunEnd(s, b)..])
  }

  /** The total length of the pieces. */
  function TotalLength(ps: seq<string>): nat {
    if |ps| == 0 then 0 else |ps[0]| + TotalLength(ps[1..])
  }

  /**
   * `ps.join(sep)`: starts with the first piece and holds every piece with
   * one separator between neighbours.
   */
  function Join(ps: seq<string>, sep: string): (r: string)
    ensures |ps| == 0 ==> r == ""
    ensures |ps| >= 1 ==> ps[0] <= r
    ensures |ps| >= 1 ==> |r| == TotalLength(ps) + (|ps| - 1) * |sep|
  {
    if |ps| == 0 then ""
    else if |ps| == 1 then ps[0]
    else ps[0] + sep + Join(ps[1..], sep)
  }

  function Last(s: string): char
    requires |s| > 0
  {
    s[|s| - 1]
  }

  /**
   * What a sentence list looks like: no piece holds a sentence break, every
   * piece but the last is non-empty and ends in `.`, `!` or `?`, and no
   * piece after the first begins with whitespace.
   */
  predicate WellFormedSentences(ps: seq<string>) {
    && |ps| >= 1
    && (forall k :: 0 <= k < |ps| ==> NoDelimiter(SentenceEnd, ps[k]))
    && (forall k :: 0 <= k < |ps| - 1 ==> |ps[k]| > 0 && IsTerminator(Last(ps[k])))
    && (forall k :: 1 <= k < |ps| ==> |ps[k]| > 0 ==> !IsSpace(ps[k][0]))
  }

  /** Every sentence break in s is followed by exactly one plain space. */
  predicate SingleSpaced(s: string) {
    forall i :: 0 <= i < |s| && DelimiterAt(SentenceEnd, s, i) ==>
      s[i] == ' ' && (i + 1 == |s| || !IsSpace(s[i + 1]))
  }

  /** `s.includes(sub)`: true when s starts with sub, false when sub is longer than s. */
  predicate Contains(s: string, sub: string)
    ensures sub <= s ==> Contains(s, sub)
    ensures |sub| > |s| ==> !Contains(s, sub)
    decreases |s|
  {
    sub <= s || (|s| > 0 && Contains(s[1..], sub))
  }

  /** The decimal digit for d. */
  function DigitChar(d: nat): (c: char)
    requires d < 10
    ensures '0' <= c <= '9'
  {
    ('0' as int + d) as char
  }

  function DigitValue(c: char): (d: nat)
    requires '0' <= c <= '9'
    ensures d < 10
  {
    (c as int - '0' as int)
  }

  predicate AllDigits(s: string) {
    forall i :: 0 <= i < |s| ==> '0' <= s[i] <= '9'
  }

  /** `${n}` for a natural number: decimal, no leading zeros. */
  function Decimal(n: nat): (r: string)
    ensures |r| >= 1 && AllDigits(r)
    ensures |r| > 1 ==> r[0] != '0'
  {
    if n < 10 then [DigitChar(n)] else Decimal(n / 10) + [DigitChar(n % 10)]
  }

  /** The number a string of decimal digits denotes. */
  function DecimalValue(s: string): nat
    requires AllDigits(s)
  {
    if |s| == 0 then 0 else DecimalValue(s[..|s| - 1]) * 10 + DigitValue(s[|s| - 1])
  }

  // ---------------------------------------------------------------------
  // Lemmas about splitting and joining
  // ---------------------------------------------------------------------

  /** Joining a concatenation joins the two parts with one more separator. */
  lemma {:induction false} JoinAppend(a: seq<string>, b: seq<string>, sep: string)
    requires |a| >= 1 && |b| >= 1
    ensures Join(a + b, sep) == Join(a, sep) + sep + Join(b, sep)
    decreases |a|
  {
    if |a| > 1 {
      assert (a + b)[1..] == a[1..] + b;
      JoinAppend(a[1..], b, sep);
    }
  }

  /** The sentence split always yields a well-formed sentence list. */
  lemma {:induction false} SplitIsWellFormed(s: string)
    ensures WellFormedSentences(Split(SentenceEnd, s))
    decreases |s|
  {
    var b := NextDelimiter(SentenceEnd, s, 0);
    if b < |s| {
      var e := SpaceRunEnd(s, b);
      var p, t := s[..b], s[e..];
      SplitIsWellFormed(t);
      var rest := Split(SentenceEnd, t);
      assert Split(SentenceEnd, s) == [p] + rest;
      forall i | 0 <= i < |p|
        ensures !DelimiterAt(SentenceEnd, p, i)
      {
        assert !DelimiterAt(SentenceEnd, s, i);
      }
      assert |rest[0]| > 0 ==> rest[0][0] == t[0] == s[e];
    }
  }

  /** The tail of a well-formed sentence list is well-formed. */
  lemma WellFormedTail(ps: seq<string>)
    requires WellFormedSentences(ps) && |ps| >= 2
    ensures WellFormedSentences(ps[1..])
  {
  }

  /**
   * In sentences joined by single spaces, the first match of the sentence
   * delimiter is the single space right after the first sentence.
   */
  lemma FirstBreakOfJoin(ps: seq<string>)
    requires WellFormedSentences(ps) && |ps| >= 2
    ensures var s := Join(ps, " ");
      && NextDelimiter(SentenceEnd, s, 0) == |ps[0]|
      && SpaceRunEnd(s, |ps[0]|) == |ps[0]| + 1
      && s[..|ps[0]|] == ps[0]
      && s[|ps[0]| + 1..] == Join(ps[1..], " ")
  {
    var s := Join(ps, " ");
    var p, tail := ps[0], ps[1..];
    var j := Join(tail, " ");
    assert s == p + " " + j;
    assert DelimiterAt(SentenceEnd, s, |p|) by {
      assert s[|p|] == ' ' && s[|p| - 1] == Last(p);
    }
    forall i | 0 <= i < |p|
      ensures !DelimiterAt(SentenceEnd, s, i)
    {
      assert !DelimiterAt(SentenceEnd, p, i);
    }
    if !(|tail| == 1 && |tail[0]| == 0) {
      assert |tail[0]| > 0;
      assert s[|p| + 1] == j[0] == tail[0][0];
    }
  }

  /** Splitting sentences joined by single spaces gives the sentences back. */
  lemma {:induction false} SplitJoin(ps: seq<string>)
    requires WellFormedSentences(ps)
    ensures Split(SentenceEnd, Join(ps, " ")) == ps
    decreases |ps|
  {
    var s := Join(ps, " ");
    if |ps| > 1 {
      FirstBreakOfJoin(ps);
      WellFormedTail(ps);
      SplitJoin(ps[1..]);
      assert Split(SentenceEnd, s) == [ps[0]] + ps[1..];
    }
  }

  /** Joining the sentences of a single-spaced text with single spaces gives the text back. */
  lemma {:induction false} JoinSplit(s: string)
    requires SingleSpaced(s)
    ensures Join(Split(SentenceEnd, s), " ") == s
    decreases |s|
  {
    var b := NextDelimiter(SentenceEnd, s, 0);
    if b < |s| {
      assert s[b] == ' ' && (b + 1 == |s| || !IsSpace(s[b + 1]));
      var e := SpaceRunEnd(s, b);
      assert e == b + 1;
      var t := s[e..];
      assert SingleSpaced(t) by {
        forall i | 0 <= i < |t| && DelimiterAt(SentenceEnd, t, i)
          ensures t[i] == ' ' && (i + 1 == |t| || !IsSpace(t[i + 1]))
        {
          assert DelimiterAt(SentenceEnd, s, e + i);
        }
      }
      JoinSplit(t);
      var rest := Split(SentenceEnd, t);
      assert Split(SentenceEnd, s) == [s[..b]] + rest;
      assert Join([s[..b]] + rest, " ") == s[..b] + " " + Join(rest, " ") by {
        assert ([s[..b]] + rest)[1..] == rest;
      }
      SliceThree(s, b, e);
      assert s[b..e] == " ";
    }
  }

  /** Every character of w is whitespace. */
  predicate AllSpace(w: string) {
    forall i :: 0 <= i < |w| ==> IsSpace(w[i])
  }

  /** The pieces with the given runs put back between them: `ps[0] + ws[0] + ps[1] + …`. */
  function Weave(ps: seq<string>, ws: seq<string>): string
    requires |ps| == |ws| + 1
    decreases |ws|
  {
    if |ws| == 0 then ps[0] else ps[0] + ws[0] + Weave(ps[1..], ws[1..])
  }

  /**
   * `split` loses only its delimiters: for every input there are non-empty
   * whitespace runs, one between each pair of pieces, that put back
   * between the pieces give the input again.
   */
  lemma {:induction false} SplitKeepsText(d: Delimiter, s: string) returns (ws: seq<string>)
    ensures |ws| + 1 == |Split(d, s)|
    ensures forall k :: 0 <= k < |ws| ==> |ws[k]| > 0 && AllSpace(ws[k])
    ensures Weave(Split(d, s), ws) == s
    decreases |s|
  {
    var b := NextDelimiter(d, s, 0);
    if b == |s| {
      ws := [];
    } else {
      var e := SpaceRunEnd(s, b);
      var w := DelimiterRun(d, s, b);
      var t := s[e..];
      var rest := SplitKeepsText(d, t);
      ws := [w] + rest;
      assert Split(d, s) == [s[..b]] + Split(d, t);
      WeaveCons(s[..b], Split(d, t), w, rest);
      SliceThree(s, b, e);
      assert forall k :: 1 <= k < |ws| ==> ws[k] == rest[k - 1];
    }
  }

  lemma SliceThree(s: string, i: nat, j: nat)
    requires i <= j <= |s|
    ensures s == s[..i] + s[i..j] + s[j..]
  {
    assert s[..j] == s[..i] + s[i..j];
  }

  /** A match of the delimiter at i is a non-empty run of whitespace. */
  lemma DelimiterRun(d: Delimiter, s: string, i: nat) returns (w: string)
    requires i < |s| && DelimiterAt(d, s, i)
    ensures w == s[i..SpaceRunEnd(s, i)]
    ensures |w| > 0 && AllSpace(w)
  {
    w := s[i..SpaceRunEnd(s, i)];
    forall k | 0 <= k < |w| ensures IsSpace(w[k]) {
      assert w[k] == s[i + k];
    }
  }

  lemma WeaveCons(p: string, ps: seq<string>, w: string, ws: seq<string>)
    requires |ps| == |ws| + 1
    ensures Weave([p] + ps, [w] + ws) == p + w + Weave(ps, ws)
  {
    assert ([p] + ps)[1..] == ps && ([w] + ws)[1..] == ws;
  }

  // ---------------------------------------------------------------------
  // Words: the pieces of `split(/\s+/)` are one more than the whitespace runs
  // ---------------------------------------------------------------------

  /** A maximal whitespace run starts at index i. */
  predicate RunStartAt(s: string, i: nat)
    requires i < |s|
  {
    IsSpace(s[i]) && (i == 0 || !IsSpace(s[i - 1]))
  }

  /** The number of whitespace runs that start at or after index i. */
  function SpaceRunsFrom(s: string, i: nat): nat
    requires i <= |s|
    decreases |s| - i
  {
    if i == |s| then 0 else (if RunStartAt(s, i) then 1 else 0) + SpaceRunsFrom(s, i + 1)
  }

  /** The number of maximal whitespace runs in s. */
  function SpaceRuns(s: string): nat {
    SpaceRunsFrom(s, 0)
  }

  /** Indices where no run starts add nothing to the count. */
  lemma {:induction false} SpaceRunsSkip(s: string, i: nat, j: nat)
    requires i <= j <= |s|
    requires forall k :: i <= k < j ==> !RunStartAt(s, k)
    ensures SpaceRunsFrom(s, i) == SpaceRunsFrom(s, j)
    decreases j - i
  {
    if i < j {
      SpaceRunsSkip(s, i + 1, j);
    }
  }

  /** Counting from index k of a suffix is counting from the same place in the whole string. */
  lemma {:induction false} SpaceRunsShift(s: string, e: nat, k: nat)
    requires 1 <= k && e + k <= |s|
    ensures SpaceRunsFrom(s, e + k) == SpaceRunsFrom(s[e..], k)
    decreases |s| - (e + k)
  {
    if e + k < |s| {
      assert RunStartAt(s, e + k) == RunStartAt(s[e..], k);
      SpaceRunsShift(s, e, k + 1);
    }
  }

  /** `s.split(/\s+/)` has one piece more than s has whitespace runs. */
  lemma {:induction false} WordSplitCount(s: string)
    ensures |Split(AnySpace, s)| == SpaceRuns(s) + 1
    decreases |s|
  {
    var b := NextDelimiter(AnySpace, s, 0);
    assert forall k :: 0 <= k < b ==> !IsSpace(s[k]) by {
      forall k | 0 <= k < b ensures !IsSpace(s[k]) {
        assert !DelimiterAt(AnySpace, s, k);
      }
    }
    SpaceRunsSkip(s, 0, b);
    if b < |s| {
      var e := SpaceRunEnd(s, b);
      assert b == 0 || !IsSpace(s[b - 1]);
      SpaceRunsSkip(s, b + 1, e);
      var t := s[e..];
      WordSplitCount(t);
      if e < |s| {
        assert !RunStartAt(s, e) && !RunStartAt(t, 0);
        SpaceRunsShift(s, e, 1);
      }
    }
  }

  // ---------------------------------------------------------------------
  // Lemmas about `includes`
  // ---------------------------------------------------------------------

  /** An occurrence of sub at index i makes s contain sub. */
  lemma {:induction false} ContainsAt(s: string, sub: string, i: nat)
    requires i + |sub| <= |s| && s[i..i + |sub|] == sub
    ensures Contains(s, sub)
    decreases i
  {
    if i == 0 {
      assert s[..|sub|] == sub;
    } else {
      assert s[1..][i - 1..i - 1 + |sub|] == s[i..i + |sub|];
      ContainsAt(s[1..], sub, i - 1);
    }
  }

  /** A string that contains sub has an occurrence of it. */
  lemma {:induction false} ContainsOccurrence(s: string, sub: string) returns (i: nat)
    requires Contains(s, sub)
    ensures i + |sub| <= |s| && s[i..i + |sub|] == sub
    decreases |s|
  {
    if sub <= s {
      i := 0;
    } else {
      var j := ContainsOccurrence(s[1..], sub);
      i := j + 1;
      assert s[1..][j..j + |sub|] == s[i..i + |sub|];
    }
  }

  // ---------------------------------------------------------------------
  // Lemmas about decimal rendering
  // ---------------------------------------------------------------------

  /** Reading back the decimal rendering of n gives n. */
  lemma {:induction false} DecimalRoundTrip(n: nat)
    ensures DecimalValue(Decimal(n)) == n
  {
    if n >= 10 {
      var d := Decimal(n / 10);
      DecimalRoundTrip(n / 10);
      assert (d + [DigitChar(n % 10)])[..|d|] == d;
    }
  }
}
