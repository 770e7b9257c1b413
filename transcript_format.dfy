/**
 * The page's text formatting: `formatTime` (the `M:SS` clock shown beside
 * each segment and under the player) and `formatTranscript` (paragraphs of
 * three sentences, with an optional speaker label laid out on its own line).
 */
module TranscriptFormat {
  import opened Wrappers
  import opened Text

  // ---------------------------------------------------------------------
  // formatTime
  // ---------------------------------------------------------------------

  /** `${secs < 10 ? '0' : ''}${secs}`: exactly two digits for a number below 60. */
  function PaddedSeconds(secs: nat): (r: string)
    requires secs < 60
    ensures |r| == 2 && AllDigits(r) && DecimalValue(r) == secs
  {
    DecimalRoundTrip(secs);
    if secs < 10 then
      var d := Decimal(secs);
      assert ("0" + d)[..1] == "0";
      "0" + d
    else
      assert Decimal(secs) == Decimal(secs / 10) + [DigitChar(secs % 10)];
      Decimal(secs)
  }

  /**
   * `formatTime`: whole minutes, a colon, and the seconds within the minute
   * padded with a zero to two digits.
   */
  function FormatTime(seconds: nat): (r: string)
    ensures |r| >= 4 && r[|r| - 3] == ':'
    ensures AllDigits(r[..|r| - 3]) && DecimalValue(r[..|r| - 3]) == seconds / 60
    ensures |r| > 4 ==> r[0] != '0'
    ensures AllDigits(r[|r| - 2..]) && DecimalValue(r[|r| - 2..]) == seconds % 60
  {
    var minutes := Decimal(seconds / 60);
    var secs := PaddedSeconds(seconds % 60);
    DecimalRoundTrip(seconds / 60);
    var r := minutes + ":" + secs;
    assert r[..|r| - 3] == minutes && r[|r| - 2..] == secs;
    r
  }

  /** Reads an `M:SS` clock back: the minutes field and a two-digit seconds field below 60. */
  function ParseTime(t: string): (r: Option<nat>)
    ensures r.Some? ==> |t| >= 4 && t[|t| - 3] == ':'
  {
    if |t| >= 4 && t[|t| - 3] == ':' && AllDigits(t[..|t| - 3]) && AllDigits(t[|t| - 2..])
       && DecimalValue(t[|t| - 2..]) < 60
    then Some(DecimalValue(t[..|t| - 3]) * 60 + DecimalValue(t[|t| - 2..]))
    else None
  }

  /** The clock's two fields recombine to the whole number of seconds. */
  lemma FormatTimeRoundTrip(seconds: nat)
    ensures ParseTime(FormatTime(seconds)) == Some(seconds)
  {
  }

  /** Different times never show the same clock. */
  lemma FormatTimeInjective(a: nat, b: nat)
    ensures a != b ==> FormatTime(a) != FormatTime(b)
  {
    FormatTimeRoundTrip(a);
    FormatTimeRoundTrip(b);
  }

  // ---------------------------------------------------------------------
  // The speaker pattern `^([A-Za-z\s]+):\s`
  // ---------------------------------------------------------------------

  /** The character class `[A-Za-z\s]`. */
  predicate IsLabelChar(c: char) {
    ('A' <= c <= 'Z') || ('a' <= c <= 'z') || IsSpace(c)
  }

  /** The pattern matches p with a speaker name of length n. */
  predicate SpeakerMatchAt(p: string, n: nat) {
    && 1 <= n && n + 1 < |p|
    && (forall i :: 0 <= i < n ==> IsLabelChar(p[i]))
    && p[n] == ':' && IsSpace(p[n + 1])
  }

  /** The end of the maximal run of `[A-Za-z\s]` from i. */
  function LabelRunEnd(p: string, i: nat): (j: nat)
    requires i <= |p|
    ensures i <= j <= |p|
    ensures forall k :: i <= k < j ==> IsLabelChar(p[k])
    ensures j < |p| ==> !IsLabelChar(p[j])
    decreases |p| - i
  {
    if i < |p| && IsLabelChar(p[i]) then LabelRunEnd(p, i + 1) else i
  }

  /**
   * The length of the speaker name the pattern captures in p, if it matches.
   * Because `:` is not in the class, the greedy run cannot backtrack to a
   * shorter match: the match, when there is one, is unique.
   */
  function SpeakerMatch(p: string): (r: Option<nat>)
    ensures r.Some? ==> SpeakerMatchAt(p, r.value)
    ensures r.Some? ==> forall m :: SpeakerMatchAt(p, m) ==> m == r.value
    ensures r.None? ==> forall m :: !SpeakerMatchAt(p, m)
  {
    var n := LabelRunEnd(p, 0);
    if n >= 1 && n + 1 < |p| && p[n] == ':' && IsSpace(p[n + 1]) then Some(n) else None
  }

  /**
   * `p.replace(speakerPattern, cb)` with the page's callback, which returns
   * the speaker, `":\n  "` and `p.substring(match.length)`; `replace` then
   * appends what follows the match once more.
   */
  function SpeakerLayoutAsWritten(p: string): (r: string)
    ensures SpeakerMatch(p).None? ==> r == p
    ensures SpeakerMatch(p).Some? ==>
      var n := SpeakerMatch(p).value;
      var rest := p[n + 2..];
      r == p[..n] + ":\n  " + rest + rest
  {
    match SpeakerMatch(p)
    case None => p
    case Some(n) =>
      var callback := p[..n] + ":\n  " + p[n + 2..];
      callback + p[n + 2..]
  }

  /** On "A: b." the page prints the text after the label twice. */
  lemma SpeakerLayoutAsWrittenDuplicates()
    ensures SpeakerLayoutAsWritten("A: b.") == "A:\n  b.b."
  {
  }

  /** The layout the callback evidently intends: the label on its own line, the text once. */
  function SpeakerLayout(p: string): (r: string)
    ensures SpeakerMatch(p).None? ==> r == p
    ensures SpeakerMatch(p).Some? ==>
      var n := SpeakerMatch(p).value;
      |r| == |p| + 2 && r[..n + 4] == p[..n] + ":\n  " && r[n + 4..] == p[n + 2..]
  {
    match SpeakerMatch(p)
    case None => p
    case Some(n) => p[..n] + ":\n  " + p[n + 2..]
  }

  /**
   * The intended layout only changes the separator after the label: turning
   * the line break and indent back into the matched whitespace restores p.
   */
  lemma SpeakerLayoutKeepsText(p: string)
    requires SpeakerMatch(p).Some?
    ensures var n := SpeakerMatch(p).value;
      var r := SpeakerLayout(p);
      r[..n + 1] + [p[n + 1]] + r[n + 4..] == p
  {
  }

  /** The as-written layout differs from the intended one whenever text follows the label. */
  lemma AsWrittenDiffersFromIntended(p: string)
    requires SpeakerMatch(p).Some? && SpeakerMatch(p).value + 2 < |p|
    ensures SpeakerLayoutAsWritten(p) != SpeakerLayout(p)
  {
  }

  // ---------------------------------------------------------------------
  // formatTranscript
  // ---------------------------------------------------------------------

  const SentencesPerParagraph: nat := 3

  function Min(a: int, b: int): int {
    if a <= b then a else b
  }

  /** How many paragraphs n sentences make: the number of loop iterations, ceil(n/3). */
  function ParagraphCount(n: nat): nat {
    (n + SentencesPerParagraph - 1) / SentencesPerParagraph
  }

  /** Paragraph k: sentences 3k .. 3k+2 (as many as there are), joined by a space. */
  function Paragraph(ss: seq<string>, k: nat): string
    requires k < ParagraphCount(|ss|)
  {
    Join(ss[SentencesPerParagraph * k..Min(SentencesPerParagraph * k + SentencesPerParagraph, |ss|)], " ")
  }

  function ParagraphsOf(ss: seq<string>): seq<string> {
    seq(ParagraphCount(|ss|), k requires 0 <= k < ParagraphCount(|ss|) => Paragraph(ss, k))
  }

  /** The loop at the heart of `formatTranscript`: push each slice of three sentences, joined. */
  method GroupParagraphs(ss: seq<string>) returns (paragraphs: seq<string>)
    ensures paragraphs == ParagraphsOf(ss)
  {
    paragraphs := [];
    var i := 0;
    while i < |ss|
      invariant i == SentencesPerParagraph * |paragraphs|
      invariant i <= |ss| + SentencesPerParagraph - 1
      invariant |paragraphs| <= ParagraphCount(|ss|)
      invariant forall k :: 0 <= k < |paragraphs| ==> paragraphs[k] == Paragraph(ss, k)
    {
      paragraphs := paragraphs + [Join(ss[i..Min(i + SentencesPerParagraph, |ss|)], " ")];
      i := i + SentencesPerParagraph;
    }
  }

  /** Paragraphs after the first shift by one when the first three sentences are dropped. */
  lemma ParagraphsShift(ss: seq<string>)
    requires |ss| > SentencesPerParagraph
    ensures ParagraphsOf(ss) == [Join(ss[..SentencesPerParagraph], " ")] + ParagraphsOf(ss[SentencesPerParagraph..])
  {
    var tail := ss[SentencesPerParagraph..];
    assert ParagraphCount(|ss|) == ParagraphCount(|tail|) + 1;
    forall k | 0 <= k < ParagraphCount(|tail|)
      ensures Paragraph(ss, k + 1) == Paragraph(tail, k)
    {
      var lo := SentencesPerParagraph * k;
      var hi := Min(lo + SentencesPerParagraph, |tail|);
      assert SentencesPerParagraph * (k + 1) == lo + SentencesPerParagraph;
      assert Min(lo + 2 * SentencesPerParagraph, |ss|) == hi + SentencesPerParagraph;
      var a, b := ss[lo + SentencesPerParagraph..hi + SentencesPerParagraph], tail[lo..hi];
      assert |a| == |b|;
      forall i | 0 <= i < |a| ensures a[i] == b[i] {
        assert a[i] == ss[lo + SentencesPerParagraph + i];
      }
      assert a == b;
    }
  }

  /**
   * Paragraphs keep every sentence, in order: joined back with a space they
   * give the sentences joined with a space.
   */
  lemma {:induction false} ParagraphsKeepSentences(ss: seq<string>)
    requires |ss| >= 1
    ensures Join(ParagraphsOf(ss), " ") == Join(ss, " ")
    decreases |ss|
  {
    if |ss| <= SentencesPerParagraph {
      assert ParagraphsOf(ss) == [Join(ss, " ")] by {
        assert ss[0..Min(SentencesPerParagraph, |ss|)] == ss;
      }
    } else {
      var head, tail := ss[..SentencesPerParagraph], ss[SentencesPerParagraph..];
      ParagraphsShift(ss);
      ParagraphsKeepSentences(tail);
      JoinAppend(head, tail, " ");
      assert head + tail == ss;
      JoinAppend([Join(head, " ")], ParagraphsOf(tail), " ");
    }
  }

  /** `sentences.some(s => speakerPattern.test(s))`. */
  predicate HasSpeakers(ss: seq<string>)
    ensures HasSpeakers(ss) ==> |ss| > 0
  {
    exists k :: 0 <= k < |ss| && SpeakerMatch(ss[k]).Some?
  }

  /** `some` over a concatenation holds iff it holds over one of the parts. */
  lemma HasSpeakersAppend(a: seq<string>, b: seq<string>)
    ensures HasSpeakers(a + b) <==> HasSpeakers(a) || HasSpeakers(b)
  {
    if HasSpeakers(a + b) {
      var k :| 0 <= k < |a + b| && SpeakerMatch((a + b)[k]).Some?;
      if k >= |a| {
        assert b[k - |a|] == (a + b)[k];
      }
    }
    if HasSpeakers(a) {
      var k :| 0 <= k < |a| && SpeakerMatch(a[k]).Some?;
      assert (a + b)[k] == a[k];
    }
    if HasSpeakers(b) {
      var k :| 0 <= k < |b| && SpeakerMatch(b[k]).Some?;
      assert (a + b)[|a| + k] == b[k];
    }
  }

  /** The speaker branch's `paragraphs.map(...)`, as the page writes it. */
  function SpeakerLayouts(ps: seq<string>): (r: seq<string>)
    ensures |r| == |ps|
    ensures forall k :: 0 <= k < |ps| ==> r[k] == SpeakerLayoutAsWritten(ps[k])
  {
    seq(|ps|, k requires 0 <= k < |ps| => SpeakerLayoutAsWritten(ps[k]))
  }

  /**
   * `formatTranscript`: nothing for an absent or empty transcript; otherwise
   * the paragraphs joined by a blank line, laid out for speakers when any
   * sentence starts with a speaker label.
   */
  method FormatTranscript(transcript: Option<string>) returns (r: string)
    ensures transcript == None || transcript == Some("") ==> r == ""
    ensures transcript.Some? && transcript.value != "" ==>
      var ss := Split(SentenceEnd, transcript.value);
      && (!HasSpeakers(ss) ==> r == Join(ParagraphsOf(ss), "\n\n"))
      && (HasSpeakers(ss) ==> r == Join(SpeakerLayouts(ParagraphsOf(ss)), "\n\n"))
  {
    if transcript == None || transcript == Some("") {
      return "";
    }
    var sentences := Split(SentenceEnd, transcript.value);
    var paragraphs := GroupParagraphs(sentences);
    if !HasSpeakers(sentences) {
      r := Join(paragraphs, "\n\n");
    } else {
      r := Join(SpeakerLayouts(paragraphs), "\n\n");
    }
  }
}
