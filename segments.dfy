/**
 * The page's mock timing of a transcript (`generateMockSegments`): one
 * segment per sentence, each lasting its word count divided by a speaking
 * rate of 2.5 words per second, laid end to end from 0; and the first-match
 * lookup `handleTimeUpdate` uses to find the segment playing at a time.
 * Times are exact reals.
 */
module Segments {
  import opened Wrappers
  import opened Text

  datatype Segment = Segment(text: string, startTime: real, endTime: real)

  /** `avgWordsPerSecond`. */
  const WordsPerSecond: real := 2.5

  /** `sentence.split(/\s+/).length`: one more than the number of whitespace runs. */
  function WordCount(sentence: string): (n: nat)
    ensures n == SpaceRuns(sentence) + 1
  {
    WordSplitCount(sentence);
    |Split(AnySpace, sentence)|
  }

  /** How long a sentence is assumed to take to say. */
  function Duration(sentence: string): (d: real)
    ensures d > 0.0
  {
    WordCount(sentence) as real / WordsPerSecond
  }

  /** The time it takes to say the sentences one after another. */
  function SpeakingTime(ss: seq<string>): (t: real)
    ensures t >= 0.0
    ensures |ss| > 0 ==> t > 0.0
  {
    if |ss| == 0 then 0.0 else SpeakingTime(ss[..|ss| - 1]) + Duration(ss[|ss| - 1])
  }

  /** Each segment has positive length and ends where the next begins. */
  predicate Contiguous(segs: seq<Segment>) {
    && (forall k :: 0 <= k < |segs| ==> segs[k].startTime < segs[k].endTime)
    && (forall k :: 0 <= k < |segs| - 1 ==> segs[k].endTime == segs[k + 1].startTime)
  }

  /**
   * Segment k holds sentence k and runs from the time it takes to say the
   * sentences before it to the time it takes to say it as well.
   */
  predicate MockTiming(segs: seq<Segment>, ss: seq<string>) {
    && |segs| == |ss|
    && forall k {:trigger segs[k]} :: 0 <= k < |ss| ==>
         segs[k] == Segment(ss[k], SpeakingTime(ss[..k]), SpeakingTime(ss[..k + 1]))
  }

  /** Mock timing starts at 0, gives each sentence its duration, and leaves no gaps. */
  lemma MockTimingProperties(segs: seq<Segment>, ss: seq<string>)
    requires MockTiming(segs, ss)
    ensures |ss| > 0 ==> segs[0].startTime == 0.0
    ensures forall k :: 0 <= k < |ss| ==> segs[k].endTime - segs[k].startTime == Duration(ss[k])
    ensures Contiguous(segs)
  {
    if |ss| > 0 {
      assert segs[0].startTime == SpeakingTime(ss[..0]);
      assert ss[..0] == [];
    }
    forall k | 0 <= k < |ss|
      ensures segs[k].endTime == segs[k].startTime + Duration(ss[k])
    {
      SpeakingTimeStep(ss, k);
    }
    forall k | 0 <= k < |ss| - 1
      ensures segs[k].endTime == segs[k + 1].startTime
    {
      assert segs[k].endTime == SpeakingTime(ss[..k + 1]);
      assert segs[k + 1].startTime == SpeakingTime(ss[..k + 1]);
    }
  }

  /** Saying one more sentence takes its duration longer. */
  lemma SpeakingTimeStep(ss: seq<string>, i: nat)
    requires i < |ss|
    ensures SpeakingTime(ss[..i + 1]) == SpeakingTime(ss[..i]) + Duration(ss[i])
  {
    assert ss[..i + 1][..i] == ss[..i];
  }

  /**
   * `generateMockSegments`: one segment per sentence of the transcript,
   * timed as MockTiming says.
   */
  method GenerateMockSegments(transcript: string) returns (segments: seq<Segment>)
    ensures MockTiming(segments, Split(SentenceEnd, transcript))
    ensures segments[0].startTime == 0.0
    ensures Contiguous(segments)
  {
    var sentences := Split(SentenceEnd, transcript);
    var currentTime := 0.0;
    segments := [];
    var i := 0;
    while i < |sentences|
      invariant 0 <= i <= |sentences| && |segments| == i
      invariant currentTime == SpeakingTime(sentences[..i])
      invariant forall k {:trigger segments[k]} :: 0 <= k < i ==>
        segments[k] == Segment(sentences[k], SpeakingTime(sentences[..k]), SpeakingTime(sentences[..k + 1]))
    {
      var wordCount := |Split(AnySpace, sentences[i])|;
      var duration := wordCount as real / WordsPerSecond;
      SpeakingTimeStep(sentences, i);
      segments := segments + [Segment(sentences[i], currentTime, currentTime + duration)];
      currentTime := currentTime + duration;
      i := i + 1;
    }
    MockTimingProperties(segments, sentences);
  }

  // ---------------------------------------------------------------------
  // Finding the segment that covers a time
  // ---------------------------------------------------------------------

  /** `currentTime >= segment.startTime && currentTime <= segment.endTime`. */
  predicate Covers(seg: Segment, t: real) {
    seg.startTime <= t <= seg.endTime
  }

  function FirstCoveringFrom(segs: seq<Segment>, t: real, i: nat): (r: Option<nat>)
    requires i <= |segs|
    ensures r.Some? ==> i <= r.value < |segs| && Covers(segs[r.value], t)
    ensures r.Some? ==> forall k :: i <= k < r.value ==> !Covers(segs[k], t)
    ensures r.None? ==> forall k :: i <= k < |segs| ==> !Covers(segs[k], t)
    decreases |segs| - i
  {
    if i == |segs| then None
    else if Covers(segs[i], t) then Some(i)
    else FirstCoveringFrom(segs, t, i + 1)
  }

  /** `transcriptSegments.findIndex(...)`, with None for -1. */
  function FirstCovering(segs: seq<Segment>, t: real): (r: Option<nat>)
    ensures r.Some? ==> r.value < |segs| && Covers(segs[r.value], t)
    ensures r.Some? ==> forall k :: 0 <= k < r.value ==> !Covers(segs[k], t)
    ensures r.None? ==> forall k :: 0 <= k < |segs| ==> !Covers(segs[k], t)
  {
    FirstCoveringFrom(segs, t, 0)
  }

  /** In contiguous segments, every earlier segment ends no later than a later one starts. */
  lemma {:induction false} ContiguousOrdered(segs: seq<Segment>, j: nat, k: nat)
    requires Contiguous(segs) && j < k < |segs|
    ensures segs[j].endTime <= segs[k].startTime
    decreases k - j
  {
    if j + 1 < k {
      ContiguousOrdered(segs, j + 1, k);
    }
  }

  /**
   * In contiguous segments the lookup finds segment k exactly for the times
   * after the previous segment's end (from the first segment's start for
   * k = 0) up to and including segment k's end.
   */
  lemma ActiveSegmentWindow(segs: seq<Segment>, t: real, k: nat)
    requires Contiguous(segs) && k < |segs|
    ensures FirstCovering(segs, t) == Some(k) <==>
      (if k == 0 then segs[0].startTime <= t else segs[k - 1].endTime < t) && t <= segs[k].endTime
  {
    var inWindow := (if k == 0 then segs[0].startTime <= t else segs[k - 1].endTime < t) && t <= segs[k].endTime;
    if inWindow {
      forall j | 0 <= j < k ensures !Covers(segs[j], t) {
        if j < k - 1 { ContiguousOrdered(segs, j, k - 1); }
      }
      if k > 0 { assert Covers(segs[k], t); }
      var r := FirstCovering(segs, t);
      assert r.Some?;
    }
    if FirstCovering(segs, t) == Some(k) && k > 0 {
      assert !Covers(segs[k - 1], t);
    }
  }

  /**
   * A time on the boundary between two segments is attributed to the
   * earlier one, because both bounds of the lookup are inclusive.
   */
  lemma BoundaryGoesToEarlier(segs: seq<Segment>, k: nat)
    requires Contiguous(segs) && 0 < k < |segs|
    ensures FirstCovering(segs, segs[k].startTime) == Some(k - 1)
  {
    ActiveSegmentWindow(segs, segs[k].startTime, k - 1);
  }

  /** In contiguous segments the lookup fails exactly outside the span they cover. */
  lemma NoActiveSegmentOutside(segs: seq<Segment>, t: real)
    requires Contiguous(segs) && |segs| > 0
    ensures FirstCovering(segs, t).None? <==> t < segs[0].startTime || segs[|segs| - 1].endTime < t
  {
    if segs[0].startTime <= t <= segs[|segs| - 1].endTime {
      var k := 0;
      while k < |segs| - 1 && segs[k].endTime < t
        invariant 0 <= k < |segs| && segs[k].startTime <= t
      {
        k := k + 1;
      }
      assert Covers(segs[k], t);
    } else if FirstCovering(segs, t).Some? {
      var k := FirstCovering(segs, t).value;
      if t < segs[0].startTime {
        if k > 0 { ContiguousOrdered(segs, 0, k); }
      } else if k < |segs| - 1 {
        ContiguousOrdered(segs, k, |segs| - 1);
      }
    }
  }
}
