/**
 * The page component's state and the handlers that change it: submitting a
 * link, keeping the highlighted segment in step with the video, seeking,
 * saving and deleting transcripts in the library mirrored to the browser's
 * local storage, and the sidebar's tab guards. React's state updates are
 * modelled as immediate assignments to the fields of one object.
 */
module Home {
  import opened Wrappers
  import opened Text
  import opened Segments

  /** What the transcript endpoint answers with; absent fields are None. */
  datatype InstagramData = InstagramData(
    transcript: string,
    views: Option<string>,
    likes: Option<string>,
    comments: Option<string>,
    videoUrl: Option<string>,
    transcriptFromAudio: Option<string>)

  /** An entry of the saved-transcript library. */
  datatype SavedTranscript = SavedTranscript(
    id: string,
    date: string,
    title: string,
    transcript: string,
    videoUrl: Option<string>,
    transcriptFromAudio: Option<string>)

  datatype Tab = Transcripts | Player | Saved | Analytics

  /** A value thrown inside `handleSubmit`: an `Error` with its message, or anything else. */
  datatype Thrown = ErrorObject(message: string) | OtherValue

  /**
   * How the `fetch` of the endpoint ends: an ok response with its body, a
   * response that is not ok with its status and the body's `error` field,
   * or an exception (from `fetch` itself or from reading the body as JSON).
   */
  datatype FetchOutcome =
    | OkResponse(body: InstagramData)
    | ErrorResponse(status: nat, errorField: Option<string>)
    | Threw(thrown: Thrown)

  /** JavaScript truthiness of an optional string. */
  predicate Truthy(s: Option<string>) {
    s.Some? && s.value != ""
  }

  const FetchFallbackMessage := "Failed to fetch data. Please check the link and try again."

  /** The message `handleSubmit` throws for a response that is not ok. */
  function ErrorResponseMessage(status: nat, errorField: Option<string>): (m: string)
    ensures m != ""
    ensures Truthy(errorField) ==> m == errorField.value
    ensures !Truthy(errorField) ==> m == "Failed to fetch data (Status: " + Decimal(status) + ")"
  {
    if Truthy(errorField) then errorField.value
    else "Failed to fetch data (Status: " + Decimal(status) + ")"
  }

  /** The title a saved transcript gets: the one typed in, or a dated default. */
  function SaveTitleOrDefault(saveTitle: string, date: string): (title: string)
    ensures title != ""
    ensures saveTitle != "" ==> title == saveTitle
    ensures saveTitle == "" ==> title == "Instagram Transcript " + date
  {
    if saveTitle != "" then saveTitle else "Instagram Transcript " + date
  }

  /** `savedTranscripts.filter(t => t.id !== id)`. */
  function WithoutId(xs: seq<SavedTranscript>, id: string): (r: seq<SavedTranscript>)
    ensures |r| <= |xs|
    ensures forall e :: e in r <==> e in xs && e.id != id
  {
    if |xs| == 0 then []
    else if xs[0].id == id then WithoutId(xs[1..], id)
    else [xs[0]] + WithoutId(xs[1..], id)
  }

  /** Filtering a concatenation filters each part, keeping their order. */
  lemma {:induction false} WithoutIdAppend(xs: seq<SavedTranscript>, ys: seq<SavedTranscript>, id: string)
    ensures WithoutId(xs + ys, id) == WithoutId(xs, id) + WithoutId(ys, id)
    decreases |xs|
  {
    if |xs| > 0 {
      assert (xs + ys)[0] == xs[0] && (xs + ys)[1..] == xs[1..] + ys;
      WithoutIdAppend(xs[1..], ys, id);
      if xs[0].id != id {
        assert [xs[0]] + (WithoutId(xs[1..], id) + WithoutId(ys, id))
          == ([xs[0]] + WithoutId(xs[1..], id)) + WithoutId(ys, id);
      }
    } else {
      assert xs + ys == ys;
    }
  }

  /** Deleting an id that no entry has changes nothing. */
  lemma {:induction false} WithoutAbsentId(xs: seq<SavedTranscript>, id: string)
    requires forall k :: 0 <= k < |xs| ==> xs[k].id != id
    ensures WithoutId(xs, id) == xs
    decreases |xs|
  {
    if |xs| > 0 {
      WithoutAbsentId(xs[1..], id);
    }
  }

  /** Deleting the same id twice is the same as deleting it once. */
  lemma WithoutIdIdempotent(xs: seq<SavedTranscript>, id: string)
    ensures WithoutId(WithoutId(xs, id), id) == WithoutId(xs, id)
  {
  }

  /** Deleting the id of the entry just saved restores the library, when that id was new. */
  lemma DeleteUndoesSave(xs: seq<SavedTranscript>, entry: SavedTranscript)
    requires forall k :: 0 <= k < |xs| ==> xs[k].id != entry.id
    ensures WithoutId(xs + [entry], entry.id) == xs
  {
    WithoutIdAppend(xs, [entry], entry.id);
    WithoutAbsentId(xs, entry.id);
    assert WithoutId([entry], entry.id) == [];
  }

  /** The state of the page component. */
  class Page {
    var igLink: string
    var data: Option<InstagramData>
    var loading: bool
    var error: string
    var activeTab: Tab
    var currentTime: real
    var isPlaying: bool
    var activeSegment: Option<nat>
    var transcriptSegments: seq<Segment>
    var savedTranscripts: seq<SavedTranscript>
    var saveTitle: string
    var showSaveDialog: bool
    /** The `savedTranscripts` item of local storage, None when it is absent. */
    var stored: Option<seq<SavedTranscript>>
    /** Whether the video element is mounted (`videoRef.current`). */
    var hasVideo: bool
    /** The video element's `currentTime`. */
    var videoTime: real

    /** The initial state, with whatever local storage held before the page loaded. */
    constructor (storedAtMount: Option<seq<SavedTranscript>>)
      ensures igLink == "" && data == None && !loading && error == ""
      ensures activeTab == Transcripts && currentTime == 0.0 && !isPlaying && activeSegment == None
      ensures transcriptSegments == [] && savedTranscripts == [] && saveTitle == "" && !showSaveDialog
      ensures stored == storedAtMount && !hasVideo && videoTime == 0.0
    {
      igLink, data, loading, error := "", None, false, "";
      activeTab, currentTime, isPlaying, activeSegment := Transcripts, 0.0, false, None;
      transcriptSegments, savedTranscripts, saveTitle, showSaveDialog := [], [], "", false;
      stored, hasVideo, videoTime := storedAtMount, false, 0.0;
    }

    /** The mount effect: load the library from local storage when it is there. */
    method LoadSavedTranscripts()
      modifies this`savedTranscripts
      ensures stored.Some? ==> savedTranscripts == stored.value
      ensures stored.None? ==> savedTranscripts == old(savedTranscripts)
    {
      if stored.Some? {
        savedTranscripts := stored.value;
      }
    }

    /**
     * `handleSubmit`: clear the previous result, wait for the endpoint, then
     * show its data or an error; loading always ends. When the new data
     * carries an audio transcript, the effect on it regenerates the segments.
     */
    method HandleSubmit(outcome: FetchOutcome)
      modifies this`loading, this`error, this`data, this`transcriptSegments
      ensures !loading
      ensures outcome.OkResponse? ==> data == Some(outcome.body) && error == ""
      ensures outcome.ErrorResponse? ==>
        data == None && error == ErrorResponseMessage(outcome.status, outcome.errorField)
      ensures outcome == Threw(OtherValue) ==> data == None && error == FetchFallbackMessage
      ensures outcome.Threw? && outcome.thrown.ErrorObject? ==>
        data == None && error == outcome.thrown.message
      ensures outcome.OkResponse? && Truthy(outcome.body.transcriptFromAudio) ==>
        MockTiming(transcriptSegments, Split(SentenceEnd, outcome.body.transcriptFromAudio.value))
      ensures !(outcome.OkResponse? && Truthy(outcome.body.transcriptFromAudio)) ==>
        transcriptSegments == old(transcriptSegments)
    {
      loading := true;
      error := "";
      data := None;
      var thrown: Option<Thrown> := None;
      match outcome {
        case OkResponse(body) =>
          data := Some(body);
        case ErrorResponse(status, errorField) =>
          thrown := Some(ErrorObject(ErrorResponseMessage(status, errorField)));
        case Threw(t) =>
          thrown := Some(t);
      }
      if thrown.Some? {
        error := match thrown.value
          case ErrorObject(message) => message
          case OtherValue => FetchFallbackMessage;
      }
      loading := false;
      if data.Some? && Truthy(data.value.transcriptFromAudio) {
        transcriptSegments := GenerateMockSegments(data.value.transcriptFromAudio.value);
      }
    }

    /**
     * `handleTimeUpdate`: record the video's time, and activate the first
     * segment covering the time recorded at the PREVIOUS update (the state
     * read in the same handler is not yet updated).
     */
    method HandleTimeUpdate()
      modifies this`currentTime, this`activeSegment
      ensures hasVideo ==> currentTime == videoTime
      ensures !hasVideo ==> currentTime == old(currentTime)
      ensures hasVideo && FirstCovering(transcriptSegments, old(currentTime)).Some? ==>
        activeSegment == FirstCovering(transcriptSegments, old(currentTime))
      ensures !(hasVideo && FirstCovering(transcriptSegments, old(currentTime)).Some?) ==>
        activeSegment == old(activeSegment)
    {
      if hasVideo {
        var previousTime := currentTime;
        currentTime := videoTime;
        var activeIndex := FirstCovering(transcriptSegments, previousTime);
        if activeIndex.Some? && activeIndex != activeSegment {
          activeSegment := activeIndex;
        }
      }
    }

    /** `seekToSegment`: jump the video to an existing segment's start, mark it active, play. */
    method SeekToSegment(index: int)
      modifies this`videoTime, this`activeSegment, this`isPlaying
      ensures hasVideo && 0 <= index < |transcriptSegments| ==>
        && videoTime == transcriptSegments[index].startTime
        && activeSegment == Some(index)
        && isPlaying
      ensures !(hasVideo && 0 <= index < |transcriptSegments|) ==>
        videoTime == old(videoTime) && activeSegment == old(activeSegment) && isPlaying == old(isPlaying)
    {
      if hasVideo && 0 <= index < |transcriptSegments| {
        videoTime := transcriptSegments[index].startTime;
        activeSegment := Some(index);
        if !isPlaying {
          isPlaying := true;
        }
      }
    }

    /**
     * `saveCurrentTranscript`: with data shown, append one entry to the
     * library, write the library to local storage, clear the title and close
     * the dialog; without data, do nothing.
     */
    method SaveCurrentTranscript(id: string, date: string)
      modifies this`savedTranscripts, this`stored, this`saveTitle, this`showSaveDialog
      ensures data.None? ==>
        && savedTranscripts == old(savedTranscripts) && stored == old(stored)
        && saveTitle == old(saveTitle) && showSaveDialog == old(showSaveDialog)
      ensures data.Some? ==>
        && savedTranscripts == old(savedTranscripts) + [SavedTranscript(
             id, date, SaveTitleOrDefault(old(saveTitle), date), data.value.transcript,
             data.value.videoUrl, data.value.transcriptFromAudio)]
        && stored == Some(savedTranscripts)
        && saveTitle == "" && !showSaveDialog
    {
      if data.None? {
        return;
      }
      var entry := SavedTranscript(
        id, date, SaveTitleOrDefault(saveTitle, date), data.value.transcript,
        data.value.videoUrl, data.value.transcriptFromAudio);
      var updated := savedTranscripts + [entry];
      savedTranscripts := updated;
      stored := Some(updated);
      saveTitle := "";
      showSaveDialog := false;
    }

    /** `deleteSavedTranscript`: drop every entry with the id and write the library back. */
    method DeleteSavedTranscript(id: string)
      modifies this`savedTranscripts, this`stored
      ensures savedTranscripts == WithoutId(old(savedTranscripts), id)
      ensures forall e :: e in savedTranscripts ==> e.id != id
      ensures stored == Some(savedTranscripts)
    {
      var updated := WithoutId(savedTranscripts, id);
      savedTranscripts := updated;
      stored := Some(updated);
    }

    /** Whether a sidebar tab responds to a click in the current state. */
    predicate TabEnabled(tab: Tab)
      reads this
    {
      match tab
      case Transcripts => data.Some?
      case Player => data.Some? && Truthy(data.value.videoUrl)
      case Saved => true
      case Analytics => data.Some?
    }

    /**
     * Whether a tab button of the content area is shown: all of them only
     * with data, and the player button only with a truthy `videoUrl`.
     */
    predicate ContentTabShown(tab: Tab)
      reads this
      ensures ContentTabShown(tab) ==> TabEnabled(tab)
    {
      data.Some? && (tab != Player || Truthy(data.value.videoUrl))
    }

    /** A click on a content-area tab button: a button that is not shown cannot be clicked. */
    method ClickContentTab(tab: Tab)
      modifies this`activeTab
      ensures activeTab == if ContentTabShown(tab) then tab else old(activeTab)
    {
      if ContentTabShown(tab) {
        activeTab := tab;
      }
    }

    /** A click on a sidebar tab: it opens only when its guard allows. */
    method ClickSidebarTab(tab: Tab)
      modifies this`activeTab
      ensures activeTab == if TabEnabled(tab) then tab else old(activeTab)
    {
      if TabEnabled(tab) {
        activeTab := tab;
      }
    }
  }
}
