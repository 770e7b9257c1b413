/**
 * The transcript endpoint: `extractInstagramData` (the domain check, the
 * headless browser acquired and always released, and the fixed record it
 * returns), `transcribeAudio`, and `POST` with its status and error mapping.
 * The browser's work (launch, page set-up, navigation, in-page evaluation)
 * is opaque: each part either completes or throws an error with a message.
 */
module TranscriptRoute {
  import opened Wrappers
  import opened Text

  /** The record a successful extraction returns. */
  datatype ExtractedData = ExtractedData(
    transcript: string,
    views: string,
    likes: string,
    comments: string,
    videoUrl: string)

  /** The fixed values every successful extraction returns, whatever the page holds. */
  const PlaceholderData := ExtractedData(
    "Instagram caption would be extracted here",
    "100K",
    "10K",
    "500",
    "https://example.com/video.mp4")

  /** What the in-page evaluation returns: each field or null. */
  datatype PageFields = PageFields(
    transcript: Option<string>,
    views: Option<string>,
    likes: Option<string>,
    comments: Option<string>,
    videoUrl: Option<string>)

  /** How launching the browser ends. */
  datatype Launch = Launched | LaunchThrows(message: string)

  /**
   * How the work on the page ends (new page, viewport, user agent,
   * navigation, evaluation): the evaluated fields, or an error.
   */
  datatype PageWork = Evaluated(fields: PageFields) | PageThrows(message: string)

  /** A launched headless browser process and how often it was closed. */
  class Browser {
    var closeCount: nat

    constructor Launch()
      ensures closeCount == 0
    {
      closeCount := 0;
    }

    method Close()
      modifies this
      ensures closeCount == old(closeCount) + 1
    {
      closeCount := closeCount + 1;
    }
  }

  const NotInstagramMessage := "Not a valid Instagram URL"
  const ExtractionPrefix := "Failed to extract data: "

  /** `url.includes('instagram.com')`. */
  predicate IsInstagramUrl(url: string) {
    Contains(url, "instagram.com")
  }

  /**
   * `extractInstagramData`: reject a URL outside the domain before any
   * browser work; otherwise launch a browser, work on the page, and return
   * the fixed record, re-throwing any error with the "Failed to extract
   * data: " prefix; the browser, once launched, is closed exactly once on
   * every path. `browser` is the function's `browser` variable (null while
   * unassigned).
   */
  method ExtractInstagramData(url: string, launch: Launch, page: PageWork)
    returns (r: Result<ExtractedData>, browser: Browser?)
    ensures !IsInstagramUrl(url) ==> r == Err(NotInstagramMessage) && browser == null
    ensures IsInstagramUrl(url) && launch.LaunchThrows? ==>
      r == Err(ExtractionPrefix + launch.message) && browser == null
    ensures IsInstagramUrl(url) && launch.Launched? ==>
      && browser != null && fresh(browser)
      && browser.closeCount == 1
      && r == (if page.PageThrows? then Err(ExtractionPrefix + page.message) else Ok(PlaceholderData))
  {
    if !Contains(url, "instagram.com") {
      return Err(NotInstagramMessage), null;
    }
    browser := null;
    var caught: Option<string> := None;
    if launch.LaunchThrows? {
      caught := Some(launch.message);
    } else {
      browser := new Browser.Launch();
      if page.PageThrows? {
        caught := Some(page.message);
      } else {
        var extractedData := page.fields;
        r := Ok(PlaceholderData);
      }
    }
    if caught.Some? {
      r := Err(ExtractionPrefix + caught.value);
    }
    if browser != null {
      browser.Close();
    }
  }

  const TranscriptionPlaceholder := "Transcription of the audio would appear here"
  const TranscriptionFailure := "Failed to transcribe audio from the video"

  /** How loading and constructing the speech-to-text client ends. */
  datatype ClientSetup = ClientReady | ClientThrows(message: string)

  /**
   * `transcribeAudio`: never throws; the fixed placeholder text when the
   * client could be set up, the failure text otherwise. The audio file is
   * never read.
   */
  function TranscribeAudio(audioPath: string, setup: ClientSetup): (r: string)
    ensures r == TranscriptionPlaceholder || r == TranscriptionFailure
    ensures r == TranscriptionPlaceholder <==> setup.ClientReady?
  {
    match setup
    case ClientReady => TranscriptionPlaceholder
    case ClientThrows(_) => TranscriptionFailure
  }

  /**
   * The request body as `POST` reads it: JSON that could not be read or
   * destructured (with the error's message), or the `igLink` field.
   */
  datatype RequestBody = Malformed(message: string) | Parsed(igLink: Option<string>)

  datatype ResponseBody = DataBody(data: ExtractedData) | ErrorBody(error: string)

  datatype Response = Response(status: nat, body: ResponseBody)

  const MissingLinkMessage := "Instagram link is required"
  const ExtractionFallback := "Failed to extract data"

  /** `{ error: error.message || 'Failed to extract data' }` with status 500. */
  function ServerError(message: string): (r: Response)
    ensures r.status == 500 && r.body.ErrorBody? && r.body.error != ""
    ensures message != "" ==> r.body.error == message
    ensures message == "" ==> r.body.error == ExtractionFallback
  {
    Response(500, ErrorBody(if message != "" then message else ExtractionFallback))
  }

  /**
   * `POST`: 400 for a missing or empty link (no extraction), 500 with the
   * error's message for anything thrown (a malformed body included), and
   * the extracted record with the default status 200 otherwise.
   */
  method Post(request: RequestBody, launch: Launch, page: PageWork)
    returns (response: Response, browser: Browser?)
    ensures response.status == 200 <==> response.body.DataBody?
    ensures response.status == 200 || response.status == 400 || response.status == 500
    ensures request.Malformed? ==> response == ServerError(request.message) && browser == null
    ensures request.Parsed? && !(request.igLink.Some? && request.igLink.value != "") ==>
      response == Response(400, ErrorBody(MissingLinkMessage)) && browser == null
    ensures request.Parsed? && request.igLink.Some? && request.igLink.value != "" ==>
      var url := request.igLink.value;
      && (!IsInstagramUrl(url) ==> response == Response(500, ErrorBody(NotInstagramMessage)) && browser == null)
      && (IsInstagramUrl(url) && launch.LaunchThrows? ==>
            response == Response(500, ErrorBody(ExtractionPrefix + launch.message)) && browser == null)
      && (IsInstagramUrl(url) && launch.Launched? ==>
            && browser != null && fresh(browser) && browser.closeCount == 1
            && response == (if page.PageThrows? then Response(500, ErrorBody(ExtractionPrefix + page.message))
                            else Response(200, DataBody(PlaceholderData))))
  {
    browser := null;
    match request {
      case Malformed(message) =>
        return ServerError(message), null;
      case Parsed(igLink) =>
        if igLink.None? || igLink.value == "" {
          return Response(400, ErrorBody(MissingLinkMessage)), null;
        }
        var result;
        result, browser := ExtractInstagramData(igLink.value, launch, page);
        match result {
          case Ok(data) =>
            response := Response(200, DataBody(data));
          case Err(message) =>
            response := ServerError(message);
        }
    }
  }
}
