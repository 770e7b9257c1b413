# Instagram transcriber: verified model of the page logic and the transcript endpoint

This project models, in Dafny, the sequential logic of a small web application.
The user pastes an Instagram post URL. The browser page posts it to a
transcript endpoint, shows the returned caption and an audio transcript, and
splits that transcript into timed "mock" segments. While the video plays, the
page highlights the current segment. Transcripts can be kept in a library that
is saved in the browser's local storage.

Two source files are modelled:

- `src/app/page.tsx`, the client page, is modelled in four modules:
  - `Text` (`text.dfy`): the regular-expression splits `/(?<=[.!?])\s+/` and `/\s+/`, `join`, `includes` and decimal rendering.
  - `TranscriptFormat` (`transcript_format.dfy`): `formatTime` and `formatTranscript`, with the speaker-label layout.
  - `Segments` (`segments.dfy`): `generateMockSegments` and the first-match segment lookup.
  - `Home` (`home.dfy`): the component's state as a class `Page` whose methods are the handlers. They cover submit, time update, seek, save, delete and the tab guards.
- `src/app/api/transcript/route.ts`, the endpoint, is modelled in `TranscriptRoute` (`route.dfy`):
  - the domain check;
  - a `Browser` object that is launched and then closed exactly once;
  - the fixed record a successful extraction returns;
  - `transcribeAudio`;
  - the status and error mapping of `POST`.

`wrappers.dfy` holds the `Option` and `Result` types.

Modelling choices:

- Times are exact reals. The speaking rate of 2.5 words per second divides exactly.
- `formatTime` takes whole seconds.
- The regex class `\s` is the six ASCII whitespace characters.
- Local storage is a mirrored sequence, `Page.stored`.
- The clock (`Date.now()`, `toLocaleDateString()`) supplies parameters.
- The browser's work and the page's `fetch` become outcome parameters: each completes or throws.

## Model

| member | source | states |
|---|---|---|
| `Text.NextDelimiter` | src/app/page.tsx:92 | the regex search finds the first index at or after a start where a delimiter match can begin, and none before it |
| `Text.SpaceRunEnd` | src/app/page.tsx:92 | the greedy `\s+` consumes exactly the maximal whitespace run |
| `Text.Split` | src/app/page.tsx:92 | `split` yields at least one piece, and the first piece is a prefix of the input |
| `Text.SplitIsWellFormed` | src/app/page.tsx:92 | every sentence split is well formed: no piece holds a break, non-final pieces are non-empty and end in `.`, `!` or `?`, and later pieces start with a non-space |
| `Text.SplitJoin` | src/app/page.tsx:167 | splitting well-formed sentences joined by single spaces returns exactly those sentences |
| `Text.SplitKeepsText` | src/app/page.tsx:92 | for every input, the split loses only its delimiters: there are non-empty whitespace runs, one between each pair of pieces, that put back between the pieces give the input again (for example after `"a.  b"` or `"a.\nb"`) |
| `Text.Join` | src/app/page.tsx:174 | `join` of no pieces is empty; otherwise the result starts with the first piece and is exactly as long as all pieces plus one separator between each neighbouring pair (also used at lines 183 and 193) |
| `Text.JoinSplit` | src/app/page.tsx:167 | a text whose sentence breaks are single spaces is restored by joining its split with `' '` |
| `Text.JoinAppend` | src/app/page.tsx:174 | `join` of a concatenation is the two joins with one separator between them |
| `Text.Contains` | src/app/api/transcript/route.ts:15 | `includes` holds when the text starts with the substring, and never when the substring is longer than the text |
| `Text.ContainsAt` | src/app/api/transcript/route.ts:15 | an occurrence of the substring at any index makes `includes` true |
| `Text.ContainsOccurrence` | src/app/api/transcript/route.ts:15 | when `includes` is true, an index exists where the substring occurs |
| `Text.Decimal` | src/app/page.tsx:113 | the template rendering of a number is a non-empty digit string without leading zeros |
| `Text.DecimalRoundTrip` | src/app/page.tsx:113 | reading the decimal rendering back gives the number |
| `TranscriptFormat.PaddedSeconds` | src/app/page.tsx:113 | seconds below 60 render as exactly two digits that denote them |
| `TranscriptFormat.FormatTime` | src/app/page.tsx:110-114 | the clock is the minutes `floor(s/60)` in decimal without leading zeros, then `:`, then two digits denoting `s mod 60` |
| `TranscriptFormat.ParseTime` | src/app/page.tsx:110-114 | reading a clock back succeeds only on a string with a colon three characters from the end |
| `TranscriptFormat.FormatTimeRoundTrip` | src/app/page.tsx:110-114 | the minute and second fields recombine to the number of seconds |
| `TranscriptFormat.FormatTimeInjective` | src/app/page.tsx:110-114 | different numbers of seconds never render as the same clock |
| `TranscriptFormat.LabelRunEnd` | src/app/page.tsx:178 | the greedy `[A-Za-z\s]+` consumes exactly the maximal run of letters and whitespace |
| `TranscriptFormat.SpeakerMatch` | src/app/page.tsx:178 | the speaker pattern matches exactly when a name of letters and spaces is followed by `:` and whitespace, and the name's length is then unique |
| `TranscriptFormat.SpeakerLayoutAsWritten` | src/app/page.tsx:186-192 | a paragraph with a speaker label becomes `speaker + ":\n  " + rest + rest`, and any other paragraph is unchanged |
| `TranscriptFormat.SpeakerLayoutAsWrittenDuplicates` | src/app/page.tsx:188-190 | on `"A: b."` the page's layout yields `"A:\n  b.b."` |
| `TranscriptFormat.SpeakerLayout` | src/app/page.tsx:188-190 | the intended layout is the label, `":\n  "`, then the rest of the paragraph once, two characters longer than the input |
| `TranscriptFormat.SpeakerLayoutKeepsText` | src/app/page.tsx:188-190 | putting the matched whitespace back in place of the line break and indent restores the paragraph |
| `TranscriptFormat.AsWrittenDiffersFromIntended` | src/app/page.tsx:188-190 | whenever text follows the label, the page's layout differs from the intended one |
| `TranscriptFormat.GroupParagraphs` | src/app/page.tsx:170-175 | the loop yields ceil(n/3) paragraphs, and paragraph k is sentences 3k to 3k+2 (as many as exist) joined by `' '` |
| `TranscriptFormat.ParagraphsKeepSentences` | src/app/page.tsx:170-175 | paragraphs keep every sentence in order: joined with `' '` they equal the sentences joined with `' '` |
| `TranscriptFormat.HasSpeakers` | src/app/page.tsx:179 | `some` over the sentences: it holds only for a non-empty list |
| `TranscriptFormat.HasSpeakersAppend` | src/app/page.tsx:179 | `some` over a concatenation holds iff it holds over one of the parts |
| `TranscriptFormat.SpeakerLayouts` | src/app/page.tsx:186-193 | the speaker branch maps every paragraph through the page's layout, one for one |
| `TranscriptFormat.FormatTranscript` | src/app/page.tsx:163-195 | undefined or empty input gives `''`; without speakers, the paragraphs joined by `'\n\n'`; with a speaker in any sentence, the laid-out paragraphs joined by `'\n\n'` |
| `Text.WordSplitCount` | src/app/page.tsx:97 | `split(/\s+/)` yields exactly one piece more than the input has maximal whitespace runs |
| `Segments.WordCount` | src/app/page.tsx:97 | the word count of a sentence is its number of whitespace runs plus one, so never below one |
| `Segments.Duration` | src/app/page.tsx:94-98 | each sentence's duration is positive |
| `Segments.SpeakingTime` | src/app/page.tsx:93-104 | the accumulated time is non-negative, and positive once any sentence is said |
| `Segments.MockTimingProperties` | src/app/page.tsx:96-106 | mock timing starts at 0, gives each segment its sentence's duration, and makes every end equal the next start |
| `Segments.GenerateMockSegments` | src/app/page.tsx:90-107 | one segment per sentence; segment k holds sentence k and spans from the speaking time of the sentences before it to that time plus its own duration; first start 0; contiguous |
| `Segments.FirstCoveringFrom` | src/app/page.tsx:74-76 | the search returns the first index from a start whose segment contains the time, or none when no segment from there does |
| `Segments.FirstCovering` | src/app/page.tsx:74-76 | `findIndex` returns the first segment with `start <= t <= end`, or none when no segment contains `t` |
| `Segments.ContiguousOrdered` | src/app/page.tsx:100-104 | in segments laid end to end, an earlier segment ends no later than a later one starts |
| `Segments.ActiveSegmentWindow` | src/app/page.tsx:74-76 | for end-to-end segments, the lookup finds segment k exactly when the time is after the previous end (from the first start for k = 0) and not past k's end |
| `Segments.BoundaryGoesToEarlier` | src/app/page.tsx:74-76 | a segment's start time, which is where `seekToSegment` puts the video, is attributed to the previous segment |
| `Segments.NoActiveSegmentOutside` | src/app/page.tsx:74-78 | for end-to-end segments, the lookup fails exactly for times before the first start or after the last end |
| `Home.ErrorResponseMessage` | src/app/page.tsx:146-150 | a response that is not ok yields the body's `error` when it is truthy, else `"Failed to fetch data (Status: N)"`; the message shown is never empty |
| `Home.SaveTitleOrDefault` | src/app/page.tsx:204 | the title is the typed title, or `"Instagram Transcript <date>"` when that is empty; a saved transcript never has an empty title |
| `Home.WithoutId` | src/app/page.tsx:220 | the filter keeps exactly the entries whose id differs and never grows the list |
| `Home.WithoutIdAppend` | src/app/page.tsx:220 | filtering keeps the other entries in their original order: it distributes over concatenation |
| `Home.WithoutAbsentId` | src/app/page.tsx:220 | deleting an id that no entry has leaves the library unchanged |
| `Home.WithoutIdIdempotent` | src/app/page.tsx:219-223 | deleting the same id twice equals deleting it once |
| `Home.DeleteUndoesSave` | src/app/page.tsx:198-223 | deleting the id of a just-saved entry restores the library when that id was new |
| `Home.Page.constructor` | src/app/page.tsx:32-50 | the initial state of every field, with local storage as it was before the page loaded |
| `Home.Page.LoadSavedTranscripts` | src/app/page.tsx:61-66 | on mount the library becomes the stored list when local storage holds one |
| `Home.Page.HandleSubmit` | src/app/page.tsx:128-160 | `loading` always ends false. An ok response sets `data` to the body and leaves `error` empty. A response that is not ok leaves `data` null and sets the message. An `Error` gives its message and any other throw the fixed fallback. Segments are regenerated from a truthy audio transcript |
| `Home.Page.HandleTimeUpdate` | src/app/page.tsx:69-87 | `currentTime` takes the video's time, and the active segment becomes the first segment covering the previous tick's time, or stays as it was when none does |
| `Home.Page.SeekToSegment` | src/app/page.tsx:117-126 | only for a mounted video and an existing index: the video time becomes that segment's start, it becomes active and playback is on; otherwise nothing changes |
| `Home.Page.SaveCurrentTranscript` | src/app/page.tsx:198-216 | without data nothing changes. With data, exactly one entry is appended after the unchanged earlier ones, with the typed or default title. The stored copy equals the new list, the title is cleared and the dialog closed |
| `Home.Page.DeleteSavedTranscript` | src/app/page.tsx:219-223 | the library becomes the filter by id, no entry with that id remains, and the stored copy equals the new list |
| `Home.Page.ContentTabShown` | src/app/page.tsx:389-418 | the content-area tab buttons exist only with data, the player button only with a truthy `videoUrl`; a shown button never opens a tab the sidebar would refuse |
| `Home.Page.ClickContentTab` | src/app/page.tsx:396-418 | a click on a content-area tab button opens that tab exactly when the button is shown, and otherwise leaves the tab unchanged |
| `Home.Page.ClickSidebarTab` | src/app/page.tsx:309-337 | the transcripts and analytics tabs open only with data, the player tab only with a truthy `videoUrl`, and the saved tab always |
| `TranscriptRoute.Browser.Launch` | src/app/api/transcript/route.ts:22-24 | a launched browser that has not been closed yet (the object exists only after a successful launch) |
| `TranscriptRoute.Browser.Close` | src/app/api/transcript/route.ts:66-68 | closing counts one more close |
| `TranscriptRoute.ExtractInstagramData` | src/app/api/transcript/route.ts:12-70 | a URL without `instagram.com` is rejected with the bare message and no browser is launched. A failed launch gives the prefixed message and no browser. After a launch, the browser is closed exactly once and the result is the fixed placeholder record or the prefixed page error, whatever the page evaluated |
| `TranscriptRoute.TranscribeAudio` | src/app/api/transcript/route.ts:73-90 | never throws: it returns the fixed transcription exactly when the client could be set up, and the failure text otherwise |
| `TranscriptRoute.ServerError` | src/app/api/transcript/route.ts:106-113 | status 500 with the error's message, or `'Failed to extract data'` when the message is empty; the error field is never empty |
| `TranscriptRoute.Post` | src/app/api/transcript/route.ts:92-114 | status 200 exactly for data. A missing or empty link gives 400 without extraction. A malformed body or any extraction error gives 500 with its message. A launched browser is closed once |

## Left out

- Puppeteer itself (launch options, new page, viewport, user agent, `goto`, `page.evaluate`, lines 22-52 of the route): this is headless-browser I/O. It is one opaque `Launch` outcome and one `PageWork` outcome.
- `Browser.close()` throwing inside `finally`, and a thrown value that is not an `Error`: these are not modelled. Every extraction error carries a message.
- A non-string `igLink`, such as a number: not modelled. `igLink` is an optional string, and `''` is falsy.
- The OpenAI client in `transcribeAudio`: its import and construction are one `ClientSetup` outcome. `transcribeAudio` is never called by `POST`, as in the source.
- `src/app/api/test-video/route.ts`, `src/app/api/test-fs/route.ts`, `src/app/api/test-openai/route.ts`, `src/app/api/debug/route.ts`, `src/types/node-whisper.d.ts` and `next.config.js`: smoke tests, type declarations and build configuration with no logic of their own. They are not part of this model.
- JSX rendering, CSS, the clipboard, `scrollIntoView`, `video.play()` and the `onPlay`/`onPause` handlers: UI only.
- The plain setters for the link input, the title input and opening or cancelling the save dialog: not modelled. The fields are public, so any such state can be set directly.
- React's asynchronous state batching: updates are immediate assignments. The one stale read is kept: `HandleTimeUpdate` looks up the time recorded at the previous update.
- Home.Page.HandleSubmit: the intermediate state while the request is in flight (`loading` true, `data` null) is not observable, because the handler is one atomic step over a given fetch outcome.
- JSON serialisation to and from local storage: the stored item is a mirrored `Option<seq<SavedTranscript>>`. A present item is always truthy, because the JSON text of a list is never empty.
- `Date.now()` and `toLocaleDateString()`: the id and date are parameters. The source reads the date twice (lines 203 and 204), and the model uses one value for both. Id uniqueness is not claimed, because the code does not guarantee it. `DeleteUndoesSave` assumes a new id.
- TranscriptFormat.FormatTime: modelled over whole seconds. The page passes fractional seconds, which `Math.floor` truncates first, and floating-point rounding is not modelled.
- JavaScript's Unicode `\s`: the model uses the six ASCII whitespace characters.
- This revision of the endpoint has no deadline race, downloader or caption heuristics. It answers 400 and 500 and returns a fixed record, and the model follows it.

## Findings

| source | as written | input that shows it | evidently intended | confidence | as-written member | corrected member |
|---|---|---|---|---|---|---|
| src/app/page.tsx:188-190 | the `replace` callback returns `speaker + ":\n  " + p.substring(match.length)`, and `replace` then appends the text after the match again, so it appears twice | the paragraph `"A: b."` is shown as `"A:\n  b.b."` | `"A:\n  b."`: the label on its own line, then the text once | high; not executed | `TranscriptFormat.SpeakerLayoutAsWrittenDuplicates` (and `TranscriptFormat.SpeakerLayoutAsWritten`) | `TranscriptFormat.SpeakerLayoutKeepsText` (about `TranscriptFormat.SpeakerLayout`) |

`FormatTranscript` keeps the as-written layout, because it models what the page displays. `SpeakerLayout` is the corrected definition, and `AsWrittenDiffersFromIntended` proves that the two differ on every labelled paragraph with text after the label.
