# Content studio: recording session, media catalog and reply parser

The studio is a single React page (`index.tsx`). It records webcam, screen,
audio-only and screen-with-webcam sessions in the browser, keeps the
recordings and uploaded files in a media library, and asks a text-generation
service for a title and a description. This project models the logic of that
page that can be stated once the browser is abstracted away. It covers:

- the media catalog (`mediaItems`, `selectedMedia`) and its handlers;
- the library view under each tab;
- the recording session: start, the recorder's data and stop callbacks, and stop;
- the encoding choice;
- the pure classifiers and naming rules;
- the line parser that reads the generated title and description;
- the liveness check of the screen-with-webcam redraw loop, which is wrong as written (see Findings).

Modules, one per file:

| file | module | models |
|---|---|---|
| `option.dfy` | `Opt` | optional values (`null`) |
| `text.dfy` | `Text` | `split`, `trim`, `substring`, `startsWith`, `endsWith`, case-blind prefix test |
| `media.dfy` | `Media` | the item record, the upload classifier, the extension of a MIME type, recording and export names |
| `library.dfy` | `Library` | the per-view filter, the stable newest-first sort, the library panel |
| `catalog.dfy` | `Catalog` | class `MediaCatalog`: append a recording, upload, select, delete |
| `encoding.dfy` | `Encoding` | the ordered fallback list of recorder MIME types |
| `capture.dfy` | `Capture` | class `CaptureSession`: start, data, stop; device requests; the track log |
| `reply.dfy` | `Reply` | the title/description line parser |
| `compositor.dfy` | `Compositor` | the liveness check of the redraw loop, as written and corrected |

How the browser is modelled:

- **The browser** is a `Platform` value fixed for one start attempt. It says:
  - which prompts are granted;
  - whether the canvas and the hidden video elements exist;
  - which MIME types `MediaRecorder.isTypeSupported` accepts;
  - whether the recorder can be built and started;
  - which MIME type the recorder reports when it was given none.
- **Media tracks** are values with ids from a counter. A `TrackLog` records every track acquired and every track stopped, so "no capture device is left on" is a proved invariant: `Live() == {}` after every failed start and every stop.
- **Item ids** (`crypto.randomUUID()`) come from the catalog's counter `nextId`, so unique ids are an invariant and not an assumption.
- **Object URLs and the clock** are inputs. Released URLs are logged in `revoked`.
- **Stopping a recording:** the stop handler, the recorder's last `ondataavailable` and its `onstop` callback are one call, `Stop`. It takes the last fragment (`flush`), the object URL and the clock reading as parameters.

## Model

| member | source | states |
|---|---|---|
| Text.Split | index.tsx:97 | `split` on one character gives at least one piece, and no piece holds the separator |
| Text.JoinSplit | index.tsx:97 | joining the pieces of a split with the separator gives the string back |
| Text.SplitJoin | index.tsx:97 | splitting a join of separator-free pieces gives the pieces back |
| Text.SplitLastAfter | index.tsx:595 | when the string holds the separator, it ends with the separator followed by the last piece of its split (`split('.').pop()`) |
| Text.JoinLast | index.tsx:595 | a join of two or more pieces ends with the separator followed by the last piece |
| Text.Drop | index.tsx:102 | `substring(n)` is what follows the first n characters, which together with it make up the whole string; it is empty once n reaches the end |
| Text.TrimStart | index.tsx:102 | the result is a suffix; everything removed is white space; it does not start with white space |
| Text.TrimEnd | index.tsx:102 | the result is a prefix; everything removed is white space; it does not end with white space |
| Text.TrimSlice | index.tsx:102 | `trim` returns the slice between the leading and trailing white space, with no white space at either end |
| Text.Trim | index.tsx:102 | `trim` is never longer than its input, and a non-empty result neither starts nor ends with white space |
| Text.TrimIdempotent | index.tsx:104 | trimming a trimmed string changes nothing |
| Text.TrimEmpty | index.tsx:106 | `trim` gives "" exactly when every character is white space |
| Media.UploadKind | index.tsx:571-575 | the kind of an uploaded file, decided by the ternary chain in its order; its rules are stated by `UploadKindRules` |
| Media.UploadKindRules | index.tsx:571-575 | a `video/` or `audio/` MIME prefix wins over the name; otherwise `.pdf` or the PDF MIME type gives `pdf`, even when the ppt rule also holds; otherwise `.pptx` or the presentation MIME type gives `ppt`; `pdf` and `ppt` only come from those rules; `file` exactly when no rule applies |
| Media.UploadKindWithoutMime | index.tsx:571-575 | without a MIME type a file is never video or audio; a bare `.mp4` name gives `file` |
| Media.UploadKindSamples | index.tsx:571-575 | sample files: a video, a `.pdf`, an unknown extension, an `.mp4` without MIME type, an upper-case `.PDF`, and an audio MIME type on a `.pdf` name |
| Media.ExtensionOfMime | index.tsx:496 | the extension of the saved file: the text between the first `/` and the next `/` or `;`, absent when the expression would throw; its properties are stated by the next two rows |
| Media.ExtensionOfMimeDefined | index.tsx:496 | the extension exists exactly when the MIME type has a `/`, and it holds neither `/` nor `;` |
| Media.ExtensionOfTypeAndSubtype | index.tsx:496 | for `type/subtype` followed by nothing or by `;` parameters, the extension is the subtype |
| Media.NameStamp | index.tsx:499 | the stamp is the first 19 characters of the ISO time, or fewer if it is shorter: each `:` and `T` among them becomes `-` and every other character is kept; the stamp has no `:` and no `T` |
| Media.NameStampFileSafe | index.tsx:499 | an ISO time of digits, `-`, `:` and `T` gives a stamp of digits and dashes only |
| Media.NameStampSample | index.tsx:499 | `2024-05-01T12:34:56.789Z` gives the stamp `2024-05-01-12-34-56` |
| Media.RecordingName | index.tsx:499 | the library name of a recording: the type, `_recording_`, the stamp, a dot and the extension |
| Media.RecordingFileName | index.tsx:502 | the name of the `File` behind a recording: the type, `_recording.` and the extension |
| Media.NameExtension | index.tsx:595 | the export's starting extension holds no `.`; it is `bin` for a name without a dot, and otherwise the name ends with a dot followed by it, so it is the text after the last dot |
| Media.ExportExtension | index.tsx:595-599 | a video or audio extension outside its allowed list becomes `webm`, and one inside it is kept; pdf gives `pdf`; ppt gives `pptx`; other files keep the name's extension |
| Media.ExportFileName | index.tsx:589-600 | no export without a URL; a named item downloads under its own name; an unnamed one downloads as `media_export.` plus the kind's extension |
| Library.Shown | index.tsx:839-844 | the filter's test: every item in 'studio', uploaded items in 'uploads', recorded items in 'record', nothing in any other view |
| Library.Filter | index.tsx:839-844 | the filtered list is no longer than the list and holds exactly the items the view shows |
| Library.FilterOne | index.tsx:839-844 | one item is kept exactly when the view shows it |
| Library.FilterAppend | index.tsx:839-844 | the filter of a concatenation is the concatenation of the filters, so the filter keeps list order and repeats |
| Library.FilterByView | index.tsx:839-844 | 'studio' shows the whole list in order; an unknown view shows nothing |
| Library.InsertNewestFirst | index.tsx:845 | inserting into a newest-first list keeps it newest first |
| Library.SortNewestFirst | index.tsx:845 | the sort's result is newest first and a permutation of its input |
| Library.SortStable | index.tsx:845 | items with equal timestamps keep their list order |
| Library.LibraryView | index.tsx:839-845 | the cards are newest first, a permutation of the filtered items, and exactly the items of the list the view shows; the list itself is a value and is not reordered |
| Library.GridShown | index.tsx:834-836 | the panel's grid test: the 'studio' view, or 'uploads' with some uploaded item, or 'record' with some recorded item |
| Library.GridCondition | index.tsx:834-836 | the panel's grid condition holds exactly when the view has at least one card |
| Library.LibraryPanel | index.tsx:828-851 | the panel is hidden exactly when the list is empty; a grid shows the view's cards and is never empty; the placeholder appears only when the view has no card |
| Catalog.UploadedItems | index.tsx:570-581 | the `files.map(...)` of the upload handler: one new item per file, built from the file, its object URL and a clock reading; its contents are stated by `UploadedItemsAt` |
| Catalog.UploadedItemsAt | index.tsx:569-581 | the k-th new item has the k-th file's name, classified kind, URL and clock reading, source 'uploaded' and the k-th fresh id |
| Catalog.Find | index.tsx:608 | the item found has the id; nothing is found exactly when no item has the id |
| Catalog.FindFirst | index.tsx:608 | the item `find` returns is the first item of the list with the id: no earlier item has it |
| Catalog.Without | index.tsx:612 | the remaining items are exactly the items without the id |
| Catalog.WithoutUnknown | index.tsx:612 | deleting an id no item has leaves the list unchanged |
| Catalog.WithoutUnique | index.tsx:612 | with unique ids, deleting removes exactly the one item and keeps the rest in order |
| Catalog.WithoutKeepsInvariants | index.tsx:612 | deleting keeps ids unique and below the counter, and recordings playable |
| Catalog.MediaCatalog.constructor | index.tsx:345-346 | the library starts empty, with no selection |
| Catalog.MediaCatalog.AddRecording | index.tsx:506-507 | exactly one item is appended, with a fresh id and source 'recorded', and it becomes the selection; the id counter moves on by one |
| Catalog.MediaCatalog.Upload | index.tsx:567-586 | an empty file list changes nothing; otherwise one item per file is appended after the old ones in input order, and the first new item is selected |
| Catalog.MediaCatalog.Select | index.tsx:753 | the preview button selects an item of the list and changes nothing else |
| Catalog.MediaCatalog.Delete | index.tsx:607-614 | every item with the id is removed and the others keep their order; the URL is released only when it starts with `blob:`; the selection is cleared only when the selected item has the id |
| Catalog.DeleteUnknownIsNoOp | index.tsx:607-614 | deleting an unknown id leaves the list, the selection and the released URLs as they were |
| Encoding.Candidates | index.tsx:472-483 | the MIME types tried in order: opus webm then ogg for audio; H.264 MP4, then VP9 webm, then VP8 webm otherwise |
| Encoding.FirstSupported | index.tsx:472-485 | the choice is a supported candidate; there is no choice exactly when no candidate is supported |
| Encoding.FirstSupportedAt | index.tsx:472-485 | the first supported candidate is chosen, and only the candidates up to it are asked about |
| Encoding.NoneSupported | index.tsx:472-485 | when no candidate is supported, all of them are asked about and no MIME type is requested |
| Encoding.ChooseEncoding | index.tsx:472-485 | the nested ifs leave the first supported candidate in order (opus webm then ogg for audio; H.264 then VP9 then VP8 otherwise) and ask about exactly the candidates up to it; the initial H.264 value is never asked about for audio |
| Encoding.CandidatesHaveSlash | index.tsx:472-483 | every candidate is a `type/subtype` MIME type |
| Capture.ParseType | index.tsx:415-461 | a recognised type has that name, and a type is rejected exactly when it is none of the four names |
| Capture.ParseTypeName | index.tsx:415-461 | each of the four names is recognised as its own type |
| Capture.FreshKinds | index.tsx:416-427 | the tracks one grant hands out have fresh ids in range, and include an audio or a video track exactly when one was asked for |
| Capture.ObtainLive | index.tsx:416-427 | a granted request adds exactly its new tracks to the live ones, none seen before |
| Capture.ReleaseLive | index.tsx:544-546 | `track.stop()` removes exactly the stopped tracks from the live ones |
| Capture.StartConditions | index.tsx:415-461 | only the four type names can start; each starts exactly when the devices it requests are granted (screen: shared with audio, or with the microphone granted), its drawing surfaces exist, and the recorder starts |
| Capture.DeviceFailure | index.tsx:414-461 | which device request of the type is refused, if any; stated case by case by `StartConditions` |
| Capture.StartFailure | index.tsx:414-485 | the first failure of a start attempt: an unknown type, a refused device, a missing surface, or a recorder that does not start |
| Capture.RecorderMime | index.tsx:472-486 | the MIME type the recorder reports: the chosen candidate, or the browser's default when no candidate is supported |
| Capture.FinalMime | index.tsx:493 | the recorder's reported MIME type, or `audio/webm` for audio and `video/webm` otherwise when it reports none |
| Capture.FinalMimeHasSlash | index.tsx:493 | the saved MIME type is the recorder's, or the `audio/webm` / `video/webm` fallback, and always has a `/` |
| Capture.Kept | index.tsx:488-490 | the chunks the recorder's data callback keeps: the non-empty fragments in delivery order |
| Capture.Flatten | index.tsx:494 | the bytes of the `Blob` built from the chunks: their concatenation in order |
| Capture.KeptAppend | index.tsx:488-490 | `ondataavailable` appends a non-empty fragment to the chunks and drops an empty one |
| Capture.FlattenKept | index.tsx:494 | the blob built from the kept chunks holds every byte the recorder delivered, in order |
| Capture.RecordButtonEnabled | index.tsx:678 | a record button is enabled when nothing records, and while a recording runs only when it is that recording's type |
| Capture.OneButtonWhileRecording | index.tsx:678 | while a recording of a known type runs, exactly one record button, its own, is enabled |
| Capture.Grant | index.tsx:416-427 | a granted request yields fresh tracks of the kinds asked for and grows the track log by exactly them |
| Capture.GrowMore | index.tsx:416-459 | one more granted request adds its fresh tracks to those granted so far |
| Capture.Acquire | index.tsx:414-461 | the device requests fail exactly as `DeviceFailure` says; every track granted is fresh, live and held by one of the three streams; on success the stream to record has audio, and video unless the recording is audio only |
| Capture.AcquireCamera | index.tsx:415-416 | one camera-and-microphone request gives a stream with video and audio |
| Capture.AcquireMicrophone | index.tsx:423-424 | one microphone request gives an audio-only stream |
| Capture.AcquireScreen | index.tsx:417-422 | the screen request, then a microphone request when the shared screen has no audio; the stream records video and audio |
| Capture.AcquireComposite | index.tsx:425-459 | screen, then camera, then the drawing surfaces, then the canvas stream with the mixed audio track; the side streams are held |
| Capture.Prepare | index.tsx:414-485 | the attempt fails exactly as `StartFailure` says; on success the recorder's MIME type is the encoding choice or the platform default, and a file extension can be read from it |
| Capture.Initial | index.tsx:348-354 | the freshly mounted record view: not recording, no type, no chunks, no stream, no track acquired |
| Capture.Cleared | index.tsx:404 | the start handler's reset of the chunk buffer: the chunks and the delivered fragments are emptied, nothing else changes |
| Capture.Launched | index.tsx:523-524 | the session once the recorder has started: recording the given type on the stream to record, with the side streams, the track log and the MIME type, and no chunks yet |
| Capture.Abandoned | index.tsx:541-550 | the catch path: the chunks stay cleared, the tracks held are stopped, and the session stays idle |
| Capture.Delivered | index.tsx:488-490 | one `ondataavailable`: the fragment is logged as delivered and appended to the chunks when it is not empty |
| Capture.InitialCoherent | index.tsx:348-354 | the freshly mounted record view is idle and holds no live track |
| Capture.ClearedCoherent | index.tsx:403-404 | clearing the chunks of an idle session keeps it coherent |
| Capture.LaunchedCoherent | index.tsx:523-524 | a started recorder on a recordable stream is a coherent recording session |
| Capture.AbandonedCoherent | index.tsx:541-550 | the error path leaves an idle session with no live track |
| Capture.DeliveredCoherent | index.tsx:488-490 | a delivered fragment keeps the chunks equal to the non-empty fragments delivered |
| Capture.Closed | index.tsx:509-520 | the end of the stop callback: the recorded stream and both side streams are stopped, and the flags and the type are reset |
| Capture.Reset | index.tsx:555-562 | the stop handler without a running recorder: the recorded stream, if any, is stopped, and the flags and the type are reset |
| Capture.ClosedCoherent | index.tsx:509-520 | the end of the stop callback leaves an idle session with no live track |
| Capture.StoppedCoherent | index.tsx:492-521 | the last fragment followed by the stop callback leaves an idle, coherent session with no live track |
| Capture.ResetIdle | index.tsx:555-563 | the stop handler without a running recorder changes nothing on a coherent session |
| Capture.CaptureSession.constructor | index.tsx:348-354 | the record view starts idle and coherent |
| Capture.CaptureSession.Start | index.tsx:398-461 | while recording: no change, the outcome is "already recording"; otherwise the chunks are cleared and the recording starts exactly when `StartFailure` is `None`; a failed start leaves the session idle with no live track; a started one records the requested type on fresh, recordable tracks with the chosen MIME type |
| Capture.CaptureSession.Begin | index.tsx:403-550 | the start attempt of a known type succeeds or rolls back completely: every track acquired in the attempt is stopped and the flags are reset |
| Capture.CaptureSession.OnDataAvailable | index.tsx:488-490 | the new state is the old one with the fragment delivered |
| Capture.CaptureSession.Stop | index.tsx:553-565 | with a running recorder, exactly one item is saved and selected, the session is idle and no track is live; without one, nothing changes and nothing is saved |
| Capture.SaveRecording | index.tsx:492-507 | the saved item holds every delivered byte under the final MIME type; its name and file name carry the type and the MIME subtype; its kind is audio exactly for audio recordings and video otherwise; its source is 'recorded'; it is appended and selected |
| Reply.ParseReply | index.tsx:97-110 | the title and the description are what scanning the lines in order leaves, with the fallback texts for empty results |
| Reply.Step | index.tsx:100-107 | one line of the `forEach`: a title line sets the title, a description line restarts the description, and any other line extends a started description |
| Reply.Scan | index.tsx:100-107 | the lines taken in order, from an empty title and description |
| Reply.MarkersExclusive | index.tsx:101-104 | no line is both a title line and a description line |
| Reply.StepTitle | index.tsx:101-102 | one line changes the title only when it is a title line |
| Reply.StepDescription | index.tsx:103-106 | one line resets the description when it is a description line, extends a non-empty description otherwise, and leaves it alone on a title line |
| Reply.NoTitleLine | index.tsx:101-102 | without a title line the title stays empty |
| Reply.TitleFromLastTitleLine | index.tsx:101-102 | the title comes from the last title line alone |
| Reply.DescriptionUpTo | index.tsx:103-106 | after a description line, each following non-title line adds a line feed and its trimmed text |
| Reply.DescriptionFromLastDescriptionLine | index.tsx:103-106 | the description is the last description line's trimmed text followed by the continuation of the lines after it, or empty when that text is empty |
| Reply.NoDescriptionLine | index.tsx:105-106 | lines before any description line are dropped: without a description line the description stays empty |
| Reply.TitleSkipsCharacterAfterColon | index.tsx:102 | `substring(7)` drops the character right after `title:` |
| Compositor.FramesDrawnAsWritten | index.tsx:526-540 | the loop as written draws at most one frame per tick, and none when the flag it captured is false |
| Compositor.FramesDrawn | index.tsx:526-540 | the corrected loop draws exactly the frames before the first tick where recording stopped or the stream ended |
| Compositor.DrawnAfterStart | index.tsx:399-538 | the frames the start handler's loop draws, given the session state the handler was entered in: none when it returns at the guard, otherwise the as-written count over the captured flag |
| Compositor.NothingDrawnAsWritten | index.tsx:399-402 | whatever the session state the start handler was entered in, the loop as written draws nothing |
| Compositor.LiveFrameMissed | index.tsx:530 | when the first frame is live, the corrected loop draws it and the loop as written does not |
| Compositor.FramesDrawnIsLivePrefix | index.tsx:530 | the corrected count is determined by the live prefix of the ticks |
| Compositor.AsWrittenAgreesWhileFlagCurrent | index.tsx:530 | had the captured flag stayed current, the two loops would agree |

## Left out

- Firebase start-up and sign-in, the HTTP calls to the text-generation service and the JSON parsing of its replies. These are a foreign SDK and network I/O. The reply parser takes the generated text as a plain string.
- Real device capture, the canvas `captureStream`, the playback of the hidden video elements and the `AudioContext` mixing. These are asynchronous browser APIs, so each request is a granted or refused answer in `Platform` that hands out fresh tracks.
- The `AudioContext` created for a screen-with-webcam recording is never closed. Its tracks are counted as part of the canvas stream.
- Capture.Fresh: one device request hands out at most two tracks, a video and an audio track, as the page's requests do.
- The drawing geometry of the redraw loop: the webcam inset at 1/4.5 of the width, its aspect ratio and the 20-pixel margin. It is floating-point canvas work driven by `requestAnimationFrame`. Only its liveness check is modelled.
- The message banner and its timeout, the clipboard copy, the export anchor click, the video preview's `srcObject`, view switching and all rendering apart from the library panel's contents.
- The asynchronous gap between `MediaRecorder.stop()` and the `onstop` callback. `Stop` performs both in one call, so a start attempt between them is not modelled. Concurrent start attempts (a second click while the first is still awaiting a prompt) are not modelled either.
- The stop callback reads the clock twice, for the name and for the timestamp. Both readings are one `Instant` here.
- `crypto.randomUUID()` is the catalog's counter. `URL.createObjectURL` results are inputs.
- Text.AsciiLower: `toLowerCase` is modelled on ASCII letters only. This is exact for the prefix tests `title:` and `description:`.
- Capture.CaptureSession.Start: it requires `SaneDefault`, meaning the recorder reports either no MIME type or one with a `/`. The page's stop callback would throw on any other value, and that throw is not modelled.
- The recorder's own state (`mediaRecorderRef.current.state === "recording"`) is the flag `recorderActive`. In a coherent session it always equals `isRecording`.
- `handleExportMedia` on a missing item (`!item`) is not modelled. `ExportFileName` takes an item.
- A stop pressed while the devices are still being requested releases nothing, and the model has no such path. The stop button is only rendered once `isRecording` is set (index.tsx:688-691, set at index.tsx:523), and `mediaStreamRef` is only set at index.tsx:464, after every request has been answered.
- The redraw loop returns on its first call (see Findings). The model keeps this as written in `FramesDrawnAsWritten` and states the evidently intended loop beside it.
- The name test of upload classification is case-sensitive, so a `.PDF` name without the PDF MIME type is a plain file; with `application/pdf` as its type it is `pdf`. The title drops the character after `title:`, and lines before the first description line are dropped. The model keeps all three as the code has them.
- Text.Drop: strings are sequences of Unicode code points, and the offsets of `substring` and `slice` are counted in code points. The page counts UTF-16 code units, so when a character outside the Basic Multilingual Plane follows `title:` or `description:`, the page keeps the second half of its surrogate pair (which `trim` does not remove), while the model drops the whole character. The ISO clock text cut by `slice(0,19)` is ASCII, so the name stamp is not affected.

## Findings

| source | as written | input that shows it | evidently intended | confidence | as-written member | corrected member |
|---|---|---|---|---|---|---|
| index.tsx:526-540 | the redraw loop's check reads the `isRecording` value captured when the start handler was entered, and the handler only gets this far when that value was false, so the loop returns on its first call and the recorded canvas is never drawn | a 'screen_webcam' start from idle whose first animation frame sees the recording running and the stream active | draw a frame for as long as the session is recording and the stream is active, checking the current state at each frame | high, not executed | Compositor.LiveFrameMissed | Compositor.FramesDrawn |
