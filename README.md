# C4C parent–teacher conference assistant: a Dafny model

C4C records parent–teacher conferences in the browser, transcribes them in
a Flask backend and answers questions about uploaded documents and past
conferences. This project models the parts of it that have logic of their
own:

- the backend's in-memory conference registry (`ConferenceService`). It
  starts conferences, transcribes recordings into them, builds and caches
  a text summary, deletes a conference together with its recording files,
  and lists all conferences;
- the two Flask blueprints: ordered request checks that map a request and
  the services' answers to a status code and a JSON body;
- the four React pages that hold state: the single-conference recorder,
  the conference list, the chat and the document list. Each handler is one
  atomic step.

Layout, one module per file:

- `results.dfy` (`Results`): `Option` and `Result`, standing for Python's
  `None` and for raised exceptions.
- `text.dfy` (`Text`): the Python string operations the backend uses.
  These are `split`, `join`, `strip`, `startswith`, `str(n)` and
  `os.path.basename`.
- `lists.dfy` (`Lists`): filtering a list by key.
- `web.dfy` (`Web`): bytes, recorder chunks and fetch outcomes.
- `http.dfy` (`Http`): replies and file parts.
- `conference_service.dfy` (`ConferenceService`): the registry. It is a
  class over a map, an insertion-order list and the set of names in the
  recordings directory.
- `conference_routes.dfy`, `document_routes.dfy`: the blueprints, as pure
  functions.
- `conference_page.dfy`, `conferences_page.dfy`, `chat_page.dfy`,
  `documents_page.dfy`: the pages. Each is a class whose fields are the
  component's state hooks and refs. Where the page's rules are worth
  relating across steps, a state datatype and step functions are given
  too, and each method is proved to perform its step function.

Everything the code gets from outside is an input:

- the clock (conference ids and timestamps);
- the speech recogniser (a function from locale to outcome);
- whether ffmpeg converted the audio;
- the file system (a save error, the directory listing);
- the other services (their results or exception texts);
- the browser (microphone grant, recorded bytes, fetch outcomes).

Some points of the modelled behaviour:

- A repeated conference id replaces the earlier entry; ids are not assumed
  fresh.
- Every built summary is stored, and a stored summary is returned only
  when it passes Python's truth test (present and non-empty). A built
  summary always starts with its header, so once stored it is returned
  unchanged whatever transcripts arrive later.
- The conference list's `onstop` handler prepends the new conference to
  the list as it was when recording started. The handler closes over that
  render, so a conference deleted while recording comes back.
  `ConferencesPage.Recording` keeps that list and the language of that
  moment.
- The registry deletes recordings from a directory named `recordings`,
  relative to the working directory. `/record` stores them in
  `backend/recordings`. The two are the same only when the server runs
  from `backend/`. The model gives both the same set of names.
- Recording on the single-conference page starts without a chunk
  interval, so chunks arrive only after `stop()`. The MIME type is always
  `audio/wav`; nothing is negotiated. A failed session start sets a fixed error text and leaves
  the page recording, with the old conference id. The frontend's URLs
  (ports 5000 and 8000) do not match the blueprint routes, so frontend
  and backend are modelled separately.

## Model

| member | source | states |
|---|---|---|
| Text.TrimLeftSpec | backend/services/conference_service.py:193 | the left trim removes exactly a whitespace prefix and stops at the first other character |
| Text.TrimRightSpec | backend/services/conference_service.py:193 | the right trim removes exactly a whitespace suffix and stops at the last other character |
| Text.StripKeepsCore | backend/services/conference_service.py:193 | `strip` keeps a contiguous slice that neither starts nor ends with whitespace, and everything cut on either side is whitespace |
| Text.Strip | backend/services/conference_service.py:193 | `strip` is no longer than its argument, neither starts nor ends with whitespace, and is empty exactly when the argument is all whitespace |
| Text.Join | backend/services/conference_service.py:181 | joining no parts gives the empty text; otherwise the result starts with the first part, followed by the separator when more parts come |
| Text.JoinSnoc | backend/services/conference_service.py:181 | joining one more part appends the separator and that part, so every part appears in the join in order |
| Text.Split | backend/services/conference_service.py:189 | splitting gives at least one piece, and joining the pieces with the separator gives the text back |
| Text.SplitPiecesFree | backend/services/conference_service.py:189 | no piece of a split contains the separator |
| Text.Basename | backend/routes/conference_routes.py:42 | the base name has no '/', is a suffix of the path, and is preceded by '/' when shorter than the path |
| Text.Decimal | backend/services/conference_service.py:185 | the count is written with decimal digits and no leading zero |
| Text.DecimalRoundTrip | backend/services/conference_service.py:185 | the decimal text reads back as the segment count |
| Lists.RemoveKey | frontend/src/pages/Conferences.tsx:120 | the filter keeps exactly the entries whose id differs from the argument and never grows the list |
| Lists.RemoveKeyAppend | frontend/src/pages/Conferences.tsx:120 | the filter works piecewise, so kept entries stay in their order |
| Lists.RemoveKeyAbsent | frontend/src/pages/Documents.tsx:58 | filtering on an id no entry has changes nothing |
| Lists.RemoveKeyDistinct | backend/services/conference_service.py:211 | filtering keeps a list without repetitions free of repetitions |
| Lists.Without | backend/services/conference_service.py:211 | removing a key from the insertion order drops exactly that key and keeps the order repetition-free |
| Lists.FlattenAppend | frontend/src/pages/Conference.tsx:61 | the blob of a sequence of chunks is the bytes of the first part followed by those of the second |
| ConferenceService.RecognitionLocale | backend/services/conference_service.py:113-116 | the locale is the table's code for the language, or "en-US" for a language outside the table, and always a locale of the table |
| ConferenceService.TranscriptText | backend/services/conference_service.py:135-146 | recognised words are stored as they are; an unintelligible recording stores "Could not understand audio", an unreadable one the ffmpeg hint, and a request failure its fixed prefix followed by the reason; every failure text is non-empty |
| ConferenceService.FullText | backend/services/conference_service.py:181 | the joined transcript text is empty without transcripts and otherwise starts with the first transcript's text, then a space when more follow |
| ConferenceService.FullTextSnoc | backend/services/conference_service.py:181 | one more transcript adds a space and its text at the end of the joined text |
| ConferenceService.KeyPoints | backend/services/conference_service.py:189-190 | the key points are a prefix of the split text with between one and five pieces, and are all pieces when there are at most five |
| ConferenceService.KeyPointLine | backend/services/conference_service.py:193 | a bullet line is "- ", then the point with only whitespace cut from either end (a slice of the point that neither starts nor ends with whitespace), then a line break |
| ConferenceService.KeyPointLinesStep | backend/services/conference_service.py:192-193 | adding a key point adds its bullet line at the end |
| ConferenceService.KeyPointLinesSplit | backend/services/conference_service.py:192-193 | the bullet lines of a list are those of any prefix followed by those of the rest |
| ConferenceService.BuildSummary | backend/services/conference_service.py:181-193 | a built summary is never empty and starts with the title, the "Duration" line with the transcript count and the "Key Points" line |
| ConferenceService.SummaryLines | backend/services/conference_service.py:184-193 | a summary is the three-line header with the transcript count, then the first key point's line, then the others' |
| ConferenceService.EmptyConferenceSummary | backend/services/conference_service.py:181-193 | a conference with no transcripts gets the title line, "Duration: 0 segments", the "Key Points:" line and a single empty bullet "- " |
| ConferenceService.CurrentSummary | backend/services/conference_service.py:177-193 | `get_summary` never returns an empty text: the stored summary when its truth test holds, otherwise a new summary starting with the header for the current transcript count |
| ConferenceService.Summarised | backend/services/conference_service.py:196 | storing the summary changes only the summary field and leaves a non-empty summary in place |
| ConferenceService.SummaryIsStable | backend/services/conference_service.py:177-178 | once stored, the summary is returned unchanged, storing it again changes nothing, and later transcripts do not alter it |
| ConferenceService.InfoOf | backend/services/conference_service.py:233-240 | a listed record carries the conference's id, start time, stored summary and language, and always the duration "Unknown" |
| ConferenceService.RecordingsOf | backend/services/conference_service.py:214-216 | the recordings swept for an id are exactly the directory's names that start with the id and an underscore |
| ConferenceService.ConferenceRegistry.constructor | backend/services/conference_service.py:16-19 | the registry starts empty, over the names already in the recordings directory |
| ConferenceService.ConferenceRegistry.ConferenceExists | backend/services/conference_service.py:54-56 | a conference exists exactly when its id is a key |
| ConferenceService.ConferenceRegistry.StartConference | backend/services/conference_service.py:58-69 | exactly the entry under the id is set: the given language, no transcripts, no summary; the id then exists; a repeated id replaces its entry |
| ConferenceService.ConferenceRegistry.ProcessAudio | backend/services/conference_service.py:104-155 | an unknown id or a failed conversion fails and stores nothing; otherwise exactly one transcript, whose text is the result, is appended to that conference only |
| ConferenceService.ConferenceRegistry.GetSummary | backend/services/conference_service.py:168-198 | an unknown id fails; otherwise the cached summary, or the summary built line by line, is returned and stored, and nothing else changes |
| ConferenceService.ConferenceRegistry.DeleteConference | backend/services/conference_service.py:204-227 | an unknown id fails and changes nothing; otherwise exactly that key goes, and exactly the recordings named with the id and an underscore are removed |
| ConferenceService.ConferenceRegistry.GetAllConferences | backend/services/conference_service.py:229-241 | one record per stored conference, in insertion order: its id, start time, "Unknown" duration, stored summary and language |
| ConferenceRoutes.StartLanguage | backend/routes/conference_routes.py:15 | the language is the body's `parent_language`, or "en" when the key is absent |
| ConferenceRoutes.StartConference | backend/routes/conference_routes.py:12-24 | 200 with the new conference id exactly when the service starts the conference in that language, otherwise 500 with the exception text |
| ConferenceRoutes.Acceptable | backend/routes/conference_routes.py:28-38 | a request passes the guards only with an audio part, a non-empty file name and a non-empty conference id |
| ConferenceRoutes.StoredName | backend/routes/conference_routes.py:42-44 | the stored name is the conference id, an underscore, then the base name of the uploaded name, which holds no directory part |
| ConferenceRoutes.RecordAudio | backend/routes/conference_routes.py:26-74 | 400 exactly when a guard fails, in the order audio part, file name, conference id, and then no file is stored; a failed save is a 500 with its prefix; once saved, the file is removed whether processing succeeds (200 with the text) or fails (500 with its prefix and details) |
| ConferenceRoutes.StoredRecordingSweptWithConference | backend/routes/conference_routes.py:44 | a stored recording still in the directory is among those deleting its conference removes |
| ConferenceRoutes.GetSummary | backend/routes/conference_routes.py:76-82 | 200 with the summary exactly when the service gives one, otherwise 500 with the exception text |
| DocumentRoutes.JoinPath | backend/routes/document_routes.py:21 | a relative name is put under the directory; an absolute name replaces it |
| DocumentRoutes.UploadPath | backend/routes/document_routes.py:21 | a name without '/' is saved directly under `uploads/` |
| DocumentRoutes.PlainNamesStayInUploads | backend/routes/document_routes.py:21 | plain names land inside `uploads/`, and different plain names land on different paths |
| DocumentRoutes.UploadDocument | backend/routes/document_routes.py:10-32 | no file part gives 400 "No file provided" and an empty name 400 "No file selected", and only these give 400; past them, 200 with the service's document id or 500 with the exception text |
| DocumentRoutes.AskedQuestion | backend/routes/document_routes.py:36-42 | a question is asked exactly when both the document id and the question are given and non-empty; its language defaults to "en" |
| DocumentRoutes.QueryDocument | backend/routes/document_routes.py:34-48 | an incomplete request gets 400 without the service; otherwise 200 with the answer or 500 with the exception text |
| DocumentRoutes.QueryDependsOnlyOnQuestion | backend/routes/document_routes.py:41-45 | a rejected request's reply does not depend on the service, and two requests asking the same question get the same reply |
| ConferencePage.InitialValid | frontend/src/pages/Conference.tsx:20-27 | the initial page satisfies the recording invariant and holds no audio |
| ConferencePage.SelectLanguage | frontend/src/pages/Conference.tsx:93-97 | choosing a language, possible only while not recording, changes the language and nothing else, so the captured audio, the invariant and the error stay |
| ConferencePage.Start | frontend/src/pages/Conference.tsx:29-53 | a refused microphone only sets the permissions error; otherwise the page records into an empty buffer and takes the new session id, or keeps the old id and sets the error while still recording |
| ConferencePage.Capture | frontend/src/pages/Conference.tsx:42 | a running recorder adds the audio to what was captured, no chunk reaches the page while it records, and only the recorder changes |
| ConferencePage.Deliver | frontend/src/pages/Conference.tsx:36-40 | the recorder's data event pushes only non-empty data, keeping the captured audio and the invariant; only the recorder and the buffer change |
| ConferencePage.Halt | frontend/src/pages/Conference.tsx:57-58 | stopping ends recording without losing captured audio; only the recorder and the recording flag change |
| ConferencePage.FormOf | frontend/src/pages/Conference.tsx:61-64 | the form carries the buffered chunks in order, "recording.wav", "audio/wav" and the current conference id |
| ConferencePage.Submit | frontend/src/pages/Conference.tsx:66-80 | the summary changes only when both the upload and the summary fetch succeed, otherwise the processing error is set; loading ends false |
| ConferencePage.StopAsWritten | frontend/src/pages/Conference.tsx:55-82 | as written, stop does nothing without a recorder or while not recording, and otherwise sends the form of the buffer as it stands |
| ConferencePage.StopAsWrittenSendsNoAudio | frontend/src/pages/Conference.tsx:61 | as written, every upload from a recording page is empty |
| ConferencePage.StopAsWrittenLosesRecording | frontend/src/pages/Conference.tsx:55-64 | start, capture three bytes, stop: the upload is empty, and the bytes reach the buffer only afterwards |
| ConferencePage.Stop | frontend/src/pages/Conference.tsx:55-82 | corrected stop sends exactly the audio captured, under the current id, and ends not recording and not loading; the upload and summary fetch of that form then decide the page |
| ConferencePage.CaptureAll | frontend/src/pages/Conference.tsx:36-42 | gathering several pieces keeps the recording state and the invariant, and changes only the recorder |
| ConferencePage.CaptureAllAppends | frontend/src/pages/Conference.tsx:36-40 | while recording, the captured audio grows by the pieces in order |
| ConferencePage.RecordingRoundTrip | frontend/src/pages/Conference.tsx:29-82 | after a granted start, the stop uploads exactly the concatenation of the captured pieces, under the id the session start answered (the old id when it failed); the summary fetched for that id is shown, and the page ends not recording and not loading |
| ConferencePage.ConferenceView.constructor | frontend/src/pages/Conference.tsx:20-27 | the page starts in English, idle, with no recorder and an empty buffer |
| ConferencePage.ConferenceView.ChooseLanguage | frontend/src/pages/Conference.tsx:96 | the field update performs the language step |
| ConferencePage.ConferenceView.StartRecording | frontend/src/pages/Conference.tsx:29-53 | the handler, reachable while not recording and not loading, performs the start step |
| ConferencePage.ConferenceView.Gather | frontend/src/pages/Conference.tsx:42 | the recorder's gathering performs the capture step |
| ConferencePage.ConferenceView.StopRecording | frontend/src/pages/Conference.tsx:55-82 | the handler performs the corrected stop step and returns the form it sent |
| ConferencesPage.Recording.constructor | frontend/src/pages/Conferences.tsx:65-66 | each recording gets a fresh, empty chunk array and the language and list of its start |
| ConferencesPage.Recording.DataAvailable | frontend/src/pages/Conferences.tsx:68-70 | every chunk is appended in arrival order, with no size filter |
| ConferencesPage.Recording.Form | frontend/src/pages/Conferences.tsx:73-76 | the form carries the chunks concatenated in order, "audio/wav" and the recording's language |
| ConferencesPage.ConferencesView.constructor | frontend/src/pages/Conferences.tsx:38-44 | the page starts idle, in English, with an empty list and no recorder |
| ConferencesPage.ConferencesView.FetchConferences | frontend/src/pages/Conferences.tsx:51-60 | the list is replaced only by an ok response |
| ConferencesPage.ConferencesView.SelectLanguage | frontend/src/pages/Conferences.tsx:147 | only the selected language changes |
| ConferencesPage.ConferencesView.StartRecording | frontend/src/pages/Conferences.tsx:62-101 | a refused microphone changes nothing; otherwise a fresh recording is held and the page records |
| ConferencesPage.ConferencesView.StopRecording | frontend/src/pages/Conferences.tsx:103-110 | with no recorder nothing changes; otherwise the recorder is released and recording ends |
| ConferencesPage.ConferencesView.RecordingStopped | frontend/src/pages/Conferences.tsx:72-93 | an ok response is put in front of the list seen at start; on failure the list stays; loading ends false |
| ConferencesPage.ConferencesView.AskDelete | frontend/src/pages/Conferences.tsx:224-227 | the card's conference is remembered and the dialog opens |
| ConferencesPage.ConferencesView.CloseDialog | frontend/src/pages/Conferences.tsx:261 | only the dialog closes |
| ConferencesPage.ConferencesView.HandleDelete | frontend/src/pages/Conferences.tsx:112-127 | an ok delete removes exactly the entries with that id, a failed one keeps the list; loading ends false and the dialog closes |
| ConferencesPage.ConferencesView.ConfirmDelete | frontend/src/pages/Conferences.tsx:265 | the dialog deletes the remembered conference's id, or the empty id |
| ConferencesPage.DeleteKeepsOrder | frontend/src/pages/Conferences.tsx:120 | deleting another id keeps the front entry in front |
| ChatPage.IsJsSpace | frontend/src/pages/Chat.tsx:102 | the characters `trim` removes; as a remark, the contract compares them with Python's whitespace set: all but U+FEFF are in it, and it adds only U+1C..U+1F and U+85 |
| ChatPage.Blank | frontend/src/pages/Chat.tsx:102 | `!input.trim()`: the empty input is blank, and an input starting with a character `trim` keeps is not |
| ChatPage.Ask | frontend/src/pages/Chat.tsx:101-131 | nothing is asked for a blank input or without a selection on the active tab; otherwise tab 0 asks /query with the document id and other tabs ask /conference/query with the conference id, with the untrimmed input and the selected language |
| ChatPage.Send | frontend/src/pages/Chat.tsx:101-159 | a guarded send changes nothing; otherwise the user message and then the answer or the error text are appended, the input is cleared and loading ends false |
| ChatPage.ChangeTab | frontend/src/pages/Chat.tsx:168-173 | a new tab starts with no selections and no messages, so nothing can be asked until something is selected |
| ChatPage.DeleteConference | frontend/src/pages/Chat.tsx:175-197 | a failed delete changes nothing; an ok one removes exactly that id and clears the selection and messages only if it was selected |
| ChatPage.Fetched | frontend/src/pages/Chat.tsx:59-82 | a network failure of either fetch changes nothing; otherwise each list is replaced exactly when its own response is ok |
| ChatPage.SendAddsOneExchange | frontend/src/pages/Chat.tsx:113-146 | a send adds exactly two messages after the old ones: the question, then an assistant reply |
| ChatPage.DeletingSelectionBlocksAsking | frontend/src/pages/Chat.tsx:189-193 | deleting the selected conference makes asking on the conference tab impossible |
| ChatPage.ChatView.constructor | frontend/src/pages/Chat.tsx:48-56 | the page starts on tab 0 in English with nothing selected and no messages |
| ChatPage.ChatView.TypeInput | frontend/src/pages/Chat.tsx:340 | only the input changes |
| ChatPage.ChatView.SelectLanguage | frontend/src/pages/Chat.tsx:232 | only the selected language changes |
| ChatPage.ChatView.Select | frontend/src/pages/Chat.tsx:257-263 | the active tab's selector sets the document on tab 0 and the conference otherwise |
| ChatPage.ChatView.FetchData | frontend/src/pages/Chat.tsx:59-82 | the handler performs the fetch step |
| ChatPage.ChatView.HandleSend | frontend/src/pages/Chat.tsx:101-159 | the handler, reachable while not loading, returns the question asked and performs the send step |
| ChatPage.ChatView.HandleTabChange | frontend/src/pages/Chat.tsx:168-173 | the handler performs the tab step |
| ChatPage.ChatView.HandleDeleteConference | frontend/src/pages/Chat.tsx:175-197 | the handler performs the delete step |
| DocumentsPage.Upload | frontend/src/pages/Documents.tsx:29-52 | without a file nothing changes; an ok upload appends the new id and file name at the end, a failed one keeps the list; loading ends false |
| DocumentsPage.Delete | frontend/src/pages/Documents.tsx:54-65 | exactly the entries with that id are removed, locally; loading ends false and the dialog closes |
| DocumentsPage.DeleteWithoutSelectionKeepsList | frontend/src/pages/Documents.tsx:180 | confirming with nothing selected removes nothing |
| DocumentsPage.UploadThenDeleteRestores | frontend/src/pages/Documents.tsx:46-58 | deleting a freshly uploaded document with a new id gives back the list from before the upload |
| DocumentsPage.DocumentsView.constructor | frontend/src/pages/Documents.tsx:24-27 | the page starts with no documents, not loading, the dialog closed |
| DocumentsPage.DocumentsView.HandleFileUpload | frontend/src/pages/Documents.tsx:29-52 | the handler performs the upload step |
| DocumentsPage.DocumentsView.AskDelete | frontend/src/pages/Documents.tsx:149-152 | the card's document is remembered and the dialog opens |
| DocumentsPage.DocumentsView.CloseDialog | frontend/src/pages/Documents.tsx:176 | only the dialog closes |
| DocumentsPage.DocumentsView.HandleDelete | frontend/src/pages/Documents.tsx:54-65 | the handler performs the delete step |
| DocumentsPage.DocumentsView.ConfirmDelete | frontend/src/pages/Documents.tsx:180 | the dialog deletes the remembered document's id, or no id |

## Left out

- Speech recognition, ffmpeg and temporary WAV files are not modelled. They are foreign calls. The recogniser is a function from locale to outcome, and the conversion is a boolean input.
- Saving and removing uploaded files is not modelled. The routes take the save error as an input, and the registry's directory is a set of names.
- Logging and `console.error` are not modelled.
- Translation of interface texts is not modelled. The chat error message keeps the `chat.error` key.
- JSX rendering, styling and navigation are not modelled. The enabled and visible states of buttons appear only as method preconditions.
- A request body that is not a JSON object is not modelled. Neither are JSON values that are not strings, `null` included. The routes take the body as a map of strings.
- `backend/server.py`, `rag_service.py`, `document_service.py` and the components not listed above are not part of this model.
- Async interleaving is not modelled. Every handler is one atomic step, so two handlers cannot overlap; for example, a second send cannot start while the first waits for its answer.
- Releasing the microphone tracks in Conferences.tsx is not modelled; it has no effect on page state.
- The effects that refetch data on mount and on a tab change are not modelled. The caller invokes `FetchData`.
- ConferenceService.ConferenceRegistry.StartConference: the conference id and start time are inputs, not readings of the clock. The two readings the source takes can differ.
- ConferenceService.ConferenceRegistry.DeleteConference: a recording file that cannot be removed is assumed to be removed. The source logs the error and goes on.
- ConferenceService.ConferenceRegistry.DeleteConference: a missing recordings directory is not modelled; the directory always exists. In the source `del` (conference_service.py:211) runs before `os.listdir` (line 215), so the conference is already gone when that error propagates.
- ConferencePage.Submit: the moment when `loading` is true, during the two requests, is not observable in a one-step model.
- ConferencesPage.ConferencesView.RecordingStopped: the same applies to `loading` during the request.
- DocumentsPage.Upload: the same applies to `loading` during the request.
- ChatPage.Fetched: a response whose body is not JSON is not modelled; every ok response carries a list. In the source an ok documents response with a bad body rejects in `json()` (Chat.tsx:70-72), and the `catch` (Chat.tsx:79) then skips the conferences update too; a bad conferences body leaves only the documents updated.
- ChatPage.Send: message ids and timestamps are not modelled. They come from the clock.
- ChatPage.Send: a reply whose body is not JSON, or has no `answer` field, is not told apart. It counts as an ok answer or as a failure, as the fetch input says.
- ConferenceRoutes.RecordAudio: a file left half-written by a failed save is not modelled.

## Findings

| source | as written | input that shows it | evidently intended | confidence | as-written member | corrected member |
|---|---|---|---|---|---|---|
| frontend/src/pages/Conference.tsx:61 | The upload blob is built from the chunk buffer right after `recorder.stop()`. The recorder was started without a timeslice, so it delivers its only `dataavailable` event in a later task. The buffer is still empty, and every upload carries no audio. | `ConferencePage.StopAsWrittenLosesRecording`: grant the microphone, start a session "c1", capture bytes [1, 2, 3], stop. The form's audio is [], and the bytes reach the buffer only afterwards. | Upload the concatenation of all captured chunks by building the form once the recorder has delivered its data (in its `onstop` handler), as Conferences.tsx does. | high; not executed | ConferencePage.StopAsWritten | ConferencePage.Stop |
