/** The single-conference page: a recorder whose chunks are collected into
    one upload, and the summary fetched after it. Each handler is a step
    function on the page's state; the `ConferenceView` class holds the same
    state in fields and performs the steps in place. */
module ConferencePage {
  import opened Results
  import opened Web
  import Lists

  const PermissionError := "Failed to start recording. Please check your microphone permissions."
  const ProcessingError := "Failed to process recording. Please try again."
  const RecordingFileName := "recording.wav"
  const RecordingType := "audio/wav"

  /** The browser's MediaRecorder: whether it is still recording, and the
      audio it has gathered but not yet handed out. Started without a
      timeslice, it hands everything out in one `dataavailable` event, which
      the browser fires as a separate task after `stop()`. */
  datatype Recorder = Recorder(recording: bool, gathered: seq<Byte>)

  /** The multipart form posted to /record. */
  datatype Submission = Submission(audio: seq<Byte>, fileName: string, mimeType: string, conferenceId: string)

  /** The component's state hooks and its two refs (`recorder` for
      `mediaRecorderRef`, `chunks` for `audioChunksRef`). */
  datatype Page = Page(language: string, isRecording: bool, conferenceId: string, summary: string,
                       loading: bool, error: string, recorder: Option<Recorder>, chunks: seq<Chunk>)

  const Initial := Page("en", false, "", "", false, "", None, [])

  /** The audio captured since the recorder was last started: the chunks
      already delivered, then what the recorder still holds. */
  function Captured(p: Page): seq<Byte> {
    Lists.Flatten(p.chunks) + (if p.recorder.Some? then p.recorder.value.gathered else [])
  }

  predicate Recording(p: Page) {
    p.recorder.Some? && p.recorder.value.recording
  }

  /** The page's invariant: `isRecording` mirrors the recorder, only
      non-empty chunks are buffered, and nothing is delivered while the
      recorder runs. */
  predicate Valid(p: Page) {
    && (p.isRecording <==> Recording(p))
    && (forall i :: 0 <= i < |p.chunks| ==> p.chunks[i] != [])
    && (Recording(p) ==> p.chunks == [])
  }

  lemma InitialValid()
    ensures Valid(Initial) && Captured(Initial) == []
  {
  }

  /** The language selector, enabled only while not recording. */
  function SelectLanguage(p: Page, language: string): (q: Page)
    requires !p.isRecording
    ensures q.language == language
    ensures Valid(p) ==> Valid(q)
    ensures Captured(q) == Captured(p) && q.error == p.error
    ensures q == p.(language := language)
  {
    p.(language := language)
  }

  /** startRecording. `micGranted` says whether the microphone was granted;
      `start` is the POST to /start, given the selected language, answering
      the new conference id or failing. */
  function Start(p: Page, micGranted: bool, start: string -> Option<string>): (q: Page)
    // a refused microphone only sets the error
    ensures !micGranted ==> q == p.(error := PermissionError)
    // otherwise a fresh recorder runs with an empty buffer
    ensures micGranted ==> q.isRecording && Recording(q) && q.chunks == [] && Captured(q) == []
    // the session id is taken on success; a failed session keeps the old id,
    // sets the error and leaves the page recording
    ensures micGranted && start(p.language).Some? ==>
      q.conferenceId == start(p.language).value && q.error == p.error
    ensures micGranted && start(p.language).None? ==>
      q.conferenceId == p.conferenceId && q.error == PermissionError
    ensures q.summary == p.summary && q.loading == p.loading && q.language == p.language
    ensures Valid(p) ==> Valid(q)
  {
    if !micGranted then p.(error := PermissionError)
    else
      var q := p.(recorder := Some(Recorder(true, [])), chunks := [], isRecording := true);
      match start(p.language)
      case Some(id) => q.(conferenceId := id)
      case None => q.(error := PermissionError)
  }

  /** The running recorder gathers `audio` from the microphone. No event
      reaches the page while it records. */
  function Capture(p: Page, audio: seq<Byte>): (q: Page)
    ensures Recording(p) ==> Captured(q) == Captured(p) + audio
    ensures !Recording(p) ==> q == p
    ensures q.chunks == p.chunks && Recording(q) == Recording(p)
    ensures q.(recorder := p.recorder) == p
    ensures Valid(p) ==> Valid(q)
  {
    if Recording(p) then p.(recorder := Some(p.recorder.value.(gathered := p.recorder.value.gathered + audio)))
    else p
  }

  /** The `dataavailable` event of a stopped recorder: its data is pushed
      onto the buffer unless it is empty. */
  function Deliver(p: Page): (q: Page)
    ensures Captured(q) == Captured(p)
    ensures p.recorder.Some? && !Recording(p) ==> q.recorder.Some? && !Recording(q) && q.recorder.value.gathered == []
    ensures q.(recorder := p.recorder, chunks := p.chunks) == p
    ensures Valid(p) ==> Valid(q)
  {
    if p.recorder.None? || p.recorder.value.recording then p
    else
      var g := p.recorder.value.gathered;
      var chunks := if g == [] then p.chunks else p.chunks + [g];
      Lists.FlattenAppend(p.chunks, [g]);
      assert Lists.Flatten([g]) == Lists.Flatten([]) + g;
      p.(recorder := Some(p.recorder.value.(gathered := [])), chunks := chunks)
  }

  /** `recorder.stop()` and `setIsRecording(false)`. The recorder keeps its
      data until it is delivered. */
  function Halt(p: Page): (q: Page)
    requires p.recorder.Some?
    ensures !q.isRecording && !Recording(q) && q.chunks == p.chunks
    ensures Captured(q) == Captured(p)
    ensures q.(recorder := p.recorder, isRecording := p.isRecording) == p
  {
    p.(recorder := Some(p.recorder.value.(recording := false)), isRecording := false)
  }

  /** The form built from the buffer as it stands. */
  function FormOf(p: Page): (sub: Submission)
    ensures sub.audio == Lists.Flatten(p.chunks) && sub.conferenceId == p.conferenceId
    ensures sub.fileName == RecordingFileName && sub.mimeType == RecordingType
  {
    Submission(Lists.Flatten(p.chunks), RecordingFileName, RecordingType, p.conferenceId)
  }

  /** The upload and the summary fetch: `upload` says whether the POST to
      /record succeeded, `fetchSummary` is the GET of the conference's
      summary. */
  function Submit(p: Page, sub: Submission, upload: Submission -> bool,
                  fetchSummary: string -> Option<string>): (q: Page)
    ensures !q.loading
    // the summary is replaced only when both requests succeed
    ensures upload(sub) && fetchSummary(sub.conferenceId).Some? ==>
      q.summary == fetchSummary(sub.conferenceId).value && q.error == p.error
    ensures !(upload(sub) && fetchSummary(sub.conferenceId).Some?) ==>
      q.summary == p.summary && q.error == ProcessingError
    ensures q.(summary := p.summary, error := p.error, loading := p.loading) == p
  {
    if upload(sub) && fetchSummary(sub.conferenceId).Some? then
      p.(summary := fetchSummary(sub.conferenceId).value, loading := false)
    else
      p.(error := ProcessingError, loading := false)
  }

  /** What a click on Stop leaves: the page, and the form sent, if any. */
  datatype Stopped = Stopped(page: Page, sent: Option<Submission>)

  /** stopRecording as written: the form is built right after `stop()`, so
      from the buffer as it is before the recorder's data is delivered. */
  function StopAsWritten(p: Page, upload: Submission -> bool,
                         fetchSummary: string -> Option<string>): (s: Stopped)
    ensures !(p.recorder.Some? && p.isRecording) ==> s == Stopped(p, None)
    ensures p.recorder.Some? && p.isRecording ==>
      && s.sent == Some(FormOf(p))
      && s.page == Submit(Halt(p), FormOf(p), upload, fetchSummary)
  {
    if p.recorder.Some? && p.isRecording then
      var halted := Halt(p);
      var sub := FormOf(halted);
      Stopped(Submit(halted, sub, upload, fetchSummary), Some(sub))
    else Stopped(p, None)
  }

  /** As written, the upload of a valid recording page is always empty: the
      recorder has delivered nothing yet when the form is built. */
  lemma StopAsWrittenSendsNoAudio(p: Page, upload: Submission -> bool,
                                  fetchSummary: string -> Option<string>)
    requires Valid(p) && p.isRecording
    ensures StopAsWritten(p, upload, fetchSummary).sent.value.audio == []
  {
    assert p.chunks == [];
  }

  /** A concrete run: start, capture three bytes, stop. The form carries no
      audio, while the recording is delivered to the buffer only afterwards. */
  lemma StopAsWrittenLosesRecording()
    ensures var p := Capture(Start(Initial, true, _ => Some("c1")), [1, 2, 3]);
      var s := StopAsWritten(p, _ => true, _ => Some("summary"));
      && Captured(p) == [1, 2, 3]
      && s.sent == Some(Submission([], RecordingFileName, RecordingType, "c1"))
      && Lists.Flatten(Deliver(s.page).chunks) == [1, 2, 3]
  {
    var p0 := Start(Initial, true, _ => Some("c1"));
    var p := Capture(p0, [1, 2, 3]);
    assert p.chunks == [] && p.recorder.value.gathered == [1, 2, 3];
    var s := StopAsWritten(p, _ => true, _ => Some("summary"));
    var d := Deliver(s.page);
    assert d.chunks == [[1, 2, 3]];
    assert Lists.Flatten(d.chunks) == Lists.Flatten([]) + [1, 2, 3];
  }

  /** stopRecording corrected: the recorder's final data is delivered before
      the form is built, as it would be if the form were built in the
      recorder's `onstop` handler. */
  function Stop(p: Page, upload: Submission -> bool, fetchSummary: string -> Option<string>): (s: Stopped)
    ensures !(p.recorder.Some? && p.isRecording) ==> s == Stopped(p, None)
    ensures p.recorder.Some? && p.isRecording ==>
      && s.sent.Some? && s.sent.value.audio == Captured(p)
      && s.sent.value.conferenceId == p.conferenceId
      && s.sent.value.fileName == RecordingFileName && s.sent.value.mimeType == RecordingType
      && !s.page.isRecording && !s.page.loading && Captured(s.page) == Captured(p)
    // then the upload and the summary fetch decide the rest of the page
    ensures p.recorder.Some? && p.isRecording ==>
      s.page == Submit(Deliver(Halt(p)), s.sent.value, upload, fetchSummary)
    ensures Valid(p) ==> Valid(s.page)
  {
    if p.recorder.Some? && p.isRecording then
      var flushed := Deliver(Halt(p));
      var sub := FormOf(flushed);
      Stopped(Submit(flushed, sub, upload, fetchSummary), Some(sub))
    else Stopped(p, None)
  }

  /** The recorder gathering a sequence of pieces one after another. */
  function CaptureAll(p: Page, pieces: seq<seq<Byte>>): (q: Page)
    ensures Recording(q) == Recording(p)
    ensures q.(recorder := p.recorder) == p
    ensures Valid(p) ==> Valid(q)
  {
    if pieces == [] then p else Capture(CaptureAll(p, pieces[..|pieces| - 1]), pieces[|pieces| - 1])
  }

  /** While the recorder runs, the captured audio is everything gathered,
      in order. */
  lemma {:induction false} CaptureAllAppends(p: Page, pieces: seq<seq<Byte>>)
    requires Recording(p)
    ensures Captured(CaptureAll(p, pieces)) == Captured(p) + Lists.Flatten(pieces)
  {
    if pieces != [] {
      var init := pieces[..|pieces| - 1];
      var last := pieces[|pieces| - 1];
      var q := CaptureAll(p, init);
      CaptureAllAppends(p, init);
      assert Captured(CaptureAll(p, pieces)) == Captured(q) + last;
      assert Lists.Flatten(pieces) == Lists.Flatten(init) + last;
      assert Captured(q) + last == Captured(p) + (Lists.Flatten(init) + last);
    }
  }

  /** A whole recording: once the microphone is granted, what is uploaded on
      Stop is exactly the audio captured since Start, in order, under the
      conference id the session start answered (the old id when it failed),
      and the summary shown is the one fetched for that id. */
  lemma RecordingRoundTrip(p: Page, start: string -> Option<string>, pieces: seq<seq<Byte>>,
                           upload: Submission -> bool, fetchSummary: string -> Option<string>)
    ensures var s := Stop(CaptureAll(Start(p, true, start), pieces), upload, fetchSummary);
      && s.sent.Some?
      && s.sent.value.audio == Lists.Flatten(pieces)
      && s.sent.value.conferenceId == (if start(p.language).Some? then start(p.language).value else p.conferenceId)
      && (upload(s.sent.value) && fetchSummary(s.sent.value.conferenceId).Some? ==>
            s.page.summary == fetchSummary(s.sent.value.conferenceId).value)
      && !s.page.isRecording && !s.page.loading
  {
    var q := Start(p, true, start);
    CaptureAllAppends(q, pieces);
  }

  class ConferenceView {
    var language: string
    var isRecording: bool
    var conferenceId: string
    var summary: string
    var loading: bool
    var error: string
    var recorder: Option<Recorder>
    var chunks: seq<Chunk>

    function Snapshot(): Page
      reads this
    {
      Page(language, isRecording, conferenceId, summary, loading, error, recorder, chunks)
    }

    constructor ()
      ensures Snapshot() == Initial
    {
      language := "en";
      isRecording := false;
      conferenceId := "";
      summary := "";
      loading := false;
      error := "";
      recorder := None;
      chunks := [];
    }

    method ChooseLanguage(l: string)
      requires !isRecording
      modifies this
      ensures Snapshot() == SelectLanguage(old(Snapshot()), l)
    {
      language := l;
    }

    /** Reachable from the Start button, shown while not recording and
        enabled while not loading. */
    method StartRecording(micGranted: bool, start: string -> Option<string>)
      requires !isRecording && !loading
      modifies this
      ensures Snapshot() == Start(old(Snapshot()), micGranted, start)
    {
      if !micGranted {
        error := PermissionError;
        return;
      }
      recorder := Some(Recorder(true, []));
      chunks := [];
      isRecording := true;
      var session := start(language);
      if session.Some? {
        conferenceId := session.value;
      } else {
        error := PermissionError;
      }
    }

    /** The browser's recorder gathers `audio`. */
    method Gather(audio: seq<Byte>)
      modifies this
      ensures Snapshot() == Capture(old(Snapshot()), audio)
    {
      if recorder.Some? && recorder.value.recording {
        recorder := Some(recorder.value.(gathered := recorder.value.gathered + audio));
      }
    }

    /** The Stop button, with the recorder's data delivered before the form
        is built. */
    method StopRecording(upload: Submission -> bool, fetchSummary: string -> Option<string>)
      returns (sent: Option<Submission>)
      modifies this
      ensures Stopped(Snapshot(), sent) == Stop(old(Snapshot()), upload, fetchSummary)
    {
      if recorder.None? || !isRecording {
        return None;
      }
      ghost var before := Snapshot();
      recorder := Some(recorder.value.(recording := false));
      isRecording := false;
      assert Snapshot() == Halt(before);
      var data := recorder.value.gathered;
      if data != [] {
        chunks := chunks + [data];
      }
      recorder := Some(recorder.value.(gathered := []));
      ghost var flushed := Snapshot();
      assert flushed == Deliver(Halt(before));
      var form := Submission(Lists.Flatten(chunks), RecordingFileName, RecordingType, conferenceId);
      assert form == FormOf(flushed);
      loading := true;
      var fetched := None;
      if upload(form) {
        fetched := fetchSummary(conferenceId);
      }
      if fetched.Some? {
        summary := fetched.value;
      } else {
        error := ProcessingError;
      }
      loading := false;
      assert Snapshot() == Submit(flushed, form, upload, fetchSummary);
      sent := Some(form);
    }
  }
}
