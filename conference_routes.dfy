/** The conference blueprint: each handler is a function of the request and
    of what the service (and the file system) answered, giving the reply. */
module ConferenceRoutes {
  import opened Results
  import opened Http
  import Text
  import ConferenceService

  const StartedMessage := "Conference started successfully"
  const NoAudio := "No audio file provided"
  const NoSelectedFile := "No selected file"
  const ConferenceIdRequired := "Conference ID is required"
  const ProcessedMessage := "Audio processed successfully"
  const ProcessingPrefix := "Error processing audio: "
  const ProcessingDetails := "Audio file was saved but could not be processed"
  const SavingPrefix := "Error saving audio file: "

  /** The language a new conference is started in: the JSON body's
      `parent_language`, English when the key is absent. */
  function StartLanguage(body: map<string, string>): (language: string)
    ensures "parent_language" in body ==> language == body["parent_language"]
    ensures "parent_language" !in body ==> language == ConferenceService.DefaultLanguage
  {
    if "parent_language" in body then body["parent_language"] else "en"
  }

  /** POST /start. `start` is the service call, given the language. */
  function StartConference(body: map<string, string>, start: string -> Result<string, string>): (reply: Reply)
    ensures reply.status == 200 <==> start(StartLanguage(body)).Success?
    ensures reply.status == 200 ==>
      reply.body == map["message" := StartedMessage, "conference_id" := start(StartLanguage(body)).value]
    ensures reply.status != 200 ==> reply == ErrorReply(500, start(StartLanguage(body)).error)
  {
    match start(StartLanguage(body))
    case Success(id) => Reply(200, map["message" := StartedMessage, "conference_id" := id])
    case Failure(e) => ErrorReply(500, e)
  }

  /** A multipart POST to /record: the `audio` file part, if any, and the
      `conference_id` form field, if any. */
  datatype RecordRequest = RecordRequest(audio: Option<FilePart>, conferenceId: Option<string>)

  /** What the handler did: its reply, the name it stored the upload under
      when it got that far, and whether it deleted that file again. */
  datatype RecordOutcome = RecordOutcome(reply: Reply, stored: Option<string>, removed: bool)

  /** The three guards, in the order the handler checks them. */
  predicate Acceptable(req: RecordRequest): (ok: bool)
    ensures ok ==> req.audio.Some? && req.audio.value.filename != ""
    ensures ok ==> req.conferenceId.Some? && req.conferenceId.value != ""
    ensures req.audio.None? || req.conferenceId.None? ==> !ok
  {
    req.audio.Some? && req.audio.value.filename != "" && Given(req.conferenceId)
  }

  /** The name a recording is stored under: the conference id, an
      underscore, and the uploaded name stripped of any directory part. */
  function StoredName(conferenceId: string, filename: string): (name: string)
    ensures Text.StartsWith(name, conferenceId + "_")
    ensures '/' !in name[|conferenceId| + 1..]
    ensures name[|conferenceId| + 1..] == Text.Basename(filename)
  {
    var base := Text.Basename(filename);
    assert (conferenceId + "_" + base)[|conferenceId| + 1..] == base;
    conferenceId + "_" + base
  }

  /** POST /record. `saveError` is the exception saving the upload raised,
      if any; `process` is the service's transcription, given the
      conference id and the stored name. */
  function RecordAudio(req: RecordRequest, saveError: Option<string>,
                       process: (string, string) -> Result<string, string>): (out: RecordOutcome)
    // the guards answer 400 and touch no file
    ensures out.reply.status == 400 <==> !Acceptable(req)
    ensures !Acceptable(req) ==> out.stored == None && !out.removed
    ensures req.audio.None? ==> out.reply == ErrorReply(400, NoAudio)
    ensures req.audio.Some? && req.audio.value.filename == "" ==> out.reply == ErrorReply(400, NoSelectedFile)
    ensures req.audio.Some? && req.audio.value.filename != "" && !Given(req.conferenceId) ==>
      out.reply == ErrorReply(400, ConferenceIdRequired)
    // past the guards the upload is stored under its conference's prefix
    ensures Acceptable(req) ==>
      out.stored == Some(StoredName(req.conferenceId.value, req.audio.value.filename))
    // a failed save is reported as such and nothing is processed
    ensures Acceptable(req) && saveError.Some? ==>
      out.reply == ErrorReply(500, SavingPrefix + saveError.value) && !out.removed
    // once saved, the file is removed whether processing succeeds or fails
    ensures Acceptable(req) && saveError.None? ==>
      var result := process(req.conferenceId.value, out.stored.value);
      && out.removed
      && (out.reply.status == 200 <==> result.Success?)
      && (result.Success? ==> out.reply.body == map["message" := ProcessedMessage, "text" := result.value])
      && (result.Failure? ==> out.reply == Reply(500, map["error" := ProcessingPrefix + result.error,
                                                          "details" := ProcessingDetails]))
  {
    if req.audio.None? then RecordOutcome(ErrorReply(400, NoAudio), None, false)
    else if req.audio.value.filename == "" then RecordOutcome(ErrorReply(400, NoSelectedFile), None, false)
    else if !Given(req.conferenceId) then RecordOutcome(ErrorReply(400, ConferenceIdRequired), None, false)
    else
      var cid := req.conferenceId.value;
      var name := StoredName(cid, req.audio.value.filename);
      if saveError.Some? then
        RecordOutcome(ErrorReply(500, SavingPrefix + saveError.value), Some(name), false)
      else
        var reply := match process(cid, name)
          case Success(text) => Reply(200, map["message" := ProcessedMessage, "text" := text])
          case Failure(e) => Reply(500, map["error" := ProcessingPrefix + e, "details" := ProcessingDetails]);
        RecordOutcome(reply, Some(name), true)
  }

  /** A recording stored by /record belongs to its conference: if it is still
      in the directory when that conference is deleted, the deletion's sweep
      takes it. */
  lemma StoredRecordingSweptWithConference(dir: set<string>, req: RecordRequest, saveError: Option<string>,
                                           process: (string, string) -> Result<string, string>)
    requires RecordAudio(req, saveError, process).stored.Some?
    requires RecordAudio(req, saveError, process).stored.value in dir
    ensures RecordAudio(req, saveError, process).stored.value
            in ConferenceService.RecordingsOf(dir, req.conferenceId.value)
  {
  }

  /** GET /summary/<conference_id>. `summary` is the service's answer. */
  function GetSummary(summary: Result<string, string>): (reply: Reply)
    ensures reply.status == 200 <==> summary.Success?
    ensures summary.Success? ==> reply.body == map["summary" := summary.value]
    ensures summary.Failure? ==> reply == ErrorReply(500, summary.error)
  {
    match summary
    case Success(s) => Reply(200, map["summary" := s])
    case Failure(e) => ErrorReply(500, e)
  }
}
