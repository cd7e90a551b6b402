/** The conference list page: recordings are sent for processing when their
    recorder stops, the processed conference is put at the head of the list,
    and conferences are deleted through a confirmation dialog. */
module ConferencesPage {
  import opened Results
  import opened Web
  import Lists

  /** One entry of the list as the backend sends it. */
  datatype ConferenceEntry = ConferenceEntry(id: string, date: string, duration: string, summary: string, language: string)

  function IdOf(c: ConferenceEntry): string {
    c.id
  }

  /** The form the recorder's `onstop` handler posts to /process-audio. */
  datatype AudioForm = AudioForm(audio: seq<Byte>, mimeType: string, language: string)

  /** What one call of startRecording sets up: a recorder with its own chunk
      array, and the `onstop` handler's view of the page, which is the
      render the handler was created in. Its language and its list are
      therefore those of the moment recording started. */
  class Recording {
    const language: string
    const listAtStart: seq<ConferenceEntry>
    var chunks: seq<Chunk>

    constructor (language: string, listAtStart: seq<ConferenceEntry>)
      ensures this.language == language && this.listAtStart == listAtStart && chunks == []
    {
      this.language := language;
      this.listAtStart := listAtStart;
      chunks := [];
    }

    /** `ondataavailable`: every chunk is kept, empty or not, in arrival
        order. */
    method DataAvailable(data: Chunk)
      modifies this
      ensures chunks == old(chunks) + [data]
    {
      chunks := chunks + [data];
    }

    /** The form posted once the recorder has stopped. */
    function Form(): (form: AudioForm)
      reads this
      ensures form.audio == Lists.Flatten(chunks) && form.language == language && form.mimeType == "audio/wav"
    {
      AudioForm(Lists.Flatten(chunks), "audio/wav", language)
    }
  }

  class ConferencesView {
    var isRecording: bool
    var selectedLanguage: string
    var conferences: seq<ConferenceEntry>
    var loading: bool
    var deleteDialogOpen: bool
    var selectedConference: Option<ConferenceEntry>
    var mediaRecorder: Recording?

    /** The page records exactly when it holds a recorder. */
    ghost predicate Valid()
      reads this
    {
      isRecording <==> mediaRecorder != null
    }

    constructor ()
      ensures Valid()
      ensures !isRecording && selectedLanguage == "en" && conferences == [] && !loading
      ensures !deleteDialogOpen && selectedConference == None && mediaRecorder == null
    {
      isRecording := false;
      selectedLanguage := "en";
      conferences := [];
      loading := false;
      deleteDialogOpen := false;
      selectedConference := None;
      mediaRecorder := null;
    }

    /** fetchConferences: the list is replaced by an ok response and kept
        otherwise. */
    method FetchConferences(response: Fetch<seq<ConferenceEntry>>)
      modifies this
      ensures conferences == if response.Ok? then response.data else old(conferences)
      ensures isRecording == old(isRecording) && selectedLanguage == old(selectedLanguage)
      ensures loading == old(loading) && deleteDialogOpen == old(deleteDialogOpen)
      ensures selectedConference == old(selectedConference) && mediaRecorder == old(mediaRecorder)
    {
      if response.Ok? {
        conferences := response.data;
      }
    }

    method SelectLanguage(language: string)
      modifies this
      ensures selectedLanguage == language
      ensures isRecording == old(isRecording) && conferences == old(conferences)
      ensures loading == old(loading) && deleteDialogOpen == old(deleteDialogOpen)
      ensures selectedConference == old(selectedConference) && mediaRecorder == old(mediaRecorder)
    {
      selectedLanguage := language;
    }

    /** startRecording, reached from the record button while it shows
        "start" and is enabled. A refused microphone is only logged. */
    method StartRecording(micGranted: bool) returns (recording: Recording?)
      requires Valid() && !isRecording && !loading
      modifies this
      ensures Valid()
      ensures !micGranted ==> recording == null && isRecording == old(isRecording) && mediaRecorder == old(mediaRecorder)
      ensures micGranted ==>
        && recording != null && fresh(recording)
        && recording.chunks == [] && recording.language == old(selectedLanguage)
        && recording.listAtStart == old(conferences)
        && isRecording && mediaRecorder == recording
      ensures selectedLanguage == old(selectedLanguage) && conferences == old(conferences)
      ensures loading == old(loading) && deleteDialogOpen == old(deleteDialogOpen)
      ensures selectedConference == old(selectedConference)
    {
      if !micGranted {
        return null;
      }
      recording := new Recording(selectedLanguage, conferences);
      mediaRecorder := recording;
      isRecording := true;
    }

    /** stopRecording: stops the held recorder, if any, and lets it go. The
        recorder then delivers its data and runs its `onstop` handler. */
    method StopRecording() returns (stopped: Recording?)
      requires Valid()
      modifies this
      ensures Valid()
      ensures stopped == old(mediaRecorder)
      ensures old(mediaRecorder) == null ==> isRecording == old(isRecording)
      ensures !isRecording && mediaRecorder == null
      ensures selectedLanguage == old(selectedLanguage) && conferences == old(conferences)
      ensures loading == old(loading) && deleteDialogOpen == old(deleteDialogOpen)
      ensures selectedConference == old(selectedConference)
    {
      stopped := mediaRecorder;
      if mediaRecorder != null {
        isRecording := false;
        mediaRecorder := null;
      }
    }

    /** The recorder's `onstop` handler: posts the recording and, on an ok
        response, puts the processed conference in front of the list the
        handler saw when recording started. */
    method RecordingStopped(recording: Recording, response: Fetch<ConferenceEntry>) returns (form: AudioForm)
      modifies this
      ensures form == recording.Form()
      ensures conferences == if response.Ok? then [response.data] + recording.listAtStart else old(conferences)
      ensures !loading
      ensures isRecording == old(isRecording) && selectedLanguage == old(selectedLanguage)
      ensures deleteDialogOpen == old(deleteDialogOpen) && selectedConference == old(selectedConference)
      ensures mediaRecorder == old(mediaRecorder)
    {
      form := recording.Form();
      loading := true;
      if response.Ok? {
        conferences := [response.data] + recording.listAtStart;
      }
      loading := false;
    }

    /** The delete icon of a card: remembers the conference and opens the
        dialog. */
    method AskDelete(conference: ConferenceEntry)
      modifies this
      ensures selectedConference == Some(conference) && deleteDialogOpen
      ensures isRecording == old(isRecording) && selectedLanguage == old(selectedLanguage)
      ensures conferences == old(conferences) && loading == old(loading) && mediaRecorder == old(mediaRecorder)
    {
      selectedConference := Some(conference);
      deleteDialogOpen := true;
    }

    /** The dialog's cancel button and its backdrop. */
    method CloseDialog()
      modifies this
      ensures !deleteDialogOpen
      ensures isRecording == old(isRecording) && selectedLanguage == old(selectedLanguage)
      ensures conferences == old(conferences) && loading == old(loading)
      ensures selectedConference == old(selectedConference) && mediaRecorder == old(mediaRecorder)
    {
      deleteDialogOpen := false;
    }

    /** handleDelete: on an ok response every entry with that id leaves the
        list; otherwise the list stays. The dialog closes either way. */
    method HandleDelete(id: string, ok: bool)
      modifies this
      ensures conferences == if ok then Lists.RemoveKey(old(conferences), IdOf, id) else old(conferences)
      ensures !loading && !deleteDialogOpen
      ensures isRecording == old(isRecording) && selectedLanguage == old(selectedLanguage)
      ensures selectedConference == old(selectedConference) && mediaRecorder == old(mediaRecorder)
    {
      loading := true;
      if ok {
        conferences := Lists.RemoveKey(conferences, IdOf, id);
      }
      loading := false;
      deleteDialogOpen := false;
    }

    /** The dialog's delete button: deletes the remembered conference, or the
        empty id when none is remembered. */
    method ConfirmDelete(ok: bool)
      modifies this
      ensures var id := if old(selectedConference).Some? then old(selectedConference).value.id else "";
        conferences == if ok then Lists.RemoveKey(old(conferences), IdOf, id) else old(conferences)
      ensures !loading && !deleteDialogOpen
      ensures isRecording == old(isRecording) && selectedLanguage == old(selectedLanguage)
      ensures selectedConference == old(selectedConference) && mediaRecorder == old(mediaRecorder)
    {
      var id := if selectedConference.Some? then selectedConference.value.id else "";
      HandleDelete(id, ok);
    }
  }

  /** Deleting keeps the other entries in their order: removing an id from a
      list that starts with a different conference keeps that one in front. */
  lemma DeleteKeepsOrder(front: ConferenceEntry, rest: seq<ConferenceEntry>, id: string)
    requires front.id != id
    ensures Lists.RemoveKey([front] + rest, IdOf, id) == [front] + Lists.RemoveKey(rest, IdOf, id)
  {
    Lists.RemoveKeyAppend([front], rest, IdOf, id);
    assert ([front])[1..] == [];
  }
}
