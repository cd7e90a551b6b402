/** The backend's in-memory conference registry (`ConferenceService`):
    conferences keyed by id, each with its language, start time, transcripts
    and a cached text summary, plus the recordings directory it cleans up. */
module ConferenceService {
  import opened Results
  import Text
  import Lists

  /** Language code to speech-recognition locale. */
  const LanguageCodes: map<string, string> := map[
    "en" := "en-US", "es" := "es-ES", "fr" := "fr-FR", "de" := "de-DE",
    "zh" := "zh-CN", "ja" := "ja-JP", "ko" := "ko-KR", "ru" := "ru-RU",
    "ar" := "ar-SA", "hi" := "hi-IN", "vi" := "vi-VN", "th" := "th-TH"]

  const DefaultLanguage := "en"
  const FallbackLocale := "en-US"

  /** The locale the recogniser is asked for: the mapped code, or American
      English for a language outside the table. */
  function RecognitionLocale(language: string): (locale: string)
    ensures language in LanguageCodes ==> locale == LanguageCodes[language]
    ensures language !in LanguageCodes ==> locale == LanguageCodes[DefaultLanguage]
    ensures locale in LanguageCodes.Values
  {
    if language in LanguageCodes then LanguageCodes[language] else FallbackLocale
  }

  datatype Transcript = Transcript(timestamp: string, text: string)

  /** One entry of `self.conferences`; `summary` is `None` until a summary
      has been built. */
  datatype Conference = Conference(
    id: string,
    parentLanguage: string,
    startTime: string,
    transcripts: seq<Transcript>,
    summary: Option<string>)

  /** One record of `get_all_conferences`. */
  datatype ConferenceInfo = ConferenceInfo(
    id: string,
    date: string,
    duration: string,
    summary: Option<string>,
    language: string)

  /** What the speech recogniser made of the converted audio. */
  datatype Recognition =
    | Recognised(text: string)       // the service returned text
    | NotUnderstood                  // `sr.UnknownValueError`
    | RequestFailed(reason: string)  // `sr.RequestError`, with its message
    | AudioUnreadable                // any other failure while reading the WAV file

  const NotUnderstoodText := "Could not understand audio"
  const RequestFailedPrefix := "Could not request results from speech recognition service: "
  const AudioUnreadableText := "Error processing audio. Please ensure ffmpeg is installed: https://ffmpeg.org/download.html"
  const ConversionFailedText := "Failed to convert audio file to WAV format"

  /** The transcript text stored for a recognition outcome: the recognised
      words, or one of the fixed fallback messages. */
  function TranscriptText(r: Recognition): (text: string)
    ensures r.Recognised? ==> text == r.text
    ensures r.NotUnderstood? ==> text == NotUnderstoodText
    ensures r.AudioUnreadable? ==> text == AudioUnreadableText
    ensures r.RequestFailed? ==> text == RequestFailedPrefix + r.reason
    ensures r.RequestFailed? ==> Text.StartsWith(text, RequestFailedPrefix)
    ensures !r.Recognised? ==> text != []
  {
    match r
    case Recognised(t) => t
    case NotUnderstood => NotUnderstoodText
    case RequestFailed(reason) => RequestFailedPrefix + reason
    case AudioUnreadable => AudioUnreadableText
  }

  function NotFound(id: string): string {
    "Conference " + id + " not found"
  }

  // ---------------------------------------------------------------------
  // The summary text

  const SummaryTitle := "Conference Summary:\n"
  const KeyPointsTitle := "Key Points:\n"
  const SentenceBreak := ". "
  const MaxKeyPoints := 5

  function Texts(ts: seq<Transcript>): seq<string> {
    seq(|ts|, i requires 0 <= i < |ts| => ts[i].text)
  }

  /** `" ".join(t["text"] for t in transcripts)`: empty without
      transcripts, otherwise starting with the first transcript's text. */
  function FullText(ts: seq<Transcript>): (text: string)
    ensures ts == [] ==> text == ""
    ensures |ts| >= 1 ==> Text.StartsWith(text, ts[0].text)
    ensures |ts| >= 2 ==> Text.StartsWith(text, ts[0].text + " ")
  {
    Text.Join(Texts(ts), " ")
  }

  /** One more transcript adds a space and its text at the end of the joined
      text: every transcript's text is in it, in order. */
  lemma FullTextSnoc(ts: seq<Transcript>, t: Transcript)
    requires |ts| >= 1
    ensures FullText(ts + [t]) == FullText(ts) + " " + t.text
  {
    assert Texts(ts + [t]) == Texts(ts) + [t.text];
    Text.JoinSnoc(Texts(ts), t.text, " ");
  }

  function DurationLine(segments: nat): string {
    "Duration: " + Text.Decimal(segments) + " segments\n"
  }

  function SummaryHeader(segments: nat): string {
    SummaryTitle + DurationLine(segments) + KeyPointsTitle
  }

  /** The first (at most five) ". "-separated pieces of the joined text.
      There is always at least one, even for a conference without
      transcripts. */
  function KeyPoints(ts: seq<Transcript>): (points: seq<string>)
    ensures 1 <= |points| <= MaxKeyPoints
    ensures points <= Text.Split(FullText(ts), SentenceBreak)
    ensures |points| == MaxKeyPoints || points == Text.Split(FullText(ts), SentenceBreak)
  {
    var pieces := Text.Split(FullText(ts), SentenceBreak);
    if |pieces| <= MaxKeyPoints then pieces else pieces[..MaxKeyPoints]
  }

  /** One bullet line: "- ", the point with the whitespace around it
      removed, and a line break. */
  function KeyPointLine(point: string): (line: string)
    ensures |line| >= 3 && line[..2] == "- " && line[|line| - 1] == '\n'
    ensures var body := line[2..|line| - 1];
      && |body| <= |point|
      && (body == [] || (!Text.IsSpace(body[0]) && !Text.IsSpace(body[|body| - 1])))
    // the text is the point itself with only whitespace cut from either end
    ensures var body := line[2..|line| - 1]; var lo := |point| - |Text.TrimLeft(point)|;
      && 0 <= lo && lo + |body| <= |point| && body == point[lo..lo + |body|]
      && (forall i :: 0 <= i < lo ==> Text.IsSpace(point[i]))
      && (forall i :: lo + |body| <= i < |point| ==> Text.IsSpace(point[i]))
  {
    var body := Text.Strip(point);
    assert ("- " + body + "\n")[2..|body| + 2] == body;
    Text.StripKeepsCore(point);
    "- " + body + "\n"
  }

  function BulletLines(points: seq<string>): seq<string> {
    seq(|points|, i requires 0 <= i < |points| => KeyPointLine(points[i]))
  }

  /** The bullet lines of the key points, one after another. */
  function KeyPointLines(points: seq<string>): string {
    Lists.Flatten(BulletLines(points))
  }

  /** The bullet lines of a list of key points are those of any prefix
      followed by those of the rest. */
  lemma KeyPointLinesSplit(points: seq<string>, k: nat)
    requires k <= |points|
    ensures KeyPointLines(points) == KeyPointLines(points[..k]) + KeyPointLines(points[k..])
  {
    assert BulletLines(points) == BulletLines(points[..k]) + BulletLines(points[k..]);
    Lists.FlattenAppend(BulletLines(points[..k]), BulletLines(points[k..]));
  }

  /** Adding a key point adds its bullet line at the end. */
  lemma KeyPointLinesStep(points: seq<string>, i: nat)
    requires i < |points|
    ensures KeyPointLines(points[..i + 1]) == KeyPointLines(points[..i]) + KeyPointLine(points[i])
  {
    var upto := points[..i + 1];
    KeyPointLinesSplit(upto, i);
    assert upto[..i] == points[..i];
    assert BulletLines(upto[i..]) == [KeyPointLine(points[i])];
    Lists.FlattenOne(KeyPointLine(points[i]));
  }

  lemma AppendAssoc(a: string, b: string, c: string)
    ensures a + b + c == a + (b + c)
  {
  }

  /** The summary `get_summary` builds for a list of transcripts. */
  function BuildSummary(ts: seq<Transcript>): (summary: string)
    ensures Text.StartsWith(summary, SummaryHeader(|ts|))
    ensures summary != ""
  {
    SummaryHeader(|ts|) + KeyPointLines(KeyPoints(ts))
  }

  /** A summary is made of the header and one line per key point. */
  lemma SummaryLines(ts: seq<Transcript>)
    ensures var points := KeyPoints(ts);
      && Text.StartsWith(BuildSummary(ts), SummaryHeader(|ts|))
      && BuildSummary(ts) == SummaryHeader(|ts|) + KeyPointLine(points[0]) + KeyPointLines(points[1..])
  {
    var points := KeyPoints(ts);
    KeyPointLinesSplit(points, 1);
    assert BulletLines(points[..1]) == [KeyPointLine(points[0])];
    Lists.FlattenOne(KeyPointLine(points[0]));
    AppendAssoc(SummaryHeader(|ts|), KeyPointLine(points[0]), KeyPointLines(points[1..]));
  }

  lemma EmptyKeyPoints()
    ensures KeyPoints([]) == [""]
  {
    assert FullText([]) == "";
    assert Text.Split("", SentenceBreak) == [""];
  }

  lemma ZeroDurationLine()
    ensures DurationLine(0) == "Duration: 0 segments\n"
  {
    assert Text.Decimal(0) == "0";
  }

  lemma EmptyPointLines()
    ensures KeyPointLines([""]) == "- \n"
  {
    assert Text.Strip("") == "";
    assert KeyPointLine("") == "- \n";
    assert BulletLines([""]) == ["- \n"];
    Lists.FlattenOne("- \n");
  }

  /** A conference without transcripts still gets one (empty) key point. */
  lemma EmptyConferenceSummary()
    ensures BuildSummary([]) == SummaryTitle + "Duration: 0 segments\n" + KeyPointsTitle + "- \n"
  {
    EmptyKeyPoints();
    ZeroDurationLine();
    EmptyPointLines();
  }

  /** Python's truth test on the stored summary: present and non-empty. */
  predicate HasSummary(c: Conference) {
    c.summary.Some? && c.summary.value != ""
  }

  /** What `get_summary` returns for a conference: never empty; the stored
      summary when there is one, otherwise a freshly built one. */
  function CurrentSummary(c: Conference): (summary: string)
    ensures summary != ""
    ensures HasSummary(c) ==> summary == c.summary.value
    ensures !HasSummary(c) ==> Text.StartsWith(summary, SummaryHeader(|c.transcripts|))
  {
    if HasSummary(c) then c.summary.value else BuildSummary(c.transcripts)
  }

  /** The conference after `get_summary` has stored its result. */
  function Summarised(c: Conference): (d: Conference)
    ensures HasSummary(d)
    ensures d.(summary := c.summary) == c
  {
    c.(summary := Some(CurrentSummary(c)))
  }

  /** Summaries are cached: asking again returns the same string and stores
      nothing new, whatever transcripts arrive in between. */
  lemma SummaryIsStable(c: Conference, later: seq<Transcript>)
    ensures CurrentSummary(Summarised(c)) == CurrentSummary(c)
    ensures Summarised(Summarised(c)) == Summarised(c)
    ensures CurrentSummary(Summarised(c).(transcripts := later)) == CurrentSummary(c)
  {
  }

  /** The record `get_all_conferences` lists for a conference: its own id,
      start time, stored summary and language; the duration is not computed. */
  function InfoOf(id: string, c: Conference): (info: ConferenceInfo)
    ensures info.id == id && info.date == c.startTime && info.language == c.parentLanguage
    ensures info.summary == c.summary && info.duration == "Unknown"
  {
    ConferenceInfo(id, c.startTime, "Unknown", c.summary, c.parentLanguage)
  }

  /** The names in the recordings directory that belong to conference `id`. */
  function RecordingsOf(dir: set<string>, id: string): (names: set<string>)
    ensures names <= dir
    ensures forall f :: f in names ==> |f| > |id| && f[..|id|] == id && f[|id|] == '_'
    ensures forall f :: f in dir && Text.StartsWith(f, id + "_") ==> f in names
  {
    set f | f in dir && Text.StartsWith(f, id + "_")
  }

  class ConferenceRegistry {
    /** `self.conferences` */
    var conferences: map<string, Conference>
    /** The keys of `conferences` in insertion order, the order a Python
        dict iterates in. */
    var order: seq<string>
    /** The names in the recordings directory. */
    var recordings: set<string>

    ghost predicate Valid()
      reads this
    {
      && (forall id :: id in conferences ==> conferences[id].id == id)
      && (forall id :: id in conferences <==> id in order)
      && Lists.Distinct(order)
    }

    constructor (existing: set<string>)
      ensures Valid()
      ensures conferences == map[] && order == [] && recordings == existing
    {
      conferences := map[];
      order := [];
      recordings := existing;
    }

    function ConferenceExists(id: string): (b: bool)
      reads this
      ensures b <==> id in conferences.Keys
    {
      id in conferences
    }

    /** Registers a conference under `id` (the caller's clock reading), with
        no transcripts and no summary. A repeated id replaces the earlier
        entry and keeps its place in the iteration order. */
    method StartConference(id: string, parentLanguage: string, startTime: string) returns (cid: string)
      requires Valid()
      modifies this
      ensures Valid()
      ensures cid == id && ConferenceExists(cid)
      ensures conferences == old(conferences)[id := Conference(id, parentLanguage, startTime, [], None)]
      ensures order == if id in old(conferences) then old(order) else old(order) + [id]
      ensures recordings == old(recordings)
    {
      if id !in conferences {
        order := order + [id];
      }
      conferences := conferences[id := Conference(id, parentLanguage, startTime, [], None)];
      cid := id;
    }

    /** Transcribes one recording into conference `id`. `converted` says
        whether the WAV conversion succeeded; `recognise` is the speech
        recogniser, given the locale it is asked for. */
    method ProcessAudio(id: string, converted: bool, recognise: string -> Recognition, now: string)
      returns (r: Result<string, string>)
      requires Valid()
      modifies this
      ensures Valid() && order == old(order) && recordings == old(recordings)
      ensures id !in old(conferences) ==>
        r == Failure(NotFound(id)) && conferences == old(conferences)
      ensures id in old(conferences) && !converted ==>
        r == Failure(ConversionFailedText) && conferences == old(conferences)
      ensures id in old(conferences) && converted ==>
        var c := old(conferences)[id];
        var text := TranscriptText(recognise(RecognitionLocale(c.parentLanguage)));
        && r == Success(text)
        && conferences == old(conferences)[id := c.(transcripts := c.transcripts + [Transcript(now, text)])]
    {
      if id !in conferences {
        return Failure(NotFound(id));
      }
      var conference := conferences[id];
      var locale := RecognitionLocale(conference.parentLanguage);
      if !converted {
        return Failure(ConversionFailedText);
      }
      var text := TranscriptText(recognise(locale));
      conferences := conferences[id := conference.(transcripts := conference.transcripts + [Transcript(now, text)])];
      r := Success(text);
    }

    /** Returns the cached summary, or builds it line by line and caches it. */
    method GetSummary(id: string) returns (r: Result<string, string>)
      requires Valid()
      modifies this
      ensures Valid() && order == old(order) && recordings == old(recordings)
      ensures id !in old(conferences) ==>
        r == Failure(NotFound(id)) && conferences == old(conferences)
      ensures id in old(conferences) ==>
        && r == Success(CurrentSummary(old(conferences)[id]))
        && conferences == old(conferences)[id := Summarised(old(conferences)[id])]
    {
      if id !in conferences {
        return Failure(NotFound(id));
      }
      var conference := conferences[id];
      if conference.summary.Some? && conference.summary.value != "" {
        assert Summarised(conference) == conference;
        return Success(conference.summary.value);
      }
      var fullText := FullText(conference.transcripts);
      var summary := SummaryTitle;
      summary := summary + DurationLine(|conference.transcripts|);
      summary := summary + KeyPointsTitle;
      assert summary == SummaryHeader(|conference.transcripts|);
      var sentences := Text.Split(fullText, SentenceBreak);
      var keyPoints := if |sentences| <= MaxKeyPoints then sentences else sentences[..MaxKeyPoints];
      assert keyPoints == KeyPoints(conference.transcripts);
      for i := 0 to |keyPoints|
        invariant summary == SummaryHeader(|conference.transcripts|) + KeyPointLines(keyPoints[..i])
        invariant conferences == old(conferences) && order == old(order) && recordings == old(recordings)
      {
        KeyPointLinesStep(keyPoints, i);
        AppendAssoc(SummaryHeader(|conference.transcripts|), KeyPointLines(keyPoints[..i]), KeyPointLine(keyPoints[i]));
        summary := summary + KeyPointLine(keyPoints[i]);
      }
      assert keyPoints[..|keyPoints|] == keyPoints;
      assert summary == BuildSummary(conference.transcripts) == CurrentSummary(conference);
      conferences := conferences[id := conference.(summary := Some(summary))];
      r := Success(summary);
    }

    /** Forgets conference `id` and removes the recordings whose names start
        with `id` followed by an underscore; returns the names removed. */
    method DeleteConference(id: string) returns (r: Result<set<string>, string>)
      requires Valid()
      modifies this
      ensures Valid()
      ensures id !in old(conferences) ==>
        && r == Failure(NotFound(id))
        && conferences == old(conferences) && order == old(order) && recordings == old(recordings)
      ensures id in old(conferences) ==>
        && r == Success(RecordingsOf(old(recordings), id))
        && conferences == old(conferences) - {id}
        && order == Lists.Without(old(order), id)
        && recordings == old(recordings) - RecordingsOf(old(recordings), id)
    {
      if id !in conferences {
        return Failure(NotFound(id));
      }
      conferences := conferences - {id};
      order := Lists.Without(order, id);
      var listing := recordings;
      var removed: set<string> := {};
      while listing != {}
        invariant listing <= old(recordings)
        invariant removed == RecordingsOf(old(recordings) - listing, id)
        invariant recordings == old(recordings) - removed
        invariant conferences == old(conferences) - {id} && order == Lists.Without(old(order), id)
        decreases listing
      {
        var file :| file in listing;
        if Text.StartsWith(file, id + "_") {
          recordings := recordings - {file};
          removed := removed + {file};
        }
        listing := listing - {file};
      }
      assert old(recordings) - listing == old(recordings);
      r := Success(removed);
    }

    /** One record per stored conference, in insertion order. */
    method GetAllConferences() returns (list: seq<ConferenceInfo>)
      requires Valid()
      ensures |list| == |order|
      ensures forall i :: 0 <= i < |list| ==> order[i] in conferences && list[i] == InfoOf(order[i], conferences[order[i]])
      ensures forall id :: id in conferences <==> exists i :: 0 <= i < |list| && list[i].id == id
    {
      list := [];
      for i := 0 to |order|
        invariant |list| == i
        invariant forall j :: 0 <= j < i ==> order[j] in conferences && list[j] == InfoOf(order[j], conferences[order[j]])
      {
        var id := order[i];
        list := list + [InfoOf(id, conferences[id])];
      }
      forall id | id in conferences ensures exists i :: 0 <= i < |list| && list[i].id == id {
        var i :| 0 <= i < |order| && order[i] == id;
        assert list[i].id == id;
      }
    }
  }
}
