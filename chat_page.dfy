/** The chat page: questions about a selected document (tab 0) or a
    selected conference (tab 1), answered by the backend and kept as a
    message list. Each handler is a step function on the page's state; the
    `ChatView` class holds that state in fields and performs the steps. */
module ChatPage {
  import opened Results
  import opened Web
  import Lists
  import Text

  datatype Sender = User | Assistant

  /** A chat message; its id and timestamp come from the clock and are not
      part of this model. */
  datatype Message = Message(text: string, sender: Sender)

  datatype DocumentItem = DocumentItem(id: string, name: string)

  datatype ConferenceItem = ConferenceItem(id: string, startTime: string, parentLanguage: string,
                                           transcriptCount: nat, duration: string)

  function ConferenceIdOf(c: ConferenceItem): string {
    c.id
  }

  /** The `chat.error` translation, shown when a question gets no answer.
      The model keeps the translation key. */
  const ErrorText := "chat.error"

  /** The characters JavaScript's `String.prototype.trim` removes:
      WhiteSpace and LineTerminator of ECMAScript, including U+FEFF. The
      contract compares the set with Python's `str.isspace`. */
  predicate IsJsSpace(c: char): (b: bool)
    // apart from the byte order mark, Python's whitespace set covers it
    ensures b && c != '\U{FEFF}' ==> Text.IsSpace(c)
    // Python's set adds the four separators U+1C..U+1F and NEL
    ensures Text.IsSpace(c) && !('\U{1C}' <= c <= '\U{1F}') && c != '\U{85}' ==> b
  {
    || ('\U{9}' <= c <= '\U{D}')
    || c == ' ' || c == '\U{A0}' || c == '\U{1680}'
    || ('\U{2000}' <= c <= '\U{200A}')
    || c == '\U{2028}' || c == '\U{2029}' || c == '\U{202F}' || c == '\U{205F}' || c == '\U{3000}'
    || c == '\U{FEFF}'
  }

  /** `!input.trim()`: nothing but whitespace. */
  predicate Blank(s: string): (b: bool)
    ensures s == [] ==> b
    ensures |s| > 0 && !IsJsSpace(s[0]) ==> !b
  {
    forall i :: 0 <= i < |s| ==> IsJsSpace(s[i])
  }

  datatype Chat = Chat(messages: seq<Message>, input: string, selectedLanguage: string,
                       selectedDocument: string, selectedConference: string,
                       documents: seq<DocumentItem>, conferences: seq<ConferenceItem>,
                       loading: bool, activeTab: nat)

  const Initial := Chat([], "", "en", "", "", [], [], false, 0)

  /** The POST the page sends: its path, the name and value of the id field,
      the question and the answer language. */
  datatype Question = Question(endpoint: string, idField: string, id: string, question: string, language: string)

  /** The question handleSend would send, or None when one of its guards
      returns early: blank input, or no selection for the active tab. */
  function Ask(c: Chat): (q: Option<Question>)
    ensures q.None? <==> Blank(c.input)
                         || (c.activeTab == 0 && c.selectedDocument == "")
                         || (c.activeTab == 1 && c.selectedConference == "")
    ensures q.Some? && c.activeTab == 0 ==>
      q.value == Question("/query", "document_id", c.selectedDocument, c.input, c.selectedLanguage)
    ensures q.Some? && c.activeTab != 0 ==>
      q.value == Question("/conference/query", "conference_id", c.selectedConference, c.input, c.selectedLanguage)
  {
    if Blank(c.input) then None
    else if c.activeTab == 0 && c.selectedDocument == "" then None
    else if c.activeTab == 1 && c.selectedConference == "" then None
    else if c.activeTab == 0 then Some(Question("/query", "document_id", c.selectedDocument, c.input, c.selectedLanguage))
    else Some(Question("/conference/query", "conference_id", c.selectedConference, c.input, c.selectedLanguage))
  }

  /** handleSend, with `answer` the outcome of the POST: an ok response
      carries the answer text; anything else shows the error text. */
  function Send(c: Chat, answer: Fetch<string>): (d: Chat)
    ensures Ask(c).None? ==> d == c
    ensures Ask(c).Some? ==>
      && d.messages == c.messages + [Message(c.input, User),
                                     Message(if answer.Ok? then answer.data else ErrorText, Assistant)]
      && d.input == "" && !d.loading
      && d.(messages := c.messages, input := c.input, loading := c.loading) == c
  {
    if Ask(c).None? then c
    else
      var user := Message(c.input, User);
      var reply := match answer
        case Ok(text) => Message(text, Assistant)
        case _ => Message(ErrorText, Assistant);
      c.(messages := c.messages + [user, reply], input := "", loading := false)
  }

  /** handleTabChange: a new tab starts with no selection and no messages. */
  function ChangeTab(c: Chat, tab: nat): (d: Chat)
    ensures d.activeTab == tab && d.selectedDocument == "" && d.selectedConference == "" && d.messages == []
    ensures d.(activeTab := c.activeTab, selectedDocument := c.selectedDocument,
               selectedConference := c.selectedConference, messages := c.messages) == c
    // nothing can be asked on the new tab until something is selected
    ensures tab <= 1 ==> Ask(d).None?
  {
    c.(activeTab := tab, selectedDocument := "", selectedConference := "", messages := [])
  }

  /** handleDeleteConference, with `ok` whether the DELETE succeeded. */
  function DeleteConference(c: Chat, id: string, ok: bool): (d: Chat)
    ensures !ok ==> d == c
    ensures ok ==> d.conferences == Lists.RemoveKey(c.conferences, ConferenceIdOf, id)
    ensures ok && c.selectedConference == id ==> d.selectedConference == "" && d.messages == []
    ensures ok && c.selectedConference != id ==> d.selectedConference == c.selectedConference && d.messages == c.messages
    ensures d.(conferences := c.conferences, selectedConference := c.selectedConference, messages := c.messages) == c
  {
    if !ok then c
    else
      var d := c.(conferences := Lists.RemoveKey(c.conferences, ConferenceIdOf, id));
      if c.selectedConference == id then d.(selectedConference := "", messages := []) else d
  }

  /** fetchData: the two lists are fetched together. A network failure of
      either leaves both lists alone; otherwise each list is replaced exactly
      when its own response is ok. */
  function Fetched(c: Chat, documents: Fetch<seq<DocumentItem>>, conferences: Fetch<seq<ConferenceItem>>): (d: Chat)
    ensures documents.NetworkError? || conferences.NetworkError? ==> d == c
    ensures !documents.NetworkError? && !conferences.NetworkError? ==>
      && d.documents == (if documents.Ok? then documents.data else c.documents)
      && d.conferences == (if conferences.Ok? then conferences.data else c.conferences)
    ensures d.(documents := c.documents, conferences := c.conferences) == c
  {
    if documents.NetworkError? || conferences.NetworkError? then c
    else
      var c1 := if documents.Ok? then c.(documents := documents.data) else c;
      if conferences.Ok? then c1.(conferences := conferences.data) else c1
  }

  /** A question and its reply are the only messages a send adds, so the
      conversation keeps one reply per question. */
  lemma SendAddsOneExchange(c: Chat, answer: Fetch<string>)
    requires Ask(c).Some?
    ensures var d := Send(c, answer);
      && |d.messages| == |c.messages| + 2
      && d.messages[..|c.messages|] == c.messages
      && d.messages[|c.messages|].sender == User && d.messages[|c.messages|].text == Ask(c).value.question
      && d.messages[|c.messages| + 1].sender == Assistant
  {
  }

  /** Deleting the selected conference makes asking impossible on the
      conference tab until another is chosen. */
  lemma DeletingSelectionBlocksAsking(c: Chat, ok: bool)
    requires c.activeTab == 1 && ok
    ensures Ask(DeleteConference(c, c.selectedConference, ok)).None?
  {
  }

  class ChatView {
    var messages: seq<Message>
    var input: string
    var selectedLanguage: string
    var selectedDocument: string
    var selectedConference: string
    var documents: seq<DocumentItem>
    var conferences: seq<ConferenceItem>
    var loading: bool
    var activeTab: nat

    function Snapshot(): Chat
      reads this
    {
      Chat(messages, input, selectedLanguage, selectedDocument, selectedConference,
           documents, conferences, loading, activeTab)
    }

    constructor ()
      ensures Snapshot() == Initial
    {
      messages := [];
      input := "";
      selectedLanguage := "en";
      selectedDocument := "";
      selectedConference := "";
      documents := [];
      conferences := [];
      loading := false;
      activeTab := 0;
    }

    method TypeInput(text: string)
      modifies this
      ensures Snapshot() == old(Snapshot()).(input := text)
    {
      input := text;
    }

    method SelectLanguage(language: string)
      modifies this
      ensures Snapshot() == old(Snapshot()).(selectedLanguage := language)
    {
      selectedLanguage := language;
    }

    /** The selector of the active tab: a document on tab 0, a conference
        otherwise. */
    method Select(id: string)
      modifies this
      ensures Snapshot() == if old(activeTab) == 0 then old(Snapshot()).(selectedDocument := id)
                            else old(Snapshot()).(selectedConference := id)
    {
      if activeTab == 0 {
        selectedDocument := id;
      } else {
        selectedConference := id;
      }
    }

    method FetchData(documentsResponse: Fetch<seq<DocumentItem>>, conferencesResponse: Fetch<seq<ConferenceItem>>)
      modifies this
      ensures Snapshot() == Fetched(old(Snapshot()), documentsResponse, conferencesResponse)
    {
      if documentsResponse.NetworkError? || conferencesResponse.NetworkError? {
        return;
      }
      if documentsResponse.Ok? {
        documents := documentsResponse.data;
      }
      if conferencesResponse.Ok? {
        conferences := conferencesResponse.data;
      }
    }

    /** handleSend, reachable while not loading (the field and the button
        are disabled during a send). Returns the question sent, if any. */
    method HandleSend(answer: Fetch<string>) returns (sent: Option<Question>)
      requires !loading
      modifies this
      ensures sent == Ask(old(Snapshot()))
      ensures Snapshot() == Send(old(Snapshot()), answer)
    {
      sent := Ask(Snapshot());
      if sent.None? {
        return;
      }
      var user := Message(input, User);
      messages := messages + [user];
      input := "";
      loading := true;
      var reply := if answer.Ok? then Message(answer.data, Assistant) else Message(ErrorText, Assistant);
      messages := messages + [reply];
      loading := false;
    }

    method HandleTabChange(tab: nat)
      modifies this
      ensures Snapshot() == ChangeTab(old(Snapshot()), tab)
    {
      activeTab := tab;
      selectedDocument := "";
      selectedConference := "";
      messages := [];
    }

    method HandleDeleteConference(id: string, ok: bool)
      modifies this
      ensures Snapshot() == DeleteConference(old(Snapshot()), id, ok)
    {
      if !ok {
        return;
      }
      conferences := Lists.RemoveKey(conferences, ConferenceIdOf, id);
      if selectedConference == id {
        selectedConference := "";
        messages := [];
      }
    }
  }
}
