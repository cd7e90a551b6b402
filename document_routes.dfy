/** The document blueprint: upload and question answering, each a function
    of the request and of what the services answered. */
module DocumentRoutes {
  import opened Results
  import opened Http
  import Text

  const UploadDir := "uploads"
  const NoFileProvided := "No file provided"
  const NoFileSelected := "No file selected"
  const UploadedMessage := "Document uploaded successfully"
  const QueryFieldsRequired := "Document ID and question are required"

  /** POSIX `os.path.join(dir, name)` for a directory not ending in '/': an
      absolute name replaces the directory. */
  function JoinPath(dir: string, name: string): (path: string)
    ensures name != [] && name[0] == '/' ==> path == name
    ensures (name == [] || name[0] != '/') ==> path == dir + "/" + name
  {
    if name != [] && name[0] == '/' then name else dir + "/" + name
  }

  /** Where an upload is written. The uploaded name is used as sent, so it
      may carry directories. */
  function UploadPath(filename: string): (path: string)
    ensures '/' !in filename ==> path == UploadDir + "/" + filename
  {
    JoinPath(UploadDir, filename)
  }

  /** A plain file name lands directly inside the upload directory, and
      distinct plain names land on distinct paths. */
  lemma PlainNamesStayInUploads(a: string, b: string)
    requires '/' !in a && '/' !in b
    ensures Text.StartsWith(UploadPath(a), UploadDir + "/")
    ensures UploadPath(a) == UploadPath(b) ==> a == b
  {
    var p := UploadDir + "/";
    assert UploadPath(a) == p + a && UploadPath(b) == p + b;
    if UploadPath(a) == UploadPath(b) {
      assert a == (p + a)[|p|..];
      assert b == (p + b)[|p|..];
    }
  }

  /** POST /upload. `file` is the `file` part, if any; `saveError` the
      exception saving raised, if any; `process` the document service, given
      the path the file was saved at. */
  function UploadDocument(file: Option<FilePart>, saveError: Option<string>,
                          process: string -> Result<string, string>): (reply: Reply)
    ensures file.None? ==> reply == ErrorReply(400, NoFileProvided)
    ensures file.Some? && file.value.filename == "" ==> reply == ErrorReply(400, NoFileSelected)
    ensures reply.status == 400 <==> file.None? || file.value.filename == ""
    ensures file.Some? && file.value.filename != "" && saveError.Some? ==>
      reply == ErrorReply(500, saveError.value)
    ensures file.Some? && file.value.filename != "" && saveError.None? ==>
      var result := process(UploadPath(file.value.filename));
      && (reply.status == 200 <==> result.Success?)
      && (result.Success? ==> reply.body == map["message" := UploadedMessage, "document_id" := result.value])
      && (result.Failure? ==> reply == ErrorReply(500, result.error))
  {
    if file.None? then ErrorReply(400, NoFileProvided)
    else if file.value.filename == "" then ErrorReply(400, NoFileSelected)
    else if saveError.Some? then ErrorReply(500, saveError.value)
    else
      match process(UploadPath(file.value.filename))
      case Success(id) => Reply(200, map["message" := UploadedMessage, "document_id" := id])
      case Failure(e) => ErrorReply(500, e)
  }

  /** The JSON body of POST /query, field by field. */
  datatype QueryRequest = QueryRequest(documentId: Option<string>, question: Option<string>, language: Option<string>)

  /** The question put to the retrieval service. */
  datatype Question = Question(documentId: string, question: string, language: string)

  /** The question a request asks, or None when it lacks a document id or a
      question. The language defaults to English. */
  function AskedQuestion(req: QueryRequest): (q: Option<Question>)
    ensures q.Some? <==> Given(req.documentId) && Given(req.question)
    ensures q.Some? ==> q.value.documentId == req.documentId.value && q.value.question == req.question.value
    ensures q.Some? ==> q.value.language == req.language.GetOr("en")
  {
    if Given(req.documentId) && Given(req.question) then
      Some(Question(req.documentId.value, req.question.value, req.language.GetOr("en")))
    else None
  }

  /** POST /query. `answer` is the retrieval service. */
  function QueryDocument(req: QueryRequest, answer: Question -> Result<string, string>): (reply: Reply)
    ensures AskedQuestion(req).None? ==> reply == ErrorReply(400, QueryFieldsRequired)
    ensures AskedQuestion(req).Some? ==>
      var result := answer(AskedQuestion(req).value);
      && (reply.status == 200 <==> result.Success?)
      && (result.Success? ==> reply.body == map["answer" := result.value])
      && (result.Failure? ==> reply == ErrorReply(500, result.error))
  {
    match AskedQuestion(req)
    case None => ErrorReply(400, QueryFieldsRequired)
    case Some(q) =>
      match answer(q)
      case Success(a) => Reply(200, map["answer" := a])
      case Failure(e) => ErrorReply(500, e)
  }

  /** The service is consulted only for well-formed requests: a 400 reply
      does not depend on it, and every other reply does not depend on the
      request beyond the question it asks. */
  lemma QueryDependsOnlyOnQuestion(r1: QueryRequest, r2: QueryRequest,
                                   a1: Question -> Result<string, string>,
                                   a2: Question -> Result<string, string>)
    ensures AskedQuestion(r1).None? ==> QueryDocument(r1, a1).status == 400 && QueryDocument(r1, a1) == QueryDocument(r1, a2)
    ensures AskedQuestion(r1).Some? && AskedQuestion(r1) == AskedQuestion(r2) ==>
      QueryDocument(r1, a1) == QueryDocument(r2, a1)
  {
  }
}
