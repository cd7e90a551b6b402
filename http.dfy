/** What the Flask blueprints receive and send: uploaded file parts and
    replies made of a status code and a flat JSON object of strings. */
module Http {
  import opened Results

  /** An entry of `request.files`. Werkzeug files a multipart part there only
      when it carries a filename, so the name is always a string, possibly
      empty. */
  datatype FilePart = FilePart(filename: string)

  datatype Reply = Reply(status: nat, body: map<string, string>)

  /** `jsonify({'error': message}), status` */
  function ErrorReply(status: nat, message: string): Reply {
    Reply(status, map["error" := message])
  }

  /** Python's truth test on an optional form or JSON string: present and
      non-empty. */
  predicate Given(value: Option<string>) {
    value.Some? && value.value != ""
  }
}
