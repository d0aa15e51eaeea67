/**
 * The root component's state and its event handlers. Each handler runs to completion in one
 * step: network calls are replaced by the outcome they produce (a parameter), and a handler
 * returns the request it would have sent, if any.
 */
module AppState {
  import opened Wrappers
  import opened JsStrings
  import opened Replies

  class App {
    // configuration, fixed for the session
    const useMock: bool
    const uploadUrl: string
    const queryUrl: string

    // the five pieces of component state
    var fileMeta: Option<FileMeta>
    var uploading: bool
    var messages: seq<Message>
    var input: string
    var loadingAnswer: bool

    /** The initial render: no file, nothing in flight, an empty transcript and input box. */
    constructor (useMock: bool, uploadUrl: string, queryUrl: string)
      ensures this.useMock == useMock && this.uploadUrl == uploadUrl && this.queryUrl == queryUrl
      ensures fileMeta == None && !uploading && messages == [] && input == "" && !loadingAnswer
    {
      this.useMock := useMock;
      this.uploadUrl := uploadUrl;
      this.queryUrl := queryUrl;
      fileMeta := None;
      uploading := false;
      messages := [];
      input := "";
      loadingAnswer := false;
    }

    /** The component as configured by its build environment: each endpoint is its variable or
        the localhost default, and mock mode follows the mock switch. With every variable unset or
        empty the app runs in mock mode against the localhost endpoints. */
    constructor FromEnvironment(uploadEnv: string, queryEnv: string, mockEnv: string)
      ensures uploadUrl == ConfiguredUrl(uploadEnv, DefaultUploadUrl)
      ensures queryUrl == ConfiguredUrl(queryEnv, DefaultQueryUrl)
      ensures useMock == UseMockFrom(mockEnv)
      ensures uploadUrl != "" && queryUrl != ""
      ensures uploadEnv == "" && queryEnv == "" && mockEnv == "" ==>
                useMock && uploadUrl == DefaultUploadUrl && queryUrl == DefaultQueryUrl
      ensures fileMeta == None && !uploading && messages == [] && input == "" && !loadingAnswer
    {
      useMock := UseMockFrom(mockEnv);
      uploadUrl := ConfiguredUrl(uploadEnv, DefaultUploadUrl);
      queryUrl := ConfiguredUrl(queryEnv, DefaultQueryUrl);
      fileMeta := None;
      uploading := false;
      messages := [];
      input := "";
      loadingAnswer := false;
    }

    /** Appends one entry at the end of the transcript; earlier entries keep their order. */
    method PushMessage(who: Who, text: string)
      modifies this`messages
      ensures |messages| == |old(messages)| + 1
      ensures messages[..|old(messages)|] == old(messages)
      ensures messages[|old(messages)|] == Message(who, text)
      ensures messages == old(messages) + [Message(who, text)]
    {
      messages := messages + [Message(who, text)];
    }

    /** Empties the transcript. Nothing else changes, so clearing an already empty transcript
        changes nothing at all: clearing twice is clearing once. */
    method ClearChat()
      modifies this`messages
      ensures messages == []
      ensures old(messages) == [] ==> unchanged(this)
    {
      messages := [];
    }

    /** The input box's change handler. */
    method SetInput(text: string)
      modifies this`input
      ensures input == text
    {
      input := text;
    }

    /** The file input's change handler. Without a selected file nothing happens. Otherwise the
        file record is reset and exactly one bot message is appended: the success notice with the
        new record, or an "Upload error: " message with no record; `uploading` ends false.
        The input box and `loadingAnswer` are outside the frame and stay as they were. */
    method HandleUpload(selected: Option<SelectedFile>, stamp: string, objectUrl: string,
                        response: Outcome<UploadBody>)
      returns (sent: Option<UploadRequest>)
      modifies this`fileMeta, this`uploading, this`messages
      ensures selected.None? ==> sent.None? && unchanged(this)
      ensures selected.Some? ==> !uploading
      ensures selected.Some? && useMock ==>
        && sent.None?
        && fileMeta == Some(FileMeta("mock-" + stamp, Some(objectUrl)))
        && messages == old(messages) + [Message(Bot, UploadedNotice(selected.value.name, true))]
      ensures selected.Some? && !useMock ==> sent == Some(UploadRequest(uploadUrl, selected.value))
      ensures selected.Some? && !useMock && response.Ok? ==>
        && fileMeta == Some(UploadedMeta(response.body))
        && messages == old(messages) + [Message(Bot, UploadedNotice(selected.value.name, false))]
      ensures selected.Some? && !useMock && !response.Ok? ==>
        && fileMeta == None
        && messages == old(messages) + [Message(Bot, UploadErrorReply(response))]
    {
      sent := None;
      if selected.None? {
        return;
      }
      var f := selected.value;
      uploading := true;
      fileMeta := None;
      if useMock {
        fileMeta := Some(FileMeta("mock-" + stamp, Some(objectUrl)));
        PushMessage(Bot, UploadedNotice(f.name, true));
      } else {
        sent := Some(UploadRequest(uploadUrl, f));
        match response
        case Ok(body) =>
          fileMeta := Some(UploadedMeta(body));
          PushMessage(Bot, UploadedNotice(f.name, false));
        case _ =>
          PushMessage(Bot, UploadErrorReply(response));
      }
      uploading := false;
    }

    /** What `askQuestion(question)` does to the state, and the query it sends:
        - an empty question changes nothing;
        - in live mode without a file, only the bot prompt "Please upload a file first." is
          appended: no user message, no query, input box and `loadingAnswer` untouched;
        - otherwise the question is appended as a user message followed by exactly one bot
          reply (the mock answer, or the live reply to the query sent with the file's key),
          the input box is cleared and `loadingAnswer` ends false.
        The file record and `uploading` never change. */
    twostate predicate Asked(question: string, response: Outcome<QueryBody>, new sent: Option<QueryRequest>)
      reads this
    {
      && fileMeta == old(fileMeta)
      && uploading == old(uploading)
      && (question == "" ==>
            sent.None? && messages == old(messages) && input == old(input)
            && loadingAnswer == old(loadingAnswer))
      && (question != "" && !useMock && old(fileMeta).None? ==>
            && sent.None?
            && messages == old(messages) + [Message(Bot, UploadFirst)]
            && input == old(input)
            && loadingAnswer == old(loadingAnswer))
      && (question != "" && (useMock || old(fileMeta).Some?) ==>
            && !loadingAnswer
            && input == ""
            && |messages| == |old(messages)| + 2
            && messages[..|old(messages)| + 1] == old(messages) + [Message(User, question)]
            && messages[|old(messages)| + 1].who == Bot)
      && (question != "" && useMock ==>
            && sent.None?
            && messages == old(messages) + [Message(User, question), Message(Bot, MockAnswer(question))])
      && (question != "" && !useMock && old(fileMeta).Some? ==>
            && sent == Some(QueryRequest(queryUrl, question, old(fileMeta).value.key))
            && messages == old(messages) + [Message(User, question), Message(Bot, LiveReply(response))])
    }

    /** The chat's question handler; see `Asked`. */
    method AskQuestion(question: string, response: Outcome<QueryBody>) returns (sent: Option<QueryRequest>)
      modifies this`messages, this`loadingAnswer, this`input
      ensures Asked(question, response, sent)
    {
      sent := None;
      if question == "" {
        return;
      }
      if fileMeta.None? && !useMock {
        PushMessage(Bot, UploadFirst);
        return;
      }
      PushMessage(User, question);
      loadingAnswer := true;
      input := "";
      var reply: string;
      if useMock {
        reply := MockAnswer(question);
      } else {
        sent := Some(QueryRequest(queryUrl, question, fileMeta.value.key));
        reply := LiveReply(response);
      }
      PushMessage(Bot, reply);
      loadingAnswer := false;
      assert messages == old(messages) + [Message(User, question), Message(Bot, reply)];
    }

    /** The form's submit handler: a question that trims to nothing changes nothing and sends
        nothing; any other is asked with its surrounding white space removed. */
    method OnSubmit(response: Outcome<QueryBody>) returns (sent: Option<QueryRequest>)
      modifies this`messages, this`loadingAnswer, this`input
      ensures Trim(old(input)) == "" ==> sent.None? && unchanged(this)
      ensures Trim(old(input)) != "" ==> Asked(Trim(old(input)), response, sent)
    {
      var q := Trim(input);
      if q == "" {
        return None;
      }
      sent := AskQuestion(q, response);
    }
  }
}
