/**
 * The values the upload/chat handlers exchange and the pure decisions they take:
 * the mock keyword classifier, the `??` fallbacks applied to server responses,
 * the text of error messages and the reading of the configuration switches.
 */
module Replies {
  import opened Wrappers
  import opened JsStrings

  /** Who wrote a transcript entry. */
  datatype Who = User | Bot

  /** One transcript entry, `{ who, text }`. */
  datatype Message = Message(who: Who, text: string)

  /** The uploaded file as the chat knows it: a key for queries and an optional preview URL. */
  datatype FileMeta = FileMeta(key: string, url: Option<string>)

  /** The file the user picked; its content never matters here, only its name. */
  datatype SelectedFile = SelectedFile(name: string)

  /** A caught exception: its `message` ("" when missing or empty) and its string conversion. */
  datatype Failure = Failure(message: string, shown: string)

  /** What a `fetch` followed by `resp.json()` comes to: a parsed body, a non-2xx status,
      or an exception thrown by the transport or by the JSON parser. */
  datatype Outcome<+T> = Ok(body: T) | HttpNotOk | Thrown(failure: Failure)

  /** The fields of the upload endpoint's JSON body that are read; `None` is null or undefined. */
  datatype UploadBody = UploadBody(key: Option<string>, filename: Option<string>, url: Option<string>)

  /** The query endpoint's JSON body: its `answer` field and its `JSON.stringify` form. */
  datatype QueryBody = QueryBody(answer: Option<string>, serialized: string)

  /** The multipart POST of field `file` to the upload endpoint. */
  datatype UploadRequest = UploadRequest(endpoint: string, file: SelectedFile)

  /** The JSON POST `{ question, fileKey }` to the query endpoint. */
  datatype QueryRequest = QueryRequest(endpoint: string, question: string, fileKey: string)

  const NameFact := "Mock: The name found is John Doe."
  const DateFact := "Mock: The document date is 2025-07-01."
  const AmountFact := "Mock: Total amount found is \U{20B9}12,345."
  const UploadFirst := "Please upload a file first."
  const UploadFailed := "Upload failed"
  const QueryFailed := "Query failed"

  /** The mock fallback reply; it quotes the question verbatim. */
  function EchoReply(question: string): (r: string)
    ensures Occurs(question, r)
  {
    var before := "Mock (echo): I saw your question \U{2014} \"";
    var after := "\". I can search for names, dates, totals, or summaries.";
    OccursBetween(before, question, after);
    before + question + after
  }

  /** The question mentions `keyword` regardless of the case of its ASCII letters. */
  ghost predicate Mentions(question: string, keyword: string)
  {
    Occurs(keyword, Lower(question))
  }

  /** The mock answer: "name" wins over "date", which wins over "total"/"amount"/"price";
      a question mentioning none of them gets the echo reply. */
  function MockAnswer(question: string): (r: string)
    ensures Mentions(question, "name") ==> r == NameFact
    ensures !Mentions(question, "name") && Mentions(question, "date") ==> r == DateFact
    ensures !Mentions(question, "name") && !Mentions(question, "date")
            && (Mentions(question, "total") || Mentions(question, "amount") || Mentions(question, "price"))
            ==> r == AmountFact
    ensures !Mentions(question, "name") && !Mentions(question, "date") && !Mentions(question, "total")
            && !Mentions(question, "amount") && !Mentions(question, "price")
            ==> r == EchoReply(question)
  {
    var q := Lower(question);
    IncludesIffOccurs(q, "name");
    IncludesIffOccurs(q, "date");
    IncludesIffOccurs(q, "total");
    IncludesIffOccurs(q, "amount");
    IncludesIffOccurs(q, "price");
    if Includes(q, "name") then NameFact
    else if Includes(q, "date") then DateFact
    else if Includes(q, "total") || Includes(q, "amount") || Includes(q, "price") then AmountFact
    else EchoReply(question)
  }

  /** Two questions that differ only in the case of ASCII letters get the same answer, unless both
      get the echo reply, which quotes each question as it was typed. */
  lemma CannedAnswerIgnoresCase(q1: string, q2: string)
    requires Lower(q1) == Lower(q2)
    ensures MockAnswer(q1) == MockAnswer(q2)
            || (MockAnswer(q1) == EchoReply(q1) && MockAnswer(q2) == EchoReply(q2))
  {
  }

  /** The file record kept after a live upload: key from `key`, else `filename`, else the
      placeholder "filekey"; the URL is `url` or null. */
  function UploadedMeta(body: UploadBody): (m: FileMeta)
    ensures body.key.Some? ==> m.key == body.key.value
    ensures body.key.None? && body.filename.Some? ==> m.key == body.filename.value
    ensures body.key.None? && body.filename.None? ==> m.key == "filekey"
    ensures m.url == body.url
  {
    FileMeta(body.key.GetOr(body.filename.GetOr("filekey")), body.url)
  }

  /** `err.message || err`: the message when it is non-empty, otherwise the exception as a string. */
  function ErrorText(f: Failure): string
  {
    if f.message != "" then f.message else f.shown
  }

  /** The text of the error caught for a failed request; a non-2xx status throws `new Error(failed)`. */
  function Explain<T>(o: Outcome<T>, failed: string): (r: string)
    requires !o.Ok?
    ensures o.HttpNotOk? ==> r == failed
    ensures o.Thrown? && o.failure.message != "" ==> r == o.failure.message
    ensures o.Thrown? && o.failure.message == "" ==> r == o.failure.shown
  {
    if o.HttpNotOk? then failed else ErrorText(o.failure)
  }

  /** The bot reply to a live query: the `answer` field, else the serialized response;
      every failure becomes one "Error: " message. */
  function LiveReply(response: Outcome<QueryBody>): (r: string)
    ensures response.Ok? && response.body.answer.Some? ==> r == response.body.answer.value
    ensures response.Ok? && response.body.answer.None? ==> r == response.body.serialized
    ensures response.HttpNotOk? ==> r == "Error: " + QueryFailed
    ensures response.Thrown? ==> StartsWith(r, "Error: ")
  {
    match response
    case Ok(body) => body.answer.GetOr(body.serialized)
    case _ =>
      var r := "Error: " + Explain(response, QueryFailed);
      assert r[..|"Error: "|] == "Error: ";
      r
  }

  /** The bot reply to a failed upload; it always starts with "Upload error: ". */
  function UploadErrorReply(response: Outcome<UploadBody>): (r: string)
    requires !response.Ok?
    ensures StartsWith(r, "Upload error: ")
    ensures response.HttpNotOk? ==> r == "Upload error: " + UploadFailed
  {
    var r := "Upload error: " + Explain(response, UploadFailed);
    assert r[..|"Upload error: "|] == "Upload error: ";
    r
  }

  /** The bot notice after a successful upload; it names the file in quotes, and the mock upload's
      notice, and only that one, ends in " (mock).". */
  function UploadedNotice(name: string, mock: bool): (r: string)
    ensures StartsWith(r, "File \"" + name + "\" uploaded")
    ensures mock <==> EndsWith(r, " (mock).")
    ensures !mock ==> r == "File \"" + name + "\" uploaded."
    ensures Occurs(name, r)
  {
    var r := "File \"" + name + "\" uploaded" + (if mock then " (mock)." else ".");
    assert r[..|"File \"" + name + "\" uploaded"|] == "File \"" + name + "\" uploaded";
    assert !mock ==> r[|r| - 2] == 'd';
    OccursBetween("File \"", name, "\" uploaded" + (if mock then " (mock)." else "."));
    assert "File \"" + name + "\" uploaded" + (if mock then " (mock)." else ".")
        == "File \"" + name + ("\" uploaded" + (if mock then " (mock)." else "."));
    r
  }

  /** The mock/live switch, `(env || "true").toLowerCase() === "true"`: on when the variable is
      unset or empty, otherwise exactly when it reads "true" ignoring the case of ASCII letters. */
  function UseMockFrom(env: string): (on: bool)
    ensures env == "" ==> on
    ensures env != "" ==> (on <==> Lower(env) == "true")
    ensures env == "TRUE" ==> on
    ensures env == "false" ==> !on
  {
    LowerKeepsLowercase("true");
    Lower(if env == "" then "true" else env) == "true"
  }

  const DefaultUploadUrl := "http://localhost:8080/upload"
  const DefaultQueryUrl := "http://localhost:8080/query"

  /** An endpoint setting, `env || fallback`: a non-empty variable wins, an unset or empty one gives
      the default; the setting is empty only when both are. */
  function ConfiguredUrl(env: string, fallback: string): (url: string)
    ensures env != "" ==> url == env
    ensures url == env || url == fallback
    ensures url == "" <==> env == "" && fallback == ""
  {
    if env != "" then env else fallback
  }
}
