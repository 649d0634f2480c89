/** The `/api/cvChat` route: it answers a question about one applicant's CV
    by reading the CV with the OCR service and asking a generative model.
    The database row, the download, the OCR reply and the model's reply are
    inputs. Problems with the applicant or the CV are answered with status
    200 and a message, not with an error status. */
module CvChat {
  import opened Wrappers
  import opened Text
  import opened JsValue
  import opened VisionOcr

  const NoText := "Vision API could not extract text."
  const CvFailurePrefix := "Error: Failed to process CV. Vision API Error: "
  const NoAnswer := "AI did not return any response."

  /** The applicant row, as far as the route reads it. */
  datatype ChatRow = ChatRow(firstName: Json, lastName: Json, cvUrl: Option<string>)

  /** How downloading the CV went. */
  datatype CvDownload = CvOk | CvNotOk | CvThrew(message: string)

  /** What the model call gives back: the reply's text, when there is one,
      or the message of what it threw. */
  datatype ChatGeneration = ChatText(text: Option<string>) | ChatFailed(message: string)

  datatype ChatResponse =
    | BadRequest(error: string)
    | ServerError(error: string)
    | Answer(responseText: string)

  const DbErrorPrefix := "Database Error (applicants table): "

  /** How the message names the applicant: by the row's names, or by its id
      when there is no row. */
  function CandidateName(id: string, row: Option<ChatRow>): (name: string)
    ensures row.None? ==> name == "Applicant ID " + id
    ensures row.Some? ==> name == ToString(row.value.firstName) + " " + ToString(row.value.lastName)
  {
    if row.Some? then ToString(row.value.firstName) + " " + ToString(row.value.lastName)
    else "Applicant ID " + id
  }

  /** The message for an applicant that cannot be chatted about: a database
      error takes precedence and is quoted after its prefix; otherwise the
      message names the candidate. */
  function MissingCvMessage(id: string, row: Option<ChatRow>, dbError: Option<string>): (m: string)
    ensures dbError.Some? ==> StartsWith(m, DbErrorPrefix) && m[|DbErrorPrefix|..] == dbError.value
    ensures dbError.None? ==> Contains(m, CandidateName(id, row)) && StartsWith(m, "Error: ")
  {
    if dbError.Some? then
      var m := DbErrorPrefix + dbError.value;
      assert m[..|DbErrorPrefix|] == DbErrorPrefix;
      m
    else
      var head := "Error: Candidate ";
      var tail := " (ID: " + id + ") does not have a CV URL.";
      var m := head + CandidateName(id, row) + tail;
      ContainsInfix(head, CandidateName(id, row), tail);
      assert m[..|"Error: "|] == head[..|"Error: "|];
      m
  }

  /** The message for a CV that cannot be read: a fixed prefix and at most
      150 characters of the error. */
  function CvFailureMessage(error: string): (m: string)
    ensures StartsWith(m, CvFailurePrefix)
    ensures |m| <= |CvFailurePrefix| + 150
    ensures StartsWith(error, m[|CvFailurePrefix|..])
    ensures |error| <= 150 ==> m == CvFailurePrefix + error
  {
    var m := CvFailurePrefix + Prefix(error, 150);
    assert m[..|CvFailurePrefix|] == CvFailurePrefix;
    assert m[|CvFailurePrefix|..] == Prefix(error, 150);
    m
  }

  /** The CV text, or the message of what stopped it. */
  function CvText(download: CvDownload, vision: VisionReply): Result<string, string>
  {
    match download
    case CvNotOk => Failure("Failed to download CV from URL.")
    case CvThrew(m) => Failure(m)
    case CvOk => OcrText(vision, NoText)
  }

  /** `text?.trim() ?? "AI did not return any response."`: only a missing
      text falls back; an empty one stays empty. */
  function AnswerText(text: Option<string>): (r: string)
    ensures text.None? ==> r == NoAnswer
    ensures text.Some? ==> r == Trim(text.value) && IsTrimmed(r)
  {
    if text.Some? then Trim(text.value) else NoAnswer
  }

  /** The whole route. It answers 400 without an applicant id or question;
      a missing applicant or CV URL, or a CV that cannot be read, is answered
      with status 200 and a message; only a failing model call is a 500. */
  method Post(applicantId: Json, userQuery: Json, row: Option<ChatRow>, dbError: Option<string>,
              download: CvDownload, vision: VisionReply, generation: ChatGeneration) returns (resp: ChatResponse)
    ensures resp.BadRequest? <==> !Truthy(applicantId) || !Truthy(userQuery)
    ensures resp.ServerError? ==> generation.ChatFailed?
    ensures !resp.BadRequest? && (dbError.Some? || row.None? || row.value.cvUrl.None? || row.value.cvUrl.value == "") ==>
      resp == Answer(MissingCvMessage(ToString(applicantId), row, dbError))
    ensures !resp.BadRequest? && dbError.None? && row.Some? && row.value.cvUrl.Some? && row.value.cvUrl.value != "" ==>
      match CvText(download, vision)
      case Failure(e) => resp == Answer(CvFailureMessage(e))
      case Success(_) => match generation
        case ChatFailed(m) => resp == ServerError("AI server processing failed: " + m)
        case ChatText(t) => resp == Answer(AnswerText(t))
  {
    if !Truthy(applicantId) || !Truthy(userQuery) {
      return BadRequest("Missing applicantId or userQuery");
    }
    var id := ToString(applicantId);
    if dbError.Some? || row.None? || row.value.cvUrl.None? || row.value.cvUrl.value == "" {
      return Answer(MissingCvMessage(id, row, dbError));
    }
    var cv := CvText(download, vision);
    if cv.Failure? {
      return Answer(CvFailureMessage(cv.error));
    }
    match generation {
      case ChatFailed(message) =>
        return ServerError("AI server processing failed: " + message);
      case ChatText(text) =>
        return Answer(AnswerText(text));
    }
  }
}
