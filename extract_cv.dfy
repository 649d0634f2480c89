/** The `/api/extractCV` route: it downloads a CV, has the OCR service read
    it, and asks a generative model to pull out the name, position and
    experience. The download, the OCR reply, the model's reply and
    `JSON.parse` are inputs. */
module ExtractCv {
  import opened Wrappers
  import opened Text
  import opened JsValue
  import opened VisionOcr
  import opened AiReply

  const NoText := "Google Vision API could not extract text from the PDF."
  const ServerErrorPrefix := "Server Error: "

  /** How fetching the file went. */
  datatype FileDownload =
    | FileOk
      /** A non-OK status, with its status text. */
    | FileNotOk(statusText: string)
      /** The request itself threw. */
    | FileThrew(message: string)

  datatype ExtractResponse =
    | BadRequest(error: string)
    | ServerError(error: string)
    | Extracted(firstName: Json, lastName: Json, position: Json, experience: Json, text: string)

  /** The four fields before the model has answered: all null. */
  function NullFields(): (v: Json)
    ensures v.Obj? && forall k :: k in v.fields ==> v.fields[k] == Null
  {
    Obj(map["firstName" := Null, "lastName" := Null, "position" := Null, "experience" := Null])
  }

  /** The route once the inputs are known. Without a file URL or applicant
      id it answers 400. A failed download or OCR read is a 500 prefixed
      "Server Error: ". Otherwise it answers the joined page text, and the
      four fields stay null whenever the model call or the parse fails. */
  method Post(applicantId: Json, fileUrl: Json, download: FileDownload, vision: VisionReply,
              reply: Option<string>, parse: string -> ParseOutcome) returns (resp: ExtractResponse)
    ensures resp.BadRequest? <==> !Truthy(fileUrl) || !Truthy(applicantId)
    ensures resp.ServerError? ==> StartsWith(resp.error, ServerErrorPrefix)
    ensures Truthy(fileUrl) && Truthy(applicantId) && download.FileNotOk? ==>
      resp == ServerError(ServerErrorPrefix + "Failed to download file: " + download.statusText)
    ensures resp.Extracted? ==> download.FileOk? && OcrText(vision, NoText) == Success(resp.text)
    ensures resp.Extracted? ==> resp.text != ""
    ensures resp.Extracted? && (reply.None? || parse(reply.value).SyntaxError?) ==>
      resp.firstName == Null && resp.lastName == Null && resp.position == Null && resp.experience == Null
    ensures Truthy(fileUrl) && Truthy(applicantId) && download.FileOk? && OcrText(vision, NoText).Success?
            && (reply.None? || parse(reply.value).SyntaxError?) ==>
      resp == Extracted(Null, Null, Null, Null, OcrText(vision, NoText).value)
    ensures Truthy(fileUrl) && Truthy(applicantId) && download.FileOk? && OcrText(vision, NoText).Success?
            && reply.Some? && parse(reply.value).Parsed? ==>
      var v := parse(reply.value).value;
      if v.Null? || v.Undefined? then
        resp == ServerError(ErrorText("Cannot read properties of null (reading 'firstName')"))
      else
        resp == Extracted(Get(v, "firstName").value, Get(v, "lastName").value,
                          Get(v, "position").value, Get(v, "experience").value, OcrText(vision, NoText).value)
    ensures Truthy(fileUrl) && Truthy(applicantId) && download.FileOk? && OcrText(vision, NoText).Failure? ==>
      resp == ServerError(ErrorText(OcrText(vision, NoText).error))
  {
    if !Truthy(fileUrl) || !Truthy(applicantId) {
      return BadRequest("Missing fileUrl or applicantId");
    }
    match download {
      case FileNotOk(statusText) =>
        return ServerError(ErrorText("Failed to download file: " + statusText));
      case FileThrew(m) =>
        return ServerError(ErrorText(m));
      case FileOk =>
    }
    var cvText := GetTextFromPdf(vision, NoText);
    if cvText.Failure? {
      return ServerError(ErrorText(cvText.error));
    }
    OcrTextOutcome(vision, NoText);
    PagesTextEmpty(vision.file.value.pages.value);
    var extractedData := NullFields();
    if reply.Some? {
      match parse(reply.value) {
        case Parsed(v) => extractedData := v;
        case SyntaxError(_) =>
      }
    }
    if extractedData.Null? || extractedData.Undefined? {
      return ServerError(ErrorText("Cannot read properties of null (reading 'firstName')"));
    }
    resp := Extracted(Get(extractedData, "firstName").value, Get(extractedData, "lastName").value,
                      Get(extractedData, "position").value, Get(extractedData, "experience").value,
                      cvText.value);
  }

  /** The 500 answer for a message. */
  function ErrorText(m: string): (r: string)
    ensures StartsWith(r, ServerErrorPrefix) && r[|ServerErrorPrefix|..] == m
  {
    var r := ServerErrorPrefix + m;
    assert r[..|ServerErrorPrefix|] == ServerErrorPrefix;
    r
  }
}
