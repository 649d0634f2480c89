/** The document-text step shared by the ranking, chat and extraction
    routes: the per-page answers of the OCR service are joined into one
    text, and an empty text is an error. The service call itself is an
    input: the model receives its reply. */
module VisionOcr {
  import opened Wrappers

  /** One page of the reply: `Some(t)` when the page carries a text
      annotation whose text is `t`. */
  datatype PageResponse = PageResponse(annotation: Option<string>)

  /** The reply for the file: its pages, when the reply lists any, and the
      message of the file-level error, when there is one. */
  datatype FileResponse = FileResponse(pages: Option<seq<PageResponse>>, error: Option<string>)

  /** The whole HTTP reply: whether the status was OK, the reply's
      `error.message` ("" when absent), the reply serialised as JSON, and
      the first file response, if any. */
  datatype VisionReply = VisionReply(ok: bool, errorMessage: string, body: string, file: Option<FileResponse>)

  /** The text annotations of the annotated pages, in page order, each
      followed by a line break. */
  function PagesText(pages: seq<PageResponse>): string
  {
    if pages == [] then ""
    else
      var rest := PagesText(pages[1..]);
      match pages[0].annotation
      case Some(t) => t + "\n" + rest
      case None => rest
  }

  predicate SomeAnnotated(pages: seq<PageResponse>)
  {
    exists i :: 0 <= i < |pages| && pages[i].annotation.Some?
  }

  /** The text is empty exactly when no page carries an annotation. */
  lemma {:induction false} PagesTextEmpty(pages: seq<PageResponse>)
    ensures PagesText(pages) == "" <==> !SomeAnnotated(pages)
  {
    if pages != [] {
      PagesTextEmpty(pages[1..]);
      if SomeAnnotated(pages[1..]) {
        var i :| 0 <= i < |pages[1..]| && pages[1..][i].annotation.Some?;
        assert pages[i + 1].annotation.Some?;
      }
      if SomeAnnotated(pages) && pages[0].annotation.None? {
        var i :| 0 <= i < |pages| && pages[i].annotation.Some?;
        assert pages[1..][i - 1].annotation.Some?;
      }
    }
  }

  /** The text of a run of pages followed by more pages is the two texts
      one after the other: no page is dropped or reordered. */
  lemma {:induction false} PagesTextAppend(a: seq<PageResponse>, b: seq<PageResponse>)
    ensures PagesText(a + b) == PagesText(a) + PagesText(b)
  {
    if a == [] {
      assert a + b == b;
    } else {
      assert (a + b)[1..] == a[1..] + b;
      PagesTextAppend(a[1..], b);
    }
  }

  /** The loop that appends each annotated page's text and a line break. */
  method CollectPageText(pages: seq<PageResponse>) returns (text: string)
    ensures text == PagesText(pages)
  {
    text := "";
    var i := 0;
    while i < |pages|
      invariant 0 <= i <= |pages|
      invariant text == PagesText(pages[..i])
    {
      PagesTextAppend(pages[..i], [pages[i]]);
      assert pages[..i + 1] == pages[..i] + [pages[i]];
      match pages[i].annotation {
        case Some(t) =>
          text := text + t + "\n";
        case None =>
      }
      i := i + 1;
    }
    assert pages[..i] == pages;
  }

  const ErrorPrefix := "Google Vision API Error: "

  /** What the OCR helper returns or throws, given the service's reply;
      `noText` is the route's own message for a reply with no text. */
  function OcrText(reply: VisionReply, noText: string): Result<string, string>
  {
    if !reply.ok then
      Failure(ErrorPrefix + (if reply.errorMessage != "" then reply.errorMessage else reply.body))
    else
      var text := match reply.file
        case Some(FileResponse(Some(pages), _)) => PagesText(pages)
        case _ => "";
      if text != "" then Success(text)
      else match reply.file
        case Some(FileResponse(_, Some(m))) => Failure(ErrorPrefix + m)
        case _ => Failure(noText)
  }

  /** The helper succeeds exactly when the reply is OK and some page is
      annotated, and then returns the joined page text. A failed request
      reports the service's own message, or the raw body when it has none;
      an OK reply without text reports the file's error when there is one,
      and the route's "no text" message otherwise. */
  lemma OcrTextOutcome(reply: VisionReply, noText: string)
    ensures OcrText(reply, noText).Success? <==>
      reply.ok && reply.file.Some? && reply.file.value.pages.Some? &&
      SomeAnnotated(reply.file.value.pages.value)
    ensures OcrText(reply, noText).Success? ==>
      OcrText(reply, noText).value == PagesText(reply.file.value.pages.value)
    ensures OcrText(reply, noText).Failure? ==>
      OcrText(reply, noText).error == noText ||
      OcrText(reply, noText).error[..|ErrorPrefix|] == ErrorPrefix
    ensures !reply.ok ==>
      OcrText(reply, noText) ==
        Failure(ErrorPrefix + (if reply.errorMessage != "" then reply.errorMessage else reply.body))
    ensures reply.ok && OcrText(reply, noText).Failure? && reply.file.Some? &&
            reply.file.value.error.Some? ==>
      OcrText(reply, noText).error == ErrorPrefix + reply.file.value.error.value
    ensures reply.ok && OcrText(reply, noText).Failure? &&
            (reply.file.None? || reply.file.value.error.None?) ==>
      OcrText(reply, noText).error == noText
  {
    if reply.file.Some? && reply.file.value.pages.Some? {
      PagesTextEmpty(reply.file.value.pages.value);
    }
  }

  /** `getTextFromPDF_VisionAPI` once the service has replied: the error
      checks and the page loop, step by step. */
  method GetTextFromPdf(reply: VisionReply, noText: string) returns (r: Result<string, string>)
    ensures r == OcrText(reply, noText)
  {
    if !reply.ok {
      var details := if reply.errorMessage != "" then reply.errorMessage else reply.body;
      return Failure(ErrorPrefix + details);
    }
    var extracted := "";
    if reply.file.Some? && reply.file.value.pages.Some? {
      extracted := CollectPageText(reply.file.value.pages.value);
    }
    if extracted == "" {
      if reply.file.Some? && reply.file.value.error.Some? {
        return Failure(ErrorPrefix + reply.file.value.error.value);
      }
      return Failure(noText);
    }
    return Success(extracted);
  }
}
