/** The `/api/draftEmail` route: it asks a generative model for an offer or
    rejection email for one applicant and records the matching status. The
    wording of the prompt is not modelled; its parts are: the candidate's
    name, the position with its fallback, the signature with its fallback
    and the bullet list of strengths (offer) or gaps (rejection). */
module DraftEmail {
  import opened Wrappers
  import opened Text
  import opened JsValue

  const NoStrengths := "No specific strengths identified, focus on the overall profile."
  const NoGaps := "No specific gaps were identified in the analysis."

  /** The lines ` - x` of a bullet list. */
  function Bullets(items: seq<string>): (lines: seq<string>)
    ensures |lines| == |items|
    ensures forall i :: 0 <= i < |items| ==> lines[i] == " - " + items[i]
  {
    seq(|items|, i requires 0 <= i < |items| => " - " + items[i])
  }

  /** `items.map(s => ` - ${s}`).join('\n')`. */
  function BulletList(items: seq<string>): string
  {
    Join(Bullets(items), "\n")
  }

  /** The list is empty exactly when there are no items, so the fallback
      sentence replaces it only then. */
  lemma BulletListEmpty(items: seq<string>)
    ensures BulletList(items) == "" <==> items == []
  {
    if items != [] {
      var lines := Bullets(items);
      assert lines[0] == " - " + items[0];
      if |lines| > 1 {
        assert Join(lines, "\n") == lines[0] + "\n" + Join(lines[1..], "\n");
      }
    }
  }

  /** Items without line breaks come back as the list's lines: one line
      ` - x` per item, in order. */
  lemma BulletListLines(items: seq<string>)
    requires items != []
    requires forall i :: 0 <= i < |items| ==> '\n' !in items[i]
    ensures Split(BulletList(items), '\n') == Bullets(items)
  {
    var lines := Bullets(items);
    forall k | 0 <= k < |lines| ensures '\n' !in lines[k] {
      assert lines[k] == " - " + items[k];
    }
    assert "\n" == ['\n'];
    SplitJoin(lines, '\n');
  }

  /** `list || fallback`. */
  function ListOr(items: seq<string>, fallback: string): (r: string)
    ensures items == [] ==> r == fallback
    ensures items != [] ==> r == BulletList(items)
  {
    BulletListEmpty(items);
    var list := BulletList(items);
    if list != "" then list else fallback
  }

  datatype EmailType = Offer | Rejection

  /** The parts of the prompt the route fills in. */
  datatype EmailPrompt = EmailPrompt(kind: EmailType, name: string, position: string, signature: string, listing: string)

  /** What the route reads about the applicant. `strengths` and `gaps` are
      `None` where the column is null. */
  datatype AnalysisRow = AnalysisRow(
    firstName: Json,
    lastName: Json,
    jobTitle: Json,
    strengths: Option<seq<Json>>,
    gaps: Option<seq<Json>>)

  /** The strings a list of values renders as in a template literal. */
  function Rendered(values: seq<Json>): (r: seq<string>)
    ensures |r| == |values|
    ensures forall i :: 0 <= i < |values| ==> r[i] == ToString(values[i])
  {
    seq(|values|, i requires 0 <= i < |values| => ToString(values[i]))
  }

  /** `buildEmailPrompt`: "offer" asks for an offer letter listing the
      strengths, anything else for a rejection listing the gaps. Both lists
      are built first, so a null list of either kind fails the call. */
  function BuildEmailPrompt(row: AnalysisRow, emailType: Json, hrName: Json): (r: Option<EmailPrompt>)
    ensures r.None? <==> row.strengths.None? || row.gaps.None?
    ensures r.Some? ==> r.value.kind == (if emailType == Str("offer") then Offer else Rejection)
    ensures r.Some? ==> r.value.signature == (if Truthy(hrName) then ToString(hrName) else "HR Team")
    ensures r.Some? ==> r.value.position == (if Truthy(row.jobTitle) then ToString(row.jobTitle) else "the position")
    ensures r.Some? ==> r.value.name == ToString(row.firstName) + " " + ToString(row.lastName)
    ensures r.Some? && r.value.kind == Offer ==>
      r.value.listing == ListOr(Rendered(row.strengths.value), NoStrengths)
    ensures r.Some? && r.value.kind == Rejection ==>
      r.value.listing == ListOr(Rendered(row.gaps.value), NoGaps)
    ensures r.Some? && r.value.kind == Offer && row.strengths.value == [] ==> r.value.listing == NoStrengths
    ensures r.Some? && r.value.kind == Rejection && row.gaps.value == [] ==> r.value.listing == NoGaps
  {
    if row.strengths.None? || row.gaps.None? then None
    else
      var name := ToString(row.firstName) + " " + ToString(row.lastName);
      var position := if Truthy(row.jobTitle) then ToString(row.jobTitle) else "the position";
      var signature := if Truthy(hrName) then ToString(hrName) else "HR Team";
      if emailType == Str("offer") then
        Some(EmailPrompt(Offer, name, position, signature, ListOr(Rendered(row.strengths.value), NoStrengths)))
      else
        Some(EmailPrompt(Rejection, name, position, signature, ListOr(Rendered(row.gaps.value), NoGaps)))
  }

  /** An offer prompt lists every strength on its own line ` - x`, in
      order, when no strength spans several lines; a rejection prompt does
      the same with the gaps. */
  lemma PromptListsItems(row: AnalysisRow, emailType: Json, hrName: Json)
    requires row.strengths.Some? && row.gaps.Some?
    requires var items := if emailType == Str("offer") then row.strengths.value else row.gaps.value;
      items != [] && forall i :: 0 <= i < |items| ==> '\n' !in ToString(items[i])
    ensures var items := if emailType == Str("offer") then row.strengths.value else row.gaps.value;
      Split(BuildEmailPrompt(row, emailType, hrName).value.listing, '\n') == Bullets(Rendered(items))
  {
    var items := if emailType == Str("offer") then row.strengths.value else row.gaps.value;
    var rendered := Rendered(items);
    BulletListLines(rendered);
  }

  /** The status recorded for an email type: "Offered" for "offer",
      "Rejected" for anything else. */
  function NewStatus(emailType: Json): (status: string)
    ensures status == "Offered" || status == "Rejected"
    ensures status == "Offered" <==> emailType == Str("offer")
  {
    if emailType == Str("offer") then "Offered" else "Rejected"
  }

  /** What the model answers. */
  datatype Generation = Generated(text: string) | GenerationFailed(message: string)

  /** One status written to the applicants table. */
  datatype StatusWrite = StatusWrite(applicantId: string, status: string)

  datatype DraftResponse =
    | BadRequest(error: string)
    | ServerError(error: string)
    | Drafted(draft: string, statusUpdate: string)

  /** What V8 throws when `map` is called on null. */
  const NullMap := "Cannot read properties of null (reading 'map')"

  /** The whole route. It answers 400 without an applicant id or email type.
      The status is written only once the trimmed draft is non-empty, and
      the status reported is the one written; any failure is a 500 with
      nothing written. */
  method Post(applicantId: Json, emailType: Json, hrName: Json, row: Option<AnalysisRow>, generation: Generation)
    returns (resp: DraftResponse, write: Option<StatusWrite>)
    ensures resp.BadRequest? <==> !Truthy(applicantId) || !Truthy(emailType)
    ensures write.Some? <==> resp.Drafted?
    ensures resp.Drafted? ==>
      && resp.draft != "" && IsTrimmed(resp.draft)
      && resp.statusUpdate == NewStatus(emailType)
      && write.value == StatusWrite(ToString(applicantId), resp.statusUpdate)
    ensures resp.ServerError? ==> StartsWith(resp.error, "Drafting failed: ")
    ensures Truthy(applicantId) && Truthy(emailType) && row.Some? && BuildEmailPrompt(row.value, emailType, hrName).Some?
            && generation.Generated? && Trim(generation.text) != "" ==>
      && resp == Drafted(Trim(generation.text), NewStatus(emailType))
      && write == Some(StatusWrite(ToString(applicantId), NewStatus(emailType)))
    ensures Truthy(applicantId) && Truthy(emailType) && row.None? ==>
      resp == ServerError(Failed("Applicant analysis data not found for ID: " + ToString(applicantId) + "."))
    ensures Truthy(applicantId) && Truthy(emailType) && row.Some? && BuildEmailPrompt(row.value, emailType, hrName).None? ==>
      resp == ServerError(Failed(NullMap))
    ensures Truthy(applicantId) && Truthy(emailType) && row.Some? && BuildEmailPrompt(row.value, emailType, hrName).Some?
            && generation.GenerationFailed? ==>
      resp == ServerError(Failed(generation.message))
    ensures Truthy(applicantId) && Truthy(emailType) && row.Some? && BuildEmailPrompt(row.value, emailType, hrName).Some?
            && generation.Generated? && Trim(generation.text) == "" ==>
      resp == ServerError(Failed("AI failed to generate email draft."))
  {
    if !Truthy(applicantId) || !Truthy(emailType) {
      return BadRequest("Missing applicantId or emailType"), None;
    }
    var id := ToString(applicantId);
    if row.None? {
      return ServerError(Failed("Applicant analysis data not found for ID: " + id + ".")), None;
    }
    var prompt := BuildEmailPrompt(row.value, emailType, hrName);
    if prompt.None? {
      return ServerError(Failed(NullMap)), None;
    }
    if generation.GenerationFailed? {
      return ServerError(Failed(generation.message)), None;
    }
    var draft := Trim(generation.text);
    if draft == "" {
      return ServerError(Failed("AI failed to generate email draft.")), None;
    }
    var status := NewStatus(emailType);
    write := Some(StatusWrite(id, status));
    resp := Drafted(draft, status);
  }

  /** The 500 answer for a message. */
  function Failed(m: string): (r: string)
    ensures StartsWith(r, "Drafting failed: ")
    ensures r[|"Drafting failed: "|..] == m
  {
    var r := "Drafting failed: " + m;
    assert r[..|"Drafting failed: "|] == "Drafting failed: ";
    r
  }
}
