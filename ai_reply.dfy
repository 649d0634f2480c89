/** The helper of the `/api/aiMatch` route that asks the generative model
    to compare a CV with a job description: everything it does once the
    model has answered. It strips Markdown code fences from the reply,
    reads the reply's fields with their defaults, and turns every failure
    into score 0 with a diagnostic summary instead of throwing. */
module AiReply {
  import opened Wrappers
  import opened Text
  import opened JsValue

  const ModelName := "gemini-2.5-pro"

  // ---------------------------------------------------------------------
  // Cleaning the model's reply

  /** Removes one opening fence, "```json" looked for first. */
  function DropOpening(t: string): string
  {
    if StartsWith(t, "```json") then t[7..] else if StartsWith(t, "```") then t[3..] else t
  }

  /** Removes one closing fence. */
  function DropClosing(u: string): string
  {
    if EndsWith(u, "```") then u[..|u| - 3] else u
  }

  /** The reply with surrounding white space, one leading "```json" (looked
      for first) or "```", and one trailing "```" removed, then trimmed. */
  function StripFences(reply: string): (r: string)
    ensures IsTrimmed(r)
  {
    Trim(DropClosing(DropOpening(Trim(reply))))
  }

  /** The cleaning as the helper performs it, reassigning one variable. */
  method CleanReply(reply: string) returns (cleaned: string)
    ensures cleaned == StripFences(reply)
  {
    cleaned := Trim(reply);
    ghost var trimmed := cleaned;
    if StartsWith(cleaned, "```json") {
      cleaned := cleaned[7..];
    } else if StartsWith(cleaned, "```") {
      cleaned := cleaned[3..];
    }
    assert cleaned == DropOpening(trimmed);
    ghost var unfenced := cleaned;
    if EndsWith(cleaned, "```") {
      cleaned := cleaned[..|cleaned| - 3];
    }
    assert cleaned == DropClosing(unfenced);
    cleaned := Trim(cleaned);
  }

  lemma DropJsonOpening(x: string)
    ensures DropOpening("```json" + x) == x
  {
    assert ("```json" + x)[..7] == "```json";
    assert ("```json" + x)[7..] == x;
  }

  lemma DropPlainOpening(x: string)
    requires !StartsWith(x, "json")
    ensures DropOpening("```" + x) == x
  {
    var t := "```" + x;
    assert t[..3] == "```";
    StartsWithSamePrefix("```", x, "json");
    assert "```" + "json" == "```json";
    assert t[3..] == x;
  }

  lemma DropNoOpening(x: string)
    requires !StartsWith(x, "```")
    ensures DropOpening(x) == x
  {
    StartsWithShorter(x, "```", "json");
    assert "```" + "json" == "```json";
  }

  lemma DropFenceClosing(x: string)
    ensures DropClosing(x + "```") == x
  {
    var u := x + "```";
    assert u[|u| - 3..] == "```";
    assert u[..|u| - 3] == x;
  }

  lemma FencedIsTrimmed(core: string)
    requires |core| >= 6 && core[0] == '`' && core[|core| - 1] == '`'
    ensures IsTrimmed(core)
  {
  }

  /** A JSON text `j` in a "```json" fence, with any white space inside or
      around the fence, comes back as exactly `j`. */
  lemma StripJsonFence(a: string, p: string, j: string, q: string, b: string)
    requires AllSpace(a) && AllSpace(p) && IsTrimmed(j) && AllSpace(q) && AllSpace(b)
    ensures StripFences(a + "```json" + p + j + q + "```" + b) == j
  {
    var inner := p + j + q;
    var core := "```json" + (inner + "```");
    FencedIsTrimmed(core);
    assert a + "```json" + p + j + q + "```" + b == a + core + b;
    TrimAround(a, core, b);
    DropJsonOpening(inner + "```");
    DropFenceClosing(inner);
    TrimAround(p, j, q);
  }

  /** Text that does not begin with "json" still does not once a closing
      fence is appended. */
  lemma NotJsonBeforeFence(inner: string)
    requires !StartsWith(inner, "json")
    ensures !StartsWith(inner + "```", "json")
  {
    if |inner| >= 4 {
      StartsWithAppend(inner, "```", "json");
    } else if |inner + "```"| >= 4 {
      assert (inner + "```")[..4][|inner|] == '`';
    }
  }

  /** The same for a bare "```" fence, as long as what it holds does not
      begin with "json". */
  lemma StripPlainFence(a: string, p: string, j: string, q: string, b: string)
    requires AllSpace(a) && AllSpace(p) && IsTrimmed(j) && AllSpace(q) && AllSpace(b)
    requires !StartsWith(p + j + q, "json")
    ensures StripFences(a + "```" + p + j + q + "```" + b) == j
  {
    var inner := p + j + q;
    var core := "```" + (inner + "```");
    FencedIsTrimmed(core);
    assert a + "```" + p + j + q + "```" + b == a + core + b;
    TrimAround(a, core, b);
    NotJsonBeforeFence(inner);
    DropPlainOpening(inner + "```");
    DropFenceClosing(inner);
    TrimAround(p, j, q);
  }

  /** A reply without fences only loses its surrounding white space. */
  lemma StripUnfenced(a: string, j: string, b: string)
    requires AllSpace(a) && IsTrimmed(j) && AllSpace(b)
    requires !StartsWith(j, "```") && !EndsWith(j, "```")
    ensures StripFences(a + j + b) == j
  {
    TrimAround(a, j, b);
    DropNoOpening(j);
    TrimTrimmed(j);
  }

  // ---------------------------------------------------------------------
  // Calling the model and reading its reply

  /** What the model's HTTP endpoint answers. */
  datatype GeminiReply =
      /** A non-OK status, with the `error.message` of its body ("" when the
          body has none or cannot be read). */
    | HttpError(status: int, errorMessage: string)
      /** An OK reply; `text` is the first candidate's first part ("" when
          missing). */
    | Candidates(text: string)
      /** The request itself failed with this message. */
    | NetworkError(message: string)

  /** What `JSON.parse` makes of the cleaned text. */
  datatype ParseOutcome = Parsed(value: Json) | SyntaxError(message: string)

  /** An exception inside the helper: its message, and whether it is a
      `SyntaxError`. */
  datatype Thrown = Thrown(message: string, syntaxError: bool)

  /** The coerced reply. `strengths`/`gaps` are `None` where the helper
      leaves them `undefined` (its failure result). */
  datatype Analysis = Analysis(
    score: int,
    summary: Json,
    overview: Json,
    strengths: Option<seq<Json>>,
    gaps: Option<seq<Json>>,
    prediction: Json,
    personality: Json)

  const MissingKeys := "AI response JSON missing required keys."
  const EmptyReply := "AI response was empty."
  const NullRead := "Cannot read properties of null (reading 'matchingScore')"
  const InvalidJson := "AI returned invalid JSON after cleaning attempt."
  const GenericFailure := "Error during AI analysis (Gemini " + ModelName + " via Fetch)."

  /** The messages that point at a key, quota or model problem. */
  predicate IsKeyError(m: string)
  {
    || Contains(m, "API key not valid")
    || Contains(m, "blocked")
    || Contains(m, "permission denied")
    || Contains(m, "API not enabled")
    || Contains(m, "not found")
  }

  /** The summary the helper returns in place of an analysis: either it
      quotes the error message or it is one of two fixed sentences. */
  function FailureSummary(e: Thrown): (r: string)
    ensures Contains(r, e.message) || r == InvalidJson || r == GenericFailure
    ensures IsKeyError(e.message) ==> Contains(r, e.message)
    ensures !IsKeyError(e.message) && e.syntaxError ==> r == InvalidJson
    ensures (!IsKeyError(e.message) && !e.syntaxError &&
             Contains(e.message, "AI response JSON missing required keys")) ==> r == e.message
    ensures (!IsKeyError(e.message) && !e.syntaxError &&
             !Contains(e.message, "AI response JSON missing required keys")) ==> r == GenericFailure
  {
    if IsKeyError(e.message) then
      ContainsInfix("Gemini API Key/Model Error: ", e.message, ". Check Key and API permissions.");
      "Gemini API Key/Model Error: " + e.message + ". Check Key and API permissions."
    else if e.syntaxError then InvalidJson
    else if Contains(e.message, "AI response JSON missing required keys") then
      ContainsSelf(e.message);
      e.message
    else GenericFailure
  }

  /** `parseInt(v) || 0`. */
  function ScoreOf(v: Json): int
  {
    match ParseInt(ToString(v))
    case None => 0
    case Some(n) => n
  }

  /** `Array.isArray(v) ? v : []`. */
  function ArrayOrEmpty(v: Json): seq<Json>
  {
    if v.Arr? then v.items else []
  }

  /** `reply.key` on a value that is neither `null` nor `undefined`. */
  function Field(reply: Json, key: string): Json
    requires !reply.Null? && !reply.Undefined?
  {
    Get(reply, key).value
  }

  /** `typeof reply.matchingScore === 'undefined' || typeof reply.aiSummary
      === 'undefined'`. */
  predicate LacksRequiredKeys(reply: Json)
    requires !reply.Null? && !reply.Undefined?
  {
    Field(reply, "matchingScore").Undefined? || Field(reply, "aiSummary").Undefined?
  }

  /** The fields of the parsed reply, read with their defaults: an array of
      strengths or gaps is kept as it is, anything else becomes `[]`, and a
      falsy summary becomes "No summary provided.". */
  function Coerce(reply: Json): (a: Analysis)
    requires !reply.Null? && !reply.Undefined?
    ensures a.strengths.Some? && a.gaps.Some?
    ensures reply.Obj? && "strengths" in reply.fields && reply.fields["strengths"].Arr? ==>
      a.strengths == Some(reply.fields["strengths"].items)
    ensures !(reply.Obj? && "strengths" in reply.fields && reply.fields["strengths"].Arr?) ==>
      a.strengths == Some([])
    ensures reply.Obj? && "potentialGaps" in reply.fields && reply.fields["potentialGaps"].Arr? ==>
      a.gaps == Some(reply.fields["potentialGaps"].items)
    ensures !(reply.Obj? && "potentialGaps" in reply.fields && reply.fields["potentialGaps"].Arr?) ==>
      a.gaps == Some([])
    ensures reply.Obj? && "aiSummary" in reply.fields && Truthy(reply.fields["aiSummary"]) ==>
      a.summary == reply.fields["aiSummary"]
    ensures !(reply.Obj? && "aiSummary" in reply.fields && Truthy(reply.fields["aiSummary"])) ==>
      a.summary == Str("No summary provided.")
  {
    Analysis(
      ScoreOf(Field(reply, "matchingScore")),
      Or(Field(reply, "aiSummary"), Str("No summary provided.")),
      Or(Field(reply, "overview"), Undefined),
      Some(ArrayOrEmpty(Field(reply, "strengths"))),
      Some(ArrayOrEmpty(Field(reply, "potentialGaps"))),
      Or(Field(reply, "potentialPrediction"), Undefined),
      Or(Field(reply, "personalityInference"), Undefined))
  }

  /** The body of the helper's `try`: an analysis, or what it throws. */
  function Attempt(reply: GeminiReply, parse: string -> ParseOutcome): (r: Result<Analysis, Thrown>)
    ensures r.Success? ==> r.value.strengths.Some? && r.value.gaps.Some?
  {
    match reply
    case NetworkError(m) => Failure(Thrown(m, false))
    case HttpError(status, m) =>
      var details := if m != "" then m else "HTTP error! Status: " + Decimal(status);
      Failure(Thrown("Gemini API Fetch Error: " + details, false))
    case Candidates(text) =>
      if text == "" then Failure(Thrown(EmptyReply, false))
      else ReadParsed(parse(StripFences(text)))
  }

  /** The rest of the `try` body once the cleaned text has been parsed: a
      syntax error, a `null` reply or a missing key throws; anything else is
      coerced. */
  function ReadParsed(outcome: ParseOutcome): (r: Result<Analysis, Thrown>)
    ensures r.Success? ==> r.value.strengths.Some? && r.value.gaps.Some?
    ensures outcome.SyntaxError? ==> r == Failure(Thrown(outcome.message, true))
  {
    match outcome
    case SyntaxError(m) => Failure(Thrown(m, true))
    case Parsed(v) =>
      if v.Null? || v.Undefined? then Failure(Thrown(NullRead, false))
      else if LacksRequiredKeys(v) then Failure(Thrown(MissingKeys, false))
      else Success(Coerce(v))
  }

  /** `getAIRankingFromText_Fetch` once the model has answered: it never
      throws, and every failure becomes score 0 with a diagnostic summary. */
  function Analyze(reply: GeminiReply, parse: string -> ParseOutcome): (a: Analysis)
    ensures a.strengths.None? ==> a.score == 0 && a.summary.Str? && a.overview.Undefined?
  {
    match Attempt(reply, parse)
    case Success(a) => a
    case Failure(e) => Analysis(0, Str(FailureSummary(e)), Undefined, None, None, Undefined, Undefined)
  }

  /** The score is whatever integer the model wrote, as a number or as a
      numeral: nothing clamps it to 0..100. */
  lemma ScoreNotClamped(text: string, parse: string -> ParseOutcome, fields: map<string, Json>, n: int)
    requires text != "" && parse(StripFences(text)) == Parsed(Obj(fields))
    requires "matchingScore" in fields && fields["matchingScore"] in {Num(n), Str(Decimal(n))}
    requires "aiSummary" in fields && !fields["aiSummary"].Undefined?
    ensures Analyze(Candidates(text), parse).score == n
    ensures Analyze(Candidates(text), parse).strengths.Some?
  {
    AttemptReadsCleaned(text, parse);
    RequiredKeysCoerced(fields);
    ScoreOfInteger(fields["matchingScore"], n);
    CoercedScore(fields);
  }

  /** The coerced score is `parseInt` of the reply's `matchingScore`. */
  lemma CoercedScore(fields: map<string, Json>)
    requires "matchingScore" in fields
    ensures Coerce(Obj(fields)).score == ScoreOf(fields["matchingScore"])
  {
    CoerceReadsScore(Obj(fields));
    ObjectField(fields, "matchingScore");
  }

  /** Coercion reads the score from the reply's `matchingScore`. */
  lemma CoerceReadsScore(reply: Json)
    requires !reply.Null? && !reply.Undefined?
    ensures Coerce(reply).score == ScoreOf(Field(reply, "matchingScore"))
  {
  }

  /** Reading a key an object holds gives its value. */
  lemma ObjectField(fields: map<string, Json>, key: string)
    requires key in fields
    ensures Field(Obj(fields), key) == fields[key]
  {
  }

  /** A non-empty reply is cleaned, parsed and read. */
  lemma AttemptReadsCleaned(text: string, parse: string -> ParseOutcome)
    requires text != ""
    ensures Attempt(Candidates(text), parse) == ReadParsed(parse(StripFences(text)))
  {
  }

  /** An object holding both required keys is coerced. */
  lemma RequiredKeysCoerced(fields: map<string, Json>)
    requires "matchingScore" in fields && !fields["matchingScore"].Undefined?
    requires "aiSummary" in fields && !fields["aiSummary"].Undefined?
    ensures ReadParsed(Parsed(Obj(fields))) == Success(Coerce(Obj(fields)))
  {
    assert !LacksRequiredKeys(Obj(fields));
  }

  /** An integer, given as a number or as its numeral, is its own score. */
  lemma ScoreOfInteger(v: Json, n: int)
    requires v == Num(n) || v == Str(Decimal(n))
    ensures ScoreOf(v) == n
  {
    assert ToString(v) == Decimal(n);
    ParseIntDecimal(n);
  }

  /** The missing-keys message has no 'v', so no invalid-key message. */
  lemma MissingKeysNoInvalidKey()
    ensures !Contains(MissingKeys, "API key not valid")
  {
    assert 'v' !in MissingKeys;
    NotContainedByChar(MissingKeys, "API key not valid", 13);
  }

  /** It has no 'b', so it names no block and no disabled API. */
  lemma MissingKeysNoBlock()
    ensures !Contains(MissingKeys, "blocked") && !Contains(MissingKeys, "API not enabled")
  {
    assert 'b' !in MissingKeys;
    NotContainedByChar(MissingKeys, "blocked", 0);
    NotContainedByChar(MissingKeys, "API not enabled", 10);
  }

  /** It has no 'f', so it reports nothing as not found. */
  lemma MissingKeysNoLookup()
    ensures !Contains(MissingKeys, "not found")
  {
    assert 'f' !in MissingKeys;
    NotContainedByChar(MissingKeys, "not found", 4);
  }

  /** No space in it comes before a 'd', so it names no denied permission. */
  lemma MissingKeysNoPermission()
    ensures !Contains(MissingKeys, "permission denied")
  {
    assert forall k :: 0 <= k < |MissingKeys| - 1 ==> !(MissingKeys[k] == ' ' && MissingKeys[k + 1] == 'd');
    if Contains(MissingKeys, "permission denied") {
      ContainsPair(MissingKeys, "permission denied", 10);
    }
  }

  /** So the missing-keys message is not read as a key error. */
  lemma MissingKeysNotKeyError()
    ensures !IsKeyError(MissingKeys)
  {
    MissingKeysNoInvalidKey();
    MissingKeysNoBlock();
    MissingKeysNoLookup();
    MissingKeysNoPermission();
  }

  /** The missing-keys error is summarised by its own message. */
  lemma MissingKeysSummary()
    ensures FailureSummary(Thrown(MissingKeys, false)) == MissingKeys
  {
    MissingKeysNotKeyError();
    ContainsInfix("", "AI response JSON missing required keys", ".");
    assert "" + "AI response JSON missing required keys" + "." == MissingKeys;
  }

  /** A reply without `matchingScore` or `aiSummary` does not escape: it
      scores 0 and is summarised by the missing-keys message itself. */
  lemma MissingKeyScoresZero(text: string, parse: string -> ParseOutcome, fields: map<string, Json>)
    requires text != "" && parse(StripFences(text)) == Parsed(Obj(fields))
    requires "matchingScore" !in fields || "aiSummary" !in fields
    ensures Analyze(Candidates(text), parse).score == 0
    ensures Analyze(Candidates(text), parse).summary == Str(FailureSummary(Thrown(MissingKeys, false)))
    ensures Analyze(Candidates(text), parse).summary == Str(MissingKeys)
    ensures Analyze(Candidates(text), parse).strengths.None?
  {
    AttemptReadsCleaned(text, parse);
    MissingKeysThrow(fields);
    MissingKeysSummary();
  }

  /** An object without either required key throws the missing-keys error. */
  lemma MissingKeysThrow(fields: map<string, Json>)
    requires "matchingScore" !in fields || "aiSummary" !in fields
    ensures ReadParsed(Parsed(Obj(fields))) == Failure(Thrown(MissingKeys, false))
  {
    assert LacksRequiredKeys(Obj(fields));
  }

  /** A falsy or missing summary becomes "No summary provided.", and
      anything that is not an array becomes `[]`; arrays are kept. */
  lemma CoerceDefaults(fields: map<string, Json>)
    ensures "aiSummary" !in fields || !Truthy(fields["aiSummary"]) ==>
      Coerce(Obj(fields)).summary == Str("No summary provided.")
    ensures "strengths" in fields && fields["strengths"].Arr? ==>
      Coerce(Obj(fields)).strengths == Some(fields["strengths"].items)
    ensures "potentialGaps" in fields && fields["potentialGaps"].Arr? ==>
      Coerce(Obj(fields)).gaps == Some(fields["potentialGaps"].items)
    ensures "strengths" !in fields || !fields["strengths"].Arr? ==> Coerce(Obj(fields)).strengths == Some([])
    ensures "potentialGaps" !in fields || !fields["potentialGaps"].Arr? ==> Coerce(Obj(fields)).gaps == Some([])
  {
  }

  /** A score that is absent or not a numeral counts as 0. */
  lemma ScoreOfNonNumeral(v: Json)
    requires v.Undefined? || v.Null? || v.Bool? || v.Obj?
    ensures ScoreOf(v) == 0
  {
    ParseIntNoDigit(ToString(v));
  }

  /** A reply the parser rejects is reported as invalid JSON unless its
      message names a key or model problem. */
  lemma SyntaxErrorSummary(text: string, parse: string -> ParseOutcome, m: string)
    requires text != "" && parse(StripFences(text)) == SyntaxError(m) && !IsKeyError(m)
    ensures Analyze(Candidates(text), parse) == Analysis(0, Str(InvalidJson), Undefined, None, None, Undefined, Undefined)
  {
  }
}
