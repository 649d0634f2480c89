/** The `/api/rankForJob` route: it ranks applicants against one job by
    sending each CV to a generative model. The model, the downloads and the
    database are inputs; what is modelled is which applicants are sent, how
    the model's reply is read with its fallbacks, that an applicant whose
    CV cannot be fetched is dropped rather than scored 0, and the ranking. */
module RankForJob {
  import opened Wrappers
  import opened Text
  import opened JsValue
  import opened ListView
  import opened AiReply
  import Sorting

  const MaxToRank := 10
  const GenericFailure := "Error during AI analysis."

  /** What the model call gives back for one CV. */
  datatype FlashReply =
      /** The reply text. */
    | Answered(text: string)
      /** The call threw; `blockReason` is the prompt feedback's block
          reason when the error carries one. */
    | Threw(blockReason: Option<string>)

  /** The score and summary read from a reply. The score is whatever value
      the model wrote (or 0): nothing converts it to a number. */
  datatype FlashAnalysis = FlashAnalysis(score: Json, summary: Json)

  /** `getAIRankingFromPDF` once the model has answered. It never throws:
      a summary is always there, the score is 0 or a truthy value, and a
      failed call scores 0. */
  function Analyze(reply: FlashReply, parse: string -> ParseOutcome): (r: FlashAnalysis)
    ensures Truthy(r.summary)
    ensures r.score == Num(0) || Truthy(r.score)
    ensures reply.Threw? ==> r.score == Num(0)
    ensures reply.Answered? &&
            (parse(reply.text).SyntaxError? || parse(reply.text) == Parsed(Null)) ==>
      r == FlashAnalysis(Num(0), Str(GenericFailure))
  {
    match reply
    case Threw(reason) =>
      if reason.Some? && reason.value != "" then FlashAnalysis(Num(0), Str("Analysis blocked: " + reason.value))
      else FlashAnalysis(Num(0), Str(GenericFailure))
    case Answered(text) =>
      match parse(text)
      case SyntaxError(_) => FlashAnalysis(Num(0), Str(GenericFailure))
      case Parsed(v) =>
        if v.Null? || v.Undefined? then FlashAnalysis(Num(0), Str(GenericFailure))
        else FlashAnalysis(Or(Field(v, "matchingScore"), Num(0)), Or(Field(v, "aiSummary"), Str("No summary.")))
  }

  /** A reply without `matchingScore` scores 0, and one without `aiSummary`
      is summarised "No summary.". */
  lemma MissingFieldsFallBack(text: string, parse: string -> ParseOutcome, fields: map<string, Json>)
    requires parse(text) == Parsed(Obj(fields))
    ensures "matchingScore" !in fields ==> Analyze(Answered(text), parse).score == Num(0)
    ensures "aiSummary" !in fields ==> Analyze(Answered(text), parse).summary == Str("No summary.")
    ensures "matchingScore" in fields && Truthy(fields["matchingScore"]) ==>
      Analyze(Answered(text), parse).score == fields["matchingScore"]
  {
  }

  /** A blocked call is summarised by its reason; any other failure, a
      reply that is not JSON or that parses to `null` included, by the
      fixed sentence with score 0. */
  lemma FailureSummary(reason: Option<string>, text: string, parse: string -> ParseOutcome)
    ensures parse(text).SyntaxError? || parse(text) == Parsed(Null) ==>
      Analyze(Answered(text), parse) == FlashAnalysis(Num(0), Str(GenericFailure))
    ensures reason.Some? && reason.value != "" ==>
      Analyze(Threw(reason), parse).summary == Str("Analysis blocked: " + reason.value)
    ensures reason.None? || reason.value == "" ==>
      Analyze(Threw(reason), parse).summary == Str(GenericFailure)
  {
  }

  /** The ordering key of the route's comparator, `matching_score || 0`,
      for the scores that are numbers. */
  function ScoreKey(score: Json): int
  {
    if score.Num? then score.n else 0
  }

  /** A row of the applicants table, as far as this route reads it. */
  datatype ApplicantRecord = ApplicantRecord(
    id: string,
    firstName: Json,
    lastName: Json,
    cvUrl: Option<string>,
    position: Option<string>,
    matchingScore: Option<int>,
    aiSummary: Json)

  /** One entry of the answer. */
  datatype Ranked = Ranked(id: string, name: string, score: Json, summary: Json, position: string, cvUrl: string)

  /** SQL's `position <> title`: unknown, so not satisfied, when the
      position is null. */
  predicate PositionDiffers(position: Option<string>, title: string)
  {
    position.Some? && position.value != title
  }

  /** `.not('cv_url', 'is', null).or('position.neq.<title>,
      matching_score.is.null')`. */
  function Candidates(table: seq<ApplicantRecord>, title: string): seq<ApplicantRecord>
  {
    Filter(table, (r: ApplicantRecord) => r.cvUrl.Some? && (PositionDiffers(r.position, title) || r.matchingScore.None?))
  }

  /** The applicants the route sends to the model: those with a CV URL that
      are filed under another position or have no score yet (whatever
      their position), the first ten of them, or all when fewer. */
  function ApplicantsToRank(table: seq<ApplicantRecord>, title: string): (rows: seq<ApplicantRecord>)
    ensures |rows| <= MaxToRank
    ensures |rows| == (if |Candidates(table, title)| < MaxToRank then |Candidates(table, title)| else MaxToRank)
    ensures rows == Candidates(table, title)[..|rows|]
    ensures forall r :: r in rows ==>
      r in table && r.cvUrl.Some? && (PositionDiffers(r.position, title) || r.matchingScore.None?)
  {
    var candidates := Candidates(table, title);
    SliceFront(candidates, MaxToRank);
    var n := if |candidates| < MaxToRank then |candidates| else MaxToRank;
    assert forall r :: r in candidates[..n] ==> r in candidates;
    Slice(candidates, 0, MaxToRank)
  }

  /** Nothing is sent to the model exactly when every applicant with a CV
      URL is already filed, with a score, under the job's title (or has a
      null position and a score). */
  lemma NothingToRank(table: seq<ApplicantRecord>, title: string)
    ensures ApplicantsToRank(table, title) == [] <==>
      forall r :: r in table ==> !(r.cvUrl.Some? && (PositionDiffers(r.position, title) || r.matchingScore.None?))
  {
    var candidates := Candidates(table, title);
    if candidates != [] {
      assert candidates[0] in candidates;
    }
  }

  /** A row the route does not map to `null` before downloading: one with
      a non-empty CV URL. */
  predicate HasCv(row: ApplicantRecord)
  {
    row.cvUrl.Some? && row.cvUrl.value != ""
  }

  /** One applicant: dropped (`None`) when it has no CV URL or its CV cannot
      be downloaded, otherwise named, filed under the job's title and scored
      by the model. */
  function RankApplicant(row: ApplicantRecord, title: string, downloaded: bool, reply: FlashReply,
                         parse: string -> ParseOutcome): (r: Option<Ranked>)
    ensures r.None? <==> row.cvUrl.None? || row.cvUrl.value == "" || !downloaded
    ensures r.Some? ==> r.value.id == row.id && r.value.cvUrl == row.cvUrl.value
    ensures r.Some? ==> r.value.name == ToString(row.firstName) + " " + ToString(row.lastName)
    ensures r.Some? ==> r.value.position == title
    ensures r.Some? ==> Truthy(r.value.summary)
  {
    if row.cvUrl.None? || row.cvUrl.value == "" || !downloaded then None
    else
      var a := Analyze(reply, parse);
      Some(Ranked(row.id, ToString(row.firstName) + " " + ToString(row.lastName), a.score, a.summary,
                  title, row.cvUrl.value))
  }

  /** The entry is the row's applicant: its id and its full name. */
  predicate Names(r: Ranked, row: ApplicantRecord)
  {
    r.id == row.id && r.name == ToString(row.firstName) + " " + ToString(row.lastName)
  }

  /** The route's `map` over the rows: one outcome per row, in order,
      `None` for a row the callback maps to `null`. */
  function Outcomes(rows: seq<ApplicantRecord>, title: string, downloads: string -> bool,
                    replies: string -> FlashReply, parse: string -> ParseOutcome): seq<Option<Ranked>>
  {
    seq(|rows|, k requires 0 <= k < |rows| =>
      RankApplicant(rows[k], title, downloads(rows[k].id), replies(rows[k].id), parse))
  }

  /** The applicants ranked, in order, with the dropped ones filtered out:
      the `map` followed by `filter(result => result !== null)`. */
  function RankAll(rows: seq<ApplicantRecord>, title: string, downloads: string -> bool,
                   replies: string -> FlashReply, parse: string -> ParseOutcome): (rs: seq<Ranked>)
    ensures rs == Compact(Outcomes(rows, title, downloads, replies, parse))
    ensures |rs| <= |rows|
    ensures forall r :: r in rs ==> r.position == title && Truthy(r.summary)
    ensures forall r :: r in rs ==> exists i :: 0 <= i < |rows| && Names(r, rows[i])
  {
    if rows == [] then []
    else
      var rest := RankAll(rows[1..], title, downloads, replies, parse);
      assert forall r :: r in rest ==> exists i :: 0 <= i < |rows| && Names(r, rows[i]) by {
        forall r | r in rest ensures exists i :: 0 <= i < |rows| && Names(r, rows[i]) {
          var i :| 0 <= i < |rows[1..]| && Names(r, rows[1..][i]);
          assert Names(r, rows[i + 1]);
        }
      }
      ghost var os := Outcomes(rows, title, downloads, replies, parse);
      assert os[1..] == Outcomes(rows[1..], title, downloads, replies, parse);
      match RankApplicant(rows[0], title, downloads(rows[0].id), replies(rows[0].id), parse)
      case None => rest
      case Some(r) => [r] + rest
  }

  /** When every CV downloads, each row with a CV URL yields its entry, in
      order: named from the row and filed under the job's title. */
  lemma {:induction false} RankAllKeepsCvRows(rows: seq<ApplicantRecord>, title: string, downloads: string -> bool,
                                              replies: string -> FlashReply, parse: string -> ParseOutcome)
    requires forall k :: 0 <= k < |rows| ==> downloads(rows[k].id)
    ensures |RankAll(rows, title, downloads, replies, parse)| == |Filter(rows, HasCv)|
    ensures forall k :: 0 <= k < |Filter(rows, HasCv)| ==>
      RankApplicant(Filter(rows, HasCv)[k], title, true, replies(Filter(rows, HasCv)[k].id), parse)
        == Some(RankAll(rows, title, downloads, replies, parse)[k])
  {
    if rows != [] {
      var tail := rows[1..];
      forall k | 0 <= k < |tail| ensures downloads(tail[k].id) {
        assert tail[k] == rows[k + 1];
      }
      RankAllKeepsCvRows(tail, title, downloads, replies, parse);
      var kept, keptTail := Filter(rows, HasCv), Filter(tail, HasCv);
      var all, rest := RankAll(rows, title, downloads, replies, parse), RankAll(tail, title, downloads, replies, parse);
      if HasCv(rows[0]) {
        var r := RankApplicant(rows[0], title, downloads(rows[0].id), replies(rows[0].id), parse);
        assert kept == [rows[0]] + keptTail;
        assert all == [r.value] + rest;
        forall k | 0 <= k < |kept|
          ensures RankApplicant(kept[k], title, true, replies(kept[k].id), parse) == Some(all[k])
        {
          if k > 0 {
            assert kept[k] == keptTail[k - 1] && all[k] == rest[k - 1];
          }
        }
      } else {
        assert kept == keptTail;
        assert all == rest;
      }
    }
  }

  /** An applicant already ranked for the job, as the route reports it. */
  function ExistingEntry(row: ApplicantRecord): (r: Ranked)
    requires row.matchingScore.Some? && row.position.Some?
    ensures r.id == row.id && r.score == Num(row.matchingScore.value)
    ensures r.position == row.position.value && r.summary == row.aiSummary
  {
    Ranked(row.id, ToString(row.firstName) + " " + ToString(row.lastName), Num(row.matchingScore.value),
           row.aiSummary, row.position.value, if row.cvUrl.Some? then row.cvUrl.value else "")
  }

  /** The applicants already filed under the job's title with a score. */
  function AlreadyRanked(table: seq<ApplicantRecord>, title: string): (rs: seq<Ranked>)
    ensures |rs| <= |table|
    ensures forall k :: 0 <= k < |rs| ==> rs[k].position == title
  {
    var rows := Filter(table, (r: ApplicantRecord) => r.position == Some(title) && r.matchingScore.Some?);
    assert forall k :: 0 <= k < |rows| ==> rows[k] in rows;
    seq(|rows|, k requires 0 <= k < |rows| => ExistingEntry(rows[k]))
  }

  /** One score written to the database: the row's id, score and summary. */
  datatype ScoreWrite = ScoreWrite(id: string, score: Json, summary: Json)

  /** Everything the database, the downloads and the model answer. */
  datatype RankWorld = RankWorld(
    jobs: seq<JobEntry>,
    table: seq<ApplicantRecord>,
    applicantsError: Option<string>,
    rankError: Option<string>,
    downloads: string -> bool,
    replies: string -> FlashReply,
    parse: string -> ParseOutcome)

  datatype JobEntry = JobEntry(id: string, title: Json)

  datatype RankResponse =
    | BadRequest(error: string)
    | ServerError(error: string)
    | Fresh(top10: seq<Ranked>)
    | Existing(top10: seq<Ranked>, message: string)

  /** The 500 answer: a hint about the key when the message names a key,
      block or permission problem. The message itself is always quoted. */
  function RouteError(m: string): (r: string)
    ensures Contains(r, m)
    ensures StartsWith(r, "Gemini API Error: ") <==>
      (Contains(m, "API key not valid") || Contains(m, "blocked") || Contains(m, "permission"))
    ensures StartsWith(r, "Gemini API Error: ") ==>
      r == "Gemini API Error: " + m + ". Please check your GOOGLE_API_KEY settings."
    ensures !StartsWith(r, "Gemini API Error: ") ==> r == "API Error: " + m
  {
    if Contains(m, "API key not valid") || Contains(m, "blocked") || Contains(m, "permission") then
      ContainsInfix("Gemini API Error: ", m, ". Please check your GOOGLE_API_KEY settings.");
      "Gemini API Error: " + m + ". Please check your GOOGLE_API_KEY settings."
    else
      ContainsInfix("API Error: ", m, "");
      assert "API Error: " + m + "" == "API Error: " + m;
      assert ("API Error: " + m)[0] != "Gemini API Error: "[0];
      "API Error: " + m
  }

  /** `.eq('id', id).single()`: the job when exactly one has that id. */
  function SingleJob(jobs: seq<JobEntry>, id: string): Option<JobEntry>
  {
    var hits := Filter(jobs, (j: JobEntry) => j.id == id);
    if |hits| == 1 then Some(hits[0]) else None
  }

  function JobNotFound(id: string): string
  {
    "Job Description not found (ID: " + id + ")."
  }

  const ExistingMessage := "Displayed existing ranks."

  /** The title of the job the id names, read with `.single()`. */
  function TitleOf(jobId: Json, w: RankWorld): Option<string>
  {
    var job := SingleJob(w.jobs, ToString(jobId));
    if job.Some? then Some(ToString(job.value.title)) else None
  }

  /** The ranking key of an entry: the comparator's `matching_score || 0`. */
  function RankScore(r: Ranked): int
  {
    ScoreKey(r.score)
  }

  /** The writes of a ranking run: one score and summary per ranked entry,
      in order. */
  function ScoreWrites(ranked: seq<Ranked>): seq<ScoreWrite>
  {
    seq(|ranked|, k requires 0 <= k < |ranked| => ScoreWrite(ranked[k].id, ranked[k].score, ranked[k].summary))
  }

  /** What the route answers and writes for a job id. An unknown job or a
      failed query is a 500 with no writes. With applicants to rank, each
      ranked applicant's score is written and the answer is the best ten of
      the ranked entries by descending score. With none, and the existing
      ranks readable, the answer is the best ten already ranked under the
      job's title, with nothing written. */
  ghost predicate RankAnswer(jobId: Json, w: RankWorld, resp: RankResponse, writes: seq<ScoreWrite>)
  {
    match TitleOf(jobId, w)
    case None => resp == ServerError(RouteError(JobNotFound(ToString(jobId)))) && writes == []
    case Some(title) =>
      if w.applicantsError.Some? then
        resp == ServerError(RouteError("Failed to fetch applicants: " + w.applicantsError.value)) && writes == []
      else if ApplicantsToRank(w.table, title) == [] then
        if w.rankError.Some? then
          resp == ServerError(RouteError("Failed to fetch existing ranks: " + w.rankError.value)) && writes == []
        else
          && resp.Existing? && resp.message == ExistingMessage
          && Sorting.IsTopByScore(resp.top10, AlreadyRanked(w.table, title), RankScore, MaxToRank)
          && writes == []
      else
        var ranked := RankAll(ApplicantsToRank(w.table, title), title, w.downloads, w.replies, w.parse);
        && resp.Fresh?
        && Sorting.IsTopByScore(resp.top10, ranked, RankScore, MaxToRank)
        && writes == ScoreWrites(ranked)
  }

  /** The whole route. Without a job id it answers 400. With applicants to
      rank it answers the best ten by descending score, every one of them
      filed under the job's title, and writes one score per applicant that
      was analysed; with none it answers the ten best already ranked. */
  method Post(jobId: Json, w: RankWorld) returns (resp: RankResponse, writes: seq<ScoreWrite>)
    ensures !Truthy(jobId) <==> resp.BadRequest?
    ensures Truthy(jobId) ==> RankAnswer(jobId, w, resp, writes)
    ensures !resp.Fresh? ==> writes == []
    ensures resp.Fresh? ==>
      && |resp.top10| <= MaxToRank
      && |writes| <= MaxToRank
      && (forall i, j :: 0 <= i < j < |resp.top10| ==> ScoreKey(resp.top10[i].score) >= ScoreKey(resp.top10[j].score))
      && (forall r :: r in resp.top10 ==> Truthy(r.summary))
    ensures resp.Existing? ==>
      && |resp.top10| <= MaxToRank
      && (forall i, j :: 0 <= i < j < |resp.top10| ==> ScoreKey(resp.top10[i].score) >= ScoreKey(resp.top10[j].score))
  {
    writes := [];
    if !Truthy(jobId) {
      return BadRequest("Job ID is required"), [];
    }
    var id := ToString(jobId);
    var title := TitleOf(jobId, w);
    if title.None? {
      return ServerError(RouteError(JobNotFound(id))), [];
    }
    if w.applicantsError.Some? {
      return ServerError(RouteError("Failed to fetch applicants: " + w.applicantsError.value)), [];
    }
    var rows := ApplicantsToRank(w.table, title.value);
    if rows == [] {
      if w.rankError.Some? {
        return ServerError(RouteError("Failed to fetch existing ranks: " + w.rankError.value)), [];
      }
      var existing := Sorting.TopByScore(AlreadyRanked(w.table, title.value), RankScore, MaxToRank);
      return Existing(existing, ExistingMessage), [];
    }
    var ranked := RankAll(rows, title.value, w.downloads, w.replies, w.parse);
    writes := ScoreWrites(ranked);
    var top := Sorting.TopByScore(ranked, RankScore, MaxToRank);
    Sorting.SubMultisetKeeps(top, ranked, (r: Ranked) => Truthy(r.summary));
    resp := Fresh(top);
  }
}
