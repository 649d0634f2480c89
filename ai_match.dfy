/** The `/api/aiMatch` route: it ranks the applicants of one job (or the
    jobs for one applicant) by asking a generative model for a matching
    score. The model, the OCR service, the downloads and the database are
    inputs; what is modelled is what the route does with their answers:
    cleaning and coercing the model's reply, degrading a failed applicant
    to score 0, and ranking the results. */
module AiMatch {
  import opened Wrappers
  import opened Text
  import opened JsValue
  import opened VisionOcr
  import opened AiReply
  import opened ListView
  import Sorting

  const MaxApplicants := 10
  const MaxJobs := 20

  // ---------------------------------------------------------------------
  // Ranking the applicants of a job

  datatype Download = Downloaded | DownloadNotOk | DownloadThrew(message: string)

  /** What the outside world answers while one applicant is processed. */
  datatype ApplicantRun = ApplicantRun(download: Download, vision: VisionReply, gemini: GeminiReply)

  datatype JobRow = JobRow(id: string, title: Json, description: Json)

  datatype ApplicantRow = ApplicantRow(id: string, firstName: Json, lastName: Json, cvUrl: Option<string>, jobId: string)

  /** One entry of the job-to-applicants answer. */
  datatype MatchResult = MatchResult(
    id: string,
    name: string,
    score: int,
    summary: Json,
    cvUrl: string,
    matchedJobId: Json,
    matchedJobTitle: Json,
    locked: bool)

  /** A processed applicant: the entry of the answer and the columns written
      to its database row. */
  datatype Processed = Processed(result: MatchResult, update: Columns)

  function FullName(firstName: Json, lastName: Json): string
  {
    ToString(firstName) + " " + ToString(lastName)
  }

  /** The CV text of one applicant, or the message that stopped it. */
  function CvText(run: ApplicantRun): Result<string, string>
  {
    match run.download
    case DownloadNotOk => Failure("Download failed")
    case DownloadThrew(m) => Failure(m)
    case Downloaded => OcrText(run.vision, "Vision API could not extract text.")
  }

  function OptionalArray(v: Option<seq<Json>>): Json
  {
    if v.Some? then Arr(v.value) else Undefined
  }

  /** The analysis columns of an applicant's row that one update writes;
      `None` marks a column the update does not mention. */
  datatype Columns = Columns(
    matchingScore: int,
    aiSummary: Json,
    overview: Json,
    strengths: Json,
    potentialGaps: Json,
    prediction: Option<Json>,
    personality: Option<Json>)

  /** The seven columns written after a successful analysis. */
  function SuccessUpdate(a: Analysis): (c: Columns)
    ensures c.matchingScore == a.score && c.aiSummary == a.summary
    ensures c.prediction.Some? && c.personality.Some?
  {
    Columns(a.score, a.summary, a.overview, OptionalArray(a.strengths), OptionalArray(a.gaps),
            Some(a.prediction), Some(a.personality))
  }

  /** The five columns written when processing fails: score 0, the summary,
      "Processing failed." and two empty lists; the prediction and
      personality columns keep what they held. */
  function FailureUpdate(summary: string): (c: Columns)
    ensures c.matchingScore == 0 && c.aiSummary == Str(summary)
    ensures c.strengths == Arr([]) && c.potentialGaps == Arr([])
    ensures c.prediction.None? && c.personality.None?
  {
    Columns(0, Str(summary), Str("Processing failed."), Arr([]), Arr([]), None, None)
  }

  const ProcessingFailed := "Processing failed: "

  /** The `try`/`catch` around one applicant who has a CV: the columns
      written to its row. A download, OCR or model failure degrades the
      applicant to score 0 with at most 150 characters of the error; an
      analysis writes all seven columns. */
  function ScoreApplicant(run: ApplicantRun, parse: string -> ParseOutcome): (c: Columns)
    ensures CvText(run).Failure? ==> c == FailureUpdate(ProcessingFailed + Prefix(CvText(run).error, 150))
    ensures CvText(run).Success? ==> c.prediction.Some? && c.personality.Some?
  {
    match CvText(run)
    case Failure(m) => FailureUpdate(ProcessingFailed + Prefix(m, 150))
    case Success(_) => SuccessUpdate(Analyze(run.gemini, parse))
  }

  /** One applicant of the job: `None` (the route's `null`) without a CV
      URL; otherwise an entry for that applicant, locked to the job, that
      reports what `ScoreApplicant` made of it. */
  function ProcessApplicant(targetId: Json, jobTitle: Json, row: ApplicantRow, run: ApplicantRun,
                            parse: string -> ParseOutcome): (p: Option<Processed>)
    ensures p.None? <==> row.cvUrl.None? || row.cvUrl.value == ""
    ensures p.Some? ==> p.value.result.matchedJobId == targetId && p.value.result.locked
    ensures p.Some? ==> p.value.result.id == row.id && p.value.result.cvUrl == row.cvUrl.value
    ensures p.Some? ==> p.value.result.name == ToString(row.firstName) + " " + ToString(row.lastName)
    ensures p.Some? ==> p.value.update == ScoreApplicant(run, parse)
    ensures p.Some? ==> p.value.result.score == p.value.update.matchingScore
    ensures p.Some? ==> p.value.result.summary == p.value.update.aiSummary
  {
    if row.cvUrl.None? || row.cvUrl.value == "" then None
    else
      var c := ScoreApplicant(run, parse);
      Some(Processed(MatchResult(row.id, FullName(row.firstName, row.lastName), c.matchingScore, c.aiSummary,
                                 row.cvUrl.value, targetId, jobTitle, true), c))
  }

  /** A failure summary is the fixed prefix and at most 150 characters of
      the error message. */
  lemma FailureSummaryLength(m: string)
    ensures |ProcessingFailed + Prefix(m, 150)| <= |ProcessingFailed| + 150
    ensures StartsWith(ProcessingFailed + Prefix(m, 150), ProcessingFailed)
  {
    assert (ProcessingFailed + Prefix(m, 150))[..|ProcessingFailed|] == ProcessingFailed;
  }

  /** A row the route does not map to `null`: one with a non-empty CV URL. */
  predicate HasCv(row: ApplicantRow)
  {
    row.cvUrl.Some? && row.cvUrl.value != ""
  }

  /** The `map` over the rows: one outcome per row, in order, `None` for a
      row the callback maps to `null`. */
  function Outcomes(targetId: Json, jobTitle: Json, rows: seq<ApplicantRow>, runs: string -> ApplicantRun,
                    parse: string -> ParseOutcome): seq<Option<Processed>>
  {
    seq(|rows|, k requires 0 <= k < |rows| => ProcessApplicant(targetId, jobTitle, rows[k], runs(rows[k].id), parse))
  }

  /** The applicants processed, in order, with the ones without a CV URL
      dropped: the route's `map` followed by `filter(r => r !== null)`. */
  function ProcessAll(targetId: Json, jobTitle: Json, rows: seq<ApplicantRow>, runs: string -> ApplicantRun,
                      parse: string -> ParseOutcome): (ps: seq<Processed>)
    ensures ps == Compact(Outcomes(targetId, jobTitle, rows, runs, parse))
    ensures |ps| <= |rows|
    ensures forall p :: p in ps ==> p.result.matchedJobId == targetId && p.result.locked
    ensures forall p :: p in ps ==> exists r :: r in rows && p.result.id == r.id
  {
    if rows == [] then []
    else
      var rest := ProcessAll(targetId, jobTitle, rows[1..], runs, parse);
      assert forall r :: r in rows[1..] ==> r in rows;
      ghost var os := Outcomes(targetId, jobTitle, rows, runs, parse);
      assert os[1..] == Outcomes(targetId, jobTitle, rows[1..], runs, parse);
      match ProcessApplicant(targetId, jobTitle, rows[0], runs(rows[0].id), parse)
      case None => rest
      case Some(p) => [p] + rest
  }

  /** Each row with a CV URL yields exactly its processed entry, in order:
      the k-th entry is what the k-th such row gives. */
  lemma {:induction false} ProcessAllKeepsCvRows(targetId: Json, jobTitle: Json, rows: seq<ApplicantRow>,
                                                 runs: string -> ApplicantRun, parse: string -> ParseOutcome)
    ensures |ProcessAll(targetId, jobTitle, rows, runs, parse)| == |Filter(rows, HasCv)|
    ensures forall k :: 0 <= k < |Filter(rows, HasCv)| ==>
      ProcessApplicant(targetId, jobTitle, Filter(rows, HasCv)[k], runs(Filter(rows, HasCv)[k].id), parse)
        == Some(ProcessAll(targetId, jobTitle, rows, runs, parse)[k])
  {
    var f := (r: ApplicantRow) => ProcessApplicant(targetId, jobTitle, r, runs(r.id), parse);
    assert Outcomes(targetId, jobTitle, rows, runs, parse) == Map(rows, f);
    forall k | 0 <= k < |rows| ensures f(rows[k]).Some? <==> HasCv(rows[k]) {
      var p := ProcessApplicant(targetId, jobTitle, rows[k], runs(rows[k].id), parse);
    }
    CompactMapFilter(rows, f, HasCv);
  }

  /** The entries of the answer before ranking, one per processed applicant. */
  function Results(ps: seq<Processed>): (rs: seq<MatchResult>)
    ensures |rs| == |ps| && forall k :: 0 <= k < |ps| ==> rs[k] == ps[k].result
  {
    seq(|ps|, k requires 0 <= k < |ps| => ps[k].result)
  }

  /** The entries of applicants processed for a target are locked to it. */
  lemma ResultsLocked(ps: seq<Processed>, targetId: Json)
    requires forall p :: p in ps ==> p.result.matchedJobId == targetId && p.result.locked
    ensures forall r :: r in Results(ps) ==> r.matchedJobId == targetId && r.locked
  {
    forall r | r in Results(ps) ensures r.matchedJobId == targetId && r.locked {
      var k :| 0 <= k < |ps| && Results(ps)[k] == r;
      assert ps[k] in ps;
    }
  }

  /** One database write: the row's id and the columns set. */
  datatype RowUpdate = RowUpdate(id: string, columns: Columns)

  /** The writes of the job-to-applicants mode, one per processed applicant. */
  function Updates(ps: seq<Processed>): (us: seq<RowUpdate>)
    ensures |us| == |ps| && forall k :: 0 <= k < |ps| ==> us[k] == RowUpdate(ps[k].result.id, ps[k].update)
  {
    seq(|ps|, k requires 0 <= k < |ps| => RowUpdate(ps[k].result.id, ps[k].update))
  }

  /** `.eq('job_id', jobId).not('cv_url', 'is', null)`. */
  function Applied(table: seq<ApplicantRow>, jobId: string): seq<ApplicantRow>
  {
    Filter(table, (r: ApplicantRow) => r.cvUrl.Some? && r.jobId == jobId)
  }

  /** The applicants the route asks the database for: those with a CV URL
      who applied for the job, the first ten of them, or all when fewer. */
  function ApplicantsToProcess(table: seq<ApplicantRow>, jobId: string): (rows: seq<ApplicantRow>)
    ensures |rows| <= MaxApplicants
    ensures |rows| == (if |Applied(table, jobId)| < MaxApplicants then |Applied(table, jobId)| else MaxApplicants)
    ensures rows == Applied(table, jobId)[..|rows|]
    ensures forall r :: r in rows ==> r in table && r.cvUrl.Some? && r.jobId == jobId
  {
    var applied := Applied(table, jobId);
    SliceFront(applied, MaxApplicants);
    Slice(applied, 0, MaxApplicants)
  }

  /** Nothing is fetched exactly when no applicant of the job has a CV URL. */
  lemma NothingToProcess(table: seq<ApplicantRow>, jobId: string)
    ensures ApplicantsToProcess(table, jobId) == [] <==>
      forall r :: r in table ==> !(r.cvUrl.Some? && r.jobId == jobId)
  {
    var applied := Applied(table, jobId);
    if applied != [] {
      assert applied[0] in applied;
    }
  }

  // ---------------------------------------------------------------------
  // Ranking the jobs for an applicant

  /** One entry of the applicant-to-jobs answer. */
  datatype JobMatch = JobMatch(id: string, title: Json, score: int, summary: Json)

  /** Every job scored against the CV; the helper never throws, so the
      route's own "AI analysis failed" branch is never taken. */
  function ScoreJobs(jobs: seq<JobRow>, replies: string -> GeminiReply, parse: string -> ParseOutcome): (ms: seq<JobMatch>)
    ensures |ms| == |jobs|
    ensures forall k :: 0 <= k < |jobs| ==> ms[k].id == jobs[k].id && ms[k].title == jobs[k].title
  {
    seq(|jobs|, k requires 0 <= k < |jobs| =>
      var a := Analyze(replies(jobs[k].id), parse);
      JobMatch(jobs[k].id, jobs[k].title, a.score, a.summary))
  }

  // ---------------------------------------------------------------------
  // The route

  /** Everything the database, the downloads, the OCR service and the
      model answer during one request. */
  datatype MatchWorld = MatchWorld(
    jobs: seq<JobRow>,
    jobsError: Option<string>,
    applicants: seq<ApplicantRow>,
    applicantsError: bool,
    applicantRuns: string -> ApplicantRun,
    cvDownload: Download,
    cvVision: VisionReply,
    jobReplies: string -> GeminiReply,
    parse: string -> ParseOutcome)

  datatype MatchResponse =
    | BadRequest(error: string)
    | ServerError(error: string)
    | ApplicantsRanked(results: seq<MatchResult>, message: Option<string>)
    | JobsRanked(jobResults: seq<JobMatch>, applicantName: Option<string>, message: Option<string>)

  /** `.eq('id', id).single()`: the row when exactly one has that id. */
  function Single<T>(rows: seq<T>, id: T -> string, key: string): Option<T>
  {
    var hits := Filter(rows, (r: T) => id(r) == key);
    if |hits| == 1 then Some(hits[0]) else None
  }

  /** The 500 answer for an exception that reaches the route's `catch`:
      the message, followed by a hint about the key exactly when the
      message reads as a key, model or permission problem. */
  function RouteError(m: string): (r: string)
    ensures StartsWith(r, "API Error: " + m)
    ensures IsKeyError(m) ==> r == "API Error: " + m + ". Please check API Key permissions."
    ensures !IsKeyError(m) ==> r == "API Error: " + m
  {
    var r := "API Error: " + m + (if IsKeyError(m) then ". Please check API Key permissions." else "");
    assert r[..|"API Error: " + m|] == "API Error: " + m;
    r
  }

  function JobNotFound(id: string): string
  {
    "Job Description not found (ID: " + id + ")."
  }

  const NoApplicants := "No applicants (with CVs) have applied for this specific job."
  const NoJobs := "No jobs found to match against."
  const CvNoText := "Vision API could not extract text."

  /** The job the request names, read with `.single()`. */
  function JobOf(targetId: Json, w: MatchWorld): Option<JobRow>
  {
    Single(w.jobs, (j: JobRow) => j.id, ToString(targetId))
  }

  /** The applicants the job-to-applicants mode processes; a failed query
      leaves none. */
  function RowsFor(targetId: Json, w: MatchWorld): seq<ApplicantRow>
  {
    if w.applicantsError then [] else ApplicantsToProcess(w.applicants, ToString(targetId))
  }

  /** The ranking key of an applicant entry. */
  function MatchScore(r: MatchResult): int
  {
    r.score
  }

  /** What the job-to-applicants mode answers and writes. A job that cannot
      be read is a 500 with no writes; a job nobody with a CV applied for is
      an empty list with its message and no writes; otherwise every
      processed applicant's row is updated and the answer is the best ten of
      their entries by descending score. */
  ghost predicate JobToApplicantsAnswer(targetId: Json, w: MatchWorld, resp: MatchResponse, writes: seq<RowUpdate>)
  {
    match JobOf(targetId, w)
    case None => resp == ServerError(RouteError(JobNotFound(ToString(targetId)))) && writes == []
    case Some(job) =>
      if RowsFor(targetId, w) == [] then
        resp == ApplicantsRanked([], Some(NoApplicants)) && writes == []
      else
        var ps := ProcessAll(targetId, job.title, RowsFor(targetId, w), w.applicantRuns, w.parse);
        && resp.ApplicantsRanked? && resp.message.None?
        && Sorting.IsTopByScore(resp.results, Results(ps), MatchScore, MaxApplicants)
        && writes == Updates(ps)
  }

  /** The job-to-applicants mode: the best ten processed applicants of the
      job, by descending score, each locked to it, with one row update per
      processed applicant. A job that cannot be read is a 500. */
  method JobToApplicants(targetId: Json, w: MatchWorld) returns (resp: MatchResponse, writes: seq<RowUpdate>)
    ensures JobToApplicantsAnswer(targetId, w, resp, writes)
    ensures resp.ServerError? || resp.ApplicantsRanked?
    ensures resp.ServerError? ==> writes == []
    ensures resp.ApplicantsRanked? ==>
      && |resp.results| <= MaxApplicants
      && (forall i, j :: 0 <= i < j < |resp.results| ==> resp.results[i].score >= resp.results[j].score)
      && (forall r :: r in resp.results ==> r.matchedJobId == targetId && r.locked)
      && |writes| <= MaxApplicants
  {
    var id := ToString(targetId);
    var job := JobOf(targetId, w);
    if job.None? {
      return ServerError(RouteError(JobNotFound(id))), [];
    }
    var rows := RowsFor(targetId, w);
    if rows == [] {
      return ApplicantsRanked([], Some(NoApplicants)), [];
    }
    var processed := ProcessAll(targetId, job.value.title, rows, w.applicantRuns, w.parse);
    writes := Updates(processed);
    var results := Results(processed);
    var top := Sorting.TopByScore(results, MatchScore, MaxApplicants);
    ResultsLocked(processed, targetId);
    Sorting.SubMultisetKeeps(top, results, (r: MatchResult) => r.matchedJobId == targetId && r.locked);
    resp := ApplicantsRanked(top, None);
  }

  /** The applicant the request names, read with `.single()`. */
  function ApplicantOf(targetId: Json, w: MatchWorld): Option<ApplicantRow>
  {
    Single(w.applicants, (a: ApplicantRow) => a.id, ToString(targetId))
  }

  /** The jobs the applicant-to-jobs mode fetches: at most twenty. */
  function JobsFetched(w: MatchWorld): seq<JobRow>
  {
    Slice(w.jobs, 0, MaxJobs)
  }

  /** The applicant has a CV that downloads and the jobs query succeeds. */
  predicate CvReady(targetId: Json, w: MatchWorld)
  {
    && ApplicantOf(targetId, w).Some? && HasCv(ApplicantOf(targetId, w).value)
    && w.cvDownload.Downloaded? && w.jobsError.None?
  }

  /** What the applicant-to-jobs mode answers. It ranks exactly when the
      applicant has a CV that downloads, the jobs query succeeds and either
      there is no job or the CV is readable; any other request is a 500.
      With no job the list is empty with its message; otherwise the answer
      names the applicant and holds every fetched job's score, by
      descending score. */
  ghost predicate ApplicantToJobsAnswer(targetId: Json, w: MatchWorld, resp: MatchResponse)
  {
    && (resp.ServerError? || resp.JobsRanked?)
    && (resp.JobsRanked? <==>
          CvReady(targetId, w) && (JobsFetched(w) == [] || OcrText(w.cvVision, CvNoText).Success?))
    && (CvReady(targetId, w) && JobsFetched(w) == [] ==> resp == JobsRanked([], None, Some(NoJobs)))
    && (resp.JobsRanked? && JobsFetched(w) != [] ==>
          && resp.applicantName == Some(FullName(ApplicantOf(targetId, w).value.firstName,
                                                 ApplicantOf(targetId, w).value.lastName))
          && resp.message.None?
          && multiset(resp.jobResults) == multiset(ScoreJobs(JobsFetched(w), w.jobReplies, w.parse)))
    && (resp.JobsRanked? ==>
          forall i, j :: 0 <= i < j < |resp.jobResults| ==> resp.jobResults[i].score >= resp.jobResults[j].score)
  }

  /** The applicant-to-jobs mode: every fetched job (at most twenty) scored
      against the applicant's CV, by descending score. A missing applicant
      or CV, a failed download, a failed job query or an unreadable CV is a
      500. Nothing is written. */
  method ApplicantToJobs(targetId: Json, w: MatchWorld) returns (resp: MatchResponse)
    ensures ApplicantToJobsAnswer(targetId, w, resp)
    ensures resp.JobsRanked? ==> |resp.jobResults| <= MaxJobs
  {
    var id := ToString(targetId);
    var applicant := ApplicantOf(targetId, w);
    if applicant.None? || applicant.value.cvUrl.None? || applicant.value.cvUrl.value == "" {
      return ServerError(RouteError("Applicant or CV URL not found (ID: " + id + ")."));
    }
    var applicantName := FullName(applicant.value.firstName, applicant.value.lastName);
    match w.cvDownload {
      case DownloadNotOk =>
        return ServerError(RouteError("CV Download failed: Download failed"));
      case DownloadThrew(m) =>
        return ServerError(RouteError("CV Download failed: " + m));
      case Downloaded =>
    }
    if w.jobsError.Some? {
      return ServerError(RouteError("Failed to fetch jobs: " + w.jobsError.value));
    }
    SliceFront(w.jobs, MaxJobs);
    var jobs := JobsFetched(w);
    if jobs == [] {
      return JobsRanked([], None, Some(NoJobs));
    }
    var cv := GetTextFromPdf(w.cvVision, CvNoText);
    if cv.Failure? {
      return ServerError(RouteError("Could not read CV using Vision API: " + cv.error));
    }
    var scored := ScoreJobs(jobs, w.jobReplies, w.parse);
    var ranked := Sorting.SortByScoreDescending(scored, (m: JobMatch) => m.score);
    assert |ranked| == |multiset(ranked)| == |multiset(scored)| == |scored|;
    resp := JobsRanked(ranked, Some(applicantName), None);
  }

  /** The whole route. Requests without a mode or target, or with an
      unknown mode, are rejected with 400; each mode answers as its method
      says, and only the job-to-applicants mode writes to the database. */
  method Post(mode: Json, targetId: Json, w: MatchWorld) returns (resp: MatchResponse, writes: seq<RowUpdate>)
    ensures (!Truthy(mode) || !Truthy(targetId)) ==> resp.BadRequest?
    ensures Truthy(mode) && Truthy(targetId) && mode != Str("jobToApplicants") && mode != Str("applicantToJobs") ==>
      resp.BadRequest?
    ensures Truthy(targetId) && mode == Str("jobToApplicants") ==> JobToApplicantsAnswer(targetId, w, resp, writes)
    ensures Truthy(targetId) && mode == Str("applicantToJobs") ==>
      ApplicantToJobsAnswer(targetId, w, resp) && writes == []
    ensures resp.BadRequest? ==> writes == []
    ensures resp.ApplicantsRanked? ==>
      && mode == Str("jobToApplicants")
      && |resp.results| <= MaxApplicants
      && (forall i, j :: 0 <= i < j < |resp.results| ==> resp.results[i].score >= resp.results[j].score)
      && (forall r :: r in resp.results ==> r.matchedJobId == targetId && r.locked)
      && |writes| <= MaxApplicants
    ensures resp.JobsRanked? ==>
      && mode == Str("applicantToJobs")
      && |resp.jobResults| <= MaxJobs
      && (forall i, j :: 0 <= i < j < |resp.jobResults| ==> resp.jobResults[i].score >= resp.jobResults[j].score)
      && writes == []
  {
    if !Truthy(mode) || !Truthy(targetId) {
      return BadRequest("Missing 'mode' or 'targetId'"), [];
    }
    if mode == Str("jobToApplicants") {
      resp, writes := JobToApplicants(targetId, w);
    } else if mode == Str("applicantToJobs") {
      resp := ApplicantToJobs(targetId, w);
      writes := [];
    } else {
      resp, writes := BadRequest("Invalid 'mode' specified"), [];
    }
  }

  /** A missing job surfaces as a 500 whose text blames the API key: its
      message contains "not found", one of the key-problem phrases. */
  lemma MissingJobBlamesKey(id: string)
    ensures IsKeyError(JobNotFound(id))
    ensures EndsWith(RouteError(JobNotFound(id)), ". Please check API Key permissions.")
  {
    var msg := JobNotFound(id);
    var tail := " (ID: " + id + ").";
    assert "Job Description " + "not found" + tail == msg;
    ContainsInfix("Job Description ", "not found", tail);
    assert Contains(msg, "not found");
    var r := RouteError(msg);
    assert r == ("API Error: " + msg) + ". Please check API Key permissions.";
  }
}
