# TalentMatch core, modelled in Dafny

TalentMatch is a recruiting dashboard. Recruiters post job descriptions and
collect applicants with their CVs. A generative model, fed the text that an
OCR service reads out of each PDF, scores every applicant against a job.

This project models the deterministic logic around those calls:

- **The server routes:**
  - `/api/aiMatch` ranks the applicants of a job, or the jobs for one
    applicant.
  - `/api/rankForJob` ranks applicants with a second, simpler reply format.
  - `/api/draftEmail` drafts an offer or rejection and records the new
    status.
  - `/api/extractCV` reads a CV and pre-fills the applicant's name, position
    and experience.
  - `/api/cvChat` answers questions about one CV.
- **The dashboard screens:**
  - Home: week-start counts, stage and filter state, status colours.
  - Applicants: the PSS composite score, filters, pagination and the
    five-button page window.
  - Information: search and sort, CV deletion, and add and edit forms.
  - Job board and job-creation form.
  - AI matching and CV summary: status confirmation and CSV export.

The database, the OCR service, the generative model and `fetch` are inputs
to the model. Each is an outcome datatype (success with a value, or failure
with a message) or a function parameter. `JSON.parse` is a function
parameter that maps text to a parsed value or a syntax error.

The JavaScript values the routes read are the `Json` datatype. That module
defines truthiness, `||`, property access, `String(v)` and `parseInt`.

**Module layout.** There is one module per source file. Shared modules cover
the rest:

- `Text`: trim, lower-casing, split, join, substring search, string order.
- `JsValue`: JavaScript values and integer parsing.
- `ListView`: `filter`, `slice`, page counts, prev/next clamps, distinct
  values.
- `Sorting`: an in-place insertion sort on an array, used for the
  comparator-based `sort` calls.
- `Skills`: the comma-separated skill lines.
- `VisionOcr`: the OCR page-concatenation loop the routes share.

**Form of the model.**

- Each screen's React state is a class:
  - every state variable is a field;
  - every handler is a method that `modifies` the object;
  - every derived value (`filteredApplicants`, `currentJobs`, …) is a
    function that `reads` it.
- Each route is a method. It takes the outside world's answers and returns
  the HTTP answer and the database writes.
- Loops in the source are loops here. Examples: the OCR page loop,
  `getPageNumbers`' `push` loop, and the in-place `sort`.

## Model

| member | source | states |
|---|---|---|
| VisionOcr.CollectPageText | app/api/cvChat/route.ts:32-36 | The page loop builds exactly the in-order concatenation of every annotated page's text followed by a line break; pages without an annotation add nothing |
| VisionOcr.PagesTextEmpty | app/api/cvChat/route.ts:32-37 | The concatenated text is empty exactly when no page carries an annotation |
| VisionOcr.PagesTextAppend | app/api/extractCV/route.ts:75-81 | The text of two runs of pages is the text of the first followed by that of the second, so page order is kept |
| VisionOcr.OcrTextOutcome | app/api/aiMatch/route.ts:25 | The helper succeeds exactly when the reply is OK and some page is annotated, and then returns the page text. A failed request throws the service's own message, or the raw body when there is none. An OK reply without text throws the file's error when there is one, and the fixed "could not extract text" message otherwise |
| VisionOcr.GetTextFromPdf | app/api/cvChat/route.ts:22-40 | The helper, written as the loop the source runs, returns what OcrTextOutcome characterises |
| AiReply.StripFences | app/api/aiMatch/route.ts:63-67 | The cleaned reply never has white space at either end |
| AiReply.CleanReply | app/api/aiMatch/route.ts:63-67 | The sequence of reassignments (trim, drop one opening fence with "```json" tried first, drop one closing fence, trim) computes StripFences |
| AiReply.StripJsonFence | app/api/aiMatch/route.ts:63-67 | A trimmed JSON text inside a "```json" fence, with any white space around or inside the fences, comes back unchanged |
| AiReply.StripPlainFence | app/api/aiMatch/route.ts:63-67 | The same holds for a bare "```" fence, as long as its content does not begin with "json" |
| AiReply.StripUnfenced | app/api/aiMatch/route.ts:63-67 | A reply without fences only loses its surrounding white space |
| AiReply.Coerce | app/api/aiMatch/route.ts:70-78 | An array of strengths or gaps is kept as it is, and anything else becomes an empty list. A truthy summary is kept, and any other becomes "No summary provided." |
| AiReply.CoerceDefaults | app/api/aiMatch/route.ts:70-78 | For any object: a missing or falsy summary becomes "No summary provided.", arrays of strengths or gaps are kept, and missing or non-array ones become empty lists |
| AiReply.ScoreOfInteger | app/api/aiMatch/route.ts:70 | `parseInt(v) \|\| 0` of a safe integer, given either as a number or as its numeral, is that integer |
| AiReply.ScoreOfNonNumeral | app/api/aiMatch/route.ts:70 | An absent, null, boolean or object score counts as 0 |
| AiReply.ScoreNotClamped | app/api/aiMatch/route.ts:70-78 | Any integer the model writes is the score, with no clamping to 0..100, and the analysis carries lists |
| AiReply.MissingKeyScoresZero | app/api/aiMatch/route.ts:69-86 | A reply missing `matchingScore` or `aiSummary` does not escape the helper: it yields score 0, the summary "AI response JSON missing required keys.", and no lists |
| AiReply.MissingKeysSummary | app/api/aiMatch/route.ts:82-85 | The missing-keys error is not read as a key error, so its summary is its own message |
| AiReply.MissingKeysNotKeyError | app/api/aiMatch/route.ts:82-83 | The missing-keys message names no key, block, permission, API or lookup problem |
| AiReply.FailureSummary | app/api/aiMatch/route.ts:82-85 | Key, quota and model errors get the key-error sentence around their message. Otherwise a syntax error gives the invalid-JSON text, a missing-keys error keeps its message, and anything else gives the generic text |
| AiReply.SyntaxErrorSummary | app/api/aiMatch/route.ts:84 | A reply the parser rejects, for a reason other than a key problem, yields score 0 and the invalid-JSON summary, with every other field unset |
| AiReply.Attempt | app/api/aiMatch/route.ts:58-78 | When the helper's `try` body completes, its analysis always has both lists |
| AiReply.ReadParsed | app/api/aiMatch/route.ts:66-78 | Once the text is parsed, a syntax error is rethrown as one with its own message, and a reading that completes always has both lists |
| AiReply.Analyze | app/api/aiMatch/route.ts:57-87 | The helper never throws. An analysis without lists is a failure: score 0, a string summary, and no overview |
| AiMatch.SuccessUpdate | app/api/aiMatch/route.ts:132-151 | A successful analysis writes its score and summary. The update always carries the prediction and personality keys, possibly undefined; an undefined key is left out of the write |
| AiMatch.FailureUpdate | app/api/aiMatch/route.ts:158-171 | A failed applicant is written with score 0, the given summary, empty lists, and no prediction or personality |
| AiMatch.FailureSummaryLength | app/api/aiMatch/route.ts:158 | A failure summary starts with "Processing failed: " and is at most 150 characters longer |
| AiMatch.ScoreApplicant | app/api/aiMatch/route.ts:125-174 | A CV that cannot be downloaded or read degrades to the failure columns with the message cut to 150 characters. A readable CV gives an update that always carries the prediction and personality keys, possibly undefined |
| AiMatch.ProcessApplicant | app/api/aiMatch/route.ts:123-182 | An applicant is null exactly when it has no CV URL. Otherwise:<br>- its result carries the target job id and is locked;<br>- the name is firstName + " " + lastName;<br>- the score and summary are those of its database update |
| AiMatch.ProcessAll | app/api/aiMatch/route.ts:122-185 | The result is the per-row outcomes of the `map`, in row order, with the nulls dropped. Every entry is locked to the target and comes from a fetched row |
| AiMatch.ProcessAllKeepsCvRows | app/api/aiMatch/route.ts:122-185 | There is one entry per row with a CV URL, and the k-th entry is exactly what the k-th such row gives |
| AiMatch.ApplicantsToProcess | app/api/aiMatch/route.ts:106-111 | The first ten rows of the job with a CV URL are fetched, or all of them when there are fewer, in the table's order |
| AiMatch.NothingToProcess | app/api/aiMatch/route.ts:106-111 | Nothing is fetched exactly when no applicant of the job has a CV URL |
| AiMatch.ScoreJobs | app/api/aiMatch/route.ts:199-209 | Every fetched job is scored, in order, under its own id and title |
| AiMatch.RouteError | app/api/aiMatch/route.ts:215 | A 500 answer is "API Error: " followed by the message, with the API-key hint appended exactly when the message reads as a key error |
| AiMatch.MissingJobBlamesKey | app/api/aiMatch/route.ts:215 | A missing job counts as a key error because its message contains "not found", so the 500 text ends with the API-key hint |
| AiMatch.JobToApplicants | app/api/aiMatch/route.ts:98-191 | A job that cannot be read is a 500 with no writes. With no applicant to process the list is empty, with its message and no writes. Otherwise every processed applicant's row is updated once, and the answer is the best ten processed entries by descending score, all locked to the job |
| AiMatch.ApplicantToJobs | app/api/aiMatch/route.ts:194-211 | The mode ranks exactly when the applicant has a CV that downloads, the jobs query succeeds and either there is no job or the CV is readable; otherwise it is a 500. Without jobs the list is empty with its message. Otherwise the answer names the applicant and is a permutation of the scores of the first twenty jobs, by descending score |
| AiMatch.Post | app/api/aiMatch/route.ts:92-214 | A missing mode or target, or an unknown mode, is a 400 with no writes. A truthy target with either mode gets that mode's answer and writes. Only job-to-applicants writes |
| RankForJob.Analyze | app/api/rankForJob/route.ts:32-74 | The helper never throws. Its summary is always truthy and its score is 0 or truthy. A failed call scores 0, and a reply that is not JSON or parses to null gives score 0 and "Error during AI analysis." |
| RankForJob.MissingFieldsFallBack | app/api/rankForJob/route.ts:61-64 | A missing `matchingScore` gives 0, a missing `aiSummary` gives "No summary.", and a truthy score is kept as given |
| RankForJob.FailureSummary | app/api/rankForJob/route.ts:66-73 | A blocked call is summarised as "Analysis blocked: " with its reason. Any other failure is "Error during AI analysis.", and so is a reply that is not JSON or parses to null, with score 0 |
| RankForJob.ApplicantsToRank | app/api/rankForJob/route.ts:97-102 | The first ten rows with a CV URL that are filed under another position or have no score yet are fetched, or all of them when there are fewer. An unscored row filed under the job's title is included |
| RankForJob.NothingToRank | app/api/rankForJob/route.ts:97-102 | Nothing is fetched exactly when no applicant with a CV URL is filed elsewhere or unscored |
| RankForJob.RankApplicant | app/api/rankForJob/route.ts:130-165 | An applicant is dropped exactly when it has no CV URL or its download fails; it is not degraded. A kept one has the name firstName + " " + lastName, the job title as its position, and a truthy summary |
| RankForJob.RankAll | app/api/rankForJob/route.ts:130-168 | The result is the per-row outcomes of the `map`, in row order, with the nulls dropped. Every entry is filed under the title and carries the id and full name of a fetched row |
| RankForJob.RankAllKeepsCvRows | app/api/rankForJob/route.ts:130-168 | When every CV downloads, there is one entry per row with a CV URL, and the k-th entry is exactly what the k-th such row gives |
| RankForJob.ExistingEntry | app/api/rankForJob/route.ts:109-123 | An already-ranked applicant is reported with its stored score, position and summary |
| RankForJob.AlreadyRanked | app/api/rankForJob/route.ts:109-123 | The already-ranked list holds only applicants filed under the job's title |
| RankForJob.RouteError | app/api/rankForJob/route.ts:176-182 | The 500 text quotes the message. It is the "Gemini API Error: …GOOGLE_API_KEY" form exactly when the message names an invalid key, a block or a permission problem, and "API Error: " plus the message otherwise |
| RankForJob.Post | app/api/rankForJob/route.ts:78-174 | A missing job id is a 400, and only then. An unknown job or a failed query is a 500 with no writes. With applicants to rank, one score is written per ranked entry, and the answer is the best ten ranked entries by descending score. With none, the answer is the best ten already ranked under the title, with nothing written |
| DraftEmail.Bullets | app/api/draftEmail/route.ts:51-52 | Each item becomes the line " - item", in order |
| DraftEmail.BulletListEmpty | app/api/draftEmail/route.ts:51-72 | The rendered list is empty exactly when there are no items, so the fallback sentence is used exactly then |
| DraftEmail.BulletListLines | app/api/draftEmail/route.ts:51-52 | Split at line breaks, a list of single-line items gives back one " - item" line per item |
| DraftEmail.ListOr | app/api/draftEmail/route.ts:72-91 | The fallback is used for no items, otherwise the bullet list |
| DraftEmail.Rendered | app/api/draftEmail/route.ts:51-52 | Each value is rendered as a template literal renders it, one for one, in order |
| DraftEmail.BuildEmailPrompt | app/api/draftEmail/route.ts:48-94 | The prompt builder:<br>- throws exactly when strengths or gaps are null;<br>- picks "offer" for the offer prompt, anything else for the rejection prompt;<br>- names the candidate by first and last name;<br>- signs with hrName when it is truthy, else "HR Team";<br>- names the joined title, else "the position";<br>- lists the strengths (offer) or gaps (rejection), with the fixed fallback sentence for an empty list |
| DraftEmail.PromptListsItems | app/api/draftEmail/route.ts:51-52 | The prompt lists each strength (offer) or gap (rejection) on its own " - " line, in order |
| DraftEmail.NewStatus | app/api/draftEmail/route.ts:133 | The status is "Offered" exactly for "offer" and "Rejected" otherwise |
| DraftEmail.Failed | app/api/draftEmail/route.ts:144 | A 500 text is "Drafting failed: " followed by exactly the message |
| DraftEmail.Post | app/api/draftEmail/route.ts:101-146 | A missing applicant id or email type is a 400, and only then. A status is written exactly when a draft is returned. A found row with both lists and a non-empty trimmed reply gives that trimmed reply as the draft, with "Offered" or "Rejected" written. A missing row, a null list, a failed call and an empty reply each give their own "Drafting failed: " 500 |
| ExtractCv.NullFields | app/api/extractCV/route.ts:96 | The four extracted fields start out null |
| ExtractCv.ErrorText | app/api/extractCV/route.ts:121-124 | A 500 text is "Server Error: " followed by exactly the message |
| ExtractCv.Post | app/api/extractCV/route.ts:17-125 | The route:<br>- answers 400 exactly for a missing file URL or applicant id;<br>- turns a failed download into a "Server Error: " 500;<br>- returns only non-empty OCR text from a downloaded file;<br>- answers the OCR text with null fields when the model fails or its reply does not parse;<br>- answers the text with the parsed reply's four fields when it parses to a value other than null;<br>- turns an unreadable CV into a 500 with the OCR message |
| CvChat.CandidateName | app/api/cvChat/route.ts:68-70 | The applicant is named by firstName + " " + lastName, or by "Applicant ID " and the id when there is no row |
| CvChat.MissingCvMessage | app/api/cvChat/route.ts:67-79 | A database error takes precedence and its text is returned as is. Otherwise the message names the applicant |
| CvChat.CvFailureMessage | app/api/cvChat/route.ts:90-95 | A CV failure message is the fixed prefix followed by a prefix of the error of at most 150 characters, which is the whole error when it is short enough |
| CvChat.AnswerText | app/api/cvChat/route.ts:137 | Only a missing reply gives "AI did not return any response."; a present one is trimmed |
| CvChat.Post | app/api/cvChat/route.ts:49-147 | A missing id or question is a 400, and only then. A database error or missing CV is answered with 200 and the message. A 500 comes only from a failed chat call |
| ApplicantsPage.PotentialScore | app/Applicants/page.tsx:62-70 | The potential band is always 95, 70 or 40. It is 95 exactly when a high phrase is present. It is 70 exactly when no high phrase but a moderate phrase is present, and 40 otherwise |
| ApplicantsPage.PersonalityScore | app/Applicants/page.tsx:72-80 | The personality band is always 90, 75 or 50. It is 90 exactly when a driving phrase is present. It is 75 exactly when no driving phrase but a cooperative phrase is present |
| ApplicantsPage.BandsIgnoreCase | app/Applicants/page.tsx:62-72 | Both bands read the text lower-cased, so the letter case of the input does not matter |
| ApplicantsPage.Pss | app/Applicants/page.tsx:83-85 | PSS is 0.5·m + 0.3·p + 0.2·q rounded half up to a whole number |
| ApplicantsPage.PssRange | app/Applicants/page.tsx:59-85 | For a matching score in 0..100, PSS lies in 22..97 |
| ApplicantsPage.PssMonotone | app/Applicants/page.tsx:83-85 | PSS never decreases as the matching score grows |
| ApplicantsPage.Format | app/Applicants/page.tsx:111-133 | Record defaulting:<br>- a missing status becomes "Applied" and a missing score 0;<br>- a missing employee id becomes the row id;<br>- names, gender and experience are never empty;<br>- the PSS is computed from the defaulted record |
| ApplicantsPage.FormatAll | app/Applicants/page.tsx:111-133 | Every row is formatted, one for one and in order |
| ApplicantsPage.Filtered | app/Applicants/page.tsx:171-186 | An applicant is listed exactly when it is in the input and matches. A set position or status constrains every result |
| ApplicantsPage.FilteredDefaults | app/Applicants/page.tsx:174-184 | An empty search with position and status at "All" lists everyone, in order |
| ApplicantsPage.SearchIgnoresCase | app/Applicants/page.tsx:174-178 | The search matches the same applicants whatever the letter case of the term |
| ApplicantsPage.PageRange | app/Applicants/page.tsx:216-224 | The range lo..hi is the consecutive integers from lo to hi |
| ApplicantsPage.PageWindowShape | app/Applicants/page.tsx:216-224 | The page window:<br>- holds at most five strictly consecutive pages, all in 1..totalPages;<br>- is exactly 1..totalPages when there are at most five pages;<br>- contains the current page whenever that page is real |
| ApplicantsPage.PushRange | app/Applicants/page.tsx:216-224 | The `push` loop appends the range lo..hi to the list |
| ApplicantsPage.PageNumbers | app/Applicants/page.tsx:216-224 | `getPageNumbers`, written as the loop the source runs, returns the page window |
| ApplicantsPage.Summary | app/Applicants/page.tsx:234-241 | "All" counts every applicant, and the five status counts together never exceed it |
| ApplicantsPage.CardsOfOne | app/Applicants/page.tsx:234-241 | An applicant is counted on at most one status card, and on exactly one when its status is one of the five |
| ApplicantsPage.SummaryTotal | app/Applicants/page.tsx:234-241 | The card counts add up to at most the total, and to exactly the total when every status is one of the five |
| ApplicantsPage.Present | app/Applicants/page.tsx:136-160 | The titles kept are exactly the present, non-empty ones |
| ApplicantsPage.PresentTitles | app/Applicants/page.tsx:136-160 | The same titles, each exactly once |
| ApplicantsPage.JobTitles | app/Applicants/page.tsx:136-160 | A title appears exactly when some applicant has that job title |
| ApplicantsPage.PositionOptions | app/Applicants/page.tsx:136-160 | The options are "All" followed by the titles, sorted and each once, which are exactly the present non-empty titles of applicants or jobs |
| ApplicantsPage.ApplicantsDashboard.constructor | app/Applicants/page.tsx:31-44 | The screen starts with no applicants, only "All" as an option, no filters, on page 1 |
| ApplicantsPage.ApplicantsDashboard.CurrentApplicants | app/Applicants/page.tsx:190-194 | A page holds at most ten applicants, and a real page is never empty |
| ApplicantsPage.ApplicantsDashboard.Load | app/Applicants/page.tsx:94-166 | The applicants become the formatted rows, or none on an error. The options are "All" and the merged titles, sorted and each once. Filters and page stay as they were |
| ApplicantsPage.ApplicantsDashboard.HandlePageChange | app/Applicants/page.tsx:226-228 | The page changes only to a page in 1..totalPages. Otherwise nothing changes |
| ApplicantsPage.ApplicantsDashboard.ResetFilters | app/Applicants/page.tsx:197-203 | The search is cleared and position and status go back to "All", so every applicant is listed |
| InformationPage.Filtered | app/Information/page.tsx:325-337 | An applicant is listed exactly when it is in the input and matches. A set status or gender constrains every result |
| InformationPage.FilteredDefaults | app/Information/page.tsx:325-337 | An empty search with both selects at "All" lists everyone, in order |
| InformationPage.SortAfterClick | app/Information/page.tsx:110-117 | Clicking the current field flips the direction. Clicking another field sorts by it ascending |
| InformationPage.ClickTwice | app/Information/page.tsx:110-117 | Clicking the current field twice restores the sort state |
| InformationPage.SortApplicants | app/Information/page.tsx:340-361 | The in-place sort permutes the applicants into ascending or descending order of the field's key |
| InformationPage.StoragePath | app/Information/page.tsx:237-238 | The path is the URL's second-to-last segment, "/", and its last segment |
| InformationPage.StoragePathRoundTrip | app/Information/page.tsx:237-238 | The path read from an uploaded file's public URL is the upload path `applicantId/fileName` |
| InformationPage.DeleteCvPlan | app/Information/page.tsx:236-247 | The CV URL is always cleared and the CV text row always deleted. The stored file is removed exactly when its path contains the applicant id |
| InformationPage.UploadedCvIsRemoved | app/Information/page.tsx:240-241 | Deleting an uploaded CV removes exactly the file that was uploaded |
| InformationPage.DefaultFormIncomplete | app/Information/page.tsx:286-306 | The reset form lacks the required fields, so it cannot be submitted unchanged |
| InformationPage.EditPayload | app/Information/page.tsx:271 | The update payload is every edit-form field except `id` and `job_descriptions`, with their values |
| InformationPage.NextPageReachesZero | app/Information/page.tsx:618 | As written, the next button sends an empty list to page 0 |
| InformationPage.NextPageClamped | app/Information/page.tsx:618 | The corrected next button stays on a real page, or page 1, and advances when it can |
| InformationPage.ButtonsStayOnPages | app/Information/page.tsx:608-618 | Prev and the corrected next stay within 1..max(totalPages, 1) |
| InformationPage.CvManagement.constructor | app/Information/page.tsx:35-89 | The screen starts empty, sorted by id ascending, on page 1, with no pending action and the default forms |
| InformationPage.CvManagement.View | app/Information/page.tsx:325-367 | The displayed list is a permutation of the filtered applicants, sorted by the current field and direction. The page is its slice of at most ten |
| InformationPage.CvManagement.HandleSort | app/Information/page.tsx:110-117 | The sort state follows SortAfterClick. Nothing else changes |
| InformationPage.CvManagement.HandleDeleteCv | app/Information/page.tsx:231-234 | The deletion is recorded as the pending action and the modal opens. Nothing is deleted yet |
| InformationPage.CvManagement.HandleConfirm | app/Information/page.tsx:124-130 | A pending deletion runs exactly when one is present. The modal then always closes and the action is cleared |
| InformationPage.CvManagement.CancelConfirm | app/Information/page.tsx:778 | Cancelling only hides the modal |
| InformationPage.CvManagement.HandleAddApplicant | app/Information/page.tsx:284-310 | The form is inserted exactly when the required fields are filled. On success the form resets and the modal closes. Otherwise an alert is shown and the form is kept |
| InformationPage.CvManagement.HandleEditSave | app/Information/page.tsx:270-281 | The payload never holds `id` or `job_descriptions`. The modal stays open only after a failed update |
| InformationPage.CvManagement.GoToPreviousPage | app/Information/page.tsx:608 | The page decreases and never falls below 1 |
| InformationPage.CvManagement.GoToNextPage | app/Information/page.tsx:618 | The corrected next button never falls below page 1 |
| Skills.TrimmedParts | app/JobDescription/page.tsx:555-563 | Every part is trimmed and comma-free |
| Skills.ParseSkills | app/JobDescription/page.tsx:555-563 | Every parsed skill is non-empty, trimmed and comma-free |
| Skills.TrimJoined | app/JobDescription/page.tsx:555-563 | Splitting and trimming a joined line gives back the non-empty list |
| Skills.ParseJoin | app/JobDescription/page.tsx:555-563 | Reading back a list joined with ", " gives the list, for non-empty, trimmed, comma-free skills |
| Skills.ParseEmpty | app/JobDescription/create/page.tsx:58-69 | An empty line holds no skills |
| JobBoardPage.Options | app/JobDescription/page.tsx:62-73 | An option list is "All" followed by exactly the values, each once |
| JobBoardPage.OptionsInOrder | app/JobDescription/page.tsx:62-73 | The options follow the order in which the values first occur |
| JobBoardPage.FilteredJobs | app/JobDescription/page.tsx:76-97 | A job is listed exactly when it is in the input and matches. Each set select constrains every result |
| JobBoardPage.FilteredDefaults | app/JobDescription/page.tsx:76-97 | With no search and every select at "All", the list is all jobs in order |
| JobBoardPage.UpdateOf | app/JobDescription/page.tsx:555-588 | The update carries the parsed skill lines and the edited job's other columns |
| JobBoardPage.ReplaceById | app/JobDescription/page.tsx:591-595 | The saved job replaces exactly the entries with its id. Every other entry stays in its place |
| JobBoardPage.ReplaceTwice | app/JobDescription/page.tsx:591-595 | Saving the same job twice is the same as saving it once |
| JobBoardPage.SaveUntouched | app/JobDescription/page.tsx:555-563 | Opening a job and saving without edits writes its skills back unchanged |
| JobBoardPage.JobBoard.constructor | app/JobDescription/page.tsx:26-43 | The board starts empty, with no filters, on page 1, with the modal closed |
| JobBoardPage.JobBoard.Load | app/JobDescription/page.tsx:47-58 | On success the jobs become the rows (none for null) and the error is cleared. On failure the error is shown and the jobs are kept |
| JobBoardPage.JobBoard.CurrentJobs | app/JobDescription/page.tsx:100-102 | A page holds at most six jobs, and a real page is never empty |
| JobBoardPage.JobBoard.SetSearchTerm | app/JobDescription/page.tsx:184 | Only the search changes, and the page goes back to 1 |
| JobBoardPage.JobBoard.SetDepartment | app/JobDescription/page.tsx:208 | Only the department changes, and the page goes back to 1 |
| JobBoardPage.JobBoard.SetLocation | app/JobDescription/page.tsx:229 | Only the location changes, and the page goes back to 1 |
| JobBoardPage.JobBoard.SetJobType | app/JobDescription/page.tsx:250 | Only the job type changes, and the page goes back to 1 |
| JobBoardPage.JobBoard.ResetFilters | app/JobDescription/page.tsx:105-111 | Every select goes back to "All", the search to "" and the page to 1, so every job is listed |
| JobBoardPage.JobBoard.GoToPreviousPage | app/JobDescription/page.tsx:397 | From a real page, prev stays on a real page |
| JobBoardPage.JobBoard.GoToPage | app/JobDescription/page.tsx:411 | A numbered button shows its page, which is never empty |
| JobBoardPage.JobBoard.GoToNextPage | app/JobDescription/page.tsx:423 | From a real page, next stays on a real page |
| JobBoardPage.JobBoard.HandleDelete | app/JobDescription/page.tsx:114-121 | On success, exactly the jobs with that id are removed and the rest keep their order. On error the list is unchanged and the error is shown |
| JobBoardPage.JobBoard.HandleOpenUpdate | app/JobDescription/page.tsx:124-129 | The edited job is recorded and its skills are written as ", "-joined lines |
| JobBoardPage.JobBoard.HandleCloseModal | app/JobDescription/page.tsx:132-137 | The edit state is cleared and the jobs are untouched |
| JobBoardPage.JobBoard.HandleSave | app/JobDescription/page.tsx:552-597 | Nothing is saved without an edited job. The update is built from the edited job and the skill lines. Only a successful update replaces the job in the list; a failure alerts and keeps the list |
| JobBoardPage.JobBoard.ReplaceEdited | app/JobDescription/page.tsx:590-596 | The saved job replaces its entries in the list and the modal state is cleared |
| JobCreatePage.EmptyForm | app/JobDescription/create/page.tsx:10-24 | Every field starts empty |
| JobCreatePage.Set | app/JobDescription/create/page.tsx:29-36 | Only the named field changes |
| JobCreatePage.SetTwice | app/JobDescription/create/page.tsx:29-36 | Typing a field twice keeps only the last value |
| JobCreatePage.NullIfEmpty | app/JobDescription/create/page.tsx:54-55 | An empty date is null and any other date passes through unchanged |
| JobCreatePage.SkillsOf | app/JobDescription/create/page.tsx:58-69 | An empty line gives no skills. Every skill is non-empty, trimmed and comma-free |
| JobCreatePage.SkillsOfIsParse | app/JobDescription/create/page.tsx:58-69 | The empty-line guard agrees with plain parsing, so the form and the board read skill lines alike |
| JobCreatePage.PayloadOf | app/JobDescription/create/page.tsx:48-72 | Each form field lands in its own column. Empty dates become null and the skill lines become lists |
| JobCreatePage.EditChangesOneColumn | app/JobDescription/create/page.tsx:29-72 | Editing one field changes no column of the payload read from another field |
| JobCreatePage.EmptyPayload | app/JobDescription/create/page.tsx:10-72 | An untouched form is inserted with null dates and no skills |
| JobCreatePage.JobCreateForm.constructor | app/JobDescription/create/page.tsx:10-27 | The form starts empty, with the modal closed |
| JobCreatePage.JobCreateForm.HandleInputChange | app/JobDescription/create/page.tsx:29-36 | Only the named field takes the new value |
| JobCreatePage.JobCreateForm.OpenModal | app/JobDescription/create/page.tsx:42 | The modal opens and the form is kept |
| JobCreatePage.JobCreateForm.CloseModal | app/JobDescription/create/page.tsx:43 | The modal closes and the form is kept |
| JobCreatePage.JobCreateForm.HandleModalConfirm | app/JobDescription/create/page.tsx:45-86 | The modal closes before the insert. The payload is built from the form. The browser goes back to the board only when the insert succeeded, and the alert says which happened |
| DashboardPage.WeekStartShift | app/page.tsx:39-46 | The shift lies in -6..0 and lands on a Monday |
| DashboardPage.ShiftLandsOnMonday | app/page.tsx:39-46 | Every day shifted by its week-start shift is a Monday |
| DashboardPage.NoMondayWithinWeek | app/page.tsx:39-46 | No other Monday falls within the six days after a Monday |
| DashboardPage.StartOfWeek | app/page.tsx:39-46 | The week start:<br>- is a midnight;<br>- falls within the seven days up to the instant;<br>- is a Monday;<br>- is the latest Monday not after the instant |
| DashboardPage.NewThisWeek | app/page.tsx:48-56 | The count is at most the number of applicants, and is zero exactly when none was created between the start of the week and now |
| DashboardPage.NewThisWeekSingle | app/page.tsx:48-56 | One applicant counts once exactly when created between the start of the week and now, both included |
| DashboardPage.NewThisWeekAppend | app/page.tsx:48-56 | The count of two lists is the sum of their counts |
| DashboardPage.CreatedNowAreNew | app/page.tsx:48-56 | Applicants created at the current instant are all counted as new this week |
| DashboardPage.Normalize | app/page.tsx:82-83 | A missing or empty status becomes "applied". Any other is trimmed and then lower-cased, so every normalised value is trimmed and lower-case |
| DashboardPage.NormalizeIdempotent | app/page.tsx:82-83 | Normalising a normalised value changes nothing |
| DashboardPage.FromRow | app/page.tsx:73-85 | Status and stage are normalised; the other fields are copied |
| DashboardPage.FromRows | app/page.tsx:73-85 | Every row is converted, one for one and in order |
| DashboardPage.StageClick | app/page.tsx:143-144 | Clicking the selected stage returns to "all". Clicking another stage selects it |
| DashboardPage.ClickStageTwice | app/page.tsx:143-144 | Clicking a stage twice from "all" returns to "all" |
| DashboardPage.SetFilter | app/page.tsx:146-147 | Only the named filter changes |
| DashboardPage.ExperienceBuckets | app/page.tsx:166-170 | "10+" means at least 10 and "1-9" means 1 to 9. The buckets are disjoint, and 0 or a value between 9 and 10 matches neither |
| DashboardPage.Filtered | app/page.tsx:160-176 | An applicant is listed exactly when it is in the input and matches. A set gender or position constrains every result |
| DashboardPage.ClearedShowsAll | app/page.tsx:149-176 | With filters cleared and stage "all", every applicant is listed in order |
| DashboardPage.StatusList | app/page.tsx:190-195 | The table for a status lists exactly the applicants whose lower-cased status is it |
| DashboardPage.StatusCount | app/page.tsx:179-187 | A status count is the size of its table and at most the total |
| DashboardPage.CardTotalBound | app/page.tsx:179-187 | The four status cards together never count more than the total |
| DashboardPage.InterviewedShownGray | app/page.tsx:206-213 | As written, the normalised "interviewed" and "offered" get the gray of unknown statuses |
| DashboardPage.StatusColor | app/page.tsx:206-213 | The corrected colour is the colour of the table that lists the lower-cased status, and grey for a status no table lists |
| DashboardPage.TableColorsAgree | app/page.tsx:436-439 | Every applicant in a status table is drawn in that table's colour |
| DashboardPage.PositionLostAsWritten | app/page.tsx:111-114 | As written, an applicant's position is lost once the job titles load |
| DashboardPage.PositionOptions | app/page.tsx:88-114 | The corrected options are "All" followed by exactly the non-empty positions and titles, each once |
| DashboardPage.GreetingName | app/page.tsx:310 | The greeting is "Guest" when there is no name. Otherwise it is the name's first word: a prefix with no space, ending at the name's end or at a space |
| DashboardPage.SplitFirstPrefix | app/page.tsx:310 | The first piece of a split is a prefix of the string, ending at its end or at a separator |
| DashboardPage.Dashboard.constructor | app/page.tsx:24-33 | The dashboard starts with no applicants, no open positions, options ["All"], stage "all", no filters, loading |
| DashboardPage.Dashboard.Load | app/page.tsx:59-121 | On load:<br>- the applicants become the normalised rows, or none on an error;<br>- open positions is the number of jobs read;<br>- the options are the corrected merge;<br>- loading ends |
| DashboardPage.Dashboard.Figures | app/page.tsx:48-56 | The three cards show the new-this-week count, the number of open positions and the total, and the first is at most the total |
| DashboardPage.Dashboard.HandleStageClick | app/page.tsx:143-144 | The stage follows StageClick, and the filters are kept |
| DashboardPage.Dashboard.HandleFilterChange | app/page.tsx:146-147 | Only the named filter changes |
| DashboardPage.Dashboard.ClearAllFilters | app/page.tsx:149-152 | Every filter goes back to "All" and the stage to "all", so no filter is active and every applicant is listed |
| AiMatchingPage.LabelInjective | app/AiMatching/page.tsx:54 | Each "n years" label names one number of years |
| AiMatchingPage.ExperienceChoice | app/AiMatching/page.tsx:54 | Choosing "k years" keeps exactly the candidates with k years |
| AiMatchingPage.SetFilter | app/AiMatching/page.tsx:72-75 | Only the named select changes |
| AiMatchingPage.ScoreRangesPartition | app/AiMatching/page.tsx:58-62 | The four inclusive ranges are disjoint, cover every score from 60 to 100, and hold no score outside it |
| AiMatchingPage.Filtered | app/AiMatching/page.tsx:51-66 | A candidate is listed exactly when it is in the input and matches |
| AiMatchingPage.NoFiltersShowsAll | app/AiMatching/page.tsx:51-66 | With every select at "All", every candidate is listed in order |
| AiMatchingPage.ScoreBand | app/AiMatching/page.tsx:81-86 | The bands are at least 90, at least 80, at least 70, and the rest |
| AiMatchingPage.ScoreBandMonotone | app/AiMatching/page.tsx:81-86 | A higher score never gets a lower band |
| AiMatchingPage.ScoreColor | app/AiMatching/page.tsx:81-86 | The colour is the one of the score's band |
| AiMatchingPage.CandidatesInRanges | app/AiMatching/page.tsx:40-62 | Every fixed candidate scores from 60 to 100, so it falls in exactly one range |
| AiMatchingPage.AiMatching.constructor | app/AiMatching/page.tsx:40-49 | The screen starts with the fixed candidates, no filters, on page 1 |
| AiMatchingPage.AiMatching.CurrentCandidates | app/AiMatching/page.tsx:68-70 | A page holds at most six candidates, and a real page is never empty |
| AiMatchingPage.AiMatching.HandleFilterChange | app/AiMatching/page.tsx:72-75 | Only the named select changes and the page goes back to 1, which shows cards whenever any candidate matches |
| AiMatchingPage.AiMatching.HandlePageChange | app/AiMatching/page.tsx:77-79 | Only a page in 1..totalPages is accepted. From a real page the screen stays on a real page |
| CvSummaryPage.Search | app/CVSummary/page.tsx:93-102 | A candidate is kept exactly when the term, in any letter case, is in its name or applicant id |
| CvSummaryPage.EmptySearchKeepsAll | app/CVSummary/page.tsx:93-102 | An empty search keeps every candidate, in order |
| CvSummaryPage.StatusColor | app/CVSummary/page.tsx:104-112 | The four options have their colours, and any other status gets "bg-gray-500" |
| CvSummaryPage.StatusColorIsCaseSensitive | app/CVSummary/page.tsx:104-112 | The lookup is exact: a status in other letter case gets the default |
| CvSummaryPage.CsvLines | app/CVSummary/page.tsx:129-141 | There are eleven lines, the first "Field,Value" |
| CvSummaryPage.BlobText | app/CVSummary/page.tsx:143 | The blob is a byte-order mark followed by the CSV text |
| CvSummaryPage.CsvReadsBack | app/CVSummary/page.tsx:129-141 | Split at line breaks, the CSV of a candidate without line breaks in its fields gives back its eleven lines, with the strengths joined by "; " |
| CvSummaryPage.ExportFileName | app/CVSummary/page.tsx:146 | The name is "CV_", then the candidate's name with each white-space character made "_", then ".csv" |
| CvSummaryPage.CvSummary.constructor | app/CVSummary/page.tsx:81-91 | The screen starts with every candidate listed, the first selected and nothing pending |
| CvSummaryPage.CvSummary.SetSearchTerm | app/CVSummary/page.tsx:93-102 | Typing re-filters the fixed list. The selection is kept |
| CvSummaryPage.CvSummary.SelectFirstMatch | app/CVSummary/page.tsx:173-175 | The first match is selected when there is one |
| CvSummaryPage.CvSummary.HandleStatusChange | app/CVSummary/page.tsx:115-117 | Only the pending status is recorded and the modal shown. The candidate is unchanged |
| CvSummaryPage.CvSummary.ConfirmStatusChange | app/CVSummary/page.tsx:119-124 | Only the candidate's status changes, to a non-empty pending value. Then nothing is pending and the modal is hidden |
| CvSummaryPage.CvSummary.CancelStatusChange | app/CVSummary/page.tsx:126 | Nothing is pending and the candidate is unchanged |
| CvSummaryPage.CvSummary.Export | app/CVSummary/page.tsx:128-148 | The file's name and text come from the selected candidate |
| ListView.TotalPages | app/Applicants/page.tsx:191 | `Math.ceil(n / perPage)` is the fewest pages that hold n items |
| ListView.PageItems | app/Applicants/page.tsx:192-194 | A page holds at most perPage items. A page that starts inside the list holds perPage items, or the rest of the list on the last page, and one past the end is empty |
| ListView.ItemOnPage | app/Applicants/page.tsx:190-194 | Item i is shown on page i / perPage + 1, at position i % perPage, and that page is a real page |
| ListView.PrevPage | app/JobDescription/page.tsx:397 | `Math.max(p - 1, 1)`: the page before, or page 1 from page 1 or below |
| ListView.NextPage | app/JobDescription/page.tsx:423 | `Math.min(p + 1, totalPages)`: the page after, or totalPages from the last page or beyond |
| ListView.PrevNextInRange | app/JobDescription/page.tsx:397-423 | From a page in 1..totalPages, both buttons stay in 1..totalPages |
| ListView.Distinct | app/JobDescription/page.tsx:62-73 | `Array.from(new Set(s))` holds exactly the values of s, each once |
| ListView.NoDuplicatesPermutation | app/Applicants/page.tsx:149-159 | Sorting a list whose values are each there once leaves each value there once |
| ListView.DistinctOrder | app/JobDescription/page.tsx:62-73 | Its values keep the order of their first occurrence |
| ListView.FilterConcat | app/Applicants/page.tsx:171-186 | Filtering keeps the order of the list |
| Sorting.InsertionSort | app/Information/page.tsx:340-361 | The in-place sort leaves the array sorted by the comparator and a permutation of what it held |
| Sorting.SortByScoreDescending | app/api/rankForJob/route.ts:171-172 | Sorting a copy by descending score gives a permutation in non-increasing score order |
| Sorting.TopByScore | app/api/aiMatch/route.ts:187-188 | The top ten hold min(10, n) entries in non-increasing order, taken from the input. No entry left out scores more than one kept |
| ListView.Compact | app/api/aiMatch/route.ts:185 | `filter(r => r !== null)` keeps exactly the present values |
| ListView.CompactAppend | app/api/aiMatch/route.ts:185 | Dropping the nulls keeps the order of the list |
| ListView.CompactAllPresent | app/api/aiMatch/route.ts:185 | A list without nulls loses nothing: every value, in order |
| JsValue.ParseIntDecimal | app/api/aiMatch/route.ts:70 | `parseInt` reads back every safe integer that `String` writes |
| JsValue.Get | app/api/aiMatch/route.ts:69-70 | Reading a property throws exactly on `null` and `undefined`, and otherwise yields the field's value |

## Left out

- The Supabase client, storage, `fetch`, Google Vision and Gemini are not part of this model. Their answers are inputs: outcome datatypes or function parameters.
- Prompt wording is not modelled, apart from which prompt is chosen and what is filled in.
- `JSON.parse` is a function parameter, not a JSON parser.
- `Number()` and `Date` parsing are also inputs.
- `Promise.all` over the applicants runs as a sequential map. The per-applicant calls share no state, so only their results and writes matter.
- Strings are sequences of characters. `toLowerCase`, `trim` and the regular expression `\s` are ASCII-only: there is no Unicode case folding or Unicode white space.
- Numbers are integers, and `String` of an integer is its plain decimal numeral; that holds for safe integers, while `String` switches to exponent form at 1e21 and doubles lose precision beyond 2^53. The exception is the dashboard's experience filter, which reads `Number(...)` as finite or not-a-number. There is no floating point.
- ApplicantsPage.Pss: computed in exact tenths with rounding half up, not in IEEE double arithmetic. The two agree for whole-number inputs in the range the screen uses, but that agreement is not proved.
- DashboardPage.StartOfWeek: dates are milliseconds on a uniform local time line of 86,400,000-ms days. There are no time zones and no daylight-saving shifts.
- RankForJob.Post: the ordering key `matching_score || 0` treats a non-number score as 0 instead of following JavaScript's coercion of strings in subtraction.
- InformationPage.SortApplicants: the model's sort key reads a null email or phone as "". The source does not: when one value is a string and the other is null, `bVal.toLowerCase()` throws a TypeError and the sort crashes, and a null first value is compared by JavaScript's coercion. Neither behaviour is modelled. The source's comparator never returns 0, so tie order is not modelled either; the contract states only a sorted permutation.
- Every route reads its body with `await req.json()`. A malformed body throws there, and the route's `catch` turns it into a 500. The Post methods take the already-read fields, so this 500 is not modelled.
- Sorting.TopByScore: JavaScript's `sort` is stable, so equal scores keep their order. The contract pins the entries kept and their score order, but not the order among equal scores.
- Sorting.SortByScoreDescending: a permutation in non-increasing score order; the order among equal scores that a stable sort keeps is not pinned.
- AiMatch.JobToApplicants: the top ten are pinned through Sorting.TopByScore, so the order among equal scores is not pinned.
- AiMatch.ApplicantToJobs: the ranked jobs are a permutation in non-increasing score order; the order among equal scores is not pinned.
- RankForJob.Post: the fresh and existing answers are pinned through Sorting.TopByScore, so the order among equal scores is not pinned.
- AiMatch.ApplicantsToProcess: `.limit(10)` without `.order` leaves the database's row order unspecified; the model takes the table's order.
- RankForJob.ApplicantsToRank: as for AiMatch.ApplicantsToProcess, the model takes the table's order for the ten rows fetched.
- JobBoardPage.JobBoard.GoToNextPage: requires more than one page, because the source renders the buttons only then.
- JobCreatePage.JobCreateForm.HandleInputChange: the changed field is one of the form's thirteen names. An event from an input with any other name is not modelled.
- DashboardPage.Dashboard.HandleFilterChange: the filter name is one of the three selects' names.
- CvChat.AnswerText: uses `??`, so an empty reply is kept as "". This follows the source.
- AiMatchingPage.Filtered: scores and years are whole numbers, as in the fixed candidate list.
- DashboardPage.FromRow: a null position is read as "".
- The dashboard's `filteredApplicants` is computed but not rendered. It is modelled (DashboardPage.Filtered) for its filter semantics only.
- The dashboard's stage keys "interview" and "offer" never match the normalised statuses either, the same mismatch as the colour finding.
- Display-only state is not modelled: the CV detail record on the summary screen, show/hide toggles, `window.print`, `router.back`, date and locale formatting.
- Not modelled, as network plumbing around a single storage call:
  - the Information screen's file-upload handler;
  - its applicant delete.
- `app/api/matchCVtoJD/route.ts`, the sign-in, login, landing and forgot-password pages, `app/jobs/[id]/page.tsx`, the navigation bar, the layout and the `lib` clients are not part of this model.

## Findings

| source | as written | input that shows it | evidently intended | confidence | as-written member | corrected member |
|---|---|---|---|---|---|---|
| app/Information/page.tsx:618 | The next button sets the page to `Math.min(totalPages, p + 1)`, and the pagination bar is always rendered | A search that matches nothing (totalPages = 0), then next: the page becomes 0 | The page stays at 1 or more | not executed | InformationPage.NextPageReachesZero | InformationPage.NextPageClamped, InformationPage.ButtonsStayOnPages (used by CvManagement.GoToNextPage) |
| app/page.tsx:206-213 | `getStatusColor` has cases "interview" and "offer", but statuses are normalised to "interviewed" and "offered" | Status "Interviewed": normalised to "interviewed", which falls through to gray | Each status table's own colour (purple for interviewed, green for offered) | not executed | DashboardPage.InterviewedShownGray | DashboardPage.StatusColor, DashboardPage.TableColorsAgree |
| app/page.tsx:111-114 | The job-title merge reads `positionsOptions` from the effect's closure, which still holds the initial ["All"] | Applicants with position "Engineer" and a job list without it: "Engineer" disappears from the options | The options hold both the applicants' positions and the job titles | not executed | DashboardPage.PositionLostAsWritten | DashboardPage.PositionOptions (used by Dashboard.Load) |
