/** The "All Applicants" dashboard: it loads every applicant with the title
    of the job they applied for, scores each with the PSS (a weighted mix of
    the matching score and two bands read from the AI's prediction and
    personality texts), and shows them filtered by a search term, a position
    and a status, ten to a page. The database reads are inputs. */
module ApplicantsPage {
  import opened Wrappers
  import opened Text
  import opened JsValue
  import opened ListView
  import Sorting

  const ItemsPerPage := 10
  const MaxPageButtons := 5

  /** The potential band: 95 for a high potential, 70 for a moderate one,
      40 otherwise; the first matching phrase wins, in any letter case. */
  function PotentialScore(prediction: string): (score: int)
    ensures score == 95 || score == 70 || score == 40
    ensures score == 95 <==>
      var t := Lower(prediction);
      Contains(t, "high potential") || Contains(t, "senior ready") || Contains(t, "excellent growth")
    ensures score == 70 <==>
      var t := Lower(prediction);
      && !(Contains(t, "high potential") || Contains(t, "senior ready") || Contains(t, "excellent growth"))
      && (Contains(t, "moderate potential") || Contains(t, "stable growth"))
  {
    var t := Lower(prediction);
    if Contains(t, "high potential") || Contains(t, "senior ready") || Contains(t, "excellent growth") then 95
    else if Contains(t, "moderate potential") || Contains(t, "stable growth") then 70
    else 40
  }

  /** The personality band: 90 for a driving trait, 75 for a cooperative
      one, 50 otherwise; the first matching phrase wins, in any letter case. */
  function PersonalityScore(inference: string): (score: int)
    ensures score == 90 || score == 75 || score == 50
    ensures score == 90 <==>
      var t := Lower(inference);
      Contains(t, "result-oriented") || Contains(t, "decisive") || Contains(t, "leadership")
    ensures score == 75 <==>
      var t := Lower(inference);
      && !(Contains(t, "result-oriented") || Contains(t, "decisive") || Contains(t, "leadership"))
      && (Contains(t, "team-oriented") || Contains(t, "collaborative") || Contains(t, "detail-oriented"))
  {
    var t := Lower(inference);
    if Contains(t, "result-oriented") || Contains(t, "decisive") || Contains(t, "leadership") then 90
    else if Contains(t, "team-oriented") || Contains(t, "collaborative") || Contains(t, "detail-oriented") then 75
    else 50
  }

  /** The bands ignore letter case: a text and its lower-case form score
      the same. */
  lemma BandsIgnoreCase(text: string)
    ensures PotentialScore(Lower(text)) == PotentialScore(text)
    ensures PersonalityScore(Lower(text)) == PersonalityScore(text)
  {
    LowerIdempotent(text);
  }

  /** `Math.round(0.5 * match + 0.3 * potential + 0.2 * personality)`, in
      tenths: the nearest whole number, halves rounded up. */
  function Pss(matching: int, potential: int, personality: int): (pss: int)
    ensures 10 * pss <= 5 * matching + 3 * potential + 2 * personality + 5 < 10 * pss + 10
  {
    (5 * matching + 3 * potential + 2 * personality + 5) / 10
  }

  /** For a matching score between 0 and 100 the PSS lies between 22 (no
      match, both bands lowest) and 97 (full match, both bands highest). */
  lemma PssRange(matching: int, prediction: string, inference: string)
    requires 0 <= matching <= 100
    ensures 22 <= Pss(matching, PotentialScore(prediction), PersonalityScore(inference)) <= 97
  {
  }

  /** A higher matching score never lowers the PSS. */
  lemma PssMonotone(m1: int, m2: int, potential: int, personality: int)
    requires m1 <= m2
    ensures Pss(m1, potential, personality) <= Pss(m2, potential, personality)
  {
  }

  /** An applicant row as the join query returns it; `None` is a null or
      missing column. */
  datatype RawApplicant = RawApplicant(
    id: string,
    empId: Option<string>,
    firstName: Option<string>,
    lastName: Option<string>,
    gender: Option<string>,
    experience: Option<string>,
    jobTitle: Option<string>,
    matchingScore: Option<int>,
    status: Option<string>,
    potentialPrediction: Option<string>,
    personalityInference: Option<string>)

  /** An applicant as the page holds it. */
  datatype Applicant = Applicant(
    id: string,
    empId: string,
    firstName: string,
    lastName: string,
    gender: string,
    experience: string,
    jobTitle: Option<string>,
    matchingScore: int,
    status: string,
    potentialPrediction: string,
    personalityInference: string,
    pss: int)

  /** The PSS of an applicant: its matching score and the two bands. */
  function CalculatePss(a: Applicant): int
  {
    Pss(a.matchingScore, PotentialScore(a.potentialPrediction), PersonalityScore(a.personalityInference))
  }

  /** `a || "-"` and the other defaults of the page: empty or null names
      show as "-", the employee id falls back to the row id, a missing
      status is "Applied", a missing score 0; the PSS is computed from
      the defaulted record. */
  function Format(raw: RawApplicant): (a: Applicant)
    ensures a.id == raw.id
    ensures raw.empId.Some? && raw.empId.value != "" ==> a.empId == raw.empId.value
    ensures raw.empId.None? || raw.empId.value == "" ==> a.empId == raw.id
    ensures a.firstName != "" && a.lastName != "" && a.gender != "" && a.experience != ""
    ensures raw.firstName.Some? && raw.firstName.value != "" ==> a.firstName == raw.firstName.value
    ensures raw.lastName.Some? && raw.lastName.value != "" ==> a.lastName == raw.lastName.value
    ensures raw.status.Some? && raw.status.value != "" ==> a.status == raw.status.value
    ensures raw.status.None? || raw.status.value == "" ==> a.status == "Applied"
    ensures a.matchingScore == if raw.matchingScore.Some? then raw.matchingScore.value else 0
    ensures a.jobTitle == raw.jobTitle
    ensures a.pss == CalculatePss(a)
    ensures 0 <= a.matchingScore <= 100 ==> 22 <= a.pss <= 97
  {
    var a := Applicant(
      raw.id,
      OrString(raw.empId, raw.id),
      OrString(raw.firstName, "-"),
      OrString(raw.lastName, "-"),
      OrString(raw.gender, "-"),
      OrString(raw.experience, "-"),
      raw.jobTitle,
      if raw.matchingScore.Some? then raw.matchingScore.value else 0,
      OrString(raw.status, "Applied"),
      OrString(raw.potentialPrediction, ""),
      OrString(raw.personalityInference, ""),
      0);
    assert 0 <= a.matchingScore <= 100 ==> 22 <= CalculatePss(a) <= 97 by {
      if 0 <= a.matchingScore <= 100 {
        PssRange(a.matchingScore, a.potentialPrediction, a.personalityInference);
      }
    }
    a.(pss := CalculatePss(a))
  }

  function FormatAll(rows: seq<RawApplicant>): (r: seq<Applicant>)
    ensures |r| == |rows|
    ensures forall i :: 0 <= i < |rows| ==> r[i] == Format(rows[i])
  {
    seq(|rows|, i requires 0 <= i < |rows| => Format(rows[i]))
  }

  /** `a.job_descriptions?.title || ""`. */
  function TitleOf(a: Applicant): string
  {
    OrString(a.jobTitle, "")
  }

  /** The page's filter: the search term, in any letter case, inside the
      first name, the employee id or the job title; and the position and
      status, unless "All". */
  predicate Matches(a: Applicant, search: string, position: string, status: string)
  {
    var term := Lower(search);
    && (search == ""
        || Contains(Lower(a.firstName), term)
        || Contains(Lower(a.empId), term)
        || Contains(Lower(TitleOf(a)), term))
    && (position == "All" || TitleOf(a) == position)
    && (status == "All" || a.status == status)
  }

  function Filtered(all: seq<Applicant>, search: string, position: string, status: string): (r: seq<Applicant>)
    ensures forall a :: a in r <==> a in all && Matches(a, search, position, status)
    ensures position != "All" ==> forall a :: a in r ==> TitleOf(a) == position
    ensures status != "All" ==> forall a :: a in r ==> a.status == status
  {
    Filter(all, a => Matches(a, search, position, status))
  }

  /** With an empty search and both filters on "All" nothing is filtered
      out, and the order is kept. */
  lemma FilteredDefaults(all: seq<Applicant>)
    ensures Filtered(all, "", "All", "All") == all
  {
    FilterAll(all, a => Matches(a, "", "All", "All"));
  }

  /** The search ignores letter case. */
  lemma SearchIgnoresCase(a: Applicant, search: string, position: string, status: string)
    requires search != ""
    ensures Matches(a, Lower(search), position, status) == Matches(a, search, position, status)
  {
    LowerIdempotent(search);
  }

  /** The spec of the page-number buttons: at most five consecutive pages. */
  function PageRange(lo: int, hi: int): (r: seq<int>)
    ensures |r| == if lo <= hi then hi - lo + 1 else 0
    ensures forall i :: 0 <= i < |r| ==> r[i] == lo + i
  {
    seq(if lo <= hi then hi - lo + 1 else 0, i => lo + i)
  }

  function PageWindow(current: int, total: nat): seq<int>
  {
    if total <= MaxPageButtons then PageRange(1, total)
    else if current <= 3 then PageRange(1, MaxPageButtons)
    else if current >= total - 2 then PageRange(total - MaxPageButtons + 1, total)
    else PageRange(current - 2, current + 2)
  }

  /** The buttons are at most five consecutive pages, all of them real
      pages; every page when there are five or fewer, exactly five
      otherwise; and the current page, when it is a real page, is among
      them. */
  lemma PageWindowShape(current: int, total: nat)
    ensures var w := PageWindow(current, total);
      && |w| == (if total <= MaxPageButtons then total else MaxPageButtons)
      && (forall i :: 0 <= i < |w| ==> 1 <= w[i] <= total)
      && (forall i :: 0 < i < |w| ==> w[i] == w[i - 1] + 1)
      && (total <= MaxPageButtons ==> forall i :: 0 <= i < |w| ==> w[i] == i + 1)
      && (1 <= current <= total ==> current in w)
  {
    var w := PageWindow(current, total);
    if 1 <= current <= total {
      var lo := if total <= MaxPageButtons || current <= 3 then 1
                else if current >= total - 2 then total - MaxPageButtons + 1
                else current - 2;
      assert w[current - lo] == current;
    }
  }

  /** `for (let i = lo; i <= hi; i++) pages.push(i)`. */
  method PushRange(pages: seq<int>, lo: int, hi: int) returns (r: seq<int>)
    ensures r == pages + PageRange(lo, hi)
  {
    r := pages;
    var i := lo;
    while i <= hi
      invariant lo <= hi ==> lo <= i <= hi + 1
      invariant lo > hi ==> i == lo
      invariant r == pages + PageRange(lo, i - 1)
    {
      r := r + [i];
      i := i + 1;
    }
  }

  /** `getPageNumbers`. */
  method PageNumbers(current: int, total: nat) returns (pages: seq<int>)
    ensures pages == PageWindow(current, total)
  {
    pages := [];
    if total <= MaxPageButtons {
      pages := PushRange(pages, 1, total);
    } else if current <= 3 {
      pages := PushRange(pages, 1, MaxPageButtons);
    } else if current >= total - 2 {
      pages := PushRange(pages, total - MaxPageButtons + 1, total);
    } else {
      pages := PushRange(pages, current - 2, current + 2);
    }
  }

  /** The counts on the summary cards. */
  datatype StatusSummary = StatusSummary(all: nat, applied: nat, shortlisted: nat, interviewed: nat, offered: nat, rejected: nat)

  function HasStatus(status: string): Applicant -> bool
  {
    (a: Applicant) => a.status == status
  }

  function Summary(apps: seq<Applicant>): (s: StatusSummary)
    ensures s.all == |apps|
    ensures s.applied + s.shortlisted + s.interviewed + s.offered + s.rejected <= s.all
  {
    SummaryTotal(apps);
    StatusSummary(|apps|, Count(apps, HasStatus("Applied")), Count(apps, HasStatus("Shortlisted")),
      Count(apps, HasStatus("Interviewed")), Count(apps, HasStatus("Offered")), Count(apps, HasStatus("Rejected")))
  }

  const Statuses := ["Applied", "Shortlisted", "Interviewed", "Offered", "Rejected"]

  /** How many of the five cards count one applicant. */
  function Cards(a: Applicant): nat
  {
    (if HasStatus("Applied")(a) then 1 else 0) + (if HasStatus("Shortlisted")(a) then 1 else 0)
      + (if HasStatus("Interviewed")(a) then 1 else 0) + (if HasStatus("Offered")(a) then 1 else 0)
      + (if HasStatus("Rejected")(a) then 1 else 0)
  }

  /** An applicant has one status, so at most one card counts it, and
      exactly one when its status is one of the five. */
  lemma CardsOfOne(a: Applicant)
    ensures Cards(a) <= 1
    ensures a.status in Statuses ==> Cards(a) == 1
  {
  }

  function CardTotal(apps: seq<Applicant>): nat
  {
    Count(apps, HasStatus("Applied")) + Count(apps, HasStatus("Shortlisted"))
      + Count(apps, HasStatus("Interviewed")) + Count(apps, HasStatus("Offered")) + Count(apps, HasStatus("Rejected"))
  }

  /** The five cards together count no applicant twice, and they count all
      of them when every status is one of the five. */
  lemma {:induction false} SummaryTotal(apps: seq<Applicant>)
    ensures CardTotal(apps) <= |apps|
    ensures (forall a :: a in apps ==> a.status in Statuses) ==> CardTotal(apps) == |apps|
  {
    if apps != [] {
      SummaryTotal(apps[1..]);
      CountStep(apps, HasStatus("Applied"));
      CountStep(apps, HasStatus("Shortlisted"));
      CountStep(apps, HasStatus("Interviewed"));
      CountStep(apps, HasStatus("Offered"));
      CountStep(apps, HasStatus("Rejected"));
      assert CardTotal(apps) == Cards(apps[0]) + CardTotal(apps[1..]);
      CardsOfOne(apps[0]);
      assert forall a :: a in apps[1..] ==> a in apps;
    }
  }

  /** `titles.filter(Boolean)`: the non-empty titles, in order. */
  function Present(titles: seq<Option<string>>): (r: seq<string>)
    ensures forall x :: x in r <==> x != "" && Some(x) in titles
  {
    if titles == [] then []
    else
      var rest := Present(titles[1..]);
      assert forall t :: t in titles <==> t == titles[0] || t in titles[1..];
      if titles[0].Some? && titles[0].value != "" then [titles[0].value] + rest else rest
  }

  /** `Array.from(new Set(titles.filter(Boolean)))`: the non-empty titles,
      each once. */
  function PresentTitles(titles: seq<Option<string>>): (r: seq<string>)
    ensures NoDuplicates(r)
    ensures forall x :: x in r <==> x != "" && Some(x) in titles
  {
    Distinct(Present(titles))
  }

  /** `applicants.map(a => a.job_descriptions?.title)`. */
  function JobTitles(apps: seq<Applicant>): (titles: seq<Option<string>>)
    ensures forall x :: Some(x) in titles <==> exists a :: a in apps && a.jobTitle == Some(x)
  {
    var titles := seq(|apps|, i requires 0 <= i < |apps| => apps[i].jobTitle);
    assert forall x :: Some(x) in titles <==> exists a :: a in apps && a.jobTitle == Some(x) by {
      forall x ensures Some(x) in titles <==> exists a :: a in apps && a.jobTitle == Some(x) {
        if Some(x) in titles {
          var k :| 0 <= k < |titles| && titles[k] == Some(x);
          assert apps[k] in apps;
        }
        if exists a :: a in apps && a.jobTitle == Some(x) {
          var a :| a in apps && a.jobTitle == Some(x);
          var k :| 0 <= k < |apps| && apps[k] == a;
          assert titles[k] == Some(x);
        }
      }
    }
    titles
  }

  /** The position options: "All" first, then every title of an applicant's
      job and, unless reading the jobs failed, every job title, each once,
      in the order of `Array.prototype.sort`. */
  method PositionOptions(applicantTitles: seq<Option<string>>, jobTitles: Option<seq<Option<string>>>)
    returns (options: seq<string>)
    ensures |options| >= 1 && options[0] == "All"
    ensures forall x :: x in options[1..] <==>
      x != "" && (Some(x) in applicantTitles || (jobTitles.Some? && Some(x) in jobTitles.value))
    ensures forall i, j :: 1 <= i < j < |options| ==> LessOrEqual(options[i], options[j])
    ensures NoDuplicates(options[1..])
  {
    var applicantPositions := PresentTitles(applicantTitles);
    var all := applicantPositions;
    if jobTitles.Some? {
      all := Distinct(applicantPositions + PresentTitles(jobTitles.value));
    }
    assert forall x :: x in all <==>
      x != "" && (Some(x) in applicantTitles || (jobTitles.Some? && Some(x) in jobTitles.value));
    var sorted := Sorting.SortByKey(all, (x: string) => x, true);
    NoDuplicatesPermutation(all, sorted);
    assert forall x :: x in sorted <==> x in multiset(sorted);
    assert forall x :: x in all <==> x in multiset(all);
    options := ["All"] + sorted;
    assert options[1..] == sorted;
  }

  /** The page's state: the applicants it loaded, the position options,
      the search term, the two filters and the current page. */
  class ApplicantsDashboard {
    var allApplicants: seq<Applicant>
    var positionsOptions: seq<string>
    var searchTerm: string
    var position: string
    var status: string
    var currentPage: int

    /** The initial state: nothing loaded, no search, both filters "All",
        page 1. */
    constructor ()
      ensures allApplicants == [] && positionsOptions == ["All"]
      ensures searchTerm == "" && position == "All" && status == "All"
      ensures currentPage == 1
    {
      allApplicants := [];
      positionsOptions := ["All"];
      searchTerm := "";
      position := "All";
      status := "All";
      currentPage := 1;
    }

    function FilteredApplicants(): seq<Applicant>
      reads this
    {
      Filtered(allApplicants, searchTerm, position, status)
    }

    function TotalPages(): nat
      reads this
    {
      ListView.TotalPages(|FilteredApplicants()|, ItemsPerPage)
    }

    /** The rows shown: at most ten, from the current page. */
    function CurrentApplicants(): (r: seq<Applicant>)
      reads this
      ensures currentPage >= 1 ==> |r| <= ItemsPerPage
      ensures 1 <= currentPage <= TotalPages() ==> r != []
    {
      PageItems(FilteredApplicants(), currentPage, ItemsPerPage)
    }

    /** The data fetch: the formatted applicants (none when their query
        failed) and the position options built from their job titles and,
        unless that query failed, the job titles. */
    method Load(rows: seq<RawApplicant>, applicantsFailed: bool, jobTitles: Option<seq<Option<string>>>)
      modifies this
      ensures allApplicants == if applicantsFailed then [] else FormatAll(rows)
      ensures |positionsOptions| >= 1 && positionsOptions[0] == "All"
      ensures forall x :: x in positionsOptions[1..] <==>
        x != "" && ((exists a :: a in allApplicants && a.jobTitle == Some(x))
                    || (jobTitles.Some? && Some(x) in jobTitles.value))
      ensures forall i, j :: 1 <= i < j < |positionsOptions| ==>
        LessOrEqual(positionsOptions[i], positionsOptions[j])
      ensures NoDuplicates(positionsOptions[1..])
      ensures searchTerm == old(searchTerm) && position == old(position) && status == old(status)
      ensures currentPage == old(currentPage)
    {
      var apps := if applicantsFailed then [] else FormatAll(rows);
      var titles := JobTitles(apps);
      allApplicants := apps;
      positionsOptions := PositionOptions(titles, jobTitles);
    }

    /** `handlePageChange`: only a real page is taken; anything else leaves
        the page as it was. */
    method HandlePageChange(p: int)
      modifies this
      ensures currentPage == if 1 <= p <= old(TotalPages()) then p else old(currentPage)
      ensures allApplicants == old(allApplicants) && positionsOptions == old(positionsOptions)
      ensures searchTerm == old(searchTerm) && position == old(position) && status == old(status)
      ensures old(currentPage) >= 1 ==> currentPage >= 1
    {
      if p >= 1 && p <= TotalPages() {
        currentPage := p;
      }
    }

    /** `resetFilters`: no search and both filters "All", so every loaded
        applicant is listed again; the page is left as it was. */
    method ResetFilters()
      modifies this
      ensures searchTerm == "" && position == "All" && status == "All"
      ensures FilteredApplicants() == allApplicants
      ensures allApplicants == old(allApplicants) && positionsOptions == old(positionsOptions)
      ensures currentPage == old(currentPage)
    {
      position := "All";
      status := "All";
      searchTerm := "";
      FilteredDefaults(allApplicants);
    }
  }
}
