/** The AI-matching screen: a fixed list of eight candidates, five selects
    (gender, experience, position, matching score, status), six candidate
    cards to a page, and a colour band for each card's score. */
module AiMatchingPage {
  import opened Text
  import opened ListView
  import JsValue

  const ItemsPerPage := 6

  datatype Candidate = Candidate(
    id: int,
    name: string,
    applicantId: string,
    gender: string,
    experience: nat,
    position: string,
    education: string,
    matchingScore: int,
    status: string)

  /** The candidates the screen shows. */
  const AllCandidates: seq<Candidate> := [
    Candidate(1, "Weeraphol Jongsara", "EMP-83030", "Male", 7, "Software Engineer",
      "Bachelor of Science, Computer Engineering, KMUTT", 97, "Interview"),
    Candidate(2, "Chayanon Phakthin", "EMP-83110", "Male", 6, "Software Engineer",
      "Bachelor of Science, Computer Engineering, Kasetsart University", 89, "Shortlisted"),
    Candidate(3, "Thanapon Watthanakun", "EMP-83078", "Male", 4, "Software Engineer",
      "Bachelor of Science, Computer Engineering, KMITL", 85, "Interview"),
    Candidate(4, "Kanokwan Srisawat", "EMP-83045", "Female", 5, "Frontend Developer",
      "Bachelor of Engineering, Software Engineering, Chulalongkorn", 82, "Offer"),
    Candidate(5, "Piyapong Charoen", "EMP-83092", "Male", 3, "Backend Developer",
      "Bachelor of Science, Computer Science, Mahidol", 78, "Applied"),
    Candidate(6, "Supawadee Tanaka", "EMP-83156", "Female", 6, "Data Analyst",
      "Bachelor of Science, Statistics, Thammasat", 75, "Shortlisted"),
    Candidate(7, "Nattapong Somjai", "EMP-83201", "Male", 4, "DevOps Engineer",
      "Bachelor of Engineering, Computer Engineering, KMUTNB", 72, "Applied"),
    Candidate(8, "Chutima Prasert", "EMP-83134", "Female", 5, "Software Engineer",
      "Bachelor of Science, Information Technology, KU", 88, "Interview")
  ]

  // ---------------------------------------------------------------------
  // Experience labels

  /** `${experience} years`. */
  function ExperienceLabel(n: nat): string
  {
    JsValue.Decimal(n) + " years"
  }

  /** A label names one number of years: `parseInt` reads the number back
      from its digits. */
  lemma LabelInjective(m: nat, n: nat)
    requires ExperienceLabel(m) == ExperienceLabel(n)
    ensures m == n
  {
    var a := ExperienceLabel(m);
    assert JsValue.Decimal(m) == a[..|a| - 6] == JsValue.Decimal(n);
    JsValue.ParseIntDecimal(m);
    JsValue.ParseIntDecimal(n);
  }

  // ---------------------------------------------------------------------
  // Filters

  datatype Filters = Filters(gender: string, experience: string, position: string,
                             matchingScore: string, status: string)

  const NoFilters := Filters("All", "All", "All", "All", "All")

  datatype FilterName = Gender | Experience | Position | MatchingScore | Status

  /** `{ ...prev, [filterName]: value }`: only the named select changes. */
  function SetFilter(f: Filters, name: FilterName, value: string): (r: Filters)
    ensures name == Gender ==> r == f.(gender := value)
    ensures name == Experience ==> r == f.(experience := value)
    ensures name == Position ==> r == f.(position := value)
    ensures name == MatchingScore ==> r == f.(matchingScore := value)
    ensures name == Status ==> r == f.(status := value)
  {
    match name
    case Gender => f.(gender := value)
    case Experience => f.(experience := value)
    case Position => f.(position := value)
    case MatchingScore => f.(matchingScore := value)
    case Status => f.(status := value)
  }

  /** The score select: four inclusive ranges; any other choice, "All"
      among them, accepts every score. */
  predicate ScoreMatches(choice: string, score: int)
  {
    if choice == "60-70%" then 60 <= score <= 70
    else if choice == "71-80%" then 71 <= score <= 80
    else if choice == "81-90%" then 81 <= score <= 90
    else if choice == "91-100%" then 91 <= score <= 100
    else true
  }

  const ScoreRanges := ["60-70%", "71-80%", "81-90%", "91-100%"]

  /** Every whole score from 60 to 100 lies in exactly one of the four
      ranges, and no score outside them lies in any. */
  lemma ScoreRangesPartition(score: int)
    ensures 60 <= score <= 100 ==> exists i :: 0 <= i < 4 && ScoreMatches(ScoreRanges[i], score)
    ensures forall i, j :: 0 <= i < j < 4 && ScoreMatches(ScoreRanges[i], score) ==> !ScoreMatches(ScoreRanges[j], score)
    ensures (score < 60 || score > 100) ==> forall i :: 0 <= i < 4 ==> !ScoreMatches(ScoreRanges[i], score)
  {
    if 60 <= score <= 70 {
      assert ScoreMatches(ScoreRanges[0], score);
    } else if 71 <= score <= 80 {
      assert ScoreMatches(ScoreRanges[1], score);
    } else if 81 <= score <= 90 {
      assert ScoreMatches(ScoreRanges[2], score);
    } else if 91 <= score <= 100 {
      assert ScoreMatches(ScoreRanges[3], score);
    }
  }

  /** One candidate against the five selects. */
  predicate Matches(c: Candidate, f: Filters)
  {
    && (f.gender == "All" || c.gender == f.gender)
    && (f.experience == "All" || ExperienceLabel(c.experience) == f.experience)
    && (f.position == "All" || c.position == f.position)
    && ScoreMatches(f.matchingScore, c.matchingScore)
    && (f.status == "All" || c.status == f.status)
  }

  /** `filteredCandidates`: the candidates that match, in order. */
  function Filtered(candidates: seq<Candidate>, f: Filters): (r: seq<Candidate>)
    ensures forall c :: c in r <==> c in candidates && Matches(c, f)
  {
    Filter(candidates, (c: Candidate) => Matches(c, f))
  }

  /** A chosen "k years" keeps exactly the candidates with k years. */
  lemma ExperienceChoice(candidates: seq<Candidate>, k: nat)
    ensures forall c :: c in Filtered(candidates, NoFilters.(experience := ExperienceLabel(k))) <==>
      c in candidates && c.experience == k
  {
    forall c | c in candidates && ExperienceLabel(c.experience) == ExperienceLabel(k)
      ensures c.experience == k
    {
      LabelInjective(c.experience, k);
    }
  }

  /** With no select set every candidate is listed, in order. */
  lemma NoFiltersShowsAll(candidates: seq<Candidate>)
    ensures Filtered(candidates, NoFilters) == candidates
  {
    FilterAll(candidates, (c: Candidate) => Matches(c, NoFilters));
  }

  // ---------------------------------------------------------------------
  // Score colours

  /** The colour band of a score: 3 from 90, 2 from 80, 1 from 70, else 0. */
  function ScoreBand(score: int): (b: nat)
    ensures b <= 3
    ensures b == 3 <==> score >= 90
    ensures b >= 2 <==> score >= 80
    ensures b >= 1 <==> score >= 70
  {
    if score >= 90 then 3 else if score >= 80 then 2 else if score >= 70 then 1 else 0
  }

  /** A higher score never gets a lower band. */
  lemma ScoreBandMonotone(s: int, t: int)
    requires s <= t
    ensures ScoreBand(s) <= ScoreBand(t)
  {
  }

  const BandColors := ["from-gray-400 to-gray-500", "from-purple-400 to-purple-500",
                       "from-blue-400 to-purple-500", "from-blue-500 to-blue-600"]

  /** `getScoreColor`. */
  function ScoreColor(score: int): (c: string)
    ensures c == BandColors[ScoreBand(score)]
  {
    if score >= 90 then "from-blue-500 to-blue-600"
    else if score >= 80 then "from-blue-400 to-purple-500"
    else if score >= 70 then "from-purple-400 to-purple-500"
    else "from-gray-400 to-gray-500"
  }

  // ---------------------------------------------------------------------
  // The screen's state

  class AiMatching {
    const candidates: seq<Candidate>
    var filters: Filters
    var currentPage: int
    var applicantId: string
    var jobId: string

    constructor ()
      ensures candidates == AllCandidates && filters == NoFilters && currentPage == 1
      ensures applicantId == "" && jobId == ""
    {
      candidates := AllCandidates;
      filters := NoFilters;
      currentPage := 1;
      applicantId := "";
      jobId := "";
    }

    function FilteredCandidates(): seq<Candidate>
      reads this
    {
      Filtered(candidates, filters)
    }

    function TotalPages(): nat
      reads this
    {
      ListView.TotalPages(|FilteredCandidates()|, ItemsPerPage)
    }

    /** The cards shown: at most six, from the current page. */
    function CurrentCandidates(): (r: seq<Candidate>)
      reads this
      ensures currentPage >= 1 ==> |r| <= ItemsPerPage
      ensures 1 <= currentPage <= TotalPages() ==> r != []
    {
      PageItems(FilteredCandidates(), currentPage, ItemsPerPage)
    }

    /** `handleFilterChange`: the named select changes and the page goes
        back to 1, which shows cards whenever any candidate matches. */
    method HandleFilterChange(name: FilterName, value: string)
      modifies this
      ensures filters == SetFilter(old(filters), name, value) && currentPage == 1
      ensures FilteredCandidates() != [] ==> CurrentCandidates() != []
    {
      filters := SetFilter(filters, name, value);
      currentPage := 1;
    }

    /** `handlePageChange`, for the numbered buttons and the next button:
        a page outside 1..totalPages is ignored. */
    method HandlePageChange(page: int)
      modifies this
      ensures currentPage == if 1 <= page <= TotalPages() then page else old(currentPage)
      ensures filters == old(filters)
      ensures 1 <= old(currentPage) <= TotalPages() ==> 1 <= currentPage <= TotalPages()
    {
      if 1 <= page <= TotalPages() {
        currentPage := page;
      }
    }
  }

  /** Every fixed candidate scores between 60 and 100, so each falls in
      exactly one score range. */
  lemma CandidatesInRanges()
    ensures forall c :: c in AllCandidates ==> 60 <= c.matchingScore <= 100
  {
  }
}
