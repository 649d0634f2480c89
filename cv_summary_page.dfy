/** The CV summary screen: a fixed list of candidates searched by name or
    applicant id, one selected candidate whose status is changed through a
    confirmation modal, and an export of the candidate as a two-column CSV
    file. */
module CvSummaryPage {
  import opened Wrappers
  import opened Text
  import opened ListView

  /** A candidate, without the CV details the screen only displays. */
  datatype Candidate = Candidate(
    name: string,
    applicantId: string,
    experience: string,
    position: string,
    education: string,
    matchingScore: string,
    status: string,
    summary: string,
    strengths: seq<string>,
    overview: string)

  const CandidatesData: seq<Candidate> := [
    Candidate("Weeraphol Jongsara", "EMP-83030", "7 years", "Software Engineer",
      "B.Sc. Computer Engineering, KMUTT", "95%", "Interview",
      "Experienced full-stack engineer skilled in JavaScript, React, Node.js, and AWS...",
      ["React & Vue frontend", "Node.js backend", "AWS & Docker deployment", "Team leadership",
       "Problem-solving", "Bilingual communication"],
      "High alignment with Software Engineer role requirements. Matches 90% of tech stack."),
    Candidate("Jane Doe", "EMP-83031", "3 years", "Frontend Developer",
      "B.Sc. Computer Science, Chulalongkorn", "88%", "Applied",
      "Frontend developer skilled in React, TypeScript...",
      ["React", "TypeScript", "UI/UX design", "Team collaboration"],
      "Good fit for Frontend role.")
  ]

  const StatusOptions := ["Applied", "Shortlisted", "Interview", "Offer"]

  // ---------------------------------------------------------------------
  // Search

  /** The term, in any letter case, inside the name or the applicant id. */
  predicate SearchMatches(c: Candidate, term: string)
  {
    Contains(Lower(c.name), Lower(term)) || Contains(Lower(c.applicantId), Lower(term))
  }

  /** The candidates the search keeps, in order. */
  function Search(candidates: seq<Candidate>, term: string): (r: seq<Candidate>)
    ensures forall c :: c in r <==> c in candidates && SearchMatches(c, term)
  {
    Filter(candidates, (c: Candidate) => SearchMatches(c, term))
  }

  /** An empty search keeps every candidate, in order. */
  lemma EmptySearchKeepsAll(candidates: seq<Candidate>)
    ensures Search(candidates, "") == candidates
  {
    forall c | c in candidates ensures SearchMatches(c, "") {
      ContainsEmpty(Lower(c.name));
    }
    FilterAll(candidates, (c: Candidate) => SearchMatches(c, ""));
  }

  // ---------------------------------------------------------------------
  // Status colours

  const DefaultColor := "bg-gray-500"

  /** `colors[status] || "bg-gray-500"`: the four options have their
      colours, any other status the default. */
  function StatusColor(status: string): (c: string)
    ensures status !in StatusOptions ==> c == DefaultColor
    ensures status == "Applied" ==> c == DefaultColor
    ensures status == "Shortlisted" ==> c == "bg-blue-500"
    ensures status == "Interview" ==> c == "bg-yellow-500"
    ensures status == "Offer" ==> c == "bg-green-500"
  {
    if status == "Applied" then "bg-gray-500"
    else if status == "Shortlisted" then "bg-blue-500"
    else if status == "Interview" then "bg-yellow-500"
    else if status == "Offer" then "bg-green-500"
    else DefaultColor
  }

  /** The lookup is exact: a status in other letter case gets the default. */
  lemma StatusColorIsCaseSensitive()
    ensures StatusColor("offer") == DefaultColor && StatusColor("interview") == DefaultColor
  {
  }

  // ---------------------------------------------------------------------
  // The CSV export

  /** The eleven "label,value" lines, the first "Field,Value". */
  function CsvLines(c: Candidate): (lines: seq<string>)
    ensures |lines| == 11 && lines[0] == "Field,Value"
  {
    [ "Field,Value",
      "Candidate Name," + c.name,
      "Applicant ID," + c.applicantId,
      "Position," + c.position,
      "Experience," + c.experience,
      "Education," + c.education,
      "Matching Score," + c.matchingScore,
      "Status," + c.status,
      "AI Summary," + c.summary,
      "Strengths," + Join(c.strengths, "; "),
      "Overview," + c.overview ]
  }

  /** The file's text: the lines joined with newlines, no quoting. */
  function CsvContent(c: Candidate): string
  {
    Join(CsvLines(c), "\n")
  }

  /** What the blob holds: a byte-order mark, then the CSV text. */
  function BlobText(c: Candidate): (t: string)
    ensures |t| >= 1 && t[0] == '\U{FEFF}' && t[1..] == CsvContent(c)
  {
    ['\U{FEFF}'] + CsvContent(c)
  }

  /** Whether a candidate's exported fields hold no line break. */
  predicate SingleLineFields(c: Candidate)
  {
    && '\n' !in c.name && '\n' !in c.applicantId && '\n' !in c.position
    && '\n' !in c.experience && '\n' !in c.education && '\n' !in c.matchingScore
    && '\n' !in c.status && '\n' !in c.summary && '\n' !in c.overview
    && forall k :: 0 <= k < |c.strengths| ==> '\n' !in c.strengths[k]
  }

  /** Read back line by line, the CSV of a candidate without line breaks in
      its fields is the eleven lines: first "Field,Value", then each label
      with its value, the strengths joined by "; ". */
  lemma CsvReadsBack(c: Candidate)
    requires SingleLineFields(c)
    ensures Split(CsvContent(c), '\n') == CsvLines(c)
    ensures |Split(CsvContent(c), '\n')| == 11
    ensures Split(CsvContent(c), '\n')[9] == "Strengths," + Join(c.strengths, "; ")
  {
    JoinKeepsOut(c.strengths, "; ", '\n');
    var lines := CsvLines(c);
    assert forall k :: 0 <= k < |lines| ==> '\n' !in lines[k];
    SplitJoin(lines, '\n');
  }

  /** `CV_${name.replace(/\s/g, '_')}.csv`. */
  function ExportFileName(name: string): (f: string)
    ensures StartsWith(f, "CV_") && EndsWith(f, ".csv")
    ensures |f| == |name| + 7
    ensures forall i :: 3 <= i < |f| - 4 ==> !IsSpace(f[i])
    ensures forall i :: 0 <= i < |name| && !IsSpace(name[i]) ==> f[i + 3] == name[i]
    ensures forall i :: 0 <= i < |name| && IsSpace(name[i]) ==> f[i + 3] == '_'
  {
    var middle := ReplaceSpaces(name, '_');
    var f := "CV_" + middle + ".csv";
    assert f[..3] == "CV_";
    assert f[|f| - 4..] == ".csv";
    assert forall i :: 0 <= i < |name| ==> f[i + 3] == middle[i];
    f
  }

  // ---------------------------------------------------------------------
  // The screen's state

  class CvSummary {
    var searchTerm: string
    var filteredCandidates: seq<Candidate>
    var selectedCandidate: Candidate
    var statusConfirmShown: bool
    var pendingStatus: Option<string>

    constructor ()
      ensures searchTerm == "" && filteredCandidates == CandidatesData
      ensures selectedCandidate == CandidatesData[0]
      ensures !statusConfirmShown && pendingStatus.None?
    {
      searchTerm := "";
      filteredCandidates := CandidatesData;
      selectedCandidate := CandidatesData[0];
      statusConfirmShown := false;
      pendingStatus := None;
    }

    /** Typing a search re-filters the fixed list. */
    method SetSearchTerm(term: string)
      modifies this
      ensures searchTerm == term && filteredCandidates == Search(CandidatesData, term)
      ensures selectedCandidate == old(selectedCandidate)
    {
      searchTerm := term;
      filteredCandidates := Search(CandidatesData, term);
    }

    /** The search button selects the first match, if there is one. */
    method SelectFirstMatch()
      modifies this
      ensures old(filteredCandidates) != [] ==> selectedCandidate == old(filteredCandidates)[0]
      ensures old(filteredCandidates) == [] ==> selectedCandidate == old(selectedCandidate)
      ensures filteredCandidates == old(filteredCandidates) && searchTerm == old(searchTerm)
    {
      if |filteredCandidates| > 0 {
        selectedCandidate := filteredCandidates[0];
      }
    }

    /** `handleStatusChange`: only records the chosen status and shows the
        modal; the candidate is unchanged. */
    method HandleStatusChange(newStatus: string)
      modifies this
      ensures statusConfirmShown && pendingStatus == Some(newStatus)
      ensures selectedCandidate == old(selectedCandidate)
    {
      statusConfirmShown := true;
      pendingStatus := Some(newStatus);
    }

    /** `confirmStatusChange`: a non-empty pending status becomes the
        candidate's status, every other field staying; then nothing is
        pending and the modal is hidden. */
    method ConfirmStatusChange()
      modifies this
      ensures old(pendingStatus).Some? && old(pendingStatus).value != "" ==>
        selectedCandidate == old(selectedCandidate).(status := old(pendingStatus).value)
      ensures old(pendingStatus).None? || old(pendingStatus).value == "" ==>
        selectedCandidate == old(selectedCandidate)
      ensures !statusConfirmShown && pendingStatus.None?
    {
      if pendingStatus.Some? && pendingStatus.value != "" {
        selectedCandidate := selectedCandidate.(status := pendingStatus.value);
      }
      statusConfirmShown := false;
      pendingStatus := None;
    }

    /** `cancelStatusChange`: nothing pending, the candidate unchanged. */
    method CancelStatusChange()
      modifies this
      ensures !statusConfirmShown && pendingStatus.None?
      ensures selectedCandidate == old(selectedCandidate)
    {
      statusConfirmShown := false;
      pendingStatus := None;
    }

    /** `exportToExcel`: the file's name and text for the selected
        candidate. */
    method Export() returns (fileName: string, text: string)
      ensures fileName == ExportFileName(selectedCandidate.name)
      ensures text == BlobText(selectedCandidate)
    {
      fileName := ExportFileName(selectedCandidate.name);
      text := BlobText(selectedCandidate);
    }
  }
}
