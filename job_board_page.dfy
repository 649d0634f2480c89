/** The job-description board: every job posting as a card, found by a
    search term and three selects (department, location, job type), six to
    a page, with a modal that edits a posting and its two skill lists, and a
    delete button. The database calls are represented by whether they
    fail. */
module JobBoardPage {
  import opened Wrappers
  import opened Text
  import opened ListView
  import opened Skills

  const ItemsPerPage := 6

  /** A posting; `None` skill lists are null columns. */
  datatype JobPosting = JobPosting(
    id: int,
    title: string,
    description: string,
    department: string,
    location: string,
    jobType: string,
    salary: string,
    requiredSkills: Option<seq<string>>,
    softSkills: Option<seq<string>>,
    experience: string,
    education: string,
    startDate: string,
    endDate: string)

  /** `["All", ...Array.from(new Set(values))]`: "All" and then each value
      once, in the order it first occurs. */
  function Options(values: seq<string>): (r: seq<string>)
    ensures |r| >= 1 && r[0] == "All"
    ensures forall x :: x in r[1..] <==> x in values
    ensures NoDuplicates(r[1..])
  {
    var r := ["All"] + Distinct(values);
    assert r[1..] == Distinct(values);
    r
  }

  /** A later option first occurs later among the values. */
  lemma OptionsInOrder(values: seq<string>, i: nat, j: nat, k: nat)
    requires 1 <= i < j < |Options(values)| && k < |values| && values[k] == Options(values)[j]
    ensures Options(values)[i] in values[..k]
  {
    DistinctOrder(values, i - 1, j - 1, k);
  }

  function Departments(jobs: seq<JobPosting>): seq<string>
  {
    seq(|jobs|, i requires 0 <= i < |jobs| => jobs[i].department)
  }

  function Locations(jobs: seq<JobPosting>): seq<string>
  {
    seq(|jobs|, i requires 0 <= i < |jobs| => jobs[i].location)
  }

  function JobTypes(jobs: seq<JobPosting>): seq<string>
  {
    seq(|jobs|, i requires 0 <= i < |jobs| => jobs[i].jobType)
  }

  /** `skills?.some(s => s.toLowerCase().includes(term))`: false for a null
      list. */
  predicate AnySkillContains(skills: Option<seq<string>>, term: string)
  {
    skills.Some? && exists s :: s in skills.value && Contains(Lower(s), term)
  }

  /** The search term, in any letter case, inside one of the posting's
      texts or skills; and each select either "All" or equal. */
  predicate Matches(job: JobPosting, search: string, department: string, location: string, jobType: string)
  {
    var term := Lower(search);
    && (|| Contains(Lower(job.title), term)
        || Contains(Lower(job.description), term)
        || Contains(Lower(job.department), term)
        || Contains(Lower(job.location), term)
        || Contains(Lower(job.jobType), term)
        || AnySkillContains(job.requiredSkills, term)
        || AnySkillContains(job.softSkills, term)
        || Contains(Lower(job.experience), term)
        || Contains(Lower(job.education), term))
    && (department == "All" || job.department == department)
    && (location == "All" || job.location == location)
    && (jobType == "All" || job.jobType == jobType)
  }

  function FilteredJobs(jobs: seq<JobPosting>, search: string, department: string, location: string, jobType: string): (r: seq<JobPosting>)
    ensures forall j :: j in r <==> j in jobs && Matches(j, search, department, location, jobType)
    ensures department != "All" ==> forall j :: j in r ==> j.department == department
    ensures location != "All" ==> forall j :: j in r ==> j.location == location
    ensures jobType != "All" ==> forall j :: j in r ==> j.jobType == jobType
  {
    Filter(jobs, j => Matches(j, search, department, location, jobType))
  }

  /** With no search and every select on "All" the board shows every
      posting, in order. */
  lemma FilteredDefaults(jobs: seq<JobPosting>)
    ensures FilteredJobs(jobs, "", "All", "All", "All") == jobs
  {
    forall j | j in jobs ensures Matches(j, "", "All", "All", "All") {
      ContainsEmpty(Lower(j.title));
    }
    FilterAll(jobs, j => Matches(j, "", "All", "All", "All"));
  }

  /** `list || []`: a null skill list is edited as an empty one. */
  function OrEmpty(skills: Option<seq<string>>): seq<string>
  {
    if skills.Some? then skills.value else []
  }

  /** What the save button writes: the edited posting with the two skill
      lines read back as lists. */
  datatype JobUpdate = JobUpdate(
    title: string,
    description: string,
    department: string,
    location: string,
    jobType: string,
    salary: string,
    requiredSkills: seq<string>,
    softSkills: seq<string>,
    experience: string,
    education: string,
    startDate: string,
    endDate: string)

  /** The board's state. */
  class JobBoard {
    var jobs: seq<JobPosting>
    var errorMsg: Option<string>
    var searchTerm: string
    var department: string
    var location: string
    var jobType: string
    var currentPage: int
    var editingJob: Option<JobPosting>
    var requiredSkillsInput: string
    var softSkillsInput: string
    var showUpdateModal: bool

    constructor ()
      ensures jobs == [] && errorMsg.None?
      ensures searchTerm == "" && department == "All" && location == "All" && jobType == "All"
      ensures currentPage == 1
      ensures editingJob.None? && requiredSkillsInput == "" && softSkillsInput == "" && !showUpdateModal
    {
      jobs := [];
      errorMsg := None;
      searchTerm := "";
      department := "All";
      location := "All";
      jobType := "All";
      currentPage := 1;
      editingJob := None;
      requiredSkillsInput := "";
      softSkillsInput := "";
      showUpdateModal := false;
    }

    /** `fetchJobs`: the error is cleared first; a failed read shows its
        message and keeps the list, a successful one shows the rows, none
        when the database gives no data. */
    method Load(rows: Option<seq<JobPosting>>, fetchError: Option<string>)
      modifies this
      ensures fetchError.Some? ==> errorMsg == fetchError && jobs == old(jobs)
      ensures fetchError.None? ==> errorMsg.None? && jobs == (if rows.Some? then rows.value else [])
      ensures searchTerm == old(searchTerm) && currentPage == old(currentPage) && editingJob == old(editingJob)
    {
      errorMsg := None;
      if fetchError.Some? {
        errorMsg := fetchError;
      } else {
        jobs := if rows.Some? then rows.value else [];
      }
    }

    function Filtered(): seq<JobPosting>
      reads this
    {
      FilteredJobs(jobs, searchTerm, department, location, jobType)
    }

    function TotalPages(): nat
      reads this
    {
      ListView.TotalPages(|Filtered()|, ItemsPerPage)
    }

    /** The cards shown: at most six, from the current page. */
    function CurrentJobs(): (r: seq<JobPosting>)
      reads this
      ensures currentPage >= 1 ==> |r| <= ItemsPerPage
      ensures 1 <= currentPage <= TotalPages() ==> r != []
    {
      PageItems(Filtered(), currentPage, ItemsPerPage)
    }

    /** Typing a search goes back to page 1. */
    method SetSearchTerm(term: string)
      modifies this
      ensures searchTerm == term && currentPage == 1
      ensures jobs == old(jobs) && department == old(department) && location == old(location) && jobType == old(jobType)
    {
      searchTerm := term;
      currentPage := 1;
    }

    /** Choosing a department, a location or a job type goes back to
        page 1. */
    method SetDepartment(value: string)
      modifies this
      ensures department == value && currentPage == 1
      ensures jobs == old(jobs) && searchTerm == old(searchTerm) && location == old(location) && jobType == old(jobType)
    {
      department := value;
      currentPage := 1;
    }

    method SetLocation(value: string)
      modifies this
      ensures location == value && currentPage == 1
      ensures jobs == old(jobs) && searchTerm == old(searchTerm) && department == old(department) && jobType == old(jobType)
    {
      location := value;
      currentPage := 1;
    }

    method SetJobType(value: string)
      modifies this
      ensures jobType == value && currentPage == 1
      ensures jobs == old(jobs) && searchTerm == old(searchTerm) && department == old(department) && location == old(location)
    {
      jobType := value;
      currentPage := 1;
    }

    /** `resetFilters`: every select on "All", no search, page 1; so every
        posting is listed again. */
    method ResetFilters()
      modifies this
      ensures department == "All" && location == "All" && jobType == "All" && searchTerm == ""
      ensures currentPage == 1
      ensures Filtered() == jobs
      ensures jobs == old(jobs) && editingJob == old(editingJob)
    {
      department := "All";
      location := "All";
      jobType := "All";
      searchTerm := "";
      currentPage := 1;
      FilteredDefaults(jobs);
    }

    /** The previous and next buttons: `Math.max(p - 1, 1)` and
        `Math.min(p + 1, totalPages)`. They are shown only when there is
        more than one page. */
    method GoToPreviousPage()
      modifies this
      ensures currentPage == PrevPage(old(currentPage))
      ensures 1 <= old(currentPage) <= TotalPages() ==> 1 <= currentPage <= TotalPages()
      ensures jobs == old(jobs) && searchTerm == old(searchTerm)
      ensures department == old(department) && location == old(location) && jobType == old(jobType)
    {
      if 1 <= currentPage <= TotalPages() {
        PrevNextInRange(currentPage, TotalPages());
      }
      currentPage := PrevPage(currentPage);
    }

    /** A numbered button: the buttons run from 1 to the number of pages,
        so the page it opens always shows cards. */
    method GoToPage(num: int)
      requires 1 <= num <= TotalPages()
      modifies this
      ensures currentPage == num && CurrentJobs() != []
      ensures jobs == old(jobs) && searchTerm == old(searchTerm)
      ensures department == old(department) && location == old(location) && jobType == old(jobType)
    {
      currentPage := num;
    }

    method GoToNextPage()
      requires TotalPages() > 1
      modifies this
      ensures currentPage == NextPage(old(currentPage), old(TotalPages()))
      ensures 1 <= old(currentPage) <= TotalPages() ==> 1 <= currentPage <= TotalPages()
      ensures jobs == old(jobs) && searchTerm == old(searchTerm)
      ensures department == old(department) && location == old(location) && jobType == old(jobType)
    {
      if 1 <= currentPage <= TotalPages() {
        PrevNextInRange(currentPage, TotalPages());
      }
      currentPage := NextPage(currentPage, TotalPages());
    }

    /** `handleDelete`: on success exactly the postings with that id leave
        the list, the others keep their order; on failure the list is kept
        and the error shown. */
    method HandleDelete(id: int, deleteError: Option<string>)
      modifies this
      ensures deleteError.Some? ==> jobs == old(jobs) && errorMsg == Some("Delete failed: " + deleteError.value)
      ensures deleteError.None? ==> jobs == Filter(old(jobs), (j: JobPosting) => j.id != id) && errorMsg == old(errorMsg)
      ensures deleteError.None? ==> forall j :: j in jobs <==> j in old(jobs) && j.id != id
    {
      if deleteError.Some? {
        errorMsg := Some("Delete failed: " + deleteError.value);
        return;
      }
      jobs := Filter(jobs, (j: JobPosting) => j.id != id);
    }

    /** `handleOpenUpdate`: the skill lists are written as lines. */
    method HandleOpenUpdate(job: JobPosting)
      modifies this
      ensures editingJob == Some(job) && showUpdateModal
      ensures requiredSkillsInput == JoinSkills(OrEmpty(job.requiredSkills))
      ensures softSkillsInput == JoinSkills(OrEmpty(job.softSkills))
      ensures jobs == old(jobs)
    {
      editingJob := Some(job);
      requiredSkillsInput := JoinSkills(OrEmpty(job.requiredSkills));
      softSkillsInput := JoinSkills(OrEmpty(job.softSkills));
      showUpdateModal := true;
    }

    /** `handleCloseModal`. */
    method HandleCloseModal()
      modifies this
      ensures editingJob.None? && requiredSkillsInput == "" && softSkillsInput == "" && !showUpdateModal
      ensures jobs == old(jobs)
    {
      editingJob := None;
      requiredSkillsInput := "";
      softSkillsInput := "";
      showUpdateModal := false;
    }

    /** The save button: nothing happens without a posting being edited;
        otherwise the update carries the edited fields and the two lines
        read as lists. A failed update is reported in an alert and changes
        nothing; a successful one replaces the postings with the edited id
        and closes the modal. */
    method HandleSave(updateError: Option<string>) returns (update: Option<JobUpdate>, alert: Option<string>)
      modifies this
      ensures old(editingJob).None? <==> update.None?
      ensures update.Some? ==> update.value == UpdateOf(old(editingJob).value, old(requiredSkillsInput), old(softSkillsInput))
      ensures alert.Some? <==> update.Some? && updateError.Some?
      ensures alert.Some? ==> alert.value == "Update failed: " + updateError.value
      ensures update.None? || updateError.Some? ==>
        && jobs == old(jobs) && editingJob == old(editingJob) && showUpdateModal == old(showUpdateModal)
        && requiredSkillsInput == old(requiredSkillsInput) && softSkillsInput == old(softSkillsInput)
      ensures update.Some? && updateError.None? ==>
        && jobs == ReplaceById(old(jobs), Saved(old(editingJob).value, update.value))
        && editingJob.None? && requiredSkillsInput == "" && softSkillsInput == "" && !showUpdateModal
    {
      if editingJob.None? {
        return None, None;
      }
      var u := UpdateOf(editingJob.value, requiredSkillsInput, softSkillsInput);
      update := Some(u);
      if updateError.Some? {
        alert := Some("Update failed: " + updateError.value);
        return;
      }
      alert := None;
      ReplaceEdited(u);
    }

    /** The local state after a successful save: the edited posting, with
        the written skill lists, replaces every posting with its id; then
        the modal closes. */
    method ReplaceEdited(u: JobUpdate)
      requires editingJob.Some?
      modifies this
      ensures jobs == ReplaceById(old(jobs), Saved(old(editingJob).value, u))
      ensures editingJob.None? && requiredSkillsInput == "" && softSkillsInput == "" && !showUpdateModal
    {
      jobs := ReplaceById(jobs, Saved(editingJob.value, u));
      HandleCloseModal();
    }
  }

  /** The update for an edited posting: its fields, and the two lines read
      as lists. */
  function UpdateOf(e: JobPosting, requiredInput: string, softInput: string): (u: JobUpdate)
    ensures u.requiredSkills == ParseSkills(requiredInput) && u.softSkills == ParseSkills(softInput)
    ensures u.title == e.title && u.description == e.description && u.department == e.department
    ensures u.location == e.location && u.jobType == e.jobType && u.salary == e.salary
    ensures u.experience == e.experience && u.education == e.education
    ensures u.startDate == e.startDate && u.endDate == e.endDate
  {
    JobUpdate(e.title, e.description, e.department, e.location, e.jobType, e.salary,
              ParseSkills(requiredInput), ParseSkills(softInput), e.experience, e.education, e.startDate, e.endDate)
  }

  /** The posting as the board keeps it after a save: the edited one with
      the written skill lists. */
  function Saved(e: JobPosting, u: JobUpdate): JobPosting
  {
    e.(requiredSkills := Some(u.requiredSkills), softSkills := Some(u.softSkills))
  }

  /** `jobs.map(j => j.id === saved.id ? saved : j)`: every posting with
      the saved id is replaced, every other one kept in place. */
  function ReplaceById(jobs: seq<JobPosting>, saved: JobPosting): (r: seq<JobPosting>)
    ensures |r| == |jobs|
    ensures forall i :: 0 <= i < |jobs| ==> r[i] == if jobs[i].id == saved.id then saved else jobs[i]
  {
    seq(|jobs|, i requires 0 <= i < |jobs| => if jobs[i].id == saved.id then saved else jobs[i])
  }

  /** Saving twice gives what saving once gives. */
  lemma ReplaceTwice(jobs: seq<JobPosting>, saved: JobPosting)
    ensures ReplaceById(ReplaceById(jobs, saved), saved) == ReplaceById(jobs, saved)
  {
  }

  /** Opening a posting and saving it without touching the two lines
      writes its skill lists back as they were (a null list as an empty
      one), provided every skill is non-empty, trimmed and free of commas. */
  lemma SaveUntouched(job: JobPosting)
    requires forall x :: x in OrEmpty(job.requiredSkills) ==> x != "" && IsTrimmed(x) && ',' !in x
    requires forall x :: x in OrEmpty(job.softSkills) ==> x != "" && IsTrimmed(x) && ',' !in x
    ensures UpdateOf(job, JoinSkills(OrEmpty(job.requiredSkills)), JoinSkills(OrEmpty(job.softSkills))).requiredSkills
            == OrEmpty(job.requiredSkills)
    ensures UpdateOf(job, JoinSkills(OrEmpty(job.requiredSkills)), JoinSkills(OrEmpty(job.softSkills))).softSkills
            == OrEmpty(job.softSkills)
  {
    ParseJoin(OrEmpty(job.requiredSkills));
    ParseJoin(OrEmpty(job.softSkills));
  }
}
