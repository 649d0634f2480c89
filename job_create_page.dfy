/** The form that creates a job description: thirteen text fields, a
    confirmation modal, and an insert of the payload into the job
    descriptions table, after which the browser goes back to the board.
    The insert's outcome is an input. */
module JobCreatePage {
  import opened Wrappers
  import opened Text
  import opened Skills

  /** The form's inputs, by their `name` attribute. */
  datatype Field =
    | JobTitle | Department | Location | JobType | SalaryRange | DatePosted | ClosingDate
    | JobDescription | Responsibilities | RequiredSkills | SoftSkills | MinimumExperience | Education

  datatype FormData = FormData(
    jobTitle: string,
    department: string,
    location: string,
    jobType: string,
    salaryRange: string,
    datePosted: string,
    closingDate: string,
    jobDescription: string,
    responsibilities: string,
    requiredSkills: string,
    softSkills: string,
    minimumExperience: string,
    education: string)

  /** Every field starts empty. */
  function EmptyForm(): (f: FormData)
    ensures forall name :: Get(f, name) == ""
  {
    FormData("", "", "", "", "", "", "", "", "", "", "", "", "")
  }

  /** The value of one field. */
  function Get(f: FormData, name: Field): string
  {
    match name
    case JobTitle => f.jobTitle
    case Department => f.department
    case Location => f.location
    case JobType => f.jobType
    case SalaryRange => f.salaryRange
    case DatePosted => f.datePosted
    case ClosingDate => f.closingDate
    case JobDescription => f.jobDescription
    case Responsibilities => f.responsibilities
    case RequiredSkills => f.requiredSkills
    case SoftSkills => f.softSkills
    case MinimumExperience => f.minimumExperience
    case Education => f.education
  }

  /** `{ ...prev, [name]: value }`: the named field takes the value and
      every other field keeps its own. */
  function Set(f: FormData, name: Field, value: string): (r: FormData)
    ensures Get(r, name) == value
    ensures forall other :: other != name ==> Get(r, other) == Get(f, other)
  {
    match name
    case JobTitle => f.(jobTitle := value)
    case Department => f.(department := value)
    case Location => f.(location := value)
    case JobType => f.(jobType := value)
    case SalaryRange => f.(salaryRange := value)
    case DatePosted => f.(datePosted := value)
    case ClosingDate => f.(closingDate := value)
    case JobDescription => f.(jobDescription := value)
    case Responsibilities => f.(responsibilities := value)
    case RequiredSkills => f.(requiredSkills := value)
    case SoftSkills => f.(softSkills := value)
    case MinimumExperience => f.(minimumExperience := value)
    case Education => f.(education := value)
  }

  /** Typing a field twice keeps only the last value. */
  lemma SetTwice(f: FormData, name: Field, v: string, w: string)
    ensures Set(Set(f, name, v), name, w) == Set(f, name, w)
  {
    var a := Set(Set(f, name, v), name, w);
    var b := Set(f, name, w);
    assert forall n :: Get(a, n) == Get(b, n);
    assert Get(a, JobTitle) == Get(b, JobTitle) && Get(a, Department) == Get(b, Department);
    assert Get(a, Location) == Get(b, Location) && Get(a, JobType) == Get(b, JobType);
    assert Get(a, SalaryRange) == Get(b, SalaryRange) && Get(a, DatePosted) == Get(b, DatePosted);
    assert Get(a, ClosingDate) == Get(b, ClosingDate) && Get(a, JobDescription) == Get(b, JobDescription);
    assert Get(a, Responsibilities) == Get(b, Responsibilities) && Get(a, RequiredSkills) == Get(b, RequiredSkills);
    assert Get(a, SoftSkills) == Get(b, SoftSkills) && Get(a, MinimumExperience) == Get(b, MinimumExperience);
    assert Get(a, Education) == Get(b, Education);
  }

  /** The row inserted; a `None` date is a null column. */
  datatype JobPayload = JobPayload(
    title: string,
    department: string,
    location: string,
    jobType: string,
    salary: string,
    startDate: Option<string>,
    endDate: Option<string>,
    description: string,
    responsibilities: string,
    requiredSkills: seq<string>,
    softSkills: seq<string>,
    experience: string,
    education: string)

  /** `value || null`: an empty date is null, any other passes unchanged. */
  function NullIfEmpty(value: string): (r: Option<string>)
    ensures r.None? <==> value == ""
    ensures r.Some? ==> r.value == value
  {
    if value == "" then None else Some(value)
  }

  /** `input ? parse(input) : []`: no skills for an empty line, otherwise
      its non-empty, trimmed, comma-free parts. */
  function SkillsOf(input: string): (skills: seq<string>)
    ensures input == "" ==> skills == []
    ensures forall x :: x in skills ==> x != "" && IsTrimmed(x) && ',' !in x
  {
    if input != "" then ParseSkills(input) else []
  }

  /** The guard changes nothing: an empty line reads as no skills anyway,
      so the form and the board read skill lines alike. */
  lemma SkillsOfIsParse(input: string)
    ensures SkillsOf(input) == ParseSkills(input)
  {
    if input == "" {
      ParseEmpty();
    }
  }

  /** The payload: each form field lands in its own column (jobTitle in
      title, jobType in job_type, salaryRange in salary, datePosted and
      closingDate in start_date and end_date, minimumExperience in
      experience, the others under their own names), the dates as null
      when empty and the two skill lines as lists. */
  function PayloadOf(f: FormData): (p: JobPayload)
    ensures p.title == f.jobTitle && p.department == f.department
    ensures p.location == f.location && p.jobType == f.jobType
    ensures p.salary == f.salaryRange
    ensures p.startDate == NullIfEmpty(f.datePosted) && p.endDate == NullIfEmpty(f.closingDate)
    ensures p.description == f.jobDescription && p.responsibilities == f.responsibilities
    ensures p.requiredSkills == SkillsOf(f.requiredSkills) && p.softSkills == SkillsOf(f.softSkills)
    ensures p.experience == f.minimumExperience && p.education == f.education
  {
    JobPayload(f.jobTitle, f.department, f.location, f.jobType, f.salaryRange,
               NullIfEmpty(f.datePosted), NullIfEmpty(f.closingDate),
               f.jobDescription, f.responsibilities,
               SkillsOf(f.requiredSkills), SkillsOf(f.softSkills),
               f.minimumExperience, f.education)
  }

  /** Two payloads agree on every column not read from the named field. */
  predicate AgreeExcept(p: JobPayload, q: JobPayload, name: Field)
  {
    && (name != JobTitle ==> p.title == q.title)
    && (name != Department ==> p.department == q.department)
    && (name != Location ==> p.location == q.location)
    && (name != JobType ==> p.jobType == q.jobType)
    && (name != SalaryRange ==> p.salary == q.salary)
    && (name != DatePosted ==> p.startDate == q.startDate)
    && (name != ClosingDate ==> p.endDate == q.endDate)
    && (name != JobDescription ==> p.description == q.description)
    && (name != Responsibilities ==> p.responsibilities == q.responsibilities)
    && (name != RequiredSkills ==> p.requiredSkills == q.requiredSkills)
    && (name != SoftSkills ==> p.softSkills == q.softSkills)
    && (name != MinimumExperience ==> p.experience == q.experience)
    && (name != Education ==> p.education == q.education)
  }

  /** Each column is read from one field only: editing a field leaves
      every other column of the payload as it was. */
  lemma EditChangesOneColumn(f: FormData, name: Field, v: string)
    ensures AgreeExcept(PayloadOf(Set(f, name, v)), PayloadOf(f), name)
  {
    match name
    case JobTitle =>
    case Department =>
    case Location =>
    case JobType =>
    case SalaryRange =>
    case DatePosted =>
    case ClosingDate =>
    case JobDescription =>
    case Responsibilities =>
    case RequiredSkills =>
    case SoftSkills =>
    case MinimumExperience =>
    case Education =>
  }

  /** An untouched form is inserted with null dates and no skills. */
  lemma EmptyPayload()
    ensures PayloadOf(EmptyForm()).startDate.None? && PayloadOf(EmptyForm()).endDate.None?
    ensures PayloadOf(EmptyForm()).requiredSkills == [] && PayloadOf(EmptyForm()).softSkills == []
  {
  }

  const BoardRoute := "/JobDescription"
  const CreatedAlert := "Job Created Successfully!"
  const FailurePrefix := "Failed to create job: "

  /** The form's state. `navigatedTo` records where the router was sent. */
  class JobCreateForm {
    var formData: FormData
    var modalOpen: bool
    var loading: bool
    var navigatedTo: Option<string>

    constructor ()
      ensures formData == EmptyForm() && !modalOpen && !loading && navigatedTo.None?
    {
      formData := EmptyForm();
      modalOpen := false;
      loading := false;
      navigatedTo := None;
    }

    /** `handleInputChange`: only the named field changes. */
    method HandleInputChange(name: Field, value: string)
      modifies this
      ensures formData == Set(old(formData), name, value)
      ensures Get(formData, name) == value
      ensures forall other :: other != name ==> Get(formData, other) == Get(old(formData), other)
      ensures modalOpen == old(modalOpen) && navigatedTo == old(navigatedTo)
    {
      formData := Set(formData, name, value);
    }

    method OpenModal()
      modifies this
      ensures modalOpen && formData == old(formData) && navigatedTo == old(navigatedTo)
    {
      modalOpen := true;
    }

    method CloseModal()
      modifies this
      ensures !modalOpen && formData == old(formData) && navigatedTo == old(navigatedTo)
      ensures loading == old(loading)
    {
      modalOpen := false;
    }

    /** `handleModalConfirm`: the modal closes before anything else, the
        payload built from the form is inserted, and the browser goes to
        the board only when the insert succeeded; the alert says which. */
    method HandleModalConfirm(insertError: Option<string>) returns (payload: JobPayload, alert: string)
      modifies this
      ensures payload == PayloadOf(old(formData))
      ensures !modalOpen && !loading && formData == old(formData)
      ensures insertError.None? ==> alert == CreatedAlert && navigatedTo == Some(BoardRoute)
      ensures insertError.Some? ==> alert == FailurePrefix + insertError.value && navigatedTo == old(navigatedTo)
    {
      CloseModal();
      payload := PayloadOf(formData);
      loading := true;
      loading := false;
      if insertError.Some? {
        alert := FailurePrefix + insertError.value;
      } else {
        alert := CreatedAlert;
        navigatedTo := Some(BoardRoute);
      }
    }
  }
}
