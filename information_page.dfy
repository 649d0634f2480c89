/** The CV management screen: a table of applicants with search, status
    and gender filters, sorting by a clicked column, ten rows to a page, and
    the forms and confirmations that add, edit and delete applicants and
    their CVs. The database and storage calls are represented by what they
    are asked to do and by whether they fail. */
module InformationPage {
  import opened Wrappers
  import opened Text
  import opened JsValue
  import opened ListView
  import Sorting

  const ItemsPerPage := 10

  /** An applicant row with the title of its job. */
  datatype InfoApplicant = InfoApplicant(
    id: string,
    firstName: string,
    lastName: string,
    gender: string,
    experience: int,
    jobId: Option<string>,
    status: string,
    cvUrl: Option<string>,
    jobTitle: Option<string>,
    email: Option<string>,
    phone: Option<string>)

  /** The search term, in any letter case, inside the first or last name,
      the id, the email, the phone or the job title (a missing one reads as
      empty); and the status and gender, unless "All". */
  predicate Matches(a: InfoApplicant, search: string, status: string, gender: string)
  {
    var term := Lower(search);
    && (|| Contains(Lower(a.firstName), term)
        || Contains(Lower(a.lastName), term)
        || Contains(Lower(a.id), term)
        || Contains(Lower(OrString(a.email, "")), term)
        || Contains(Lower(OrString(a.phone, "")), term)
        || Contains(Lower(OrString(a.jobTitle, "")), term))
    && (status == "All" || a.status == status)
    && (gender == "All" || a.gender == gender)
  }

  function Filtered(all: seq<InfoApplicant>, search: string, status: string, gender: string): (r: seq<InfoApplicant>)
    ensures forall a :: a in r <==> a in all && Matches(a, search, status, gender)
    ensures status != "All" ==> forall a :: a in r ==> a.status == status
    ensures gender != "All" ==> forall a :: a in r ==> a.gender == gender
  {
    Filter(all, a => Matches(a, search, status, gender))
  }

  /** The empty search is inside every text, so with both filters on "All"
      every applicant is listed, in order. */
  lemma FilteredDefaults(all: seq<InfoApplicant>)
    ensures Filtered(all, "", "All", "All") == all
  {
    forall a | a in all ensures Matches(a, "", "All", "All") {
      ContainsEmpty(Lower(a.firstName));
    }
    FilterAll(all, a => Matches(a, "", "All", "All"));
  }

  datatype Direction = Asc | Desc

  /** The column the table is sorted by and the direction. */
  datatype SortState = SortState(field: string, direction: Direction)

  /** `handleSort`: a click on the sorted column flips the direction; a
      click on another column sorts by it ascending. */
  function SortAfterClick(s: SortState, field: string): (r: SortState)
    ensures r.field == field
    ensures s.field == field ==> r.direction != s.direction
    ensures s.field != field ==> r.direction == Asc
  {
    if s.field == field then SortState(field, if s.direction == Asc then Desc else Asc)
    else SortState(field, Asc)
  }

  /** Two clicks on the sorted column give the sort back. */
  lemma ClickTwice(s: SortState)
    ensures SortAfterClick(SortAfterClick(s, s.field), s.field) == s
  {
  }

  /** The value a column compares by, lower-cased: the job's title (empty
      when there is none) for the job column, the row's own value
      otherwise; a missing email, phone or column reads as empty. */
  function SortKey(a: InfoApplicant, field: string): string
  {
    Lower(
      if field == "job_descriptions" then OrString(a.jobTitle, "")
      else if field == "id" then a.id
      else if field == "firstName" then a.firstName
      else if field == "lastName" then a.lastName
      else if field == "email" then OrString(a.email, "")
      else if field == "phone" then OrString(a.phone, "")
      else if field == "gender" then a.gender
      else if field == "status" then a.status
      else "")
  }

  /** `filteredApplicants.sort(...)` in place: the same rows, each in order
      with every later one by the key of the column, ascending or
      descending. */
  method SortApplicants(a: array<InfoApplicant>, s: SortState)
    modifies a
    ensures multiset(a[..]) == multiset(old(a[..]))
    ensures s.direction == Asc ==> forall i, j :: 0 <= i < j < a.Length ==> LessOrEqual(SortKey(a[i], s.field), SortKey(a[j], s.field))
    ensures s.direction == Desc ==> forall i, j :: 0 <= i < j < a.Length ==> LessOrEqual(SortKey(a[j], s.field), SortKey(a[i], s.field))
  {
    Sorting.SortArrayByKey(a, (x: InfoApplicant) => SortKey(x, s.field), s.direction == Asc);
  }

  /** `fileUrl.split('/')`, then the last two parts joined by "/"; a URL
      without a "/" has no second-to-last part, which reads as
      "undefined". */
  function StoragePath(url: string): (path: string)
    ensures var parts := Split(url, '/');
      |parts| >= 2 ==> path == parts[|parts| - 2] + "/" + parts[|parts| - 1]
  {
    var parts := Split(url, '/');
    if |parts| >= 2 then parts[|parts| - 2] + "/" + parts[|parts| - 1]
    else "undefined/" + parts[0]
  }

  /** The path a CV is uploaded to: the applicant's folder and the file's
      name. */
  function UploadPath(applicantId: string, fileName: string): string
  {
    applicantId + "/" + fileName
  }

  /** The public URL of an uploaded file ends in its upload path; for an id
      and a file name without "/", the path read back from the URL is the
      upload path, whatever the URL starts with. */
  lemma StoragePathRoundTrip(base: string, applicantId: string, fileName: string)
    requires '/' !in applicantId && '/' !in fileName
    ensures StoragePath(base + "/" + UploadPath(applicantId, fileName)) == UploadPath(applicantId, fileName)
  {
    var url := base + "/" + UploadPath(applicantId, fileName);
    assert url == base + ['/'] + (applicantId + ['/'] + fileName);
    SplitAround(base, applicantId + ['/'] + fileName, '/');
    SplitAround(applicantId, fileName, '/');
    SplitNoSeparator(applicantId, '/');
    SplitNoSeparator(fileName, '/');
  }

  /** What deleting a CV asks of the storage and the database: the file is
      removed only when the path read from the URL names the applicant; the
      CV URL is cleared and the stored text deleted in any case. */
  datatype CvDeletion = CvDeletion(removeFile: Option<string>, clearCvUrlOf: string, deleteTextOf: string)

  function DeleteCvPlan(a: InfoApplicant): (d: CvDeletion)
    ensures d.clearCvUrlOf == a.id && d.deleteTextOf == a.id
    ensures d.removeFile.Some? <==> a.cvUrl.Some? && a.cvUrl.value != "" && Contains(StoragePath(a.cvUrl.value), a.id)
    ensures d.removeFile.Some? ==> d.removeFile.value == StoragePath(a.cvUrl.value)
  {
    var remove :=
      if a.cvUrl.Some? && a.cvUrl.value != "" && Contains(StoragePath(a.cvUrl.value), a.id)
      then Some(StoragePath(a.cvUrl.value)) else None;
    CvDeletion(remove, a.id, a.id)
  }

  /** A CV uploaded by the page is removed from storage when deleted. */
  lemma UploadedCvIsRemoved(a: InfoApplicant, base: string, fileName: string)
    requires '/' !in a.id && '/' !in fileName
    requires a.cvUrl == Some(base + "/" + UploadPath(a.id, fileName))
    ensures DeleteCvPlan(a).removeFile == Some(UploadPath(a.id, fileName))
  {
    StoragePathRoundTrip(base, a.id, fileName);
    ContainsInfix("", a.id, "/" + fileName);
    assert "" + a.id + ("/" + fileName) == UploadPath(a.id, fileName);
  }

  /** The add-applicant form. */
  datatype NewApplicantForm = NewApplicantForm(
    firstName: string,
    lastName: string,
    email: string,
    phone: string,
    gender: string,
    experience: int,
    jobId: string,
    status: string)

  function DefaultForm(): NewApplicantForm
  {
    NewApplicantForm("", "", "", "", "Male", 0, "", "Applied")
  }

  /** First name, last name, position and email are required. */
  predicate RequiredFilled(f: NewApplicantForm)
  {
    f.firstName != "" && f.lastName != "" && f.jobId != "" && f.email != ""
  }

  /** The reset form is incomplete again: submitting it twice in a row
      cannot add the applicant twice. */
  lemma DefaultFormIncomplete()
    ensures !RequiredFilled(DefaultForm())
  {
  }

  /** `const { id, job_descriptions, ...updateData } = editForm`: every
      field of the form except the id and the joined job. */
  function EditPayload(form: map<string, Json>): (payload: map<string, Json>)
    ensures forall k :: k in payload <==> k in form && k != "id" && k != "job_descriptions"
    ensures forall k :: k in payload ==> payload[k] == form[k]
  {
    form - {"id", "job_descriptions"}
  }

  /** A pending confirmation: its message and the applicant whose CV it
      deletes (the only action the screen confirms). */
  datatype PendingAction = PendingAction(message: string, applicant: InfoApplicant)

  /** The next-page button as written: `Math.min(totalPages, p + 1)`. With
      no rows there are no pages, and the button, still enabled because
      the page is not equal to 0, moves to page 0. */
  function NextPageAsWritten(page: int, totalPages: nat): int
  {
    NextPage(page, totalPages)
  }

  lemma NextPageReachesZero()
    ensures NextPageAsWritten(1, 0) == 0
  {
  }

  /** The next-page button as intended: one page on, but never past the
      last page and never below page 1. */
  function NextPageClamped(page: int, totalPages: nat): (r: int)
    ensures 1 <= r
    ensures r <= totalPages || r == 1
    ensures 1 <= page < totalPages ==> r == page + 1
  {
    var next := NextPage(page, totalPages);
    if next < 1 then 1 else next
  }

  /** From any page both buttons land on page 1 or a real page, so the rows
      shown always start at a non-negative index. */
  lemma ButtonsStayOnPages(page: int, totalPages: nat)
    ensures 1 <= PrevPage(page)
    ensures 1 <= NextPageClamped(page, totalPages) <= if totalPages == 0 then 1 else totalPages
  {
  }

  /** The screen's state. */
  class CvManagement {
    var applicants: seq<InfoApplicant>
    var searchTerm: string
    var statusFilter: string
    var genderFilter: string
    var sort: SortState
    var currentPage: int
    var confirmAction: Option<PendingAction>
    var showConfirmModal: bool
    var newApplicantForm: NewApplicantForm
    var showAddModal: bool
    var editForm: map<string, Json>
    var showEditModal: bool

    constructor ()
      ensures applicants == [] && searchTerm == "" && statusFilter == "All" && genderFilter == "All"
      ensures sort == SortState("id", Asc) && currentPage == 1
      ensures confirmAction.None? && !showConfirmModal
      ensures newApplicantForm == DefaultForm() && !showAddModal
      ensures editForm == map[] && !showEditModal
    {
      applicants := [];
      searchTerm := "";
      statusFilter := "All";
      genderFilter := "All";
      sort := SortState("id", Asc);
      currentPage := 1;
      confirmAction := None;
      showConfirmModal := false;
      newApplicantForm := DefaultForm();
      showAddModal := false;
      editForm := map[];
      showEditModal := false;
    }

    function FilteredApplicants(): seq<InfoApplicant>
      reads this
    {
      Filtered(applicants, searchTerm, statusFilter, genderFilter)
    }

    function TotalPages(): nat
      reads this
    {
      ListView.TotalPages(|FilteredApplicants()|, ItemsPerPage)
    }

    /** The filter, sort and paginate pipeline: the filtered rows sorted in
        place by the current column, and the current page of them. */
    method View() returns (sorted: seq<InfoApplicant>, page: seq<InfoApplicant>)
      ensures multiset(sorted) == multiset(FilteredApplicants())
      ensures sort.direction == Asc ==> forall i, j :: 0 <= i < j < |sorted| ==> LessOrEqual(SortKey(sorted[i], sort.field), SortKey(sorted[j], sort.field))
      ensures sort.direction == Desc ==> forall i, j :: 0 <= i < j < |sorted| ==> LessOrEqual(SortKey(sorted[j], sort.field), SortKey(sorted[i], sort.field))
      ensures page == PageItems(sorted, currentPage, ItemsPerPage)
      ensures currentPage >= 1 ==> |page| <= ItemsPerPage
    {
      var rows := FilteredApplicants();
      var a := new InfoApplicant[|rows|](i requires 0 <= i < |rows| => rows[i]);
      assert a[..] == rows;
      SortApplicants(a, sort);
      sorted := a[..];
      page := PageItems(sorted, currentPage, ItemsPerPage);
    }

    /** `handleSort`. */
    method HandleSort(field: string)
      modifies this
      ensures sort == SortAfterClick(old(sort), field)
      ensures applicants == old(applicants) && currentPage == old(currentPage)
      ensures searchTerm == old(searchTerm) && statusFilter == old(statusFilter) && genderFilter == old(genderFilter)
    {
      if sort.field == field {
        sort := sort.(direction := if sort.direction == Asc then Desc else Asc);
      } else {
        sort := SortState(field, Asc);
      }
    }

    /** `handleDeleteCV` through `showConfirm`: the deletion waits for a
        confirmation. */
    method HandleDeleteCv(a: InfoApplicant)
      modifies this
      ensures confirmAction == Some(PendingAction("Are you sure you want to delete this CV?", a))
      ensures showConfirmModal
      ensures applicants == old(applicants)
    {
      confirmAction := Some(PendingAction("Are you sure you want to delete this CV?", a));
      showConfirmModal := true;
    }

    /** `handleConfirm`: the pending deletion, if there is one, is carried
        out; the modal is closed and the action cleared in any case. */
    method HandleConfirm() returns (done: Option<CvDeletion>)
      modifies this
      ensures old(confirmAction).None? <==> done.None?
      ensures old(confirmAction).Some? ==> done == Some(DeleteCvPlan(old(confirmAction).value.applicant))
      ensures !showConfirmModal && confirmAction.None?
      ensures applicants == old(applicants) && sort == old(sort) && currentPage == old(currentPage)
    {
      done := None;
      if confirmAction.Some? {
        done := Some(DeleteCvPlan(confirmAction.value.applicant));
      }
      showConfirmModal := false;
      confirmAction := None;
    }

    /** The cancel button closes the modal and leaves the action pending. */
    method CancelConfirm()
      modifies this
      ensures !showConfirmModal && confirmAction == old(confirmAction)
      ensures applicants == old(applicants)
    {
      showConfirmModal := false;
    }

    /** `handleAddApplicant`: an incomplete form is refused with nothing
        inserted; a failed insert keeps the form and the modal; a
        successful one resets the form and closes the modal. */
    method HandleAddApplicant(insertError: Option<string>) returns (inserted: Option<NewApplicantForm>, alert: Option<string>)
      modifies this
      ensures inserted.Some? <==> RequiredFilled(old(newApplicantForm))
      ensures inserted.Some? ==> inserted.value == old(newApplicantForm)
      ensures inserted.None? || insertError.Some? <==> alert.Some?
      ensures alert.None? ==> newApplicantForm == DefaultForm() && !showAddModal
      ensures alert.Some? ==> newApplicantForm == old(newApplicantForm) && showAddModal == old(showAddModal)
      ensures applicants == old(applicants)
    {
      if !RequiredFilled(newApplicantForm) {
        return None, Some("Please fill in all required fields (First Name, Last Name, Email, Position)");
      }
      inserted := Some(newApplicantForm);
      if insertError.Some? {
        return inserted, insertError;
      }
      alert := None;
      newApplicantForm := DefaultForm();
      showAddModal := false;
    }

    /** `handleEditSave`: the update sends every edited field but the id
        and the joined job, for the row with the form's id; the modal
        closes only when the update succeeds. */
    method HandleEditSave(updateError: Option<string>) returns (payload: map<string, Json>, target: Json)
      modifies this
      ensures payload == EditPayload(old(editForm))
      ensures "id" !in payload && "job_descriptions" !in payload
      ensures target == if "id" in old(editForm) then old(editForm)["id"] else Undefined
      ensures showEditModal == (old(showEditModal) && updateError.Some?)
      ensures editForm == old(editForm) && applicants == old(applicants)
    {
      payload := EditPayload(editForm);
      target := if "id" in editForm then editForm["id"] else Undefined;
      if updateError.None? {
        showEditModal := false;
      }
    }

    /** The previous-page button: `Math.max(1, p - 1)`. */
    method GoToPreviousPage()
      modifies this
      ensures currentPage == PrevPage(old(currentPage)) && currentPage >= 1
      ensures applicants == old(applicants) && sort == old(sort)
      ensures searchTerm == old(searchTerm) && statusFilter == old(statusFilter) && genderFilter == old(genderFilter)
    {
      currentPage := PrevPage(currentPage);
    }

    /** The next-page button, clamped as intended. */
    method GoToNextPage()
      modifies this
      ensures currentPage == NextPageClamped(old(currentPage), old(TotalPages())) && currentPage >= 1
      ensures applicants == old(applicants) && sort == old(sort)
      ensures searchTerm == old(searchTerm) && statusFilter == old(statusFilter) && genderFilter == old(genderFilter)
    {
      currentPage := NextPageClamped(currentPage, TotalPages());
    }
  }
}
