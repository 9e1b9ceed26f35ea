/**
 * The employer's dashboard: a status filter and counts over the employer's
 * jobs, delete and update by id, and the edit dialog's field and
 * salary-type changes.
 */
module MyJobs {
  import opened Wrappers
  import opened Text
  import opened Lists
  import opened JobRecord

  /** The status test: "active" keeps live jobs, "expired" expired ones, any other value every job. */
  predicate MatchesStatus(j: Job, status: string)
  {
    if status == "all" then true
    else if status == "active" then !j.expired
    else if status == "expired" then j.expired
    else true
  }

  /**
   * The status buttons set "all", "active" or "expired"; any other value
   * shows every job. The result is the jobs passing `MatchesStatus`, every
   * copy kept and in order; the membership and "unchanged" clauses after
   * the multiset one are its corollaries for each button.
   */
  function StatusFilter(jobs: seq<Job>, status: string): (r: seq<Job>)
    ensures IsSubsequence(r, jobs)
    ensures forall j :: multiset(r)[j] == if MatchesStatus(j, status) then multiset(jobs)[j] else 0
    ensures status == "active" ==> forall j :: j in r <==> j in jobs && !j.expired
    ensures status == "expired" ==> forall j :: j in r <==> j in jobs && j.expired
    ensures status != "active" && status != "expired" ==> r == jobs
  {
    var keep := (j: Job) => MatchesStatus(j, status);
    FilterMembers(jobs, keep);
    FilterIsSubsequence(jobs, keep);
    FilterKeepsAll(jobs, keep);
    Filter(jobs, keep)
  }

  /** The "Active Jobs" card. */
  function ActiveCount(jobs: seq<Job>): nat
  {
    |Filter(jobs, (j: Job) => !j.expired)|
  }

  /** The "Expired Jobs" card. */
  function ExpiredCount(jobs: seq<Job>): nat
  {
    |Filter(jobs, (j: Job) => j.expired)|
  }

  /** Active and expired jobs together are all the jobs on the "Total Jobs" card. */
  lemma CountsAddUp(jobs: seq<Job>)
    ensures ActiveCount(jobs) + ExpiredCount(jobs) == |jobs|
  {
    FilterPartition(jobs, (j: Job) => !j.expired, (j: Job) => j.expired);
  }

  /** The counts agree with what the "active" and "expired" buttons show. */
  lemma CountsMatchStatusFilter(jobs: seq<Job>)
    ensures |StatusFilter(jobs, "active")| == ActiveCount(jobs)
    ensures |StatusFilter(jobs, "expired")| == ExpiredCount(jobs)
  {
    FilterExtensional(jobs, (j: Job) => MatchesStatus(j, "active"), (j: Job) => !j.expired);
    FilterExtensional(jobs, (j: Job) => MatchesStatus(j, "expired"), (j: Job) => j.expired);
  }

  /** The list after a successful delete: no job with that id is left, the others stay in order. */
  function RemoveJob(jobs: seq<Job>, id: string): (r: seq<Job>)
    ensures IsSubsequence(r, jobs)
    ensures forall j :: multiset(r)[j] == if j.id != id then multiset(jobs)[j] else 0
    ensures forall j :: j in r <==> j in jobs && j.id != id
    ensures (forall j :: j in jobs ==> j.id != id) ==> r == jobs
  {
    FilterMembers(jobs, (j: Job) => j.id != id);
    FilterIsSubsequence(jobs, (j: Job) => j.id != id);
    FilterKeepsAll(jobs, (j: Job) => j.id != id);
    Filter(jobs, (j: Job) => j.id != id)
  }

  /**
   * The list after a successful update: each entry with the edited job's
   * id becomes the edited job; every other entry, the ids and the length
   * stay as they were.
   */
  function ReplaceJob(jobs: seq<Job>, edited: Job): (r: seq<Job>)
    ensures |r| == |jobs|
    ensures forall i :: 0 <= i < |jobs| ==> r[i].id == jobs[i].id
    ensures forall i :: 0 <= i < |jobs| && jobs[i].id != edited.id ==> r[i] == jobs[i]
    ensures forall i :: 0 <= i < |jobs| && jobs[i].id == edited.id ==> r[i] == edited
  {
    Map(jobs, (j: Job) => if j.id == edited.id then edited else j)
  }

  /** Deleting an id after updating it is the same as deleting it straight away. */
  lemma {:induction false} DeleteAfterUpdate(jobs: seq<Job>, edited: Job)
    ensures RemoveJob(ReplaceJob(jobs, edited), edited.id) == RemoveJob(jobs, edited.id)
  {
    if jobs != [] {
      DeleteAfterUpdate(jobs[1..], edited);
      var m := ReplaceJob(jobs, edited);
      assert m[1..] == ReplaceJob(jobs[1..], edited);
      if jobs[0].id == edited.id {
        assert RemoveJob(m, edited.id) == RemoveJob(m[1..], edited.id);
        assert RemoveJob(jobs, edited.id) == RemoveJob(jobs[1..], edited.id);
      } else {
        assert m[0] == jobs[0];
        assert RemoveJob(m, edited.id) == [m[0]] + RemoveJob(m[1..], edited.id);
        assert RemoveJob(jobs, edited.id) == [jobs[0]] + RemoveJob(jobs[1..], edited.id);
      }
    }
  }

  /** Updating with the same record twice is the same as once. */
  lemma UpdateIdempotent(jobs: seq<Job>, edited: Job)
    ensures ReplaceJob(ReplaceJob(jobs, edited), edited) == ReplaceJob(jobs, edited)
  {
  }

  /** The edit dialog's text inputs. */
  datatype TextField =
    | Title | Description | Category | Country | City | Location
    | FixedSalaryField | SalaryFromField | SalaryToField

  /** A `handleInputChange(field, value)` call: a text field, or the expired select. */
  datatype Edit = SetText(field: TextField, text: string) | SetExpired(flag: bool)

  /** The value of a text field; the salary keys may be absent. */
  function TextOf(j: Job, f: TextField): Option<string>
  {
    match f
    case Title => Some(j.title)
    case Description => Some(j.description)
    case Category => Some(j.category)
    case Country => Some(j.country)
    case City => Some(j.city)
    case Location => Some(j.location)
    case FixedSalaryField => j.fixedSalary
    case SalaryFromField => j.salaryFrom
    case SalaryToField => j.salaryTo
  }

  /** `handleInputChange`: the named field takes the value, nothing else changes. */
  function ApplyEdit(j: Job, e: Edit): (r: Job)
    ensures r.id == j.id
    ensures e.SetText? ==> TextOf(r, e.field) == Some(e.text) && r.expired == j.expired
    ensures e.SetText? ==> forall g :: g != e.field ==> TextOf(r, g) == TextOf(j, g)
    ensures e.SetExpired? ==> r.expired == e.flag && forall g :: TextOf(r, g) == TextOf(j, g)
  {
    match e
    case SetExpired(b) => j.(expired := b)
    case SetText(f, v) =>
      match f
      case Title => j.(title := v)
      case Description => j.(description := v)
      case Category => j.(category := v)
      case Country => j.(country := v)
      case City => j.(city := v)
      case Location => j.(location := v)
      case FixedSalaryField => j.(fixedSalary := Some(v))
      case SalaryFromField => j.(salaryFrom := Some(v))
      case SalaryToField => j.(salaryTo := Some(v))
  }

  /** `value || ""` on an optional string. */
  function OrEmpty(o: Option<string>): string
  {
    if o.Some? && Truthy(o.value) then o.value else ""
  }

  predicate IsSalaryField(f: TextField)
  {
    f == FixedSalaryField || f == SalaryFromField || f == SalaryToField
  }

  /**
   * `handleSalaryTypeChange`: choosing "fixed" keeps the fixed amount (or
   * "") and removes the range keys; choosing the range keeps the bounds
   * (or "") and removes the fixed key. No other field changes.
   */
  function SwitchSalary(j: Job, isFixed: bool): (r: Job)
    ensures isFixed ==> r.fixedSalary == Some(OrEmpty(j.fixedSalary)) && r.salaryFrom.None? && r.salaryTo.None?
    ensures !isFixed ==>
      r.fixedSalary.None? && r.salaryFrom == Some(OrEmpty(j.salaryFrom)) && r.salaryTo == Some(OrEmpty(j.salaryTo))
    ensures r.id == j.id && r.expired == j.expired
    ensures forall g :: !IsSalaryField(g) ==> TextOf(r, g) == TextOf(j, g)
  {
    j.(fixedSalary := if isFixed then Some(OrEmpty(j.fixedSalary)) else None,
       salaryFrom := if !isFixed then Some(OrEmpty(j.salaryFrom)) else None,
       salaryTo := if !isFixed then Some(OrEmpty(j.salaryTo)) else None)
  }

  /** The two salary lines a job card can show, before number formatting. */
  datatype SalaryView = FixedView(amount: string) | RangeView(from: string, to: string)

  /** `formatSalary`: the fixed form when the fixed amount is truthy, else the range with missing bounds as 0. */
  function FormatSalary(j: Job): (v: SalaryView)
    ensures v.FixedView? <==> j.fixedSalary.Some? && Truthy(j.fixedSalary.value)
    ensures v.FixedView? ==> v.amount == j.fixedSalary.value
    ensures v.RangeView? ==> (j.salaryFrom.Some? && Truthy(j.salaryFrom.value) ==> v.from == j.salaryFrom.value)
    ensures v.RangeView? ==> (!(j.salaryFrom.Some? && Truthy(j.salaryFrom.value)) ==> v.from == "0")
    ensures v.RangeView? ==> (j.salaryTo.Some? && Truthy(j.salaryTo.value) ==> v.to == j.salaryTo.value)
    ensures v.RangeView? ==> (!(j.salaryTo.Some? && Truthy(j.salaryTo.value)) ==> v.to == "0")
  {
    if j.fixedSalary.Some? && Truthy(j.fixedSalary.value) then FixedView(j.fixedSalary.value)
    else RangeView(if Truthy(OrEmpty(j.salaryFrom)) then OrEmpty(j.salaryFrom) else "0",
                   if Truthy(OrEmpty(j.salaryTo)) then OrEmpty(j.salaryTo) else "0")
  }

  /** Switching a job to the range shape makes its card show the range form, with its old bounds. */
  lemma RangeSwitchShowsRange(j: Job)
    ensures FormatSalary(SwitchSalary(j, false)).RangeView?
    ensures FormatSalary(SwitchSalary(j, false)) == FormatSalary(j.(fixedSalary := None))
  {
  }

  /** Switching a job with a fixed amount to "fixed" leaves its card as it was. */
  lemma FixedSwitchKeepsFixedCard(j: Job)
    requires j.fixedSalary.Some? && Truthy(j.fixedSalary.value)
    ensures FormatSalary(SwitchSalary(j, true)) == FormatSalary(j) == FixedView(j.fixedSalary.value)
  {
  }

  /** What the edit dialog shows below the salary-type radios. */
  datatype SalaryInputs = NoSalaryInputs | FixedAmountInput | RangeInputs

  /**
   * The edit dialog's salary section as written: nothing while the fixed key is absent,
   * the amount input while it is truthy, the two bounds otherwise.
   */
  function SalaryInputsShown(j: Job): SalaryInputs
  {
    if j.fixedSalary.None? then NoSalaryInputs
    else if Truthy(j.fixedSalary.value) then FixedAmountInput
    else RangeInputs
  }

  /**
   * As written, choosing "fixed" for a job that has no fixed amount shows
   * the Min/Max inputs, never the amount input: the amount becomes ""
   * which counts as false.
   */
  lemma ChoosingFixedShowsRangeInputs(j: Job)
    requires !(j.fixedSalary.Some? && Truthy(j.fixedSalary.value))
    ensures SalaryInputsShown(SwitchSalary(j, true)) == RangeInputs
  {
  }

  /** As written, choosing the range for any job hides the salary inputs altogether. */
  lemma ChoosingRangeHidesInputs(j: Job)
    ensures SalaryInputsShown(SwitchSalary(j, false)) == NoSalaryInputs
  {
  }

  /**
   * The browser's check of the dialog's `required` inputs, made before
   * `onSubmit` fires: title, country, city and description, and the salary
   * inputs the dialog shows, must be non-empty. The category select always
   * has an option selected, so it never blocks.
   */
  predicate DialogComplete(j: Job)
  {
    && Truthy(j.title) && Truthy(j.country) && Truthy(j.city) && Truthy(j.description)
    && match SalaryInputsShown(j)
       case NoSalaryInputs => true
       case FixedAmountInput => Truthy(OrEmpty(j.fixedSalary))
       case RangeInputs => Truthy(OrEmpty(j.salaryFrom)) && Truthy(OrEmpty(j.salaryTo))
  }

  /**
   * As written, choosing "fixed" for a job without a fixed amount blocks
   * the save until the Min/Max inputs, not the amount, are filled in.
   */
  lemma ChoosingFixedBlocksSave(j: Job)
    requires !(j.fixedSalary.Some? && Truthy(j.fixedSalary.value))
    ensures !DialogComplete(SwitchSalary(j, true))
    ensures DialogComplete(ApplyEdit(ApplyEdit(SwitchSalary(j, true), SetText(SalaryFromField, "1")), SetText(SalaryToField, "2")))
      <==> Truthy(j.title) && Truthy(j.country) && Truthy(j.city) && Truthy(j.description)
  {
  }

  /** The inputs as evidently intended: the amount when the fixed key is present, the bounds otherwise. */
  function SalaryInputsIntended(j: Job): SalaryInputs
  {
    if j.fixedSalary.Some? then FixedAmountInput else RangeInputs
  }

  /** With the intended choice the dialog always shows the inputs of the shape just chosen. */
  lemma IntendedShowsChosenInputs(j: Job, isFixed: bool)
    ensures SalaryInputsIntended(SwitchSalary(j, isFixed)) == if isFixed then FixedAmountInput else RangeInputs
  {
  }

  /** The `MyJobs` component's state. */
  class MyJobsDashboard {
    var myJobs: seq<Job>
    var editingJob: Option<Job>
    var isModalOpen: bool
    var isDeleting: Option<string>
    var filterStatus: string
    var loading: bool

    /**
     * The jobs listed under the current status button once loading has
     * finished; while `loading` holds placeholder cards are shown instead.
     */
    function Shown(): seq<Job>
      reads this
    {
      StatusFilter(myJobs, filterStatus)
    }

    constructor ()
      ensures myJobs == [] && editingJob == None && !isModalOpen && isDeleting == None
      ensures filterStatus == "all" && loading
    {
      myJobs, editingJob, isModalOpen, isDeleting, filterStatus := [], None, false, None, "all";
      loading := true;
    }

    /** The fetch of the employer's jobs starts: the placeholder cards are shown. */
    method FetchStarted()
      modifies this`loading
      ensures loading
    {
      loading := true;
    }

    /** The fetch of the employer's jobs has finished; a failure empties the list. Either way loading ends. */
    method JobsFetched(response: Option<Option<seq<Job>>>)
      modifies this`myJobs, this`loading
      ensures myJobs == match response
        case Some(Some(js)) => js
        case _ => []
      ensures !loading
    {
      myJobs := if response.Some? && response.value.Some? then response.value.value else [];
      loading := false;
    }

    method SetFilterStatus(status: string)
      modifies this`filterStatus
      ensures filterStatus == status
    {
      filterStatus := status;
    }

    /** The edit button: the dialog opens on a copy of the job. */
    method EditClick(job: Job)
      modifies this`editingJob, this`isModalOpen
      ensures editingJob == Some(job) && isModalOpen
    {
      editingJob := Some(job);
      isModalOpen := true;
    }

    /**
     * The delete button, up to the request: when the confirmation is
     * declined nothing happens; otherwise the spinner is shown for the job
     * and a delete request is made.
     */
    method DeleteClick(jobId: string, confirmed: bool) returns (requested: bool)
      modifies this`isDeleting
      ensures requested == confirmed
      ensures isDeleting == if confirmed then Some(jobId) else old(isDeleting)
    {
      requested := confirmed;
      if confirmed {
        isDeleting := Some(jobId);
      }
    }

    /** The delete request has settled: on success the job is gone from the list; the spinner stops. */
    method DeleteSettled(ok: bool)
      requires isDeleting.Some?
      modifies this`myJobs, this`isDeleting
      ensures myJobs == if ok then RemoveJob(old(myJobs), old(isDeleting).value) else old(myJobs)
      ensures isDeleting == None
    {
      if ok {
        myJobs := RemoveJob(myJobs, isDeleting.value);
      }
      isDeleting := None;
    }

    /** A field of the dialog changed. */
    method InputChange(e: Edit)
      requires editingJob.Some?
      modifies this`editingJob
      ensures editingJob == Some(ApplyEdit(old(editingJob).value, e))
    {
      editingJob := Some(ApplyEdit(editingJob.value, e));
    }

    /** A salary-type radio was chosen. */
    method SalaryTypeChange(isFixed: bool)
      requires editingJob.Some?
      modifies this`editingJob
      ensures editingJob == Some(SwitchSalary(old(editingJob).value, isFixed))
    {
      editingJob := Some(SwitchSalary(editingJob.value, isFixed));
    }

    /** The dialog's close and cancel buttons: the dialog closes, the edited record stays. */
    method CloseDialog()
      modifies this`isModalOpen
      ensures !isModalOpen
    {
      isModalOpen := false;
    }

    /**
     * The dialog's save, up to the request: when a required input is empty
     * the browser stops the submit and nothing is sent; otherwise the
     * update request carries the edited record's id and the record itself.
     * Nothing changes yet; the dialog stays open and editable while the
     * request is out.
     */
    method SaveClick() returns (request: Option<(string, Job)>)
      requires editingJob.Some?
      ensures request.Some? <==> DialogComplete(editingJob.value)
      ensures request.Some? ==> request.value.0 == editingJob.value.id && request.value.1 == editingJob.value
    {
      if DialogComplete(editingJob.value) {
        request := Some((editingJob.value.id, editingJob.value));
      } else {
        request := None;
      }
    }

    /**
     * The update request for `sent` has settled: on success the record
     * that was sent, not whatever the dialog holds now, replaces the
     * entries with its id, and the dialog closes; on failure nothing
     * changes.
     */
    method UpdateSettled(sent: Job, ok: bool)
      modifies this`myJobs, this`editingJob, this`isModalOpen
      ensures ok ==> myJobs == ReplaceJob(old(myJobs), sent) && editingJob == None && !isModalOpen
      ensures !ok ==> unchanged(this)
    {
      if ok {
        myJobs := ReplaceJob(myJobs, sent);
        isModalOpen := false;
        editingJob := None;
      }
    }
  }
}
