/**
 * The applications page: the list a user sees depends on the role, resume
 * names kept in the browser's store are merged in, a job seeker may delete
 * an application, and the resume's extension picks its icon.
 */
module MyApplications {
  import opened Wrappers
  import opened Text
  import opened Lists

  /** An application as the page holds it. */
  datatype JobApplication = JobApplication(
    id: string,
    name: string,
    email: string,
    phone: string,
    address: string,
    coverLetter: string,
    resume: Option<string>)

  /** What the store holds under a key: a record that parses (its name may be missing) or text that does not. */
  datatype StoredResume = Parsed(name: Option<string>) | Malformed

  /** The browser store: key to stored entry; a key not in the map has nothing stored. */
  type ResumeStore = map<string, StoredResume>

  /** The two list endpoints. */
  datatype Source = EmployerApplications | JobSeekerApplications

  /** An Employer loads the applications to their jobs; any other role its own applications. */
  function ListSource(role: string): (s: Source)
    ensures s == EmployerApplications <==> role == "Employer"
  {
    if role == "Employer" then EmployerApplications else JobSeekerApplications
  }

  /** Only the Job Seeker card has a delete button. */
  predicate OffersDelete(role: string)
  {
    role == "Job Seeker"
  }

  /** Delete is only offered on a list of the user's own applications. */
  lemma DeleteOnlyOnOwnList(role: string)
    requires OffersDelete(role)
    ensures ListSource(role) == JobSeekerApplications
  {
    assert role[0] == 'J';
  }

  /** The store key of an application's resume. */
  function ResumeKey(id: string): string
  {
    "application_resume_" + id
  }

  /** Distinct applications have distinct store keys. */
  lemma ResumeKeyInjective(id1: string, id2: string)
    requires ResumeKey(id1) == ResumeKey(id2)
    ensures id1 == id2
  {
    var prefix := "application_resume_";
    assert id1 == ResumeKey(id1)[|prefix|..];
    assert id2 == ResumeKey(id2)[|prefix|..];
  }

  /** One application with its stored resume name merged in, if there is one that parses. */
  function WithStoredResume(a: JobApplication, store: ResumeStore): JobApplication
  {
    var key := ResumeKey(a.id);
    if key in store && store[key].Parsed? then a.(resume := store[key].name) else a
  }

  /**
   * The loaded list with stored resumes merged in: same length and order;
   * an entry's resume becomes the stored name exactly when a stored entry
   * exists and parses, and every entry is otherwise left as it was.
   */
  function MergeResumes(apps: seq<JobApplication>, store: ResumeStore): (r: seq<JobApplication>)
    ensures |r| == |apps|
    ensures forall i :: 0 <= i < |apps| ==> r[i] == apps[i].(resume := r[i].resume)
    ensures forall i :: 0 <= i < |apps| ==>
      var key := ResumeKey(apps[i].id);
      if key in store && store[key].Parsed? then r[i].resume == store[key].name else r[i] == apps[i]
  {
    Map(apps, (a: JobApplication) => WithStoredResume(a, store))
  }

  /** Merging twice is merging once. */
  lemma MergeIdempotent(apps: seq<JobApplication>, store: ResumeStore)
    ensures MergeResumes(MergeResumes(apps, store), store) == MergeResumes(apps, store)
  {
  }

  /** The list after a successful delete: exactly the applications with that id are gone, the rest stay in order. */
  function RemoveApplication(apps: seq<JobApplication>, id: string): (r: seq<JobApplication>)
    ensures IsSubsequence(r, apps)
    ensures forall a :: multiset(r)[a] == if a.id != id then multiset(apps)[a] else 0
    ensures forall a :: a in r <==> a in apps && a.id != id
  {
    FilterMembers(apps, (a: JobApplication) => a.id != id);
    FilterIsSubsequence(apps, (a: JobApplication) => a.id != id);
    Filter(apps, (a: JobApplication) => a.id != id)
  }

  /** Deleting after merging gives the same list as merging after deleting. */
  lemma DeleteCommutesWithMerge(apps: seq<JobApplication>, store: ResumeStore, id: string)
    ensures RemoveApplication(MergeResumes(apps, store), id) == MergeResumes(RemoveApplication(apps, id), store)
  {
    FilterMapCommute(apps, (a: JobApplication) => a.id != id, (a: JobApplication) => WithStoredResume(a, store));
  }

  /** The icon beside a resume. */
  datatype ResumeIcon = PdfIcon | WordIcon | GenericIcon

  /** ".pdf" gives the PDF icon, ".doc" or ".docx" the Word icon, anything else or no resume the generic one. */
  function IconFor(resume: Option<string>): (icon: ResumeIcon)
    ensures icon == PdfIcon <==> resume.Some? && EndsWith(resume.value, ".pdf")
    ensures icon == WordIcon <==>
      resume.Some? && !EndsWith(resume.value, ".pdf") && (EndsWith(resume.value, ".doc") || EndsWith(resume.value, ".docx"))
  {
    match resume
    case None => GenericIcon
    case Some(name) =>
      if !Truthy(name) then GenericIcon
      else if EndsWith(name, ".pdf") then PdfIcon
      else if EndsWith(name, ".doc") || EndsWith(name, ".docx") then WordIcon
      else GenericIcon
  }

  /** A file name with one of the three extensions gets that extension's icon, whatever comes before it. */
  lemma IconOfExtension(stem: string)
    ensures IconFor(Some(stem + ".pdf")) == PdfIcon
    ensures IconFor(Some(stem + ".doc")) == WordIcon
    ensures IconFor(Some(stem + ".docx")) == WordIcon
  {
    var pdf, doc, docx := stem + ".pdf", stem + ".doc", stem + ".docx";
    assert pdf[|pdf| - 4..] == ".pdf";
    assert doc[|doc| - 4..] == ".doc";
    assert docx[|docx| - 5..] == ".docx";
    assert docx[|docx| - 4..] == "docx";
  }

  /** The `MyApplications` component's state. */
  class MyApplicationsPage {
    var applications: seq<JobApplication>

    constructor ()
      ensures applications == []
    {
      applications := [];
    }

    /**
     * The fetch for the signed-in user (none: no fetch): the role picks
     * the endpoint, `respond` is what that endpoint answers (None for an
     * error); on an answer the list is its applications with stored
     * resumes merged in, on an error the list is left as it was.
     */
    method FetchApplications(role: Option<string>, respond: Source -> Option<seq<JobApplication>>, store: ResumeStore)
      modifies this`applications
      ensures role.Some? && respond(ListSource(role.value)).Some? ==>
        applications == MergeResumes(respond(ListSource(role.value)).value, store)
      ensures !(role.Some? && respond(ListSource(role.value)).Some?) ==> applications == old(applications)
    {
      if role.Some? {
        var response := respond(ListSource(role.value));
        if response.Some? {
          applications := MergeResumes(response.value, store);
        }
      }
    }

    /** `handleDelete` once the request has settled: on success the application is removed, on failure nothing changes. */
    method HandleDelete(id: string, ok: bool)
      modifies this`applications
      ensures applications == if ok then RemoveApplication(old(applications), id) else old(applications)
    {
      if ok {
        applications := RemoveApplication(applications, id);
      }
    }
  }
}
