/**
 * The four-step job-posting wizard: per-step checks gate "Next", the final
 * submit validates every field and builds a payload with exactly one
 * salary shape, and a successful post resets the form.
 */
module PostJob {
  import opened Wrappers
  import opened Text

  /** The three values the salary-type select offers. */
  datatype SalaryType = DefaultType | FixedSalary | RangedSalary

  /** The values of the form's fields at one moment. */
  datatype JobDraft = JobDraft(
    title: string,
    description: string,
    category: string,
    country: string,
    city: string,
    location: string,
    salaryFrom: string,
    salaryTo: string,
    fixedSalary: string,
    salaryType: SalaryType)

  /** The form as it starts, and as a successful post leaves it. */
  const EmptyDraft := JobDraft("", "", "", "", "", "", "", "", "", DefaultType)

  /** The reasons a submission or a step is refused, one per error toast. */
  datatype PostError =
    | MissingFields
    | MissingTitleOrCategory
    | MissingLocationDetails
    | NoSalaryType
    | MissingFixedSalary
    | MissingSalaryRange

  /** The request body; a key that is not sent is None. */
  datatype JobPayload = JobPayload(
    title: string,
    description: string,
    category: string,
    country: string,
    city: string,
    location: string,
    fixedSalary: Option<string>,
    salaryFrom: Option<string>,
    salaryTo: Option<string>)

  /** Exactly one salary shape is sent, and its values are non-empty. */
  predicate OneSalaryShape(p: JobPayload)
  {
    || (p.fixedSalary.Some? && Truthy(p.fixedSalary.value) && p.salaryFrom.None? && p.salaryTo.None?)
    || (p.fixedSalary.None? && p.salaryFrom.Some? && Truthy(p.salaryFrom.value)
        && p.salaryTo.Some? && Truthy(p.salaryTo.value))
  }

  /** The payload carries the draft's six text fields unchanged. */
  predicate CarriesDetails(p: JobPayload, d: JobDraft)
  {
    && p.title == d.title && p.description == d.description && p.category == d.category
    && p.country == d.country && p.city == d.city && p.location == d.location
  }

  predicate DetailsFilled(d: JobDraft)
  {
    && Truthy(d.title) && Truthy(d.description) && Truthy(d.category)
    && Truthy(d.country) && Truthy(d.city) && Truthy(d.location)
  }

  /** The salary checks, shared by the submit handler and step 3. */
  function SalaryError(d: JobDraft): Option<PostError>
  {
    if d.salaryType == DefaultType then Some(NoSalaryType)
    else if d.salaryType == FixedSalary && !Truthy(d.fixedSalary) then Some(MissingFixedSalary)
    else if d.salaryType == RangedSalary && (!Truthy(d.salaryFrom) || !Truthy(d.salaryTo)) then Some(MissingSalaryRange)
    else None
  }

  /** The request body: the fixed shape for a fixed salary, the range shape otherwise. */
  function Payload(d: JobDraft): JobPayload
  {
    if d.salaryType == FixedSalary then
      JobPayload(d.title, d.description, d.category, d.country, d.city, d.location, Some(d.fixedSalary), None, None)
    else
      JobPayload(d.title, d.description, d.category, d.country, d.city, d.location, None, Some(d.salaryFrom), Some(d.salaryTo))
  }

  /** `handleJobPost`'s checks, in order, then the payload. */
  function ValidatePost(d: JobDraft): (r: Result<JobPayload, PostError>)
    ensures r.Ok? <==>
      && DetailsFilled(d)
      && d.salaryType != DefaultType
      && (d.salaryType == FixedSalary ==> Truthy(d.fixedSalary))
      && (d.salaryType == RangedSalary ==> Truthy(d.salaryFrom) && Truthy(d.salaryTo))
    ensures r == Err(MissingFields) <==> !DetailsFilled(d)
    ensures r == Err(NoSalaryType) <==> DetailsFilled(d) && d.salaryType == DefaultType
    ensures r == Err(MissingFixedSalary) <==>
      DetailsFilled(d) && d.salaryType == FixedSalary && !Truthy(d.fixedSalary)
    ensures r == Err(MissingSalaryRange) <==>
      DetailsFilled(d) && d.salaryType == RangedSalary && (!Truthy(d.salaryFrom) || !Truthy(d.salaryTo))
    ensures r.Ok? ==> OneSalaryShape(r.value) && CarriesDetails(r.value, d)
    ensures r.Ok? ==> (r.value.fixedSalary.Some? <==> d.salaryType == FixedSalary)
    ensures r.Ok? && d.salaryType == FixedSalary ==> r.value.fixedSalary == Some(d.fixedSalary)
    ensures r.Ok? && d.salaryType == RangedSalary ==>
      r.value.salaryFrom == Some(d.salaryFrom) && r.value.salaryTo == Some(d.salaryTo)
  {
    if !DetailsFilled(d) then Err(MissingFields)
    else match SalaryError(d)
      case Some(e) => Err(e)
      case None => Ok(Payload(d))
  }

  /** `handleNext`'s check for the step being left; step 4 has none. */
  function StepError(step: int, d: JobDraft): Option<PostError>
  {
    if step == 1 && (!Truthy(d.title) || !Truthy(d.category)) then Some(MissingTitleOrCategory)
    else if step == 2 && (!Truthy(d.country) || !Truthy(d.city) || !Truthy(d.location)) then Some(MissingLocationDetails)
    else if step == 3 then SalaryError(d)
    else None
  }

  /**
   * Passing the three step checks and filling in the description (step 4)
   * is exactly what the submit handler accepts: the wizard's gates and the
   * final validation agree.
   */
  lemma StepsAgreeWithSubmit(d: JobDraft)
    ensures ValidatePost(d).Ok? <==>
      StepError(1, d).None? && StepError(2, d).None? && StepError(3, d).None? && Truthy(d.description)
  {
  }

  /**
   * The salary keys `handleJobPost` clears before the request are ones the
   * payload does not carry: submitting again after a failed post sends the
   * same request.
   */
  lemma ClearingKeepsPayload(d: JobDraft)
    requires ValidatePost(d).Ok?
    ensures ValidatePost(ClearUnusedSalary(d)) == ValidatePost(d)
  {
  }

  /** The form a successful post leaves behind is refused if submitted again. */
  lemma ResetFormIsRefused()
    ensures ValidatePost(EmptyDraft) == Err(MissingFields)
    ensures StepError(1, EmptyDraft) == Some(MissingTitleOrCategory)
  {
  }

  /** `handleJobPost`'s clearing step: the salary keys of the shape not chosen are emptied. */
  function ClearUnusedSalary(d: JobDraft): JobDraft
  {
    if d.salaryType == FixedSalary then d.(salaryFrom := "", salaryTo := "")
    else if d.salaryType == RangedSalary then d.(fixedSalary := "")
    else d.(salaryFrom := "", salaryTo := "", fixedSalary := "")
  }

  /** The text inputs of the form. */
  datatype FormField =
    | TitleField | DescriptionField | CategoryField | CountryField | CityField | LocationField
    | SalaryFromField | SalaryToField | FixedSalaryField

  /** The `PostJob` component's state. */
  class PostJobForm {
    var title: string
    var description: string
    var category: string
    var country: string
    var city: string
    var location: string
    var salaryFrom: string
    var salaryTo: string
    var fixedSalary: string
    var salaryType: SalaryType
    var currentStep: int
    var isLoading: bool

    /** The wizard is always on one of its four steps. */
    ghost predicate Valid()
      reads this
    {
      1 <= currentStep <= 4
    }

    function Draft(): JobDraft
      reads this
    {
      JobDraft(title, description, category, country, city, location, salaryFrom, salaryTo, fixedSalary, salaryType)
    }

    constructor ()
      ensures Valid()
      ensures Draft() == EmptyDraft && currentStep == 1 && !isLoading
    {
      title, description, category := "", "", "";
      country, city, location := "", "", "";
      salaryFrom, salaryTo, fixedSalary := "", "", "";
      salaryType := DefaultType;
      currentStep := 1;
      isLoading := false;
    }

    /** An input's `onChange`: only that field takes the typed value. */
    method Type(field: FormField, value: string)
      requires Valid()
      modifies this
      ensures Valid()
      ensures Draft() == match field
        case TitleField => old(Draft()).(title := value)
        case DescriptionField => old(Draft()).(description := value)
        case CategoryField => old(Draft()).(category := value)
        case CountryField => old(Draft()).(country := value)
        case CityField => old(Draft()).(city := value)
        case LocationField => old(Draft()).(location := value)
        case SalaryFromField => old(Draft()).(salaryFrom := value)
        case SalaryToField => old(Draft()).(salaryTo := value)
        case FixedSalaryField => old(Draft()).(fixedSalary := value)
      ensures currentStep == old(currentStep) && isLoading == old(isLoading)
    {
      match field
      case TitleField => title := value;
      case DescriptionField => description := value;
      case CategoryField => category := value;
      case CountryField => country := value;
      case CityField => city := value;
      case LocationField => location := value;
      case SalaryFromField => salaryFrom := value;
      case SalaryToField => salaryTo := value;
      case FixedSalaryField => fixedSalary := value;
    }

    /** The salary-type select's `onChange`. */
    method SelectSalaryType(t: SalaryType)
      requires Valid()
      modifies this`salaryType
      ensures Valid()
      ensures Draft() == old(Draft()).(salaryType := t)
    {
      salaryType := t;
    }

    /**
     * `handleNext`, reachable only from the "Next" button, which is shown
     * while currentStep < 4: advance by one exactly when the current
     * step's check passes.
     */
    method Next() returns (refused: Option<PostError>)
      requires Valid() && currentStep < 4
      modifies this`currentStep
      ensures Valid()
      ensures refused == StepError(old(currentStep), Draft())
      ensures currentStep == if refused.None? then old(currentStep) + 1 else old(currentStep)
    {
      refused := StepError(currentStep, Draft());
      if refused.None? {
        currentStep := currentStep + 1;
      }
    }

    /** The "Previous" button, shown while currentStep > 1. */
    method Previous()
      requires Valid() && currentStep > 1
      modifies this`currentStep
      ensures Valid()
      ensures currentStep == old(currentStep) - 1
    {
      currentStep := currentStep - 1;
    }

    /**
     * `handleJobPost` up to the request: on a failed check nothing changes
     * and no request is made; otherwise the unused salary keys are emptied,
     * `isLoading` is set and the payload is sent.
     */
    method HandleJobPost() returns (request: Option<JobPayload>)
      requires Valid()
      modifies this
      ensures Valid()
      ensures request == ValidatePost(old(Draft())).ToOption()
      ensures request.None? ==> unchanged(this)
      ensures request.Some? ==>
        && Draft() == ClearUnusedSalary(old(Draft()))
        && currentStep == old(currentStep)
        && isLoading
    {
      var checked := ValidatePost(Draft());
      if checked.Err? {
        return None;
      }
      // The checks rule out "default", so the clearing step's third branch (neither shape) is never taken.
      if salaryType == FixedSalary {
        salaryFrom, salaryTo := "", "";
      } else {
        fixedSalary := "";
      }
      isLoading := true;
      request := Some(checked.value);
    }

    /**
     * The request has settled: on success every field is emptied, the
     * salary type is back to "default" and the wizard is on step 1;
     * either way `isLoading` is cleared.
     */
    method PostSettled(ok: bool)
      requires Valid()
      modifies this
      ensures Valid()
      ensures !isLoading
      ensures ok ==> Draft() == EmptyDraft && currentStep == 1
      ensures !ok ==> Draft() == old(Draft()) && currentStep == old(currentStep)
    {
      if ok {
        title, description, category := "", "", "";
        country, city, location := "", "", "";
        salaryFrom, salaryTo, fixedSalary := "", "", "";
        salaryType := DefaultType;
        currentStep := 1;
      }
      isLoading := false;
    }
  }
}
