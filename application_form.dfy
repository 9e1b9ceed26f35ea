/**
 * The application form: the job id comes from the route, five fields
 * must be filled in, and `sending` marks the request in flight.
 */
module ApplicationForm {
  import opened Wrappers
  import opened Text

  /** The five fields the applicant types. */
  datatype ApplicantFields = ApplicantFields(
    name: string, email: string, phone: string, address: string, coverLetter: string)

  const EmptyFields := ApplicantFields("", "", "", "", "")

  /** The request body. */
  datatype ApplicationPayload = ApplicationPayload(
    name: string, email: string, phone: string, address: string, coverLetter: string, jobId: string)

  datatype ApplicationError = InvalidJobId | MissingFields

  predicate AllFilled(f: ApplicantFields)
  {
    Truthy(f.name) && Truthy(f.email) && Truthy(f.phone) && Truthy(f.address) && Truthy(f.coverLetter)
  }

  /** The fields a payload carries, without the job id. */
  function FieldsOf(p: ApplicationPayload): ApplicantFields
  {
    ApplicantFields(p.name, p.email, p.phone, p.address, p.coverLetter)
  }

  /** `handleApplication`'s checks, in order, then the payload. */
  function CheckApplication(routeId: Option<string>, f: ApplicantFields): (r: Result<ApplicationPayload, ApplicationError>)
    ensures r == Err(InvalidJobId) <==> !(routeId.Some? && Truthy(routeId.value))
    ensures r == Err(MissingFields) <==> routeId.Some? && Truthy(routeId.value) && !AllFilled(f)
    ensures r.Ok? ==> FieldsOf(r.value) == f && routeId == Some(r.value.jobId)
  {
    if !(routeId.Some? && Truthy(routeId.value)) then Err(InvalidJobId)
    else if !AllFilled(f) then Err(MissingFields)
    else Ok(ApplicationPayload(f.name, f.email, f.phone, f.address, f.coverLetter, routeId.value))
  }

  predicate IsLetterOrDigit(c: char)
  {
    'a' <= c <= 'z' || 'A' <= c <= 'Z' || '0' <= c <= '9'
  }

  /** The characters allowed before the "@" of a valid e-mail address. */
  predicate IsLocalChar(c: char)
  {
    IsLetterOrDigit(c) || c in ".!#$%&'*+/=?^_`{|}~-"
  }

  /** A domain label: 1 to 63 letters, digits and hyphens, starting and ending with a letter or digit. */
  predicate IsDomainLabel(l: string)
  {
    && 1 <= |l| <= 63
    && IsLetterOrDigit(l[0]) && IsLetterOrDigit(l[|l| - 1])
    && forall i :: 0 <= i < |l| ==> IsLetterOrDigit(l[i]) || l[i] == '-'
  }

  /** The position of the first c in s. */
  function IndexOf(s: string, c: char): (i: nat)
    requires c in s
    ensures i < |s| && s[i] == c && c !in s[..i]
  {
    if s[0] == c then 0
    else
      assert s == [s[0]] + s[1..];
      var i := IndexOf(s[1..], c);
      assert s[..i + 1] == [s[0]] + s[1..][..i];
      i + 1
  }

  /** One or more labels separated by dots. */
  predicate IsDomain(d: string)
    decreases |d|
  {
    if '.' in d then
      var k := IndexOf(d, '.');
      IsDomainLabel(d[..k]) && IsDomain(d[k + 1..])
    else IsDomainLabel(d)
  }

  /**
   * A valid e-mail address in the sense of section 4.10.5.1.5 of the HTML
   * Living Standard: local characters, an "@", then a domain.
   */
  predicate ValidEmail(s: string)
  {
    '@' in s &&
    var k := IndexOf(s, '@');
    && 1 <= k
    && (forall i :: 0 <= i < k ==> IsLocalChar(s[i]))
    && IsDomain(s[k + 1..])
  }

  /** A domain label never contains an "@". */
  lemma LabelHasNoAt(l: string)
    ensures IsDomainLabel(l) ==> '@' !in l
  {
  }

  /** A domain never contains an "@". */
  lemma {:induction false} DomainHasNoAt(d: string)
    requires IsDomain(d)
    ensures '@' !in d
    decreases |d|
  {
    if '.' in d {
      var k := IndexOf(d, '.');
      DomainHasNoAt(d[k + 1..]);
      LabelHasNoAt(d[..k]);
      assert d == d[..k] + [d[k]] + d[k + 1..];
    } else {
      LabelHasNoAt(d);
    }
  }

  /** A valid e-mail address has exactly one "@", with a non-empty part before it. */
  lemma ValidEmailHasOneAt(s: string)
    requires ValidEmail(s)
    ensures multiset(s)['@'] == 1
    ensures s[0] != '@'
  {
    var k := IndexOf(s, '@');
    DomainHasNoAt(s[k + 1..]);
    assert s == s[..k] + [s[k]] + s[k + 1..];
    assert IsLocalChar(s[0]);
  }

  /** The first c of a + [c] + b is the one after a, when a has none. */
  lemma {:induction false} IndexOfAfter(a: string, c: char, b: string)
    requires c !in a
    ensures IndexOf(a + [c] + b, c) == |a|
  {
    if a != [] {
      IndexOfAfter(a[1..], c, b);
      assert (a + [c] + b)[1..] == a[1..] + [c] + b;
    }
  }

  /** Two labels joined by a dot make a domain. */
  lemma TwoLabelDomain(l1: string, l2: string)
    requires IsDomainLabel(l1) && IsDomainLabel(l2)
    ensures IsDomain(l1 + "." + l2)
  {
    var d := l1 + "." + l2;
    assert '.' !in l1;
    IndexOfAfter(l1, '.', l2);
    assert d[..|l1|] == l1 && d[|l1| + 1..] == l2;
    assert '.' !in l2;
  }

  /** A non-empty run of local characters, an "@" and a domain make a valid e-mail address. */
  lemma ValidEmailOfParts(local: string, domain: string)
    requires local != [] && forall i :: 0 <= i < |local| ==> IsLocalChar(local[i])
    requires IsDomain(domain)
    ensures ValidEmail(local + "@" + domain)
  {
    var s := local + "@" + domain;
    IndexOfAfter(local, '@', domain);
    assert s[|local| + 1..] == domain;
  }

  /** Addresses the browser refuses: no "@", and nothing before it. */
  lemma RefusedEmailExamples()
    ensures !ValidEmail("abc")
    ensures !ValidEmail("@mail.example")
  {
  }

  /**
   * The browser's constraint check on the form, made before `onSubmit`
   * fires: the e-mail input may be empty, but a non-empty value must be a
   * valid address. No input is `required`.
   */
  predicate BrowserAccepts(f: ApplicantFields)
  {
    !Truthy(f.email) || ValidEmail(f.email)
  }

  /** A request that is sent carries a valid e-mail address. */
  lemma SentEmailIsValid(routeId: Option<string>, f: ApplicantFields)
    requires BrowserAccepts(f) && CheckApplication(routeId, f).Ok?
    ensures ValidEmail(CheckApplication(routeId, f).value.email)
  {
  }

  /** A payload that was built is accepted as sent: every field in it is non-empty. */
  lemma PayloadFieldsFilled(routeId: Option<string>, f: ApplicantFields)
    requires CheckApplication(routeId, f).Ok?
    ensures AllFilled(FieldsOf(CheckApplication(routeId, f).value))
    ensures Truthy(CheckApplication(routeId, f).value.jobId)
  {
  }

  /** The form a successful submission leaves behind is refused if sent again. */
  lemma ResetFormIsRefused(routeId: Option<string>)
    ensures CheckApplication(routeId, EmptyFields).Err?
  {
  }

  /** The form inputs. */
  datatype FormField = Name | Email | Phone | Address | CoverLetter

  /** The `Application` component's state. */
  class ApplicationFormState {
    var name: string
    var email: string
    var coverLetter: string
    var phone: string
    var address: string
    var sending: bool

    function Fields(): ApplicantFields
      reads this
    {
      ApplicantFields(name, email, phone, address, coverLetter)
    }

    constructor ()
      ensures Fields() == EmptyFields && !sending
    {
      name, email, coverLetter, phone, address := "", "", "", "", "";
      sending := false;
    }

    /** An input's `onChange`. */
    method Type(field: FormField, value: string)
      modifies this`name, this`email, this`coverLetter, this`phone, this`address
      ensures Fields() == match field
        case Name => old(Fields()).(name := value)
        case Email => old(Fields()).(email := value)
        case Phone => old(Fields()).(phone := value)
        case Address => old(Fields()).(address := value)
        case CoverLetter => old(Fields()).(coverLetter := value)
    {
      match field
      case Name => name := value;
      case Email => email := value;
      case Phone => phone := value;
      case Address => address := value;
      case CoverLetter => coverLetter := value;
    }

    /**
     * The submit, up to the request: the browser refuses a malformed
     * e-mail address before `handleApplication` runs; a missing job id or
     * an empty field stops the handler before `sending` is touched. In
     * those cases nothing is sent. Otherwise `sending` is set and the
     * payload is sent.
     */
    method HandleApplication(routeId: Option<string>) returns (request: Option<ApplicationPayload>)
      modifies this`sending
      ensures request == if BrowserAccepts(Fields()) then CheckApplication(routeId, Fields()).ToOption() else None
      ensures request.Some? ==> sending
      ensures request.None? ==> sending == old(sending)
    {
      if !BrowserAccepts(Fields()) {
        return None;
      }
      var checked := CheckApplication(routeId, Fields());
      if checked.Err? {
        return None;
      }
      sending := true;
      request := Some(checked.value);
    }

    /** The request has settled: on success the five fields are emptied; either way `sending` is cleared. */
    method RequestSettled(ok: bool)
      modifies this
      ensures !sending
      ensures Fields() == if ok then EmptyFields else old(Fields())
    {
      if ok {
        name, email, coverLetter, phone, address := "", "", "", "", "";
      }
      sending := false;
    }
  }
}
