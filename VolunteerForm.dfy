/**
 * The volunteer form: the six fields, the per-field update, the validation
 * that reports missing and malformed fields, and the submitting flag.
 */
module VolunteerForm {
  import opened JsString
  import opened Types

  function Get(d: VolunteerFormData, f: Field): string
  {
    match f
    case Name => d.name
    case Email => d.email
    case Phone => d.phone
    case Area => d.area
    case Availability => d.availability
    case Message => d.message
  }

  /** The form as the screen first shows it: every field empty. */
  function InitialForm(): (d: VolunteerFormData)
    ensures forall f: Field :: Get(d, f) == ""
  {
    VolunteerFormData(name := "", email := "", phone := "", area := "", availability := "", message := "")
  }

  /** `handleChange(field, value)`: the field takes the value and every
      other field keeps its own. */
  function WithField(d: VolunteerFormData, f: Field, v: string): (r: VolunteerFormData)
    ensures Get(r, f) == v
    ensures forall g: Field | g != f :: Get(r, g) == Get(d, g)
  {
    match f
    case Name => d.(name := v)
    case Email => d.(email := v)
    case Phone => d.(phone := v)
    case Area => d.(area := v)
    case Availability => d.(availability := v)
    case Message => d.(message := v)
  }

  const NameRequired: string := "Nome é obrigatório"
  const EmailRequired: string := "Email é obrigatório"
  const EmailInvalid: string := "Email inválido"
  const PhoneRequired: string := "Telefone é obrigatório"
  const AvailabilityRequired: string := "Disponibilidade é obrigatória"

  /** A match of `\S+@\S+\.\S+` around the `@` at `p` and the `.` at `q`:
      a non-blank character before the `@`, only non-blank characters
      (at least one) between the `@` and the `.`, and a non-blank character
      after the `.`. */
  predicate EmailMatchAt(e: string, p: nat, q: nat)
  {
    && 1 <= p && p + 1 < q && q + 1 < |e|
    && !IsWs(e[p - 1]) && e[p] == '@'
    && (forall k | p < k < q :: !IsWs(e[k]))
    && e[q] == '.' && !IsWs(e[q + 1])
  }

  /** `/\S+@\S+\.\S+/.test(e)`: the pattern matches somewhere in `e`
      (the test is not anchored, and `e` is not trimmed first). */
  predicate EmailShape(e: string)
  {
    exists p, q | 1 <= p < |e| && p + 1 < q < |e| - 1 :: EmailMatchAt(e, p, q)
  }

  /** An address that passes the test is not blank. */
  lemma EmailShapeNotBlank(e: string)
    requires EmailShape(e)
    ensures !IsBlank(e)
  {
    var p, q :| 1 <= p < |e| && p + 1 < q < |e| - 1 && EmailMatchAt(e, p, q);
    assert !IsWs(e[p]);
  }

  /** A text without `@` never passes. */
  lemma NoAtNoEmail(e: string)
    requires '@' !in e
    ensures !EmailShape(e)
  {
  }

  /** Non-blank local part, domain and suffix joined by `@` and `.` pass. */
  lemma EmailShapeOf(local: string, domain: string, suffix: string)
    requires local != [] && domain != [] && suffix != []
    requires !IsWs(local[|local| - 1]) && !IsWs(suffix[0])
    requires forall k | 0 <= k < |domain| :: !IsWs(domain[k])
    ensures EmailShape(local + "@" + domain + "." + suffix)
  {
    var e := local + "@" + domain + "." + suffix;
    var p := |local|;
    var q := p + 1 + |domain|;
    forall k | p < k < q ensures !IsWs(e[k]) {
      assert e[k] == domain[k - p - 1];
    }
    assert EmailMatchAt(e, p, q);
  }

  /** The test is a search: text around a passing address does not stop it passing. */
  lemma EmailShapeExtend(a: string, e: string, b: string)
    requires EmailShape(e)
    ensures EmailShape(a + e + b)
  {
    var p, q :| 1 <= p < |e| && p + 1 < q < |e| - 1 && EmailMatchAt(e, p, q);
    var x := a + e + b;
    forall k | p + |a| < k < q + |a| ensures !IsWs(x[k]) {
      assert x[k] == e[k - |a|];
    }
    assert EmailMatchAt(x, p + |a|, q + |a|);
  }

  /** The keys `validate` may report. */
  const ErrorKeys: set<Field> := {Name, Email, Phone, Availability}

  /** `errs` is what `validate` reports for `d`: the name, phone and
      availability keys exactly when that field is blank (empty once
      trimmed); the
      email key with the "required" message when the address is blank,
      with the "invalid" message when it is not blank but fails the test,
      and absent otherwise; no other key. */
  ghost predicate Reports(d: VolunteerFormData, errs: FormErrors)
  {
    && errs.Keys <= ErrorKeys
    && (Name in errs <==> IsBlank(d.name))
    && (Name in errs ==> errs[Name] == NameRequired)
    && (Email in errs <==> IsBlank(d.email) || !EmailShape(d.email))
    && (IsBlank(d.email) ==> Email in errs && errs[Email] == EmailRequired)
    && (!IsBlank(d.email) && !EmailShape(d.email) ==> Email in errs && errs[Email] == EmailInvalid)
    && (Phone in errs <==> IsBlank(d.phone))
    && (Phone in errs ==> errs[Phone] == PhoneRequired)
    && (Availability in errs <==> IsBlank(d.availability))
    && (Availability in errs ==> errs[Availability] == AvailabilityRequired)
  }

  /** Every required field is filled in and the address passes the test. */
  predicate Complete(d: VolunteerFormData)
  {
    !IsBlank(d.name) && EmailShape(d.email) && !IsBlank(d.phone) && !IsBlank(d.availability)
  }

  /** The report depends on the form alone: two reports for the same form
      are the same map, so nothing of an earlier report survives. */
  lemma ReportsUnique(d: VolunteerFormData, errs: FormErrors, errs': FormErrors)
    requires Reports(d, errs) && Reports(d, errs')
    ensures errs == errs'
  {
    assert errs.Keys == errs'.Keys;
  }

  /** The report is empty exactly when the form is complete. */
  lemma ReportsEmpty(d: VolunteerFormData, errs: FormErrors)
    requires Reports(d, errs)
    ensures |errs| == 0 <==> Complete(d)
  {
    if Complete(d) {
      assert errs.Keys == {};
    } else {
      if EmailShape(d.email) {
        EmailShapeNotBlank(d.email);
      }
      assert errs.Keys != {};
    }
  }

  /** One required-field rule: record `message` under `f` when `value`
      is empty once trimmed. */
  method RequireFilled(errs: FormErrors, f: Field, value: string, message: string) returns (errs': FormErrors)
    ensures errs' == if IsBlank(value) then errs[f := message] else errs
  {
    errs' := errs;
    if Trim(value) == "" {
      errs' := errs'[f := message];
    }
  }

  /** The email rule: "required" when the address is empty once trimmed,
      otherwise "invalid" when the pattern test fails. */
  method CheckEmail(errs: FormErrors, email: string) returns (errs': FormErrors)
    ensures errs' == if IsBlank(email) then errs[Email := EmailRequired]
                     else if !EmailShape(email) then errs[Email := EmailInvalid]
                     else errs
  {
    errs' := errs;
    if Trim(email) == "" {
      errs' := errs'[Email := EmailRequired];
    } else if !EmailShape(email) {
      errs' := errs'[Email := EmailInvalid];
    }
  }

  /** The error map `validate` builds, one rule after the other. */
  method NewErrors(d: VolunteerFormData) returns (newErrors: FormErrors)
    ensures Reports(d, newErrors)
    ensures |newErrors| == 0 <==> Complete(d)
  {
    newErrors := map[];
    newErrors := RequireFilled(newErrors, Name, d.name, NameRequired);
    newErrors := CheckEmail(newErrors, d.email);
    newErrors := RequireFilled(newErrors, Phone, d.phone, PhoneRequired);
    newErrors := RequireFilled(newErrors, Availability, d.availability, AvailabilityRequired);
    ReportsEmpty(d, newErrors);
  }

  /** An empty form with "bad" as address reports the name, the phone,
      the availability and an invalid (not a missing) address. */
  lemma BadFormReport(errs: FormErrors)
    requires Reports(VolunteerFormData("", "bad", "", "", "", ""), errs)
    ensures errs == map[Name := NameRequired, Email := EmailInvalid, Phone := PhoneRequired,
                        Availability := AvailabilityRequired]
  {
    var d := VolunteerFormData("", "bad", "", "", "", "");
    NoAtNoEmail("bad");
    assert !IsBlank("bad") by {
      assert !IsWs("bad"[0]);
    }
    ReportsUnique(d, errs, map[Name := NameRequired, Email := EmailInvalid, Phone := PhoneRequired,
                               Availability := AvailabilityRequired]);
  }

  /** "a@b.co" passes the test. */
  lemma GoodAddress()
    ensures EmailShape("a@b.co")
  {
    assert !IsWs('a') && !IsWs('b') && !IsWs('c');
    EmailShapeOf("a", "b", "co");
    assert "a" + "@" + "b" + "." + "co" == "a@b.co";
  }

  /** The form with name "A", address "a@b.co", phone "1" and
      availability "weekends" is complete. */
  lemma GoodFormComplete()
    ensures Complete(VolunteerFormData("A", "a@b.co", "1", "", "weekends", ""))
  {
    GoodAddress();
    assert !IsWs("A"[0]) && !IsWs("1"[0]) && !IsWs("weekends"[0]);
  }

  /** ... and so it reports nothing. */
  lemma GoodFormReport(errs: FormErrors)
    requires Reports(VolunteerFormData("A", "a@b.co", "1", "", "weekends", ""), errs)
    ensures errs == map[]
  {
    GoodFormComplete();
    ReportsEmpty(VolunteerFormData("A", "a@b.co", "1", "", "weekends", ""), errs);
  }

  /** The form screen's state: the field values, the last report and
      whether a submission is under way. */
  class VolunteerFormScreen {
    var formData: VolunteerFormData
    var errors: FormErrors
    var submitting: bool

    /** Every field empty, no errors, not submitting. */
    constructor ()
      ensures formData == InitialForm() && errors == map[] && !submitting
    {
      formData := InitialForm();
      errors := map[];
      submitting := false;
    }

    /** `handleChange`: one field takes the typed value. */
    method HandleChange(f: Field, v: string)
      modifies this
      ensures formData == WithField(old(formData), f, v)
      ensures errors == old(errors) && submitting == old(submitting)
    {
      formData := WithField(formData, f, v);
    }

    /** `validate`: replace the errors by the report for the current form
        and answer whether it is empty. */
    method Validate() returns (ok: bool)
      modifies this
      ensures formData == old(formData) && submitting == old(submitting)
      ensures Reports(formData, errors)
      ensures ok <==> |errors| == 0
      ensures ok <==> Complete(formData)
    {
      var newErrors := NewErrors(formData);
      errors := newErrors;
      ok := |newErrors| == 0;
    }

    /** `handleSubmit`: validate, and start submitting only when the form
        is complete. */
    method HandleSubmit()
      modifies this
      ensures formData == old(formData) && Reports(formData, errors)
      ensures Complete(formData) ==> submitting
      ensures !Complete(formData) ==> submitting == old(submitting)
    {
      var ok := Validate();
      if ok {
        submitting := true;
      }
    }

    /** The delayed callback that ends a submission. */
    method FinishSubmit()
      modifies this
      ensures !submitting
      ensures formData == old(formData) && errors == old(errors)
    {
      submitting := false;
    }
  }
}
