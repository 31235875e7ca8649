// The contact section's form: four text fields, their validation, and the
// simulated submission (a delayed "sent" followed by a delayed return to the
// empty form).
module ContactForm {
  import opened Wrappers

  datatype Field = Name | Email | Subject | Message

  /** The four form values. */
  datatype FormData = FormData(name: string, email: string, subject: string, message: string)
  {
    function Get(f: Field): string
    {
      match f
      case Name => name
      case Email => email
      case Subject => subject
      case Message => message
    }

    /** `{ ...prev, [f]: value }`: only field `f` changes. */
    function With(f: Field, value: string): (r: FormData)
      ensures r.Get(f) == value
      ensures forall g :: g != f ==> r.Get(g) == Get(g)
    {
      match f
      case Name => this.(name := value)
      case Email => this.(email := value)
      case Subject => this.(subject := value)
      case Message => this.(message := value)
    }
  }

  const EmptyForm: FormData := FormData("", "", "", "")

  /** `'idle' | 'success' | 'error'`; nothing ever sets `'error'`. */
  datatype SubmitStatus = Idle | Success | Error

  const NameRequired: string := "Name is required"
  const EmailRequired: string := "Email is required"
  const EmailInvalid: string := "Email is invalid"
  const SubjectRequired: string := "Subject is required"
  const MessageRequired: string := "Message is required"

  // ---------------------------------------------------------------------
  // Whitespace, trimming and the email pattern

  /** The characters that `String.prototype.trim` removes and that `\s`
      matches: ECMAScript WhiteSpace and LineTerminator. */
  predicate IsWhitespace(c: char)
  {
    var n := c as int;
    n == 0x09 || n == 0x0A || n == 0x0B || n == 0x0C || n == 0x0D || n == 0x20 ||
    n == 0xA0 || n == 0x1680 || (0x2000 <= n <= 0x200A) || n == 0x2028 || n == 0x2029 ||
    n == 0x202F || n == 0x205F || n == 0x3000 || n == 0xFEFF
  }

  predicate IsBlank(s: string)
  {
    forall k :: 0 <= k < |s| ==> IsWhitespace(s[k])
  }

  predicate NoWhitespace(s: string)
  {
    forall k :: 0 <= k < |s| ==> !IsWhitespace(s[k])
  }

  /** Drops the leading whitespace: the result is a suffix of `s`, what was
      dropped is blank, and the result does not start with whitespace. */
  function TrimStart(s: string): (r: string)
    ensures |r| <= |s| && r == s[|s| - |r|..]
    ensures IsBlank(s[..|s| - |r|])
    ensures r != [] ==> !IsWhitespace(r[0])
  {
    if |s| > 0 && IsWhitespace(s[0]) then
      var r := TrimStart(s[1..]);
      TrimStartStep(s, r);
      r
    else s
  }

  /** Dropping one more leading whitespace character keeps `TrimStart`'s
      contract. */
  lemma TrimStartStep(s: string, r: string)
    requires |s| > 0 && IsWhitespace(s[0])
    requires |r| <= |s| - 1 && r == s[1..][|s| - 1 - |r|..]
    requires IsBlank(s[1..][..|s| - 1 - |r|])
    ensures r == s[|s| - |r|..]
    ensures IsBlank(s[..|s| - |r|])
  {
    var m := |s| - |r|;
    assert s[1..][m - 1..] == s[m..];
    forall k | 1 <= k < m ensures IsWhitespace(s[..m][k]) {
      assert s[..m][k] == s[1..][..m - 1][k - 1];
    }
  }

  /** Drops the trailing whitespace: the result is a prefix of `s`, what was
      dropped is blank, and the result does not end with whitespace. */
  function TrimEnd(s: string): (r: string)
    ensures |r| <= |s| && r == s[..|r|]
    ensures IsBlank(s[|r|..])
    ensures r != [] ==> !IsWhitespace(r[|r| - 1])
  {
    if |s| > 0 && IsWhitespace(s[|s| - 1]) then
      var r := TrimEnd(s[..|s| - 1]);
      BlankSnoc(s, |r|);
      r
    else s
  }

  /** A blank run before a trailing whitespace character is still blank. */
  lemma BlankSnoc(s: string, m: nat)
    requires m < |s| && IsWhitespace(s[|s| - 1]) && IsBlank(s[..|s| - 1][m..])
    ensures IsBlank(s[m..])
  {
    forall k | 0 <= k < |s| - m - 1 ensures IsWhitespace(s[m..][k]) {
      assert s[m..][k] == s[..|s| - 1][m..][k];
    }
  }

  /** `s.trim()`. */
  function Trim(s: string): string
  {
    TrimEnd(TrimStart(s))
  }

  /** `!s.trim()` holds exactly for the strings made of whitespace only. */
  lemma TrimEmptyIffBlank(s: string)
    ensures Trim(s) == "" <==> IsBlank(s)
  {
    var t := TrimStart(s);
    if Trim(s) == "" {
      assert IsBlank(t[0..]);
      assert t[0..] == t;
      assert t == [];
      assert s[..|s|] == s;
    } else {
      var r := Trim(s);
      assert !IsWhitespace(r[0]);
      assert r[0] == t[0];
      assert t[0] == s[|s| - |t|];
    }
  }

  /** What `/^\S+@\S+\.\S+$/.test(s)` accepts: `s` is a non-empty
      whitespace-free run, an `@`, a non-empty whitespace-free run, a `.`, and
      a non-empty whitespace-free run. */
  ghost predicate MatchesEmailPattern(s: string)
  {
    exists i, j :: 0 < i && i + 1 < j && j < |s| - 1 && s[i] == '@' && s[j] == '.' &&
      NoWhitespace(s[..i]) && NoWhitespace(s[i + 1..j]) && NoWhitespace(s[j + 1..])
  }

  /** The first index at or after `from` holding `c`, or `|s|`. */
  function IndexFrom(s: string, c: char, from: nat): (k: nat)
    requires from <= |s|
    ensures from <= k <= |s|
    ensures k < |s| ==> s[k] == c
    ensures forall m :: from <= m < k ==> s[m] != c
    decreases |s| - from
  {
    if from == |s| then |s| else if s[from] == c then from else IndexFrom(s, c, from + 1)
  }

  /** A character-level scan for the email pattern: no whitespace anywhere,
      the first `@` after position 0, then a `.` at least two places later
      and before the last character. */
  function IsEmailShaped(s: string): bool
  {
    NoWhitespace(s) && |s| > 0 &&
    var i := IndexFrom(s, '@', 1);
    i + 2 <= |s| && IndexFrom(s, '.', i + 2) < |s| - 1
  }

  lemma NoWhitespaceSlice(s: string, a: nat, b: nat)
    requires NoWhitespace(s) && a <= b <= |s|
    ensures NoWhitespace(s[a..b])
  {
    forall k | 0 <= k < b - a ensures !IsWhitespace(s[a..b][k]) {
      assert s[a..b][k] == s[a + k];
    }
  }

  lemma NoWhitespaceJoin(s: string, i: nat, j: nat)
    requires 0 < i < j < |s| - 1
    requires s[i] == '@' && s[j] == '.'
    requires NoWhitespace(s[..i]) && NoWhitespace(s[i + 1..j]) && NoWhitespace(s[j + 1..])
    ensures NoWhitespace(s)
  {
    forall k | 0 <= k < |s| ensures !IsWhitespace(s[k]) {
      if k < i {
        assert s[..i][k] == s[k];
      } else if i < k < j {
        assert s[i + 1..j][k - i - 1] == s[k];
      } else if j < k {
        assert s[j + 1..][k - j - 1] == s[k];
      }
    }
  }

  /** The scan accepts exactly the strings the regular expression accepts. */
  lemma EmailShapeIsPattern(s: string)
    ensures IsEmailShaped(s) <==> MatchesEmailPattern(s)
  {
    if IsEmailShaped(s) {
      var i := IndexFrom(s, '@', 1);
      var j := IndexFrom(s, '.', i + 2);
      NoWhitespaceSlice(s, 0, i);
      NoWhitespaceSlice(s, i + 1, j);
      NoWhitespaceSlice(s, j + 1, |s|);
      assert s[0..i] == s[..i] && s[j + 1..|s|] == s[j + 1..];
    }
    if MatchesEmailPattern(s) {
      var i0, j0 :| 0 < i0 && i0 + 1 < j0 && j0 < |s| - 1 && s[i0] == '@' && s[j0] == '.' &&
        NoWhitespace(s[..i0]) && NoWhitespace(s[i0 + 1..j0]) && NoWhitespace(s[j0 + 1..]);
      NoWhitespaceJoin(s, i0, j0);
      var i := IndexFrom(s, '@', 1);
      assert i <= i0;
      var j := IndexFrom(s, '.', i + 2);
      assert j <= j0;
    }
  }

  /** An address with a leading or trailing blank is rejected by the pattern,
      so the submit handler records "Email is invalid" for it rather than
      "Email is required". */
  lemma PaddedEmailIsInvalid(s: string)
    requires |s| > 0 && (IsWhitespace(s[0]) || IsWhitespace(s[|s| - 1]))
    ensures !MatchesEmailPattern(s)
  {
  }

  // ---------------------------------------------------------------------
  // Validation

  /** The error the form is meant to show for field `f`, stated with the
      blank test and the regular-expression language. */
  ghost function ExpectedError(form: FormData, f: Field): Option<string>
  {
    match f
    case Name => if IsBlank(form.name) then Some(NameRequired) else None
    case Email =>
      if IsBlank(form.email) then Some(EmailRequired)
      else if !MatchesEmailPattern(form.email) then Some(EmailInvalid)
      else None
    case Subject => if IsBlank(form.subject) then Some(SubjectRequired) else None
    case Message => if IsBlank(form.message) then Some(MessageRequired) else None
  }

  /** The form is accepted: three fields not blank and an email matching
      the pattern. */
  ghost predicate Acceptable(form: FormData)
  {
    !IsBlank(form.name) && MatchesEmailPattern(form.email) &&
    !IsBlank(form.subject) && !IsBlank(form.message)
  }

  /** The error shown for `f`, if any. */
  function Lookup(errors: map<Field, string>, f: Field): Option<string>
  {
    if f in errors then Some(errors[f]) else None
  }

  /** The form is acceptable exactly when no field has an error. */
  lemma AcceptableIffNoError(form: FormData)
    ensures Acceptable(form) <==> forall f :: ExpectedError(form, f).None?
  {
    if !Acceptable(form) {
      if IsBlank(form.name) {
        assert ExpectedError(form, Name).Some?;
      } else if !MatchesEmailPattern(form.email) {
        assert ExpectedError(form, Email).Some?;
      } else if IsBlank(form.subject) {
        assert ExpectedError(form, Subject).Some?;
      } else {
        assert ExpectedError(form, Message).Some?;
      }
    }
  }

  /** `!s.trim()`. */
  method IsEmptyAfterTrim(s: string) returns (blank: bool)
    ensures blank == IsBlank(s)
  {
    TrimEmptyIffBlank(s);
    blank := Trim(s) == "";
  }

  /** `/^\S+@\S+\.\S+$/.test(s)`. */
  method TestEmailPattern(s: string) returns (ok: bool)
    ensures ok == MatchesEmailPattern(s)
  {
    EmailShapeIsPattern(s);
    ok := IsEmailShaped(s);
  }

  /** The error record `validateForm` builds, field by field. */
  method ComputeErrors(form: FormData) returns (newErrors: map<Field, string>)
    ensures Lookup(newErrors, Name) == ExpectedError(form, Name)
    ensures Lookup(newErrors, Email) == ExpectedError(form, Email)
    ensures Lookup(newErrors, Subject) == ExpectedError(form, Subject)
    ensures Lookup(newErrors, Message) == ExpectedError(form, Message)
    ensures newErrors == map[] <==> Acceptable(form)
  {
    var nameBlank := IsEmptyAfterTrim(form.name);
    var emailBlank := IsEmptyAfterTrim(form.email);
    var emailShaped := TestEmailPattern(form.email);
    var subjectBlank := IsEmptyAfterTrim(form.subject);
    var messageBlank := IsEmptyAfterTrim(form.message);
    AcceptableIffNoError(form);

    newErrors := map[];
    if nameBlank {
      newErrors := newErrors[Name := NameRequired];
    }
    if emailBlank {
      newErrors := newErrors[Email := EmailRequired];
    } else if !emailShaped {
      newErrors := newErrors[Email := EmailInvalid];
    }
    if subjectBlank {
      newErrors := newErrors[Subject := SubjectRequired];
    }
    if messageBlank {
      newErrors := newErrors[Message := MessageRequired];
    }
    if newErrors != map[] {
      ghost var f :| f in newErrors;
    }
  }

  /** Email errors never pile up: an empty address gets "required" only, a
      non-empty one gets "invalid" exactly when the pattern rejects it. */
  lemma EmailErrorsExclusive(form: FormData)
    ensures ExpectedError(form, Email) == Some(EmailRequired) <==> IsBlank(form.email)
    ensures ExpectedError(form, Email) == Some(EmailInvalid) <==>
              !IsBlank(form.email) && !MatchesEmailPattern(form.email)
  {
  }

  /** Given a blank-padded address, the submit handler writes "invalid", not
      "required". */
  lemma PaddedAddressScenario()
    ensures ExpectedError(EmptyForm.With(Email, " me@site.dev"), Email) == Some(EmailInvalid)
  {
    var form := EmptyForm.With(Email, " me@site.dev");
    assert form.email == " me@site.dev";
    assert !IsWhitespace(form.email[1]);
    PaddedEmailIsInvalid(form.email);
  }

  // ---------------------------------------------------------------------
  // The component's state and its event handlers

  class ContactSection {
    var formData: FormData
    var errors: map<Field, string>
    var isSubmitting: bool
    var submitStatus: SubmitStatus
    /** The 1500 ms submission callbacks scheduled and not yet run. */
    var pendingSends: nat
    /** The 5000 ms status-reset callbacks scheduled and not yet run. */
    var pendingResets: nat

    ghost predicate Valid()
      reads this
    {
      && submitStatus != Error
      && (isSubmitting ==> pendingSends > 0)
      && (forall f :: f in errors ==> errors[f] != "")
    }

    /** At most one submission callback is pending, and one is pending
        exactly while the form is submitting. */
    predicate SingleFlight()
      reads this
    {
      pendingSends == (if isSubmitting then 1 else 0)
    }

    constructor ()
      ensures Valid() && SingleFlight()
      ensures formData == EmptyForm && errors == map[]
      ensures !isSubmitting && submitStatus == Idle
      ensures pendingSends == 0 && pendingResets == 0
    {
      formData := EmptyForm;
      errors := map[];
      isSubmitting := false;
      submitStatus := Idle;
      pendingSends := 0;
      pendingResets := 0;
    }

    /** `validateForm`: writes the error record and reports whether it is
        empty. */
    method ValidateForm() returns (ok: bool)
      requires Valid()
      modifies this`errors
      ensures Valid()
      ensures forall f :: Lookup(errors, f) == ExpectedError(formData, f)
      ensures ok <==> errors == map[]
      ensures ok <==> Acceptable(formData)
    {
      var newErrors := ComputeErrors(formData);
      errors := newErrors;
      ok := |newErrors| == 0;
      forall f ensures Lookup(errors, f) == ExpectedError(formData, f) {
        match f
        case Name =>
        case Email =>
        case Subject =>
        case Message =>
      }
      forall f | f in errors ensures errors[f] != "" {
        assert Lookup(errors, f) == ExpectedError(formData, f);
      }
    }

    /** `handleChange`: the edited field takes the new value, and its error
        (if shown) is cleared; nothing else changes. */
    method HandleChange(f: Field, value: string)
      requires Valid()
      modifies this`formData, this`errors
      ensures Valid()
      ensures formData == old(formData).With(f, value)
      ensures errors == old(errors) - {f}
    {
      formData := formData.With(f, value);
      if f in errors && errors[f] != "" {
        errors := errors - {f};
      }
    }

    /** `handleSubmit` as written: an invalid form only gets its errors; a
        valid one starts submitting and schedules the submission callback.
        Nothing stops a second call while a submission is pending, since the
        button never receives its `disabled` flag. */
    method HandleSubmit()
      requires Valid()
      modifies this`errors, this`isSubmitting, this`pendingSends
      ensures Valid()
      ensures forall f :: Lookup(errors, f) == ExpectedError(formData, f)
      ensures !Acceptable(formData) ==>
                isSubmitting == old(isSubmitting) && pendingSends == old(pendingSends)
      ensures Acceptable(formData) ==>
                isSubmitting && pendingSends == old(pendingSends) + 1 && SubmitCaption() == "Sending..."
    {
      var ok := ValidateForm();
      if !ok {
        return;
      }
      isSubmitting := true;
      pendingSends := pendingSends + 1;
    }

    /** `handleSubmit` behind a button that is disabled while submitting: a
        click during a pending submission does nothing, so at most one
        submission callback is ever pending. */
    method HandleSubmitOnce()
      requires Valid()
      modifies this`errors, this`isSubmitting, this`pendingSends
      ensures Valid()
      ensures old(isSubmitting) ==>
                errors == old(errors) && isSubmitting && pendingSends == old(pendingSends)
      ensures !old(isSubmitting) ==> forall f :: Lookup(errors, f) == ExpectedError(formData, f)
      ensures !old(isSubmitting) && !Acceptable(formData) ==>
                !isSubmitting && pendingSends == old(pendingSends)
      ensures !old(isSubmitting) && Acceptable(formData) ==>
                isSubmitting && pendingSends == old(pendingSends) + 1 && SubmitCaption() == "Sending..."
      ensures old(SingleFlight()) ==> SingleFlight()
    {
      if isSubmitting {
        return;
      }
      HandleSubmit();
    }

    /** The 1500 ms callback: submission done, success shown, fields emptied,
        and the status reset scheduled. */
    method SendTimerFires()
      requires Valid() && pendingSends > 0
      modifies this`isSubmitting, this`submitStatus, this`formData, this`pendingSends, this`pendingResets
      ensures Valid()
      ensures !isSubmitting && submitStatus == Success && formData == EmptyForm
      ensures pendingSends == old(pendingSends) - 1 && pendingResets == old(pendingResets) + 1
      ensures ShowsSuccessPanel() && SubmitCaption() == "Send Message"
      ensures old(SingleFlight()) ==> SingleFlight()
    {
      isSubmitting := false;
      submitStatus := Success;
      formData := EmptyForm;
      pendingSends := pendingSends - 1;
      pendingResets := pendingResets + 1;
    }

    /** The 5000 ms callback: back to the form. */
    method ResetTimerFires()
      requires Valid() && pendingResets > 0
      modifies this`submitStatus, this`pendingResets
      ensures Valid()
      ensures submitStatus == Idle && pendingResets == old(pendingResets) - 1
      ensures !ShowsSuccessPanel()
    {
      submitStatus := Idle;
      pendingResets := pendingResets - 1;
    }

    /** The "Send Another Message" button: back to the form. */
    method SendAnother()
      requires Valid()
      modifies this`submitStatus
      ensures Valid()
      ensures submitStatus == Idle && !ShowsSuccessPanel()
    {
      submitStatus := Idle;
    }

    /** The success panel replaces the form exactly while the status is
        'success'. */
    function ShowsSuccessPanel(): bool
      reads this
    {
      submitStatus == Success
    }

    /** The submit button's caption. */
    function SubmitCaption(): string
      reads this
    {
      if isSubmitting then "Sending..." else "Send Message"
    }
  }

  /** A filled-in form that passes validation. */
  const SampleForm: FormData := FormData("Ada", "ada@site.dev", "Hello", "Hi there")

  lemma SampleFormAcceptable()
    ensures Acceptable(SampleForm)
  {
    var form := SampleForm;
    assert form.name[0] == 'A' && form.subject[0] == 'H' && form.message[0] == 'H';
    var email := form.email;
    assert |email| == 12 && email[3] == '@' && email[8] == '.';
    assert NoWhitespace(email);
    NoWhitespaceSlice(email, 0, 3);
    NoWhitespaceSlice(email, 4, 8);
    NoWhitespaceSlice(email, 9, 12);
    assert email[..3] == email[0..3] && email[9..] == email[9..12];
  }

  /** Submitting the empty form shows errors and starts nothing; typing into
      a field clears that field's error only. */
  method EmptySubmitScenario()
  {
    var c := new ContactSection();
    c.HandleSubmitOnce();
    assert Lookup(c.errors, Name) == ExpectedError(EmptyForm, Name) == Some(NameRequired);
    assert Lookup(c.errors, Email) == ExpectedError(EmptyForm, Email) == Some(EmailRequired);
    assert !c.isSubmitting && c.pendingSends == 0;
    c.HandleChange(Name, "Ada");
    assert Name !in c.errors && Email in c.errors;
  }

  /** Typing the sample values into the four fields of a fresh form. */
  method FillSampleForm(c: ContactSection)
    requires c.Valid() && c.formData == EmptyForm
    modifies c
    ensures c.Valid() && c.formData == SampleForm
    ensures c.isSubmitting == old(c.isSubmitting) && c.submitStatus == old(c.submitStatus)
    ensures c.pendingSends == old(c.pendingSends) && c.pendingResets == old(c.pendingResets)
  {
    c.HandleChange(Name, "Ada");
    c.HandleChange(Email, "ada@site.dev");
    c.HandleChange(Subject, "Hello");
    c.HandleChange(Message, "Hi there");
  }

  /** A valid submission and both callbacks, back to an empty form. */
  method ValidSubmitScenario()
  {
    var c := new ContactSection();
    FillSampleForm(c);
    SampleFormAcceptable();
    c.HandleSubmitOnce();
    assert c.isSubmitting && !c.ShowsSuccessPanel() && c.SubmitCaption() == "Sending...";
    c.SendTimerFires();
    assert c.ShowsSuccessPanel() && c.formData == EmptyForm;
    c.ResetTimerFires();
    assert !c.ShowsSuccessPanel() && c.pendingSends == 0 && c.pendingResets == 0;
  }

  /** As written: two clicks on "Send Message" within the 1500 ms delay both
      run `handleSubmit`, so two submission callbacks are pending. */
  method DoubleSubmitScenario() returns (pending: nat, singleFlight: bool)
    ensures pending == 2 && !singleFlight
  {
    var c := new ContactSection();
    FillSampleForm(c);
    SampleFormAcceptable();
    c.HandleSubmit();
    c.HandleSubmit();
    pending, singleFlight := c.pendingSends, c.SingleFlight();
  }

  /** With the button disabled while submitting, the second click does
      nothing and one submission callback is pending. */
  method OnceDoubleSubmitScenario() returns (pending: nat, singleFlight: bool)
    ensures pending == 1 && singleFlight
  {
    var c := new ContactSection();
    FillSampleForm(c);
    SampleFormAcceptable();
    c.HandleSubmitOnce();
    c.HandleSubmitOnce();
    pending, singleFlight := c.pendingSends, c.SingleFlight();
  }
}
