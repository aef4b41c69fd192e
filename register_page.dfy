/** The three-step sign-up form: company details, then the representative,
    then the plan. Each step is validated before the form moves on, and the
    plan step once more before the form is posted. */
module RegisterPage {
  import opened Base
  import opened Arrays
  import RegisterRoute

  /** The form's fields, all text. */
  datatype RegistrationData = RegistrationData(
    companyName: string,
    companyDomain: string,
    destinationEmail: string,
    representativeName: string,
    representativeEmail: string,
    representativePassword: string,
    confirmPassword: string,
    selectedPlanId: string)

  const BlankForm := RegistrationData("", "", "", "", "", "", "", "")

  /** The field names `handleInputChange` is called with. */
  datatype Field =
    | CompanyName | CompanyDomain | DestinationEmail
    | RepresentativeName | RepresentativeEmail | RepresentativePassword
    | ConfirmPassword | SelectedPlanId

  function FieldValue(d: RegistrationData, f: Field): string {
    match f
    case CompanyName => d.companyName
    case CompanyDomain => d.companyDomain
    case DestinationEmail => d.destinationEmail
    case RepresentativeName => d.representativeName
    case RepresentativeEmail => d.representativeEmail
    case RepresentativePassword => d.representativePassword
    case ConfirmPassword => d.confirmPassword
    case SelectedPlanId => d.selectedPlanId
  }

  /** `{ ...prev, [field]: value }`. */
  function SetField(d: RegistrationData, f: Field, v: string): (r: RegistrationData)
    ensures FieldValue(r, f) == v
    ensures forall g :: g != f ==> FieldValue(r, g) == FieldValue(d, g)
  {
    match f
    case CompanyName => d.(companyName := v)
    case CompanyDomain => d.(companyDomain := v)
    case DestinationEmail => d.(destinationEmail := v)
    case RepresentativeName => d.(representativeName := v)
    case RepresentativeEmail => d.(representativeEmail := v)
    case RepresentativePassword => d.(representativePassword := v)
    case ConfirmPassword => d.(confirmPassword := v)
    case SelectedPlanId => d.(selectedPlanId := v)
  }

  /** A character that `[^\s@]` accepts. */
  predicate EmailChar(c: char) {
    !IsSpace(c) && c != '@'
  }

  /** One or more characters that `[^\s@]` accepts. */
  predicate EmailPart(s: string) {
    |s| > 0 && forall k :: 0 <= k < |s| ==> EmailChar(s[k])
  }

  /** The language of `^[^\s@]+@[^\s@]+\.[^\s@]+$`: the text splits at an `@`
      (index `i`) and a later `.` (index `j`) into three non-empty parts made
      of characters that are neither white space nor `@`. */
  ghost predicate EmailPattern(s: string) {
    exists i, j :: 0 <= i < j < |s| && s[i] == '@' && s[j] == '.' &&
      EmailPart(s[..i]) && EmailPart(s[i + 1..j]) && EmailPart(s[j + 1..])
  }

  function IsAt(): char -> bool { (c: char) => c == '@' }
  function IsDot(): char -> bool { (c: char) => c == '.' }

  /** The test the form runs: the first `@` is not at the start, no character
      is white space, no `@` follows it, and a `.` stands strictly inside
      what follows it. */
  function EmailTest(s: string): bool {
    var i := FindIndex(s, IsAt());
    && 0 < i
    && (forall k :: 0 <= k < |s| ==> !IsSpace(s[k]))
    && (forall k :: i < k < |s| ==> s[k] != '@')
    && i + 3 < |s| + 1
    && FindIndex(s[i + 2..|s| - 1], IsDot()) != -1
  }

  /** Whatever the test accepts has the pattern's shape. */
  lemma {:induction false} EmailTestSound(s: string)
    requires EmailTest(s)
    ensures EmailPattern(s)
  {
    var i := FindIndex(s, IsAt());
    var inner := s[i + 2..|s| - 1];
    var d := FindIndex(inner, IsDot());
    var j := i + 2 + d;
    assert s[j] == inner[d];
    var front, mid, back := s[..i], s[i + 1..j], s[j + 1..];
    forall k | 0 <= k < |front| ensures EmailChar(front[k]) {
      assert front[k] == s[k];
      assert !IsAt()(s[k]);
    }
    forall k | 0 <= k < |mid| ensures EmailChar(mid[k]) {
      assert mid[k] == s[i + 1 + k];
    }
    forall k | 0 <= k < |back| ensures EmailChar(back[k]) {
      assert back[k] == s[j + 1 + k];
    }
    assert EmailPart(front) && EmailPart(mid) && EmailPart(back);
  }

  /** Whatever has the pattern's shape passes the test. */
  lemma {:induction false} EmailTestComplete(s: string)
    requires EmailPattern(s)
    ensures EmailTest(s)
  {
    var a, b :| 0 <= a < b < |s| && s[a] == '@' && s[b] == '.' &&
      EmailPart(s[..a]) && EmailPart(s[a + 1..b]) && EmailPart(s[b + 1..]);
    FirstAt(s, a);
    PatternChars(s, a, b);
    var inner := s[a + 2..|s| - 1];
    assert inner[b - a - 2] == s[b];
    assert IsDot()(inner[b - a - 2]);
  }

  /** In a text of the pattern's shape no character is white space and no
      `@` follows the one at `a`. */
  lemma PatternChars(s: string, a: int, b: int)
    requires 0 <= a < b < |s| && s[a] == '@' && s[b] == '.'
    requires EmailPart(s[..a]) && EmailPart(s[a + 1..b]) && EmailPart(s[b + 1..])
    ensures forall k :: 0 <= k < |s| ==> !IsSpace(s[k])
    ensures forall k :: a < k < |s| ==> s[k] != '@'
  {
    forall k | 0 <= k < |s| ensures !IsSpace(s[k]) {
      PartsCover(s, a, b, k);
    }
    forall k | a < k < |s| ensures s[k] != '@' {
      PartsCover(s, a, b, k);
    }
  }

  /** In a text of the pattern's shape every character outside the `@` is
      accepted by `[^\s@]`, and the `@` is not white space. */
  lemma PartsCover(s: string, a: int, b: int, k: int)
    requires 0 <= a < b < |s| && s[a] == '@' && s[b] == '.'
    requires EmailPart(s[..a]) && EmailPart(s[a + 1..b]) && EmailPart(s[b + 1..])
    requires 0 <= k < |s|
    ensures k != a ==> EmailChar(s[k])
    ensures !IsSpace(s[k])
  {
    if k < a {
      assert s[k] == s[..a][k];
    } else if a < k < b {
      assert s[k] == s[a + 1..b][k - a - 1];
    } else if b < k {
      assert s[k] == s[b + 1..][k - b - 1];
    }
  }

  /** The first `@` is at `a` when there is one at `a` and none before it. */
  lemma FirstAt(s: string, a: int)
    requires 0 <= a < |s| && s[a] == '@'
    requires EmailPart(s[..a])
    ensures FindIndex(s, IsAt()) == a
  {
    assert IsAt()(s[a]);
  }

  /** The test accepts exactly the language of the pattern. */
  lemma EmailTestIsPattern(s: string)
    ensures EmailTest(s) <==> EmailPattern(s)
  {
    if EmailTest(s) {
      EmailTestSound(s);
    }
    if EmailPattern(s) {
      EmailTestComplete(s);
    }
  }

  /** The checks both contact steps make on a name and an email address,
      in order: the name is not blank (ignoring surrounding white space), the
      email is not blank, the email has the pattern's shape; each failure has
      its own message. */
  function ContactError(name: string, email: string, noName: string, noEmail: string, badEmail: string)
    : (e: Option<string>)
    requires noName != noEmail && noName != badEmail && noEmail != badEmail
    ensures e == Some(noName) <==> AllSpace(name)
    ensures e == Some(noEmail) <==> !AllSpace(name) && AllSpace(email)
    ensures e == Some(badEmail) <==> !AllSpace(name) && !AllSpace(email) && !EmailPattern(email)
    ensures e.None? <==> !AllSpace(name) && EmailPattern(email)
    ensures e.None? || e == Some(noName) || e == Some(noEmail) || e == Some(badEmail)
  {
    TrimEmptyIffBlank(name);
    TrimEmptyIffBlank(email);
    EmailTestIsPattern(email);
    EmailNotBlank(email);
    if Trim(name) == "" then Some(noName)
    else if Trim(email) == "" then Some(noEmail)
    else if !EmailTest(email) then Some(badEmail)
    else None
  }

  /** The company step. */
  function CompanyStepError(d: RegistrationData): Option<string> {
    ContactError(d.companyName, d.destinationEmail,
      "Company name is required", "Destination email is required", "Please enter a valid destination email")
  }

  /** The checks of the representative step after the name and email: the
      password must be given, have a `.length` of at least 8 and equal its
      confirmation. */
  function PasswordError(d: RegistrationData): (e: Option<string>)
    ensures e == Some("Password is required") <==> d.representativePassword == ""
    ensures e == Some("Password must be at least 8 characters long") <==> 0 < Utf16Length(d.representativePassword) < 8
    ensures e == Some("Passwords do not match") <==>
      Utf16Length(d.representativePassword) >= 8 && d.representativePassword != d.confirmPassword
    ensures e.None? <==> Utf16Length(d.representativePassword) >= 8 && d.representativePassword == d.confirmPassword
    ensures e.Some? ==> e.value != ""
  {
    if d.representativePassword == "" then Some("Password is required")
    else if Utf16Length(d.representativePassword) < 8 then Some("Password must be at least 8 characters long")
    else if d.representativePassword != d.confirmPassword then Some("Passwords do not match")
    else None
  }

  /** The representative step: the contact checks, then the password checks. */
  function RepresentativeStepError(d: RegistrationData): Option<string> {
    var contact := ContactError(d.representativeName, d.representativeEmail,
      "Representative name is required", "Representative email is required",
      "Please enter a valid representative email");
    if contact.Some? then contact else PasswordError(d)
  }

  /** `validateStep(step)`: the message of the first check that fails, or
      `None` when the step is valid. Step 3 needs a selected plan; a step
      other than 1, 2 and 3 is always valid. */
  function StepError(d: RegistrationData, step: int): (e: Option<string>)
    ensures e.None? <==> StepValid(d, step)
    ensures step == 3 ==> (e == Some("Please select a subscription plan") <==> d.selectedPlanId == "")
    ensures step != 1 && step != 2 && step != 3 ==> e.None?
    ensures e.Some? ==> e.value != ""
  {
    if step == 1 then CompanyStepError(d)
    else if step == 2 then RepresentativeStepError(d)
    else if step == 3 then
      if d.selectedPlanId == "" then Some("Please select a subscription plan") else None
    else None
  }

  /** What a valid step means, independently of the order of the checks. */
  ghost predicate StepValid(d: RegistrationData, step: int) {
    && (step == 1 ==> !AllSpace(d.companyName) && EmailPattern(d.destinationEmail))
    && (step == 2 ==>
          && !AllSpace(d.representativeName) && EmailPattern(d.representativeEmail)
          && Utf16Length(d.representativePassword) >= 8 && d.representativePassword == d.confirmPassword)
    && (step == 3 ==> d.selectedPlanId != "")
  }

  /** An address of the email shape is never blank. */
  lemma EmailNotBlank(s: string)
    ensures EmailPattern(s) ==> !AllSpace(s)
  {
    if EmailPattern(s) {
      var i, j :| 0 <= i < j < |s| && s[i] == '@' && s[j] == '.' &&
        EmailPart(s[..i]) && EmailPart(s[i + 1..j]) && EmailPart(s[j + 1..]);
      assert !IsSpace(s[i]);
    }
  }

  /** The body the form posts: every field as a JSON string. */
  function AsRequest(d: RegistrationData): RegisterRoute.RegisterRequest {
    RegisterRoute.RegisterRequest(
      Some(d.companyName), Some(d.companyDomain), Some(d.destinationEmail),
      Some(d.representativeName), Some(d.representativeEmail),
      Some(d.representativePassword), Some(d.selectedPlanId))
  }

  /** A form whose three steps all validate posts every field the server
      requires, so the server's "All required fields must be provided" check
      cannot fail for it. */
  lemma {:induction false} ValidFormHasRequiredFields(d: RegistrationData)
    requires StepValid(d, 1) && StepValid(d, 2) && StepValid(d, 3)
    ensures RegisterRoute.RequiredGiven(AsRequest(d))
  {
    EmailNotBlank(d.destinationEmail);
    EmailNotBlank(d.representativeEmail);
  }

  /** The page's state: the step shown, the form, and the error message
      (empty when none is shown). */
  class RegisterWizard {
    var currentStep: int
    var formData: RegistrationData
    var error: string

    /** The first render: step 1, a blank form, no error. */
    constructor ()
      ensures currentStep == 1 && formData == BlankForm && error == ""
    {
      currentStep := 1;
      formData := BlankForm;
      error := "";
    }

    /** `validateStep`: clears the error, then shows the message of the first
        failing check. */
    method ValidateStep(step: int) returns (ok: bool)
      modifies this`error
      ensures ok <==> StepValid(formData, step)
      ensures error == (if ok then "" else StepError(formData, step).value)
    {
      error := "";
      var e := StepError(formData, step);
      if e.Some? {
        error := e.value;
        return false;
      }
      return true;
    }

    /** `handleInputChange`: sets one field and clears the error. */
    method HandleInputChange(f: Field, v: string)
      modifies this
      ensures formData == SetField(old(formData), f, v)
      ensures FieldValue(formData, f) == v
      ensures forall g :: g != f ==> FieldValue(formData, g) == FieldValue(old(formData), g)
      ensures error == "" && currentStep == old(currentStep)
    {
      formData := SetField(formData, f, v);
      error := "";
    }

    /** `handleNext`: one step forward exactly when the current step is valid. */
    method HandleNext()
      modifies this
      ensures currentStep == old(currentStep) + (if StepValid(old(formData), old(currentStep)) then 1 else 0)
      ensures formData == old(formData)
      ensures error == StepMessage(formData, old(currentStep))
    {
      var ok := ValidateStep(currentStep);
      if ok {
        currentStep := currentStep + 1;
      }
    }

    /** `handlePrevious`: one step back, with no check. */
    method HandlePrevious()
      modifies this
      ensures currentStep == old(currentStep) - 1
      ensures formData == old(formData) && error == old(error)
    {
      currentStep := currentStep - 1;
    }

    /** The guard at the start of `handleSubmit`: only step 3 is checked again,
        and the form is posted (the result) exactly when a plan is selected,
        whatever the other steps would say. */
    method HandleSubmit() returns (posted: Option<RegisterRoute.RegisterRequest>)
      modifies this
      ensures posted.Some? <==> formData.selectedPlanId != ""
      ensures posted.Some? ==> posted.value == AsRequest(formData) && error == ""
      ensures posted.None? ==> error == "Please select a subscription plan"
      ensures formData == old(formData) && currentStep == old(currentStep)
    {
      var ok := ValidateStep(3);
      if !ok {
        return None;
      }
      error := "";
      posted := Some(AsRequest(formData));
    }
  }

  /** The error `validateStep` leaves shown: empty when the step is valid. */
  function StepMessage(d: RegistrationData, step: int): (m: string)
    ensures m == "" <==> StepValid(d, step)
  {
    var e := StepError(d, step);
    if e.Some? then e.value else ""
  }
}
