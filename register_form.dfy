/**
 * The registration form of frontend/src/screens/AuthScreens/Register.tsx: its
 * field values, the error map that `validateForm` rebuilds from the rule
 * chains, the per-field error clearing of `handleInputChange`, and the
 * `isFormValid` condition that enables the submit button.
 */
module RegisterForm {
  import opened Text
  import opened Wrappers
  import opened FormRules

  /** The keys of the error map; `Terms` has no text field of its own. */
  datatype Field = FullName | Email | Phone | Password | ConfirmPassword | Terms

  /** The `formData` state. */
  datatype FormData = FormData(fullName: string, email: string, phone: string, password: string, confirmPassword: string)

  const EmptyForm := FormData("", "", "", "", "")

  /** A key that `handleInputChange` is called with. */
  predicate IsTextField(field: Field) {
    field != Terms
  }

  /** `formData[field]`. */
  function FieldText(d: FormData, field: Field): string
    requires IsTextField(field)
  {
    match field
    case FullName => d.fullName
    case Email => d.email
    case Phone => d.phone
    case Password => d.password
    case ConfirmPassword => d.confirmPassword
  }

  /** `{...prev, [field]: value}`: only `field` changes. */
  function SetFieldText(d: FormData, field: Field, value: string): (r: FormData)
    requires IsTextField(field)
    ensures FieldText(r, field) == value
    ensures forall f | IsTextField(f) && f != field :: FieldText(r, f) == FieldText(d, f)
  {
    match field
    case FullName => d.(fullName := value)
    case Email => d.(email := value)
    case Phone => d.(phone := value)
    case Password => d.(password := value)
    case ConfirmPassword => d.(confirmPassword := value)
  }

  /** The confirmation rule: required, then equal to the password. */
  function ConfirmRule(password: string, confirm: string): (r: Option<string>)
    ensures r == Some("Please confirm your password") <==> confirm == ""
    ensures r == Some("Passwords do not match") <==> confirm != "" && confirm != password
    ensures r == None <==> confirm != "" && confirm == password
  {
    if confirm == "" then Some("Please confirm your password")
    else if password != confirm then Some("Passwords do not match")
    else None
  }

  /** The rule chain of each key of the error map; `None` when the key is left unset. */
  function Rule(d: FormData, acceptTerms: bool, field: Field): Option<string> {
    match field
    case FullName => if Trim(d.fullName) == "" then Some("Full Name is required") else None
    case Email => EmailRule(d.email)
    case Phone => PhoneRule(d.phone)
    case Password => PasswordRule(d.password)
    case ConfirmPassword => ConfirmRule(d.password, d.confirmPassword)
    case Terms => if !acceptTerms then Some("You must accept the Terms & Conditions") else None
  }

  /** `errors` holds exactly the keys whose rule fired, each with the message it gave. */
  predicate IsErrorsFor(errors: map<Field, string>, d: FormData, acceptTerms: bool) {
    forall f :: (f in errors <==> Rule(d, acceptTerms, f).Some?) && (f in errors ==> errors[f] == Rule(d, acceptTerms, f).value)
  }

  /** No rule fires. */
  predicate Passes(d: FormData, acceptTerms: bool) {
    forall f :: Rule(d, acceptTerms, f).None?
  }

  /** Passing is the conjunction of the six rules. */
  lemma PassesEach(d: FormData, acceptTerms: bool)
    ensures Passes(d, acceptTerms) <==>
      && Rule(d, acceptTerms, FullName).None? && Rule(d, acceptTerms, Email).None?
      && Rule(d, acceptTerms, Phone).None? && Rule(d, acceptTerms, Password).None?
      && Rule(d, acceptTerms, ConfirmPassword).None? && Rule(d, acceptTerms, Terms).None?
  {
    if
      && Rule(d, acceptTerms, FullName).None? && Rule(d, acceptTerms, Email).None?
      && Rule(d, acceptTerms, Phone).None? && Rule(d, acceptTerms, Password).None?
      && Rule(d, acceptTerms, ConfirmPassword).None? && Rule(d, acceptTerms, Terms).None?
    {
      forall f
        ensures Rule(d, acceptTerms, f).None?
      {
        match f
        case FullName =>
        case Email =>
        case Phone =>
        case Password =>
        case ConfirmPassword =>
        case Terms =>
      }
    }
  }

  /** A form passes every rule exactly when each field is acceptable and the terms are accepted. */
  lemma PassesIff(d: FormData, acceptTerms: bool)
    ensures Passes(d, acceptTerms) <==>
      && !IsBlank(d.fullName)
      && IsEmail(d.email)
      && (IsBlank(d.phone) || (1 <= |Digits(d.phone)| <= 16 && Digits(d.phone)[0] != '0'))
      && 6 <= |d.password| && IsComposed(d.password)
      && d.confirmPassword == d.password
      && acceptTerms
  {
    PassesEach(d, acceptTerms);
    TrimEmptyIff(d.fullName);
    var _ := EmailRule(d.email);
    var _ := PhoneRule(d.phone);
    var _ := PasswordRule(d.password);
    var _ := ConfirmRule(d.password, d.confirmPassword);
  }

  /** `errors` agrees with the rule outcomes `expected` on the keys in `done` and holds no other key. */
  ghost predicate AgreesOn(errors: map<Field, string>, expected: Field -> Option<string>, done: set<Field>) {
    forall f ::
      && (f in errors ==> f in done)
      && (f in done ==> (f in errors <==> expected(f).Some?))
      && (f in done && f in errors ==> errors[f] == expected(f).value)
  }

  /** Agreeing on all six keys is holding exactly the keys whose rule fired. */
  lemma AgreesOnAll(errors: map<Field, string>, expected: Field -> Option<string>)
    requires AgreesOn(errors, expected, {FullName, Email, Phone, Password, ConfirmPassword, Terms})
    ensures forall f :: (f in errors <==> expected(f).Some?) && (f in errors ==> errors[f] == expected(f).value)
    ensures errors == map[] <==> forall f :: expected(f).None?
  {
    forall f
      ensures (f in errors <==> expected(f).Some?) && (f in errors ==> errors[f] == expected(f).value)
    {
      match f
      case FullName =>
      case Email =>
      case Phone =>
      case Password =>
      case ConfirmPassword =>
      case Terms =>
    }
    if errors != map[] {
      var f :| f in errors;
      assert expected(f).Some?;
    }
  }

  /** One `if (...) newErrors[field] = message`: the key is set exactly when its rule fired. */
  method Record(errors: map<Field, string>, field: Field, rule: Option<string>,
                ghost expected: Field -> Option<string>, ghost done: set<Field>)
    returns (r: map<Field, string>)
    requires AgreesOn(errors, expected, done) && field !in done && rule == expected(field)
    ensures AgreesOn(r, expected, done + {field})
    ensures rule.Some? ==> r == errors[field := rule.value]
    ensures rule.None? ==> r == errors
  {
    r := errors;
    if rule.Some? {
      r := r[field := rule.value];
    }
  }

  /**
   * The body of `validateForm`: start from `{}` and set each key, in the
   * source's order, exactly when its rule fires. `rules` gives each rule's
   * outcome.
   */
  method CollectErrors(rules: Field -> Option<string>) returns (errors: map<Field, string>)
    ensures forall f :: (f in errors <==> rules(f).Some?) && (f in errors ==> errors[f] == rules(f).value)
    ensures errors == map[] <==> forall f :: rules(f).None?
  {
    ghost var done: set<Field> := {};
    errors := map[];
    errors := Record(errors, FullName, rules(FullName), rules, done);
    done := done + {FullName};
    errors := Record(errors, Email, rules(Email), rules, done);
    done := done + {Email};
    errors := Record(errors, Phone, rules(Phone), rules, done);
    done := done + {Phone};
    errors := Record(errors, Password, rules(Password), rules, done);
    done := done + {Password};
    errors := Record(errors, ConfirmPassword, rules(ConfirmPassword), rules, done);
    done := done + {ConfirmPassword};
    errors := Record(errors, Terms, rules(Terms), rules, done);
    done := done + {Terms};
    assert done == {FullName, Email, Phone, Password, ConfirmPassword, Terms};
    AgreesOnAll(errors, rules);
  }

  /**
   * `isFormValid`: the four required texts non-blank, the terms accepted, and
   * no submission in progress. The phone plays no part.
   */
  function IsFormValid(d: FormData, acceptTerms: bool, isLoading: bool): (ok: bool)
    ensures ok <==> !IsBlank(d.fullName) && !IsBlank(d.email) && !IsBlank(d.password)
                    && !IsBlank(d.confirmPassword) && acceptTerms && !isLoading
  {
    TrimEmptyIff(d.fullName);
    TrimEmptyIff(d.email);
    TrimEmptyIff(d.password);
    TrimEmptyIff(d.confirmPassword);
    Trim(d.fullName) != "" && Trim(d.email) != "" && Trim(d.password) != ""
      && Trim(d.confirmPassword) != "" && acceptTerms && !isLoading
  }

  /** A form that passes every rule has its submit button enabled unless a submission is in progress. */
  lemma PassingFormIsSubmittable(d: FormData, acceptTerms: bool)
    requires Passes(d, acceptTerms)
    ensures IsFormValid(d, acceptTerms, false)
  {
    PassesIff(d, acceptTerms);
    EmailNotBlank(d.email);
    ComposedNotBlank(d.password);
  }

  /** The enabled button does not mean the rules pass: a malformed address still enables it. */
  lemma SubmittableFormMayFail()
    ensures IsFormValid(FormData("A", "x", "", "Abcde1", "Abcde1"), true, false)
    ensures Rule(FormData("A", "x", "", "Abcde1", "Abcde1"), true, Email).Some?
  {
    EmailShapeIff("x");
    assert !IsSpace("x"[0]);
  }

  /** The screen state. */
  class RegisterScreen {
    var formData: FormData
    var errors: map<Field, string>
    var isLoading: bool
    var acceptTerms: bool

    /** The state right after mounting. */
    constructor ()
      ensures formData == EmptyForm && errors == map[] && !isLoading && !acceptTerms
    {
      formData := EmptyForm;
      errors := map[];
      isLoading := false;
      acceptTerms := false;
    }

    /**
     * `validateForm`: rebuild the error map from the rules, store it, and report
     * whether it came out empty.
     */
    method ValidateForm() returns (ok: bool)
      modifies this
      ensures IsErrorsFor(errors, formData, acceptTerms)
      ensures ok <==> errors == map[]
      ensures ok <==> Passes(formData, acceptTerms)
      ensures formData == old(formData) && acceptTerms == old(acceptTerms) && isLoading == old(isLoading)
    {
      var d, t := formData, acceptTerms;
      var newErrors := CollectErrors((f: Field) => Rule(d, t, f));
      errors := newErrors;
      ok := |newErrors| == 0;
    }

    /**
     * `handleInputChange(field, value)`: store the text; a truthy message under
     * that key is overwritten with `''`, and every other entry stays.
     */
    method HandleInputChange(field: Field, value: string)
      requires IsTextField(field)
      modifies this
      ensures formData == SetFieldText(old(formData), field, value)
      ensures field in old(errors) && old(errors)[field] != "" ==> errors == old(errors)[field := ""]
      ensures !(field in old(errors) && old(errors)[field] != "") ==> errors == old(errors)
      ensures acceptTerms == old(acceptTerms) && isLoading == old(isLoading)
      ensures errors.Keys == old(errors).Keys
      ensures field in errors ==> errors[field] == ""
      ensures forall f | f in old(errors) && f != field :: errors[f] == old(errors)[f]
    {
      formData := SetFieldText(formData, field, value);
      if field in errors && errors[field] != "" {
        errors := errors[field := ""];
      }
    }

    /** The terms checkbox; its error stays until the next validation. */
    method ToggleTerms()
      modifies this
      ensures acceptTerms == !old(acceptTerms)
      ensures formData == old(formData) && errors == old(errors) && isLoading == old(isLoading)
    {
      acceptTerms := !acceptTerms;
    }
  }
}
