/**
 * The sign-in form of frontend/src/screens/AuthScreens/Login.tsx: its two text
 * fields, the error map that `validateForm` rebuilds, and the condition that
 * disables the sign-in button.
 */
module LoginForm {
  import opened Text
  import opened Wrappers
  import opened FormRules

  /** The keys of the error map. */
  datatype Field = EmailField | PasswordField

  /** `disabled={!email || !password || isLoading}`: no trimming, so a blank address enables the button. */
  predicate SignInDisabled(email: string, password: string, isLoading: bool) {
    email == "" || password == "" || isLoading
  }

  /** A form that passes validation has its button enabled unless a sign-in is in progress. */
  lemma PassingFormEnabled(email: string, password: string)
    requires EmailRule(email) == None && LoginPasswordRule(password) == None
    ensures !SignInDisabled(email, password, false)
  {
    EmailNotBlank(email);
  }

  /** The enabled button does not mean the rules pass: a single space enables it and is refused. */
  lemma EnabledFormMayFail()
    ensures !SignInDisabled(" ", "secret", false)
    ensures EmailRule(" ") == Some("Email is required")
  {
    assert IsSpace(" "[0]);
  }

  /** The screen state. */
  class LoginScreen {
    var email: string
    var password: string
    var errors: map<Field, string>
    var isLoading: bool

    /** The state right after mounting. */
    constructor ()
      ensures email == "" && password == "" && errors == map[] && !isLoading
    {
      email := "";
      password := "";
      errors := map[];
      isLoading := false;
    }

    /** `setEmail`, the text field's change handler; errors are left alone. */
    method SetEmail(value: string)
      modifies this
      ensures email == value
      ensures password == old(password) && errors == old(errors) && isLoading == old(isLoading)
    {
      email := value;
    }

    /** `setPassword`, the text field's change handler; errors are left alone. */
    method SetPassword(value: string)
      modifies this
      ensures password == value
      ensures email == old(email) && errors == old(errors) && isLoading == old(isLoading)
    {
      password := value;
    }

    /**
     * `validateForm`: the email rule, then the password rule; the map holds a
     * key exactly when its rule fired, and the result says whether it is empty.
     */
    method ValidateForm() returns (ok: bool)
      modifies this
      ensures EmailField in errors <==> EmailRule(email).Some?
      ensures EmailField in errors ==> errors[EmailField] == EmailRule(email).value
      ensures PasswordField in errors <==> LoginPasswordRule(password).Some?
      ensures PasswordField in errors ==> errors[PasswordField] == LoginPasswordRule(password).value
      ensures ok <==> errors == map[]
      ensures ok <==> IsEmail(email) && 6 <= |password|
      ensures email == old(email) && password == old(password) && isLoading == old(isLoading)
    {
      var newErrors: map<Field, string> := map[];
      var emailRule := EmailRule(email);
      if emailRule.Some? {
        newErrors := newErrors[EmailField := emailRule.value];
      }
      var passwordRule := LoginPasswordRule(password);
      if passwordRule.Some? {
        newErrors := newErrors[PasswordField := passwordRule.value];
      }
      errors := newErrors;
      ok := |newErrors| == 0;
      if emailRule.Some? {
        assert EmailField in newErrors;
      } else if passwordRule.Some? {
        assert PasswordField in newErrors;
      }
    }
  }
}
