/** The sign-in page's form (client/src/pages/Login.js): validation and what is sent. */
module LoginForm {
  import opened Text
  import opened Wrappers
  import opened Forms

  const UsernameRequired := "Username or email is required"
  const PasswordRequired := "Password is required"
  const PasswordTooShort := "Password must be at least 6 characters"

  datatype LoginField = Username | Password

  /** The form's initial data. */
  const Initial: Form<LoginField> := map[Username := "", Password := ""]

  /** The `username` check; `!username.trim()` is `IsBlank` (Text.TrimEmptyIffBlank). */
  function UsernameError(u: string): (r: Option<string>)
    ensures r.None? <==> !IsBlank(u)
  {
    if IsBlank(u) then Some(UsernameRequired) else None
  }

  /** The `password` chain. */
  function PasswordError(p: string): Option<string> {
    if p == "" then Some(PasswordRequired)
    else if |p| < 6 then Some(PasswordTooShort)
    else None
  }

  lemma Rules(u: string, p: string)
    ensures UsernameError(u).None? <==> Trim(u) != []
    ensures PasswordError(p).None? <==> |p| >= 6
    ensures PasswordError(p) == Some(PasswordTooShort) <==> 0 < |p| < 6
  {
    TrimEmptyIffBlank(u);
  }

  /** `validateForm`: both checks, then the dictionary of their messages. */
  method Validate(form: Form<LoginField>) returns (errors: Errors<LoginField>, valid: bool)
    ensures Reports(errors, Username, UsernameError(Field(form, Username)))
    ensures Reports(errors, Password, PasswordError(Field(form, Password)))
    ensures valid <==> Trim(Field(form, Username)) != [] && |Field(form, Password)| >= 6
  {
    var u := UsernameError(Field(form, Username));
    var p := PasswordError(Field(form, Password));
    errors := map[];
    if u.Some? { errors := errors[Username := u.value]; }
    if p.Some? { errors := errors[Password := p.value]; }
    valid := errors == map[];
    Rules(Field(form, Username), Field(form, Password));
  }

  /** `handleSubmit`: the form is sent unchanged, and only when valid. */
  method Submit(form: Form<LoginField>) returns (sent: Option<Form<LoginField>>)
    ensures sent.Some? <==> Trim(Field(form, Username)) != [] && |Field(form, Password)| >= 6
    ensures sent.Some? ==> sent.value == form
  {
    var errors, valid := Validate(form);
    if !valid {
      return None;
    }
    sent := Some(form);
  }

  /** The initial form reports both fields. */
  method ValidateInitial() returns (errors: Errors<LoginField>)
    ensures errors.Keys == {Username, Password}
    ensures errors[Username] == UsernameRequired && errors[Password] == PasswordRequired
  {
    var valid;
    errors, valid := Validate(Initial);
    assert Field(Initial, Username) == "" && Field(Initial, Password) == "";
    forall k ensures k in errors <==> k in {Username, Password} {
      match k
      case Username =>
      case Password =>
    }
  }
}
