/** The registration page's form (client/src/pages/Register.js): its initial data, the
    validation that fills the error map field by field, and the payload it submits. */
module RegisterForm {
  import opened Text
  import opened Forms
  import opened Wrappers

  const UsernameRequired := "Username is required"
  const UsernameTooShort := "Username must be at least 3 characters"
  const UsernameInvalid := "Username can only contain letters, numbers, and underscores"
  const EmailRequired := "Email is required"
  const EmailInvalid := "Please enter a valid email address"
  const PasswordRequired := "Password is required"
  const PasswordTooShort := "Password must be at least 6 characters"
  const PasswordTooWeak := "Password must contain at least one uppercase letter, one lowercase letter, and one number"
  const ConfirmRequired := "Please confirm your password"
  const ConfirmMismatch := "Passwords do not match"
  const FirstNameTooLong := "First name must be less than 50 characters"
  const LastNameTooLong := "Last name must be less than 50 characters"

  /** The form's fields (`name` attributes `username`, `email`, ..., `role`). */
  datatype RegisterField = Username | Email | Password | ConfirmPassword | FirstName | LastName | Role

  /** The fields `validateForm` checks. */
  const Checked := {Username, Email, Password, ConfirmPassword, FirstName, LastName}

  /** The form's initial data: every text field empty, role `user`. */
  const Initial: Form<RegisterField> := map[Username := "", Email := "", Password := "", ConfirmPassword := "",
                                            FirstName := "", LastName := "", Role := "user"]

  /** `[a-zA-Z0-9_]`. */
  predicate WordChar(c: char) {
    IsLetter(c) || IsDigit(c) || c == '_'
  }

  /** `/^[a-zA-Z0-9_]+$/.test(s)`. */
  predicate UsernamePattern(s: string) {
    |s| > 0 && forall i :: 0 <= i < |s| ==> WordChar(s[i])
  }

  /** No character before position i ends a line (the regular-expression `.` stops there). */
  predicate OnFirstLine(s: string, i: int) {
    forall k :: 0 <= k < i && k < |s| ==> !IsLineTerminator(s[k])
  }

  /** The classes the password's lookaheads ask for: `[a-z]`, `[A-Z]` and `\d`. */
  datatype CharClass = LowerCase | UpperCase | Digit

  predicate InClass(c: char, cls: CharClass) {
    match cls
    case LowerCase => IsLower(c)
    case UpperCase => IsUpper(c)
    case Digit => IsDigit(c)
  }

  /** `(?=.*[...])` succeeds by finding the class at position i. */
  predicate FoundAt(s: string, i: int, cls: CharClass) {
    0 <= i < |s| && InClass(s[i], cls) && OnFirstLine(s, i)
  }

  predicate Lookahead(s: string, cls: CharClass) {
    exists i | 0 <= i < |s| :: FoundAt(s, i, cls)
  }

  /** `/^(?=.*[a-z])(?=.*[A-Z])(?=.*\d)/.test(s)`: a lowercase letter, an uppercase letter and a
      digit, each on the first line. */
  predicate PasswordPattern(s: string) {
    Lookahead(s, LowerCase) && Lookahead(s, UpperCase) && Lookahead(s, Digit)
  }

  /** A string of word characters is not blank, so the "required" check is covered by the
      pattern. */
  lemma WordsAreNotBlank(s: string)
    ensures UsernamePattern(s) ==> !IsBlank(s)
  {
    if UsernamePattern(s) {
      assert !IsJsWhitespace(s[0]);
    }
  }

  /** The `username` chain; `!username.trim()` is `IsBlank` (Text.TrimEmptyIffBlank). */
  function UsernameError(u: string): Option<string> {
    if IsBlank(u) then Some(UsernameRequired)
    else if |u| < 3 then Some(UsernameTooShort)
    else if !UsernamePattern(u) then Some(UsernameInvalid)
    else None
  }

  lemma UsernamePasses(u: string)
    ensures UsernameError(u).None? <==> |u| >= 3 && UsernamePattern(u)
  {
    WordsAreNotBlank(u);
  }

  lemma UsernameRule(u: string)
    ensures UsernameError(u).None? <==> |u| >= 3 && UsernamePattern(u)
    ensures UsernameError(u) == Some(UsernameRequired) <==> Trim(u) == []
    ensures UsernameError(u) == Some(UsernameTooShort) <==> Trim(u) != [] && |u| < 3
  {
    UsernamePasses(u);
    TrimEmptyIffBlank(u);
  }

  /** The `email` chain; `!email.trim()` is `IsBlank`. */
  function EmailError(e: string): Option<string> {
    if IsBlank(e) then Some(EmailRequired)
    else if !EmailPattern(e) then Some(EmailInvalid)
    else None
  }

  lemma EmailPasses(e: string)
    ensures EmailError(e).None? <==> EmailPattern(e)
  {
    EmailNotBlank(e);
  }

  lemma EmailRule(e: string)
    ensures EmailError(e).None? <==> EmailPattern(e)
    ensures EmailError(e) == Some(EmailRequired) <==> Trim(e) == []
  {
    EmailPasses(e);
    TrimEmptyIffBlank(e);
  }

  /** The `password` chain. */
  function PasswordError(p: string): Option<string> {
    if p == "" then Some(PasswordRequired)
    else if |p| < 6 then Some(PasswordTooShort)
    else if !PasswordPattern(p) then Some(PasswordTooWeak)
    else None
  }

  lemma PasswordRule(p: string)
    ensures PasswordError(p).None? <==> |p| >= 6 && PasswordPattern(p)
    ensures PasswordError(p) == Some(PasswordRequired) <==> p == ""
    ensures PasswordError(p) == Some(PasswordTooShort) <==> 0 < |p| < 6
  {
    if |p| >= 6 {
      assert p != "";
    }
  }

  /** The `confirmPassword` chain. */
  function ConfirmError(p: string, c: string): (r: Option<string>)
    ensures r.None? <==> c != "" && c == p
    ensures r == Some(ConfirmRequired) <==> c == ""
  {
    if c == "" then Some(ConfirmRequired)
    else if p != c then Some(ConfirmMismatch)
    else None
  }

  /** The optional names: an error only past 50 characters. */
  function NameError(n: string, message: string): (r: Option<string>)
    ensures r.None? <==> |n| <= 50
    ensures r.Some? ==> r.value == message
  {
    if n != "" && |n| > 50 then Some(message) else None
  }

  /** The message the chain for field k produces. */
  function ErrorFor(form: Form<RegisterField>, k: RegisterField): Option<string> {
    match k
    case Username => UsernameError(Field(form, k))
    case Email => EmailError(Field(form, k))
    case Password => PasswordError(Field(form, k))
    case ConfirmPassword => ConfirmError(Field(form, Password), Field(form, k))
    case FirstName => NameError(Field(form, k), FirstNameTooLong)
    case LastName => NameError(Field(form, k), LastNameTooLong)
    case Role => None
  }

  /** No chain produced a message. */
  predicate NoErrors(form: Form<RegisterField>) {
    && ErrorFor(form, Username).None? && ErrorFor(form, Email).None? && ErrorFor(form, Password).None?
    && ErrorFor(form, ConfirmPassword).None? && ErrorFor(form, FirstName).None? && ErrorFor(form, LastName).None?
  }

  /** The dictionary `validateForm` fills: each field's message, if its chain produced one,
      in field order; valid when nothing was added. */
  method Collect(username: Option<string>, email: Option<string>, password: Option<string>,
                 confirm: Option<string>, firstName: Option<string>, lastName: Option<string>)
    returns (errors: Errors<RegisterField>, valid: bool)
    ensures Reports(errors, Username, username) && Reports(errors, Email, email)
    ensures Reports(errors, Password, password) && Reports(errors, ConfirmPassword, confirm)
    ensures Reports(errors, FirstName, firstName) && Reports(errors, LastName, lastName)
    ensures Role !in errors
    ensures valid <==> username.None? && email.None? && password.None? && confirm.None? && firstName.None? && lastName.None?
  {
    errors := map[];
    if username.Some? { errors := errors[Username := username.value]; }
    if email.Some? { errors := errors[Email := email.value]; }
    if password.Some? { errors := errors[Password := password.value]; }
    if confirm.Some? { errors := errors[ConfirmPassword := confirm.value]; }
    if firstName.Some? { errors := errors[FirstName := firstName.value]; }
    if lastName.Some? { errors := errors[LastName := lastName.value]; }
    valid := errors == map[];
  }

  /** `validateForm`: every field's chain, then the dictionary of their messages. */
  method Validate(form: Form<RegisterField>) returns (errors: Errors<RegisterField>, valid: bool)
    ensures Reports(errors, Username, ErrorFor(form, Username))
    ensures Reports(errors, Email, ErrorFor(form, Email))
    ensures Reports(errors, Password, ErrorFor(form, Password))
    ensures Reports(errors, ConfirmPassword, ErrorFor(form, ConfirmPassword))
    ensures Reports(errors, FirstName, ErrorFor(form, FirstName))
    ensures Reports(errors, LastName, ErrorFor(form, LastName))
    ensures Role !in errors
    ensures valid <==> NoErrors(form)
  {
    errors, valid := Collect(
      UsernameError(Field(form, Username)),
      EmailError(Field(form, Email)),
      PasswordError(Field(form, Password)),
      ConfirmError(Field(form, Password), Field(form, ConfirmPassword)),
      NameError(Field(form, FirstName), FirstNameTooLong),
      NameError(Field(form, LastName), LastNameTooLong));
  }

  /** The form passes exactly when every rule holds. */
  lemma ValidIffAllRulesHold(form: Form<RegisterField>)
    ensures NoErrors(form) <==>
      && |Field(form, Username)| >= 3 && UsernamePattern(Field(form, Username))
      && EmailPattern(Field(form, Email))
      && |Field(form, Password)| >= 6 && PasswordPattern(Field(form, Password))
      && Field(form, ConfirmPassword) == Field(form, Password)
      && |Field(form, FirstName)| <= 50 && |Field(form, LastName)| <= 50
  {
    UsernamePasses(Field(form, Username));
    EmailPasses(Field(form, Email));
    PasswordRule(Field(form, Password));
  }

  /** The initial form is rejected: every required field is reported, and only those. */
  lemma InitialErrors()
    ensures ErrorFor(Initial, Username) == Some(UsernameRequired)
    ensures ErrorFor(Initial, Email) == Some(EmailRequired)
    ensures ErrorFor(Initial, Password) == Some(PasswordRequired)
    ensures ErrorFor(Initial, ConfirmPassword) == Some(ConfirmRequired)
    ensures ErrorFor(Initial, FirstName).None? && ErrorFor(Initial, LastName).None?
  {
    assert Field(Initial, Username) == Field(Initial, Email) == Field(Initial, Password) == "";
    assert Field(Initial, ConfirmPassword) == Field(Initial, FirstName) == Field(Initial, LastName) == "";
    TrimEmptyIffBlank("");
  }

  /** `const { confirmPassword, ...userData } = formData`: everything but the confirmation. */
  function Payload(form: Form<RegisterField>): (p: Form<RegisterField>)
    ensures ConfirmPassword !in p
    ensures forall k :: k != ConfirmPassword ==> (k in p <==> k in form) && Field(p, k) == Field(form, k)
  {
    form - {ConfirmPassword}
  }

  /** `handleSubmit`: nothing is sent unless the form is valid; a valid form sends the password
      the user confirmed, of at least six characters, under a well-formed user name. */
  method Submit(form: Form<RegisterField>) returns (sent: Option<Form<RegisterField>>)
    ensures sent.Some? <==> NoErrors(form)
    ensures sent.Some? ==> sent.value == Payload(form)
    ensures sent.Some? ==> ConfirmPassword !in sent.value && Field(sent.value, Password) == Field(form, ConfirmPassword)
    ensures sent.Some? ==> |Field(sent.value, Password)| >= 6 && UsernamePattern(Field(sent.value, Username))
  {
    var errors, valid := Validate(form);
    if !valid {
      return None;
    }
    ValidIffAllRulesHold(form);
    sent := Some(Payload(form));
  }
}
