/** The profile page (client/src/pages/Profile.js): the editable form loaded from the signed-in
    user, its validation, cancelling an edit, and how the user's role is presented. */
module ProfileForm {
  import opened Wrappers
  import opened Forms
  import AuthContext

  const FirstNameTooLong := "First name must be less than 50 characters"
  const LastNameTooLong := "Last name must be less than 50 characters"
  const EmailInvalid := "Please enter a valid email address"

  datatype ProfileField = FirstName | LastName | Email

  /** The user object's key for each form field. */
  function UserKey(k: ProfileField): string {
    match k
    case FirstName => "firstName"
    case LastName => "lastName"
    case Email => "email"
  }

  /** `user.firstName || ''` and the like: a missing or empty value becomes ''. */
  function UserValue(user: AuthContext.User, k: ProfileField): string {
    if UserKey(k) in user then user[UserKey(k)] else ""
  }

  /** The form as the loading effect and `handleCancel` both build it from the user. */
  function FormOf(user: AuthContext.User): Form<ProfileField> {
    map[FirstName := UserValue(user, FirstName), LastName := UserValue(user, LastName), Email := UserValue(user, Email)]
  }

  lemma FormOfReadsUser(user: AuthContext.User)
    ensures forall k :: k in FormOf(user) && Field(FormOf(user), k) == UserValue(user, k)
  {
    forall k ensures k in FormOf(user) && Field(FormOf(user), k) == UserValue(user, k) {
      match k
      case FirstName =>
      case LastName =>
      case Email =>
    }
  }

  datatype ProfileState = ProfileState(editing: bool, form: Form<ProfileField>, errors: Errors<ProfileField>)

  /** `handleCancel`: back to the user's values, no errors, out of edit mode, whatever was typed. */
  function Cancel(st: ProfileState, user: AuthContext.User): (r: ProfileState)
    ensures !r.editing && r.errors == map[]
    ensures forall k :: Field(r.form, k) == UserValue(user, k)
  {
    FormOfReadsUser(user);
    ProfileState(false, FormOf(user), map[])
  }

  /** Typing into the form and then cancelling leaves the state the page loaded with, out of
      edit mode. */
  lemma CancelUndoesEdits(user: AuthContext.User, errors: Errors<ProfileField>, k: ProfileField, value: string)
    ensures var typed := HandleChange(FormOf(user), errors, k, value);
            Cancel(ProfileState(true, typed.form, typed.errors), user) == ProfileState(false, FormOf(user), map[])
  {
  }

  /** The optional names: an error only past 50 characters. */
  function NameError(n: string, message: string): (r: Option<string>)
    ensures r.None? <==> |n| <= 50
    ensures r.Some? ==> r.value == message
  {
    if n != "" && |n| > 50 then Some(message) else None
  }

  /** The e-mail is optional; a non-empty one must match the pattern. */
  function EmailError(e: string): (r: Option<string>)
    ensures r.None? <==> e == "" || EmailPattern(e)
    ensures r.Some? ==> r.value == EmailInvalid
  {
    if e != "" && !EmailPattern(e) then Some(EmailInvalid) else None
  }

  /** `validateForm`: the three checks, then the dictionary of their messages. */
  method Validate(form: Form<ProfileField>) returns (errors: Errors<ProfileField>, valid: bool)
    ensures Reports(errors, FirstName, NameError(Field(form, FirstName), FirstNameTooLong))
    ensures Reports(errors, LastName, NameError(Field(form, LastName), LastNameTooLong))
    ensures Reports(errors, Email, EmailError(Field(form, Email)))
    ensures valid <==> |Field(form, FirstName)| <= 50 && |Field(form, LastName)| <= 50
                       && (Field(form, Email) == "" || EmailPattern(Field(form, Email)))
    ensures valid <==> errors == map[]
  {
    var f := NameError(Field(form, FirstName), FirstNameTooLong);
    var l := NameError(Field(form, LastName), LastNameTooLong);
    var e := EmailError(Field(form, Email));
    errors := map[];
    if f.Some? { errors := errors[FirstName := f.value]; }
    if l.Some? { errors := errors[LastName := l.value]; }
    if e.Some? { errors := errors[Email := e.value]; }
    valid := errors == map[];
  }

  /** `handleSubmit` up to the request: an invalid form stays in edit mode with its errors
      shown; a valid one is sent as typed. */
  method Submit(st: ProfileState) returns (r: ProfileState, sent: Option<Form<ProfileField>>)
    ensures sent.Some? <==> r.errors == map[]
    ensures sent.Some? ==> sent.value == st.form
    ensures r.form == st.form && r.editing == st.editing
  {
    var errors, valid := Validate(st.form);
    r := st.(errors := errors);
    if valid {
      sent := Some(st.form);
    } else {
      sent := None;
    }
  }

  /** `getRoleColor`. */
  function RoleColor(role: string): string {
    if role == "admin" then "text-error bg-error-light"
    else if role == "user" then "text-accent bg-accent-light"
    else if role == "read-only" then "text-warning bg-warning-light"
    else "text-muted bg-tertiary"
  }

  /** `getRoleIcon`: crown, bust, eye, question mark. */
  function RoleIcon(role: string): string {
    if role == "admin" then "\U{1F451}"
    else if role == "user" then "\U{1F464}"
    else if role == "read-only" then "\U{1F441}\U{FE0F}"
    else "\U{2753}"
  }

  /** The permissions badge's text. */
  function PermissionsLabel(role: string): string {
    if role == "admin" then "Full Access"
    else if role == "user" then "Manage Own Data"
    else "View Only"
  }

  predicate KnownRole(role: string) {
    role == "admin" || role == "user" || role == "read-only"
  }

  /** The three roles get three different colours and icons, none of them the default. */
  lemma RoleStylesDistinct(a: string, b: string)
    requires KnownRole(a) && KnownRole(b) && a != b
    ensures RoleColor(a) != RoleColor(b) && RoleIcon(a) != RoleIcon(b)
    ensures RoleColor(a) != RoleColor("guest") && RoleIcon(a) != RoleIcon("guest")
  {
  }

  /** For the three roles, the badge reads "View Only" exactly when the user may not edit; an
      unknown role also reads "View Only" although `canEdit` lets it edit. */
  lemma LabelAgreesWithCanEdit(s: AuthContext.AuthState, role: string)
    requires s.user.Some? && "role" in s.user.value && s.user.value["role"] == role
    ensures KnownRole(role) ==> (PermissionsLabel(role) == "View Only" <==> !AuthContext.CanEdit(s))
    ensures !KnownRole(role) ==> PermissionsLabel(role) == "View Only" && AuthContext.CanEdit(s)
  {
  }
}
