/** The account serializers (backend/users/serializers.py): registration
    input, the email-change request and its confirmation, each over one
    user row. Writing the changed row back is done by the views. */
module UserSerializers {
  import opened Common
  import opened Tables
  import opened UserModels

  /** Column bounds the model serializer derives: `email` is an EmailField
      of at most 254 characters, the names are CharFields of at most 30
      (backend/users/models.py:41-42), the password hash column holds 128. */
  const EMAIL_MAX_LENGTH: nat := 254
  const NAME_MAX_LENGTH: nat := 30
  const PASSWORD_MAX_LENGTH: nat := 128

  const EMAIL_IN_USE: string := "Cet email est déjà utilisé."
  const NO_PENDING_EMAIL: string := "Aucun email en attente de confirmation."

  /** The registration payload. A missing key is None; for the nullable
      names, `Some(None)` is an explicit null. `emailWellFormed` is what
      Django's email validator answers, which is not modelled. */
  datatype RegisterInput = RegisterInput(
    email: Option<string>,
    emailWellFormed: bool,
    firstName: Option<Option<string>>,
    lastName: Option<Option<string>>,
    password: Option<string>)

  predicate NameOk(name: Option<Option<string>>)
  {
    name.None? || name.value.None? || |name.value.value| <= NAME_MAX_LENGTH
  }

  predicate EmailOk(users: seq<User>, input: RegisterInput)
  {
    && input.email.Some? && input.email.value != "" && input.emailWellFormed
    && |input.email.value| <= EMAIL_MAX_LENGTH
    && Find(users, UserEmail, input.email.value).None?
  }

  predicate PasswordOk(input: RegisterInput)
  {
    input.password.Some? && input.password.value != "" && |input.password.value| <= PASSWORD_MAX_LENGTH
  }

  /** `RegisterSerializer(data=...).errors`: the fields that fail, in
      declaration order. The email must be present, non-blank, well formed,
      short enough and not held by a user (the unique column's validator). */
  function RegisterErrors(users: seq<User>, input: RegisterInput): (r: seq<string>)
    ensures "email" in r <==> !EmailOk(users, input)
    ensures "first_name" in r <==> !NameOk(input.firstName)
    ensures "last_name" in r <==> !NameOk(input.lastName)
    ensures "password" in r <==> !PasswordOk(input)
    ensures r == [] <==> EmailOk(users, input) && NameOk(input.firstName) && NameOk(input.lastName) && PasswordOk(input)
    ensures |r| <= 4
  {
    (if EmailOk(users, input) then [] else ["email"])
    + (if NameOk(input.firstName) then [] else ["first_name"])
    + (if NameOk(input.lastName) then [] else ["last_name"])
    + (if PasswordOk(input) then [] else ["password"])
  }

  /** `validated_data.get(name, '')`: an absent name becomes the empty
      string, a given one (null included) is kept. */
  function NameOrEmpty(name: Option<Option<string>>): (r: Option<string>)
    ensures name.None? ==> r == Some("")
    ensures name.Some? ==> r == name.value
  {
    if name.None? then Some("") else name.value
  }

  /** The extra fields `RegisterSerializer.create` passes to `create_user`:
      only the two names; flags passed to `save()` are not forwarded. */
  function RegisterExtra(input: RegisterInput): (e: ExtraFields)
    ensures e.firstName == NameOrEmpty(input.firstName) && e.lastName == NameOrEmpty(input.lastName)
    ensures e.isActive.None? && e.isStaff.None? && e.isSuperuser.None? && e.isEmailVerified.None?
  {
    NO_EXTRA.(firstName := NameOrEmpty(input.firstName), lastName := NameOrEmpty(input.lastName))
  }

  /** `UpdateEmailSerializer.validate_new_email`: an address held by any
      user, compared exactly, is refused. */
  function ValidateNewEmail(users: seq<User>, e: string): (r: Result<string, string>)
    ensures r.Ok? <==> e !in KeySet(users, UserEmail)
    ensures r.Ok? ==> r.value == e
    ensures r.Err? ==> r.error == EMAIL_IN_USE
  {
    if Find(users, UserEmail, e).Some? then Err(EMAIL_IN_USE) else Ok(e)
  }

  /** `UpdateEmailSerializer.save`: only `pending_email` changes. */
  function RequestChange(u: User, e: string): (r: User)
    ensures r.pendingEmail == Some(e)
    ensures r.email == u.email && r.isEmailVerified == u.isEmailVerified
    ensures r.(pendingEmail := u.pendingEmail) == u
  {
    u.(pendingEmail := Some(e))
  }

  /** `ConfirmEmailSerializer.save`: with no pending address (missing or
      empty) it raises and the row is untouched; otherwise the pending
      address becomes the email, the pending one is cleared and the user is
      verified, nothing else changes. */
  function ConfirmPending(u: User): (r: Result<User, string>)
    ensures r.Err? <==> u.pendingEmail.None? || u.pendingEmail.value == ""
    ensures r.Err? ==> r.error == NO_PENDING_EMAIL
    ensures r.Ok? ==> && r.value.email == u.pendingEmail.value
                      && r.value.pendingEmail.None?
                      && r.value.isEmailVerified
                      && r.value.(email := u.email, pendingEmail := u.pendingEmail, isEmailVerified := u.isEmailVerified) == u
  {
    if u.pendingEmail.None? || u.pendingEmail.value == "" then Err(NO_PENDING_EMAIL)
    else Ok(u.(email := u.pendingEmail.value, pendingEmail := None, isEmailVerified := true))
  }

  /** Requesting a change to a non-empty address and confirming it gives the
      user that address, verified, with the other fields as they were. */
  lemma RequestThenConfirm(u: User, e: string)
    requires e != ""
    ensures ConfirmPending(RequestChange(u, e)).Ok?
    ensures ConfirmPending(RequestChange(u, e)).value == u.(email := e, pendingEmail := None, isEmailVerified := true)
  {
  }

  /** A confirmation consumes the pending address: confirming again fails. */
  lemma ConfirmTwiceFails(u: User)
    requires ConfirmPending(u).Ok?
    ensures ConfirmPending(ConfirmPending(u).value) == Err(NO_PENDING_EMAIL)
  {
  }
}
