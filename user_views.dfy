/** The account endpoints (backend/users/views.py): registration and its
    confirmation link, login gated on a verified email, logout, and the
    two-step email change. Signed tokens are abstracted to what decoding
    them yields; sending mail and blacklisting a refresh token to whether
    they succeeded. */
module UserViews {
  import opened Common
  import opened Tables
  import opened UserModels
  import opened UserManager
  import opened UserSerializers
  import opened Db

  const EMAIL_TAKEN: string := "Cet email est déjà utilisé. Veuillez vous connecter ou utiliser un autre email."
  const USER_CREATED: string := "Utilisateur créé. Un email de confirmation vous a été envoyé."
  const ALREADY_CONFIRMED: string := "Votre email est déjà confirmé."
  const ACCOUNT_ACTIVATED: string := "Votre compte a été activé avec succès."
  const LINK_EXPIRED: string := "Le lien de confirmation a expiré."
  const LINK_INVALID: string := "Lien invalide."
  const CONFIRM_FIRST: string := "Veuillez confirmer votre adresse email avant de vous connecter."
  const LOGGED_IN: string := "Connexion réussie"
  const TOKEN_MISSING: string := "Token manquant"
  const LOGOUT_FAILED: string := "Problème lors de la déconnexion"
  const LOGGED_OUT: string := "Déconnexion réussie"
  const CHANGE_MAIL_SENT: string := "Un email de confirmation a été envoyé à votre nouvelle adresse."
  const LINK_NOT_VALID: string := "Le lien n'est pas valide."
  const EMAIL_CONFIRMED: string := "Votre email a été confirmé avec succès."

  /** A response: a status message, the serializer's failing fields (400),
      or an uncaught exception (500). */
  datatype Reply =
    | Success(status: int, message: string)
    | Failure(status: int, message: string)
    | FieldErrors(fields: seq<string>)
    | ServerError

  /** What `jwt.decode` makes of a link's token: an expired signature, any
      other decoding failure, or the payload. A payload key that is absent
      is None; `newEmail == Some(None)` is a null `new_email`. */
  datatype Token =
    | Expired
    | Undecodable
    | Decoded(userId: Option<int>, newEmail: Option<Option<string>>)

  /** `User.objects.get(id=payload["user_id"])`: the row the token names. */
  function TokenUser(users: seq<User>, token: Token): (r: Option<nat>)
    ensures r.Some? ==> && token.Decoded? && token.userId.Some?
                        && r.value < |users| && users[r.value].id as int == token.userId.value
    ensures r.None? <==> || !token.Decoded? || token.userId.None? || token.userId.value < 0
                         || token.userId.value as nat !in KeySet(users, UserId)
  {
    if token.Decoded? && token.userId.Some? && token.userId.value >= 0 then
      Find(users, UserId, token.userId.value as nat)
    else None
  }

  /** `user.save()` of the row at index `i`. */
  function SaveUser(s: Store, i: nat, u: User): (r: Store)
    requires i < |s.users|
    ensures r.(users := s.users) == s
    ensures |r.users| == |s.users| && r.users[i] == u
    ensures forall j :: 0 <= j < |s.users| && j != i ==> r.users[j] == s.users[j]
  {
    s.(users := s.users[i := u])
  }

  /** Saving a row that keeps its id, and keeps its email or takes one no
      user holds, keeps the store consistent and its user ids. */
  lemma SaveUserOk(s: Store, i: nat, u: User)
    requires StoreOk(s) && i < |s.users| && u.id == s.users[i].id
    requires u.email == s.users[i].email || u.email !in KeySet(s.users, UserEmail)
    ensures StoreOk(SaveUser(s, i, u))
    ensures KeySet(SaveUser(s, i, u).users, UserId) == KeySet(s.users, UserId)
  {
    DistinctUpdate(s.users, i, u, UserId);
    if u.email == s.users[i].email {
      DistinctUpdate(s.users, i, u, UserEmail);
    } else {
      DistinctReplace(s.users, i, u, UserEmail);
    }
    assert SaveUser(s, i, u) == s.(users := s.users[i := u]);
  }

  /** After a save that keeps the id, the token still names the same row. */
  lemma SaveUserKeepsToken(s: Store, i: nat, u: User, token: Token)
    requires StoreOk(s) && TokenUser(s.users, token) == Some(i) && u.id == s.users[i].id
    ensures TokenUser(SaveUser(s, i, u).users, token) == Some(i)
  {
    var users := SaveUser(s, i, u).users;
    DistinctUpdate(s.users, i, u, UserId);
    FindUnique(users, UserId, u.id, i);
  }

  /** `RegisterUserView.post`. The raw `email` is first looked up exactly;
      then the serializer validates; `create_user` stores the normalized
      address, and a normalized address already taken is the unique
      column's IntegrityError, a 500. The mail goes out after the user is
      saved, so a mail failure is a 500 with the user kept. */
  method Register(db: Database, input: RegisterInput, mailSent: bool) returns (reply: Reply)
    requires db.Valid()
    modifies db
    ensures db.Valid()
    ensures input.email.Some? && input.email.value in KeySet(old(db.state).users, UserEmail) ==>
      reply == Failure(BAD_REQUEST, EMAIL_TAKEN) && db.state == old(db.state)
    ensures RegisterErrors(old(db.state).users, input) != []
              && !(input.email.Some? && input.email.value in KeySet(old(db.state).users, UserEmail)) ==>
      reply == FieldErrors(RegisterErrors(old(db.state).users, input)) && db.state == old(db.state)
    ensures RegisterErrors(old(db.state).users, input) == [] ==>
      var e := NormalizeEmail(input.email.value);
      && (e in KeySet(old(db.state).users, UserEmail) ==> reply == ServerError && db.state == old(db.state))
      && (e !in KeySet(old(db.state).users, UserEmail) ==>
            && db.state == InsertUser(old(db.state), e, input.password, RegisterExtra(input))
            && reply == (if mailSent then Success(CREATED, USER_CREATED) else ServerError))
    ensures |db.state.users| > |old(db.state).users| ==>
      var u := db.state.users[|old(db.state).users|];
      u.isActive && !u.isEmailVerified && !u.isStaff && !u.isSuperuser
  {
    var s := db.state;
    if input.email.Some? && Find(s.users, UserEmail, input.email.value).Some? {
      return Failure(BAD_REQUEST, EMAIL_TAKEN);
    }
    var errors := RegisterErrors(s.users, input);
    if errors != [] {
      return FieldErrors(errors);
    }
    var created := CreateUser(db, input.email, input.password, RegisterExtra(input));
    if created.Err? {
      return ServerError;
    }
    if !mailSent {
      return ServerError;
    }
    return Success(CREATED, USER_CREATED);
  }

  /** Marking the address verified; nothing else about the user changes. */
  function Verify(u: User): (r: User)
    ensures r.isEmailVerified
    ensures r.(isEmailVerified := u.isEmailVerified) == u
  {
    u.(isEmailVerified := true)
  }

  /** `ConfirmRegistrationView.get`. */
  method ConfirmRegistration(db: Database, token: Token) returns (reply: Reply)
    requires db.Valid()
    modifies db
    ensures db.Valid()
    ensures token.Expired? ==> reply == Failure(BAD_REQUEST, LINK_EXPIRED) && db.state == old(db.state)
    ensures !token.Expired? && TokenUser(old(db.state).users, token).None? ==>
      reply == Failure(BAD_REQUEST, LINK_INVALID) && db.state == old(db.state)
    ensures TokenUser(old(db.state).users, token).Some? ==>
      var i := TokenUser(old(db.state).users, token).value;
      && (old(db.state).users[i].isEmailVerified ==>
            reply == Success(OK, ALREADY_CONFIRMED) && db.state == old(db.state))
      && (!old(db.state).users[i].isEmailVerified ==>
            reply == Success(OK, ACCOUNT_ACTIVATED) && db.state == SaveUser(old(db.state), i, Verify(old(db.state).users[i])))
  {
    if token.Expired? {
      return Failure(BAD_REQUEST, LINK_EXPIRED);
    }
    var s := db.state;
    var found := TokenUser(s.users, token);
    if found.None? {
      return Failure(BAD_REQUEST, LINK_INVALID);
    }
    var i := found.value;
    if s.users[i].isEmailVerified {
      return Success(OK, ALREADY_CONFIRMED);
    }
    SaveUserOk(s, i, Verify(s.users[i]));
    db.state := SaveUser(s, i, Verify(s.users[i]));
    return Success(OK, ACCOUNT_ACTIVATED);
  }

  /** Following the same link again finds the same user, now verified, so
      it gets the "already confirmed" answer and changes nothing. */
  lemma ConfirmRegistrationIdempotent(s: Store, token: Token)
    requires StoreOk(s) && TokenUser(s.users, token).Some?
    ensures var i := TokenUser(s.users, token).value;
      var s1 := SaveUser(s, i, Verify(s.users[i]));
      TokenUser(s1.users, token) == Some(i) && s1.users[i].isEmailVerified
  {
    var i := TokenUser(s.users, token).value;
    SaveUserKeepsToken(s, i, Verify(s.users[i]), token);
  }

  /** What `LoginSerializer.is_valid()` finds: fields missing or malformed,
      or the user `authenticate` returns (None for wrong credentials). */
  datatype LoginCheck = BadFields(fields: seq<string>) | Authenticated(user: Option<nat>)

  /** The `user` object of a successful login. */
  datatype UserInfo = UserInfo(email: string, firstName: Option<string>, lastName: Option<string>, isAdmin: bool)

  /** `LoginView.post`: tokens are issued only to a verified user. */
  method Login(db: Database, check: LoginCheck) returns (reply: Reply, info: Option<UserInfo>)
    requires db.Valid()
    requires check.BadFields? ==> check.fields != []
    requires check.Authenticated? && check.user.Some? ==> check.user.value in KeySet(db.state.users, UserId)
    ensures check.BadFields? ==> reply == FieldErrors(check.fields) && info.None?
    ensures check == Authenticated(None) ==> reply == FieldErrors(["non_field_errors"]) && info.None?
    ensures check.Authenticated? && check.user.Some? ==>
      forall u :: u in db.state.users && u.id == check.user.value ==>
        && (!u.isEmailVerified ==> reply == Failure(FORBIDDEN, CONFIRM_FIRST) && info.None?)
        && (u.isEmailVerified ==>
              reply == Success(OK, LOGGED_IN) && info == Some(UserInfo(u.email, u.firstName, u.lastName, u.isSuperuser)))
  {
    if check.BadFields? {
      return FieldErrors(check.fields), None;
    }
    if check.user.None? {
      return FieldErrors(["non_field_errors"]), None;
    }
    var s := db.state;
    var i := Find(s.users, UserId, check.user.value).value;
    forall u | u in s.users && u.id == check.user.value ensures u == s.users[i] {
      var j :| 0 <= j < |s.users| && s.users[j] == u;
      FindUnique(s.users, UserId, u.id, j);
    }
    var u := s.users[i];
    if !u.isEmailVerified {
      return Failure(FORBIDDEN, CONFIRM_FIRST), None;
    }
    return Success(OK, LOGGED_IN), Some(UserInfo(u.email, u.firstName, u.lastName, u.isSuperuser));
  }

  /** `LogoutView.post`: `refreshToken` is the posted `refresh_token`;
      `blacklisted` is whether parsing and blacklisting it succeeded. */
  function Logout(refreshToken: Option<string>, blacklisted: bool): (r: Reply)
    ensures (refreshToken.None? || refreshToken.value == "") ==> r == Failure(BAD_REQUEST, TOKEN_MISSING)
    ensures r.Success? <==> refreshToken.Some? && refreshToken.value != "" && blacklisted
    ensures r.Success? ==> r == Success(OK, LOGGED_OUT)
    ensures r.Failure? ==> r.status == BAD_REQUEST
    ensures refreshToken.Some? && refreshToken.value != "" && !blacklisted ==> r == Failure(BAD_REQUEST, LOGOUT_FAILED)
  {
    if refreshToken.None? || refreshToken.value == "" then Failure(BAD_REQUEST, TOKEN_MISSING)
    else if !blacklisted then Failure(BAD_REQUEST, LOGOUT_FAILED)
    else Success(OK, LOGGED_OUT)
  }

  /** `RequestEmailChangeView.post` for the authenticated user `uid`.
      `wellFormed` is what the email validator answers. The pending address
      is saved before the mail is sent, so a mail failure is a 500 with the
      pending address kept. */
  method RequestEmailChange(db: Database, uid: nat, newEmail: Option<string>, wellFormed: bool, mailSent: bool)
    returns (reply: Reply)
    requires db.Valid() && uid in KeySet(db.state.users, UserId)
    modifies db
    ensures db.Valid()
    ensures (newEmail.None? || newEmail.value == "" || !wellFormed) ==>
      reply == FieldErrors(["new_email"]) && db.state == old(db.state)
    ensures newEmail.Some? && newEmail.value in KeySet(old(db.state).users, UserEmail) ==>
      reply == FieldErrors(["new_email"]) && db.state == old(db.state)
    ensures newEmail.Some? && newEmail.value != "" && wellFormed && newEmail.value !in KeySet(old(db.state).users, UserEmail) ==>
      && reply == (if mailSent then Success(OK, CHANGE_MAIL_SENT) else ServerError)
      && forall i :: 0 <= i < |old(db.state).users| && old(db.state).users[i].id == uid ==>
           db.state == SaveUser(old(db.state), i, RequestChange(old(db.state).users[i], newEmail.value))
  {
    if newEmail.None? || newEmail.value == "" || !wellFormed {
      return FieldErrors(["new_email"]);
    }
    var s := db.state;
    var e := ValidateNewEmail(s.users, newEmail.value);
    if e.Err? {
      return FieldErrors(["new_email"]);
    }
    var i := Find(s.users, UserId, uid).value;
    forall j | 0 <= j < |s.users| && s.users[j].id == uid ensures j == i {
      FindUnique(s.users, UserId, uid, j);
    }
    SaveUserOk(s, i, RequestChange(s.users[i], e.value));
    db.state := SaveUser(s, i, RequestChange(s.users[i], e.value));
    if !mailSent {
      return ServerError;
    }
    return Success(OK, CHANGE_MAIL_SENT);
  }

  /** `ConfirmEmailChangeView.get`. Every exception after decoding (no such
      user, no `new_email` in the payload, nothing pending, the new address
      already held by another user) is caught as "invalid link"; a payload
      address that is not the pending one is refused separately. */
  method ConfirmEmailChange(db: Database, token: Token) returns (reply: Reply)
    requires db.Valid()
    modifies db
    ensures db.Valid()
    ensures reply != Success(OK, EMAIL_CONFIRMED) ==> db.state == old(db.state)
    ensures token.Expired? ==> reply == Failure(BAD_REQUEST, LINK_EXPIRED)
    ensures !token.Expired? && TokenUser(old(db.state).users, token).None? ==> reply == Failure(BAD_REQUEST, LINK_INVALID)
    ensures TokenUser(old(db.state).users, token).Some? ==>
      var i := TokenUser(old(db.state).users, token).value;
      var u := old(db.state).users[i];
      && (token.newEmail.None? ==> reply == Failure(BAD_REQUEST, LINK_INVALID))
      && (token.newEmail.Some? && u.pendingEmail != token.newEmail.value ==> reply == Failure(BAD_REQUEST, LINK_NOT_VALID))
      && (token.newEmail.Some? && u.pendingEmail == token.newEmail.value && ConfirmPending(u).Err? ==>
            reply == Failure(BAD_REQUEST, LINK_INVALID))
      && (token.newEmail.Some? && u.pendingEmail == token.newEmail.value && ConfirmPending(u).Ok? ==>
            var p := u.pendingEmail.value;
            && (p != u.email && p in KeySet(old(db.state).users, UserEmail) ==> reply == Failure(BAD_REQUEST, LINK_INVALID))
            && (p == u.email || p !in KeySet(old(db.state).users, UserEmail) ==>
                  reply == Success(OK, EMAIL_CONFIRMED) && db.state == SaveUser(old(db.state), i, ConfirmPending(u).value)))
  {
    if token.Expired? {
      return Failure(BAD_REQUEST, LINK_EXPIRED);
    }
    var s := db.state;
    var found := TokenUser(s.users, token);
    if found.None? || token.newEmail.None? {
      return Failure(BAD_REQUEST, LINK_INVALID);
    }
    var i := found.value;
    var u := s.users[i];
    if u.pendingEmail != token.newEmail.value {
      return Failure(BAD_REQUEST, LINK_NOT_VALID);
    }
    var confirmed := ConfirmPending(u);
    if confirmed.Err? {
      return Failure(BAD_REQUEST, LINK_INVALID);
    }
    var p := u.pendingEmail.value;
    if p != u.email && Find(s.users, UserEmail, p).Some? {
      return Failure(BAD_REQUEST, LINK_INVALID);
    }
    SaveUserOk(s, i, confirmed.value);
    db.state := SaveUser(s, i, confirmed.value);
    return Success(OK, EMAIL_CONFIRMED);
  }

  /** A confirmed change cannot be replayed: the same link then finds the
      same user with nothing pending, which no longer matches the payload
      address, and is refused. */
  lemma ConfirmEmailChangeOnce(s: Store, token: Token)
    requires StoreOk(s) && TokenUser(s.users, token).Some? && token.newEmail.Some?
    requires var u := s.users[TokenUser(s.users, token).value];
      u.pendingEmail == token.newEmail.value && ConfirmPending(u).Ok?
    ensures var i := TokenUser(s.users, token).value;
      var s1 := SaveUser(s, i, ConfirmPending(s.users[i]).value);
      TokenUser(s1.users, token) == Some(i) && s1.users[i].pendingEmail != token.newEmail.value
  {
    var i := TokenUser(s.users, token).value;
    SaveUserKeepsToken(s, i, ConfirmPending(s.users[i]).value, token);
  }
}
