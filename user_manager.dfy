/** `UserManager` (backend/users/models.py:10-36): creating users and
    superusers in the user table. */
module UserManager {
  import opened Common
  import opened Tables
  import opened UserModels
  import opened Db

  /** The store after `user.save()` of a new user with the next id. */
  function InsertUser(s: Store, email: string, password: Option<string>, extra: ExtraFields): (r: Store)
    ensures r.(users := s.users, nextUserId := s.nextUserId) == s
    ensures r.nextUserId == s.nextUserId + 1
    ensures |r.users| == |s.users| + 1 && r.users[..|s.users|] == s.users
    ensures r.users[|s.users|] == NewUser(s.nextUserId, email, password, extra)
  {
    var r := s.(users := s.users + [NewUser(s.nextUserId, email, password, extra)], nextUserId := s.nextUserId + 1);
    assert r.users[..|s.users|] == s.users;
    r
  }

  /** Appending a user with the next id and an unused email keeps the store
      consistent; the user ids grow by the new id. */
  lemma InsertUserOk(s: Store, email: string, password: Option<string>, extra: ExtraFields)
    requires StoreOk(s) && email !in KeySet(s.users, UserEmail)
    ensures StoreOk(InsertUser(s, email, password, extra))
    ensures KeySet(InsertUser(s, email, password, extra).users, UserId) == KeySet(s.users, UserId) + {s.nextUserId}
  {
    var u := NewUser(s.nextUserId, email, password, extra);
    DistinctAppend(s.users, u, UserId);
    DistinctAppend(s.users, u, UserEmail);
    assert InsertUser(s, email, password, extra) == s.(users := s.users + [u], nextUserId := s.nextUserId + 1);
  }

  /** `create_user(email, password, **extra_fields)`. `email` None stands for
      a missing address. An empty address raises the ValueError; an address
      whose normalized form is taken fails with the IntegrityError of the
      unique column and nothing is saved. */
  method CreateUser(db: Database, email: Option<string>, password: Option<string>, extra: ExtraFields)
    returns (r: Result<User, ManagerError>)
    requires db.Valid()
    modifies db
    ensures db.Valid()
    ensures (email.None? || email.value == "") ==> r == Err(ValueError(EMAIL_REQUIRED)) && db.state == old(db.state)
    ensures email.Some? && email.value != "" && NormalizeEmail(email.value) in KeySet(old(db.state).users, UserEmail) ==>
      r == Err(IntegrityError) && db.state == old(db.state)
    ensures email.Some? && email.value != "" && NormalizeEmail(email.value) !in KeySet(old(db.state).users, UserEmail) ==>
      && r == Ok(NewUser(old(db.state).nextUserId, NormalizeEmail(email.value), password, extra))
      && db.state == InsertUser(old(db.state), NormalizeEmail(email.value), password, extra)
    ensures r.Ok? ==> NormalizeEmail(r.value.email) == r.value.email
  {
    if email.None? || email.value == "" {
      return Err(ValueError(EMAIL_REQUIRED));
    }
    var e := NormalizeEmail(email.value);
    var s := db.state;
    if Find(s.users, UserEmail, e).Some? {
      return Err(IntegrityError);
    }
    NormalizeIdempotent(email.value);
    InsertUserOk(s, e, password, extra);
    db.state := InsertUser(s, e, password, extra);
    return Ok(NewUser(s.nextUserId, e, password, extra));
  }

  /** `create_superuser`: the flag checks come first, then `create_user`
      with both flags set. */
  method CreateSuperuser(db: Database, email: Option<string>, password: Option<string>, extra: ExtraFields)
    returns (r: Result<User, ManagerError>)
    requires db.Valid()
    modifies db
    ensures db.Valid()
    ensures SuperuserExtra(extra).Err? ==> r == Err(SuperuserExtra(extra).error) && db.state == old(db.state)
    ensures SuperuserExtra(extra).Ok? && (email.None? || email.value == "") ==>
      r == Err(ValueError(EMAIL_REQUIRED)) && db.state == old(db.state)
    ensures (SuperuserExtra(extra).Ok? && email.Some? && email.value != ""
             && NormalizeEmail(email.value) in KeySet(old(db.state).users, UserEmail)) ==>
      r == Err(IntegrityError) && db.state == old(db.state)
    ensures (SuperuserExtra(extra).Ok? && email.Some? && email.value != ""
             && NormalizeEmail(email.value) !in KeySet(old(db.state).users, UserEmail)) ==>
      && r == Ok(NewUser(old(db.state).nextUserId, NormalizeEmail(email.value), password, SuperuserExtra(extra).value))
      && db.state == InsertUser(old(db.state), NormalizeEmail(email.value), password, SuperuserExtra(extra).value)
    ensures r.Ok? ==> SuperuserExtra(extra).Ok? && r.value.isStaff && r.value.isSuperuser
  {
    var checked := SuperuserExtra(extra);
    if checked.Err? {
      return Err(checked.error);
    }
    r := CreateUser(db, email, password, checked.value);
  }
}
