/** The user table and the field rules of its manager
    (backend/users/models.py). Inserting a user is in module UserManager. */
module UserModels {
  import opened Common
  import opened Tables
  import opened Text

  /** A user row. `password` stands for the hash `set_password` stores (None:
      an unusable password). `isEmailVerified` and `pendingEmail` are used by
      the user views and serializers although the table declares no such
      columns (see README). */
  datatype User = User(
    id: nat,
    email: string,
    password: Option<string>,
    firstName: Option<string>,
    lastName: Option<string>,
    isActive: bool,
    isStaff: bool,
    isSuperuser: bool,
    isEmailVerified: bool,
    pendingEmail: Option<string>)

  /** The `**extra_fields` a caller may pass to the manager. */
  datatype ExtraFields = ExtraFields(
    firstName: Option<string>,
    lastName: Option<string>,
    isActive: Option<bool>,
    isStaff: Option<bool>,
    isSuperuser: Option<bool>,
    isEmailVerified: Option<bool>)

  const NO_EXTRA: ExtraFields := ExtraFields(None, None, None, None, None, None)

  function UserId(u: User): nat { u.id }
  /** The `unique=True` email column. */
  function UserEmail(u: User): string { u.email }

  /** The user table after user `u` is deleted. */
  function DeleteUserRow(users: seq<User>, u: nat): (r: seq<User>)
    ensures forall x :: x in r <==> x in users && x.id != u
    ensures Distinct(users, UserId) ==> Distinct(r, UserId)
    ensures Distinct(users, UserEmail) ==> Distinct(r, UserEmail)
  {
    var keep := (x: User) => x.id != u;
    assert Distinct(users, UserId) ==> Distinct(Filter(users, keep), UserId) by {
      if Distinct(users, UserId) { FilterDistinct(users, keep, UserId); }
    }
    assert Distinct(users, UserEmail) ==> Distinct(Filter(users, keep), UserEmail) by {
      if Distinct(users, UserEmail) { FilterDistinct(users, keep, UserEmail); }
    }
    Filter(users, keep)
  }

  function OrElse(o: Option<bool>, default: bool): bool
  {
    if o.Some? then o.value else default
  }

  /** `self.model(email=email, **extra_fields)`: the column defaults
      (`is_active` True, `is_staff` False, `is_superuser` False, no pending
      email, not verified) unless an extra field overrides them. */
  function NewUser(id: nat, email: string, password: Option<string>, extra: ExtraFields): (u: User)
    ensures u.id == id && u.email == email && u.password == password && u.pendingEmail.None?
    ensures extra.isActive.None? ==> u.isActive
    ensures extra.isStaff.None? ==> !u.isStaff
    ensures extra.isSuperuser.None? ==> !u.isSuperuser
    ensures extra.isEmailVerified.None? ==> !u.isEmailVerified
    ensures extra.isActive.Some? ==> u.isActive == extra.isActive.value
    ensures extra.isStaff.Some? ==> u.isStaff == extra.isStaff.value
    ensures extra.isSuperuser.Some? ==> u.isSuperuser == extra.isSuperuser.value
    ensures extra.isEmailVerified.Some? ==> u.isEmailVerified == extra.isEmailVerified.value
    ensures u.firstName == extra.firstName && u.lastName == extra.lastName
  {
    User(id, email, password, extra.firstName, extra.lastName,
         OrElse(extra.isActive, true), OrElse(extra.isStaff, false),
         OrElse(extra.isSuperuser, false), OrElse(extra.isEmailVerified, false), None)
  }

  /** What the manager raises: a ValueError with its message, or the
      database's IntegrityError for a duplicate email. */
  datatype ManagerError = ValueError(message: string) | IntegrityError

  const EMAIL_REQUIRED: string := "L'email est obligatoire"
  const STAFF_REQUIRED: string := "Le super-utilisateur doit avoir is_staff=True."
  const SUPERUSER_REQUIRED: string := "Le super-utilisateur doit avoir is_superuser=True."

  /** `create_superuser`'s handling of `extra_fields`: `setdefault` both flags
      to True, then refuse a flag that is not True, `is_staff` first. */
  function SuperuserExtra(extra: ExtraFields): (r: Result<ExtraFields, ManagerError>)
    ensures r.Ok? <==> extra.isStaff != Some(false) && extra.isSuperuser != Some(false)
    ensures r.Ok? ==> r.value == extra.(isStaff := Some(true), isSuperuser := Some(true))
    ensures extra.isStaff == Some(false) ==> r == Err(ValueError(STAFF_REQUIRED))
    ensures extra.isStaff != Some(false) && extra.isSuperuser == Some(false) ==> r == Err(ValueError(SUPERUSER_REQUIRED))
  {
    var e := extra.(isStaff := Some(OrElse(extra.isStaff, true)),
                    isSuperuser := Some(OrElse(extra.isSuperuser, true)));
    if e.isStaff != Some(true) then Err(ValueError(STAFF_REQUIRED))
    else if e.isSuperuser != Some(true) then Err(ValueError(SUPERUSER_REQUIRED))
    else Ok(e)
  }

  predicate NoAt(s: string)
  {
    forall i :: 0 <= i < |s| ==> s[i] != '@'
  }

  /** The position `rsplit("@", 1)` splits at: the last '@'. */
  function LastAt(s: string): (r: Option<nat>)
    ensures r.Some? ==> r.value < |s| && s[r.value] == '@' && NoAt(s[r.value + 1..])
    ensures r.None? ==> NoAt(s)
  {
    if |s| == 0 then None
    else if s[|s| - 1] == '@' then Some(|s| - 1)
    else
      var r := LastAt(s[..|s| - 1]);
      assert r.Some? ==> s[r.value + 1..] == s[..|s| - 1][r.value + 1..] + [s[|s| - 1]];
      r
  }

  /** `BaseUserManager.normalize_email`: strip the address, split it at the
      last '@' and lower-case the domain; an address without '@' is kept
      as given, unstripped. */
  function NormalizeEmail(email: string): string
  {
    var t := Trim(email);
    match LastAt(t)
    case None => email
    case Some(k) => t[..k] + "@" + Lower(t[k + 1..])
  }

  /** What normalization keeps: an address whose stripped form has no '@'
      is returned as given; otherwise the local part before the last '@' is
      kept and the domain after it is lower-cased. */
  lemma NormalizeParts(email: string)
    ensures LastAt(Trim(email)).None? ==> NormalizeEmail(email) == email
    ensures LastAt(Trim(email)).Some? ==>
      var t := Trim(email);
      var k := LastAt(t).value;
      var r := NormalizeEmail(email);
      |r| == |t| && r[..k] == t[..k] && r[k] == '@' && r[k + 1..] == Lower(t[k + 1..])
  {
    var t := Trim(email);
    match LastAt(t)
    case None =>
    case Some(k) =>
      var r := t[..k] + "@" + Lower(t[k + 1..]);
      assert r[..k] == t[..k];
      assert r[k + 1..] == Lower(t[k + 1..]);
  }

  /** The last '@' of `a + "@" + b` is the one between them when `b` has none. */
  lemma {:induction false} LastAtSplit(a: string, b: string)
    requires NoAt(b)
    ensures LastAt(a + "@" + b) == Some(|a|)
    decreases |b|
  {
    var s := a + "@" + b;
    if |b| > 0 {
      assert s[..|s| - 1] == a + "@" + b[..|b| - 1];
      LastAtSplit(a, b[..|b| - 1]);
    }
  }

  lemma TrimNoop(s: string)
    requires s != [] && !IsSpace(s[0]) && !IsSpace(s[|s| - 1])
    ensures Trim(s) == s
  {
    assert TrimStart(s) == s;
    assert TrimEnd(s) == s;
  }

  lemma LowerIdempotent(s: string)
    ensures Lower(Lower(s)) == Lower(s)
    ensures NoAt(s) ==> NoAt(Lower(s))
    ensures s != [] && !IsSpace(s[|s| - 1]) ==> !IsSpace(Lower(s)[|s| - 1])
  {
  }

  lemma SplitParts(local: string, domain: string)
    ensures (local + "@" + domain)[..|local|] == local
    ensures (local + "@" + domain)[|local| + 1..] == domain
  {
  }

  /** An address already split at its last '@', stripped and with a
      lower-case domain, is its own normalization. */
  lemma NormalizeFixed(local: string, domain: string)
    requires local == [] || !IsSpace(local[0])
    requires domain == [] || !IsSpace(domain[|domain| - 1])
    requires NoAt(domain) && Lower(domain) == domain
    ensures NormalizeEmail(local + "@" + domain) == local + "@" + domain
  {
    var e := local + "@" + domain;
    FixedShape(local, domain);
    NormalizeAt(e, |local|);
    assert e[..|local|] == local;
  }

  lemma FixedShape(local: string, domain: string)
    requires local == [] || !IsSpace(local[0])
    requires domain == [] || !IsSpace(domain[|domain| - 1])
    requires NoAt(domain)
    ensures Trim(local + "@" + domain) == local + "@" + domain
    ensures LastAt(local + "@" + domain) == Some(|local|)
    ensures (local + "@" + domain)[..|local|] == local
    ensures (local + "@" + domain)[|local| + 1..] == domain
  {
    TrimSplit(local, domain);
    LastAtSplit(local, domain);
    SplitParts(local, domain);
  }

  lemma TrimSplit(local: string, domain: string)
    requires local == [] || !IsSpace(local[0])
    requires domain == [] || !IsSpace(domain[|domain| - 1])
    ensures Trim(local + "@" + domain) == local + "@" + domain
  {
    var n := local + "@" + domain;
    assert n[0] == if local != [] then local[0] else '@';
    assert n[|n| - 1] == if domain != [] then domain[|domain| - 1] else '@';
    TrimNoop(n);
  }

  lemma NormalizeAt(e: string, k: nat)
    requires Trim(e) == e && LastAt(e) == Some(k)
    ensures NormalizeEmail(e) == e[..k] + "@" + Lower(e[k + 1..])
  {
  }

  /** Normalizing an address twice changes nothing more than normalizing it
      once, so normalized addresses compare as the database stores them. */
  lemma NormalizeIdempotent(email: string)
    ensures NormalizeEmail(NormalizeEmail(email)) == NormalizeEmail(email)
  {
    var t := Trim(email);
    match LastAt(t)
    case None =>
    case Some(k) =>
      var local, domain := t[..k], t[k + 1..];
      assert local != [] ==> local[0] == t[0];
      assert domain != [] ==> domain[|domain| - 1] == t[|t| - 1];
      LowerIdempotent(domain);
      NormalizeFixed(local, Lower(domain));
  }
}
