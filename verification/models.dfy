/** Accounts, invites and messages of the moving-checklist application: the
    account manager's argument checks, the invite expiry bookkeeping and the
    display texts. Time is a count of seconds; persistence is a map of saved
    accounts. */
module Models {
  import opened Basics

  /** `timedelta(hours=24)`, in seconds. */
  const DAY: int := 24 * 60 * 60

  const EMAIL_REQUIRED: string := "メールアドレスは必須です"
  const STAFF_REQUIRED: string := "Superuser must have is_staff=True."
  const SUPERUSER_REQUIRED: string := "Superuser must have is_superuser=True."

  /** A value passed as a keyword argument in `**extra_fields`. */
  datatype FieldValue = Bool(b: bool) | Int(i: int) | Text(s: string) | Null

  /** The exceptions account creation raises: `ValueError` with its message,
      or the database's `IntegrityError` when the email is already taken. */
  datatype UserError = ValueError(message: string) | IntegrityError

  /** `extra_fields.get(key) is True`: the key is present and holds the
      boolean `True` itself (not `1`, not a string). */
  predicate IsTrue(fields: map<string, FieldValue>, key: string) {
    key in fields && fields[key] == Bool(true)
  }

  /** `not email` for an email argument that is a string or `None`. */
  predicate IsBlank(email: Option<string>) {
    email.None? || email.value == ""
  }

  /** A `CustomUser`: its email (the login identifier), its password (`None`
      when it was created without one, which leaves it unusable) and the
      remaining model fields passed at creation. */
  datatype User = User(email: string, password: Option<string>, fields: map<string, FieldValue>) {
    /** `CustomUser.__str__`: an account is shown as its email address. */
    function ToString(): (r: string)
      ensures r == email
    {
      email
    }
  }

  /** `dict.setdefault(key, default)` as a new dictionary: the key is added
      with `default` when absent, and no value the caller supplied changes. */
  function SetDefault(fields: map<string, FieldValue>, key: string, default: FieldValue): (r: map<string, FieldValue>)
    ensures r.Keys == fields.Keys + {key}
    ensures forall k :: k in fields ==> r[k] == fields[k]
    ensures key !in fields ==> r[key] == default
  {
    if key in fields then fields else fields[key := default]
  }

  /** The keyword arguments `create_superuser` hands on, once both flags have
      their defaults. */
  function SuperuserFields(extra: map<string, FieldValue>): (f: map<string, FieldValue>)
    ensures f.Keys == extra.Keys + {"is_staff", "is_superuser"}
    ensures forall k :: k in extra ==> f[k] == extra[k]
    ensures "is_staff" !in extra ==> f["is_staff"] == Bool(true)
    ensures "is_superuser" !in extra ==> f["is_superuser"] == Bool(true)
  {
    SetDefault(SetDefault(extra, "is_staff", Bool(true)), "is_superuser", Bool(true))
  }

  /** The flag checks of `create_superuser`, `is_staff` first. */
  function SuperuserFlagError(fields: map<string, FieldValue>): (r: Option<UserError>)
    ensures r == None <==> IsTrue(fields, "is_staff") && IsTrue(fields, "is_superuser")
    ensures r == Some(ValueError(STAFF_REQUIRED)) <==> !IsTrue(fields, "is_staff")
    ensures r == Some(ValueError(SUPERUSER_REQUIRED)) <==> IsTrue(fields, "is_staff") && !IsTrue(fields, "is_superuser")
  {
    if !IsTrue(fields, "is_staff") then Some(ValueError(STAFF_REQUIRED))
    else if !IsTrue(fields, "is_superuser") then Some(ValueError(SUPERUSER_REQUIRED))
    else None
  }

  /** `create_superuser` passes its flag checks exactly when the caller left
      each flag out or set it to `True` itself. */
  lemma SuperuserFlagsAccepted(extra: map<string, FieldValue>)
    ensures SuperuserFlagError(SuperuserFields(extra)) == None <==>
      && ("is_staff" !in extra || extra["is_staff"] == Bool(true))
      && ("is_superuser" !in extra || extra["is_superuser"] == Bool(true))
  {
  }

  /** What `create_user(email, password, **fields)` does to the saved accounts
      `before`, leaving `after` and returning `r`: a blank email is refused
      before anything is built or saved, an email already saved is refused by
      the unique constraint, and otherwise exactly one account is added. */
  ghost predicate CreatesUser(before: map<string, User>, after: map<string, User>, normalize: string -> string,
                              email: Option<string>, password: Option<string>, fields: map<string, FieldValue>,
                              r: Result<User, UserError>)
  {
    if IsBlank(email) then
      r == Failure(ValueError(EMAIL_REQUIRED)) && after == before
    else if normalize(email.value) in before then
      r == Failure(IntegrityError) && after == before
    else
      r == Success(User(normalize(email.value), password, fields)) && after == before[r.value.email := r.value]
  }

  /** `UserManager`. `normalize_email` belongs to the framework and is a
      parameter; the saved accounts are keyed by their email, which the
      schema declares unique. */
  class UserManager {
    const normalizeEmail: string -> string
    var users: map<string, User>

    ghost predicate Valid()
      reads this
    {
      forall e :: e in users ==> users[e].email == e
    }

    constructor (normalizeEmail: string -> string)
      ensures Valid()
      ensures this.normalizeEmail == normalizeEmail && users == map[]
    {
      this.normalizeEmail := normalizeEmail;
      users := map[];
    }

    /** `create_user`. The keys `email` and `password` cannot reach
        `**extra_fields`, because Python binds them to the named parameters. */
    method CreateUser(email: Option<string>, password: Option<string>, extra: map<string, FieldValue>)
      returns (r: Result<User, UserError>)
      requires Valid()
      requires "email" !in extra && "password" !in extra
      modifies this
      ensures Valid()
      ensures CreatesUser(old(users), users, normalizeEmail, email, password, extra, r)
    {
      if IsBlank(email) {
        return Failure(ValueError(EMAIL_REQUIRED));
      }
      var normalized := normalizeEmail(email.value);
      var user := User(normalized, password, extra);
      if normalized in users {
        return Failure(IntegrityError);
      }
      users := users[normalized := user];
      r := Success(user);
    }

    /** `create_superuser`: both flags default to `True`, the flag checks run
        (`is_staff` first) before any check of the email, and only then is
        the account created as `create_user` does. */
    method CreateSuperuser(email: Option<string>, password: Option<string>, extra: map<string, FieldValue>)
      returns (r: Result<User, UserError>)
      requires Valid()
      requires "email" !in extra && "password" !in extra
      modifies this
      ensures Valid()
      ensures SuperuserFlagError(SuperuserFields(extra)).Some? ==>
        r == Failure(SuperuserFlagError(SuperuserFields(extra)).value) && users == old(users)
      ensures SuperuserFlagError(SuperuserFields(extra)).None? ==>
        CreatesUser(old(users), users, normalizeEmail, email, password, SuperuserFields(extra), r)
    {
      var fields := extra;
      fields := SetDefault(fields, "is_staff", Bool(true));
      fields := SetDefault(fields, "is_superuser", Bool(true));
      if !IsTrue(fields, "is_staff") {
        return Failure(ValueError(STAFF_REQUIRED));
      }
      if !IsTrue(fields, "is_superuser") {
        return Failure(ValueError(SUPERUSER_REQUIRED));
      }
      r := CreateUser(email, password, fields);
    }
  }

  /** No two saved accounts share an email: the unique constraint on the
      email column holds of every valid account store. */
  lemma SavedEmailsUnique(manager: UserManager, k1: string, k2: string)
    requires manager.Valid()
    requires k1 in manager.users && k2 in manager.users
    requires manager.users[k1].email == manager.users[k2].email
    ensures k1 == k2
  {
  }

  /** The error `is_expired` raises on an invite without an expiry: Python
      cannot compare a date with `None`. */
  datatype InviteError = TypeError

  /** An invite link. `code` is the random UUID in its text form; `createdAt`
      is set by the database on the first save; `stored` says whether the
      invite has been saved yet. */
  class Invite {
    const code: string
    const inviter: User
    var createdAt: Option<int>
    var expiresAt: Option<int>
    var isUsed: bool
    var stored: bool

    /** A new, unsaved invite; `expiresAt` is whatever the caller passed,
        `None` by default. */
    constructor (code: string, inviter: User, expiresAt: Option<int>)
      ensures this.code == code && this.inviter == inviter && this.expiresAt == expiresAt
      ensures createdAt == None && !stored
      ensures !isUsed
    {
      this.code := code;
      this.inviter := inviter;
      this.expiresAt := expiresAt;
      createdAt := None;
      isUsed := false;
      stored := false;
    }

    /** `Invite.save` at clock reading `now`: an invite without an expiry gets
        one 24 hours from now, an existing expiry is never moved, and the
        first save stamps the creation time. */
    method Save(now: int)
      modifies this
      ensures old(expiresAt).None? ==> expiresAt == Some(now + DAY)
      ensures old(expiresAt).Some? ==> expiresAt == old(expiresAt)
      ensures createdAt == if old(stored) then old(createdAt) else Some(now)
      ensures stored && isUsed == old(isUsed)
    {
      if expiresAt.None? {
        expiresAt := Some(now + DAY);
      }
      if !stored {
        createdAt := Some(now);
        stored := true;
      }
    }

    /** `Invite.is_expired` at clock reading `now`: expired strictly after the
        expiry instant, so not yet at it; an invite without an expiry cannot
        be compared. */
    function IsExpired(now: int): (r: Result<bool, InviteError>)
      reads this
      ensures r.Failure? <==> expiresAt.None?
      ensures r.Success? ==> (r.value <==> now > expiresAt.value)
    {
      if expiresAt.None? then Failure(TypeError) else Success(now > expiresAt.value)
    }

    /** `Invite.__str__`: the code, then the inviter's email in full-width
        parentheses; both can be read back from the text. */
    function ToString(): (r: string)
      ensures |r| == |code| + |inviter.email| + 5
      ensures r[..|code|] == code
      ensures r[|code|..|code| + 4] == "（by " && r[|r| - 1] == '）'
      ensures r[|code| + 4..|r| - 1] == inviter.email
    {
      code + "（by " + inviter.email + "）"
    }
  }

  /** Once expired, an invite stays expired at every later instant. */
  lemma ExpiredStaysExpired(invite: Invite, t1: int, t2: int)
    requires t1 <= t2 && invite.IsExpired(t1) == Success(true)
    ensures invite.IsExpired(t2) == Success(true)
  {
  }

  /** Invite codes all have one length (a UUID's text), so two invites that
      display the same text have the same code and the same inviter email. */
  lemma InviteTextIdentifies(a: Invite, b: Invite)
    requires |a.code| == |b.code|
    requires a.ToString() == b.ToString()
    ensures a.code == b.code && a.inviter.email == b.inviter.email
  {
    var s := a.ToString();
    assert s == b.ToString();
    assert a.code == s[..|a.code|] == b.code;
    assert a.inviter.email == s[|a.code| + 4..|s| - 1] == b.inviter.email;
  }

  /** The life of an invite: created without an expiry, saved at `s`, saved
      again at `later`, then checked at `t`. Its expiry is `s` plus 24 hours
      whatever `later` is, it is expired at `t` exactly when `t` is past that,
      and it is still unused. */
  method InviteLifecycle(code: string, inviter: User, s: int, later: int, t: int)
    returns (created: int, expires: int, expired: bool, used: bool)
    ensures created == s && expires == s + DAY
    ensures expired <==> t > s + DAY
    ensures !used
  {
    var invite := new Invite(code, inviter, None);
    invite.Save(s);
    invite.Save(later);
    created := invite.createdAt.value;
    expires := invite.expiresAt.value;
    var check := invite.IsExpired(t);
    expired := check.value;
    used := invite.isUsed;
  }

  /** A message between two accounts. */
  datatype Message = Message(sender: User, receiver: User, content: string) {
    /** `Message.__str__`: sender, arrow, receiver, then at most the first 15
        characters of the content. */
    function ToString(): (r: string)
      ensures var head := sender.ToString() + " → " + receiver.ToString() + ": ";
        && StartsWith(r, head)
        && |r| == |head| + Min(15, |content|)
        && StartsWith(content, r[|head|..])
    {
      sender.ToString() + " → " + receiver.ToString() + ": " + Take(content, 15)
    }
  }

  /** Content of at most 15 characters is shown whole. */
  lemma ShortMessageShownWhole(m: Message)
    requires |m.content| <= 15
    ensures m.ToString() == m.sender.email + " → " + m.receiver.email + ": " + m.content
  {
  }
}
