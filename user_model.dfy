/** The user document: field setters and validators, the password hashing hook,
    password comparison and the reset token. bcrypt and SHA-256 are taken as
    ideal: a hash is the value it was made from, wrapped, so two hashes are
    equal exactly when their inputs are. The e-mail pattern of the schema is
    decided by a regular-expression engine; it is the parameter `emailPattern`. */
module UserModel {
  import opened Common
  import opened Text

  datatype Role = Customer | Admin

  function RoleName(r: Role): string
  {
    match r
    case Customer => "user"
    case Admin => "admin"
  }

  /** The role enum: 'user' and 'admin' only. */
  function ParseRole(name: string): (r: Option<Role>)
    ensures r.Some? ==> RoleName(r.value) == name
    ensures r.None? ==> name != "user" && name != "admin"
  {
    if name == "user" then Some(Customer) else if name == "admin" then Some(Admin) else None
  }

  const DefaultRole: Role := Customer

  /** A bcrypt hash of a password. */
  datatype Secret = Bcrypt(plain: string)

  /** A SHA-256 digest of a reset token. */
  datatype ResetDigest = Sha256(token: string)

  datatype User = User(
    id: Id,
    name: string,
    email: string,
    phone: string,
    password: Secret,
    role: Role,
    loggedIn: bool,
    profileImage: string,
    resetToken: Option<ResetDigest>,
    resetExpire: Option<int>)

  /** The e-mail setters: trimmed, then lower-cased. They also apply to the
      values of queries on the field. */
  function NormalizeEmail(e: string): (r: string)
    ensures |r| <= |e|
  {
    ToLower(Trim(e))
  }

  lemma LowerKeepsSpace(c: char)
    ensures IsSpace(LowerChar(c)) <==> IsSpace(c)
  {
  }

  lemma {:induction false} LowerTwice(s: string)
    ensures ToLower(ToLower(s)) == ToLower(s)
  {
    assert forall i :: 0 <= i < |s| ==> LowerChar(LowerChar(s[i])) == LowerChar(s[i]);
  }

  /** Normalising twice is normalising once, so a stored address is found again
      by a query with the same address. */
  lemma NormalizeIdempotent(e: string)
    ensures NormalizeEmail(NormalizeEmail(e)) == NormalizeEmail(e)
  {
    var t := Trim(e);
    var l := ToLower(t);
    TrimEdges(e);
    if l != [] {
      LowerKeepsSpace(t[0]);
      LowerKeepsSpace(t[|t| - 1]);
    }
    TrimWithoutEdgeSpace(l);
    LowerTwice(t);
  }

  lemma TrimEdges(s: string)
    ensures var t := Trim(s); t == [] || (!IsSpace(t[0]) && !IsSpace(t[|t| - 1]))
  {
    var a := TrimStart(s);
    var t := TrimEnd(a);
    if t != [] {
      assert t[0] == a[0];
    }
  }

  lemma TrimWithoutEdgeSpace(s: string)
    requires s == [] || (!IsSpace(s[0]) && !IsSpace(s[|s| - 1]))
    ensures Trim(s) == s
  {
  }

  /** The field validators, on the values the setters produced: a name of at
      most 50 characters, an e-mail matching the schema's pattern, a phone of
      exactly ten digits; role is one of the enum by its type. */
  predicate UserValid(u: User, emailPattern: string -> bool)
  {
    u.name != "" && Utf16Length(u.name) <= 50
    && u.email != "" && emailPattern(u.email)
    && DigitsOfLength(u.phone, 10)
  }

  /** The minimum length the schema demands of a password as it is set, before
      the hook hashes it. */
  predicate NewPasswordValid(plain: string) { Utf16Length(plain) >= 4 }

  /** `comparePassword`. */
  predicate ComparePassword(entered: string, stored: Secret) { stored == Bcrypt(entered) }

  /** `save()`: validation first, on the new plain password if one was set, then
      the hook that hashes the password only when it was modified. */
  function SaveUser(u: User, newPassword: Option<string>, emailPattern: string -> bool): (r: Option<User>)
    ensures r.Some? <==> UserValid(u, emailPattern) && (newPassword.Some? ==> NewPasswordValid(newPassword.value))
    ensures r.Some? && newPassword.None? ==> r.value == u
    ensures r.Some? && newPassword.Some? ==> r.value == u.(password := Bcrypt(newPassword.value))
  {
    if !UserValid(u, emailPattern) then None
    else match newPassword
      case None => Some(u)
      case Some(p) => if NewPasswordValid(p) then Some(u.(password := Bcrypt(p))) else None
  }

  /** After a save that set a password, exactly that password matches; a save
      that did not set one keeps the old hash. */
  lemma HashOnlyWhenModified(u: User, newPassword: Option<string>, emailPattern: string -> bool, attempt: string)
    requires SaveUser(u, newPassword, emailPattern).Some?
    ensures var saved := SaveUser(u, newPassword, emailPattern).value;
      (newPassword.Some? ==> (ComparePassword(attempt, saved.password) <==> attempt == newPassword.value))
      && (newPassword.None? ==> saved.password == u.password)
  {
  }

  const ResetWindow: int := 10 * 60 * 1000

  /** `getResetPasswordToken`: `token` stands for the random hex string; the
      document keeps only its digest, valid for ten minutes from `now`. */
  function IssueResetToken(u: User, token: string, now: int): (r: (User, string))
    ensures r.1 == token
    ensures r.0.resetToken == Some(Sha256(token)) && r.0.resetExpire == Some(now + 600000)
    ensures r.0.(resetToken := u.resetToken, resetExpire := u.resetExpire) == u
  {
    (u.(resetToken := Some(Sha256(token)), resetExpire := Some(now + ResetWindow)), token)
  }

  /** The reset lookup: the stored digest is that of the token and the expiry is
      strictly after `now`. */
  predicate ResetTokenMatches(u: User, token: string, now: int)
  {
    u.resetToken == Some(Sha256(token)) && u.resetExpire.Some? && u.resetExpire.value > now
  }

  /** A token issued at time t is accepted exactly when it is presented before
      t + 600000 ms; no other token is accepted. */
  lemma ResetTokenWindow(u: User, token: string, t: int, presented: string, now: int)
    ensures ResetTokenMatches(IssueResetToken(u, token, t).0, presented, now) <==>
      presented == token && now < t + 600000
  {
  }
}
