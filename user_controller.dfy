/** The account handlers. Users are kept in insertion order, and `findOne`
    returns the first match in that order. `emailPattern` is the schema's e-mail
    pattern and `isEmail` Joi's e-mail rule, both decided by libraries. */
module UserController {
  import opened Common
  import opened Text
  import opened Js
  import opened Joi
  import opened AuthValidator
  import opened UserModel
  import opened Store

  /** The reason a user document failed its validators, as the handlers report it. */
  const UserSaveMessage := "User validation failed"
  const NotFoundMessage := "User not found"

  /** `findById` on the users. */
  function IndexOfId(users: seq<User>, id: Id): (r: Option<nat>)
    ensures r.Some? ==> r.value < |users| && users[r.value].id == id
    ensures r.None? ==> forall k :: 0 <= k < |users| ==> users[k].id != id
  {
    FirstIndex(users, (u: User) => u.id == id)
  }

  // ---------------------------------------------------------------- register

  /** `findOne({ $or: [{ email }, { phone }] })`: the e-mail condition goes through
      the field's setters (trim, lower case), the phone condition does not. */
  function FindDuplicate(users: seq<User>, email: string, phone: string): (r: Option<nat>)
    ensures r.Some? ==>
      r.value < |users| && (users[r.value].email == NormalizeEmail(email) || users[r.value].phone == phone)
    ensures r.None? <==> forall k :: 0 <= k < |users| ==> users[k].email != NormalizeEmail(email) && users[k].phone != phone
  {
    FirstIndex(users, (u: User) => u.email == NormalizeEmail(email) || u.phone == phone)
  }

  /** The duplicate message as written: the stored (normalised) address is
      compared with the address as sent. */
  function DuplicateMessage(existing: User, email: string): string
  {
    if existing.email == email then "Email already registered" else "Phone number already registered"
  }

  /** The role rule: the very first user is an admin; later users get the role
      they asked for, or 'user'. */
  function RegisterRole(users: seq<User>, body: map<string, Json>, isEmail: string -> bool): (r: Role)
    requires RegisterOk(body, isEmail)
    ensures users == [] ==> r == Admin
    ensures users != [] && "role" !in body ==> r == Customer
    ensures users != [] && "role" in body ==> RoleName(r) == body["role"].s
  {
    if users == [] then Admin
    else if "role" in body then (if body["role"].s == "admin" then Admin else Customer)
    else DefaultRole
  }

  /** The document `User.create` builds: name trimmed and e-mail normalised by
      their setters, no profile image, logged out, no reset token. The password
      is set here and hashed by the save hook. */
  function NewUser(id: Id, body: map<string, Json>, role: Role, isEmail: string -> bool): (u: User)
    requires RegisterOk(body, isEmail)
    ensures u.name == Trim(body["name"].s) && u.email == NormalizeEmail(body["email"].s) && u.phone == body["phone"].s
    ensures u.id == id && u.role == role && !u.loggedIn && u.profileImage == "" && u.resetToken.None? && u.resetExpire.None?
  {
    User(id, Trim(body["name"].s), NormalizeEmail(body["email"].s), body["phone"].s,
         Bcrypt(body["password"].s), role, false, "", None, None)
  }

  /** `register`. `newId` is the id the database assigns. */
  method Register(db: Database, body: map<string, Json>, newId: Id, isEmail: string -> bool, emailPattern: string -> bool)
    returns (r: Response<User>)
    requires forall k :: 0 <= k < |db.users| ==> db.users[k].id != newId
    modifies db
    ensures db.products == old(db.products) && db.carts == old(db.carts) && db.orders == old(db.orders)
    ensures r.Fail? ==> db.users == old(db.users)
    ensures !RegisterOk(body, isEmail) ==> r == Fail(400, SchemaMessage)
    ensures RegisterOk(body, isEmail) ==>
      var email := body["email"].s;
      match FindDuplicate(old(db.users), email, body["phone"].s)
      case Some(k) => r == Fail(400, DuplicateMessage(old(db.users)[k], email))
      case None =>
        var u := NewUser(newId, body, RegisterRole(old(db.users), body, isEmail), isEmail);
        match SaveUser(u, Some(body["password"].s), emailPattern)
        case None => r == Fail(500, "Registration failed: " + UserSaveMessage)
        case Some(saved) => r == Ok(201, saved) && db.users == old(db.users) + [saved]
  {
    if !RegisterOk(body, isEmail) {
      return Fail(400, SchemaMessage);
    }
    var email := body["email"].s;
    var phone := body["phone"].s;
    var existing := FindDuplicate(db.users, email, phone);
    if existing.Some? {
      return Fail(400, DuplicateMessage(db.users[existing.value], email));
    }
    var role := if |db.users| == 0 then Admin else if "role" in body then (if body["role"].s == "admin" then Admin else Customer) else DefaultRole;
    var user := NewUser(newId, body, role, isEmail);
    var saved := SaveUser(user, Some(body["password"].s), emailPattern);
    if saved.None? {
      return Fail(500, "Registration failed: " + UserSaveMessage);
    }
    db.users := db.users + [saved.value];
    return Ok(201, saved.value);
  }

  /** A registered user shares neither its stored e-mail nor its phone with any
      earlier user, and only its own password matches its hash. */
  lemma RegisteredIsNew(users: seq<User>, body: map<string, Json>, newId: Id, isEmail: string -> bool,
                        emailPattern: string -> bool, attempt: string)
    requires RegisterOk(body, isEmail)
    requires FindDuplicate(users, body["email"].s, body["phone"].s).None?
    requires SaveUser(NewUser(newId, body, RegisterRole(users, body, isEmail), isEmail), Some(body["password"].s), emailPattern).Some?
    ensures var saved := SaveUser(NewUser(newId, body, RegisterRole(users, body, isEmail), isEmail),
                                  Some(body["password"].s), emailPattern).value;
      (forall k :: 0 <= k < |users| ==> users[k].email != saved.email && users[k].phone != saved.phone)
      && (ComparePassword(attempt, saved.password) <==> attempt == body["password"].s)
      && UserValid(saved, emailPattern) && saved.email == NormalizeEmail(saved.email)
  {
    NormalizeIdempotent(body["email"].s);
  }

  /** An address sent with a capital letter matches a stored one by e-mail, but
      the reply names the phone number. */
  lemma DuplicateMessageNamesWrongField(existing: User)
    requires existing.email == "a@b.co" && existing.phone == "1111111111"
    ensures FindDuplicate([existing], "A@b.co", "2222222222") == Some(0)
    ensures existing.phone != "2222222222"
    ensures DuplicateMessage(existing, "A@b.co") == "Phone number already registered"
  {
    TrimNoSpace("A@b.co");
    assert ToLower("A@b.co") == "a@b.co";
  }

  /** The duplicate message as intended: the stored address is compared with the
      address as the query saw it. */
  function IntendedDuplicateMessage(existing: User, email: string): (m: string)
    ensures m == "Email already registered" <==> existing.email == NormalizeEmail(email)
  {
    if existing.email == NormalizeEmail(email) then "Email already registered" else "Phone number already registered"
  }

  /** With the intended comparison the reply names the e-mail exactly when the
      duplicate was found by e-mail, and the phone otherwise. */
  lemma IntendedDuplicateMessageNamesField(users: seq<User>, email: string, phone: string)
    requires FindDuplicate(users, email, phone).Some?
    ensures var u := users[FindDuplicate(users, email, phone).value];
      (IntendedDuplicateMessage(u, email) == "Email already registered" <==> u.email == NormalizeEmail(email))
      && (IntendedDuplicateMessage(u, email) == "Phone number already registered" ==> u.phone == phone)
  {
  }

  // ------------------------------------------------------------ login/logout

  const CredentialsMessage := "Invalid credentials"

  /** `findOne({ $or: [{ email: login }, { phone: login }] })`. */
  function FindByLogin(users: seq<User>, login: string): (r: Option<nat>)
    ensures r.Some? ==> r.value < |users| && (users[r.value].email == NormalizeEmail(login) || users[r.value].phone == login)
    ensures r.None? <==> forall k :: 0 <= k < |users| ==> users[k].email != NormalizeEmail(login) && users[k].phone != login
  {
    FirstIndex(users, (u: User) => u.email == NormalizeEmail(login) || u.phone == login)
  }

  /** `login`: the first user whose e-mail or phone is the login string, and only
      with its password; the user is then saved with the flag set. */
  method Login(db: Database, body: map<string, Json>, emailPattern: string -> bool) returns (r: Response<User>)
    modifies db
    ensures db.products == old(db.products) && db.carts == old(db.carts) && db.orders == old(db.orders)
    ensures r.Fail? ==> db.users == old(db.users)
    ensures !LoginOk(body) ==> r == Fail(400, SchemaMessage)
    ensures LoginOk(body) ==>
      match FindByLogin(old(db.users), body["login"].s)
      case None => r == Fail(401, CredentialsMessage)
      case Some(k) =>
        if !ComparePassword(body["password"].s, old(db.users)[k].password) then r == Fail(401, CredentialsMessage)
        else match SaveUser(old(db.users)[k].(loggedIn := true), None, emailPattern)
          case None => r == Fail(500, "Server Error: " + UserSaveMessage)
          case Some(u) => r == Ok(200, u) && db.users == old(db.users)[k := u]
  {
    if !LoginOk(body) {
      return Fail(400, SchemaMessage);
    }
    var found := FindByLogin(db.users, body["login"].s);
    if found.None? || !ComparePassword(body["password"].s, db.users[found.value].password) {
      return Fail(401, CredentialsMessage);
    }
    var k := found.value;
    var user := db.users[k].(loggedIn := true);
    var saved := SaveUser(user, None, emailPattern);
    if saved.None? {
      return Fail(500, "Server Error: " + UserSaveMessage);
    }
    db.users := db.users[k := saved.value];
    return Ok(200, saved.value);
  }

  /** A successful login is for a user whose e-mail or phone is the login string
      and whose password is the one given; only its flag changes, to true. */
  lemma LoginSucceedsOnlyWithPassword(users: seq<User>, login: string, password: string, k: nat,
                                      emailPattern: string -> bool)
    requires FindByLogin(users, login) == Some(k) && ComparePassword(password, users[k].password)
    requires SaveUser(users[k].(loggedIn := true), None, emailPattern).Some?
    ensures var u := SaveUser(users[k].(loggedIn := true), None, emailPattern).value;
      u.loggedIn && u.(loggedIn := users[k].loggedIn) == users[k]
      && (u.email == NormalizeEmail(login) || u.phone == login) && u.password == Bcrypt(password)
  {
  }

  /** `logout`: an update without validators that clears the flag. */
  method Logout(db: Database, userId: Id) returns (r: Response<User>)
    modifies db
    ensures db.products == old(db.products) && db.carts == old(db.carts) && db.orders == old(db.orders)
    ensures IndexOfId(old(db.users), userId).None? ==> r == Fail(404, NotFoundMessage) && db.users == old(db.users)
    ensures IndexOfId(old(db.users), userId).Some? ==>
      var k := IndexOfId(old(db.users), userId).value;
      r == Ok(200, old(db.users)[k].(loggedIn := false)) && db.users == old(db.users)[k := r.body]
  {
    var found := IndexOfId(db.users, userId);
    if found.None? {
      return Fail(404, NotFoundMessage);
    }
    var user := db.users[found.value].(loggedIn := false);
    db.users := db.users[found.value := user];
    return Ok(200, user);
  }

  // ------------------------------------------------------ updateProfileImage

  /** The uploaded file as the upload middleware describes it. */
  datatype Upload = Upload(path: string, size: int, mimetype: string)

  const MaxImageSize := 5 * 1024 * 1024
  const ImageTypes: set<string> := {"image/jpeg", "image/png", "image/jpg"}

  /** The stored path: the upload path split at the platform separator `sep`,
      joined with '/', then trimmed by the field's setter. */
  function ImagePath(path: string, sep: char): string
  {
    Trim(Join(Split(path, sep), "/"))
  }

  /** The stored path is the upload path with every separator replaced by '/'. */
  lemma ImagePathReplaces(path: string, sep: char)
    ensures ImagePath(path, sep) == Trim(ReplaceChar(path, sep, '/'))
    ensures forall i :: 0 <= i < |ReplaceChar(path, sep, '/')| ==> ReplaceChar(path, sep, '/')[i] != sep || sep == '/'
  {
    SplitJoinReplaces(path, sep, '/');
  }

  /** Why the upload checks refuse a file, in the order the handler makes them. */
  function UploadProblem(file: Option<Upload>): (m: Option<string>)
    ensures m.None? <==> file.Some? && file.value.size <= MaxImageSize && file.value.mimetype in ImageTypes
    ensures file.None? ==> m == Some("Please upload an image")
    ensures file.Some? && file.value.size > MaxImageSize ==> m == Some("Image size should be less than 5MB")
    ensures file.Some? && file.value.size <= MaxImageSize && file.value.mimetype !in ImageTypes ==>
      m == Some("Please upload only JPG, JPEG or PNG images")
  {
    if file.None? then Some("Please upload an image")
    else if file.value.size > MaxImageSize then Some("Image size should be less than 5MB")
    else if file.value.mimetype !in ImageTypes then Some("Please upload only JPG, JPEG or PNG images")
    else None
  }

  /** The second half of `updateProfileImage`: the user (404), then the new
      path saved. */
  method StoreProfileImage(db: Database, userId: Id, path: string, sep: char, emailPattern: string -> bool)
    returns (r: Response<User>)
    modifies db
    ensures db.products == old(db.products) && db.carts == old(db.carts) && db.orders == old(db.orders)
    ensures r.Fail? ==> db.users == old(db.users)
    ensures match IndexOfId(old(db.users), userId)
      case None => r == Fail(404, NotFoundMessage)
      case Some(k) =>
        match SaveUser(old(db.users)[k].(profileImage := ImagePath(path, sep)), None, emailPattern)
        case None => r == Fail(500, "Server Error: " + UserSaveMessage)
        case Some(u) => r == Ok(200, u) && db.users == old(db.users)[k := u]
  {
    var found := IndexOfId(db.users, userId);
    if found.None? {
      return Fail(404, NotFoundMessage);
    }
    var k := found.value;
    var user := db.users[k].(profileImage := Trim(Join(Split(path, sep), "/")));
    var saved := SaveUser(user, None, emailPattern);
    if saved.None? {
      return Fail(500, "Server Error: " + UserSaveMessage);
    }
    db.users := db.users[k := saved.value];
    return Ok(200, saved.value);
  }

  /** `updateProfileImage`: the three upload checks in order (400 each), then
      the user and the new path. The removal of files is not part of this model. */
  method UpdateProfileImage(db: Database, userId: Id, file: Option<Upload>, sep: char, emailPattern: string -> bool)
    returns (r: Response<User>)
    modifies db
    ensures db.products == old(db.products) && db.carts == old(db.carts) && db.orders == old(db.orders)
    ensures r.Fail? ==> db.users == old(db.users)
    ensures UploadProblem(file).Some? ==> r == Fail(400, UploadProblem(file).value)
    ensures UploadProblem(file).None? ==>
      match IndexOfId(old(db.users), userId)
      case None => r == Fail(404, NotFoundMessage)
      case Some(k) =>
        match SaveUser(old(db.users)[k].(profileImage := ImagePath(file.value.path, sep)), None, emailPattern)
        case None => r == Fail(500, "Server Error: " + UserSaveMessage)
        case Some(u) => r == Ok(200, u) && db.users == old(db.users)[k := u]
  {
    var problem := UploadProblem(file);
    if problem.Some? {
      return Fail(400, problem.value);
    }
    r := StoreProfileImage(db, userId, file.value.path, sep, emailPattern);
  }

  /** On success only the profile image changes, to the normalised path. */
  lemma ProfileImageOnlyChange(u: User, path: string, sep: char, emailPattern: string -> bool)
    requires SaveUser(u.(profileImage := ImagePath(path, sep)), None, emailPattern).Some?
    ensures var saved := SaveUser(u.(profileImage := ImagePath(path, sep)), None, emailPattern).value;
      saved.profileImage == Trim(ReplaceChar(path, sep, '/')) && saved.(profileImage := u.profileImage) == u
  {
    ImagePathReplaces(path, sep);
  }

  // ------------------------------------------------ updatePassword / reset

  /** The reply to a body the password schemas refuse. */
  function PasswordSchemaFailure(v: Verdict): string
  {
    if v == Mismatch then MismatchMessage else SchemaMessage
  }

  /** `updatePassword`: the schema (400), the user (404), the old password (400);
      then the new password is set and hashed on save. The handler's own
      comparison of the new password with its confirmation can never fail,
      since the schema has already required them equal. */
  method UpdatePassword(db: Database, userId: Id, body: map<string, Json>, emailPattern: string -> bool)
    returns (r: Response<User>)
    modifies db
    ensures db.products == old(db.products) && db.carts == old(db.carts) && db.orders == old(db.orders)
    ensures r.Fail? ==> db.users == old(db.users)
    ensures PasswordChange(body, true) != Valid ==> r == Fail(400, PasswordSchemaFailure(PasswordChange(body, true)))
    ensures PasswordChange(body, true) == Valid ==>
      match IndexOfId(old(db.users), userId)
      case None => r == Fail(404, NotFoundMessage)
      case Some(k) =>
        if !ComparePassword(body["password"].s, old(db.users)[k].password) then r == Fail(400, "Old password is incorrect")
        else match SaveUser(old(db.users)[k], Some(body["newPassword"].s), emailPattern)
          case None => r == Fail(500, "Server Error: " + UserSaveMessage)
          case Some(u) => r == Ok(200, u) && db.users == old(db.users)[k := u]
  {
    var verdict := PasswordChange(body, true);
    if verdict != Valid {
      return Fail(400, PasswordSchemaFailure(verdict));
    }
    var found := IndexOfId(db.users, userId);
    if found.None? {
      return Fail(404, NotFoundMessage);
    }
    var k := found.value;
    if !ComparePassword(body["password"].s, db.users[k].password) {
      return Fail(400, "Old password is incorrect");
    }
    if body["newPassword"] != body["confirmPassword"] {
      assert false;
    }
    var saved := SaveUser(db.users[k], Some(body["newPassword"].s), emailPattern);
    if saved.None? {
      return Fail(500, "Server Error: " + UserSaveMessage);
    }
    db.users := db.users[k := saved.value];
    return Ok(200, saved.value);
  }

  /** After a password change only the new password opens the account, and it
      was confirmed and 4 to 12 UTF-16 code units long. */
  lemma PasswordChanged(u: User, body: map<string, Json>, emailPattern: string -> bool, attempt: string)
    requires PasswordChange(body, true) == Valid
    requires SaveUser(u, Some(body["newPassword"].s), emailPattern).Some?
    ensures var saved := SaveUser(u, Some(body["newPassword"].s), emailPattern).value;
      (ComparePassword(attempt, saved.password) <==> attempt == body["newPassword"].s)
      && body["confirmPassword"] == body["newPassword"] && 4 <= Utf16Length(body["newPassword"].s) <= 12
  {
  }

  /** `findOne({ resetPasswordToken: sha256(token), resetPasswordExpire: { $gt: now } })`. */
  function FindByResetToken(users: seq<User>, token: string, now: int): (r: Option<nat>)
    ensures r.Some? ==> r.value < |users| && ResetTokenMatches(users[r.value], token, now)
    ensures r.None? <==> forall k :: 0 <= k < |users| ==> !ResetTokenMatches(users[k], token, now)
  {
    FirstIndex(users, (u: User) => ResetTokenMatches(u, token, now))
  }

  const ResetTokenMessage := "Invalid or expired reset token"

  /** `resetPassword`. `token` is the route parameter and `now` the clock. */
  method ResetPassword(db: Database, token: string, body: map<string, Json>, now: int, emailPattern: string -> bool)
    returns (r: Response<User>)
    modifies db
    ensures db.products == old(db.products) && db.carts == old(db.carts) && db.orders == old(db.orders)
    ensures r.Fail? ==> db.users == old(db.users)
    ensures PasswordChange(body, false) != Valid ==> r == Fail(400, PasswordSchemaFailure(PasswordChange(body, false)))
    ensures PasswordChange(body, false) == Valid ==>
      match FindByResetToken(old(db.users), token, now)
      case None => r == Fail(400, ResetTokenMessage)
      case Some(k) =>
        match SaveUser(old(db.users)[k].(resetToken := None, resetExpire := None), Some(body["newPassword"].s), emailPattern)
        case None => r == Fail(500, "Server Error: " + UserSaveMessage)
        case Some(u) => r == Ok(200, u) && db.users == old(db.users)[k := u]
  {
    var verdict := PasswordChange(body, false);
    if verdict != Valid {
      return Fail(400, PasswordSchemaFailure(verdict));
    }
    if body["newPassword"] != body["confirmPassword"] {
      assert false;
    }
    var found := FindByResetToken(db.users, token, now);
    if found.None? {
      return Fail(400, ResetTokenMessage);
    }
    var k := found.value;
    var user := db.users[k].(resetToken := None, resetExpire := None);
    var saved := SaveUser(user, Some(body["newPassword"].s), emailPattern);
    if saved.None? {
      return Fail(500, "Server Error: " + UserSaveMessage);
    }
    db.users := db.users[k := saved.value];
    return Ok(200, saved.value);
  }

  /** A token issued at time t resets the password only when presented before
      t + 600000 ms; the reset clears both fields, so the same token cannot be
      used twice, and only the new password opens the account. */
  lemma ResetIsOneShot(u: User, token: string, t: int, now: int, later: int, newPassword: string,
                       emailPattern: string -> bool, attempt: string)
    requires SaveUser(IssueResetToken(u, token, t).0.(resetToken := None, resetExpire := None),
                      Some(newPassword), emailPattern).Some?
    ensures ResetTokenMatches(IssueResetToken(u, token, t).0, token, now) <==> now < t + 600000
    ensures var saved := SaveUser(IssueResetToken(u, token, t).0.(resetToken := None, resetExpire := None),
                                  Some(newPassword), emailPattern).value;
      !ResetTokenMatches(saved, token, later) && saved.resetToken.None? && saved.resetExpire.None?
      && (ComparePassword(attempt, saved.password) <==> attempt == newPassword)
  {
    ResetTokenWindow(u, token, t, token, now);
  }
}
