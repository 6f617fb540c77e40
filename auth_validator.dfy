/** The account request schemas. Whether a string is an e-mail address (Joi's
    `email()` rule) is decided by a library; it is the parameter `isEmail`. */
module AuthValidator {
  import opened Common
  import opened Js
  import opened Text
  import opened Joi

  /** `passwordSchema`: a required string of 4 to 12 characters. */
  predicate PasswordOk(v: Json) { StringLength(v, 4, 12) }

  /** `phoneSchema`: exactly ten decimal digits. */
  predicate PhoneOk(v: Json) { DigitString(v, 10) }

  predicate NameOk(v: Json) { StringLength(v, 3, 50) }

  predicate EmailOk(v: Json, isEmail: string -> bool) { IsString(v) && isEmail(v.s) }

  const RegisterKeys: set<string> := {"name", "email", "phone", "password", "role"}

  /** `registerValidation`: name, email, phone and password required, role
      optional and one of 'user' and 'admin'. */
  predicate RegisterOk(body: map<string, Json>, isEmail: string -> bool)
  {
    OnlyKeys(body, RegisterKeys)
    && "name" in body && NameOk(body["name"])
    && "email" in body && EmailOk(body["email"], isEmail)
    && "phone" in body && PhoneOk(body["phone"])
    && "password" in body && PasswordOk(body["password"])
    && ("role" in body ==> body["role"] == JStr("user") || body["role"] == JStr("admin"))
  }

  /** `loginValidation`: a login string (e-mail or phone) and a password. */
  predicate LoginOk(body: map<string, Json>)
  {
    OnlyKeys(body, {"login", "password"})
    && "login" in body && IsString(body["login"])
    && "password" in body && PasswordOk(body["password"])
  }

  /** `profileUpdateValidation`: any subset of name, email and phone. */
  predicate ProfileUpdateOk(body: map<string, Json>, isEmail: string -> bool)
  {
    OnlyKeys(body, {"name", "email", "phone"})
    && ("name" in body ==> NameOk(body["name"]))
    && ("email" in body ==> EmailOk(body["email"], isEmail))
    && ("phone" in body ==> PhoneOk(body["phone"]))
  }

  /** `forgotPasswordValidation`: just the e-mail address. */
  predicate ForgotPasswordOk(body: map<string, Json>, isEmail: string -> bool)
  {
    OnlyKeys(body, {"email"}) && "email" in body && EmailOk(body["email"], isEmail)
  }

  /** The outcome of a schema with password confirmation: valid, the
      'Passwords do not match' failure, or any other failure. */
  datatype Verdict = Valid | Mismatch | Invalid

  const MismatchMessage := "Passwords do not match"

  /** `resetPasswordTokenValidation` (withOld false) and `updatePasswordValidation`
      (withOld true). Keys are checked in schema order (password, newPassword,
      confirmPassword) and the first failure is reported; unknown keys are
      reported after the listed ones. `confirmPassword` must equal `newPassword`. */
  function PasswordChange(body: map<string, Json>, withOld: bool): (v: Verdict)
    ensures v == Valid ==>
      "newPassword" in body && "confirmPassword" in body
      && body["confirmPassword"] == body["newPassword"] && PasswordOk(body["newPassword"])
    ensures v == Valid && withOld ==> "password" in body && PasswordOk(body["password"])
  {
    var allowed := if withOld then {"password", "newPassword", "confirmPassword"} else {"newPassword", "confirmPassword"};
    if withOld && !("password" in body && PasswordOk(body["password"])) then Invalid
    else if !("newPassword" in body && PasswordOk(body["newPassword"])) then Invalid
    else if "confirmPassword" !in body then Invalid
    else if body["confirmPassword"] != body["newPassword"] then Mismatch
    else if !OnlyKeys(body, allowed) then Invalid
    else Valid
  }

  /** With the earlier fields valid and a confirmation given, the verdict is the
      mismatch failure exactly when the confirmation differs from the new password. */
  lemma MismatchExactly(body: map<string, Json>, withOld: bool)
    requires withOld ==> "password" in body && PasswordOk(body["password"])
    requires "newPassword" in body && PasswordOk(body["newPassword"]) && "confirmPassword" in body
    ensures PasswordChange(body, withOld) == Mismatch <==> body["confirmPassword"] != body["newPassword"]
  {
  }

  /** Registration: role may be left out but not set to anything else; a phone
      of nine digits fails. */
  lemma RegisterRoles(body: map<string, Json>, isEmail: string -> bool)
    requires RegisterOk(body, isEmail)
    ensures RegisterOk(body - {"role"}, isEmail)
    ensures !RegisterOk(body["role" := JStr("superuser")], isEmail)
    ensures !RegisterOk(body["phone" := JStr("123456789")], isEmail)
  {
    assert |"123456789"| == 9;
  }

  /** A profile update may be empty; any key other than the three fails. */
  lemma ProfileUpdateSubsets(body: map<string, Json>, isEmail: string -> bool, key: string)
    ensures ProfileUpdateOk(map[], isEmail)
    ensures key !in {"name", "email", "phone"} && key in body ==> !ProfileUpdateOk(body, isEmail)
  {
  }

  /** Passwords are 4 to 12 long as JavaScript counts, in UTF-16 code units: 4 to
      12 characters of the Basic Multilingual Plane, but only 2 to 6 characters
      from outside it. */
  lemma PasswordBounds(s: string)
    ensures (forall i :: 0 <= i < |s| ==> !Astral(s[i])) ==> (PasswordOk(JStr(s)) <==> 4 <= |s| <= 12)
    ensures (forall i :: 0 <= i < |s| ==> Astral(s[i])) ==> (PasswordOk(JStr(s)) <==> 2 <= |s| <= 6)
  {
  }

  /** Names are 3 to 50 code units: a name of characters from outside the Basic
      Multilingual Plane (emoji, say) has room for 2 to 25 of them. */
  lemma NameBounds(s: string)
    ensures (forall i :: 0 <= i < |s| ==> !Astral(s[i])) ==> (NameOk(JStr(s)) <==> 3 <= |s| <= 50)
    ensures (forall i :: 0 <= i < |s| ==> Astral(s[i])) ==> (NameOk(JStr(s)) <==> 2 <= |s| <= 25)
  {
  }
}
