/**
 * The Joi schemas of the authentication routes. Joi stops at the first
 * failing key (in declaration order) and, within a key, at the first failing
 * check: presence, emptiness (after `trim()` where the key has it), then the
 * rules in the order they are written. Each schema returns the converted
 * values or the message of that first failure.
 */
module AuthValidator {
  import opened Wrappers
  import opened Text

  const PasswordPatternMessage: string :=
    "Password must be at least 8 characters long, include one uppercase letter, one lowercase letter, one number, and one special character."
  const NewPasswordPatternMessage: string :=
    "New password must be at least 8 characters long, include one uppercase letter, one lowercase letter, one number, and one special character."
  const MismatchMessage: string := "Passwords do not match."

  /** The special characters the password pattern knows: `!@#$%^&*`. */
  predicate IsSpecial(c: char) {
    c in "!@#$%^&*"
  }

  /**
   * The password pattern: at least 8 characters, all from
   * `[A-Za-z0-9!@#$%^&*]`, with a lower-case letter, an upper-case letter, a
   * digit and a special character among them.
   */
  predicate StrongPassword(s: string) {
    && |s| >= 8
    && (forall i :: 0 <= i < |s| ==> IsAlnum(s[i]) || IsSpecial(s[i]))
    && (exists i :: 0 <= i < |s| && IsLower(s[i]))
    && (exists i :: 0 <= i < |s| && IsUpper(s[i]))
    && (exists i :: 0 <= i < |s| && IsDigit(s[i]))
    && (exists i :: 0 <= i < |s| && IsSpecial(s[i]))
  }

  /** The value a key holds after conversion: trimmed when the key has `trim()`. */
  function Converted(value: string, trim: bool): string {
    if trim then Trim(value) else value
  }

  /**
   * `Joi.string()[.trim()].required()`: an absent key and an empty converted
   * value both give the key's "required" message.
   */
  function Required(value: Option<string>, trim: bool, missing: string): (r: Result<string, string>)
    ensures r.Success? <==> value.Some? && Converted(value.value, trim) != ""
    ensures r.Success? ==> r.value == Converted(value.value, trim)
    ensures r.Failure? ==> r.error == missing
  {
    if value.None? || Converted(value.value, trim) == "" then Failure(missing)
    else Success(Converted(value.value, trim))
  }

  /** `username`: trimmed, then alphanumeric, at least 3 and at most 30 characters. */
  function CheckUsername(value: Option<string>): (r: Result<string, string>)
    ensures r.Success? <==> value.Some? && var u := Trim(value.value); u != "" && AllAlnum(u) && 3 <= |u| <= 30
    ensures r.Success? ==> r.value == Trim(value.value)
    ensures value.None? || Trim(value.value) == "" ==> r == Failure("Username is required.")
    ensures value.Some? && Trim(value.value) != "" && !AllAlnum(Trim(value.value)) ==>
      r == Failure("Username must contain only letters and numbers.")
    ensures value.Some? && Trim(value.value) != "" && AllAlnum(Trim(value.value)) && |Trim(value.value)| < 3 ==>
      r == Failure("Username must be at least 3 characters long.")
    ensures value.Some? && AllAlnum(Trim(value.value)) && |Trim(value.value)| > 30 ==>
      r == Failure("Username cannot exceed 30 characters.")
  {
    match Required(value, true, "Username is required.")
    case Failure(e) => Failure(e)
    case Success(u) =>
      if !AllAlnum(u) then Failure("Username must contain only letters and numbers.")
      else if |u| < 3 then Failure("Username must be at least 3 characters long.")
      else if |u| > 30 then Failure("Username cannot exceed 30 characters.")
      else Success(u)
  }

  /** `email`: trimmed, then an email address. */
  function CheckEmail(value: Option<string>): (r: Result<string, string>)
    ensures r.Success? <==> value.Some? && Trim(value.value) != "" && IsEmailAddress(Trim(value.value))
    ensures r.Success? ==> r.value == Trim(value.value)
    ensures r.Failure? ==> r.error == (if value.None? || Trim(value.value) == "" then "Email is required." else "Enter a valid email address.")
  {
    match Required(value, true, "Email is required.")
    case Failure(e) => Failure(e)
    case Success(e) => if IsEmailAddress(e) then Success(e) else Failure("Enter a valid email address.")
  }

  /** A password key with the strength pattern (not trimmed). */
  function CheckStrong(value: Option<string>, missing: string, weak: string): (r: Result<string, string>)
    ensures r.Success? <==> value.Some? && StrongPassword(value.value)
    ensures r.Success? ==> r.value == value.value
    ensures r.Failure? ==> r.error == (if value.None? || value.value == "" then missing else weak)
  {
    match Required(value, false, missing)
    case Failure(e) => Failure(e)
    case Success(p) => if StrongPassword(p) then Success(p) else Failure(weak)
  }

  /**
   * `Joi.string().valid(Joi.ref(key)).required()`: an absent key is
   * "required"; any present value other than the referenced one, the empty
   * string included, is a mismatch.
   */
  function CheckConfirmation(value: Option<string>, reference: string, missing: string): (r: Result<string, string>)
    ensures r.Success? <==> value == Some(reference)
    ensures r.Success? ==> r.value == reference
    ensures r.Failure? ==> r.error == (if value.None? then missing else MismatchMessage)
  {
    if value.None? then Failure(missing)
    else if value.value == reference then Success(reference)
    else Failure(MismatchMessage)
  }

  datatype Registration = Registration(username: string, email: string, password: string, confirmPassword: string)

  /** `validateRegistration`. */
  function ValidateRegistration(username: Option<string>, email: Option<string>, password: Option<string>, confirm: Option<string>)
    : (r: Result<Registration, string>)
    ensures r.Success? <==>
      && CheckUsername(username).Success?
      && CheckEmail(email).Success?
      && password.Some? && StrongPassword(password.value)
      && confirm == password
    ensures r.Success? ==> r.value == Registration(Trim(username.value), Trim(email.value), password.value, password.value)
    ensures CheckUsername(username).Failure? ==> r == Failure(CheckUsername(username).error)
    ensures CheckUsername(username).Success? && CheckEmail(email).Failure? ==> r == Failure(CheckEmail(email).error)
    ensures (CheckUsername(username).Success? && CheckEmail(email).Success?
      && !(password.Some? && StrongPassword(password.value)))
      ==> r == Failure(if password.None? || password.value == "" then "Password is required." else PasswordPatternMessage)
    ensures (CheckUsername(username).Success? && CheckEmail(email).Success?
      && password.Some? && StrongPassword(password.value) && confirm != password)
      ==> r == Failure(if confirm.None? then "Confirm password is required." else MismatchMessage)
  {
    var u :- CheckUsername(username);
    var e :- CheckEmail(email);
    var p :- CheckStrong(password, "Password is required.", PasswordPatternMessage);
    var c :- CheckConfirmation(confirm, p, "Confirm password is required.");
    Success(Registration(u, e, p, c))
  }

  /** `validateLogin`: an email and any non-empty password; no strength rule. */
  function ValidateLogin(email: Option<string>, password: Option<string>): (r: Result<(string, string), string>)
    ensures r.Success? <==> CheckEmail(email).Success? && password.Some? && password.value != ""
    ensures r.Success? ==> r.value == (Trim(email.value), password.value)
    ensures CheckEmail(email).Failure? ==> r == Failure(CheckEmail(email).error)
    ensures CheckEmail(email).Success? && !(password.Some? && password.value != "") ==> r == Failure("Password is required.")
  {
    var e :- CheckEmail(email);
    var p :- Required(password, false, "Password is required.");
    Success((e, p))
  }

  /** `refreshTokenSchema`: a non-empty `refreshToken`. */
  function ValidateRefresh(refreshToken: Option<string>): (r: Result<string, string>)
    ensures r.Success? <==> Truthy(refreshToken)
    ensures r.Success? ==> r.value == refreshToken.value
    ensures r.Failure? ==> r.error == "Refresh token is required."
  {
    Required(refreshToken, false, "Refresh token is required.")
  }

  /** `validateForgotPassword`: an email only. */
  function ValidateForgot(email: Option<string>): (r: Result<string, string>)
    ensures r.Success? <==> email.Some? && Trim(email.value) != "" && IsEmailAddress(Trim(email.value))
    ensures r.Success? ==> r.value == Trim(email.value)
    ensures r.Failure? ==>
      r.error == (if email.None? || Trim(email.value) == "" then "Email is required." else "Enter a valid email address.")
  {
    CheckEmail(email)
  }

  datatype PasswordChange = PasswordChange(oldPassword: string, newPassword: string, confirmNewPassword: string)

  /** `validateResetPassword`: any old password, a strong new one, and its confirmation. */
  function ValidateReset(oldPassword: Option<string>, newPassword: Option<string>, confirm: Option<string>)
    : (r: Result<PasswordChange, string>)
    ensures r.Success? <==>
      && Truthy(oldPassword)
      && newPassword.Some? && StrongPassword(newPassword.value)
      && confirm == newPassword
    ensures r.Success? ==> r.value == PasswordChange(oldPassword.value, newPassword.value, newPassword.value)
    ensures !Truthy(oldPassword) ==> r == Failure("Old password is required.")
    ensures Truthy(oldPassword) && !Truthy(newPassword) ==> r == Failure("New password is required.")
    ensures Truthy(oldPassword) && newPassword.Some? && newPassword.value != "" && !StrongPassword(newPassword.value) ==>
      r == Failure(NewPasswordPatternMessage)
    ensures (Truthy(oldPassword) && newPassword.Some? && StrongPassword(newPassword.value) && confirm != newPassword)
      ==> r == Failure(if confirm.None? then "Confirm new password is required." else MismatchMessage)
  {
    var o :- Required(oldPassword, false, "Old password is required.");
    var n :- CheckStrong(newPassword, "New password is required.", NewPasswordPatternMessage);
    var c :- CheckConfirmation(confirm, n, "Confirm new password is required.");
    Success(PasswordChange(o, n, c))
  }

  /** None of the pattern's special characters is a letter or a digit. */
  lemma SpecialIsNotAlnum(c: char)
    requires IsSpecial(c)
    ensures !IsAlnum(c)
  {
    assert c == '!' || c == '@' || c == '#' || c == '$' || c == '%' || c == '^' || c == '&' || c == '*';
  }

  /** Every password the registration schema accepts contains a character that is not a letter or digit. */
  lemma StrongPasswordHasSpecial(s: string)
    requires StrongPassword(s)
    ensures !AllAlnum(s)
  {
    var i :| 0 <= i < |s| && IsSpecial(s[i]);
    SpecialIsNotAlnum(s[i]);
    assert !AllAlnum(s) by { assert !IsAlnum(s[i]); }
  }
}
