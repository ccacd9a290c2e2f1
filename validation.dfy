/**
 * The stand-alone Joi validators: each checks one value, or one object of
 * fields, against a fixed schema and reports the first failure as Joi's
 * error code together with the key of the value (`value` for a bare value,
 * the key inside an object).
 */
module Validation {
  import opened Wrappers
  import opened Text
  import AuthValidator

  datatype JoiCode =
    | AnyRequired          // any.required
    | StringEmpty          // string.empty
    | StringMin(limit: nat)   // string.min
    | StringMax(limit: nat)   // string.max
    | StringPattern        // string.pattern.base
    | StringEmail          // string.email
    | NumberUnsafe         // number.unsafe
    | NumberInteger        // number.integer
    | NumberPositive       // number.positive

  datatype JoiError = JoiError(key: string, code: JoiCode)

  /** `Number.MAX_SAFE_INTEGER`. */
  const MaxSafeInteger: int := 0x1F_FFFF_FFFF_FFFF

  /** Joi's presence and emptiness checks of a required string; the string when both pass. */
  function RequiredString(key: string, value: Option<string>): (r: Result<string, JoiError>)
    ensures r.Success? <==> value.Some? && value.value != ""
    ensures r.Success? ==> r.value == value.value
    ensures r.Failure? ==> r.error == JoiError(key, if value.None? then AnyRequired else StringEmpty)
  {
    if value.None? then Failure(JoiError(key, AnyRequired))
    else if value.value == "" then Failure(JoiError(key, StringEmpty))
    else Success(value.value)
  }

  /** `Joi.string().email().required()` under `key`. */
  function EmailField(key: string, value: Option<string>): (r: Result<string, JoiError>)
    ensures r.Success? <==> value.Some? && value.value != "" && IsEmailAddress(value.value)
    ensures r.Success? ==> r.value == value.value
    ensures r.Failure? ==> r.error.key == key
    ensures r.Failure? ==>
      r.error.code == (if value.None? then AnyRequired else if value.value == "" then StringEmpty else StringEmail)
  {
    var s :- RequiredString(key, value);
    if IsEmailAddress(s) then Success(s) else Failure(JoiError(key, StringEmail))
  }

  /** `Joi.string().min(min)[.max(max)].required()` under `key`, with no maximum when `max` is None. */
  function LengthField(key: string, value: Option<string>, min: nat, max: Option<nat>): (r: Result<string, JoiError>)
    ensures r.Success? <==> value.Some? && value.value != "" && min <= |value.value| && (max.Some? ==> |value.value| <= max.value)
    ensures r.Success? ==> r.value == value.value
    ensures r.Failure? ==> r.error.key == key
    ensures value.Some? && value.value != "" && |value.value| < min ==> r == Failure(JoiError(key, StringMin(min)))
    ensures (value.Some? && min <= |value.value| && max.Some? && |value.value| > max.value)
      ==> r == Failure(JoiError(key, StringMax(max.value)))
  {
    var s :- RequiredString(key, value);
    if |s| < min then Failure(JoiError(key, StringMin(min)))
    else if max.Some? && |s| > max.value then Failure(JoiError(key, StringMax(max.value)))
    else Success(s)
  }

  /** `validateEmail`. */
  function ValidateEmail(email: Option<string>): (r: Result<string, JoiError>)
    ensures r.Success? <==> email.Some? && email.value != "" && IsEmailAddress(email.value)
    ensures r.Failure? ==> r.error.key == "value"
  {
    EmailField("value", email)
  }

  /**
   * `validatePassword`: `min(8)` and then the pattern `^[a-zA-Z0-9]{3,30}$`;
   * together they accept exactly the alphanumeric strings of 8 to 30
   * characters.
   */
  function ValidatePassword(password: Option<string>): (r: Result<string, JoiError>)
    ensures r.Success? <==> password.Some? && AllAlnum(password.value) && 8 <= |password.value| <= 30
    ensures r.Success? ==> r.value == password.value
    ensures password.Some? && 0 < |password.value| < 8 ==> r == Failure(JoiError("value", StringMin(8)))
    ensures password.Some? && |password.value| >= 8 && !(AllAlnum(password.value) && |password.value| <= 30) ==>
      r == Failure(JoiError("value", StringPattern))
  {
    var s :- LengthField("value", password, 8, None);
    if AllAlnum(s) && 3 <= |s| <= 30 then Success(s) else Failure(JoiError("value", StringPattern))
  }

  /** `validateName`: any string of 3 to 30 characters; it is not trimmed. */
  function ValidateName(name: Option<string>): (r: Result<string, JoiError>)
    ensures r.Success? <==> name.Some? && 3 <= |name.value| <= 30
    ensures r.Success? ==> r.value == name.value
    ensures name.Some? && 0 < |name.value| < 3 ==> r == Failure(JoiError("value", StringMin(3)))
    ensures name.Some? && |name.value| > 30 ==> r == Failure(JoiError("value", StringMax(30)))
  {
    LengthField("value", name, 3, Some(30))
  }

  /** Whether a number is integral. */
  predicate IsInteger(x: real) {
    x == x.Floor as real
  }

  /**
   * `validateNumber`: a number beyond the safe-integer range is refused
   * first, then a fraction, then zero or a negative number.
   */
  function ValidateNumber(n: Option<real>): (r: Result<int, JoiError>)
    ensures r.Success? <==> n.Some? && IsInteger(n.value) && 0.0 < n.value <= MaxSafeInteger as real
    ensures r.Success? ==> r.value as real == n.value && 0 < r.value <= MaxSafeInteger
    ensures n.Some? && IsInteger(n.value) && n.value <= 0.0 && -MaxSafeInteger as real <= n.value ==>
      r == Failure(JoiError("value", NumberPositive))
    ensures n.Some? && !IsInteger(n.value) && -MaxSafeInteger as real <= n.value <= MaxSafeInteger as real ==>
      r == Failure(JoiError("value", NumberInteger))
  {
    if n.None? then Failure(JoiError("value", AnyRequired))
    else if n.value > MaxSafeInteger as real || n.value < -MaxSafeInteger as real then Failure(JoiError("value", NumberUnsafe))
    else if !IsInteger(n.value) then Failure(JoiError("value", NumberInteger))
    else if n.value <= 0.0 then Failure(JoiError("value", NumberPositive))
    else Success(n.value.Floor)
  }

  /** `validateUserRegistration`: a name of 3 to 30 characters, an email, a password of at least 8 characters. */
  function ValidateUserRegistration(name: Option<string>, email: Option<string>, password: Option<string>)
    : (r: Result<(string, string, string), JoiError>)
    ensures r.Success? <==>
      && name.Some? && 3 <= |name.value| <= 30
      && email.Some? && email.value != "" && IsEmailAddress(email.value)
      && password.Some? && |password.value| >= 8
    ensures r.Success? ==> r.value == (name.value, email.value, password.value)
    ensures r.Failure? ==> r.error.key in {"name", "email", "password"}
    ensures !(name.Some? && 3 <= |name.value| <= 30) ==> r == Failure(LengthField("name", name, 3, Some(30)).error)
    ensures (name.Some? && 3 <= |name.value| <= 30 && EmailField("email", email).Failure?)
      ==> r == Failure(EmailField("email", email).error)
    ensures (name.Some? && 3 <= |name.value| <= 30 && EmailField("email", email).Success?
      && LengthField("password", password, 8, None).Failure?)
      ==> r == Failure(LengthField("password", password, 8, None).error)
  {
    var n :- LengthField("name", name, 3, Some(30));
    var e :- EmailField("email", email);
    var p :- LengthField("password", password, 8, None);
    Success((n, e, p))
  }

  /** `validateUserLogin`: an email and a password of at least 8 characters. */
  function ValidateUserLogin(email: Option<string>, password: Option<string>): (r: Result<(string, string), JoiError>)
    ensures r.Success? <==>
      && email.Some? && email.value != "" && IsEmailAddress(email.value)
      && password.Some? && |password.value| >= 8
    ensures r.Success? ==> r.value == (email.value, password.value)
    ensures r.Failure? ==> r.error.key in {"email", "password"}
    ensures EmailField("email", email).Failure? ==> r == Failure(EmailField("email", email).error)
    ensures EmailField("email", email).Success? && LengthField("password", password, 8, None).Failure? ==>
      r == Failure(LengthField("password", password, 8, None).error)
  {
    var e :- EmailField("email", email);
    var p :- LengthField("password", password, 8, None);
    Success((e, p))
  }

  /**
   * The two password rules exclude each other: no password this validator
   * accepts is accepted by the registration schema, which demands a
   * special character.
   */
  lemma PasswordRulesDisjoint(s: string)
    ensures ValidatePassword(Some(s)).Success? ==> !AuthValidator.StrongPassword(s)
    ensures AuthValidator.StrongPassword(s) ==> ValidatePassword(Some(s)).Failure?
  {
    if AuthValidator.StrongPassword(s) {
      AuthValidator.StrongPasswordHasSpecial(s);
    }
  }
}
