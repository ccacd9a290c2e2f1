/**
 * The request-body and path checks for creating and updating a FAQ, and the
 * middleware that turns collected failures into a 400 reply. A chain runs
 * every validator and records a failure for each one that rejects the value.
 */
module FaqValidator {
  import opened Wrappers
  import opened Text
  import opened FaqRecord
  import opened FaqStore

  datatype FieldError = FieldError(field: string, message: string)

  /**
   * `body(field).trim().notEmpty().withMessage(empty).isLength({ max }).withMessage(tooLong)`
   * on the value as a string (an absent value reads as "").
   */
  function CheckText(field: string, value: string, empty: string, max: nat, tooLong: string): (r: seq<FieldError>)
    ensures Trim(value) == "" ==> r == [FieldError(field, empty)]
    ensures Trim(value) != "" && |Trim(value)| > max ==> r == [FieldError(field, tooLong)]
    ensures r == [] <==> Trim(value) != "" && |Trim(value)| <= max
  {
    var v := Trim(value);
    (if v == "" then [FieldError(field, empty)] else [])
    + (if |v| > max then [FieldError(field, tooLong)] else [])
  }

  /** The same chain behind `optional()`: an absent value is not checked at all. */
  function CheckOptionalText(field: string, value: Option<string>, empty: string, max: nat, tooLong: string)
    : (r: seq<FieldError>)
    ensures value.None? ==> r == []
    ensures value.Some? ==> r == CheckText(field, value.value, empty, max, tooLong)
  {
    if value.None? then [] else CheckText(field, value.value, empty, max, tooLong)
  }

  /** `validateCreateFAQ`: the failures, in the order question, answer, language. */
  function CreateErrors(b: FaqFields): (r: seq<FieldError>)
    ensures |r| <= 3
    ensures r == [] <==>
      && Trim(b.question.GetOr("")) != "" && |Trim(b.question.GetOr(""))| <= 500
      && Trim(b.answer.GetOr("")) != "" && |Trim(b.answer.GetOr(""))| <= 2000
      && Trim(b.language.GetOr("")) != "" && |Trim(b.language.GetOr(""))| <= 50
  {
    CheckText("question", b.question.GetOr(""), "Question is required", 500, "Question must be less than 500 characters")
    + CheckText("answer", b.answer.GetOr(""), "Answer is required", 2000, "Answer must be less than 2000 characters")
    + CheckText("language", b.language.GetOr(""), "Language is required", 50, "Language must be less than 50 characters")
  }

  /** `param('id').notEmpty().isMongoId()`: an empty identifier fails both. */
  function IdErrors(id: string): (r: seq<FieldError>)
    ensures r == [] <==> IsObjectId(id)
    ensures id == "" ==> r == [FieldError("id", "FAQ ID is required"), FieldError("id", "Invalid FAQ ID")]
    ensures id != "" && !IsObjectId(id) ==> r == [FieldError("id", "Invalid FAQ ID")]
  {
    (if id == "" then [FieldError("id", "FAQ ID is required")] else [])
    + (if !IsObjectId(id) then [FieldError("id", "Invalid FAQ ID")] else [])
  }

  /** `validateUpdateFAQ`: the identifier's failures, then those of each field present. */
  function UpdateErrors(id: string, b: FaqFields): (r: seq<FieldError>)
    ensures r == [] <==>
      && IsObjectId(id)
      && (b.question.Some? ==> Trim(b.question.value) != "" && |Trim(b.question.value)| <= 500)
      && (b.answer.Some? ==> Trim(b.answer.value) != "" && |Trim(b.answer.value)| <= 2000)
      && (b.language.Some? ==> Trim(b.language.value) != "" && |Trim(b.language.value)| <= 50)
  {
    IdErrors(id)
    + CheckOptionalText("question", b.question, "Question cannot be empty", 500, "Question must be less than 500 characters")
    + CheckOptionalText("answer", b.answer, "Answer cannot be empty", 2000, "Answer must be less than 2000 characters")
    + CheckOptionalText("language", b.language, "Language cannot be empty", 50, "Language must be less than 50 characters")
  }

  /** What `handleValidationErrors` does: pass the request on, or reply 400 with every failure. */
  datatype Verdict = Next | Rejected(status: int, errors: seq<FieldError>)

  function HandleValidationErrors(errors: seq<FieldError>): (v: Verdict)
    ensures v.Next? <==> errors == []
    ensures v.Rejected? ==> v.status == 400 && v.errors == errors
  {
    if errors == [] then Next else Rejected(400, errors)
  }

  /** A body the create rules accept has all three fields present and non-empty, so it gets past the handler's own check. */
  lemma CreateAcceptedIsTruthy(b: FaqFields)
    requires CreateErrors(b) == []
    ensures Truthy(b.question) && Truthy(b.answer) && Truthy(b.language)
  {
  }

  /**
   * A body the create rules accept, handed on as sent, is saved exactly when
   * its language is supported: the rules bound the language's length but do
   * not check the list.
   */
  lemma CreateAcceptedBuildsIffSupported(id: Id, b: FaqFields, now: int)
    requires CreateErrors(b) == []
    ensures Build(id, b, now).Success? <==> b.language.value in Languages
  {
    CreateAcceptedIsTruthy(b);
  }

  /**
   * The body the route hands on after the chains' `trim()` sanitisers have
   * written their values back: every present field trimmed. (An absent field
   * is falsy to the handler whether or not the sanitiser writes "" for it.)
   */
  function Sanitized(b: FaqFields): (r: FaqFields)
    ensures r.question.Some? <==> b.question.Some?
    ensures r.answer.Some? <==> b.answer.Some?
    ensures r.language.Some? <==> b.language.Some?
    ensures b.question.Some? ==> r.question.value == Trim(b.question.value)
    ensures b.answer.Some? ==> r.answer.value == Trim(b.answer.value)
    ensures b.language.Some? ==> r.language.value == Trim(b.language.value)
  {
    FaqFields(
      if b.question.Some? then Some(Trim(b.question.value)) else None,
      if b.answer.Some? then Some(Trim(b.answer.value)) else None,
      if b.language.Some? then Some(Trim(b.language.value)) else None)
  }

  /**
   * On the route the create handler sees the sanitised body, so a body the
   * create rules accept is saved exactly when its trimmed language is
   * supported, and the saved texts are the trimmed ones.
   */
  lemma CreateSanitizedBuildsIffSupported(id: Id, b: FaqFields, now: int)
    requires CreateErrors(b) == []
    ensures Build(id, Sanitized(b), now).Success? <==> Trim(b.language.value) in Languages
    ensures Build(id, Sanitized(b), now).Success? ==>
      var f := Build(id, Sanitized(b), now).value;
      f.question == Trim(b.question.value) && f.answer == Trim(b.answer.value) && f.language == Trim(b.language.value)
  {
    CreateAcceptedIsTruthy(b);
    TrimFixesExactlyTrimmed(Trim(b.question.value));
    TrimFixesExactlyTrimmed(Trim(b.answer.value));
  }

  /** An update the rules accept targets a well-formed identifier and can only fail the store's language check. */
  lemma UpdateAcceptedLeavesOnlyLanguage(id: string, b: FaqFields)
    requires UpdateErrors(id, b) == []
    ensures IsObjectId(id)
    ensures PatchViolations(b) <= {"language"}
    ensures b.language.None? || b.language.value in Languages ==> PatchViolations(b) == {}
  {
  }
}
