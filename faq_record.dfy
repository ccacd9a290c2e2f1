/**
 * The FAQ document of src/models/faq.js: its schema rules (required, trimmed
 * question and answer, a language from a closed set defaulting to "en",
 * timestamps), the `updateFaq` instance method and the `getFaqsByLanguage`
 * query (filter by language, newest first).
 */
module FaqRecord {
  import opened Wrappers
  import opened Text

  /** A store-assigned document identifier (a 24-digit hexadecimal ObjectId). */
  type Id = string

  datatype Faq = Faq(id: Id, question: string, answer: string, language: string, createdAt: int, updatedAt: int)

  /** The client-supplied fields of a create body or an update patch; `None` is `undefined`. */
  datatype FaqFields = FaqFields(question: Option<string>, answer: Option<string>, language: Option<string>)

  /** What the document store throws: a failed schema validation (the failing paths) or an identifier that is not an ObjectId. */
  datatype StoreError = ValidationError(paths: set<string>) | CastError(value: string)

  const Languages: set<string> := {"en", "es", "fr", "de", "it"}
  const DefaultLanguage: string := "en"

  /** The paths whose `required` or `enum` validator rejects the document. */
  function Violations(f: Faq): set<string> {
    (if f.question == "" then {"question"} else {})
    + (if f.answer == "" then {"answer"} else {})
    + (if f.language !in Languages then {"language"} else {})
  }

  /** The schema validators pass exactly when question and answer are non-empty and the language is supported. */
  lemma ViolationsEmptyIff(f: Faq)
    ensures Violations(f) == {} <==> f.question != "" && f.answer != "" && f.language in Languages
  {
    if f.question == "" { assert "question" in Violations(f); }
    if f.answer == "" { assert "answer" in Violations(f); }
    if f.language !in Languages { assert "language" in Violations(f); }
  }

  /** A document as the schema lets it be stored: validators pass and the trimmed fields are trimmed. */
  predicate WellFormed(f: Faq) {
    && f.question != "" && IsTrimmed(f.question)
    && f.answer != "" && IsTrimmed(f.answer)
    && f.language in Languages
  }

  /**
   * A new document (`new FAQ(fields)` or `FAQ.create(fields)`) as validated on
   * save: question and answer are trimmed and required, a missing language
   * takes the default, both timestamps are `now`.
   */
  function Build(id: Id, fields: FaqFields, now: int): (r: Result<Faq, StoreError>)
    ensures r.Success? <==>
      && Trim(fields.question.GetOr("")) != ""
      && Trim(fields.answer.GetOr("")) != ""
      && fields.language.GetOr(DefaultLanguage) in Languages
    ensures r.Success? ==>
      && WellFormed(r.value) && r.value.id == id
      && r.value.question == Trim(fields.question.value) && r.value.answer == Trim(fields.answer.value)
      && r.value.language == fields.language.GetOr(DefaultLanguage)
      && r.value.createdAt == now && r.value.updatedAt == now
    ensures r.Failure? ==> r.error.ValidationError? && r.error.paths != {}
  {
    var q := Trim(fields.question.GetOr(""));
    var a := Trim(fields.answer.GetOr(""));
    var doc := Faq(id, q, a, fields.language.GetOr(DefaultLanguage), now, now);
    ViolationsEmptyIff(doc);
    if q != "" && a != "" && doc.language in Languages then
      Success(doc)
    else
      Failure(ValidationError(Violations(doc)))
  }

  /** The `updateFaq` merge: a truthy patch field replaces the old value (trimmed by the setter), a falsy one keeps it. */
  function Merge(f: Faq, patch: FaqFields, now: int): (g: Faq)
    ensures g.id == f.id && g.createdAt == f.createdAt && g.updatedAt == now
  {
    f.(question := if Truthy(patch.question) then Trim(patch.question.value) else f.question,
       answer := if Truthy(patch.answer) then Trim(patch.answer.value) else f.answer,
       language := if Truthy(patch.language) then patch.language.value else f.language,
       updatedAt := now)
  }

  /** An empty patch leaves question, answer and language as they were. */
  lemma MergeEmptyPatch(f: Faq, now: int)
    ensures Merge(f, FaqFields(None, None, None), now) == f.(updatedAt := now)
    ensures Merge(f, FaqFields(Some(""), Some(""), Some("")), now) == f.(updatedAt := now)
  {
  }

  /** Each merged field is the patch value exactly when that value is truthy. */
  lemma MergeFieldwise(f: Faq, patch: FaqFields, now: int)
    ensures Merge(f, patch, now).question == f.question <== !Truthy(patch.question)
    ensures Truthy(patch.question) ==> Merge(f, patch, now).question == Trim(patch.question.value)
    ensures Merge(f, patch, now).answer == f.answer <== !Truthy(patch.answer)
    ensures Truthy(patch.answer) ==> Merge(f, patch, now).answer == Trim(patch.answer.value)
    ensures Merge(f, patch, now).language == (if Truthy(patch.language) then patch.language.value else f.language)
  {
  }

  /** Applying the same patch twice is applying it once. */
  lemma MergeIdempotent(f: Faq, patch: FaqFields, now: int)
    ensures Merge(Merge(f, patch, now), patch, now) == Merge(f, patch, now)
  {
    if Truthy(patch.question) { TrimIdempotent(patch.question.value); }
    if Truthy(patch.answer) { TrimIdempotent(patch.answer.value); }
  }

  /** A well-formed document stays well-formed under a patch whose truthy fields would pass the schema. */
  lemma MergePreservesWellFormed(f: Faq, patch: FaqFields, now: int)
    requires WellFormed(f)
    requires Truthy(patch.question) ==> Trim(patch.question.value) != ""
    requires Truthy(patch.answer) ==> Trim(patch.answer.value) != ""
    requires Truthy(patch.language) ==> patch.language.value in Languages
    ensures WellFormed(Merge(f, patch, now))
  {
  }

  /**
   * A document held in memory, as `updateFaq` sees `this`: it assigns the merged
   * fields, stamps `updatedAt`, then saves, which validates.
   */
  class FaqDocument {
    const id: Id
    var question: string
    var answer: string
    var language: string
    const createdAt: int
    var updatedAt: int

    function Value(): Faq
      reads this
    {
      Faq(id, question, answer, language, createdAt, updatedAt)
    }

    constructor (f: Faq)
      ensures Value() == f
    {
      id, question, answer, language := f.id, f.question, f.answer, f.language;
      createdAt, updatedAt := f.createdAt, f.updatedAt;
    }

    /**
     * `updateFaq(patch)`. The fields are assigned before `save()` validates, so a
     * rejected save still leaves them assigned in memory.
     */
    method UpdateFaq(patch: FaqFields, now: int) returns (r: Result<Faq, StoreError>)
      modifies this
      ensures Value() == Merge(old(Value()), patch, now)
      ensures r.Success? <==> Violations(Value()) == {}
      ensures r.Success? ==> r.value == Value()
      ensures r.Failure? ==> r.error == ValidationError(Violations(Value()))
    {
      if Truthy(patch.question) { question := Trim(patch.question.value); }
      if Truthy(patch.answer) { answer := Trim(patch.answer.value); }
      if Truthy(patch.language) { language := patch.language.value; }
      updatedAt := now;
      var doc := Value();
      if Violations(doc) == {} {
        r := Success(doc);
      } else {
        r := Failure(ValidationError(Violations(doc)));
      }
    }
  }

  /** The documents of `docs` in `lang`, in their original order (`find({ language })`). */
  function WithLanguage(docs: seq<Faq>, lang: string): (r: seq<Faq>)
    ensures |r| <= |docs|
    ensures forall x :: x in r <==> x in docs && x.language == lang
  {
    if docs == [] then []
    else if docs[0].language == lang then [docs[0]] + WithLanguage(docs[1..], lang)
    else WithLanguage(docs[1..], lang)
  }

  /** The order `sort({ createdAt: -1 })` produces: `createdAt` never increases along the sequence. */
  predicate NewestFirst(s: seq<Faq>) {
    forall i, j :: 0 <= i < j < |s| ==> s[i].createdAt >= s[j].createdAt
  }

  function InsertNewestFirst(x: Faq, s: seq<Faq>): seq<Faq> {
    if s == [] || x.createdAt >= s[0].createdAt then [x] + s
    else [s[0]] + InsertNewestFirst(x, s[1..])
  }

  function SortNewestFirst(s: seq<Faq>): seq<Faq> {
    if s == [] then [] else InsertNewestFirst(s[0], SortNewestFirst(s[1..]))
  }

  lemma {:induction false} InsertPermutes(x: Faq, s: seq<Faq>)
    ensures multiset(InsertNewestFirst(x, s)) == multiset(s) + multiset{x}
  {
    if !(s == [] || x.createdAt >= s[0].createdAt) {
      InsertPermutes(x, s[1..]);
      assert s == [s[0]] + s[1..];
    }
  }

  lemma {:induction false} InsertKeepsOrder(x: Faq, s: seq<Faq>)
    requires NewestFirst(s)
    ensures NewestFirst(InsertNewestFirst(x, s))
  {
    if !(s == [] || x.createdAt >= s[0].createdAt) {
      var tail := InsertNewestFirst(x, s[1..]);
      InsertKeepsOrder(x, s[1..]);
      // The tail starts with x or with s[1], both no newer than s[0].
      assert s[0].createdAt >= tail[0].createdAt by {
        if |s| > 1 { assert s[1..][0] == s[1]; }
      }
      var r := [s[0]] + tail;
      forall i, j | 0 <= i < j < |r|
        ensures r[i].createdAt >= r[j].createdAt
      {
        assert r[j] == tail[j - 1];
        if i > 0 {
          assert r[i] == tail[i - 1];
        } else if j > 1 {
          assert tail[0].createdAt >= tail[j - 1].createdAt;
        }
      }
    }
  }

  /** Sorting yields a rearrangement of its input, newest first. */
  lemma {:induction false} SortSortsAndPermutes(s: seq<Faq>)
    ensures NewestFirst(SortNewestFirst(s))
    ensures multiset(SortNewestFirst(s)) == multiset(s)
  {
    if s != [] {
      SortSortsAndPermutes(s[1..]);
      InsertKeepsOrder(s[0], SortNewestFirst(s[1..]));
      InsertPermutes(s[0], SortNewestFirst(s[1..]));
      assert s == [s[0]] + s[1..];
    }
  }

  /** `getFaqsByLanguage(lang)` over the collection `docs`. */
  function FaqsByLanguage(docs: seq<Faq>, lang: string): (r: seq<Faq>)
    ensures NewestFirst(r)
    ensures multiset(r) == multiset(WithLanguage(docs, lang))
    ensures forall x :: x in r <==> x in docs && x.language == lang
  {
    var matching := WithLanguage(docs, lang);
    SortSortsAndPermutes(matching);
    assert forall x :: x in SortNewestFirst(matching) <==> x in multiset(matching);
    SortNewestFirst(matching)
  }
}
