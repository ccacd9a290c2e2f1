/**
 * The FAQ collection as the handlers and services reach it through the
 * document-store client: a map from identifier to document, with the lookups
 * and the partial update they call (`findById`, `findByIdAndUpdate`,
 * `findByIdAndDelete`) including identifier casting and update validators.
 */
module FaqStore {
  import opened Wrappers
  import opened Text
  import opened FaqRecord

  type Store = map<Id, Faq>

  /** Every stored document sits under its own identifier and passes the schema. */
  predicate StoreWellFormed(store: Store) {
    forall id | id in store :: store[id].id == id && WellFormed(store[id])
  }

  /** Storing a well-formed document under its own identifier keeps the collection well-formed. */
  lemma StoreInsertWellFormed(store: Store, f: Faq)
    requires StoreWellFormed(store) && WellFormed(f)
    ensures StoreWellFormed(store[f.id := f])
  {
  }

  /** Removing a document keeps the collection well-formed. */
  lemma StoreRemoveWellFormed(store: Store, id: Id)
    requires StoreWellFormed(store)
    ensures StoreWellFormed(store - {id})
  {
  }

  /** The paths an update's validators reject (`runValidators: true`): they check only the paths the patch sets. */
  function PatchViolations(patch: FaqFields): set<string> {
    (if patch.question.Some? && Trim(patch.question.value) == "" then {"question"} else {})
    + (if patch.answer.Some? && Trim(patch.answer.value) == "" then {"answer"} else {})
    + (if patch.language.Some? && patch.language.value !in Languages then {"language"} else {})
  }

  /**
   * The document after `$set` of the patch: undefined fields are dropped, set
   * fields are cast through the trimming setters, `updatedAt` is stamped.
   */
  function ApplyPatch(f: Faq, patch: FaqFields, now: int): (g: Faq)
    ensures g.id == f.id && g.createdAt == f.createdAt && g.updatedAt == now
    ensures patch.question.None? ==> g.question == f.question
    ensures patch.answer.None? ==> g.answer == f.answer
    ensures patch.language.None? ==> g.language == f.language
  {
    f.(question := if patch.question.Some? then Trim(patch.question.value) else f.question,
       answer := if patch.answer.Some? then Trim(patch.answer.value) else f.answer,
       language := patch.language.GetOr(f.language),
       updatedAt := now)
  }

  /** A validated patch keeps a well-formed document well-formed. */
  lemma ApplyPatchPreservesWellFormed(f: Faq, patch: FaqFields, now: int)
    requires WellFormed(f) && PatchViolations(patch) == {}
    ensures WellFormed(ApplyPatch(f, patch, now))
  {
    if patch.question.Some? {
      assert "question" !in PatchViolations(patch);
    }
    if patch.answer.Some? {
      assert "answer" !in PatchViolations(patch);
    }
    if patch.language.Some? {
      assert "language" !in PatchViolations(patch);
    }
  }

  /**
   * The `message` of a store error. A cast error names the rejected value; the
   * per-path texts of a validation error are not modelled.
   */
  function StoreErrorMessage(e: StoreError): string {
    match e
    case CastError(v) => "Cast to ObjectId failed for value \"" + v + "\" (type string) at path \"_id\" for model \"FAQ\""
    case ValidationError(_) => "Validation failed"
  }

  /** `findById(id)` (and the lookup of `findByIdAndDelete(id)`): a cast error, no document, or the document. */
  function FindById(store: Store, id: string): (r: Result<Option<Faq>, StoreError>)
    ensures r.Failure? <==> !IsObjectId(id)
    ensures r.Failure? ==> r.error == CastError(id)
    ensures r.Success? ==> (r.value.Some? <==> id in store)
    ensures r.Success? && r.value.Some? ==> r.value.value == store[id]
  {
    if !IsObjectId(id) then Failure(CastError(id))
    else if id in store then Success(Some(store[id]))
    else Success(None)
  }

  /**
   * `findByIdAndUpdate(id, patch, { new: true, runValidators })`: casting first,
   * then (when asked) the update validators, then the lookup; the updated
   * document is returned.
   */
  function FindByIdAndUpdate(store: Store, id: string, patch: FaqFields, now: int, runValidators: bool)
    : (r: Result<Option<Faq>, StoreError>)
    ensures !IsObjectId(id) ==> r == Failure(CastError(id))
    ensures IsObjectId(id) && runValidators && PatchViolations(patch) != {} ==>
      r == Failure(ValidationError(PatchViolations(patch)))
    ensures r.Success? ==> IsObjectId(id) && (runValidators ==> PatchViolations(patch) == {})
    ensures r.Success? ==> (r.value.Some? <==> id in store)
    ensures r.Success? && r.value.Some? ==> r.value.value == ApplyPatch(store[id], patch, now)
  {
    if !IsObjectId(id) then Failure(CastError(id))
    else if runValidators && PatchViolations(patch) != {} then Failure(ValidationError(PatchViolations(patch)))
    else if id in store then Success(Some(ApplyPatch(store[id], patch, now)))
    else Success(None)
  }
}

/** A cache server entry: a stored value and the instant it stops being served. */
module CacheEntry {
  import opened Wrappers

  /** The expiry both caching layers give their entries: one hour. */
  const TtlSeconds: nat := 3600

  datatype Cached<T> = Cached(value: T, expiresAt: int)

  /** `SET key value EX 3600` / `SETEX key 3600 value` at time `now`. */
  function Put<T>(v: T, now: int): (e: Cached<T>)
    ensures e.value == v && e.expiresAt - now == TtlSeconds
  {
    Cached(v, now + TtlSeconds)
  }

  /** A `GET` at time `now` answers with the entry exactly when it exists and has not expired. */
  predicate Live<T>(e: Option<Cached<T>>, now: int) {
    e.Some? && now < e.value.expiresAt
  }

  /** An entry written at `now` is served for exactly the next hour. */
  lemma PutLivesOneHour<T>(v: T, now: int, later: int)
    ensures Live(Some(Put(v, now)), later) <==> later < now + TtlSeconds
  {
  }
}
