/**
 * The versioned FAQ handlers: create, list (through the whole-listing cache
 * entry `faqs`), fetch, update and delete. A handler either replies or lets
 * its async wrapper pass a thrown store error on to the error middleware.
 */
module FaqController {
  import opened Wrappers
  import opened Text
  import opened FaqRecord
  import opened FaqStore
  import opened CacheEntry

  datatype Request = Request(params: map<string, string>, query: map<string, string>, body: FaqFields)

  /** The `data` member of the reply envelope. */
  datatype Payload = NoData | Entry(faq: Faq) | Listing(faqs: Store)

  datatype Outcome = Replied(status: int, message: string, data: Payload) | Forwarded(error: StoreError)

  /** `ObjectId.isValid(id)`; an absent parameter is not valid. */
  predicate ValidId(id: Option<string>) {
    id.Some? && IsObjectId(id.value)
  }

  /** The identifier of the route `/:id`. */
  function PathId(req: Request): (r: Option<string>)
    ensures r.Some? <==> "id" in req.params
  {
    Get(req.params, "id")
  }

  /** The identifier `updateFAQ` reads: the query string's `id`, not the path's. */
  function UpdateTargetAsWritten(req: Request): (r: Option<string>)
    ensures r.Some? <==> "id" in req.query
  {
    Get(req.query, "id")
  }

  /**
   * A `PUT /:id` request carries its identifier in the path only, so for
   * every such request the update handler as written sees no identifier and
   * answers 400, whatever FAQ the path names.
   */
  lemma PathIdIgnoredByUpdate(req: Request)
    requires "id" in req.params && IsObjectId(req.params["id"]) && "id" !in req.query
    ensures ValidId(PathId(req)) && !ValidId(UpdateTargetAsWritten(req))
  {
  }

  class Controller {
    /** The FAQ collection. */
    var store: Store
    /** The cache server's `faqs` entry: a serialised snapshot of the whole collection. */
    var cache: Option<Cached<Store>>
    /** How many queries the handlers have sent to the collection. */
    ghost var storeReads: nat

    /**
     * Every write through these handlers evicts `faqs`, so a cached snapshot
     * is the collection; every stored FAQ passes the schema.
     */
    ghost predicate Valid()
      reads this
    {
      && (cache.Some? ==> cache.value.value == store)
      && StoreWellFormed(store)
    }

    constructor (initial: Store)
      requires StoreWellFormed(initial)
      ensures Valid() && store == initial && cache == None && storeReads == 0
    {
      store := initial;
      cache := None;
      storeReads := 0;
    }

    /** `POST /`: all three fields must be truthy, then the document is created and `faqs` evicted. */
    method CreateFaq(req: Request, newId: Id, now: int) returns (out: Outcome)
      requires Valid() && IsObjectId(newId) && newId !in store
      modifies this
      ensures Valid() && storeReads == old(storeReads)
      ensures !(Truthy(req.body.question) && Truthy(req.body.answer) && Truthy(req.body.language)) ==>
        && out == Replied(400, "Question, answer, and language are required", NoData)
        && store == old(store) && cache == old(cache)
      ensures Truthy(req.body.question) && Truthy(req.body.answer) && Truthy(req.body.language) ==>
        var built := Build(newId, req.body, now);
        && (built.Failure? ==> out == Forwarded(built.error) && store == old(store) && cache == old(cache))
        && (built.Success? ==>
              && out == Replied(201, "FAQ created successfully", Entry(built.value))
              && store == old(store)[newId := built.value] && cache == None)
    {
      var b := req.body;
      if !(Truthy(b.question) && Truthy(b.answer) && Truthy(b.language)) {
        return Replied(400, "Question, answer, and language are required", NoData);
      }
      var built := Build(newId, b, now);
      if built.Failure? {
        return Forwarded(built.error);
      }
      StoreInsertWellFormed(store, built.value);
      store := store[newId := built.value];
      cache := None;
      out := Replied(201, "FAQ created successfully", Entry(built.value));
    }

    /** `GET /`: a live `faqs` entry answers without touching the collection; otherwise the collection is read and cached for an hour. */
    method GetFaqs(now: int) returns (out: Outcome)
      requires Valid()
      modifies this
      ensures Valid() && store == old(store)
      ensures Live(old(cache), now) ==>
        && out == Replied(200, "FAQs retrieved from cache", Listing(old(cache).value.value))
        && cache == old(cache) && storeReads == old(storeReads)
      ensures !Live(old(cache), now) ==>
        && out == Replied(200, "FAQs retrieved successfully", Listing(store))
        && cache == Some(Put(store, now)) && storeReads == old(storeReads) + 1
      ensures out.Replied? && out.data == Listing(store)
    {
      if Live(cache, now) {
        return Replied(200, "FAQs retrieved from cache", Listing(cache.value.value));
      }
      var all := store;
      storeReads := storeReads + 1;
      cache := Some(Put(all, now));
      out := Replied(200, "FAQs retrieved successfully", Listing(all));
    }

    /** `GET /:id`: 400 for a malformed identifier, 404 for an unknown one. */
    method GetFaqById(req: Request) returns (out: Outcome)
      requires Valid()
      modifies this
      ensures Valid() && store == old(store) && cache == old(cache)
      ensures !ValidId(PathId(req)) ==>
        out == Replied(400, "Invalid FAQ ID", NoData) && storeReads == old(storeReads)
      ensures ValidId(PathId(req)) ==>
        var id := PathId(req).value;
        && storeReads == old(storeReads) + 1
        && (id in store ==> out == Replied(200, "FAQ retrieved successfully", Entry(store[id])))
        && (id !in store ==> out == Replied(404, "FAQ not found", NoData))
    {
      var id := PathId(req);
      if !ValidId(id) {
        return Replied(400, "Invalid FAQ ID", NoData);
      }
      var found := FindById(store, id.value);
      storeReads := storeReads + 1;
      assert found.Success?;
      if found.value.None? {
        return Replied(404, "FAQ not found", NoData);
      }
      out := Replied(200, "FAQ retrieved successfully", Entry(found.value.value));
    }

    /**
     * The validated update on a given identifier: 400 for a malformed one,
     * a validation error forwarded, 404 for an unknown one, otherwise the
     * patched FAQ replaces the stored one and `faqs` is evicted.
     */
    method UpdateTarget(target: Option<string>, patch: FaqFields, now: int) returns (out: Outcome)
      requires Valid()
      modifies this
      ensures Valid()
      ensures !ValidId(target) ==>
        out == Replied(400, "Invalid FAQ ID", NoData) && store == old(store) && cache == old(cache)
        && storeReads == old(storeReads)
      ensures ValidId(target) && PatchViolations(patch) != {} ==>
        out == Forwarded(ValidationError(PatchViolations(patch))) && store == old(store) && cache == old(cache)
        && storeReads == old(storeReads)
      ensures ValidId(target) && PatchViolations(patch) == {} ==>
        var id := target.value;
        && (id !in old(store) ==>
              out == Replied(404, "FAQ not found", NoData) && store == old(store) && cache == old(cache))
        && (id in old(store) ==>
              var g := ApplyPatch(old(store)[id], patch, now);
              && out == Replied(200, "FAQ updated successfully", Entry(g))
              && store == old(store)[id := g] && cache == None)
    {
      if !ValidId(target) {
        return Replied(400, "Invalid FAQ ID", NoData);
      }
      var id := target.value;
      var r := FindByIdAndUpdate(store, id, patch, now, true);
      if r.Failure? {
        return Forwarded(r.error);
      }
      storeReads := storeReads + 1;
      if r.value.None? {
        return Replied(404, "FAQ not found", NoData);
      }
      ApplyPatchPreservesWellFormed(store[id], patch, now);
      StoreInsertWellFormed(store, r.value.value);
      store := store[id := r.value.value];
      cache := None;
      out := Replied(200, "FAQ updated successfully", Entry(r.value.value));
    }

    /** `PUT /:id` as written: the update is aimed at the query string's `id`. */
    method UpdateFaq(req: Request, now: int) returns (out: Outcome)
      requires Valid()
      modifies this
      ensures Valid()
      ensures !ValidId(UpdateTargetAsWritten(req)) ==>
        out == Replied(400, "Invalid FAQ ID", NoData) && store == old(store) && cache == old(cache)
        && storeReads == old(storeReads)
      ensures ValidId(UpdateTargetAsWritten(req)) && PatchViolations(req.body) != {} ==>
        out == Forwarded(ValidationError(PatchViolations(req.body))) && store == old(store) && cache == old(cache)
        && storeReads == old(storeReads)
      ensures ValidId(UpdateTargetAsWritten(req)) && PatchViolations(req.body) == {} ==>
        var id := UpdateTargetAsWritten(req).value;
        && (id !in old(store) ==>
              out == Replied(404, "FAQ not found", NoData) && store == old(store) && cache == old(cache))
        && (id in old(store) ==>
              var g := ApplyPatch(old(store)[id], req.body, now);
              && out == Replied(200, "FAQ updated successfully", Entry(g))
              && store == old(store)[id := g] && cache == None)
    {
      out := UpdateTarget(UpdateTargetAsWritten(req), req.body, now);
    }

    /** `PUT /:id` as intended: the update is aimed at the path's `id`. */
    method UpdateFaqByPath(req: Request, now: int) returns (out: Outcome)
      requires Valid()
      modifies this
      ensures Valid()
      ensures !ValidId(PathId(req)) ==>
        out == Replied(400, "Invalid FAQ ID", NoData) && store == old(store) && cache == old(cache)
        && storeReads == old(storeReads)
      ensures ValidId(PathId(req)) && PatchViolations(req.body) != {} ==>
        out == Forwarded(ValidationError(PatchViolations(req.body))) && store == old(store) && cache == old(cache)
        && storeReads == old(storeReads)
      ensures ValidId(PathId(req)) && PatchViolations(req.body) == {} ==>
        var id := PathId(req).value;
        && (id !in old(store) ==>
              out == Replied(404, "FAQ not found", NoData) && store == old(store) && cache == old(cache))
        && (id in old(store) ==>
              var g := ApplyPatch(old(store)[id], req.body, now);
              && out == Replied(200, "FAQ updated successfully", Entry(g))
              && store == old(store)[id := g] && cache == None)
    {
      out := UpdateTarget(PathId(req), req.body, now);
    }

    /** `DELETE /:id`: 400 for a malformed identifier, 404 for an unknown one, otherwise removed and `faqs` evicted. */
    method DeleteFaq(req: Request) returns (out: Outcome)
      requires Valid()
      modifies this
      ensures Valid()
      ensures !ValidId(PathId(req)) ==>
        out == Replied(400, "Invalid FAQ ID", NoData) && store == old(store) && cache == old(cache)
      ensures ValidId(PathId(req)) ==>
        var id := PathId(req).value;
        && (id !in old(store) ==>
              out == Replied(404, "FAQ not found", NoData) && store == old(store) && cache == old(cache))
        && (id in old(store) ==>
              out == Replied(200, "FAQ deleted successfully", NoData)
              && store == old(store) - {id} && cache == None)
    {
      var id := PathId(req);
      if !ValidId(id) {
        return Replied(400, "Invalid FAQ ID", NoData);
      }
      var found := FindById(store, id.value);
      storeReads := storeReads + 1;
      assert found.Success?;
      if found.value.None? {
        return Replied(404, "FAQ not found", NoData);
      }
      StoreRemoveWellFormed(store, id.value);
      store := store - {id.value};
      cache := None;
      out := Replied(200, "FAQ deleted successfully", NoData);
    }
  }
}
