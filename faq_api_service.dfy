/**
 * The versioned FAQ service: the same collection and `faqs` listing entry as
 * the handlers, but it returns values and throws instead of replying.
 */
module FaqApiService {
  import opened Wrappers
  import opened Text
  import opened FaqRecord
  import opened FaqStore
  import opened CacheEntry

  /** What the service throws: a store error passed through, or its own `Error(message)`. */
  datatype ServiceError = StoreFailed(error: StoreError) | Raised(message: string)

  class Service {
    var store: Store
    var cache: Option<Cached<Store>>
    ghost var storeReads: nat

    /** A cached listing is the collection; every stored FAQ passes the schema. */
    ghost predicate Valid()
      reads this
    {
      && (cache.Some? ==> cache.value.value == store)
      && StoreWellFormed(store)
    }

    constructor (initial: Store)
      requires StoreWellFormed(initial)
      ensures Valid() && store == initial && cache == None && storeReads == 0
    {
      store := initial;
      cache := None;
      storeReads := 0;
    }

    /** `createFAQ(faqData)`: the document is created (or the validation error thrown) and `faqs` evicted. */
    method CreateFaq(faqData: FaqFields, newId: Id, now: int) returns (r: Result<Faq, ServiceError>)
      requires Valid() && IsObjectId(newId) && newId !in store
      modifies this
      ensures Valid() && storeReads == old(storeReads)
      ensures var built := Build(newId, faqData, now);
        && (built.Failure? ==> r == Failure(StoreFailed(built.error)) && store == old(store) && cache == old(cache))
        && (built.Success? ==> r == Success(built.value) && store == old(store)[newId := built.value] && cache == None)
    {
      var built := Build(newId, faqData, now);
      if built.Failure? {
        return Failure(StoreFailed(built.error));
      }
      StoreInsertWellFormed(store, built.value);
      store := store[newId := built.value];
      cache := None;
      r := Success(built.value);
    }

    /** `getFAQs()`: the live `faqs` entry, or the collection, which is then cached for an hour. */
    method GetFaqs(now: int) returns (faqs: Store)
      requires Valid()
      modifies this
      ensures Valid() && store == old(store) && faqs == store
      ensures Live(old(cache), now) ==> cache == old(cache) && storeReads == old(storeReads)
      ensures !Live(old(cache), now) ==> cache == Some(Put(store, now)) && storeReads == old(storeReads) + 1
    {
      if Live(cache, now) {
        return cache.value.value;
      }
      faqs := store;
      storeReads := storeReads + 1;
      cache := Some(Put(faqs, now));
    }

    /** `getFAQById(id)`: a cast error for a malformed identifier, `FAQ not found` for an unknown one. */
    method GetFaqById(id: string) returns (r: Result<Faq, ServiceError>)
      requires Valid()
      modifies this
      ensures Valid() && store == old(store) && cache == old(cache)
      ensures storeReads == old(storeReads) + (if IsObjectId(id) then 1 else 0)
      ensures !IsObjectId(id) ==> r == Failure(StoreFailed(CastError(id)))
      ensures IsObjectId(id) && id !in store ==> r == Failure(Raised("FAQ not found"))
      ensures r.Success? <==> IsObjectId(id) && id in store
      ensures r.Success? ==> r.value == store[id]
    {
      var found := FindById(store, id);
      if found.Failure? {
        return Failure(StoreFailed(found.error));
      }
      storeReads := storeReads + 1;
      if found.value.None? {
        return Failure(Raised("FAQ not found"));
      }
      r := Success(found.value.value);
    }

    /** `updateFAQ(id, updateData)`: the validated update; `faqs` is evicted only when a FAQ changed. */
    method UpdateFaq(id: string, updateData: FaqFields, now: int) returns (r: Result<Faq, ServiceError>)
      requires Valid()
      modifies this
      ensures Valid()
      ensures var res := FindByIdAndUpdate(old(store), id, updateData, now, true);
        storeReads == old(storeReads) + (if res.Success? then 1 else 0)
      ensures var res := FindByIdAndUpdate(old(store), id, updateData, now, true);
        && (res.Failure? ==> r == Failure(StoreFailed(res.error)) && store == old(store) && cache == old(cache))
        && (res.Success? && res.value.None? ==>
              r == Failure(Raised("FAQ not found")) && store == old(store) && cache == old(cache))
        && (res.Success? && res.value.Some? ==>
              r == Success(res.value.value) && store == old(store)[id := res.value.value] && cache == None)
    {
      var res := FindByIdAndUpdate(store, id, updateData, now, true);
      if res.Failure? {
        return Failure(StoreFailed(res.error));
      }
      storeReads := storeReads + 1;
      if res.value.None? {
        return Failure(Raised("FAQ not found"));
      }
      ApplyPatchPreservesWellFormed(store[id], updateData, now);
      StoreInsertWellFormed(store, res.value.value);
      store := store[id := res.value.value];
      cache := None;
      r := Success(res.value.value);
    }

    /** `deleteFAQ(id)`: the removed FAQ is returned and `faqs` evicted. */
    method DeleteFaq(id: string) returns (r: Result<Faq, ServiceError>)
      requires Valid()
      modifies this
      ensures Valid() && storeReads == old(storeReads) + (if IsObjectId(id) then 1 else 0)
      ensures !IsObjectId(id) ==> r == Failure(StoreFailed(CastError(id))) && store == old(store) && cache == old(cache)
      ensures IsObjectId(id) && id !in old(store) ==>
        r == Failure(Raised("FAQ not found")) && store == old(store) && cache == old(cache)
      ensures IsObjectId(id) && id in old(store) ==>
        r == Success(old(store)[id]) && store == old(store) - {id} && cache == None
    {
      var found := FindById(store, id);
      if found.Failure? {
        return Failure(StoreFailed(found.error));
      }
      storeReads := storeReads + 1;
      if found.value.None? {
        return Failure(Raised("FAQ not found"));
      }
      StoreRemoveWellFormed(store, id);
      store := store - {id};
      cache := None;
      r := Success(found.value.value);
    }
  }

  /**
   * A listing read twice within the hour, with no write in between, is served
   * from the cache the second time: the collection is queried once.
   */
  method ListTwice(s: Service, t1: int, t2: int) returns (first: Store, second: Store)
    requires s.Valid() && s.cache == None && t1 <= t2 < t1 + TtlSeconds
    modifies s
    ensures s.Valid() && first == second == s.store
    ensures s.storeReads == old(s.storeReads) + 1
  {
    first := s.GetFaqs(t1);
    second := s.GetFaqs(t2);
  }
}
