/**
 * The per-FAQ cache service: a cache server client whose every key is given
 * the prefix `faq:`, in front of the FAQ collection.
 */
module FaqCacheService {
  import opened Wrappers
  import opened Text
  import opened FaqRecord
  import opened FaqStore
  import opened CacheEntry

  /** The client's key prefix. */
  const Prefix: string := "faq:"

  /** The server key a client key names: the client prepends the prefix to every key it sends. */
  function Key(k: string): string {
    Prefix + k
  }

  /** Every server key the client writes carries the prefix, and distinct client keys name distinct server keys. */
  lemma KeyPrefixedAndInjective(a: string, b: string)
    ensures StartsWith(Key(a), Prefix)
    ensures Key(a) == Key(b) ==> a == b
  {
    if Key(a) == Key(b) {
      assert a == Key(a)[|Prefix|..];
      assert b == Key(b)[|Prefix|..];
    }
  }

  /** Every FAQ cached under its key is the stored FAQ. */
  ghost predicate Coherent(server: map<string, Cached<Faq>>, store: Store) {
    forall id | Key(id) in server :: id in store && server[Key(id)].value == store[id]
  }

  /** Caching the stored FAQ (or storing and caching a new one) keeps the cache coherent. */
  lemma CoherentPut(server: map<string, Cached<Faq>>, store: Store, id: Id, e: Cached<Faq>)
    requires Coherent(server, store)
    ensures Coherent(server[Key(id) := e], store[id := e.value])
  {
    forall j | Key(j) in server[Key(id) := e]
      ensures j in store[id := e.value] && server[Key(id) := e][Key(j)].value == store[id := e.value][j]
    {
      KeyPrefixedAndInjective(j, id);
    }
  }

  /** Dropping a FAQ from the collection and its entry from the cache keeps the cache coherent. */
  lemma CoherentRemove(server: map<string, Cached<Faq>>, store: Store, id: Id)
    requires Coherent(server, store)
    ensures Coherent(server - {Key(id)}, store - {id})
  {
  }

  /** What the service throws: a store error passed through, or its own `Error(message)`. */
  datatype ServiceError = StoreFailed(error: StoreError) | Raised(message: string)

  /**
   * The server keys `clearCache` deletes as written: `KEYS faq:*` answers
   * with server keys, which already carry the prefix, and `DEL` prefixes
   * them once more.
   */
  function ClearedAsWritten(server: map<string, Cached<Faq>>): (r: set<string>)
    ensures forall k :: k in r <==> exists j :: j in server && StartsWith(j, Prefix) && k == Key(j)
  {
    set j | j in server && StartsWith(j, Prefix) :: Key(j)
  }

  /**
   * When every server key is one the service wrote for a FAQ, `clearCache`
   * as written deletes no key that exists: every entry survives the clearing.
   * The keys it deletes carry the prefix twice and are longer than any of them.
   */
  lemma {:induction false} ClearAsWrittenKeepsEntries(server: map<string, Cached<Faq>>)
    requires forall k | k in server :: exists id :: IsObjectId(id) && k == Key(id)
    ensures server.Keys * ClearedAsWritten(server) == {}
    ensures server - ClearedAsWritten(server) == server
  {
    forall k | k in server ensures |k| == |Prefix| + 24 {
      var id :| IsObjectId(id) && k == Key(id);
    }
    forall k | k in ClearedAsWritten(server) ensures |k| == 2 * |Prefix| + 24 {
      var j :| j in server && StartsWith(j, Prefix) && k == Key(j);
      var id :| IsObjectId(id) && j == Key(id);
    }
  }

  class CacheService {
    /** The FAQ collection. */
    var store: Store
    /** The cache server's entries, by server key (other clients' keys included). */
    var server: map<string, Cached<Faq>>
    /** How many queries the service has sent to the collection. */
    ghost var storeReads: nat

    /** A FAQ the service has cached is the stored FAQ; every stored FAQ passes the schema. */
    ghost predicate Valid()
      reads this
    {
      && Coherent(server, store)
      && StoreWellFormed(store)
    }

    constructor (initial: Store)
      requires StoreWellFormed(initial)
      ensures Valid() && store == initial && server == map[] && storeReads == 0
    {
      store := initial;
      server := map[];
      storeReads := 0;
    }

    /**
     * `getFAQ(faqId)`: a live entry answers without the collection; on a miss
     * the FAQ is read, cached for an hour and returned; a cast error or
     * `FAQ not found` is thrown.
     */
    method GetFaq(faqId: string, now: int) returns (r: Result<Faq, ServiceError>)
      requires Valid()
      modifies this
      ensures Valid() && store == old(store)
      ensures r.Success? ==> faqId in store && r.value == store[faqId]
      ensures Live(Get(old(server), Key(faqId)), now) ==>
        r.Success? && server == old(server) && storeReads == old(storeReads)
      ensures !Live(Get(old(server), Key(faqId)), now) ==>
        && storeReads == old(storeReads) + (if IsObjectId(faqId) then 1 else 0)
        && (!IsObjectId(faqId) ==> r == Failure(StoreFailed(CastError(faqId))) && server == old(server))
        && (IsObjectId(faqId) && faqId !in store ==> r == Failure(Raised("FAQ not found")) && server == old(server))
        && (IsObjectId(faqId) && faqId in store ==>
              r == Success(store[faqId]) && server == old(server)[Key(faqId) := Put(store[faqId], now)])
    {
      var entry := Get(server, Key(faqId));
      if Live(entry, now) {
        return Success(entry.value.value);
      }
      var found := FindById(store, faqId);
      if found.Failure? {
        return Failure(StoreFailed(found.error));
      }
      storeReads := storeReads + 1;
      if found.value.None? {
        return Failure(Raised("FAQ not found"));
      }
      var f := found.value.value;
      CoherentPut(server, store, faqId, Put(f, now));
      assert store[faqId := f] == store;
      server := server[Key(faqId) := Put(f, now)];
      r := Success(f);
    }

    /** `setFAQ(faqData)`: the FAQ is saved (or the validation error thrown), then cached for an hour. */
    method SetFaq(faqData: FaqFields, newId: Id, now: int) returns (r: Result<Faq, ServiceError>)
      requires Valid() && IsObjectId(newId) && newId !in store
      modifies this
      ensures Valid() && storeReads == old(storeReads)
      ensures var built := Build(newId, faqData, now);
        && (built.Failure? ==> r == Failure(StoreFailed(built.error)) && store == old(store) && server == old(server))
        && (built.Success? ==>
              && r == Success(built.value)
              && store == old(store)[newId := built.value]
              && server == old(server)[Key(newId) := Put(built.value, now)])
    {
      var built := Build(newId, faqData, now);
      if built.Failure? {
        return Failure(StoreFailed(built.error));
      }
      var f := built.value;
      StoreInsertWellFormed(store, f);
      CoherentPut(server, store, newId, Put(f, now));
      store := store[newId := f];
      server := server[Key(newId) := Put(f, now)];
      r := Success(f);
    }

    /**
     * `deleteFAQ(faqId)`: the FAQ is removed from the collection (an unknown
     * identifier is no error) and its entry from the cache; a cast error is
     * thrown before anything changes.
     */
    method DeleteFaq(faqId: string) returns (err: Option<ServiceError>)
      requires Valid()
      modifies this
      ensures Valid() && storeReads == old(storeReads) + (if IsObjectId(faqId) then 1 else 0)
      ensures !IsObjectId(faqId) ==>
        err == Some(StoreFailed(CastError(faqId))) && store == old(store) && server == old(server)
      ensures IsObjectId(faqId) ==>
        err == None && store == old(store) - {faqId} && server == old(server) - {Key(faqId)}
    {
      var found := FindById(store, faqId);
      if found.Failure? {
        return Some(StoreFailed(found.error));
      }
      storeReads := storeReads + 1;
      StoreRemoveWellFormed(store, faqId);
      CoherentRemove(server, store, faqId);
      store := store - {faqId};
      server := server - {Key(faqId)};
      err := None;
    }

    /** `clearCache()` as intended: every `faq:` entry goes, every other key stays. */
    method ClearCache()
      requires Valid()
      modifies this
      ensures Valid() && store == old(store) && storeReads == old(storeReads)
      ensures forall k :: k in server <==> k in old(server) && !StartsWith(k, Prefix)
      ensures forall k | k in server :: server[k] == old(server)[k]
      ensures forall id :: Key(id) !in server
    {
      server := map k | k in server && !StartsWith(k, Prefix) :: server[k];
      forall id
        ensures Key(id) !in server
      {
        KeyPrefixedAndInjective(id, id);
      }
    }
  }

  /**
   * A FAQ saved through `setFAQ` and fetched at once with `getFAQ` is
   * served from the cache: it is the saved FAQ and the collection is not read.
   */
  method SetThenGet(c: CacheService, faqData: FaqFields, newId: Id, now: int) returns (saved: Result<Faq, ServiceError>, fetched: Result<Faq, ServiceError>)
    requires c.Valid() && IsObjectId(newId) && newId !in c.store
    modifies c
    ensures c.Valid()
    ensures saved.Success? ==> fetched == saved && c.storeReads == old(c.storeReads)
    ensures saved.Success? <==> Build(newId, faqData, now).Success?
  {
    saved := c.SetFaq(faqData, newId, now);
    fetched := c.GetFaq(newId, now);
  }
}
