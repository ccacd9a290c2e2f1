/**
 * The older FAQ service: every operation answers or throws an `Error` whose
 * message is its own prefix followed by the cause's message; listings and
 * search are filtered by language.
 */
module FaqLangService {
  import opened Wrappers
  import opened Text
  import opened FaqRecord
  import opened FaqStore

  /** The FAQs of the collection in the given language (`find({ language })`). */
  function InLanguage(store: Store, lang: string): (r: Store)
    ensures forall id :: id in r <==> id in store && store[id].language == lang
    ensures forall id | id in r :: r[id] == store[id]
  {
    map id | id in store && store[id].language == lang :: store[id]
  }

  /**
   * The FAQs in the given language whose question or answer contains the
   * query, ignoring case (`$regex` with `new RegExp(query, 'i')`, the query
   * taken literally).
   */
  function Search(store: Store, query: string, lang: string): (r: Store)
    ensures forall id :: id in r <==>
      id in store && store[id].language == lang
      && (ContainsIgnoringCase(store[id].question, query) || ContainsIgnoringCase(store[id].answer, query))
    ensures forall id | id in r :: r[id] == store[id]
  {
    map id | id in store && store[id].language == lang
                && (ContainsIgnoringCase(store[id].question, query) || ContainsIgnoringCase(store[id].answer, query))
      :: store[id]
  }

  /** A search never finds more than the listing of its language. */
  lemma SearchWithinLanguage(store: Store, query: string, lang: string)
    ensures Search(store, query, lang).Keys <= InLanguage(store, lang).Keys
  {
  }

  /** Every string contains the empty query, so an empty search is the language's listing. */
  lemma EmptySearchIsListing(store: Store, lang: string)
    ensures Search(store, "", lang) == InLanguage(store, lang)
  {
    forall id | id in store
      ensures ContainsIgnoringCase(store[id].question, "")
    {
      assert StartsWith(Lower(store[id].question), Lower(""));
    }
  }

  /** The language `getFAQs` and `searchFAQs` filter by: the default applies only when the argument is absent. */
  function LanguageOrDefault(language: Option<string>): (r: string)
    ensures language.None? ==> r == DefaultLanguage
    ensures language.Some? ==> r == language.value
  {
    language.GetOr(DefaultLanguage)
  }

  /** The fields `createFAQ` builds from: a falsy language becomes the default. */
  function CreationFields(data: FaqFields): (r: FaqFields)
    ensures r.question == data.question && r.answer == data.answer
    ensures r.language.Some? && (Truthy(data.language) ==> r.language == data.language)
    ensures !Truthy(data.language) ==> r.language == Some(DefaultLanguage)
  {
    data.(language := Some(if Truthy(data.language) then data.language.value else DefaultLanguage))
  }

  /**
   * `createFAQ` and `new FAQ(fields)` agree on every absent language, and on
   * the empty one `createFAQ` saves the default where the model would reject it.
   */
  lemma CreationDefaultsEmptyLanguage(id: Id, q: string, a: string, now: int)
    requires Trim(q) != "" && Trim(a) != ""
    ensures Build(id, CreationFields(FaqFields(Some(q), Some(a), Some(""))), now).Success?
    ensures Build(id, FaqFields(Some(q), Some(a), Some("")), now).Failure?
    ensures Build(id, CreationFields(FaqFields(Some(q), Some(a), None)), now)
         == Build(id, FaqFields(Some(q), Some(a), None), now)
  {
    var withDefault := FaqFields(Some(q), Some(a), Some(DefaultLanguage));
    assert CreationFields(FaqFields(Some(q), Some(a), Some(""))) == withDefault;
    assert CreationFields(FaqFields(Some(q), Some(a), None)) == withDefault;
    assert "" !in Languages;
    var x := Build(id, withDefault, now);
    var y := Build(id, FaqFields(Some(q), Some(a), None), now);
    assert x.Success? && y.Success?;
    assert x.value.language == y.value.language;
  }

  /**
   * Without update validators an update can store what the schema forbids:
   * an empty question or an unsupported language.
   */
  lemma UnvalidatedUpdateCanBreakSchema(f: Faq, now: int)
    requires WellFormed(f) && IsObjectId(f.id)
    ensures var r := FindByIdAndUpdate(map[f.id := f], f.id, FaqFields(Some("  "), None, Some("pt")), now, false);
      r.Success? && r.value.Some? && !WellFormed(r.value.value)
    ensures FindByIdAndUpdate(map[f.id := f], f.id, FaqFields(Some("  "), None, Some("pt")), now, true).Failure?
  {
    var patch := FaqFields(Some("  "), None, Some("pt"));
    assert "question" in PatchViolations(patch) by {
      assert Trim("  ") == "" by { TrimEmptyIff("  "); }
    }
  }

  class LangService {
    /** The FAQ collection. */
    var store: Store

    constructor (initial: Store)
      ensures store == initial
    {
      store := initial;
    }

    /** `createFAQ(data)`: `Error creating FAQ: <cause>` when the save fails. */
    method CreateFaq(data: FaqFields, newId: Id, now: int) returns (r: Result<Faq, string>)
      requires IsObjectId(newId) && newId !in store
      modifies this
      ensures var built := Build(newId, CreationFields(data), now);
        && (built.Failure? ==>
              r == Failure("Error creating FAQ: " + StoreErrorMessage(built.error)) && store == old(store))
        && (built.Success? ==> r == Success(built.value) && store == old(store)[newId := built.value])
      ensures r.Success? ==> WellFormed(r.value) && r.value.language != ""
    {
      var built := Build(newId, CreationFields(data), now);
      if built.Failure? {
        return Failure("Error creating FAQ: " + StoreErrorMessage(built.error));
      }
      store := store[newId := built.value];
      r := Success(built.value);
    }

    /** `getFAQs(language = 'en')`: the FAQs in that language. */
    method GetFaqs(language: Option<string>) returns (faqs: Store)
      ensures faqs == InLanguage(store, LanguageOrDefault(language))
      ensures forall id | id in faqs :: faqs[id].language == LanguageOrDefault(language)
    {
      faqs := InLanguage(store, LanguageOrDefault(language));
    }

    /** `getFAQById(id)`: `Error fetching FAQ by ID: <cause>` for a cast error or `FAQ not found`. */
    method GetFaqById(id: string) returns (r: Result<Faq, string>)
      ensures !IsObjectId(id) ==> r == Failure("Error fetching FAQ by ID: " + StoreErrorMessage(CastError(id)))
      ensures IsObjectId(id) && id !in store ==> r == Failure("Error fetching FAQ by ID: FAQ not found")
      ensures r.Success? <==> IsObjectId(id) && id in store
      ensures r.Success? ==> r.value == store[id]
    {
      var found := FindById(store, id);
      if found.Failure? {
        return Failure("Error fetching FAQ by ID: " + StoreErrorMessage(found.error));
      }
      if found.value.None? {
        return Failure("Error fetching FAQ by ID: FAQ not found");
      }
      r := Success(found.value.value);
    }

    /** `updateFAQ(id, data)`: the update runs without validators; `Error updating FAQ: <cause>` on failure. */
    method UpdateFaq(id: string, data: FaqFields, now: int) returns (r: Result<Faq, string>)
      modifies this
      ensures !IsObjectId(id) ==>
        r == Failure("Error updating FAQ: " + StoreErrorMessage(CastError(id))) && store == old(store)
      ensures IsObjectId(id) && id !in old(store) ==>
        r == Failure("Error updating FAQ: FAQ not found") && store == old(store)
      ensures IsObjectId(id) && id in old(store) ==>
        var g := ApplyPatch(old(store)[id], data, now);
        r == Success(g) && store == old(store)[id := g]
    {
      var res := FindByIdAndUpdate(store, id, data, now, false);
      if res.Failure? {
        return Failure("Error updating FAQ: " + StoreErrorMessage(res.error));
      }
      if res.value.None? {
        return Failure("Error updating FAQ: FAQ not found");
      }
      store := store[id := res.value.value];
      r := Success(res.value.value);
    }

    /** `deleteFAQ(id)`: `Error deleting FAQ: <cause>` for a cast error or `FAQ not found`. */
    method DeleteFaq(id: string) returns (r: Result<(), string>)
      modifies this
      ensures !IsObjectId(id) ==>
        r == Failure("Error deleting FAQ: " + StoreErrorMessage(CastError(id))) && store == old(store)
      ensures IsObjectId(id) && id !in old(store) ==>
        r == Failure("Error deleting FAQ: FAQ not found") && store == old(store)
      ensures IsObjectId(id) && id in old(store) ==> r == Success(()) && store == old(store) - {id}
    {
      var found := FindById(store, id);
      if found.Failure? {
        return Failure("Error deleting FAQ: " + StoreErrorMessage(found.error));
      }
      if found.value.None? {
        return Failure("Error deleting FAQ: FAQ not found");
      }
      store := store - {id};
      r := Success(());
    }

    /** `searchFAQs(query, language = 'en')`. */
    method SearchFaqs(query: string, language: Option<string>) returns (faqs: Store)
      ensures faqs == Search(store, query, LanguageOrDefault(language))
      ensures faqs.Keys <= InLanguage(store, LanguageOrDefault(language)).Keys
    {
      SearchWithinLanguage(store, query, LanguageOrDefault(language));
      faqs := Search(store, query, LanguageOrDefault(language));
    }
  }
}
