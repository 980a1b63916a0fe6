/** The in-memory repository the tests run against: a list of URL pairs,
    appended to by `Add` and searched front to back by the two lookups. */
module MemoryRepository {
  import opened Wrappers
  import opened LongURLValue
  import opened Entities

  /** What `get_by_short_url` answers: the long URL of the first pair
      whose short code is `short_url`. */
  function ShortURLLookup(pairs: seq<URLEntity>, short_url: string): (r: Option<string>)
    ensures r.None? <==> NoMatchBefore(pairs, ShortURLColumn, short_url, |pairs|)
    ensures r.Some? ==> exists i :: 0 <= i < |pairs| && pairs[i].short_url == short_url &&
                          r.value == pairs[i].long_url.value && NoMatchBefore(pairs, ShortURLColumn, short_url, i)
  {
    match FirstIndex(pairs, ShortURLColumn, short_url)
    case None => None
    case Some(i) => Some(AsGenericType(pairs[i].long_url))
  }

  /** No two pairs share a short code. The list itself does not enforce
      this; the service keeps it as long as each new code is fresh. */
  predicate UniqueShortCodes(pairs: seq<URLEntity>) {
    forall i, j :: 0 <= i < j < |pairs| ==> pairs[i].short_url != pairs[j].short_url
  }

  /** Every stored long URL passed validation, as it has when the pair was
      built by the service. */
  predicate ValidLongURLs(pairs: seq<URLEntity>) {
    forall i :: 0 <= i < |pairs| ==> pairs[i].long_url.IsValid()
  }

  /** Adding a pair under a code no pair holds keeps the codes unique. */
  lemma AddKeepsUniqueShortCodes(pairs: seq<URLEntity>, e: URLEntity)
    requires UniqueShortCodes(pairs) && ShortURLLookup(pairs, e.short_url).None?
    ensures UniqueShortCodes(pairs + [e])
  {
    var pairs' := pairs + [e];
    forall i, j | 0 <= i < j < |pairs'| ensures pairs'[i].short_url != pairs'[j].short_url {
      assert pairs'[i] == pairs[i];
      if j < |pairs| {
        assert pairs'[j] == pairs[j];
      }
    }
  }

  /** Adding a pair with a validated long URL keeps every stored URL valid. */
  lemma AddKeepsValidLongURLs(pairs: seq<URLEntity>, e: URLEntity)
    requires ValidLongURLs(pairs) && e.long_url.IsValid()
    ensures ValidLongURLs(pairs + [e])
  {
    var pairs' := pairs + [e];
    forall i | 0 <= i < |pairs'| ensures pairs'[i].long_url.IsValid() {
      if i < |pairs| {
        assert pairs'[i] == pairs[i];
      }
    }
  }

  /** With unique codes, every stored pair's code resolves to that pair's
      long URL. */
  lemma LookupStoredCode(pairs: seq<URLEntity>, i: nat)
    requires UniqueShortCodes(pairs) && i < |pairs|
    ensures ShortURLLookup(pairs, pairs[i].short_url) == Some(pairs[i].long_url.value)
  {
    assert NoMatchBefore(pairs, ShortURLColumn, pairs[i].short_url, i);
    FirstIndexAt(pairs, ShortURLColumn, pairs[i].short_url, i);
  }

  class DummyInMemoryURLRepository {
    var url_pairs: seq<URLEntity>

    constructor()
      ensures url_pairs == []
    {
      url_pairs := [];
    }

    /** Appends the pair; duplicates of either URL are not rejected. */
    method Add(url_pair: URLEntity)
      modifies this
      ensures url_pairs == old(url_pairs) + [url_pair]
    {
      url_pairs := url_pairs + [url_pair];
    }

    method GetByShortURL(short_url: string) returns (r: Option<string>)
      ensures r == ShortURLLookup(url_pairs, short_url)
    {
      var i := 0;
      while i < |url_pairs|
        invariant i <= |url_pairs|
        invariant NoMatchBefore(url_pairs, ShortURLColumn, short_url, i)
      {
        if url_pairs[i].short_url == short_url {
          FirstIndexAt(url_pairs, ShortURLColumn, short_url, i);
          return Some(url_pairs[i].long_url.value);
        }
        i := i + 1;
      }
      return None;
    }

    method GetByLongURL(long_url: string) returns (r: Option<URLEntity>)
      ensures r == FirstMatch(url_pairs, LongURLColumn, long_url)
    {
      var i := 0;
      while i < |url_pairs|
        invariant i <= |url_pairs|
        invariant NoMatchBefore(url_pairs, LongURLColumn, long_url, i)
      {
        if url_pairs[i].long_url.value == long_url {
          FirstIndexAt(url_pairs, LongURLColumn, long_url, i);
          return Some(url_pairs[i]);
        }
        i := i + 1;
      }
      return None;
    }
  }

  /** After adding a pair whose short code was not yet present, resolving
      that code gives the pair's long URL. */
  lemma ResolveAfterAdd(pairs: seq<URLEntity>, e: URLEntity)
    requires ShortURLLookup(pairs, e.short_url).None?
    ensures ShortURLLookup(pairs + [e], e.short_url) == Some(e.long_url.value)
  {
    FirstIndexAppend(pairs, e, ShortURLColumn, e.short_url);
  }

  /** Adding a pair never changes the answer for a code already present. */
  lemma AddKeepsResolvedCodes(pairs: seq<URLEntity>, e: URLEntity, short_url: string)
    requires ShortURLLookup(pairs, short_url).Some?
    ensures ShortURLLookup(pairs + [e], short_url) == ShortURLLookup(pairs, short_url)
  {
    FirstIndexAppend(pairs, e, ShortURLColumn, short_url);
    assert (pairs + [e])[FirstIndex(pairs, ShortURLColumn, short_url).value] ==
           pairs[FirstIndex(pairs, ShortURLColumn, short_url).value];
  }

  /** After adding a pair whose long URL was not yet present, looking that
      long URL up finds exactly the added pair. */
  lemma FindAfterAdd(pairs: seq<URLEntity>, e: URLEntity)
    requires FirstMatch(pairs, LongURLColumn, e.long_url.value).None?
    ensures FirstMatch(pairs + [e], LongURLColumn, e.long_url.value) == Some(e)
  {
    FirstIndexAppend(pairs, e, LongURLColumn, e.long_url.value);
  }

  /** Adding a pair never changes the answer for a long URL already present. */
  lemma AddKeepsFoundURLs(pairs: seq<URLEntity>, e: URLEntity, long_url: string)
    requires FirstMatch(pairs, LongURLColumn, long_url).Some?
    ensures FirstMatch(pairs + [e], LongURLColumn, long_url) == FirstMatch(pairs, LongURLColumn, long_url)
  {
    FirstIndexAppend(pairs, e, LongURLColumn, long_url);
    assert (pairs + [e])[FirstIndex(pairs, LongURLColumn, long_url).value] ==
           pairs[FirstIndex(pairs, LongURLColumn, long_url).value];
  }
}
