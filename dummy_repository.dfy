/** The older in-memory repository: the same list of pairs, whose only
    lookup returns the whole pair found by short code. */
module DummyRepository {
  import opened Wrappers
  import opened Entities
  import MemoryRepository

  class DummyInMemoryURLRepository {
    var url_pairs: seq<URLEntity>

    constructor()
      ensures url_pairs == []
    {
      url_pairs := [];
    }

    /** Appends the pair, keeping every earlier one in place. */
    method Add(url_pair: URLEntity)
      modifies this
      ensures url_pairs == old(url_pairs) + [url_pair]
    {
      url_pairs := url_pairs + [url_pair];
    }

    method GetByShortURL(short_url: string) returns (r: Option<URLEntity>)
      ensures r == FirstMatch(url_pairs, ShortURLColumn, short_url)
    {
      var i := 0;
      while i < |url_pairs|
        invariant i <= |url_pairs|
        invariant NoMatchBefore(url_pairs, ShortURLColumn, short_url, i)
      {
        if url_pairs[i].short_url == short_url {
          FirstIndexAt(url_pairs, ShortURLColumn, short_url, i);
          return Some(url_pairs[i]);
        }
        i := i + 1;
      }
      return None;
    }
  }

  /** The older lookup finds the very pair whose long URL the newer
      repository's lookup returns, on the same list. */
  lemma AgreesWithMemoryRepository(pairs: seq<URLEntity>, short_url: string)
    ensures match FirstMatch(pairs, ShortURLColumn, short_url)
            case None => MemoryRepository.ShortURLLookup(pairs, short_url).None?
            case Some(e) => MemoryRepository.ShortURLLookup(pairs, short_url) == Some(e.long_url.value)
  {
  }

  /** After adding a pair whose short code was not yet present, the lookup
      by that code returns exactly that pair. */
  lemma FindAfterAdd(pairs: seq<URLEntity>, e: URLEntity)
    requires FirstMatch(pairs, ShortURLColumn, e.short_url).None?
    ensures FirstMatch(pairs + [e], ShortURLColumn, e.short_url) == Some(e)
  {
    FirstIndexAppend(pairs, e, ShortURLColumn, e.short_url);
  }
}
