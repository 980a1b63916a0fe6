/** The cache-aside repository: the `url` table is the store of record and
    the cache maps a short code to its long URL. Writes go to the store
    first and then the cache; reads by short code try the cache first and
    repopulate it on a miss; reads by long URL use the store alone. */
module ComposedRepository {
  import opened Wrappers
  import opened Exceptions
  import opened LongURLValue
  import opened Entities
  import opened Models
  import opened Converters

  /** Whether each cache call of one operation succeeds. The cache server is
      outside the model, so the caller supplies the outcomes; a failed call
      raises, and nothing in the repository catches it. */
  datatype CacheIO = CacheIO(get_ok: bool, set_ok: bool)

  /** A store-only lookup by short code, as the miss path performs it: the
      long URL of the one row holding the code. */
  function StoreLookup(store: seq<URLModel>, short_url: string): (r: Result<Option<string>, Error>)
    ensures r.Failure? ==> r.error == MultipleResultsFound
  {
    match ScalarOneOrNone(Select(store, ShortURLColumn, short_url))
    case Failure(err) => Failure(err)
    case Success(None) => Success(None)
    case Success(Some(m)) => Success(Some(m.long_url))
  }

  /** The store-only lookup finds nothing exactly when no row holds the
      code, answers the long URL of a row that holds it, and raises only
      when several rows do. */
  lemma StoreLookupMeaning(store: seq<URLModel>, short_url: string)
    ensures StoreLookup(store, short_url) == Success(None) <==> forall m :: m in store ==> m.short_url != short_url
    ensures StoreLookup(store, short_url).Success? && StoreLookup(store, short_url).value.Some? ==>
              exists m :: m in store && m.short_url == short_url && m.long_url == StoreLookup(store, short_url).value.value
    ensures StoreLookup(store, short_url).Failure? <==> |Select(store, ShortURLColumn, short_url)| > 1
    ensures StoreLookup(store, short_url).Failure? ==> StoreLookup(store, short_url).error == MultipleResultsFound
  {
    var rows := Select(store, ShortURLColumn, short_url);
    if |rows| == 1 {
      assert rows[0] in rows;
    }
  }

  /** What `get_by_short_url` answers: a cache failure raises; a non-empty
      cached value is the answer; on a miss (no key, or an empty value) the
      store decides, and a row found there is only returned once the cache
      write-back succeeded, a failed write-back raising CacheError. */
  function CachedAnswer(store: seq<URLModel>, cache: map<string, string>, short_url: string, io: CacheIO):
    (r: Result<Option<string>, Error>)
    ensures !io.get_ok ==> r == Failure(CacheError)
    ensures io.get_ok && short_url in cache && cache[short_url] != "" ==> r == Success(Some(cache[short_url]))
    ensures r.Failure? ==> r.error == CacheError || r == StoreLookup(store, short_url)
    ensures r.Success? && r.value.Some? ==>
              (short_url in cache && r.value.value == cache[short_url]) || StoreLookup(store, short_url) == r
    ensures io.get_ok && !(short_url in cache && cache[short_url] != "") ==>
              r == if StoreLookup(store, short_url).Success? && StoreLookup(store, short_url).value.Some? && !io.set_ok
                   then Failure(CacheError) else StoreLookup(store, short_url)
  {
    if !io.get_ok then Failure(CacheError)
    else if short_url in cache && cache[short_url] != "" then Success(Some(cache[short_url]))
    else match StoreLookup(store, short_url)
      case Success(Some(long_url)) => if io.set_ok then Success(Some(long_url)) else Failure(CacheError)
      case found => found
  }

  /** Whether `get_by_short_url` writes the store's value back to the cache. */
  predicate Repopulates(store: seq<URLModel>, cache: map<string, string>, short_url: string, io: CacheIO) {
    io.get_ok && io.set_ok && !(short_url in cache && cache[short_url] != "") &&
    StoreLookup(store, short_url).Success? && StoreLookup(store, short_url).value.Some?
  }

  /** The lookup by long URL: the one row holding `long_url`, converted to
      an entity. The long URL column is not unique, so two rows holding it
      raise MultipleResultsFound; a stored value that fails validation
      raises the validation error. */
  function FindByLongURL(store: seq<URLModel>, long_url: string): (r: Result<Option<URLEntity>, Error>)
    ensures r == Success(None) <==> forall m :: m in store ==> m.long_url != long_url
    ensures r == Failure(MultipleResultsFound) <==> |Select(store, LongURLColumn, long_url)| > 1
    ensures r.Success? && r.value.Some? ==>
              r.value.value.long_url.value == long_url && r.value.value.long_url.IsValid() &&
              ConvertURLEntityToModel(r.value.value) in store
    ensures r.Failure? && r.error != MultipleResultsFound ==> Validate(long_url) == Fail(r.error)
  {
    var rows := Select(store, LongURLColumn, long_url);
    match ScalarOneOrNone(rows)
    case Failure(err) => Failure(err)
    case Success(None) => Success(None)
    case Success(Some(m)) =>
      assert m in rows;
      match ConvertURLModelToEntity(m)
      case Failure(err) => Failure(err)
      case Success(e) => Success(Some(e))
  }

  /** Once a row is committed for a long URL no row held before, looking
      that long URL up finds exactly the committed row. */
  lemma FindAfterCommit(store: seq<URLModel>, m: URLModel)
    requires FindByLongURL(store, m.long_url) == Success(None) && Validate(m.long_url).Pass?
    ensures FindByLongURL(store + [m], m.long_url) == Success(Some(ConvertURLModelToEntity(m).value))
  {
    SelectAppend(store, m, LongURLColumn, m.long_url);
    assert Select(store, LongURLColumn, m.long_url) == [];
  }

  /** Every cached long URL is the one the store holds for that code. */
  predicate CacheCoherent(store: seq<URLModel>, cache: map<string, string>) {
    forall k :: k in cache ==> StoreLookup(store, k) == Success(Some(cache[k]))
  }

  /** What a store-only lookup by short code answers on the store after a
      successful commit of `m`. */
  lemma StoreLookupAfterCommit(store: seq<URLModel>, m: URLModel, short_url: string)
    requires Commit(store, m).Pass?
    ensures StoreLookup(store + [m], short_url) ==
              if short_url == m.short_url then Success(Some(m.long_url)) else StoreLookup(store, short_url)
  {
    SelectAppend(store, m, ShortURLColumn, short_url);
    if short_url == m.short_url {
      assert Select(store, ShortURLColumn, short_url) == [];
    }
  }

  /** Adding a row keeps the cache coherent, whether or not the cache write
      that follows succeeds. */
  lemma AddKeepsCoherence(store: seq<URLModel>, cache: map<string, string>, m: URLModel)
    requires CacheCoherent(store, cache) && Commit(store, m).Pass?
    ensures CacheCoherent(store + [m], cache)
    ensures CacheCoherent(store + [m], cache[m.short_url := m.long_url])
  {
    forall k | k in cache ensures StoreLookup(store + [m], k) == Success(Some(cache[k])) {
      StoreLookupAfterCommit(store, m, k);
    }
    StoreLookupAfterCommit(store, m, m.short_url);
  }

  /** Repopulating the cache from the store keeps it coherent. */
  lemma RepopulateKeepsCoherence(store: seq<URLModel>, cache: map<string, string>, short_url: string, long_url: string)
    requires CacheCoherent(store, cache) && StoreLookup(store, short_url) == Success(Some(long_url))
    ensures CacheCoherent(store, cache[short_url := long_url])
  {
  }

  /** Under coherence, a cache hit answers what the store would. */
  lemma CoherentHit(store: seq<URLModel>, cache: map<string, string>, short_url: string)
    requires CacheCoherent(store, cache) && short_url in cache
    ensures StoreLookup(store, short_url) == Success(Some(cache[short_url]))
  {
  }

  /** Under coherence, and with the cache reachable, the cache-aside lookup
      answers exactly what a store-only lookup would. */
  lemma CoherentCachedAnswer(store: seq<URLModel>, cache: map<string, string>, short_url: string, io: CacheIO)
    requires CacheCoherent(store, cache) && io.get_ok && io.set_ok
    ensures CachedAnswer(store, cache, short_url, io) == StoreLookup(store, short_url)
  {
    if short_url in cache {
      CoherentHit(store, cache, short_url);
    }
  }

  /** Under the table's constraints, a stored row's short code looks up
      that row's long URL. */
  lemma StoredRowLookup(store: seq<URLModel>, m: URLModel)
    requires UniqueKeys(store) && m in store
    ensures StoreLookup(store, m.short_url) == Success(Some(m.long_url))
  {
    var rows := Select(store, ShortURLColumn, m.short_url);
    ShortURLSelectsAtMostOne(store, m.short_url);
    assert m in rows && |rows| == 1;
    assert rows[0] == m;
    assert ScalarOneOrNone(rows) == Success(Some(m));
  }

  /** Under the table's constraints, the store-only lookup by short code
      never raises. */
  lemma UniqueKeysLookupSucceeds(store: seq<URLModel>, short_url: string)
    requires UniqueKeys(store)
    ensures StoreLookup(store, short_url).Success?
  {
    ShortURLSelectsAtMostOne(store, short_url);
  }

  class ComposedURLRepository {
    /** The `url` table. */
    var store: seq<URLModel>
    /** The cache: short code to long URL. */
    var cache: map<string, string>

    /** The table's primary key and unique constraint hold. */
    predicate Valid()
      reads this
    {
      UniqueKeys(store)
    }

    predicate Coherent()
      reads this
    {
      CacheCoherent(store, cache)
    }

    constructor(store: seq<URLModel>, cache: map<string, string>)
      ensures this.store == store && this.cache == cache
    {
      this.store := store;
      this.cache := cache;
    }

    /** Commits the row; only when that succeeds is the cache written. A
        failed cache write raises after the row is already committed. */
    method Add(url_pair: URLEntity, io: CacheIO) returns (r: Outcome<Error>)
      modifies this
      ensures var m := ConvertURLEntityToModel(url_pair);
              match Commit(old(store), m)
              case Fail(err) => r == Fail(err) && store == old(store) && cache == old(cache)
              case Pass =>
                store == old(store) + [m] &&
                (if io.set_ok then r == Pass && cache == old(cache)[url_pair.short_url := url_pair.long_url.value]
                 else r == Fail(CacheError) && cache == old(cache))
      ensures old(Valid()) ==> Valid()
      ensures old(Coherent()) ==> Coherent()
    {
      var short_url := url_pair.short_url;
      var long_url := AsGenericType(url_pair.long_url);
      var model := ConvertURLEntityToModel(url_pair);
      var committed := Commit(store, model);
      if committed.Fail? {
        return committed;
      }
      if Valid() {
        CommitKeepsUniqueKeys(store, model);
      }
      if Coherent() {
        AddKeepsCoherence(store, cache, model);
      }
      store := store + [model];
      if !io.set_ok {
        return Fail(CacheError);
      }
      cache := cache[short_url := long_url];
      return Pass;
    }

    /** Tries the cache; a missing or empty cached value falls through to the
        store, and a row found there is written back to the cache. */
    method GetByShortURL(short_url: string, io: CacheIO) returns (r: Result<Option<string>, Error>)
      modifies this
      ensures r == CachedAnswer(old(store), old(cache), short_url, io)
      ensures store == old(store)
      ensures cache == if Repopulates(old(store), old(cache), short_url, io)
                       then old(cache)[short_url := StoreLookup(old(store), short_url).value.value]
                       else old(cache)
      ensures old(Coherent()) ==> Coherent()
    {
      if !io.get_ok {
        r := Failure(CacheError);
      } else if short_url in cache && cache[short_url] != "" {
        r := Success(Some(cache[short_url]));
      } else {
        r := StoreLookup(store, short_url);
        if r.Success? && r.value.Some? {
          var long_url := r.value.value;
          if !io.set_ok {
            r := Failure(CacheError);
          } else {
            if Coherent() {
              RepopulateKeepsCoherence(store, cache, short_url, long_url);
            }
            cache := cache[short_url := long_url];
          }
        }
      }
    }

    /** Reads the store alone; the cache is neither read nor written. */
    function GetByLongURL(long_url: string): (r: Result<Option<URLEntity>, Error>)
      reads this
      ensures r == FindByLongURL(store, long_url)
    {
      FindByLongURL(store, long_url)
    }
  }
}
