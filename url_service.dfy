/** The URL service: get-or-create a short code for a long URL, and resolve
    a short code back to its long URL, over either repository. The fresh
    UUID, the clock readings and the cache outcomes are inputs. */
module UrlService {
  import opened Wrappers
  import opened Exceptions
  import opened LongURLValue
  import opened Entities
  import opened Base62
  import opened Models
  import opened Converters
  import opened MemoryRepository
  import opened ComposedRepository

  /** 2^48, i.e. `1 << 48`. */
  const MASK_BOUND: nat := 0x1_0000_0000_0000

  /** The short code of a new pair: the UUID's low 48 bits (`& ((1 << 48) - 1)`,
      which on a non-negative number is the remainder by 2^48), base-62
      encoded. It has one to nine characters and decodes to those bits. */
  function ShortCode(id: UUID): (code: string)
    ensures 1 <= |code| <= 9
    ensures Decode(code) == Some(id % MASK_BOUND)
  {
    LengthBelow48Bits(id % MASK_BOUND);
    DecodeEncode(id % MASK_BOUND);
    Encode(id % MASK_BOUND)
  }

  /** Two UUIDs get the same code exactly when their low 48 bits agree. */
  lemma ShortCodeCollision(a: UUID, b: UUID)
    ensures ShortCode(a) == ShortCode(b) <==> a % MASK_BOUND == b % MASK_BOUND
  {
    if ShortCode(a) == ShortCode(b) {
      EncodeInjective(a % MASK_BOUND, b % MASK_BOUND);
    }
  }

  /** The resolve step after the lookup: a missing or empty long URL
      raises LongURLNotFoundException naming the code; a lookup error
      propagates. */
  function Resolve(short_url: string, found: Result<Option<string>, Error>): (r: Result<string, Error>)
    ensures r.Success? <==> found.Success? && found.value.Some? && found.value.value != ""
    ensures r.Success? ==> found == Success(Some(r.value))
    ensures found.Success? && (found.value.None? || found.value.value == "") ==>
              r == Failure(LongURLNotFoundException(short_url))
    ensures found.Failure? ==> r == Failure(found.error)
  {
    match found
    case Failure(err) => Failure(err)
    case Success(long_url) =>
      if long_url.None? || long_url.value == "" then Failure(LongURLNotFoundException(short_url))
      else Success(long_url.value)
  }

  /** The repository a service is built with. */
  datatype Backend = InMemory(memory: DummyInMemoryURLRepository) | Composed(composed: ComposedURLRepository)
  {
    function Repr(): set<object> {
      match this
      case InMemory(memory) => {memory}
      case Composed(composed) => {composed}
    }
  }

  /** A valid value object cannot be the empty string. */
  lemma ValidIsNotEmpty(v: LongURLValueObject)
    requires v.IsValid()
    ensures v.value != ""
  {
  }

  class URLService {
    const url_repository: Backend

    constructor(url_repository: Backend)
      ensures this.url_repository == url_repository
    {
      this.url_repository := url_repository;
    }

    /** An existing pair for the raw long URL is reused and nothing is
        added; otherwise the value object is built, which validates, and
        only a valid URL is added, under the code derived from `new_id`. */
    method GetOrCreateShortURL(long_url: string, new_id: UUID, created_at: Timestamp, updated_at: Timestamp, io: CacheIO)
      returns (r: Result<string, Error>)
      modifies url_repository.Repr()
      ensures url_repository.InMemory? ==>
                var repo := url_repository.memory;
                match old(FirstMatch(repo.url_pairs, LongURLColumn, long_url))
                case Some(existing) => r == Success(existing.short_url) && repo.url_pairs == old(repo.url_pairs)
                case None =>
                  match NewLongURL(long_url)
                  case Failure(err) => r == Failure(err) && repo.url_pairs == old(repo.url_pairs)
                  case Success(value) =>
                    r == Success(ShortCode(new_id)) &&
                    repo.url_pairs == old(repo.url_pairs) + [URLEntity(new_id, ShortCode(new_id), value, created_at, updated_at)]
      ensures url_repository.Composed? ==>
                var repo := url_repository.composed;
                match old(repo.GetByLongURL(long_url))
                case Failure(err) => r == Failure(err) && repo.store == old(repo.store) && repo.cache == old(repo.cache)
                case Success(Some(existing)) =>
                  r == Success(existing.short_url) && repo.store == old(repo.store) && repo.cache == old(repo.cache)
                case Success(None) =>
                  match NewLongURL(long_url)
                  case Failure(err) => r == Failure(err) && repo.store == old(repo.store) && repo.cache == old(repo.cache)
                  case Success(value) =>
                    var m := ConvertURLEntityToModel(URLEntity(new_id, ShortCode(new_id), value, created_at, updated_at));
                    match Commit(old(repo.store), m)
                    case Fail(err) => r == Failure(err) && repo.store == old(repo.store) && repo.cache == old(repo.cache)
                    case Pass =>
                      repo.store == old(repo.store) + [m] &&
                      (if io.set_ok then r == Success(ShortCode(new_id)) && repo.cache == old(repo.cache)[ShortCode(new_id) := long_url]
                       else r == Failure(CacheError) && repo.cache == old(repo.cache))
      ensures url_repository.InMemory? ==>
                (old(ValidLongURLs(url_repository.memory.url_pairs)) ==> ValidLongURLs(url_repository.memory.url_pairs)) &&
                (old(UniqueShortCodes(url_repository.memory.url_pairs)) &&
                 old(ShortURLLookup(url_repository.memory.url_pairs, ShortCode(new_id))).None? ==>
                   UniqueShortCodes(url_repository.memory.url_pairs))
      ensures url_repository.Composed? ==>
                (old(url_repository.composed.Valid()) ==> url_repository.composed.Valid()) &&
                (old(url_repository.composed.Coherent()) ==> url_repository.composed.Coherent())
    {
      var existing: Option<URLEntity>;
      match url_repository {
        case InMemory(repo) =>
          existing := repo.GetByLongURL(long_url);
        case Composed(repo) =>
          var found := repo.GetByLongURL(long_url);
          if found.Failure? {
            return Failure(found.error);
          }
          existing := found.value;
      }
      if existing.Some? {
        return Success(existing.value.short_url);
      }
      var short_url := ShortCode(new_id);
      var value := NewLongURL(long_url);
      if value.Failure? {
        return Failure(value.error);
      }
      var new_pair := URLEntity(new_id, short_url, value.value, created_at, updated_at);
      match url_repository {
        case InMemory(repo) =>
          if UniqueShortCodes(repo.url_pairs) && ShortURLLookup(repo.url_pairs, short_url).None? {
            AddKeepsUniqueShortCodes(repo.url_pairs, new_pair);
          }
          if ValidLongURLs(repo.url_pairs) {
            AddKeepsValidLongURLs(repo.url_pairs, new_pair);
          }
          repo.Add(new_pair);
        case Composed(repo) =>
          var added := repo.Add(new_pair, io);
          if added.Fail? {
            return Failure(added.error);
          }
      }
      return Success(short_url);
    }

    /** Looks the code up and raises LongURLNotFoundException when the
        answer is missing or empty. */
    method GetLongURL(short_url: string, io: CacheIO) returns (r: Result<string, Error>)
      modifies url_repository.Repr()
      ensures url_repository.InMemory? ==>
                r == Resolve(short_url, Success(ShortURLLookup(url_repository.memory.url_pairs, short_url))) &&
                url_repository.memory.url_pairs == old(url_repository.memory.url_pairs)
      ensures url_repository.Composed? ==>
                var repo := url_repository.composed;
                r == Resolve(short_url, CachedAnswer(old(repo.store), old(repo.cache), short_url, io)) &&
                repo.store == old(repo.store) &&
                repo.cache == (if Repopulates(old(repo.store), old(repo.cache), short_url, io)
                               then old(repo.cache)[short_url := StoreLookup(old(repo.store), short_url).value.value]
                               else old(repo.cache)) &&
                (old(repo.Coherent()) ==> repo.Coherent())
    {
      var found: Result<Option<string>, Error>;
      match url_repository {
        case InMemory(repo) =>
          var long_url := repo.GetByShortURL(short_url);
          found := Success(long_url);
        case Composed(repo) =>
          found := repo.GetByShortURL(short_url, io);
      }
      if found.Failure? {
        return Failure(found.error);
      }
      if found.value.None? || found.value.value == "" {
        return Failure(LongURLNotFoundException(short_url));
      }
      return Success(found.value.value);
    }
  }

  /** Shortening a long URL and then resolving the code returned gives the
      long URL back, whether the code was just created or an existing pair
      was reused, as long as the codes in the repository are unique, its
      long URLs valid, and the fresh code not yet taken. */
  method ShortenThenResolve(service: URLService, long_url: string, new_id: UUID,
                            created_at: Timestamp, updated_at: Timestamp, io: CacheIO)
    returns (code: Result<string, Error>, resolved: Result<string, Error>)
    requires service.url_repository.InMemory?
    requires UniqueShortCodes(service.url_repository.memory.url_pairs)
    requires ValidLongURLs(service.url_repository.memory.url_pairs)
    requires ShortURLLookup(service.url_repository.memory.url_pairs, ShortCode(new_id)).None?
    modifies service.url_repository.Repr()
    ensures code.Success? <==>
              old(FirstMatch(service.url_repository.memory.url_pairs, LongURLColumn, long_url)).Some? ||
              Validate(long_url).Pass?
    ensures (old(FirstMatch(service.url_repository.memory.url_pairs, LongURLColumn, long_url)).None? &&
             code.Success?) ==> code.value == ShortCode(new_id)
    ensures code.Success? ==> resolved == Success(long_url)
  {
    ghost var pairs := service.url_repository.memory.url_pairs;
    code := service.GetOrCreateShortURL(long_url, new_id, created_at, updated_at, io);
    match FirstMatch(pairs, LongURLColumn, long_url) {
      case Some(existing) =>
        var i :| 0 <= i < |pairs| && pairs[i] == existing && existing.long_url.value == long_url;
        LookupStoredCode(pairs, i);
        ValidIsNotEmpty(existing.long_url);
      case None =>
        if code.Success? {
          ResolveAfterAdd(pairs, URLEntity(new_id, ShortCode(new_id), LongURLValueObject(long_url), created_at, updated_at));
          ValidIsNotEmpty(LongURLValueObject(long_url));
        }
    }
    if code.Failure? {
      return code, code;
    }
    resolved := service.GetLongURL(code.value, io);
  }

  /** The same with the cache-aside repository: the code is resolved from
      the cache entry the creation wrote. */
  method ShortenThenResolveComposed(service: URLService, long_url: string, new_id: UUID,
                                    created_at: Timestamp, updated_at: Timestamp, io: CacheIO)
    returns (code: Result<string, Error>, resolved: Result<string, Error>)
    requires service.url_repository.Composed?
    requires io.get_ok && io.set_ok
    requires Validate(long_url).Pass?
    requires FindByLongURL(service.url_repository.composed.store, long_url) == Success(None)
    requires forall m :: m in service.url_repository.composed.store ==>
               m.id != new_id && m.short_url != ShortCode(new_id)
    modifies service.url_repository.Repr()
    ensures code == Success(ShortCode(new_id)) && resolved == Success(long_url)
  {
    var repo := service.url_repository.composed;
    var short_url := ShortCode(new_id);
    ghost var value := LongURLValueObject(long_url);
    ghost var m := URLModel(new_id, short_url, long_url, created_at, updated_at);
    assert NewLongURL(long_url) == Success(value);
    assert ConvertURLEntityToModel(URLEntity(new_id, short_url, value, created_at, updated_at)) == m;
    CommitFreshRow(repo.store, m);
    code := service.GetOrCreateShortURL(long_url, new_id, created_at, updated_at, io);
    ValidIsNotEmpty(value);
    assert CachedAnswer(repo.store, repo.cache, short_url, io) == Success(Some(long_url));
    resolved := service.GetLongURL(short_url, io);
  }

  /** With the cache-aside repository, asking for a long URL the table
      already holds returns that row's code, and resolving it gives the long
      URL back, under the table's constraints and a coherent, reachable cache. */
  method ReuseThenResolveComposed(service: URLService, long_url: string, new_id: UUID,
                                  created_at: Timestamp, updated_at: Timestamp, io: CacheIO)
    returns (code: Result<string, Error>, resolved: Result<string, Error>)
    requires service.url_repository.Composed?
    requires io.get_ok && io.set_ok
    requires service.url_repository.composed.Valid() && service.url_repository.composed.Coherent()
    requires FindByLongURL(service.url_repository.composed.store, long_url).Success? &&
             FindByLongURL(service.url_repository.composed.store, long_url).value.Some?
    modifies service.url_repository.Repr()
    ensures code == Success(old(FindByLongURL(service.url_repository.composed.store, long_url)).value.value.short_url)
    ensures resolved == Success(long_url)
  {
    var repo := service.url_repository.composed;
    ghost var e := FindByLongURL(repo.store, long_url).value.value;
    StoredRowLookup(repo.store, ConvertURLEntityToModel(e));
    CoherentCachedAnswer(repo.store, repo.cache, e.short_url, io);
    ValidIsNotEmpty(e.long_url);
    code := service.GetOrCreateShortURL(long_url, new_id, created_at, updated_at, io);
    resolved := service.GetLongURL(code.value, io);
  }

  /** Asking twice for the same long URL gives the same code, and the
      second call adds nothing, whatever UUID it draws. */
  method ShortenTwice(service: URLService, long_url: string, first_id: UUID, second_id: UUID,
                      created_at: Timestamp, updated_at: Timestamp, io: CacheIO)
    returns (first: Result<string, Error>, second: Result<string, Error>)
    requires service.url_repository.InMemory?
    modifies service.url_repository.Repr()
    ensures first.Success? ==> second == first
    ensures first.Success? ==>
              service.url_repository.memory.url_pairs ==
                old(service.url_repository.memory.url_pairs) +
                (if old(FirstMatch(service.url_repository.memory.url_pairs, LongURLColumn, long_url)).Some? then []
                 else [URLEntity(first_id, ShortCode(first_id), LongURLValueObject(long_url), created_at, updated_at)])
  {
    ghost var pairs := service.url_repository.memory.url_pairs;
    first := service.GetOrCreateShortURL(long_url, first_id, created_at, updated_at, io);
    if first.Success? && FirstMatch(pairs, LongURLColumn, long_url).None? {
      FindAfterAdd(pairs, URLEntity(first_id, ShortCode(first_id), LongURLValueObject(long_url), created_at, updated_at));
    }
    second := service.GetOrCreateShortURL(long_url, second_id, created_at, updated_at, io);
  }

  /** The same with the cache-aside repository. */
  method ShortenTwiceComposed(service: URLService, long_url: string, first_id: UUID, second_id: UUID,
                              created_at: Timestamp, updated_at: Timestamp, io: CacheIO)
    returns (first: Result<string, Error>, second: Result<string, Error>)
    requires service.url_repository.Composed?
    modifies service.url_repository.Repr()
    ensures first.Success? ==> second == first
    ensures first.Success? && old(FindByLongURL(service.url_repository.composed.store, long_url)).Success? &&
            old(FindByLongURL(service.url_repository.composed.store, long_url)).value.Some? ==>
              service.url_repository.composed.store == old(service.url_repository.composed.store)
    ensures first.Success? && old(FindByLongURL(service.url_repository.composed.store, long_url)) == Success(None) ==>
              service.url_repository.composed.store ==
                old(service.url_repository.composed.store) + [URLModel(first_id, ShortCode(first_id), long_url, created_at, updated_at)]
  {
    var repo := service.url_repository.composed;
    ghost var store := repo.store;
    first := service.GetOrCreateShortURL(long_url, first_id, created_at, updated_at, io);
    if first.Success? && FindByLongURL(store, long_url) == Success(None) {
      FindAfterCommit(store, URLModel(first_id, ShortCode(first_id), long_url, created_at, updated_at));
    }
    second := service.GetOrCreateShortURL(long_url, second_id, created_at, updated_at, io);
  }
}
