# url_shortener — a verified model of the shorten/resolve core

The service turns a long URL into a short code and resolves a short code back to its long URL.

- **Validation.** A long URL is held in a value object, and building one always validates it. Validation is an ordered chain of guards: empty or blank; longer than 2048 characters; no scheme; no domain; a scheme other than `http`/`https`.
- **Shortening.** `URLService.get_or_create_short_url` first reuses any pair already stored for the same long URL. Otherwise it draws a fresh UUID, keeps its low 48 bits, base-62 encodes them into the short code, and adds the new pair to the repository.
- **Resolving.** `URLService.get_long_url` looks the code up and raises `LongURLNotFoundException` when nothing is found.

There are three repositories:
- the in-memory one the tests use: a list, appended to and searched front to back;
- an older in-memory one, whose lookup returns the whole pair;
- the cache-aside `ComposedURLRepository`. It is modelled over a table-like store with unique `id` and `short_url`, plus a cache map. Its invariant is that the cache never disagrees with the store.

Converters map pairs to table rows and back. A small mediator dispatches commands to a list of handlers and queries to one handler.

The model targets Dafny 4.11. Modules, one per file:
- `Wrappers`: Option, Result, Outcome;
- `Exceptions`: the error datatype and its messages;
- `UrlParse`: the scheme/netloc split;
- `LongURLValue`;
- `Entities`;
- `MemoryRepository`;
- `DummyRepository`;
- `Models`: the table, its constraints and the statements run against it;
- `Converters`;
- `ComposedRepository`;
- `Base62`;
- `UrlService`;
- `Mediation`.

What is an input: the fresh UUID, both clock readings, and whether each cache call succeeds (`CacheIO`). Each of these is a parameter.

`urlparse` approximation: Python's `urllib.parse.urlparse` is approximated by `UrlParse.UrlSplit`. It follows the generic syntax of RFC 3986:
- the scheme is the letter-led run of `ALPHA / DIGIT / "+" / "-" / "."` before the first `:` (section 3.1), lower-cased;
- the netloc is the authority after `//`, up to the first `/`, `?` or `#` (section 3.2);
- as Python does, leading C0 controls and spaces are stripped first, and TAB, CR and LF are deleted.

Encoder assumption: the base-62 encoder is a third-party library. The model ASSUMES it uses the alphabet `0-9A-Za-z`, most significant digit first, and writes 0 as `"0"`. `Base62.Decode` is defined in the model as its inverse.

## Model

| member | source | states |
|---|---|---|
| UrlParse.UrlSplit | app/domain/value_objects/url.py:29 | the shape of the result: the scheme is empty or letter-led, made of scheme characters and lower-case; the netloc holds no `/`, `?`, `#` and no TAB/CR/LF (how it depends on the input: the `UrlParseFacts` rows) |
| UrlParse.SplitScheme | app/domain/value_objects/url.py:29 | there is a scheme exactly when the text before the first `:` is non-empty, letter-led and made of scheme characters; then the scheme is that text lower-cased and the rest is what follows the `:`; otherwise the input is left whole |
| UrlParse.RemoveUnsafeConcat | app/domain/value_objects/url.py:29 | deleting TAB/CR/LF from a concatenation deletes from each part, keeping the order |
| UrlParse.RemoveUnsafeChar | app/domain/value_objects/url.py:29 | a single character is deleted exactly when it is TAB, CR or LF, and kept otherwise |
| UrlParse.LStripOfControls | app/domain/value_objects/url.py:29 | a leading run of C0 controls and spaces is stripped entirely |
| UrlParse.LStripConcat | app/domain/value_objects/url.py:29 | once stripping stops inside a prefix, everything after that prefix is kept |
| UrlParseFacts.UrlSplitIgnoresLeadingControls | app/domain/value_objects/url.py:29 | leading C0 controls and spaces do not change the split |
| UrlParseFacts.UrlSplitIgnoresUnsafe | app/domain/value_objects/url.py:29 | a TAB, CR or LF anywhere in the input does not change the split |
| UrlParseFacts.UrlSplitSchemeOfClean | app/domain/value_objects/url.py:29-36 | on input that needs no cleaning, there is a scheme exactly when the text before the first `:` is a letter followed by scheme characters, and it is that text lower-cased; so `1http://a` and `a_b:c` have none |
| UrlParse.SplitNetloc | app/domain/value_objects/url.py:29 | after `//`, the netloc is the longest run before `/`, `?`, `#`; without `//` it is empty |
| UrlParse.LStripControlOrSpace | app/domain/value_objects/url.py:29 | the result is a suffix of the input, everything removed is a control or space, and it does not start with one |
| UrlParse.RemoveUnsafe | app/domain/value_objects/url.py:29 | no TAB/CR/LF is left, and an input without them is unchanged |
| UrlParse.FindColon | app/domain/value_objects/url.py:29 | gives the first `:` and only when one exists |
| UrlParse.AuthorityLength | app/domain/value_objects/url.py:29 | the length of the longest prefix free of `/`, `?`, `#` |
| UrlParse.Lower | app/domain/value_objects/url.py:29 | lower-cases ASCII letters and keeps every other character, keeping the length (exact on the scheme characters it is applied to) |
| LongURLValue.Validate | app/domain/value_objects/url.py:12-50 | the guards in source order: blank gives EmptyURLError first; over 2048 gives URLTooLongError(length, 2048), exactly when non-blank and over, so length 2048 is accepted by that guard; no scheme; blank netloc; scheme not http/https naming it; Pass iff all guards hold |
| LongURLValue.IsBlankMeaning | app/domain/value_objects/url.py:20-21 | a value is blank (`not s or not s.strip()`) exactly when every character is whitespace |
| LongURLValue.UnsupportedSchemeIsRejected | app/domain/value_objects/url.py:45-50 | a URL with a host and a lower-case scheme other than http/https is rejected, naming the scheme |
| LongURLValue.NewLongURL | app/domain/value_objects/base.py:20-21 | construction succeeds iff validation passes, holds the input verbatim, and otherwise raises validation's own error |
| LongURLValue.AsGenericType | app/domain/value_objects/url.py:52-53 | the plain string rebuilds the same value object |
| LongURLValue.ValidateAbsoluteURL | app/domain/value_objects/url.py:19-50 | validation accepts `http(s)://host/tail` with a plain non-blank host |
| LongURLValue.NoColonIsRejected | app/domain/value_objects/url.py:31-36 | a value within the limits with no `:` is rejected for a missing scheme |
| LongURLValue.ExamplePageIsValid | app/domain/value_objects/url.py:19-50 | validation accepts `https://example.com/page` |
| LongURLValue.FtpIsRejected | app/tests/application/test_url.py:123-130 | `ftp://example.com` is rejected with UnsupportedScheme("ftp") |
| LongURLValue.BareHostIsRejected | app/tests/application/test_url.py:114-119 | `example.com` is rejected with MissingScheme |
| LongURLValue.ShortestHttpURLIsValid | app/domain/value_objects/url.py:19-50 | validation accepts `http://a` |
| Exceptions.NotFoundMessage | app/domain/exceptions/url.py:12 | the message is the fixed prefix followed by the short code |
| Exceptions.ReasonText | app/domain/value_objects/url.py:35-49 | the unsupported-scheme reason quotes the scheme after its fixed prefix |
| Entities.FirstIndex | app/infrastructure/database/repositories/url/memory.py:19-21 | none iff no pair matches the column; otherwise the index of the first match |
| Entities.FirstMatch | app/infrastructure/database/repositories/url/memory.py:28-32 | none iff no pair matches; otherwise the first matching pair |
| Entities.FirstIndexAppend | app/infrastructure/database/repositories/url/memory.py:14-15 | appending keeps an earlier first match, and otherwise the new pair is the first match exactly when it matches |
| MemoryRepository.ShortURLLookup | app/infrastructure/database/repositories/url/memory.py:17-24 | none iff no pair has the code; otherwise the long URL of the first pair that has it |
| MemoryRepository.DummyInMemoryURLRepository.constructor | app/infrastructure/database/repositories/url/memory.py:12 | a new repository holds no pairs, as `field(default_factory=list)` gives |
| MemoryRepository.DummyInMemoryURLRepository.Add | app/infrastructure/database/repositories/url/memory.py:14-15 | appends the pair at the end, duplicates allowed, earlier pairs untouched |
| MemoryRepository.DummyInMemoryURLRepository.GetByShortURL | app/infrastructure/database/repositories/url/memory.py:17-24 | the scan answers `ShortURLLookup` and changes nothing |
| MemoryRepository.DummyInMemoryURLRepository.GetByLongURL | app/infrastructure/database/repositories/url/memory.py:26-34 | the scan answers the first pair whose long URL matches, none when there is none, and changes nothing |
| MemoryRepository.AddKeepsUniqueShortCodes | app/infrastructure/database/repositories/url/memory.py:14-15 | adding a pair under a code no pair holds keeps the codes unique |
| MemoryRepository.AddKeepsValidLongURLs | app/infrastructure/database/repositories/url/memory.py:14-15 | adding a pair with a validated long URL keeps every stored long URL valid |
| MemoryRepository.LookupStoredCode | app/infrastructure/database/repositories/url/memory.py:17-22 | with unique codes, each stored pair's code resolves to that pair's long URL |
| MemoryRepository.ResolveAfterAdd | app/infrastructure/database/repositories/url/memory.py:14-22 | after adding a pair whose code was absent, the code resolves to its long URL |
| MemoryRepository.AddKeepsResolvedCodes | app/infrastructure/database/repositories/url/memory.py:14-22 | adding never changes the answer for a code already present |
| MemoryRepository.FindAfterAdd | app/infrastructure/database/repositories/url/memory.py:14-34 | after adding a pair whose long URL was absent, the lookup finds that pair |
| MemoryRepository.AddKeepsFoundURLs | app/infrastructure/database/repositories/url/memory.py:26-34 | adding never changes the answer for a long URL already present |
| DummyRepository.DummyInMemoryURLRepository.constructor | app/infrastructure/database/repositories/dummy/url.py:12 | a new repository holds no pairs, as `field(default_factory=list)` gives |
| DummyRepository.DummyInMemoryURLRepository.Add | app/infrastructure/database/repositories/dummy/url.py:14-15 | appends the pair, earlier pairs untouched |
| DummyRepository.DummyInMemoryURLRepository.GetByShortURL | app/infrastructure/database/repositories/dummy/url.py:17-25 | the scan answers the first pair with the code, none when there is none, and changes nothing |
| DummyRepository.AgreesWithMemoryRepository | app/infrastructure/database/repositories/dummy/url.py:17-25 | the older lookup finds the pair whose long URL the newer lookup answers |
| DummyRepository.FindAfterAdd | app/infrastructure/database/repositories/dummy/url.py:14-23 | after adding a pair with a new code, the lookup returns that pair |
| Models.Select | app/infrastructure/database/repositories/url/composed.py:39 | the selected rows are exactly the table's rows with that column value, and none iff no row has it |
| Models.SelectAppend | app/infrastructure/database/repositories/url/composed.py:28-39 | selecting after an insert adds the new row at the end exactly when it matches |
| Models.ScalarOneOrNone | app/infrastructure/database/repositories/url/composed.py:41 | no row gives none; one row gives it; more raise MultipleResultsFound |
| Models.ShortURLSelectsAtMostOne | app/infrastructure/database/models/url.py:14 | under the unique constraint a short code selects at most one row |
| Models.Commit | app/infrastructure/database/repositories/url/composed.py:27-29 | an over-length column value raises DataError; a taken id or short code raises IntegrityError; otherwise the new row's keys are fresh |
| Models.CommitFreshRow | app/infrastructure/database/models/url.py:13-14 | a row within the column lengths whose keys are new commits |
| Models.CommitKeepsUniqueKeys | app/infrastructure/database/models/base.py:34 | a successful commit keeps the primary key and the unique short code holding |
| Converters.ConvertURLEntityToModel | app/infrastructure/database/converters/url.py:6-13 | every field is copied, the long URL as its plain string |
| Converters.ConvertURLModelToEntity | app/infrastructure/database/converters/url.py:16-23 | succeeds iff the stored long URL validates, else raises validation's error; a converted row maps back to itself |
| Converters.EntityRoundTrip | app/infrastructure/database/converters/url.py:6-23 | entity to row to entity preserves every field |
| ComposedRepository.StoreLookup | app/infrastructure/database/repositories/url/composed.py:38-41 | the only error the store-only lookup raises is MultipleResultsFound (its full meaning: the next row) |
| ComposedRepository.StoreLookupMeaning | app/infrastructure/database/repositories/url/composed.py:38-48 | the store-only lookup is none iff no row has the code, answers a row's long URL, and raises MultipleResultsFound exactly when several rows do |
| ComposedRepository.CachedAnswer | app/infrastructure/database/repositories/url/composed.py:33-48 | a failed cache read raises; a non-empty cached value is the answer; on a miss (no key, or an empty value) the answer is the store-only lookup, except that a row found after a failed write-back raises CacheError |
| ComposedRepository.FindByLongURL | app/infrastructure/database/repositories/url/composed.py:50-58 | none iff no row holds the long URL; MultipleResultsFound iff several do; a found entity holds it, is valid and maps to a stored row; any other error is validation's |
| ComposedRepository.FindAfterCommit | app/infrastructure/database/repositories/url/composed.py:21-58 | after committing a row for a new valid long URL, the lookup finds exactly that row's entity |
| ComposedRepository.StoreLookupAfterCommit | app/infrastructure/database/repositories/url/composed.py:27-41 | after a commit the committed code finds its long URL and every other code's answer is unchanged |
| ComposedRepository.AddKeepsCoherence | app/infrastructure/database/repositories/url/composed.py:21-31 | a commit keeps the cache coherent whether or not the cache write then succeeds |
| ComposedRepository.RepopulateKeepsCoherence | app/infrastructure/database/repositories/url/composed.py:43-46 | writing the store's value back keeps the cache coherent |
| ComposedRepository.CoherentHit | app/infrastructure/database/repositories/url/composed.py:34-36 | under coherence, a cached value is what the store holds |
| ComposedRepository.CoherentCachedAnswer | app/infrastructure/database/repositories/url/composed.py:33-48 | under coherence, with the cache reachable, the cache-aside lookup answers what a store-only lookup does |
| ComposedRepository.StoredRowLookup | app/infrastructure/database/repositories/url/composed.py:38-44 | under the table's constraints, a stored row's code looks up that row's long URL |
| ComposedRepository.UniqueKeysLookupSucceeds | app/infrastructure/database/models/url.py:14 | under the unique constraint the store lookup never raises |
| ComposedRepository.ComposedURLRepository.constructor | app/infrastructure/database/repositories/url/composed.py:16-19 | the repository holds exactly the store and cache it is given |
| ComposedRepository.ComposedURLRepository.Add | app/infrastructure/database/repositories/url/composed.py:21-31 | a refused commit changes nothing; otherwise the row is appended and then the cache written, or CacheError raised with the row already committed; keeps the constraints and coherence |
| ComposedRepository.ComposedURLRepository.GetByShortURL | app/infrastructure/database/repositories/url/composed.py:33-48 | answers `CachedAnswer`, leaves the store alone, writes the cache back only on a store hit, and keeps coherence |
| ComposedRepository.ComposedURLRepository.GetByLongURL | app/infrastructure/database/repositories/url/composed.py:50-58 | answers `FindByLongURL` on the store alone; as a function it writes nothing, and its answer does not depend on the cache |
| Base62.DigitValue | app/domain/services/url.py:28 | a decoded digit is below 62 and encodes back to the character |
| Base62.Encode | app/domain/services/url.py:28 | at least one character, all from the alphabet |
| Base62.DecodeEncode | app/domain/services/url.py:28 | decoding undoes encoding |
| Base62.EncodeInjective | app/domain/services/url.py:28 | distinct numbers get distinct codes |
| Base62.EncodeLength | app/domain/services/url.py:28 | a number below 62^k has at most k digits |
| Base62.NoLeadingZero | app/domain/services/url.py:28 | only 0 is written with a leading `0` |
| Base62.LengthBelow48Bits | app/domain/services/url.py:25-28 | a 48-bit number has one to nine digits |
| UrlService.ShortCode | app/domain/services/url.py:22-28 | the code has one to nine characters and decodes to the UUID's low 48 bits |
| UrlService.ShortCodeCollision | app/domain/services/url.py:25-28 | two UUIDs share a code exactly when their low 48 bits agree |
| UrlService.Resolve | app/domain/services/url.py:41-46 | a missing or empty answer raises LongURLNotFoundException(code); a lookup error propagates; otherwise the answer is returned |
| UrlService.URLService.constructor | app/domain/services/url.py:13-14 | the service holds exactly the repository it is given |
| UrlService.URLService.GetOrCreateShortURL | app/domain/services/url.py:16-38 | an existing pair's code is returned with nothing added; an invalid URL raises its validation error with nothing changed; otherwise exactly one pair is added, under the fresh id and its code, and the code returned (per backend, with the commit and cache outcomes); it keeps stored long URLs valid, keeps in-memory codes unique when the fresh code is new, and keeps the table's constraints and cache coherence |
| UrlService.URLService.GetLongURL | app/domain/services/url.py:40-46 | the repository's lookup passed through `Resolve`, per backend, with the repository's own effects |
| UrlService.ShortenThenResolve | app/domain/services/url.py:16-46 | with the in-memory repository, unique codes, valid stored URLs and a fresh code: creation succeeds exactly when a pair is reused or the URL is valid, a new pair gets the fresh code, and resolving the code returned gives the URL back in both branches |
| UrlService.ShortenThenResolveComposed | app/domain/services/url.py:16-46 | with the cache-aside repository, a new valid URL under fresh keys gets the fresh code, which resolves back to the URL |
| UrlService.ReuseThenResolveComposed | app/domain/services/url.py:16-46 | with the cache-aside repository, its constraints and a coherent cache, a URL already stored returns its row's code, which resolves back to the URL |
| UrlService.ShortenTwice | app/tests/application/test_url.py:37-49 | the second call returns the first call's code and adds nothing |
| UrlService.ShortenTwiceComposed | app/domain/services/url.py:17-20 | the same idempotence with the cache-aside repository |
| Mediation.HandlersFor | app/application/mediator.py:31-61 | a type never registered has no handlers |
| Mediation.WithCommandHandlers | app/application/mediator.py:41-46 | the new handlers go after the existing ones, a new type gets an entry, and other types keep theirs |
| Mediation.RegisterInSequence | app/application/mediator.py:46 | two registrations in a row equal one of both batches in order |
| Mediation.Mediator.constructor | app/application/mediator.py:30-38 | a new mediator has no command handlers (an empty `defaultdict(list)`) and no query handlers (an empty `dict`) |
| Mediation.Mediator.RegisterCommand | app/application/mediator.py:41-46 | extends the type's handler list and leaves the query table alone |
| Mediation.Mediator.RegisterQuery | app/application/mediator.py:48-53 | replaces the type's query handler and leaves the command table alone |
| Mediation.Mediator.HandleCommand | app/application/mediator.py:55-63 | raises CommandHandlersNotRegistered iff the type has no handlers; otherwise one result per handler in registration order |
| Mediation.Mediator.HandleQuery | app/application/mediator.py:65-72 | raises QueryHandlerNotRegistered when no handler is registered; otherwise that handler's result |

## Left out

- Thin handlers: the command and query handlers (app/application/commands/url.py:21-25, app/application/queries/url.py:21-25) only forward to the service, so they are modelled as direct calls to `URLService` and have no members of their own.
- Concurrency: every call is sequential and atomic. The async interleaving between the lookup and `add`, where two concurrent creations race, is not modelled.
- Real database and cache I/O: these are replaced by a sequence of rows and a map. Whether each cache call succeeds is an input (`CacheIO`). Database connection failures are not modelled.
- Foreign functions: `uuid4` and `datetime.now` become parameters.
- Base62: `base62.encode` is an assumed definition (see above), not the library.
- UrlParse.UrlSplit: its own contract states only the shape of the result. How the split depends on the input is stated by the `UrlParseFacts` lemmas and `SplitScheme`'s contract, kept apart so that the many proofs that mention validation do not carry it.
- `urlparse` details: Python's bracketed-IPv6 `ValueError`, its NFKC netloc check, and other `urlparse` details beyond the scheme/netloc split are not modelled.
- LongURLValue.AsGenericType: the round trip is stated only for a valid value object (`IsValid`). Validity is a predicate, not a type, so the model can also build an unvalidated value object. The source never does, since construction always validates.
- Models.Commit: when a row is both over-length and a duplicate, the model reports DataError. Which error the database reports first is a modelling choice.
- Entity equality: the source compares entities by `id`. The model uses structural equality, and lookups identify pairs by `short_url` or long URL only.
- Entity field names: app/domain/entities/url.py:8-9 declares `shortURL`/`longURL`. Every user of the entity uses `short_url` and a value-object `long_url`, so the model follows the users.
- Repository interface: app/domain/interfaces/repositories/url.py is not part of this model. The model uses the interface the service actually calls: `add`, lookup by short code giving a string, lookup by long URL giving a pair.
- Error message strings: only the not-found message (app/domain/exceptions/url.py:12) and the validation reasons are modelled. The mediator's exception texts are not.
- Mediator: a handler's own effects are not modelled. Running one is a pure function the caller supplies, so it always returns a result. In the source a handler that raises stops `handle_command` there, and the later handlers do not run (app/application/mediator.py:63). The model does not capture this.
- In-memory round trip: the in-memory list accepts duplicate short codes. The round trip `UrlService.ShortenThenResolve` is therefore proved under unique codes, an invariant the service keeps whenever each drawn code is new. With duplicates, a code resolves to the first pair holding it.
- Out of scope: the HTTP layer, the DI container and test wiring, the database and cache clients, migrations, settings, load_test.py, and the stale imports in app/infrastructure/database/repositories/dummy/__init__.py.
