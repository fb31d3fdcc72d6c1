# HTTP response cache: the decision engine, in Dafny

This project models the core of `lsmoura/cache`, a Go library that sits in front of an
HTTP client and caches GET responses in a pluggable key-value store. The core is
`Cache.Do`. For a GET it derives a key and reads the stored entry. It then weighs that
entry's freshness against three per-request override flags carried on the request's
context (`ignoreCache`, `ignoreExpired`, `onlyCached`). The result is one of these: a hit,
a stale entry served as is, a miss error, a conditional revalidation (`If-None-Match` /
`304 Not Modified`, sections 13.1.2 and 15.4.5 of RFC 9110), or a full fetch that is
written back.

`Do` is a pure function here:

    Do(cache, request, provider, faults, env, reply) -> Outcome

- The request carries its method, URL string, headers and context.
- The provider is the map-backed reference provider from `memoryprovider`.
- `faults` holds the communication failures a networked provider could report for one
  call. For the in-process map it is `NoFaults`.
- `env` holds the entry codec, the date parser and the current instant.
- `reply` is the transport's answer.

The `Outcome` holds the returned response or error, the provider state afterwards, the
provider calls in order (with keys, values and expiry hints), the request handed to the
transport (if any) and the stat tag.

Modules follow the Go files:

- `Errors` covers `err.go`, plus `errors.Is` over `%w` wrapping.
- `Contexts` covers `context.go`.
- `Entries` covers `entry.go`.
- `Keys` covers `keygenerator.go`.
- `Providers` covers `provider.go`.
- `MemoryProvider` covers `memoryprovider/provider.go`.
- `Cache` covers `cache.go`.
- `Http` and `Wrappers` hold the net/http types and the Option/Result types they need.
- `CacheProperties` states what one call does, path by path.
- `Scenarios` states what successive calls sharing one store do: the behaviours the
  repository's tests exercise, for all inputs of that shape.

Some modelling choices:

- Header names are exact, case-sensitive strings. The engine looks up `"ETag"`,
  `"Expires"` and `"Last-Modified"` literally.
- A request whose method is not exactly `"GET"` bypasses the cache, even the empty
  method that net/http would send as GET.

## Model

| member | source | states |
|---|---|---|
| Errors.IsUnwrappedTargetIffRoot | cache.go:150-152 | `errors.Is` against a sentinel matches exactly when the sentinel is at the bottom of the wrapping chain; wrapping neither creates nor hides a match |
| Errors.SentinelsDistinct | err.go:6-8 | the three sentinels are distinct error kinds: none matches another under `errors.Is` |
| Contexts.WithIgnoreExpired | context.go:13-28 | needs a non-nil parent; the derived context reads back the value given, true or false, and the other two flags read as in the parent |
| Contexts.WithIgnoreCache | context.go:30-45 | needs a non-nil parent; the derived context reads back the value given, and the other two flags read as in the parent |
| Contexts.WithOnlyCached | context.go:47-60 | needs a non-nil parent; the derived context reads back the value given, and the other two flags read as in the parent |
| Contexts.KeysDistinct | context.go:8-10 | the three context keys are distinct, so no flag aliases another |
| Contexts.UnsetKeyHasNoValue | context.go:23-26 | a key never set anywhere along the context chain has no value, whatever unrelated layers lie on top |
| Contexts.UnsetFlagsReadFalse | context.go:19-28 | each of the three readers returns false when its flag was never set along the chain |
| Contexts.NilReadsFalse | context.go:20-22 | every reader returns false for a nil context |
| Contexts.DerivedContextShadows | context.go:13-17 | setting yields a new context distinct from its parent; re-setting on the derived context shadows the earlier value |
| Entries.AsResponse | entry.go:17-30 | the reconstructed response has the entry's status and body verbatim, `ContentLength` equal to the body length, and exactly the entry's header names, each mapped to a one-element list holding the stored value |
| Entries.MissingExpiresIsExpired | entry.go:34-37 | an entry without an `Expires` header is expired at every instant |
| Entries.UnparsableExpiresIsExpired | entry.go:39-42 | an `Expires` value the RFC 1123 date parser rejects makes the entry expired (fail-closed) |
| Entries.ExpiredIffBeforeNow | entry.go:44 | with a parsed expiry instant, the entry is expired exactly when that instant is strictly before now; at the instant itself it is fresh |
| Entries.FreshnessReadsOnlyExpires | entry.go:33-45 | two entries agreeing on the `Expires` header agree on freshness, whatever their time stamp, status, body or other headers |
| Entries.ExpiryIsPermanent | entry.go:44 | an expired entry stays expired as the clock moves forward |
| Keys.DefaultKeyIsUrl | keygenerator.go:5-7 | the default key is the URL string itself: two requests share a key exactly when their URL strings are equal (no normalisation) |
| MemoryProvider.New | memoryprovider/provider.go:13-17 | a new provider is initialised and holds no values |
| MemoryProvider.Get | memoryprovider/provider.go:19-29 | fails exactly when uninitialised; otherwise answers per the provider contract: the held value, or "not found" without an error |
| MemoryProvider.Set | memoryprovider/provider.go:31-37 | on an initialised provider never fails and makes the key hold the value, leaving the other keys; on an uninitialised one fails and stores nothing |
| MemoryProvider.NewIsEmpty | memoryprovider/provider.go:13-29 | every `Get` on a new provider reports "not found" with no error |
| MemoryProvider.GetAfterSet | memoryprovider/provider.go:19-37 | `Get` after `Set` on the same key returns the bytes that were set |
| MemoryProvider.SetLeavesOtherKeys | memoryprovider/provider.go:35 | `Set` changes its own key only; every other key reads as before |
| MemoryProvider.UninitializedFails | memoryprovider/provider.go:20-34 | on an uninitialised provider both `Get` and `Set` fail and nothing is stored |
| MemoryProvider.ExpiryIgnored | memoryprovider/provider.go:31 | the expiry argument changes nothing, so values never expire from the store |
| Cache.ProviderGet | provider.go:9-11 | a reachable provider answers `Get` without error; "not found" is an absent value, never an error; a found value is the one held |
| Cache.ProviderSet | provider.go:13-14 | a `Set` without error makes the key hold the value; an error is taken to leave the store as it was (see Left out) |
| Cache.Key | cache.go:118-123 | with no custom generator the key is the default key; otherwise it is the generator's output, verbatim |
| Cache.LookupEntry | cache.go:54-67 | a failed `Get` is an error; no value, a zero-length value or bytes that do not decode are "no entry"; otherwise the decoded entry |
| Cache.Read | cache.go:53-76 | a `Get` error is returned wrapped and is never a miss; the expiry sentinels come back only with an expired entry; an expired entry always comes back with the sentinel `ignoreExpired` selects; a fresh entry comes back without error; no sentinel ever comes without its entry |
| Cache.ReadStepOf | cache.go:149-164 | the branch on `read`'s result gives up with the error exactly when there is an error and either no entry came with it or it matches neither sentinel, returning that error, and it agrees with the branch as written on every result in which a sentinel comes with its entry |
| Cache.ProviderSentinelsMisread | cache.go:149-157 | a `Get` error wrapping `ErrCacheExpiryIgnored` makes the as-written branch panic, and one wrapping `ErrCacheExpired` makes it fetch with no entry; the engine's branch returns both errors |
| Cache.Write | cache.go:78-90 | writes the encoded entry under the key with expiry hint zero; a failure is reported wrapped and leaves the store unchanged |
| Cache.FirstValuesAsWritten | cache.go:107-109 | the collapse as written: every header name mapped to its first value, defined only when every name has a value |
| Cache.EmptyValueListBreaksStore | cache.go:108 | a header map holding a name with no values is outside the as-written collapse's domain; the corrected collapse drops that name |
| Cache.FirstValues | cache.go:107-109 | the collapse the engine uses keeps exactly the names that have a value, each mapped to its first value, and agrees with the as-written collapse wherever that is defined |
| Cache.Store | cache.go:92-116 | an unreadable body fails with nothing written; otherwise it writes the entry built from status, body and first header values under the key, and returns it exactly when the write succeeded |
| Cache.Forward | cache.go:135-137 | the non-GET path returns the transport's response or error untouched |
| Cache.Conditional | cache.go:175-181 | `If-None-Match` is set to the carried entry's non-empty "ETag" value, verbatim, replacing any earlier value; every other header is untouched; with no such tag the request is unchanged |
| Cache.NotModified | cache.go:200-210 | the 304 answer keeps the transport's status, length and other headers, takes the entry's `Expires`/`Last-Modified` over its own, and carries the entry's bytes as its body |
| Cache.Fetch | cache.go:175-221 | the request sent is the conditional one; at most one write, under the call's key with hint zero; the store changes at no other key; every error is rooted in the 304 inconsistency, the provider or an outside failure |
| Cache.AfterRead | cache.go:167-173 | with `onlyCached` there is no transport call and no write, tag `ignored_check`, and the result is `ErrCacheMiss` or the carried entry; otherwise the call proceeds to the fetch |
| Cache.Do | cache.go:125-222 | every provider call uses the call's one key, read first, at most one read and one write, hint zero; non-GET touches no provider; `ignoreCache` never reads it; no write without a transport call; only the call's key can change; no expiry sentinel ends an error chain; `ErrCacheMiss` only comes unwrapped from the `onlyCached` branch with no entry obtained |
| CacheProperties.NonGetIsForwarded | cache.go:135-137 | a non-GET goes to the transport exactly once, its response or error comes back untouched, with no provider call and no tag |
| CacheProperties.FreshEntryIsHit | cache.go:159-161 | a fresh stored entry without `ignoreCache` is returned reconstructed, tagged `hit`, with one read, no transport call and no write |
| CacheProperties.IgnoreCacheAlwaysFetches | cache.go:144-145 | with `ignoreCache` the provider is not read, exactly one transport call carries the unchanged request, a 304 becomes the "no cached entry" error with no write, and any other readable reply is written back |
| CacheProperties.IgnoreCacheIgnoresStore | cache.go:144-148 | with `ignoreCache` the provider is never read, also when `onlyCached` is set; two GETs agreeing on key, headers and `onlyCached` get the same result, provider calls and tag whatever is stored and whatever their `ignoreExpired` flags, and the same store afterwards from the same store |
| CacheProperties.IgnoreExpiredServesStale | cache.go:152-154 | an expired entry under `ignoreExpired` (without `ignoreCache`) is returned as is, tagged `ignored_expiry`, with no transport call and no write, whatever `onlyCached` says |
| CacheProperties.NothingStoredFetches | cache.go:162-164 | with no usable stored entry (and neither `ignoreCache` nor `onlyCached`) the call fetches once with the request as given, tagged `miss`, whatever `ignoreExpired` says |
| CacheProperties.OnlyCachedNeverFetches | cache.go:167-173 | with `onlyCached` the transport is never called and nothing is written |
| CacheProperties.OnlyCachedMiss | cache.go:167-171 | with `onlyCached` and no entry obtained, including every call that also sets `ignoreCache`, the result is `ErrCacheMiss` itself, tagged `ignored_check` |
| CacheProperties.OnlyCachedServesExpired | cache.go:167-173 | with `onlyCached` and an expired entry obtained, that entry is returned, tagged `ignored_check` |
| CacheProperties.TransportCalledIffReachesFetch | cache.go:142-184 | a GET reaches the transport exactly when the read step hands over: no `onlyCached`, and the read skipped, empty, or expired without `ignoreExpired` |
| CacheProperties.RevalidationSendsETag | cache.go:175-181 | an expired carried entry with a non-empty "ETag" makes the outbound request's `If-None-Match` exactly that value, with no other header changed |
| CacheProperties.NoTagNoIfNoneMatch | cache.go:175-181 | without a carried entry holding a non-empty "ETag", the request goes out as given |
| CacheProperties.NotModifiedServesStoredBody | cache.go:192-212 | a 304 to a revalidation returns status 304 with the stored bytes and the entry's freshness headers, re-writes the unchanged entry under the same key, and succeeds even when that write fails |
| CacheProperties.NotModifiedWithoutEntryFails | cache.go:194-199 | a 304 with no carried entry is an error and nothing is written |
| CacheProperties.FullFetchStoresNewEntry | cache.go:215-221 | any other status is stored as a new entry under the call's key and returned reconstructed, tagged `miss`, `expired` or `ignored`; an unreadable body or a failed write fails the call and leaves the store unchanged |
| CacheProperties.TransportErrorWritesNothing | cache.go:184-188 | a transport error fails the call, wrapped, and nothing is written |
| CacheProperties.GetErrorAborts | cache.go:155-157 | a `Get` error aborts the call with that error wrapped, before any transport call and with no tag |
| CacheProperties.ExpirySentinelsNeverEscape | cache.go:150-155 | no error returned by `Do` matches either expiry sentinel under `errors.Is` |
| CacheProperties.CacheMissOnlyFromOnlyCached | cache.go:167-171 | an error matching `ErrCacheMiss` under `errors.Is` is the sentinel itself, from a GET with `onlyCached` that obtained no entry (read skipped or nothing usable stored) and made no transport call |
| CacheProperties.FirstValuesUndoAsResponse | cache.go:107-109 | collapsing reconstructed headers to their first values gives back the entry's header map exactly |
| CacheProperties.TagNamesDistinct | cache.go:31-38 | the six logged tag names are pairwise distinct |
| Scenarios.DoEach | cache.go:125-222 | a run of calls makes at most one transport call per request and keeps the provider's initialisation |
| Scenarios.RepeatedHitsNeverFetch | cache_test.go:83-93 | while a fresh entry is stored, any number of GETs for its key without `ignoreCache` make no transport call and leave the store unchanged |
| Scenarios.IgnoreCacheFetchesEveryTime | cache_test.go:95-106 | every GET with `ignoreCache` and without `onlyCached` adds exactly one transport call, however many calls are made and whatever is stored |
| Scenarios.StoredEntryReadsBack | cache.go:101-115 | with a round-tripping codec, the next read finds exactly the entry a full fetch stored, under the same key |
| Scenarios.FetchThenHit | cache_test.go:66-93 | two plain GETs sharing a key: the first fetches and stores, the second, made no later than the stored expiry, returns the first response's status and body; one transport call in all |
| Scenarios.ConstantKeyCollapsesUrls | cache_test.go:206-220 | under a constant key generator, GETs of two different URLs make exactly one transport call, the second being a hit |
| Scenarios.IgnoreExpiredFetchesOnceThenServesStale | cache_test.go:108-124 | with `ignoreExpired` and nothing stored the first call fetches once; the second gets the stored expired response without a transport call |
| Scenarios.ETagRoundTrip | cache_test.go:137-174 | after storing an expired response with a non-empty "ETag", the next plain GET sends `If-None-Match` holding exactly that tag |
| Scenarios.NotModifiedAfterStore | cache_test.go:223-271 | after storing an expired response, a 304 to the next plain GET returns status 304 with the stored body, and the entry stays readable |

## Left out

- Logging (`logging.go`, the zerolog event in `Do`): observability only. Only the stat tag is kept, as an output of `Do`.
- The `http.DefaultClient` fallback (cache.go:46-51): the transport is not modelled. Its reply is an input of `Do`.
- The `New(provider)` constructor (cache.go:40-44): the provider's state is an input and output of `Do`, not a field.
- Cache.Write: does not model the `json.Marshal` failure branch (cache.go:79-82). The codec is a pair of total functions, and the scenarios assume only that decoding an encoding gives the entry back and that encodings are non-empty.
- The clock and date parsing: one integer instant stands for every `time.Now()` in a call. The RFC 1123 parser is a function parameter. `Ts` is recorded but never read.
- Body streams: bodies are byte sequences, and a body may fail to read with an outside error. Closing and the unclosed 304 body are not modelled, nor is the response's `Request` back-pointer.
- The `fmt.Println` on an undecodable entry (cache.go:65), and all error-message text. Errors are kinds plus wrapping sites.
- Errors from the transport, a body reader or a networked provider are opaque outside errors. A transport that returns one of this package's own sentinels is not modelled.
- `redisprovider`: replaced by the `Faults` input, which lets `Get` or `Set` report a failure of the storage service.
- Cache.ProviderSet: assumes a failed `Set` never wrote anything. A networked provider can report an error after the server applied the write, such as a read timeout (redisprovider/provider.go:43-47). So the claims that a failed write leaves the store unchanged (`Cache.Write`, `Cache.Store`, `CacheProperties.FullFetchStoresNewEntry`) hold for the in-process map but not for such a provider.
- Cache.Do: `Do` sets `If-None-Match` on the caller's own request (cache.go:179), so after the call the caller's request, and the response's `Request` back-pointer, carry the tag. The model treats requests as values and returns the changed request only as `sent`.
- Cache.Read: a custom provider's `Get` error is an opaque outside error, so it never wraps this package's sentinels. `CacheProperties.ExpirySentinelsNeverEscape` rests on that. The finding below shows what such a provider does to `Do` as written.
- Go's header-name canonicalisation: names are compared exactly, as the engine looks them up. net/http canonicalises a received `ETag` header to `Etag`, so over a real client the literal `"ETag"` lookup at cache.go:177 would not see it. That effect is outside the model.
- Header maps are never nil. `Header.Set` on a nil response header in the 304 path would panic in Go.
- Transport responses and their bodies are never nil. In Go, a reply with a nil `Body`, such as a bare `&http.Response{StatusCode: 404}`, panics in `io.ReadAll` (cache.go:96), and a transport returning a nil response with a nil error panics at cache.go:190. The model instead stores and returns such a reply as an ordinary entry.
- Cache.Forward: a transport answer holding both a response and an error is modelled as the error alone. Go's non-GET path (cache.go:136) returns both, as `http.Client.Do` does when a redirect check fails. The GET path drops the response in that case (cache.go:185-187), as the model does.
- CacheProperties.NonGetIsForwarded: the same limit. When the transport answers with both a response and an error, the lemma speaks only of the error, while Go's non-GET path returns the pair.
- Concurrency: the code has none, and there is no request de-duplication.

## Findings

| source | as written | input that shows it | evidently intended | confidence | as-written member | corrected member |
|---|---|---|---|---|---|---|
| cache.go:107-109 | `e.Headers[k] = v[0]` for every header name | a transport reply whose header map holds a name with an empty value list, such as `{"X-Empty": []}`: indexing `v[0]` panics | keep the first value of each name that has one and skip names without values | medium (needs a custom transport; net/http never builds empty lists); not executed | Cache.FirstValuesAsWritten, Cache.EmptyValueListBreaksStore | Cache.FirstValues |
| cache.go:149-154 | the error from `read` is matched against `ErrCacheExpired` and then `ErrCacheExpiryIgnored` before the entry is looked at, and the second branch returns `entry.asHttpResponse(req)` | a custom provider whose `Get` error wraps `ErrCacheExpiryIgnored`: `read` returns a nil entry with that wrapped error, and calling `asHttpResponse` on the nil entry panics. A `Get` error wrapping `ErrCacheExpired` instead makes `Do` fetch under tag `expired` | treat a sentinel as `read`'s expiry signal only when an entry comes with it, and return every other error | low (needs a provider that returns this package's sentinels); not executed | Cache.ReadStepAsWritten, Cache.ProviderSentinelsMisread | Cache.ReadStepOf |
