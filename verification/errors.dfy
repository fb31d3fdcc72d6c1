/** The error values the cache produces or passes on (err.go), and `errors.Is`. */
module Errors {

  /** The call sites at which cache.go wraps an error with `fmt.Errorf("…: %w", err)`.
      Only the site is kept; the message text is not modelled. */
  datatype Site =
    | ProviderGetSite   // "provider.Get(): %w"
    | ProviderSetSite   // "provider.Set(): %w"
    | TransportSite     // "http.Do(): %w"
    | ReadAllSite       // "io.ReadAll(): %w"
    | WriteSite         // "r.write(): %w"
    | StoreSite         // "r.store(): %w"

  datatype Error =
    /** The three exported sentinels of err.go. */
    | CacheExpired
    | CacheExpiryIgnored
    | CacheMiss
    /** The fresh `errors.New("no cached entry to return")` of the 304 path. */
    | NoCachedEntry
    /** The memory provider's "not initialized" error. */
    | NotInitialized
    /** An error produced by code outside the model: the transport, a body reader,
        or the storage service behind a provider. */
    | External(id: nat)
    /** `fmt.Errorf` with `%w`: the inner error stays reachable through `errors.Is`. */
    | Wrapped(site: Site, inner: Error)

  /** `errors.Is(err, target)`: `err` is `target` or wraps it, at any depth. */
  predicate Is(err: Error, target: Error)
    decreases err
  {
    err == target || (err.Wrapped? && Is(err.inner, target))
  }

  /** The error at the bottom of a wrapping chain. */
  function Root(err: Error): (r: Error)
    ensures !r.Wrapped?
    decreases err
  {
    if err.Wrapped? then Root(err.inner) else err
  }

  /** Against a target that wraps nothing (every sentinel), `errors.Is` looks only at the
      bottom of the chain: the wrapping sites never make or hide a match. */
  lemma {:induction false} IsUnwrappedTargetIffRoot(err: Error, target: Error)
    requires !target.Wrapped?
    ensures Is(err, target) <==> Root(err) == target
    decreases err
  {
    if err.Wrapped? {
      IsUnwrappedTargetIffRoot(err.inner, target);
    }
  }

  /** The three sentinels are distinct error kinds: none of them matches another
      under `errors.Is`. */
  lemma SentinelsDistinct()
    ensures !Is(CacheExpired, CacheExpiryIgnored) && !Is(CacheExpiryIgnored, CacheExpired)
    ensures !Is(CacheExpired, CacheMiss) && !Is(CacheMiss, CacheExpired)
    ensures !Is(CacheExpiryIgnored, CacheMiss) && !Is(CacheMiss, CacheExpiryIgnored)
  {
  }
}
