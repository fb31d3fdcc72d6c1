/** Properties of one `Do` call, stated path by path. */
module CacheProperties {
  import opened Wrappers
  import opened Http
  import opened Errors
  import opened Contexts
  import opened Entries
  import opened Providers
  import MP = MemoryProvider
  import opened Cache

  /** The read step hands over to the transport: the request is a GET without `onlyCached`,
      and either the read is skipped, or it finds nothing usable, or it finds an expired entry
      that `ignoreExpired` does not excuse. */
  predicate ReachesFetch(c: Cache, req: Request, p: MP.MemoryProvider, faults: Faults, env: Env) {
    && req.httpMethod == MethodGet
    && !OnlyCached(req.ctx)
    && (IgnoreCache(req.ctx) ||
        match LookupEntry(p, faults, env.codec, Key(c, req))
        case LookupFailed(_) => false
        case NoEntry => true
        case Decoded(e) => Expired(e, env.parseDate, env.now) && !IgnoreExpired(req.ctx))
  }

  /** A non-GET request goes to the transport once and its answer comes back untouched; the
      provider is not consulted and no tag is set. */
  lemma NonGetIsForwarded(c: Cache, req: Request, p: MP.MemoryProvider, faults: Faults, env: Env, reply: Reply)
    requires req.httpMethod != MethodGet
    ensures var o := Do(c, req, p, faults, env, reply);
      && o.sent == Some(req) && o.TransportCalls() == 1
      && (reply.Replied? ==> o.result == Ok(reply.resp))
      && (reply.Failed? ==> o.result == Err(External(reply.err)))
      && o.ops == [] && o.provider == p && o.tag.None?
  {
  }

  /** A fresh stored entry is served from the cache unless `ignoreCache` is set: tag `hit`,
      no transport call, no write. */
  lemma FreshEntryIsHit(c: Cache, req: Request, p: MP.MemoryProvider, faults: Faults, env: Env, reply: Reply, e: Entry)
    requires req.httpMethod == MethodGet && !IgnoreCache(req.ctx)
    requires LookupEntry(p, faults, env.codec, Key(c, req)) == Decoded(e)
    requires !Expired(e, env.parseDate, env.now)
    ensures var o := Do(c, req, p, faults, env, reply);
      && o.result == Ok(AsResponse(e)) && o.tag == Some(StatHit)
      && o.TransportCalls() == 0 && o.ops == [GetOp(Key(c, req))] && o.provider == p
  {
  }

  /** With `ignoreCache` (and no `onlyCached`) the provider is never read, the request goes out
      exactly as given, a 304 has no entry to reconcile with, and any other readable reply is
      written back. */
  lemma IgnoreCacheAlwaysFetches(c: Cache, req: Request, p: MP.MemoryProvider, faults: Faults, env: Env, reply: Reply)
    requires req.httpMethod == MethodGet && IgnoreCache(req.ctx) && !OnlyCached(req.ctx)
    ensures var o := Do(c, req, p, faults, env, reply);
      && o.NoReads() && o.sent == Some(req) && o.TransportCalls() == 1
      && o.tag == Some(StatIgnored)
      && (reply.Replied? && reply.resp.statusCode == StatusNotModified ==>
            o.result == Err(NoCachedEntry) && o.ops == [] && o.provider == p)
      && (reply.Replied? && reply.resp.statusCode != StatusNotModified && reply.resp.body.Readable?
          && MP.Initialized(p) && faults.setFault.None? ==>
            var e := NewEntry(env, reply.resp, reply.resp.body.bytes);
            && o.result == Ok(AsResponse(e))
            && o.ops == [SetOp(Key(c, req), env.codec.encode(e), WriteExpiry)]
            && MP.Get(o.provider, Key(c, req)) == Found(env.codec.encode(e)))
  {
  }

  /** `ignoreCache` takes precedence over `ignoreExpired` and over whatever is stored: the
      provider is never read, even with `onlyCached`, and two GETs that agree on their key,
      headers and `onlyCached` get the same answer whatever is stored and whatever their
      `ignoreExpired` flags say. */
  lemma IgnoreCacheIgnoresStore(c: Cache, req1: Request, req2: Request, p1: MP.MemoryProvider, p2: MP.MemoryProvider,
                                faults: Faults, env: Env, reply: Reply)
    requires req1.httpMethod == MethodGet && IgnoreCache(req1.ctx)
    requires req2.httpMethod == MethodGet && IgnoreCache(req2.ctx)
    requires OnlyCached(req1.ctx) == OnlyCached(req2.ctx)
    requires req1.header == req2.header && Key(c, req1) == Key(c, req2)
    requires MP.Initialized(p1) == MP.Initialized(p2)
    ensures var o1 := Do(c, req1, p1, faults, env, reply);
            var o2 := Do(c, req2, p2, faults, env, reply);
      && o1.NoReads() && o2.NoReads()
      && o1.result == o2.result && o1.ops == o2.ops && o1.tag == o2.tag
      && o1.sent.Some? == o2.sent.Some?
      && (p1 == p2 ==> o1.provider == o2.provider)
  {
  }

  /** An expired entry under `ignoreExpired` (and no `ignoreCache`) is returned as it is,
      tagged `ignored_expiry`, without a transport call, whatever `onlyCached` says. */
  lemma IgnoreExpiredServesStale(c: Cache, req: Request, p: MP.MemoryProvider, faults: Faults, env: Env, reply: Reply, e: Entry)
    requires req.httpMethod == MethodGet && !IgnoreCache(req.ctx) && IgnoreExpired(req.ctx)
    requires LookupEntry(p, faults, env.codec, Key(c, req)) == Decoded(e)
    requires Expired(e, env.parseDate, env.now)
    ensures var o := Do(c, req, p, faults, env, reply);
      && o.result == Ok(AsResponse(e)) && o.tag == Some(StatIgnoredExpiry)
      && o.TransportCalls() == 0 && o.provider == p && o.NoWrites()
  {
  }

  /** With nothing stored, `ignoreExpired` has nothing to excuse: the call still fetches once,
      tagged `miss`, with the request as given. */
  lemma NothingStoredFetches(c: Cache, req: Request, p: MP.MemoryProvider, faults: Faults, env: Env, reply: Reply)
    requires req.httpMethod == MethodGet && !IgnoreCache(req.ctx) && !OnlyCached(req.ctx)
    requires LookupEntry(p, faults, env.codec, Key(c, req)) == NoEntry
    ensures var o := Do(c, req, p, faults, env, reply);
      o.TransportCalls() == 1 && o.sent == Some(req) && o.tag == Some(StatMiss)
  {
  }

  /** `onlyCached` never calls the transport and never writes. */
  lemma OnlyCachedNeverFetches(c: Cache, req: Request, p: MP.MemoryProvider, faults: Faults, env: Env, reply: Reply)
    requires req.httpMethod == MethodGet && OnlyCached(req.ctx)
    ensures var o := Do(c, req, p, faults, env, reply);
      o.TransportCalls() == 0 && o.provider == p && o.NoWrites()
  {
  }

  /** `onlyCached` with no entry obtained (nothing usable stored, or the read skipped by
      `ignoreCache`) fails with `ErrCacheMiss` itself, tagged `ignored_check`. */
  lemma OnlyCachedMiss(c: Cache, req: Request, p: MP.MemoryProvider, faults: Faults, env: Env, reply: Reply)
    requires req.httpMethod == MethodGet && OnlyCached(req.ctx)
    requires IgnoreCache(req.ctx) || LookupEntry(p, faults, env.codec, Key(c, req)) == NoEntry
    ensures var o := Do(c, req, p, faults, env, reply);
      o.result == Err(CacheMiss) && o.tag == Some(StatIgnoreCheck)
  {
  }

  /** `onlyCached` with an expired entry obtained returns that entry, tagged `ignored_check`. */
  lemma OnlyCachedServesExpired(c: Cache, req: Request, p: MP.MemoryProvider, faults: Faults, env: Env, reply: Reply, e: Entry)
    requires req.httpMethod == MethodGet && OnlyCached(req.ctx) && !IgnoreCache(req.ctx) && !IgnoreExpired(req.ctx)
    requires LookupEntry(p, faults, env.codec, Key(c, req)) == Decoded(e)
    requires Expired(e, env.parseDate, env.now)
    ensures var o := Do(c, req, p, faults, env, reply);
      o.result == Ok(AsResponse(e)) && o.tag == Some(StatIgnoreCheck)
  {
  }

  /** A GET reaches the transport exactly when the read step hands over to it. */
  lemma TransportCalledIffReachesFetch(c: Cache, req: Request, p: MP.MemoryProvider, faults: Faults, env: Env, reply: Reply)
    requires req.httpMethod == MethodGet
    ensures Do(c, req, p, faults, env, reply).TransportCalls() == 1 <==> ReachesFetch(c, req, p, faults, env)
  {
  }

  /** An expired entry carried into the fetch with a non-empty "ETag" puts exactly that value,
      verbatim, into `If-None-Match`; nothing else in the request changes. */
  lemma RevalidationSendsETag(c: Cache, req: Request, p: MP.MemoryProvider, faults: Faults, env: Env, reply: Reply, e: Entry)
    requires ReachesFetch(c, req, p, faults, env) && !IgnoreCache(req.ctx)
    requires LookupEntry(p, faults, env.codec, Key(c, req)) == Decoded(e)
    requires ETagHeader in e.headers && e.headers[ETagHeader] != ""
    ensures var o := Do(c, req, p, faults, env, reply);
      && o.sent.Some? && o.tag == Some(StatExpired)
      && IfNoneMatchHeader in o.sent.value.header
      && o.sent.value.header[IfNoneMatchHeader] == [e.headers[ETagHeader]]
      && o.sent.value.header == req.header[IfNoneMatchHeader := [e.headers[ETagHeader]]]
  {
  }

  /** Without a carried entry holding a non-empty "ETag", the request goes out as given. */
  lemma NoTagNoIfNoneMatch(c: Cache, req: Request, p: MP.MemoryProvider, faults: Faults, env: Env, reply: Reply)
    requires ReachesFetch(c, req, p, faults, env)
    requires IgnoreCache(req.ctx) || !LookupEntry(p, faults, env.codec, Key(c, req)).Decoded?
             || ETagHeader !in LookupEntry(p, faults, env.codec, Key(c, req)).entry.headers
             || LookupEntry(p, faults, env.codec, Key(c, req)).entry.headers[ETagHeader] == ""
    ensures Do(c, req, p, faults, env, reply).sent == Some(req)
  {
  }

  /** A 304 answering a revalidation returns status 304 with the entry's stored bytes as body
      and the entry's `Expires`/`Last-Modified` over the transport's, re-writes the unchanged
      entry under the same key, and succeeds even when that write fails. */
  lemma NotModifiedServesStoredBody(c: Cache, req: Request, p: MP.MemoryProvider, faults: Faults, env: Env,
                                    resp: Response, e: Entry)
    requires ReachesFetch(c, req, p, faults, env) && !IgnoreCache(req.ctx)
    requires LookupEntry(p, faults, env.codec, Key(c, req)) == Decoded(e)
    requires resp.statusCode == StatusNotModified
    ensures var o := Do(c, req, p, faults, env, Replied(resp));
      && o.result == Ok(NotModified(resp, e))
      && o.result.value.statusCode == StatusNotModified && o.result.value.body == Readable(e.data)
      && o.ops == [GetOp(Key(c, req)), SetOp(Key(c, req), env.codec.encode(e), WriteExpiry)]
      && o.TransportCalls() == 1 && o.tag == Some(StatExpired)
  {
  }

  /** A 304 with no carried entry is an error, and nothing is written. */
  lemma NotModifiedWithoutEntryFails(c: Cache, req: Request, p: MP.MemoryProvider, faults: Faults, env: Env, resp: Response)
    requires ReachesFetch(c, req, p, faults, env)
    requires IgnoreCache(req.ctx) || LookupEntry(p, faults, env.codec, Key(c, req)) == NoEntry
    requires resp.statusCode == StatusNotModified
    ensures var o := Do(c, req, p, faults, env, Replied(resp));
      o.result == Err(NoCachedEntry) && o.NoWrites() && o.provider == p
  {
  }

  /** Any other status, error statuses included, is a full fetch: the body is read in full,
      a new entry (status, body, first value per header name) is written under the call's
      key and returned reconstructed, tagged as the read step left it. A body that cannot be
      read, or a write that fails, fails the call, and leaves the store as it was. */
  lemma FullFetchStoresNewEntry(c: Cache, req: Request, p: MP.MemoryProvider, faults: Faults, env: Env, resp: Response)
    requires ReachesFetch(c, req, p, faults, env)
    requires resp.statusCode != StatusNotModified
    ensures var o := Do(c, req, p, faults, env, Replied(resp));
      && o.tag in {Some(StatMiss), Some(StatExpired), Some(StatIgnored)}
      && (resp.body.Readable? && MP.Initialized(p) && faults.setFault.None? ==>
            var e := NewEntry(env, resp, resp.body.bytes);
            && o.result == Ok(AsResponse(e))
            && e.statusCode == resp.statusCode && e.data == resp.body.bytes
            && MP.Get(o.provider, Key(c, req)) == Found(env.codec.encode(e)))
      && (resp.body.Broken? ==> o.result.Err? && o.provider == p && o.NoWrites())
      && (!MP.Initialized(p) || faults.setFault.Some? ==> o.result.Err? && o.provider == p)
  {
  }

  /** A transport error fails the call and writes nothing. */
  lemma TransportErrorWritesNothing(c: Cache, req: Request, p: MP.MemoryProvider, faults: Faults, env: Env, id: nat)
    requires ReachesFetch(c, req, p, faults, env)
    ensures var o := Do(c, req, p, faults, env, Failed(id));
      o.result == Err(Wrapped(TransportSite, External(id))) && o.provider == p && o.NoWrites()
  {
  }

  /** A `Get` error aborts the call with that error; it is never read as a miss. */
  lemma GetErrorAborts(c: Cache, req: Request, p: MP.MemoryProvider, faults: Faults, env: Env, reply: Reply, err: Error)
    requires req.httpMethod == MethodGet && !IgnoreCache(req.ctx)
    requires LookupEntry(p, faults, env.codec, Key(c, req)) == LookupFailed(err)
    ensures var o := Do(c, req, p, faults, env, reply);
      && o.result == Err(Wrapped(ProviderGetSite, err)) && o.TransportCalls() == 0
      && o.ops == [GetOp(Key(c, req))] && o.provider == p && o.tag.None?
  {
  }

  /** Neither expiry sentinel ever leaves `Do` under `errors.Is`: the first leads to a fetch,
      the second to a successful return. This rests on provider, transport and body errors
      being opaque outside errors: a custom provider whose `Get` error wraps a sentinel would
      carry it out (see `ProviderSentinelsMisread`). */
  lemma ExpirySentinelsNeverEscape(c: Cache, req: Request, p: MP.MemoryProvider, faults: Faults, env: Env, reply: Reply)
    ensures var o := Do(c, req, p, faults, env, reply);
      o.result.Err? ==> !Is(o.result.error, CacheExpired) && !Is(o.result.error, CacheExpiryIgnored)
  {
    var o := Do(c, req, p, faults, env, reply);
    if o.result.Err? {
      IsUnwrappedTargetIffRoot(o.result.error, CacheExpired);
      IsUnwrappedTargetIffRoot(o.result.error, CacheExpiryIgnored);
    }
  }

  /** `errors.Is(err, ErrCacheMiss)` holds of a `Do` error only when it is the sentinel itself,
      from a GET with `onlyCached` that obtained no entry and made no transport call. */
  lemma CacheMissOnlyFromOnlyCached(c: Cache, req: Request, p: MP.MemoryProvider, faults: Faults, env: Env, reply: Reply)
    ensures var o := Do(c, req, p, faults, env, reply);
      o.result.Err? && Is(o.result.error, CacheMiss) ==>
        && o.result.error == CacheMiss && req.httpMethod == MethodGet && OnlyCached(req.ctx)
        && (IgnoreCache(req.ctx) || LookupEntry(p, faults, env.codec, Key(c, req)) == NoEntry)
        && o.TransportCalls() == 0
  {
    var o := Do(c, req, p, faults, env, reply);
    if o.result.Err? {
      IsUnwrappedTargetIffRoot(o.result.error, CacheMiss);
    }
  }

  /** Collapsing reconstructed headers to their first values, as `store` does, gives back the
      entry's header map. */
  lemma FirstValuesUndoAsResponse(e: Entry)
    ensures FirstValues(AsResponse(e).header) == e.headers
  {
  }

  /** The logged tag names are pairwise distinct. */
  lemma TagNamesDistinct(t1: Tag, t2: Tag)
    ensures t1.Name() == t2.Name() <==> t1 == t2
  {
  }
}
