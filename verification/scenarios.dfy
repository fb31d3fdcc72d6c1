/** Properties of successive `Do` calls sharing one provider: the behaviour the cache's
    own tests exercise, stated for all inputs of the shape they use. */
module Scenarios {
  import opened Wrappers
  import opened Http
  import opened Contexts
  import opened Entries
  import MP = MemoryProvider
  import opened Cache
  import opened CacheProperties

  /** Runs `Do` on each request in turn against one provider, the i-th request getting the
      i-th transport reply; yields the final provider state and the transport calls made. */
  function DoEach(c: Cache, reqs: seq<Request>, p: MP.MemoryProvider, faults: Faults, env: Env, replies: seq<Reply>)
    : (r: (MP.MemoryProvider, nat))
    requires |replies| == |reqs|
    ensures r.1 <= |reqs|
    ensures MP.Initialized(r.0) == MP.Initialized(p)
    decreases |reqs|
  {
    if |reqs| == 0 then (p, 0)
    else
      var o := Do(c, reqs[0], p, faults, env, replies[0]);
      var rest := DoEach(c, reqs[1..], o.provider, faults, env, replies[1..]);
      (rest.0, o.TransportCalls() + rest.1)
  }

  /** A plain GET for a key, with none of the three flags set. */
  predicate PlainGet(c: Cache, req: Request, key: string) {
    && req.httpMethod == MethodGet && Key(c, req) == key
    && !IgnoreCache(req.ctx) && !IgnoreExpired(req.ctx) && !OnlyCached(req.ctx)
  }

  /** While a fresh entry is stored, any number of GETs for its key without `ignoreCache`
      make no transport call and leave the store as it was. */
  lemma {:induction false} RepeatedHitsNeverFetch(c: Cache, reqs: seq<Request>, p: MP.MemoryProvider, faults: Faults,
                                                  env: Env, replies: seq<Reply>, key: string, e: Entry)
    requires |replies| == |reqs|
    requires forall i :: 0 <= i < |reqs| ==>
      reqs[i].httpMethod == MethodGet && !IgnoreCache(reqs[i].ctx) && Key(c, reqs[i]) == key
    requires LookupEntry(p, faults, env.codec, key) == Decoded(e) && !Expired(e, env.parseDate, env.now)
    ensures DoEach(c, reqs, p, faults, env, replies) == (p, 0)
    decreases |reqs|
  {
    if |reqs| > 0 {
      FreshEntryIsHit(c, reqs[0], p, faults, env, replies[0], e);
      RepeatedHitsNeverFetch(c, reqs[1..], p, faults, env, replies[1..], key, e);
    }
  }

  /** Every GET with `ignoreCache` (and no `onlyCached`) makes exactly one transport call,
      whatever the store holds as the calls go on. */
  lemma {:induction false} IgnoreCacheFetchesEveryTime(c: Cache, reqs: seq<Request>, p: MP.MemoryProvider, faults: Faults,
                                                       env: Env, replies: seq<Reply>)
    requires |replies| == |reqs|
    requires forall i :: 0 <= i < |reqs| ==>
      reqs[i].httpMethod == MethodGet && IgnoreCache(reqs[i].ctx) && !OnlyCached(reqs[i].ctx)
    ensures DoEach(c, reqs, p, faults, env, replies).1 == |reqs|
    decreases |reqs|
  {
    if |reqs| > 0 {
      var o := Do(c, reqs[0], p, faults, env, replies[0]);
      IgnoreCacheAlwaysFetches(c, reqs[0], p, faults, env, replies[0]);
      IgnoreCacheFetchesEveryTime(c, reqs[1..], o.provider, faults, env, replies[1..]);
    }
  }

  /** With a codec that round-trips, what a full fetch writes is what the next read finds:
      the new entry, under the same key. */
  lemma StoredEntryReadsBack(c: Cache, req: Request, p: MP.MemoryProvider, env: Env, resp: Response)
    requires Roundtrips(env.codec)
    requires ReachesFetch(c, req, p, NoFaults, env) && MP.Initialized(p)
    requires resp.statusCode != StatusNotModified && resp.body.Readable?
    ensures var o := Do(c, req, p, NoFaults, env, Replied(resp));
      LookupEntry(o.provider, NoFaults, env.codec, Key(c, req)) == Decoded(NewEntry(env, resp, resp.body.bytes))
  {
    var e := NewEntry(env, resp, resp.body.bytes);
    FullFetchStoresNewEntry(c, req, p, NoFaults, env, resp);
    assert env.codec.decode(env.codec.encode(e)) == Some(e) && |env.codec.encode(e)| > 0;
  }

  /** A response whose first `Expires` value parses to `expires`. */
  predicate ExpiresAt(resp: Response, parseDate: string -> Option<int>, expires: int) {
    ExpiresHeader in resp.header && |resp.header[ExpiresHeader]| > 0
    && parseDate(resp.header[ExpiresHeader][0]) == Some(expires)
  }

  /** Two plain GETs sharing a key (two URLs under a constant key generator, or the same URL
      twice) when nothing is stored: the first fetches and stores a response that stays fresh
      until `expires`, the second, made no later, is answered from the cache with the first
      response's status and body. One transport call in all. */
  lemma FetchThenHit(c: Cache, r1: Request, r2: Request, p: MP.MemoryProvider, env: Env, later: int,
                     resp: Response, reply2: Reply, expires: int)
    requires Roundtrips(env.codec) && MP.Initialized(p)
    requires PlainGet(c, r1, Key(c, r1)) && PlainGet(c, r2, Key(c, r1))
    requires LookupEntry(p, NoFaults, env.codec, Key(c, r1)) == NoEntry
    requires resp.statusCode != StatusNotModified && resp.body.Readable?
    requires ExpiresAt(resp, env.parseDate, expires) && env.now <= later <= expires
    ensures var o1 := Do(c, r1, p, NoFaults, env, Replied(resp));
            var o2 := Do(c, r2, o1.provider, NoFaults, env.(now := later), reply2);
      && o1.TransportCalls() + o2.TransportCalls() == 1
      && o2.tag == Some(StatHit) && o2.result.Ok?
      && o2.result.value.statusCode == resp.statusCode && o2.result.value.body == resp.body
  {
    var o1 := Do(c, r1, p, NoFaults, env, Replied(resp));
    var e := NewEntry(env, resp, resp.body.bytes);
    NothingStoredFetches(c, r1, p, NoFaults, env, Replied(resp));
    StoredEntryReadsBack(c, r1, p, env, resp);
    FreshEntryIsHit(c, r2, o1.provider, NoFaults, env.(now := later), reply2, e);
  }

  /** The constant generator of the key-generator test sends two different URLs to one
      entry, so the second GET is a hit. */
  lemma ConstantKeyCollapsesUrls(r1: Request, r2: Request, p: MP.MemoryProvider, env: Env,
                                 resp: Response, reply2: Reply, expires: int)
    requires Roundtrips(env.codec) && MP.Initialized(p)
    requires r1.url != r2.url
    requires PlainGet(Cache(Some(_ => "foo")), r1, "foo") && PlainGet(Cache(Some(_ => "foo")), r2, "foo")
    requires LookupEntry(p, NoFaults, env.codec, "foo") == NoEntry
    requires resp.statusCode != StatusNotModified && resp.body.Readable?
    requires ExpiresAt(resp, env.parseDate, expires) && env.now <= expires
    ensures var c := Cache(Some(_ => "foo"));
            var o1 := Do(c, r1, p, NoFaults, env, Replied(resp));
            var o2 := Do(c, r2, o1.provider, NoFaults, env, reply2);
      o1.TransportCalls() + o2.TransportCalls() == 1 && o2.tag == Some(StatHit)
  {
    FetchThenHit(Cache(Some(_ => "foo")), r1, r2, p, env, env.now, resp, reply2, expires);
  }

  /** `ignoreExpired` with nothing stored fetches once; once the stored response has expired,
      the same call is answered from the cache without a transport call. */
  lemma IgnoreExpiredFetchesOnceThenServesStale(c: Cache, req: Request, p: MP.MemoryProvider, env: Env,
                                                resp: Response, reply2: Reply)
    requires Roundtrips(env.codec) && MP.Initialized(p)
    requires req.httpMethod == MethodGet && IgnoreExpired(req.ctx) && !IgnoreCache(req.ctx) && !OnlyCached(req.ctx)
    requires LookupEntry(p, NoFaults, env.codec, Key(c, req)) == NoEntry
    requires resp.statusCode != StatusNotModified && resp.body.Readable?
    requires Expired(NewEntry(env, resp, resp.body.bytes), env.parseDate, env.now)
    ensures var o1 := Do(c, req, p, NoFaults, env, Replied(resp));
            var o2 := Do(c, req, o1.provider, NoFaults, env, reply2);
      && o1.TransportCalls() == 1 && o2.TransportCalls() == 0
      && o2.tag == Some(StatIgnoredExpiry) && o2.result.Ok? && o2.result.value.body == resp.body
  {
    var o1 := Do(c, req, p, NoFaults, env, Replied(resp));
    NothingStoredFetches(c, req, p, NoFaults, env, Replied(resp));
    StoredEntryReadsBack(c, req, p, env, resp);
    IgnoreExpiredServesStale(c, req, o1.provider, NoFaults, env, reply2, NewEntry(env, resp, resp.body.bytes));
  }

  /** A stored response that has expired and carries a non-empty "ETag" makes the next plain
      GET revalidate with `If-None-Match` holding exactly that tag. */
  lemma ETagRoundTrip(c: Cache, req: Request, p: MP.MemoryProvider, env: Env, resp: Response, reply2: Reply, etag: string)
    requires Roundtrips(env.codec) && MP.Initialized(p)
    requires PlainGet(c, req, Key(c, req))
    requires LookupEntry(p, NoFaults, env.codec, Key(c, req)) == NoEntry
    requires resp.statusCode != StatusNotModified && resp.body.Readable?
    requires Expired(NewEntry(env, resp, resp.body.bytes), env.parseDate, env.now)
    requires ETagHeader in resp.header && |resp.header[ETagHeader]| > 0 && resp.header[ETagHeader][0] == etag && etag != ""
    ensures var o1 := Do(c, req, p, NoFaults, env, Replied(resp));
            var o2 := Do(c, req, o1.provider, NoFaults, env, reply2);
      && o2.sent.Some? && IfNoneMatchHeader in o2.sent.value.header
      && o2.sent.value.header[IfNoneMatchHeader] == [etag]
  {
    var o1 := Do(c, req, p, NoFaults, env, Replied(resp));
    var e := NewEntry(env, resp, resp.body.bytes);
    StoredEntryReadsBack(c, req, p, env, resp);
    RevalidationSendsETag(c, req, o1.provider, NoFaults, env, reply2, e);
  }

  /** After an expired response is stored, a 304 to the next plain GET is answered with
      status 304 and the stored body, and the entry stays readable under the key. */
  lemma NotModifiedAfterStore(c: Cache, req: Request, p: MP.MemoryProvider, env: Env, resp: Response, resp2: Response)
    requires Roundtrips(env.codec) && MP.Initialized(p)
    requires PlainGet(c, req, Key(c, req))
    requires LookupEntry(p, NoFaults, env.codec, Key(c, req)) == NoEntry
    requires resp.statusCode != StatusNotModified && resp.body.Readable?
    requires Expired(NewEntry(env, resp, resp.body.bytes), env.parseDate, env.now)
    requires resp2.statusCode == StatusNotModified
    ensures var o1 := Do(c, req, p, NoFaults, env, Replied(resp));
            var o2 := Do(c, req, o1.provider, NoFaults, env, Replied(resp2));
      && o2.result.Ok? && o2.result.value.statusCode == StatusNotModified
      && o2.result.value.body == resp.body
      && LookupEntry(o2.provider, NoFaults, env.codec, Key(c, req)) == Decoded(NewEntry(env, resp, resp.body.bytes))
  {
    var o1 := Do(c, req, p, NoFaults, env, Replied(resp));
    var e := NewEntry(env, resp, resp.body.bytes);
    StoredEntryReadsBack(c, req, p, env, resp);
    NotModifiedServesStoredBody(c, req, o1.provider, NoFaults, env, resp2, e);
    assert env.codec.decode(env.codec.encode(e)) == Some(e) && |env.codec.encode(e)| > 0;
  }
}
