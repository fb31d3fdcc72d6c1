/** The caching decision engine (cache.go): `Do` and its helpers `read`, `write`, `store`
    and `key`, as pure functions over an explicit provider state. */
module Cache {
  import opened Wrappers
  import opened Http
  import opened Errors
  import opened Contexts
  import opened Entries
  import opened Keys
  import opened Providers
  import MP = MemoryProvider

  /** `cacheStat`: how a GET was resolved, as reported to the log. */
  datatype Tag = StatExpired | StatHit | StatIgnoreCheck | StatIgnored | StatIgnoredExpiry | StatMiss
  {
    function Name(): string {
      match this
      case StatExpired => "expired"
      case StatHit => "hit"
      case StatIgnoreCheck => "ignored_check"
      case StatIgnored => "ignored"
      case StatIgnoredExpiry => "ignored_expiry"
      case StatMiss => "miss"
    }
  }

  /** The `Cache` struct. The transport and the provider are not fields here: the transport's
      reply and the provider's state are inputs of `Do`. */
  datatype Cache = Cache(keyGenerator: Option<Request -> string>)

  /** What the engine needs from its surroundings: the entry codec, the date parser behind
      `expired()`, and the current instant. */
  datatype Env = Env(codec: Codec, parseDate: string -> Option<int>, now: int)

  /** Communication failures of the storage service behind the provider during one call: the
      error a `Get` or `Set` reports instead of touching the stored values. The in-process
      map provider has none (`NoFaults`). */
  datatype Faults = Faults(getFault: Option<nat>, setFault: Option<nat>)

  const NoFaults: Faults := Faults(None, None)

  /** The expiry hint the cache always hands to `Set`. */
  const WriteExpiry: int := 0

  const ETagHeader: string := "ETag"
  const IfNoneMatchHeader: string := "If-None-Match"
  const LastModifiedHeader: string := "Last-Modified"

  /** The result of one `Do` call and everything it did on the way. */
  datatype Outcome = Outcome(
    result: Result<Response, Error>,
    provider: MP.MemoryProvider,   // the provider's state afterwards
    ops: seq<ProviderOp>,          // the provider calls made, in order
    sent: Option<Request>,         // the request handed to the transport, if it was called
    tag: Option<Tag>)              // the `cacheStat` logged, if one was set
  {
    function TransportCalls(): nat {
      if sent.Some? then 1 else 0
    }

    /** No provider write was attempted. */
    predicate NoWrites() {
      forall op :: op in ops ==> op.GetOp?
    }

    /** The provider was not read. */
    predicate NoReads() {
      forall op :: op in ops ==> op.SetOp?
    }
  }

  // ---------------------------------------------------------------------------------------
  // The provider as the engine sees it

  function ProviderGet(p: MP.MemoryProvider, faults: Faults, key: string): (r: GetReply)
    ensures GetHonours(r, MP.Held(p), key, MP.Initialized(p) && faults.getFault.None?)
    ensures r.GetFailed? ==> r.err == NotInitialized || r.err.External?
  {
    if faults.getFault.Some? then GetFailed(External(faults.getFault.value)) else MP.Get(p, key)
  }

  function ProviderSet(p: MP.MemoryProvider, faults: Faults, key: string, value: Bytes, expiry: int)
    : (r: (MP.MemoryProvider, Option<Error>))
    ensures SetHonours(MP.Held(p), MP.Held(r.0), key, value, r.1.Some?)
    ensures r.1.Some? ==> r.0 == p && (r.1.value == NotInitialized || r.1.value.External?)
    ensures r.1.None? <==> MP.Initialized(p) && faults.setFault.None?
    ensures MP.Initialized(r.0) == MP.Initialized(p)
  {
    if faults.setFault.Some? then (p, Some(External(faults.setFault.value)))
    else MP.Set(p, key, value, expiry)
  }

  // ---------------------------------------------------------------------------------------
  // key

  function Key(c: Cache, req: Request): (k: string)
    ensures c.keyGenerator.None? ==> k == DefaultKeyGenerator(req)
    ensures c.keyGenerator.Some? ==> k == c.keyGenerator.value(req)
  {
    match c.keyGenerator
    case None => DefaultKeyGenerator(req)
    case Some(generate) => generate(req)
  }

  // ---------------------------------------------------------------------------------------
  // read

  /** What `read` finds under a key before it looks at freshness. */
  datatype Lookup = LookupFailed(err: Error) | NoEntry | Decoded(entry: Entry)

  /** A failed `Get` is an error; no value, an empty value or bytes that do not decode are
      all "no entry"; otherwise the decoded entry. */
  function LookupEntry(p: MP.MemoryProvider, faults: Faults, codec: Codec, key: string): (l: Lookup)
    ensures var g := ProviderGet(p, faults, key);
      && (l.LookupFailed? <==> g.GetFailed?)
      && (l.LookupFailed? ==> l.err == g.err)
      && (l.Decoded? <==> g.Found? && |g.value| > 0 && codec.decode(g.value).Some?)
      && (l.Decoded? ==> codec.decode(g.value) == Some(l.entry))
  {
    match ProviderGet(p, faults, key)
    case GetFailed(err) => LookupFailed(err)
    case Absent => NoEntry
    case Found(value) =>
      if |value| == 0 then NoEntry
      else match codec.decode(value)
        case None => NoEntry
        case Some(e) => Decoded(e)
  }

  datatype ReadResult = ReadResult(entry: Option<Entry>, err: Option<Error>)

  /** `read`. The expiry sentinels come back only together with an expired entry, and which of
      the two is decided by the `ignoreExpired` flag alone. */
  function Read(p: MP.MemoryProvider, faults: Faults, env: Env, ctx: Context, key: string): (r: ReadResult)
    ensures LookupEntry(p, faults, env.codec, key).LookupFailed? ==>
      r == ReadResult(None, Some(Wrapped(ProviderGetSite, LookupEntry(p, faults, env.codec, key).err)))
    ensures LookupEntry(p, faults, env.codec, key).NoEntry? ==> r == ReadResult(None, None)
    ensures LookupEntry(p, faults, env.codec, key).Decoded? ==> r.entry == Some(LookupEntry(p, faults, env.codec, key).entry)
    ensures r.err == Some(CacheExpired) || r.err == Some(CacheExpiryIgnored) ==>
      r.entry.Some? && Expired(r.entry.value, env.parseDate, env.now)
    ensures r.entry.Some? ==>
      && (r.err == Some(CacheExpiryIgnored) <==> Expired(r.entry.value, env.parseDate, env.now) && IgnoreExpired(ctx))
      && (r.err == Some(CacheExpired) <==> Expired(r.entry.value, env.parseDate, env.now) && !IgnoreExpired(ctx))
      && (r.err.None? <==> !Expired(r.entry.value, env.parseDate, env.now))
    ensures r.err.Some? && r.entry.None? ==>
      r.err.value.Wrapped? && (Root(r.err.value) == NotInitialized || Root(r.err.value).External?)
    // as `errors.Is` sees them, the expiry sentinels are exactly the unwrapped ones returned here
    ensures r.err.Some? ==> (Is(r.err.value, CacheExpired) <==> r.err.value == CacheExpired)
    ensures r.err.Some? ==> (Is(r.err.value, CacheExpiryIgnored) <==> r.err.value == CacheExpiryIgnored)
    ensures SentinelsCarryEntry(r)
  {
    match LookupEntry(p, faults, env.codec, key)
    case LookupFailed(err) =>
      IsUnwrappedTargetIffRoot(Wrapped(ProviderGetSite, err), CacheExpired);
      IsUnwrappedTargetIffRoot(Wrapped(ProviderGetSite, err), CacheExpiryIgnored);
      ReadResult(None, Some(Wrapped(ProviderGetSite, err)))
    case NoEntry => ReadResult(None, None)
    case Decoded(e) =>
      if Expired(e, env.parseDate, env.now) then
        if IgnoreExpired(ctx) then ReadResult(Some(e), Some(CacheExpiryIgnored))
        else ReadResult(Some(e), Some(CacheExpired))
      else ReadResult(Some(e), None)
  }

  /** How `Do` goes on from what `read` returned: fetch with the expired entry carried, serve the
      entry despite its expiry, give up with the error, serve a hit, or fetch on a miss. */
  datatype ReadStep = Refetch(stale: Option<Entry>) | ServeStale(entry: Entry) | Abort(err: Error)
                    | Hit(entry: Entry) | Miss

  /** `read`'s own results never carry an expiry sentinel without the entry it is about. */
  predicate SentinelsCarryEntry(r: ReadResult) {
    r.err.Some? && (Is(r.err.value, CacheExpired) || Is(r.err.value, CacheExpiryIgnored)) ==> r.entry.Some?
  }

  /** The branch on `read`'s result as `Do` writes it: the error is matched against the two
      sentinels under `errors.Is` before anything looks at the entry. `None` is the nil-pointer
      panic of `entry.asHttpResponse` when the error matches `ErrCacheExpiryIgnored` but no entry
      came with it, which happens once a provider's own `Get` error wraps that sentinel. */
  function ReadStepAsWritten(r: ReadResult): Option<ReadStep> {
    match r.err
    case Some(err) =>
      if Is(err, CacheExpired) then Some(Refetch(r.entry))
      else if Is(err, CacheExpiryIgnored) then
        if r.entry.Some? then Some(ServeStale(r.entry.value)) else None
      else Some(Abort(err))
    case None => if r.entry.Some? then Some(Hit(r.entry.value)) else Some(Miss)
  }

  /** The branch the engine uses: a sentinel only counts when it comes with the entry it is
      about; an error without an entry is a failure of the provider and is returned. */
  function ReadStepOf(r: ReadResult): (s: ReadStep)
    ensures s.Abort? <==> r.err.Some? && (r.entry.None? || !(Is(r.err.value, CacheExpired) || Is(r.err.value, CacheExpiryIgnored)))
    ensures s.Abort? ==> s.err == r.err.value
    ensures SentinelsCarryEntry(r) ==> ReadStepAsWritten(r) == Some(s)
  {
    match r.err
    case Some(err) =>
      if r.entry.None? then Abort(err)
      else if Is(err, CacheExpired) then Refetch(r.entry)
      else if Is(err, CacheExpiryIgnored) then ServeStale(r.entry.value)
      else Abort(err)
    case None => if r.entry.Some? then Hit(r.entry.value) else Miss
  }

  /** A custom provider whose `Get` error wraps `ErrCacheExpiryIgnored` makes `Do` as written
      panic, and one whose error wraps `ErrCacheExpired` makes it fetch as if an entry had
      expired; the engine's branch returns both errors instead. */
  lemma ProviderSentinelsMisread()
    ensures var r := ReadResult(None, Some(Wrapped(ProviderGetSite, CacheExpiryIgnored)));
      ReadStepAsWritten(r).None? && ReadStepOf(r) == Abort(r.err.value)
    ensures var r := ReadResult(None, Some(Wrapped(ProviderGetSite, CacheExpired)));
      ReadStepAsWritten(r) == Some(Refetch(None)) && ReadStepOf(r) == Abort(r.err.value)
  {
    var ignored := Wrapped(ProviderGetSite, CacheExpiryIgnored);
    assert Is(ignored, CacheExpiryIgnored) && !Is(ignored, CacheExpired);
    assert Is(Wrapped(ProviderGetSite, CacheExpired), CacheExpired);
  }

  // ---------------------------------------------------------------------------------------
  // write

  datatype WriteResult = WriteResult(provider: MP.MemoryProvider, op: ProviderOp, err: Option<Error>)

  /** `write`: encode the entry and `Set` it under the key with expiry hint zero. */
  function Write(p: MP.MemoryProvider, faults: Faults, env: Env, key: string, e: Entry): (w: WriteResult)
    ensures w.op == SetOp(key, env.codec.encode(e), WriteExpiry)
    ensures w.err.None? <==> MP.Initialized(p) && faults.setFault.None?
    ensures w.err.None? ==> MP.Held(w.provider) == MP.Held(p)[key := env.codec.encode(e)]
    ensures w.err.Some? ==> w.provider == p && w.err.value.Wrapped? && w.err.value.site == ProviderSetSite
    ensures w.err.Some? ==> Root(w.err.value) == NotInitialized || Root(w.err.value).External?
    ensures MP.Initialized(w.provider) == MP.Initialized(p)
  {
    var value := env.codec.encode(e);
    var (p', err) := ProviderSet(p, faults, key, value, WriteExpiry);
    WriteResult(p', SetOp(key, value, WriteExpiry), if err.Some? then Some(Wrapped(ProviderSetSite, err.value)) else None)
  }

  // ---------------------------------------------------------------------------------------
  // store

  /** Every header name carries at least one value: what indexing `v[0]` in `store` relies on. */
  predicate EveryNameHasValue(h: Header) {
    forall k :: k in h ==> |h[k]| > 0
  }

  /** The header collapse as `store` writes it: the first value of every name. A name whose
      value list is empty makes the Go code panic, hence the precondition. */
  function FirstValuesAsWritten(h: Header): (r: map<string, string>)
    requires EveryNameHasValue(h)
    ensures r.Keys == h.Keys
    ensures forall k :: k in r ==> r[k] == h[k][0]
  {
    map k | k in h :: h[k][0]
  }

  /** A transport may hand back a header name with no values: `store` as written cannot
      collapse such a header, while the corrected collapse simply leaves the name out. */
  lemma EmptyValueListBreaksStore()
    ensures var h: Header := map["X-Empty" := []];
      !EveryNameHasValue(h) && FirstValues(h) == map[]
  {
    var h: Header := map["X-Empty" := []];
    assert "X-Empty" in h && |h["X-Empty"]| == 0;
  }

  /** The header collapse the engine uses: the first value of every name that has one. */
  function FirstValues(h: Header): (r: map<string, string>)
    ensures forall k :: k in r <==> k in h && |h[k]| > 0
    ensures forall k :: k in r ==> r[k] == h[k][0]
    ensures EveryNameHasValue(h) ==> r == FirstValuesAsWritten(h)
  {
    map k | k in h && |h[k]| > 0 :: h[k][0]
  }

  /** The entry `store` builds from a response whose body read in full. */
  function NewEntry(env: Env, resp: Response, data: Bytes): Entry {
    Entry(env.now, resp.statusCode, data, FirstValues(resp.header))
  }

  datatype StoreResult = StoreResult(provider: MP.MemoryProvider, ops: seq<ProviderOp>, entry: Result<Entry, Error>)

  /** `store`: read the body in full, build an entry from it and write that entry. */
  function Store(p: MP.MemoryProvider, faults: Faults, env: Env, key: string, resp: Response): (s: StoreResult)
    ensures resp.body.Broken? ==>
      s == StoreResult(p, [], Err(Wrapped(ReadAllSite, External(resp.body.err))))
    ensures resp.body.Readable? ==>
      var e := NewEntry(env, resp, resp.body.bytes);
      && s.ops == [SetOp(key, env.codec.encode(e), WriteExpiry)]
      && (s.entry.Ok? <==> MP.Initialized(p) && faults.setFault.None?)
      && (s.entry.Ok? ==> s.entry.value == e && MP.Held(s.provider) == MP.Held(p)[key := env.codec.encode(e)])
      && (s.entry.Err? ==> s.provider == p && s.entry.error.Wrapped? && s.entry.error.site == WriteSite)
    ensures s.entry.Err? ==> Root(s.entry.error) == NotInitialized || Root(s.entry.error).External?
    ensures MP.Initialized(s.provider) == MP.Initialized(p)
  {
    match resp.body
    case Broken(id) => StoreResult(p, [], Err(Wrapped(ReadAllSite, External(id))))
    case Readable(data) =>
      var e := NewEntry(env, resp, data);
      var w := Write(p, faults, env, key, e);
      if w.err.Some? then StoreResult(w.provider, [w.op], Err(Wrapped(WriteSite, w.err.value)))
      else StoreResult(w.provider, [w.op], Ok(e))
  }

  // ---------------------------------------------------------------------------------------
  // Do

  /** The non-GET path: the transport's answer, response or error, handed back as is. */
  function Forward(reply: Reply): (r: Result<Response, Error>)
    ensures reply.Replied? ==> r == Ok(reply.resp)
    ensures reply.Failed? ==> r == Err(External(reply.err))
  {
    match reply
    case Replied(resp) => Ok(resp)
    case Failed(id) => Err(External(id))
  }

  /** The entity tag a carried entry offers for revalidation: its non-empty "ETag" value. */
  function Validator(entry: Option<Entry>): Option<string> {
    if entry.Some? && ETagHeader in entry.value.headers && entry.value.headers[ETagHeader] != ""
    then Some(entry.value.headers[ETagHeader])
    else None
  }

  /** The outbound request: `If-None-Match` set to the carried entry's tag, copied verbatim,
      when there is one; otherwise the request unchanged. */
  function Conditional(req: Request, entry: Option<Entry>): (out: Request)
    ensures out.httpMethod == req.httpMethod && out.url == req.url && out.ctx == req.ctx
    ensures Validator(entry).Some? ==>
      IfNoneMatchHeader in out.header && out.header[IfNoneMatchHeader] == [Validator(entry).value]
    ensures forall k :: k != IfNoneMatchHeader ==>
      (k in out.header <==> k in req.header) && (k in out.header ==> out.header[k] == req.header[k])
    ensures Validator(entry).None? ==> out == req
  {
    match Validator(entry)
    case None => req
    case Some(etag) => req.(header := SetHeader(req.header, IfNoneMatchHeader, etag))
  }

  /** The 304 reconciliation: the transport's response with the entry's `Expires` and
      `Last-Modified` values written over its own, and the entry's bytes as the body. */
  function NotModified(resp: Response, e: Entry): (r: Response)
    ensures r.statusCode == resp.statusCode && r.contentLength == resp.contentLength
    ensures r.body == Readable(e.data)
    ensures forall k :: k == ExpiresHeader || k == LastModifiedHeader ==>
      && (k in e.headers ==> k in r.header && r.header[k] == [e.headers[k]])
      && (k !in e.headers ==> (k in r.header <==> k in resp.header) && (k in r.header ==> r.header[k] == resp.header[k]))
    ensures forall k :: k != ExpiresHeader && k != LastModifiedHeader ==>
      (k in r.header <==> k in resp.header) && (k in r.header ==> r.header[k] == resp.header[k])
  {
    var h1 := if ExpiresHeader in e.headers then SetHeader(resp.header, ExpiresHeader, e.headers[ExpiresHeader]) else resp.header;
    var h2 := if LastModifiedHeader in e.headers then SetHeader(h1, LastModifiedHeader, e.headers[LastModifiedHeader]) else h1;
    resp.(header := h2, body := Readable(e.data))
  }

  /** From the transport call on: conditional header, dispatch, 304 reconciliation or a full
      store. `entry` is the entry carried out of the read step, if any. */
  function Fetch(req: Request, key: string, entry: Option<Entry>, tag: Tag, p: MP.MemoryProvider,
                 faults: Faults, env: Env, reply: Reply, ops: seq<ProviderOp>): (o: Outcome)
    ensures o.sent == Some(Conditional(req, entry)) && o.tag == Some(tag)
    ensures |ops| <= |o.ops| <= |ops| + 1 && o.ops[..|ops|] == ops
    ensures forall i :: |ops| <= i < |o.ops| ==>
      o.ops[i].SetOp? && o.ops[i].key == key && o.ops[i].expiry == WriteExpiry
    ensures MP.Initialized(o.provider) == MP.Initialized(p)
    ensures forall k :: k != key ==> MP.Get(o.provider, k) == MP.Get(p, k)
    ensures o.result.Err? ==> Root(o.result.error) == NoCachedEntry || Root(o.result.error) == NotInitialized
                              || Root(o.result.error).External?
  {
    var out := Conditional(req, entry);
    match reply
    case Failed(id) => Outcome(Err(Wrapped(TransportSite, External(id))), p, ops, Some(out), Some(tag))
    case Replied(resp) =>
      if resp.statusCode == StatusNotModified then
        match entry
        case None => Outcome(Err(NoCachedEntry), p, ops, Some(out), Some(tag))
        case Some(e) =>
          // a failed re-write is logged and otherwise ignored
          var w := Write(p, faults, env, key, e);
          Outcome(Ok(NotModified(resp, e)), w.provider, ops + [w.op], Some(out), Some(tag))
      else
        var s := Store(p, faults, env, key, resp);
        match s.entry
        case Err(err) => Outcome(Err(Wrapped(StoreSite, err)), s.provider, ops + s.ops, Some(out), Some(tag))
        case Ok(e) => Outcome(Ok(AsResponse(e)), s.provider, ops + s.ops, Some(out), Some(tag))
  }

  /** After the read step: `onlyCached` answers from the carried entry or fails with
      `ErrCacheMiss`, never calling the transport; otherwise fetch. */
  function AfterRead(req: Request, key: string, entry: Option<Entry>, tag: Tag, p: MP.MemoryProvider,
                     faults: Faults, env: Env, reply: Reply, ops: seq<ProviderOp>): (o: Outcome)
    ensures OnlyCached(req.ctx) ==>
      && o.sent.None? && o.ops == ops && o.provider == p && o.tag == Some(StatIgnoreCheck)
      && (entry.None? ==> o.result == Err(CacheMiss))
      && (entry.Some? ==> o.result == Ok(AsResponse(entry.value)))
    ensures !OnlyCached(req.ctx) ==> o == Fetch(req, key, entry, tag, p, faults, env, reply, ops)
  {
    if OnlyCached(req.ctx) then
      match entry
      case None => Outcome(Err(CacheMiss), p, ops, None, Some(StatIgnoreCheck))
      case Some(e) => Outcome(Ok(AsResponse(e)), p, ops, None, Some(StatIgnoreCheck))
    else Fetch(req, key, entry, tag, p, faults, env, reply, ops)
  }

  /** `Cache.Do`: one request through the cache. */
  function Do(c: Cache, req: Request, p: MP.MemoryProvider, faults: Faults, env: Env, reply: Reply): (o: Outcome)
    // every provider call uses the one key derived for this request, the read comes first,
    // there is at most one of each, and every write passes expiry hint zero
    ensures forall op :: op in o.ops ==> op.key == Key(c, req)
    ensures forall op :: op in o.ops && op.SetOp? ==> op.expiry == WriteExpiry
    ensures |o.ops| <= 2 && forall i :: 0 < i < |o.ops| ==> o.ops[i].SetOp?
    ensures |o.ops| == 2 ==> o.ops[0].GetOp?
    // a key is derived, and the provider touched, only for GET
    ensures req.httpMethod != MethodGet ==> o.ops == [] && o.provider == p
    // under ignoreCache the provider is never read, whatever the other flags say
    ensures IgnoreCache(req.ctx) ==> o.NoReads()
    // nothing is written without a transport call
    ensures o.sent.None? ==> o.provider == p && o.NoWrites()
    // only the call's key can change in the store
    ensures MP.Initialized(o.provider) == MP.Initialized(p)
    ensures forall k :: k != Key(c, req) ==> MP.Get(o.provider, k) == MP.Get(p, k)
    // neither expiry sentinel is at the bottom of an error leaving Do
    ensures o.result.Err? ==> Root(o.result.error) != CacheExpired && Root(o.result.error) != CacheExpiryIgnored
    // ErrCacheMiss leaves Do unwrapped, and only from the onlyCached branch
    ensures o.result.Err? && Root(o.result.error) == CacheMiss ==>
      && o.result.error == CacheMiss && req.httpMethod == MethodGet && OnlyCached(req.ctx)
      && (IgnoreCache(req.ctx) || LookupEntry(p, faults, env.codec, Key(c, req)).NoEntry?)
      && o.sent.None? && o.tag == Some(StatIgnoreCheck)
  {
    if req.httpMethod != MethodGet then
      Outcome(Forward(reply), p, [], Some(req), None)
    else
      var key := Key(c, req);
      if IgnoreCache(req.ctx) then
        AfterRead(req, key, None, StatIgnored, p, faults, env, reply, [])
      else
        var ops := [GetOp(key)];
        match ReadStepOf(Read(p, faults, env, req.ctx, key))
        case Refetch(stale) => AfterRead(req, key, stale, StatExpired, p, faults, env, reply, ops)
        case ServeStale(e) => Outcome(Ok(AsResponse(e)), p, ops, None, Some(StatIgnoredExpiry))
        case Abort(err) => Outcome(Err(err), p, ops, None, None)
        case Hit(e) => Outcome(Ok(AsResponse(e)), p, ops, None, Some(StatHit))
        case Miss => AfterRead(req, key, None, StatMiss, p, faults, env, reply, ops)
  }
}
