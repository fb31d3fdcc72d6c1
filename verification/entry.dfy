/** The cached-entry record, its freshness test and response reconstruction (entry.go). */
module Entries {
  import opened Wrappers
  import opened Http

  /** `cacheEntry`: capture time, status, body bytes and one value per header name. */
  datatype Entry = Entry(ts: int, statusCode: int, data: Bytes, headers: map<string, string>)

  const ExpiresHeader: string := "Expires"

  /** The persisted form of an entry. The JSON encoding itself is not modelled; a codec
      is any pair of functions, and the cache relies only on `Roundtrips`. */
  datatype Codec = Codec(encode: Entry -> Bytes, decode: Bytes -> Option<Entry>)

  /** What `json.Marshal`/`json.Unmarshal` give the cache: decoding an encoding yields the
      entry back, and an encoding is never empty (the cache reads empty values as misses). */
  ghost predicate Roundtrips(c: Codec) {
    forall e :: c.decode(c.encode(e)) == Some(e) && |c.encode(e)| > 0
  }

  /** `expired()`. Times are instants on one integer clock; `parseDate` stands for
      `time.Parse(time.RFC1123, …)` (the date layout of section 5.2.14 of RFC 1123), with
      `None` for a value that does not parse. */
  predicate Expired(e: Entry, parseDate: string -> Option<int>, now: int) {
    if ExpiresHeader !in e.headers then true
    else match parseDate(e.headers[ExpiresHeader])
      case None => true
      case Some(expires) => expires < now
  }

  /** `asHttpResponse`: status and body copied verbatim, every stored header name mapped to
      a one-element list, and `ContentLength` the body length. */
  function AsResponse(e: Entry): (r: Response)
    ensures r.statusCode == e.statusCode
    ensures r.body == Readable(e.data) && r.contentLength == |e.data|
    ensures r.header.Keys == e.headers.Keys
    ensures forall k :: k in r.header ==> r.header[k] == [e.headers[k]]
  {
    Response(e.statusCode, map k | k in e.headers :: [e.headers[k]], Readable(e.data), |e.data|)
  }

  /** Without an `Expires` header an entry is expired, whatever the clock says. */
  lemma MissingExpiresIsExpired(e: Entry, parseDate: string -> Option<int>, now: int)
    requires ExpiresHeader !in e.headers
    ensures Expired(e, parseDate, now)
  {
  }

  /** An `Expires` value that does not parse makes the entry expired (fail-closed). */
  lemma UnparsableExpiresIsExpired(e: Entry, parseDate: string -> Option<int>, now: int)
    requires ExpiresHeader in e.headers && parseDate(e.headers[ExpiresHeader]).None?
    ensures Expired(e, parseDate, now)
  {
  }

  /** With a parsed `Expires` instant the entry is expired exactly when that instant is
      strictly before now; at the instant itself it is still fresh. */
  lemma ExpiredIffBeforeNow(e: Entry, parseDate: string -> Option<int>, now: int, expires: int)
    requires ExpiresHeader in e.headers && parseDate(e.headers[ExpiresHeader]) == Some(expires)
    ensures Expired(e, parseDate, now) <==> expires < now
    ensures !Expired(e, parseDate, expires)
  {
  }

  /** Freshness reads nothing but the `Expires` header and the clock: two entries that agree
      on that header agree on freshness, whatever their time stamp, status, body or other headers. */
  lemma FreshnessReadsOnlyExpires(e1: Entry, e2: Entry, parseDate: string -> Option<int>, now: int)
    requires (ExpiresHeader in e1.headers) == (ExpiresHeader in e2.headers)
    requires ExpiresHeader in e1.headers ==> e1.headers[ExpiresHeader] == e2.headers[ExpiresHeader]
    ensures Expired(e1, parseDate, now) == Expired(e2, parseDate, now)
  {
  }

  /** Once expired, an entry stays expired as the clock moves forward. */
  lemma ExpiryIsPermanent(e: Entry, parseDate: string -> Option<int>, now: int, later: int)
    requires Expired(e, parseDate, now) && now <= later
    ensures Expired(e, parseDate, later)
  {
  }
}
