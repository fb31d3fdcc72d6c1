/** The slice of net/http the cache touches: requests, responses and header maps. */
module Http {
  import opened Contexts

  newtype byte = x: int | 0 <= x < 256
  type Bytes = seq<byte>

  /** `http.Header`: each name maps to a list of values. Names are compared exactly. */
  type Header = map<string, seq<string>>

  const MethodGet: string := "GET"
  const StatusNotModified: int := 304

  /** A response body stream: either `io.ReadAll` yields these bytes, or it fails with an
      error raised outside the model. */
  datatype Body = Readable(bytes: Bytes) | Broken(err: nat)

  /** `req.URL.String()` is kept as the string it renders to. */
  datatype Request = Request(httpMethod: string, url: string, header: Header, ctx: Context)

  datatype Response = Response(statusCode: int, header: Header, body: Body, contentLength: int)

  /** What the transport's `Do` hands back: a response, or an error from outside the model. */
  datatype Reply = Replied(resp: Response) | Failed(err: nat)

  /** `Header.Set`: the name now holds exactly this one value; other names keep theirs. */
  function SetHeader(h: Header, name: string, value: string): (r: Header)
    ensures name in r && r[name] == [value]
    ensures r.Keys == h.Keys + {name}
    ensures forall k :: k in h && k != name ==> r[k] == h[k]
  {
    h[name := [value]]
  }
}
