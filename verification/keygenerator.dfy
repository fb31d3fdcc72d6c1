/** The default cache key (keygenerator.go). */
module Keys {
  import opened Http

  function DefaultKeyGenerator(req: Request): string {
    req.url
  }

  /** The default key is the URL's string form itself: two requests share a key exactly
      when their URLs render to the same string, so nothing is normalised away. */
  lemma DefaultKeyIsUrl(a: Request, b: Request)
    ensures DefaultKeyGenerator(a) == a.url
    ensures DefaultKeyGenerator(a) == DefaultKeyGenerator(b) <==> a.url == b.url
  {
  }
}
