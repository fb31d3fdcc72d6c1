/** The map-backed reference provider (memoryprovider/provider.go). */
module MemoryProvider {
  import opened Wrappers
  import opened Http
  import opened Errors
  import opened Providers

  /** `MemoryProvider`: `None` is the nil map of a zero-value `&MemoryProvider{}`. */
  datatype MemoryProvider = MemoryProvider(data: Option<map<string, Bytes>>)

  predicate Initialized(p: MemoryProvider) {
    p.data.Some?
  }

  /** The values the provider holds; an uninitialised one holds none. */
  function Held(p: MemoryProvider): map<string, Bytes> {
    if p.data.Some? then p.data.value else map[]
  }

  function New(): (p: MemoryProvider)
    ensures Initialized(p) && Held(p) == map[]
  {
    MemoryProvider(Some(map[]))
  }

  function Get(p: MemoryProvider, key: string): (r: GetReply)
    ensures GetHonours(r, Held(p), key, Initialized(p))
    ensures !Initialized(p) <==> r == GetFailed(NotInitialized)
    ensures Initialized(p) && key in Held(p) ==> r == Found(Held(p)[key])
  {
    match p.data
    case None => GetFailed(NotInitialized)
    case Some(m) => if key in m then Found(m[key]) else Absent
  }

  /** `Set`; the expiry argument is accepted and ignored. */
  function Set(p: MemoryProvider, key: string, value: Bytes, expiry: int): (r: (MemoryProvider, Option<Error>))
    ensures SetHonours(Held(p), Held(r.0), key, value, r.1.Some?)
    ensures Initialized(p) ==> r.1.None? && Initialized(r.0)
    ensures !Initialized(p) ==> r == (p, Some(NotInitialized))
  {
    match p.data
    case None => (p, Some(NotInitialized))
    case Some(m) => (MemoryProvider(Some(m[key := value])), None)
  }

  /** A new provider holds nothing: every `Get` reports "not found" without an error. */
  lemma NewIsEmpty(key: string)
    ensures Get(New(), key) == Absent
  {
  }

  /** `Get` after `Set` on the same key returns the bytes that were set. */
  lemma GetAfterSet(p: MemoryProvider, key: string, value: Bytes, expiry: int)
    requires Initialized(p)
    ensures Get(Set(p, key, value, expiry).0, key) == Found(value)
  {
  }

  /** `Set` replaces one key only: every other key reads as before. */
  lemma SetLeavesOtherKeys(p: MemoryProvider, key: string, value: Bytes, expiry: int, other: string)
    requires other != key
    ensures Get(Set(p, key, value, expiry).0, other) == Get(p, other)
  {
  }

  /** An uninitialised provider fails both calls and stores nothing. */
  lemma UninitializedFails(key: string, value: Bytes, expiry: int)
    ensures Get(MemoryProvider(None), key).GetFailed?
    ensures Set(MemoryProvider(None), key, value, expiry) == (MemoryProvider(None), Some(NotInitialized))
  {
  }

  /** Values never expire from the store: the expiry argument changes nothing. */
  lemma ExpiryIgnored(p: MemoryProvider, key: string, value: Bytes, e1: int, e2: int)
    ensures Set(p, key, value, e1) == Set(p, key, value, e2)
  {
  }
}
