/** The storage-provider contract the cache is written against (provider.go). */
module Providers {
  import opened Http
  import opened Errors

  /** The answer of `Get`: the stored bytes, "not found" (Go's `nil, nil`), or an error. */
  datatype GetReply = Found(value: Bytes) | Absent | GetFailed(err: Error)

  /** One call the cache makes on its provider, in the order made. */
  datatype ProviderOp = GetOp(key: string) | SetOp(key: string, value: Bytes, expiry: int)

  /** The contract for one `Get` against the values a provider holds: a provider that can be
      reached answers without error, "not found" is `Absent` and never an error, and a found
      value is the one held under the key. */
  predicate GetHonours(r: GetReply, held: map<string, Bytes>, key: string, reachable: bool) {
    && (reachable ==> !r.GetFailed?)
    && (r.Found? ==> key in held && held[key] == r.value)
    && (r.Absent? ==> key !in held)
  }

  /** The contract for one `Set`: without an error the key now holds the value; an error
      means the value could not be set. */
  predicate SetHonours(before: map<string, Bytes>, after: map<string, Bytes>, key: string, value: Bytes, err: bool) {
    !err ==> after == before[key := value]
  }
}
