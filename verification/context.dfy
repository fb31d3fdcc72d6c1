/** Per-request override flags carried on the request's `context.Context` (context.go). */
module Contexts {
  import opened Wrappers

  /** A `context.Context` as far as `Value` lookups go: a nil interface, a root
      (`context.Background()`), or a chain of `context.WithValue` layers. Layers whose key
      is this package's `contextKey` always carry a `bool`; other packages' layers are
      opaque to the flag readers. */
  datatype Context =
    | Nil
    | Background
    | WithFlag(parent: Context, key: string, flag: bool)
    | WithForeign(parent: Context, id: nat)

  const IgnoreExpiredKey: string := "contextKeyIgnoreExpired"
  const IgnoreCacheKey: string := "contextKeyIgnoreCache"
  const OnlyCachedKey: string := "contextKeyOnlyCached"

  /** `ctx.Value(key)` for a `contextKey`: the innermost layer with that key wins. */
  function Value(ctx: Context, key: string): Option<bool>
    decreases ctx
  {
    match ctx
    case Nil => None
    case Background => None
    case WithFlag(parent, k, b) => if k == key then Some(b) else Value(parent, key)
    case WithForeign(parent, _) => Value(parent, key)
  }

  /** The `contextKey` names set anywhere along the chain. */
  function FlagKeys(ctx: Context): set<string>
    decreases ctx
  {
    match ctx
    case Nil => {}
    case Background => {}
    case WithFlag(parent, k, _) => FlagKeys(parent) + {k}
    case WithForeign(parent, _) => FlagKeys(parent)
  }

  /** The shared body of the three readers: false for a nil context or an unset key. */
  function ReadFlag(ctx: Context, key: string): bool {
    if ctx.Nil? then false
    else match Value(ctx, key)
      case None => false
      case Some(b) => b
  }

  /** `context.WithValue` panics on a nil parent, so every setter requires one. */
  function WithIgnoreExpired(ctx: Context, shouldIgnore: bool): (r: Context)
    requires !ctx.Nil?
    ensures IgnoreExpired(r) == shouldIgnore
    ensures IgnoreCache(r) == IgnoreCache(ctx) && OnlyCached(r) == OnlyCached(ctx)
  {
    WithFlag(ctx, IgnoreExpiredKey, shouldIgnore)
  }

  function IgnoreExpired(ctx: Context): bool {
    ReadFlag(ctx, IgnoreExpiredKey)
  }

  function WithIgnoreCache(ctx: Context, shouldIgnore: bool): (r: Context)
    requires !ctx.Nil?
    ensures IgnoreCache(r) == shouldIgnore
    ensures IgnoreExpired(r) == IgnoreExpired(ctx) && OnlyCached(r) == OnlyCached(ctx)
  {
    WithFlag(ctx, IgnoreCacheKey, shouldIgnore)
  }

  function IgnoreCache(ctx: Context): bool {
    ReadFlag(ctx, IgnoreCacheKey)
  }

  function WithOnlyCached(ctx: Context, shouldOnly: bool): (r: Context)
    requires !ctx.Nil?
    ensures OnlyCached(r) == shouldOnly
    ensures IgnoreExpired(r) == IgnoreExpired(ctx) && IgnoreCache(r) == IgnoreCache(ctx)
  {
    WithFlag(ctx, OnlyCachedKey, shouldOnly)
  }

  function OnlyCached(ctx: Context): bool {
    ReadFlag(ctx, OnlyCachedKey)
  }

  /** The three flags as the cache reads them from one context. */
  datatype Flags = Flags(ignoreExpired: bool, ignoreCache: bool, onlyCached: bool)

  function FlagsOf(ctx: Context): Flags {
    Flags(IgnoreExpired(ctx), IgnoreCache(ctx), OnlyCached(ctx))
  }

  /** The three keys are distinct, so no setter can alias another flag. */
  lemma KeysDistinct()
    ensures IgnoreExpiredKey != IgnoreCacheKey
    ensures IgnoreExpiredKey != OnlyCachedKey
    ensures IgnoreCacheKey != OnlyCachedKey
  {
  }

  /** A key never set along the chain has no value, however many unrelated layers sit on it. */
  lemma {:induction false} UnsetKeyHasNoValue(ctx: Context, key: string)
    requires key !in FlagKeys(ctx)
    ensures Value(ctx, key).None?
    decreases ctx
  {
    match ctx
    case Nil =>
    case Background =>
    case WithFlag(parent, _, _) => UnsetKeyHasNoValue(parent, key);
    case WithForeign(parent, _) => UnsetKeyHasNoValue(parent, key);
  }

  /** Each reader defaults to false when its flag was never set. */
  lemma {:induction false} UnsetFlagsReadFalse(ctx: Context)
    ensures IgnoreExpiredKey !in FlagKeys(ctx) ==> !IgnoreExpired(ctx)
    ensures IgnoreCacheKey !in FlagKeys(ctx) ==> !IgnoreCache(ctx)
    ensures OnlyCachedKey !in FlagKeys(ctx) ==> !OnlyCached(ctx)
  {
    if IgnoreExpiredKey !in FlagKeys(ctx) { UnsetKeyHasNoValue(ctx, IgnoreExpiredKey); }
    if IgnoreCacheKey !in FlagKeys(ctx) { UnsetKeyHasNoValue(ctx, IgnoreCacheKey); }
    if OnlyCachedKey !in FlagKeys(ctx) { UnsetKeyHasNoValue(ctx, OnlyCachedKey); }
  }

  /** A nil context reads false for every flag. */
  lemma NilReadsFalse()
    ensures FlagsOf(Nil) == Flags(false, false, false)
  {
  }

  /** Setting a flag derives a new context: the parent is a separate value and keeps its
      readings, and a later setting on the derived context shadows the earlier one. */
  lemma DerivedContextShadows(ctx: Context, first: bool, second: bool)
    requires !ctx.Nil?
    ensures IgnoreCache(WithIgnoreCache(WithIgnoreCache(ctx, first), second)) == second
    ensures IgnoreExpired(WithIgnoreExpired(WithIgnoreExpired(ctx, first), second)) == second
    ensures OnlyCached(WithOnlyCached(WithOnlyCached(ctx, first), second)) == second
    ensures WithIgnoreCache(ctx, first) != ctx
    ensures WithIgnoreExpired(ctx, first) != ctx && WithOnlyCached(ctx, first) != ctx
  {
  }
}
