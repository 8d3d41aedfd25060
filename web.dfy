/**
 * The request-scoped attempt and retry counters (cmd/app/main.go:31-49; the package
 * cmd/internal/platform/web that cmd/internal holds the same getters in is not part of this
 * model, so its getters are taken to be these). A request context is a map from keys to the
 * dynamically typed values stored under them.
 */
module Web {

  /** A value stored in a context: an int, or a value of some other dynamic type. */
  datatype Value = Int(n: int) | OtherType

  type Context = map<int, Value>

  /** The context keys, numbered by iota. */
  const Attempts: int := 0
  const Retry: int := 1

  /** The int stored under key, or 0 when the key is absent or holds a value that is not an int. */
  function IntOrZero(ctx: Context, key: int): (v: int)
    ensures key !in ctx ==> v == 0
    ensures key in ctx && ctx[key].OtherType? ==> v == 0
    ensures key in ctx && ctx[key].Int? ==> v == ctx[key].n
  {
    if key in ctx && ctx[key].Int? then ctx[key].n else 0
  }

  /** GetRetryFromContext: the request's retry count, 0 by default. */
  function GetRetryFromContext(ctx: Context): (r: int)
    ensures Retry in ctx && ctx[Retry].Int? ==> r == ctx[Retry].n
    ensures !(Retry in ctx && ctx[Retry].Int?) ==> r == 0
  {
    IntOrZero(ctx, Retry)
  }

  /** GetAttemptsFromContext: the request's attempt count, 0 by default. */
  function GetAttemptsFromContext(ctx: Context): (a: int)
    ensures Attempts in ctx && ctx[Attempts].Int? ==> a == ctx[Attempts].n
    ensures !(Attempts in ctx && ctx[Attempts].Int?) ==> a == 0
  {
    IntOrZero(ctx, Attempts)
  }

  /** context.WithValue: a derived context in which key now holds v. */
  function WithValue(ctx: Context, key: int, v: Value): (c: Context)
    ensures key in c && c[key] == v
    ensures forall k :: k in ctx && k != key ==> k in c && c[k] == ctx[k]
    ensures forall k :: k in c ==> k == key || k in ctx
  {
    ctx[key := v]
  }

  /** Storing a retry count is read back by the retry getter and leaves the attempt count alone. */
  lemma RetryRoundTrip(ctx: Context, r: int)
    ensures GetRetryFromContext(WithValue(ctx, Retry, Int(r))) == r
    ensures GetAttemptsFromContext(WithValue(ctx, Retry, Int(r))) == GetAttemptsFromContext(ctx)
  {
  }

  /** Storing an attempt count is read back by the attempt getter and leaves the retry count alone. */
  lemma AttemptsRoundTrip(ctx: Context, a: int)
    ensures GetAttemptsFromContext(WithValue(ctx, Attempts, Int(a))) == a
    ensures GetRetryFromContext(WithValue(ctx, Attempts, Int(a))) == GetRetryFromContext(ctx)
  {
  }
}
