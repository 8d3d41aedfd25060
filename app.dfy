/**
 * The standalone prototype of cmd/app/main.go: a balancer over four backends on ports 8081 to
 * 8084 whose URLs carry the path "/hello", with its own lb handler and ErrorHandler. It
 * differs from cmd/internal/balancer in how the ErrorHandler marks a backend dead: through
 * the pool's MarkBackendStatus, by URL, rather than through the backend's own SetAlive.
 */
module App {
  import opened Rotation
  import opened Instance
  import opened Pool
  import opened Web
  import opened Dispatch
  import B = Balancer

  /** The path of every backend URL, and the route the balancer serves. */
  const Path: string := "/hello"
  /** The first backend listens on BasePort + 1. */
  const BasePort: nat := 8080
  /** main starts backends for i = 1 .. 4. */
  const Backends: nat := 4

  class Balancer {
    const pool: ServerPool
    /** The position of the backend with each URL (proof only). */
    ghost const urlSlot: map<string, nat>

    /**
     * The pool's invariant, and every backend's URL maps to its position, so no two backends
     * share a URL and MarkBackendStatus hits the right one.
     */
    ghost predicate Valid()
    {
      && pool.Valid()
      && forall i :: 0 <= i < |pool.backends| ==> pool.backends[i].url in urlSlot && urlSlot[pool.backends[i].url] == i
    }

    /** A valid balancer's backends have distinct URLs. */
    lemma ValidHasDistinctUrls()
      requires Valid()
      ensures DistinctUrls(pool.backends)
    {
    }

    /** main's loop: for i = 1 .. 4 an alive backend at http://localhost:<8080 + i>/hello, in order. */
    static method StartBackends() returns (backends: seq<Backend>)
      ensures |backends| == Backends && DistinctUrls(backends)
      ensures forall j :: 0 <= j < Backends ==>
                && fresh(backends[j])
                && backends[j].port == BasePort + 1 + j
                && backends[j].url == UrlOf(BasePort + 1 + j) + Path
                && backends[j].alive
    {
      backends := [];
      var i := 1;
      while i < Backends + 1
        invariant 1 <= i <= Backends + 1
        invariant DistinctUrls(backends) && |backends| == i - 1
        invariant forall j :: 0 <= j < i - 1 ==>
                    && fresh(backends[j])
                    && backends[j].port == BasePort + 1 + j
                    && backends[j].url == UrlOf(BasePort + 1 + j) + Path
                    && backends[j].alive
      {
        var b := new Backend.WithPath(BasePort + i, Path);
        forall j | 0 <= j < i - 1
          ensures backends[j].url != b.url
        {
          UrlOfInjective(BasePort + 1 + j, BasePort + i, Path);
        }
        backends := backends + [b];
        i := i + 1;
      }
    }

    /** main's setup: an empty pool to which the backends StartBackends makes are appended in order. */
    constructor Build()
      ensures Valid() && fresh(pool) && pool.current == 0 && |pool.backends| == Backends
      ensures forall i :: 0 <= i < Backends ==>
                && fresh(pool.backends[i])
                && pool.backends[i].port == BasePort + 1 + i
                && pool.backends[i].url == UrlOf(BasePort + 1 + i) + Path
                && pool.backends[i].alive
    {
      var backends := StartBackends();
      DistinctUrlsAreDistinct(backends);
      urlSlot := UrlPositions(backends);
      pool := new ServerPool.Of(backends);
    }

    /**
     * lb: past the attempt cap, writes "Service not available"; otherwise hands the request to
     * the next alive backend's reverse proxy, or writes "service unavailable" when there is
     * none. The ghost `ok` is the exchange's transport seen through the pool's URLs.
     */
    method Lb(x: Exchange, ctx: Context, ghost ok: Transport)
      requires Valid() && |pool.backends| > 0
      requires ok == ByIndex(x.ok, Urls(pool.backends))
      modifies pool`current, pool.backends`alive, x`forwards, x`trace
      ensures B.Snapshot(pool, x) == Dispatch.Lb(old(B.Snapshot(pool, x)), GetAttemptsFromContext(ctx), GetRetryFromContext(ctx), ok)
      decreases Budget(GetAttemptsFromContext(ctx), GetRetryFromContext(ctx), 3)
    {
      ghost var s0 := B.Snapshot(pool, x);
      var attempts := GetAttemptsFromContext(ctx);
      if attempts > MaxAttempts {
        x.Fail(CapBody);
        assert Flags(pool.backends) == s0.alive;
        LbStep(s0, attempts, GetRetryFromContext(ctx), ok);
        return;
      }
      ghost var sel := Select(s0.alive, s0.cursor);
      var peer := pool.GetNextPeer();
      ghost var s1 := B.Snapshot(pool, x);
      assert s1 == s0.(cursor := sel.cursor);
      if peer != null {
        Proxy(x, peer, sel.peer.value, ctx, ok);
        LbStep(s0, attempts, GetRetryFromContext(ctx), ok);
        return;
      }
      x.Fail(NoPeerBody);
      assert Flags(pool.backends) == s1.alive;
      LbStep(s0, attempts, GetRetryFromContext(ctx), ok);
    }

    /** The reverse proxy of backend p forwards the request; a transport error runs its ErrorHandler. */
    method Proxy(x: Exchange, peer: Backend, ghost p: nat, ctx: Context, ghost ok: Transport)
      requires Valid() && p < |pool.backends| && pool.backends[p] == peer
      requires ok == ByIndex(x.ok, Urls(pool.backends))
      requires GetAttemptsFromContext(ctx) <= MaxAttempts
      modifies pool`current, pool.backends`alive, x`forwards, x`trace
      ensures B.Snapshot(pool, x) == Dispatch.Proxy(old(B.Snapshot(pool, x)), p, GetAttemptsFromContext(ctx), GetRetryFromContext(ctx), ok)
      decreases Budget(GetAttemptsFromContext(ctx), GetRetryFromContext(ctx), 2)
    {
      ghost var s0 := B.Snapshot(pool, x);
      var attempts, retries := GetAttemptsFromContext(ctx), GetRetryFromContext(ctx);
      assert Urls(pool.backends)[p] == peer.url;
      var success := x.Forward(peer.url, p, attempts, retries);
      assert success == ok(p, s0.forwards);
      assert Flags(pool.backends) == s0.alive;
      ghost var s1 := B.Snapshot(pool, x);
      assert s1 == s0.(forwards := s0.forwards + 1, trace := s0.trace + [Forwarded(p, attempts, retries, success)]);
      ProxyStep(s0, p, attempts, retries, ok);
      if !success {
        HandleError(x, peer, p, ctx, ok);
      }
    }

    /**
     * pool.MarkBackendStatus(u, false) with u the URL of backend p: since no two backends share
     * a URL, exactly p's flag drops.
     */
    method MarkDead(x: Exchange, peer: Backend, ghost p: nat)
      requires Valid() && p < |pool.backends| && pool.backends[p] == peer
      modifies pool.backends`alive
      ensures var s := old(B.Snapshot(pool, x)); B.Snapshot(pool, x) == s.(alive := s.alive[p := false])
    {
      ghost var before := Flags(pool.backends);
      assert Urls(pool.backends)[p] == peer.url;
      pool.MarkBackendStatus(peer.url, false);
      SetFlagOfDistinctUrl(before, Urls(pool.backends), p, false);
    }

    /**
     * The ErrorHandler of backend p: below 3 retries, forwards to it again with retries + 1;
     * then marks the backend with p's URL dead through MarkBackendStatus and calls lb with
     * attempts + 1.
     */
    method HandleError(x: Exchange, peer: Backend, ghost p: nat, ctx: Context, ghost ok: Transport)
      requires Valid() && p < |pool.backends| && pool.backends[p] == peer
      requires ok == ByIndex(x.ok, Urls(pool.backends))
      requires GetAttemptsFromContext(ctx) <= MaxAttempts
      modifies pool`current, pool.backends`alive, x`forwards, x`trace
      ensures B.Snapshot(pool, x) == Dispatch.HandleError(old(B.Snapshot(pool, x)), p, GetAttemptsFromContext(ctx), GetRetryFromContext(ctx), ok)
      decreases Budget(GetAttemptsFromContext(ctx), GetRetryFromContext(ctx), 1)
    {
      var retries := GetRetryFromContext(ctx);
      if retries < MaxRetries {
        RetryRoundTrip(ctx, retries + 1);
        Proxy(x, peer, p, WithValue(ctx, Retry, Int(retries + 1)), ok);
      }
      Failover(x, peer, p, ctx, ok);
    }

    /**
     * The second half of the ErrorHandler of backend p: marks it dead through MarkBackendStatus, then
     * lb with attempts + 1 and the retry count the handler was given.
     */
    method Failover(x: Exchange, peer: Backend, ghost p: nat, ctx: Context, ghost ok: Transport)
      requires Valid() && p < |pool.backends| && pool.backends[p] == peer
      requires ok == ByIndex(x.ok, Urls(pool.backends))
      requires GetAttemptsFromContext(ctx) <= MaxAttempts
      modifies pool`current, pool.backends`alive, x`forwards, x`trace
      ensures B.Snapshot(pool, x) == Dispatch.Failover(old(B.Snapshot(pool, x)), p, GetAttemptsFromContext(ctx), GetRetryFromContext(ctx), ok)
      decreases Budget(GetAttemptsFromContext(ctx), GetRetryFromContext(ctx), 0)
    {
      MarkDead(x, peer, p);
      var attempts := GetAttemptsFromContext(ctx);
      AttemptsRoundTrip(ctx, attempts + 1);
      Lb(x, WithValue(ctx, Attempts, Int(attempts + 1)), ok);
    }
  }
}
