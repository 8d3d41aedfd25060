/**
 * The balancer of cmd/internal/balancer/balancer.go: its constructor, which allocates one port
 * per backend, and the lb handler together with the reverse proxy and ErrorHandler each
 * backend is built with in cmd/internal/instance/instance.go:28-67. Each method is proved to
 * do what the value-level Dispatch functions say, on the pool's flags and cursor and on the
 * exchange.
 */
module Balancer {
  import opened Wrappers
  import opened Rotation
  import opened Instance
  import opened Pool
  import opened Web
  import opened Dispatch
  import opened Port

  /** The pool's flags and cursor with the exchange's forwards and events, as one Dispatch state. */
  ghost function Snapshot(pool: ServerPool, x: Exchange): State
    reads pool, pool.backends, x
  {
    State(Flags(pool.backends), pool.current, x.forwards, x.trace)
  }

  class Balancer {
    const porter: Service
    const pool: ServerPool

    constructor Make(porter: Service, pool: ServerPool)
      ensures this.porter == porter && this.pool == pool
    {
      this.porter := porter;
      this.pool := pool;
    }

    /**
     * balancer.New: one backend per instance, each on the next port the allocator hands out,
     * alive, at http://localhost:<port>, with cursor 0. When the allocator runs out, Go calls
     * log.Fatal and the process ends; that is the Failure result, which happens exactly when
     * some instance is asked for beyond the limit.
     */
    static method New(instances: int, porter: Service) returns (r: Result<Balancer, string>)
      requires porter.Valid()
      modifies porter
      ensures porter.Valid()
      ensures r.Failure? <==> 0 < instances && old(porter.portCount) + instances > porter.limit
      ensures r.Failure? ==> r.error == TooMany
      ensures r.Success? ==>
                var b, c0 := r.value, old(porter.portCount);
                && fresh(b) && fresh(b.pool) && b.porter == porter
                && b.pool.Valid() && b.pool.current == 0
                && |b.pool.backends| == Max(instances, 0)
                && porter.portCount == c0 + |b.pool.backends|
                && forall i :: 0 <= i < |b.pool.backends| ==>
                     && fresh(b.pool.backends[i])
                     && b.pool.backends[i].port == BasePort + c0 + i + 1
                     && b.pool.backends[i].url == UrlOf(BasePort + c0 + i + 1)
                     && b.pool.backends[i].alive
    {
      var backends: seq<Backend> := [];
      var i := 0;
      while i < instances
        invariant 0 <= i <= Max(instances, 0)
        invariant porter.Valid() && porter.portCount == old(porter.portCount) + i
        invariant porter.portCount <= porter.limit || i == 0
        invariant Distinct(backends) && |backends| == i
        invariant forall j :: 0 <= j < i ==>
                    && fresh(backends[j])
                    && backends[j].port == BasePort + old(porter.portCount) + j + 1
                    && backends[j].url == UrlOf(BasePort + old(porter.portCount) + j + 1)
                    && backends[j].alive
      {
        var instancePort := porter.GetNext();
        if instancePort.Failure? {
          return Failure(instancePort.error);
        }
        var backend := new Backend.New(instancePort.value);
        backends := backends + [backend];
        i := i + 1;
      }
      var pool := new ServerPool.Of(backends);
      var balancer := new Balancer.Make(porter, pool);
      return Success(balancer);
    }

    /**
     * lb: past the attempt cap, writes "Service not available"; otherwise asks the pool for
     * the next alive backend and hands the request to its reverse proxy, or writes "service
     * unavailable" when there is none. The ghost `ok` is the exchange's transport seen through
     * the pool's URLs.
     */
    method Lb(x: Exchange, ctx: Context, ghost ok: Transport)
      requires pool.Valid() && |pool.backends| > 0
      requires ok == ByIndex(x.ok, Urls(pool.backends))
      modifies pool`current, pool.backends`alive, x`forwards, x`trace
      ensures Snapshot(pool, x) == Dispatch.Lb(old(Snapshot(pool, x)), GetAttemptsFromContext(ctx), GetRetryFromContext(ctx), ok)
      decreases Budget(GetAttemptsFromContext(ctx), GetRetryFromContext(ctx), 3)
    {
      ghost var s0 := Snapshot(pool, x);
      var attempts := GetAttemptsFromContext(ctx);
      if attempts > MaxAttempts {
        x.Fail(CapBody);
        assert Flags(pool.backends) == s0.alive;
        LbStep(s0, attempts, GetRetryFromContext(ctx), ok);
        return;
      }
      ghost var sel := Select(s0.alive, s0.cursor);
      var peer := pool.GetNextPeer();
      ghost var s1 := Snapshot(pool, x);
      assert s1 == s0.(cursor := sel.cursor);
      if peer != null {
        Proxy(x, peer, sel.peer.value, ctx, ok);
        LbStep(s0, attempts, GetRetryFromContext(ctx), ok);
        return;
      }
      x.Fail(NoPeerBody);
      assert Flags(pool.backends) == s1.alive;
      LbStep(s0, attempts, GetRetryFromContext(ctx), ok);
    }

    /** The reverse proxy of backend p forwards the request; a transport error runs its ErrorHandler. */
    method Proxy(x: Exchange, peer: Backend, ghost p: nat, ctx: Context, ghost ok: Transport)
      requires pool.Valid() && p < |pool.backends| && pool.backends[p] == peer
      requires ok == ByIndex(x.ok, Urls(pool.backends))
      requires GetAttemptsFromContext(ctx) <= MaxAttempts
      modifies pool`current, pool.backends`alive, x`forwards, x`trace
      ensures Snapshot(pool, x) == Dispatch.Proxy(old(Snapshot(pool, x)), p, GetAttemptsFromContext(ctx), GetRetryFromContext(ctx), ok)
      decreases Budget(GetAttemptsFromContext(ctx), GetRetryFromContext(ctx), 2)
    {
      ghost var s0 := Snapshot(pool, x);
      var attempts, retries := GetAttemptsFromContext(ctx), GetRetryFromContext(ctx);
      assert Urls(pool.backends)[p] == peer.url;
      var success := x.Forward(peer.url, p, attempts, retries);
      assert success == ok(p, s0.forwards);
      assert Flags(pool.backends) == s0.alive;
      ghost var s1 := Snapshot(pool, x);
      assert s1 == s0.(forwards := s0.forwards + 1, trace := s0.trace + [Forwarded(p, attempts, retries, success)]);
      ProxyStep(s0, p, attempts, retries, ok);
      if !success {
        HandleError(x, peer, p, ctx, ok);
      }
    }

    /** back.SetAlive(false) for backend p of the pool: its flag drops and no other flag changes. */
    method MarkDead(x: Exchange, peer: Backend, ghost p: nat)
      requires pool.Valid() && p < |pool.backends| && pool.backends[p] == peer
      modifies peer`alive
      ensures var s := old(Snapshot(pool, x)); Snapshot(pool, x) == s.(alive := s.alive[p := false])
    {
      ghost var before := Flags(pool.backends);
      peer.SetAlive(false);
      forall i | 0 <= i < |pool.backends|
        ensures Flags(pool.backends)[i] == before[p := false][i]
      {
        assert i != p ==> pool.backends[i] != peer;
      }
    }

    /**
     * The ErrorHandler of backend p: below 3 retries, forwards to it again with retries + 1;
     * then marks it dead through SetAlive and calls lb with attempts + 1.
     */
    method HandleError(x: Exchange, peer: Backend, ghost p: nat, ctx: Context, ghost ok: Transport)
      requires pool.Valid() && p < |pool.backends| && pool.backends[p] == peer
      requires ok == ByIndex(x.ok, Urls(pool.backends))
      requires GetAttemptsFromContext(ctx) <= MaxAttempts
      modifies pool`current, pool.backends`alive, x`forwards, x`trace
      ensures Snapshot(pool, x) == Dispatch.HandleError(old(Snapshot(pool, x)), p, GetAttemptsFromContext(ctx), GetRetryFromContext(ctx), ok)
      decreases Budget(GetAttemptsFromContext(ctx), GetRetryFromContext(ctx), 1)
    {
      var retries := GetRetryFromContext(ctx);
      if retries < MaxRetries {
        RetryRoundTrip(ctx, retries + 1);
        Proxy(x, peer, p, WithValue(ctx, Retry, Int(retries + 1)), ok);
      }
      Failover(x, peer, p, ctx, ok);
    }

    /**
     * The second half of the ErrorHandler of backend p: marks it dead through SetAlive, then
     * lb with attempts + 1 and the retry count the handler was given.
     */
    method Failover(x: Exchange, peer: Backend, ghost p: nat, ctx: Context, ghost ok: Transport)
      requires pool.Valid() && p < |pool.backends| && pool.backends[p] == peer
      requires ok == ByIndex(x.ok, Urls(pool.backends))
      requires GetAttemptsFromContext(ctx) <= MaxAttempts
      modifies pool`current, pool.backends`alive, x`forwards, x`trace
      ensures Snapshot(pool, x) == Dispatch.Failover(old(Snapshot(pool, x)), p, GetAttemptsFromContext(ctx), GetRetryFromContext(ctx), ok)
      decreases Budget(GetAttemptsFromContext(ctx), GetRetryFromContext(ctx), 0)
    {
      MarkDead(x, peer, p);
      var attempts := GetAttemptsFromContext(ctx);
      AttemptsRoundTrip(ctx, attempts + 1);
      Lb(x, WithValue(ctx, Attempts, Int(attempts + 1)), ok);
    }
  }
}
