/**
 * Dispatch of one inbound request, on values: the balancer's lb handler
 * (cmd/internal/balancer/balancer.go:51-67, cmd/app/main.go:119-135), the forward through the
 * chosen backend's reverse proxy, and that proxy's ErrorHandler
 * (cmd/internal/instance/instance.go:47-64, cmd/app/main.go:72-89). The three are mutually
 * recursive: a failed forward runs the ErrorHandler, which may forward again to the same
 * backend (a nested forward whose own failure runs a nested ErrorHandler), then marks the
 * backend dead and calls lb again with one more attempt. The request's two counters, which the
 * source carries in the request context (module Web), are plain parameters here: a for the
 * attempt count and r for the retry count.
 */
module Dispatch {
  import opened Wrappers
  import opened Rotation

  /** lb gives up once the attempt count exceeds this. */
  const MaxAttempts: int := 3
  /** The ErrorHandler re-forwards to the same backend while the retry count is below this. */
  const MaxRetries: int := 3

  /** The 503 body lb writes once the attempt cap is exceeded. */
  const CapBody: string := "Service not available"
  /** The 503 body lb writes when no backend is alive. */
  const NoPeerBody: string := "service unavailable"

  /** What the transport and the response writer see. */
  datatype Event =
      /** One ReverseProxy.ServeHTTP to backend `peer`, under the request's counters, and its outcome. */
    | Forwarded(peer: nat, attempts: int, retries: int, ok: bool)
      /** http.Error(w, body, 503). */
    | Unavailable(body: string)

  /**
   * Everything a dispatch changes: the pool's liveness flags and cursor, the number of forwards
   * the transport has carried out so far, and the events so far.
   */
  datatype State = State(alive: seq<bool>, cursor: nat, forwards: nat, trace: seq<Event>)

  /** The transport's outcome for the forward numbered k (from 0, over the whole run) to backend p. */
  type Transport = (nat, nat) -> bool

  /** A transport keyed by target URL, seen through the pool's URLs. */
  function ByIndex(ok: (string, nat) -> bool, urls: seq<string>): Transport
  {
    (p: nat, k: nat) => p < |urls| && ok(urls[p], k)
  }

  /** First component of the termination measure: 4 - a while lb still forwards. */
  function AttemptRank(a: int): nat
  {
    if a <= MaxAttempts then MaxAttempts + 1 - a else 0
  }

  /** Second component of the termination measure: 3 - r while a same-backend retry is allowed. */
  function RetryRank(r: int): nat
  {
    if r < MaxRetries then MaxRetries - r else 0
  }

  /**
   * The same measure as one number, for the handler methods: a failover spends an attempt, a
   * retry spends a retry, and within one attempt lb, proxy, ErrorHandler and failover come in
   * that order (phases 3 down to 0).
   */
  function Budget(a: int, r: int, phase: nat): nat
  {
    4 * (AttemptRank(a) + RetryRank(r)) + phase
  }

  /*
   * Lb, Proxy, HandleError and Failover end their decreases clauses with the state s, which
   * never has to decrease (one of the first three components always does); it keeps the
   * verifier from unfolding the whole recursion whenever both counters are known numbers.
   */

  /** lb: the attempt cap, then peer selection, then the forward or a 503. */
  function Lb(s: State, a: int, r: int, ok: Transport): (res: State)
    requires |s.alive| > 0
    ensures |res.alive| == |s.alive|
    decreases AttemptRank(a), RetryRank(r), 3, s
  {
    if a > MaxAttempts then
      s.(trace := s.trace + [Unavailable(CapBody)])
    else
      var sel := Select(s.alive, s.cursor);
      var s1 := s.(cursor := sel.cursor);
      match sel.peer
      case None => s1.(trace := s1.trace + [Unavailable(NoPeerBody)])
      case Some(p) => Proxy(s1, p, a, r, ok)
  }

  /** The reverse proxy of backend p forwards the request; a transport error runs its ErrorHandler. */
  function Proxy(s: State, p: nat, a: int, r: int, ok: Transport): (res: State)
    requires p < |s.alive| && a <= MaxAttempts
    ensures |res.alive| == |s.alive|
    decreases AttemptRank(a), RetryRank(r), 2, s
  {
    var success := ok(p, s.forwards);
    var s1 := s.(forwards := s.forwards + 1, trace := s.trace + [Forwarded(p, a, r, success)]);
    if success then s1 else HandleError(s1, p, a, r, ok)
  }

  /**
   * The ErrorHandler of backend p: below 3 retries it forwards to p again with r + 1;
   * whatever that nested forward did, it then marks p dead and calls lb with a + 1 and the
   * retry count it was given.
   */
  function HandleError(s: State, p: nat, a: int, r: int, ok: Transport): (res: State)
    requires p < |s.alive| && a <= MaxAttempts
    ensures |res.alive| == |s.alive|
    decreases AttemptRank(a), RetryRank(r), 1, s
  {
    Failover(if r < MaxRetries then Proxy(s, p, a, r + 1, ok) else s, p, a, r, ok)
  }

  /** The ErrorHandler's last step: mark backend p dead, then lb with one more attempt. */
  function Failover(s: State, p: nat, a: int, r: int, ok: Transport): (res: State)
    requires p < |s.alive| && a <= MaxAttempts
    ensures |res.alive| == |s.alive|
    decreases AttemptRank(a), RetryRank(r), 0, s
  {
    Lb(s.(alive := s.alive[p := false]), a + 1, r, ok)
  }

  function Max(x: int, y: int): int
  {
    if x < y then y else x
  }

  /**
   * What a stretch of dispatch from s to t keeps, for counters starting at attempts a and
   * retries lo with a same-backend retry ceiling hi: the pool keeps its size, events are only
   * appended, no dead backend comes back, and every forward added was made with
   * a <= attempts <= 3 and lo <= retries <= hi and, if it failed, left its backend dead.
   */
  ghost predicate Keeps(s: State, t: State, a: int, lo: int, hi: int)
  {
    && |t.alive| == |s.alive|
    && s.forwards <= t.forwards
    && s.trace <= t.trace
    && (forall i :: 0 <= i < |s.alive| && !s.alive[i] ==> !t.alive[i])
    && (forall j :: |s.trace| <= j < |t.trace| && t.trace[j].Forwarded? ==>
          && t.trace[j].peer < |t.alive|
          && a <= t.trace[j].attempts <= MaxAttempts
          && lo <= t.trace[j].retries <= hi
          && (!t.trace[j].ok ==> !t.alive[t.trace[j].peer]))
  }

  /** Two stretches in a row keep what the weaker of the two keeps. */
  lemma KeepsTrans(s: State, m: State, t: State, a: int, lo: int, hi: int, a': int, lo': int, hi': int)
    requires Keeps(s, m, a, lo, hi) && Keeps(m, t, a', lo', hi')
    requires a <= a' && lo <= lo' && hi' <= hi
    ensures Keeps(s, t, a, lo, hi)
  {
    forall j | |s.trace| <= j < |m.trace|
      ensures t.trace[j] == m.trace[j]
    {
    }
  }

  /** lb keeps the pool's size, appends only, never resurrects and never forwards above the attempt cap. */
  lemma {:induction false} LbKeeps(s: State, a: int, r: int, ok: Transport)
    requires |s.alive| > 0
    ensures Keeps(s, Lb(s, a, r, ok), a, r, Max(r, MaxRetries))
    decreases AttemptRank(a), RetryRank(r), 2
  {
    if a <= MaxAttempts {
      var sel := Select(s.alive, s.cursor);
      if sel.peer.Some? {
        ProxyKeeps(s.(cursor := sel.cursor), sel.peer.value, a, r, ok);
      }
    }
  }

  /** The same for one forward and what its failure triggers. */
  lemma {:induction false} ProxyKeeps(s: State, p: nat, a: int, r: int, ok: Transport)
    requires p < |s.alive| && a <= MaxAttempts
    ensures Keeps(s, Proxy(s, p, a, r, ok), a, r, Max(r, MaxRetries))
    decreases AttemptRank(a), RetryRank(r), 1
  {
    var success := ok(p, s.forwards);
    var s1 := s.(forwards := s.forwards + 1, trace := s.trace + [Forwarded(p, a, r, success)]);
    if !success {
      HandleErrorKeeps(s1, p, a, r, ok);
      assert HandleError(s1, p, a, r, ok).trace[|s.trace|] == s1.trace[|s.trace|];
    }
  }

  /** The same for the ErrorHandler, which moreover always leaves its backend dead. */
  lemma {:induction false} HandleErrorKeeps(s: State, p: nat, a: int, r: int, ok: Transport)
    requires p < |s.alive| && a <= MaxAttempts
    ensures Keeps(s, HandleError(s, p, a, r, ok), a, r, Max(r, MaxRetries))
    ensures !HandleError(s, p, a, r, ok).alive[p]
    decreases AttemptRank(a), RetryRank(r), 0
  {
    var hi := Max(r, MaxRetries);
    var s1 := if r < MaxRetries then Proxy(s, p, a, r + 1, ok) else s;
    if r < MaxRetries {
      ProxyKeeps(s, p, a, r + 1, ok);
    }
    var s2 := s1.(alive := s1.alive[p := false]);
    assert Keeps(s1, s2, a, r, hi);
    KeepsTrans(s, s1, s2, a, r, hi, a, r, hi);
    LbKeeps(s2, a + 1, r, ok);
    KeepsTrans(s, s2, Lb(s2, a + 1, r, ok), a, r, hi, a + 1, r, hi);
  }

  /**
   * Every backend alive in s but dead in t was the target of a failed forward recorded at
   * position `from` of t's events or later.
   */
  ghost predicate MarksOnlyFailed(s: State, t: State, from: nat)
    requires |t.alive| == |s.alive|
  {
    forall i :: 0 <= i < |s.alive| && s.alive[i] && !t.alive[i] ==>
      exists j :: from <= j < |t.trace| && t.trace[j].Forwarded? && t.trace[j].peer == i && !t.trace[j].ok
  }

  /** Two stretches in a row mark dead only backends whose forward failed in one of them. */
  lemma MarksTrans(s: State, m: State, t: State, f1: nat, f2: nat)
    requires |m.alive| == |s.alive| && |t.alive| == |s.alive|
    requires MarksOnlyFailed(s, m, f1) && MarksOnlyFailed(m, t, f2)
    requires m.trace <= t.trace && f1 <= f2
    ensures MarksOnlyFailed(s, t, f1)
  {
    forall i | 0 <= i < |s.alive| && s.alive[i] && !t.alive[i]
      ensures exists j :: f1 <= j < |t.trace| && t.trace[j].Forwarded? && t.trace[j].peer == i && !t.trace[j].ok
    {
      if !m.alive[i] {
        var j :| f1 <= j < |m.trace| && m.trace[j].Forwarded? && m.trace[j].peer == i && !m.trace[j].ok;
        assert t.trace[j] == m.trace[j];
      }
    }
  }

  /** lb marks a backend dead only after a forward to it failed. */
  lemma {:induction false} LbMarksOnlyFailed(s: State, a: int, r: int, ok: Transport)
    requires |s.alive| > 0
    ensures MarksOnlyFailed(s, Lb(s, a, r, ok), |s.trace|)
    decreases AttemptRank(a), RetryRank(r), 3
  {
    if a <= MaxAttempts {
      var sel := Select(s.alive, s.cursor);
      if sel.peer.Some? {
        ProxyMarksOnlyFailed(s.(cursor := sel.cursor), sel.peer.value, a, r, ok);
      }
    }
  }

  /** The same for one forward and what its failure triggers. */
  lemma {:induction false} ProxyMarksOnlyFailed(s: State, p: nat, a: int, r: int, ok: Transport)
    requires p < |s.alive| && a <= MaxAttempts
    ensures MarksOnlyFailed(s, Proxy(s, p, a, r, ok), |s.trace|)
    decreases AttemptRank(a), RetryRank(r), 2
  {
    var success := ok(p, s.forwards);
    var s1 := s.(forwards := s.forwards + 1, trace := s.trace + [Forwarded(p, a, r, success)]);
    if !success {
      HandleErrorMarksOnlyFailed(s1, p, a, r, ok);
    }
  }

  /**
   * The ErrorHandler called after a failed forward to p (the last event) marks dead only p and
   * backends whose later forwards failed.
   */
  lemma {:induction false} HandleErrorMarksOnlyFailed(s: State, p: nat, a: int, r: int, ok: Transport)
    requires p < |s.alive| && a <= MaxAttempts
    requires |s.trace| > 0 && s.trace[|s.trace| - 1].Forwarded?
    requires s.trace[|s.trace| - 1].peer == p && !s.trace[|s.trace| - 1].ok
    ensures MarksOnlyFailed(s, HandleError(s, p, a, r, ok), |s.trace| - 1)
    decreases AttemptRank(a), RetryRank(r), 1
  {
    var from := |s.trace| - 1;
    var s1 := if r < MaxRetries then Proxy(s, p, a, r + 1, ok) else s;
    if r < MaxRetries {
      ProxyMarksOnlyFailed(s, p, a, r + 1, ok);
      ProxyKeeps(s, p, a, r + 1, ok);
      assert s1.trace[from] == s.trace[from];
    }
    FailoverMarksOnlyFailed(s1, p, a, r, ok, from);
    MarksTrans(s, s1, HandleError(s, p, a, r, ok), from, from);
  }

  /**
   * The failover after a failed forward to p (event j) marks dead only p and backends whose
   * later forwards failed, and only appends events.
   */
  lemma {:induction false} FailoverMarksOnlyFailed(s: State, p: nat, a: int, r: int, ok: Transport, j: nat)
    requires p < |s.alive| && a <= MaxAttempts
    requires j < |s.trace| && s.trace[j].Forwarded? && s.trace[j].peer == p && !s.trace[j].ok
    ensures MarksOnlyFailed(s, Failover(s, p, a, r, ok), j)
    ensures s.trace <= Failover(s, p, a, r, ok).trace
    decreases AttemptRank(a), RetryRank(r), 0
  {
    var s2 := s.(alive := s.alive[p := false]);
    assert MarksOnlyFailed(s, s2, j);
    LbMarksOnlyFailed(s2, a + 1, r, ok);
    LbKeeps(s2, a + 1, r, ok);
    MarksTrans(s, s2, Lb(s2, a + 1, r, ok), j, |s2.trace|);
  }

  /**
   * Below 3 retries the ErrorHandler's first act is a forward to the same backend, at the same
   * attempt count and with the retry count one higher.
   */
  lemma HandleErrorRetries(s: State, p: nat, a: int, r: int, ok: Transport)
    requires p < |s.alive| && a <= MaxAttempts && r < MaxRetries
    ensures var res := HandleError(s, p, a, r, ok);
            |res.trace| > |s.trace| && res.trace[|s.trace|] == Forwarded(p, a, r + 1, ok(p, s.forwards))
  {
    var s1 := Proxy(s, p, a, r + 1, ok);
    ProxyFirstEvent(s, p, a, r + 1, ok);
    LbKeeps(s1.(alive := s1.alive[p := false]), a + 1, r, ok);
  }

  /**
   * The failover marks p dead for good and calls lb once, one attempt later: every forward it
   * adds runs at a higher attempt count, with at least the retry count the handler was given.
   */
  lemma FailoverNextAttempt(s: State, p: nat, a: int, r: int, ok: Transport)
    requires p < |s.alive| && a <= MaxAttempts
    ensures var res := Failover(s, p, a, r, ok);
            && s.trace <= res.trace && !res.alive[p]
            && forall j :: |s.trace| <= j < |res.trace| && res.trace[j].Forwarded? ==>
                 a < res.trace[j].attempts && r <= res.trace[j].retries <= Max(r, MaxRetries)
  {
    LbKeeps(s.(alive := s.alive[p := false]), a + 1, r, ok);
  }

  /**
   * At 3 retries or more the ErrorHandler does not forward to its backend again: every forward
   * it adds comes from the next attempt, with the retry count unchanged.
   */
  lemma HandleErrorNoRetryAtCap(s: State, p: nat, a: int, r: int, ok: Transport)
    requires p < |s.alive| && a <= MaxAttempts && r >= MaxRetries
    ensures var res := HandleError(s, p, a, r, ok);
            && s.trace <= res.trace && !res.alive[p]
            && forall j :: |s.trace| <= j < |res.trace| && res.trace[j].Forwarded? ==>
                 a < res.trace[j].attempts && res.trace[j].retries == r
  {
    FailoverNextAttempt(s, p, a, r, ok);
  }

  /**
   * An upper bound on the forwards one lb call at counters (a, r) can make: each forward's
   * failure may retry the same backend once more (while r < 3) and then re-enters lb with a + 1.
   */
  function ForwardBound(a: int, r: int): nat
    decreases AttemptRank(a), RetryRank(r)
  {
    if a > MaxAttempts then 0
    else 1 + (if r < MaxRetries then ForwardBound(a, r + 1) else 0) + ForwardBound(a + 1, r)
  }

  /** A fresh request (both counters 0) is forwarded at most 69 times. */
  lemma FreshRequestBound()
    ensures ForwardBound(0, 0) == 69
  {
    assert ForwardBound(3, 0) == 4 && ForwardBound(3, 1) == 3 && ForwardBound(3, 2) == 2;
    assert ForwardBound(2, 3) == 2 && ForwardBound(1, 3) == 3 && ForwardBound(0, 3) == 4;
    assert ForwardBound(2, 2) == 5 && ForwardBound(2, 1) == 9 && ForwardBound(2, 0) == 14;
    assert ForwardBound(1, 2) == 9 && ForwardBound(1, 1) == 19 && ForwardBound(1, 0) == 34;
    assert ForwardBound(0, 2) == 14 && ForwardBound(0, 1) == 34;
  }

  /** lb forwards at most ForwardBound(a, r) times, whatever the transport answers. */
  lemma {:induction false} LbBounded(s: State, a: int, r: int, ok: Transport)
    requires |s.alive| > 0
    ensures Lb(s, a, r, ok).forwards <= s.forwards + ForwardBound(a, r)
    decreases AttemptRank(a), RetryRank(r), 2
  {
    if a <= MaxAttempts {
      var sel := Select(s.alive, s.cursor);
      if sel.peer.Some? {
        ProxyBounded(s.(cursor := sel.cursor), sel.peer.value, a, r, ok);
      }
    }
  }

  /** The same for one forward and what its failure triggers. */
  lemma {:induction false} ProxyBounded(s: State, p: nat, a: int, r: int, ok: Transport)
    requires p < |s.alive| && a <= MaxAttempts
    ensures Proxy(s, p, a, r, ok).forwards <= s.forwards + ForwardBound(a, r)
    decreases AttemptRank(a), RetryRank(r), 1
  {
    var success := ok(p, s.forwards);
    var s1 := s.(forwards := s.forwards + 1, trace := s.trace + [Forwarded(p, a, r, success)]);
    if !success {
      HandleErrorBounded(s1, p, a, r, ok);
    }
  }

  /** The ErrorHandler: the nested retry's bound plus the bound of the next attempt. */
  lemma {:induction false} HandleErrorBounded(s: State, p: nat, a: int, r: int, ok: Transport)
    requires p < |s.alive| && a <= MaxAttempts
    ensures HandleError(s, p, a, r, ok).forwards
              <= s.forwards + (if r < MaxRetries then ForwardBound(a, r + 1) else 0) + ForwardBound(a + 1, r)
    decreases AttemptRank(a), RetryRank(r), 0
  {
    var s1 := if r < MaxRetries then Proxy(s, p, a, r + 1, ok) else s;
    if r < MaxRetries {
      ProxyBounded(s, p, a, r + 1, ok);
    }
    LbBounded(s1.(alive := s1.alive[p := false]), a + 1, r, ok);
  }

  /** Past the attempt cap lb only writes "Service not available": no selection, no forward. */
  lemma LbCapped(s: State, a: int, r: int, ok: Transport)
    requires |s.alive| > 0 && a > MaxAttempts
    ensures Lb(s, a, r, ok) == s.(trace := s.trace + [Unavailable(CapBody)])
  {
  }

  /** With no backend alive, lb only advances the cursor and writes "service unavailable". */
  lemma LbNoPeer(s: State, a: int, r: int, ok: Transport)
    requires |s.alive| > 0 && a <= MaxAttempts
    requires forall i :: 0 <= i < |s.alive| ==> !s.alive[i]
    ensures Lb(s, a, r, ok) == s.(cursor := Advance(s.cursor), trace := s.trace + [Unavailable(NoPeerBody)])
  {
    SelectNoneIffAllDead(s.alive, s.cursor);
  }

  /** A forward's first event is that forward, under the request's counters, with the transport's outcome. */
  lemma ProxyFirstEvent(s: State, p: nat, a: int, r: int, ok: Transport)
    requires p < |s.alive| && a <= MaxAttempts
    ensures var res := Proxy(s, p, a, r, ok);
            |res.trace| > |s.trace| && res.trace[|s.trace|] == Forwarded(p, a, r, ok(p, s.forwards))
  {
    var s1 := s.(forwards := s.forwards + 1, trace := s.trace + [Forwarded(p, a, r, ok(p, s.forwards))]);
    if !ok(p, s.forwards) {
      HandleErrorKeeps(s1, p, a, r, ok);
      assert HandleError(s1, p, a, r, ok).trace[|s.trace|] == s1.trace[|s.trace|];
    }
  }

  /**
   * With some backend alive, lb's first event is a forward, under the request's counters, to
   * the alive backend Select picks.
   */
  lemma LbForwardsToSelected(s: State, a: int, r: int, ok: Transport)
    requires |s.alive| > 0 && a <= MaxAttempts
    requires exists i :: 0 <= i < |s.alive| && s.alive[i]
    ensures var res, sel := Lb(s, a, r, ok), Select(s.alive, s.cursor);
            && sel.peer.Some? && s.alive[sel.peer.value]
            && |res.trace| > |s.trace|
            && res.trace[|s.trace|] == Forwarded(sel.peer.value, a, r, ok(sel.peer.value, s.forwards))
  {
    SelectNoneIffAllDead(s.alive, s.cursor);
    var sel := Select(s.alive, s.cursor);
    ProxyFirstEvent(s.(cursor := sel.cursor), sel.peer.value, a, r, ok);
  }

  /**
   * One backend whose every forward fails, a fresh request: four forwards to it at retries
   * 0 to 3, then each of the four nested ErrorHandlers marks it dead and re-enters lb, which
   * finds no backend alive and writes "service unavailable" four times.
   */
  lemma AlwaysFailingSingleBackend()
    ensures var res := Lb(State([true], 0, 0, []), 0, 0, (p: nat, k: nat) => false);
            && res.alive == [false] && res.forwards == 4 && res.cursor == 5
            && res.trace == [Forwarded(0, 0, 0, false), Forwarded(0, 0, 1, false), Forwarded(0, 0, 2, false),
                             Forwarded(0, 0, 3, false), Unavailable(NoPeerBody), Unavailable(NoPeerBody),
                             Unavailable(NoPeerBody), Unavailable(NoPeerBody)]
  {
    var ok: Transport := (p: nat, k: nat) => false;
    var f0, f1, f2, f3 := Forwarded(0, 0, 0, false), Forwarded(0, 0, 1, false), Forwarded(0, 0, 2, false), Forwarded(0, 0, 3, false);
    var u := Unavailable(NoPeerBody);
    assert Select([true], 0) == Selection(Some(0), 1);
    assert [true][0 := false] == [false] && [false][0 := false] == [false];
    assert Advance(1) == 2 && Advance(2) == 3 && Advance(3) == 4 && Advance(4) == 5;
    // Innermost ErrorHandler (retries 3): no retry; the next attempt finds nothing alive.
    var h3 := HandleError(State([true], 1, 4, [f0, f1, f2, f3]), 0, 0, 3, ok);
    assert h3 == Failover(State([true], 1, 4, [f0, f1, f2, f3]), 0, 0, 3, ok);
    LbNoPeer(State([false], 1, 4, [f0, f1, f2, f3]), 1, 3, ok);
    assert h3 == State([false], 2, 4, [f0, f1, f2, f3, u]);
    var h2 := HandleError(State([true], 1, 3, [f0, f1, f2]), 0, 0, 2, ok);
    assert [f0, f1, f2] + [f3] == [f0, f1, f2, f3];
    assert Proxy(State([true], 1, 3, [f0, f1, f2]), 0, 0, 3, ok) == h3;
    assert h2 == Failover(h3, 0, 0, 2, ok);
    LbNoPeer(h3, 1, 2, ok);
    assert h2 == State([false], 3, 4, [f0, f1, f2, f3, u, u]);
    var h1 := HandleError(State([true], 1, 2, [f0, f1]), 0, 0, 1, ok);
    assert [f0, f1] + [f2] == [f0, f1, f2];
    assert Proxy(State([true], 1, 2, [f0, f1]), 0, 0, 2, ok) == h2;
    assert h1 == Failover(h2, 0, 0, 1, ok);
    LbNoPeer(h2, 1, 1, ok);
    assert h1 == State([false], 4, 4, [f0, f1, f2, f3, u, u, u]);
    var h0 := HandleError(State([true], 1, 1, [f0]), 0, 0, 0, ok);
    assert [f0] + [f1] == [f0, f1];
    assert Proxy(State([true], 1, 1, [f0]), 0, 0, 1, ok) == h1;
    assert h0 == Failover(h1, 0, 0, 0, ok);
    LbNoPeer(h1, 1, 0, ok);
    assert h0 == State([false], 5, 4, [f0, f1, f2, f3, u, u, u, u]);
    assert [] + [f0] == [f0];
    assert Proxy(State([true], 1, 0, []), 0, 0, 0, ok) == h0;
  }

  /**
   * Two alive backends, the very first forward fails and every later one succeeds: the nested
   * retry to backend 1 succeeds, yet its ErrorHandler still marks backend 1 dead and lb sends
   * the request once more, to backend 0, which also answers.
   */
  lemma SuccessfulRetryStillFailsOver()
    ensures var res := Lb(State([true, true], 0, 0, []), 0, 0, (p: nat, k: nat) => k != 0);
            && res.alive == [true, false] && res.forwards == 3 && res.cursor == 2
            && res.trace == [Forwarded(1, 0, 0, false), Forwarded(1, 0, 1, true), Forwarded(0, 1, 0, true)]
  {
    var ok: Transport := (p: nat, k: nat) => k != 0;
    var f0, f1, f2 := Forwarded(1, 0, 0, false), Forwarded(1, 0, 1, true), Forwarded(0, 1, 0, true);
    assert Select([true, true], 0) == Selection(Some(1), 1);
    assert Select([true, false], 1) == Selection(Some(0), 2);
    assert [true, true][1 := false] == [true, false];
    var last := Proxy(State([true, false], 2, 2, [f0, f1]), 0, 1, 0, ok);
    assert [f0, f1] + [f2] == [f0, f1, f2];
    assert last == State([true, false], 2, 3, [f0, f1, f2]);
    assert Lb(State([true, false], 1, 2, [f0, f1]), 1, 0, ok) == last;
    assert [f0] + [f1] == [f0, f1];
    assert Proxy(State([true, true], 1, 1, [f0]), 1, 0, 1, ok) == State([true, true], 1, 2, [f0, f1]);
    assert HandleError(State([true, true], 1, 1, [f0]), 1, 0, 0, ok) == last;
    assert [] + [f0] == [f0];
    assert Proxy(State([true, true], 1, 0, []), 1, 0, 0, ok) == last;
  }

  /** lb unfolded once. */
  lemma LbStep(s: State, a: int, r: int, ok: Transport)
    requires |s.alive| > 0
    ensures var sel := Select(s.alive, s.cursor);
            Lb(s, a, r, ok) ==
              if a > MaxAttempts then s.(trace := s.trace + [Unavailable(CapBody)])
              else if sel.peer.None? then s.(cursor := sel.cursor, trace := s.trace + [Unavailable(NoPeerBody)])
              else Proxy(s.(cursor := sel.cursor), sel.peer.value, a, r, ok)
  {
  }

  /** Proxy unfolded once: the forward, then the ErrorHandler if it failed. */
  lemma ProxyStep(s: State, p: nat, a: int, r: int, ok: Transport)
    requires p < |s.alive| && a <= MaxAttempts
    ensures var s1 := s.(forwards := s.forwards + 1, trace := s.trace + [Forwarded(p, a, r, ok(p, s.forwards))]);
            Proxy(s, p, a, r, ok) == if ok(p, s.forwards) then s1 else HandleError(s1, p, a, r, ok)
  {
  }

  /**
   * One client request in flight, seen from the balancer: the transport that carries its
   * forwards (whose outcome for the forward numbered k to a target URL is ok(url, k)) and the
   * response writer that receives 503 errors. The events are recorded for the proofs only.
   */
  class Exchange {
    const ok: (string, nat) -> bool
    var forwards: nat
    ghost var trace: seq<Event>

    constructor (ok: (string, nat) -> bool)
      ensures this.ok == ok && forwards == 0 && trace == []
    {
      this.ok := ok;
      forwards := 0;
      trace := [];
    }

    /**
     * The reverse proxy's round trip to target: succeeds as the transport says and is recorded
     * as a forward to backend p under the request's counters.
     */
    method Forward(target: string, ghost p: nat, ghost attempts: int, ghost retries: int) returns (success: bool)
      modifies this`forwards, this`trace
      ensures success == ok(target, old(forwards))
      ensures forwards == old(forwards) + 1
      ensures trace == old(trace) + [Forwarded(p, attempts, retries, success)]
    {
      success := ok(target, forwards);
      forwards := forwards + 1;
      trace := trace + [Forwarded(p, attempts, retries, success)];
    }

    /** http.Error(w, body, 503). */
    method Fail(body: string)
      modifies this`trace
      ensures trace == old(trace) + [Unavailable(body)]
    {
      trace := trace + [Unavailable(body)];
    }
  }
}
