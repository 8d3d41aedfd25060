/**
 * The backend pool (cmd/internal/balancer/pool.go; the same code is repeated in
 * cmd/app/main.go:149-198): the ordered backends and the shared rotation cursor. The atomic
 * increment and store of the cursor are plain reads and writes in this sequential model.
 */
module Pool {
  import opened Wrappers
  import opened Rotation
  import opened Instance

  /**
   * The index of the first URL equal to u at or after position `from`, or None when there is
   * none.
   */
  function IndexOfUrl(urls: seq<string>, u: string, from: nat): (r: Option<nat>)
    ensures r.Some? ==> from <= r.value < |urls| && urls[r.value] == u
    ensures r.Some? ==> forall k :: from <= k < r.value ==> urls[k] != u
    ensures r.None? ==> forall k :: from <= k < |urls| ==> urls[k] != u
    decreases |urls| - from
  {
    if from >= |urls| then None
    else if urls[from] == u then Some(from)
    else IndexOfUrl(urls, u, from + 1)
  }

  /** When no other URL equals backend p's, the first match for p's URL is p. */
  lemma IndexOfDistinctUrl(urls: seq<string>, p: nat)
    requires p < |urls|
    requires forall k :: 0 <= k < |urls| && k != p ==> urls[k] != urls[p]
    ensures IndexOfUrl(urls, urls[p], 0) == Some(p)
  {
    var r := IndexOfUrl(urls, urls[p], 0);
    assert r.Some?;
  }

  /** The flags after setting the one at `at`, if any, to a. */
  function SetFlag(flags: seq<bool>, at: Option<nat>, a: bool): (f: seq<bool>)
    ensures |f| == |flags|
    ensures at.Some? && at.value < |flags| ==> f[at.value] == a
    ensures forall i :: 0 <= i < |flags| && at != Some(i) ==> f[i] == flags[i]
  {
    if at.Some? && at.value < |flags| then flags[at.value := a] else flags
  }

  /** When no other URL equals backend p's, setting the flag found for p's URL sets p's flag. */
  lemma SetFlagOfDistinctUrl(flags: seq<bool>, urls: seq<string>, p: nat, a: bool)
    requires |flags| == |urls| && p < |urls|
    requires forall k :: 0 <= k < |urls| && k != p ==> urls[k] != urls[p]
    ensures SetFlag(flags, IndexOfUrl(urls, urls[p], 0), a) == flags[p := a]
  {
    IndexOfDistinctUrl(urls, p);
  }

  class ServerPool {
    const backends: seq<Backend>
    /** The position of each backend in the pool (proof only). */
    ghost const slot: map<Backend, nat>
    var current: nat

    /**
     * Every backend sits at the position `slot` records for it, so no backend occurs twice and
     * writing one backend's flag changes only its own entry.
     */
    ghost predicate Valid()
    {
      forall i :: 0 <= i < |backends| ==> backends[i] in slot && slot[backends[i]] == i
    }

    /** A valid pool holds each backend once. */
    lemma ValidIsDistinct()
      requires Valid()
      ensures Distinct(backends)
    {
    }

    /**
     * The pool once setup has appended every backend to it, with cursor 0. Nothing appends to
     * the pool after setup, so the list of backends is fixed from here on.
     */
    constructor Of(backends: seq<Backend>)
      requires Distinct(backends)
      ensures this.backends == backends && current == 0 && Valid()
    {
      this.backends := backends;
      slot := Positions(backends);
      current := 0;
    }

    /**
     * NextIndex: advances the cursor by one (wrapping at 2^64) and returns it modulo the pool
     * size. Go panics on an empty pool (modulo by zero).
     */
    method NextIndex() returns (idx: nat)
      requires |backends| > 0
      modifies this`current
      ensures current == Advance(old(current))
      ensures idx == NextIndexOf(old(current), |backends|) && idx < |backends|
    {
      current := Advance(current);
      idx := current % |backends|;
    }

    /**
     * GetNextPeer: scans the pool cyclically from NextIndex's index for at most len(backends)
     * positions and returns the first alive backend, or null. It stores the found index in the
     * cursor only when it skipped the first candidate, and changes no flag.
     */
    method GetNextPeer() returns (peer: Backend?)
      requires |backends| > 0
      modifies this`current
      ensures var s := Select(Flags(backends), old(current));
              && current == s.cursor
              && peer == (if s.peer.Some? then backends[s.peer.value] else null)
      ensures peer != null ==> peer in backends && peer.alive
      ensures peer == null <==> forall i :: 0 <= i < |backends| ==> !backends[i].alive
    {
      ghost var flags := Flags(backends);
      SelectNoneIffAllDead(flags, old(current));
      var next := NextIndex();
      var n := |backends|;
      var l := n + next;
      var i := next;
      while i < l
        invariant next <= i <= l
        invariant forall k :: 0 <= k < i - next ==> !flags[Slot(next, k, n)]
        invariant current == Advance(old(current))
      {
        var idx := i % n;
        if backends[idx].IsAlive() {
          ScanFound(flags, old(current), i);
          if i != next {
            current := idx;
          }
          return backends[idx];
        }
        assert Slot(next, i - next, n) == idx;
        i := i + 1;
      }
      ScanExhausted(flags, old(current));
      forall k | 0 <= k < n
        ensures !backends[k].alive
      {
        assert !flags[k];
      }
      return null;
    }

    /**
     * HealthCheck: stores each backend's probe result in its flag, in order. The probes
     * (Ping / isBackendAlive) are the input `pings`, one per backend.
     */
    method HealthCheck(pings: seq<bool>)
      requires Valid() && |pings| == |backends|
      modifies backends`alive
      ensures Flags(backends) == pings
    {
      var i := 0;
      while i < |backends|
        invariant 0 <= i <= |backends|
        invariant forall j :: 0 <= j < i ==> backends[j].alive == pings[j]
      {
        backends[i].SetAlive(pings[i]);
        i := i + 1;
      }
    }

    /**
     * MarkBackendStatus: sets the flag of the first backend whose URL string equals u and
     * returns; no other backend changes, and nothing changes when no URL matches.
     */
    method MarkBackendStatus(u: string, a: bool)
      requires Valid()
      modifies backends`alive
      ensures Flags(backends) == SetFlag(old(Flags(backends)), IndexOfUrl(Urls(backends), u, 0), a)
    {
      ghost var at := IndexOfUrl(Urls(backends), u, 0);
      var i := 0;
      while i < |backends|
        invariant 0 <= i <= |backends|
        invariant IndexOfUrl(Urls(backends), u, i) == at
        invariant forall j :: 0 <= j < |backends| ==> backends[j].alive == old(backends[j].alive)
      {
        if backends[i].url == u {
          backends[i].SetAlive(a);
          return;
        }
        i := i + 1;
      }
    }
  }
}
