/**
 * Round-robin selection with liveness skipping, on values: what ServerPool.NextIndex and
 * ServerPool.GetNextPeer compute from the liveness flags and the shared cursor
 * (cmd/internal/balancer/pool.go:16-35, repeated in cmd/app/main.go:179-198).
 */
module Rotation {
  import opened Wrappers

  /** 2^64: the cursor is a Go uint64, and atomic.AddUint64 wraps around at this value. */
  const U64: nat := 0x1_0000_0000_0000_0000

  /** The cursor after one atomic increment. */
  function Advance(cursor: nat): (c: nat)
    ensures c < U64
    ensures cursor + 1 < U64 ==> c == cursor + 1
    ensures cursor + 1 == U64 ==> c == 0
  {
    (cursor + 1) % U64
  }

  /** The index NextIndex returns for a pool of n backends. */
  function NextIndexOf(cursor: nat, n: nat): (i: nat)
    requires n > 0
    ensures i < n
  {
    Advance(cursor) % n
  }

  /** The position `i % len(backends)` visited at offset k of a scan that began at `start`. */
  function Slot(start: nat, k: nat, n: nat): nat
    requires n > 0
  {
    (start + k) % n
  }

  /** Reduction modulo n of a number below 2n is at most one subtraction. */
  lemma ModSmall(x: nat, n: nat)
    requires 0 < n && x < 2 * n
    ensures x % n == if x < n then x else x - n
  {
    if x >= n {
      assert x == n + (x - n);
      assert (x - n) / n == 0;
    }
  }

  /** A cyclic scan from a position inside the pool reaches every backend ... */
  lemma SlotCovers(start: nat, i: nat, n: nat) returns (k: nat)
    requires start < n && i < n
    ensures k < n && Slot(start, k, n) == i
  {
    k := if start <= i then i - start else i + n - start;
    ModSmall(start + k, n);
  }

  /** ... and none twice within one round. */
  lemma SlotInjective(start: nat, j: nat, k: nat, n: nat)
    requires start < n && j < n && k < n
    requires Slot(start, j, n) == Slot(start, k, n)
    ensures j == k
  {
    ModSmall(start + j, n);
    ModSmall(start + k, n);
  }

  /**
   * The offset, counted from `from`, of the first live backend that a cyclic scan starting
   * at position `start` meets, or None when every remaining position is dead.
   */
  function FirstAlive(alive: seq<bool>, start: nat, from: nat): (r: Option<nat>)
    requires |alive| > 0
    ensures r.Some? ==> from <= r.value < |alive| && alive[Slot(start, r.value, |alive|)]
    ensures r.Some? ==> forall k :: from <= k < r.value ==> !alive[Slot(start, k, |alive|)]
    ensures r.None? ==> forall k :: from <= k < |alive| ==> !alive[Slot(start, k, |alive|)]
    decreases |alive| - from
  {
    if from >= |alive| then None
    else if alive[Slot(start, from, |alive|)] then Some(from)
    else FirstAlive(alive, start, from + 1)
  }

  /** The outcome of one GetNextPeer call: the chosen index, if any, and the new cursor. */
  datatype Selection = Selection(peer: Option<nat>, cursor: nat)

  /**
   * GetNextPeer on values. The scan starts at the index NextIndex returns; when it had to skip
   * dead entries, the cursor is overwritten with the index found.
   */
  function Select(alive: seq<bool>, cursor: nat): (s: Selection)
    requires |alive| > 0
    ensures s.peer.Some? ==> s.peer.value < |alive| && alive[s.peer.value]
    ensures alive[NextIndexOf(cursor, |alive|)] ==>
              s.peer == Some(NextIndexOf(cursor, |alive|)) && s.cursor == Advance(cursor)
    ensures !alive[NextIndexOf(cursor, |alive|)] && s.peer.Some? ==> s.cursor == s.peer.value
    ensures s.peer.None? ==> s.cursor == Advance(cursor)
  {
    var n := |alive|;
    var next := NextIndexOf(cursor, n);
    ModSmall(next, n);
    match FirstAlive(alive, next, 0)
    case None => Selection(None, Advance(cursor))
    case Some(k) =>
      Selection(Some(Slot(next, k, n)), if k == 0 then Advance(cursor) else Slot(next, k, n))
  }

  /** A scan that meets only dead slots between offsets lo and hi reaches the same result from either. */
  lemma {:induction false} FirstAliveSkips(alive: seq<bool>, start: nat, lo: nat, hi: nat)
    requires |alive| > 0 && lo <= hi <= |alive|
    requires forall k :: lo <= k < hi ==> !alive[Slot(start, k, |alive|)]
    ensures FirstAlive(alive, start, lo) == FirstAlive(alive, start, hi)
    decreases hi
  {
    if lo < hi {
      FirstAliveSkips(alive, start, lo, hi - 1);
    }
  }

  /**
   * GetNextPeer's loop over i in [next, next + n) stops at the first live slot i % n after
   * dead ones: that is Select's peer, and its cursor.
   */
  lemma ScanFound(alive: seq<bool>, cursor: nat, i: nat)
    requires |alive| > 0
    requires NextIndexOf(cursor, |alive|) <= i < NextIndexOf(cursor, |alive|) + |alive|
    requires forall k :: 0 <= k < i - NextIndexOf(cursor, |alive|) ==>
               !alive[Slot(NextIndexOf(cursor, |alive|), k, |alive|)]
    requires alive[i % |alive|]
    ensures Select(alive, cursor)
            == Selection(Some(i % |alive|),
                         if i == NextIndexOf(cursor, |alive|) then Advance(cursor) else i % |alive|)
  {
    var next := NextIndexOf(cursor, |alive|);
    assert Slot(next, i - next, |alive|) == i % |alive|;
    FirstAliveSkips(alive, next, 0, i - next);
  }

  /** GetNextPeer's loop runs out after n dead slots: Select finds nothing. */
  lemma ScanExhausted(alive: seq<bool>, cursor: nat)
    requires |alive| > 0
    requires forall k :: 0 <= k < |alive| ==> !alive[Slot(NextIndexOf(cursor, |alive|), k, |alive|)]
    ensures Select(alive, cursor) == Selection(None, Advance(cursor))
  {
    var next := NextIndexOf(cursor, |alive|);
    FirstAliveSkips(alive, next, 0, |alive|);
  }

  /** Exhaustion, both ways: selection finds no peer exactly when every backend is dead. */
  lemma SelectNoneIffAllDead(alive: seq<bool>, cursor: nat)
    requires |alive| > 0
    ensures Select(alive, cursor).peer.None? <==> forall i :: 0 <= i < |alive| ==> !alive[i]
  {
    var n := |alive|;
    var next := NextIndexOf(cursor, n);
    if Select(alive, cursor).peer.None? {
      assert FirstAlive(alive, next, 0).None?;
      forall i | 0 <= i < n
        ensures !alive[i]
      {
        var k := SlotCovers(next, i, n);
      }
    }
  }

  /**
   * The peer found is the first live one in cyclic order from NextIndex's index: every
   * position the scan passed before it holds a dead backend.
   */
  lemma SelectIsFirstInCyclicOrder(alive: seq<bool>, cursor: nat, k: nat)
    requires |alive| > 0 && k < |alive|
    requires Select(alive, cursor).peer == Some(Slot(NextIndexOf(cursor, |alive|), k, |alive|))
    ensures forall j :: 0 <= j < k ==> !alive[Slot(NextIndexOf(cursor, |alive|), j, |alive|)]
  {
    var n := |alive|;
    var next := NextIndexOf(cursor, n);
    var first := FirstAlive(alive, next, 0);
    assert first.Some?;
    SlotInjective(next, first.value, k, n);
  }

  /** The peers returned by m consecutive GetNextPeer calls on unchanged flags. */
  function Rounds(alive: seq<bool>, cursor: nat, m: nat): (r: seq<Option<nat>>)
    requires |alive| > 0
    ensures |r| == m
    ensures m > 0 ==> r[0] == Select(alive, cursor).peer
    decreases m
  {
    if m == 0 then []
    else
      var s := Select(alive, cursor);
      [s.peer] + Rounds(alive, s.cursor, m - 1)
  }

  /** Liveness skipping: however many calls are made, none of them returns a dead backend. */
  lemma {:induction false} RoundsNeverDead(alive: seq<bool>, cursor: nat, m: nat, j: nat)
    requires |alive| > 0 && j < m
    ensures Rounds(alive, cursor, m)[j].Some? ==>
              Rounds(alive, cursor, m)[j].value < |alive| && alive[Rounds(alive, cursor, m)[j].value]
    decreases m
  {
    if j > 0 {
      RoundsNeverDead(alive, Select(alive, cursor).cursor, m - 1, j - 1);
    }
  }

  /** With every backend alive, consecutive calls walk the pool in array order from the cursor. */
  lemma {:induction false} RoundsAllAlive(alive: seq<bool>, cursor: nat, m: nat, j: nat)
    requires |alive| > 0 && j < m && cursor + m < U64
    requires forall i :: 0 <= i < |alive| ==> alive[i]
    ensures Rounds(alive, cursor, m)[j] == Some((cursor + 1 + j) % |alive|)
    decreases m
  {
    var s := Select(alive, cursor);
    assert s.peer == Some((cursor + 1) % |alive|) && s.cursor == cursor + 1;
    if j > 0 {
      RoundsAllAlive(alive, cursor + 1, m - 1, j - 1);
    }
  }

  /** Euclidean remainders are unique: z == a * n + r with 0 <= r < n forces z % n == r. */
  lemma ModUnique(z: int, a: int, r: int, n: int)
    requires n > 0 && 0 <= r < n && z == a * n + r
    ensures z % n == r
  {
    var d := a - z / n;
    assert d * n == z % n - r;
    MulAwayFromZero(d, n);
  }

  /** A non-zero multiple of n is at least n away from zero. */
  lemma MulAwayFromZero(d: int, n: int)
    requires n > 0
    ensures d >= 1 ==> d * n >= n
    ensures d <= -1 ==> d * n <= -n
  {
    if d >= 1 {
      assert d * n == (d - 1) * n + n;
    } else if d <= -1 {
      assert d * n == (d + 1) * n - n;
    }
  }

  /** (a mod n + b) mod n == (a + b) mod n. */
  lemma ModAdd(a: nat, b: nat, n: nat)
    requires n > 0
    ensures (a % n + b) % n == (a + b) % n
  {
    var w := a % n + b;
    assert a + b == (a / n + w / n) * n + w % n;
    ModUnique(a + b, a / n + w / n, w % n, n);
  }

  /**
   * On an all-alive pool of n backends, the j-th of n consecutive calls returns the backend j
   * places after NextIndex's index, for cursors that do not reach the uint64 wrap-around.
   */
  lemma RoundsInCyclicOrder(alive: seq<bool>, cursor: nat)
    requires |alive| > 0 && cursor + |alive| < U64
    requires forall i :: 0 <= i < |alive| ==> alive[i]
    ensures forall j :: 0 <= j < |alive| ==>
              Rounds(alive, cursor, |alive|)[j] == Some(Slot(NextIndexOf(cursor, |alive|), j, |alive|))
  {
    var n := |alive|;
    forall j | 0 <= j < n
      ensures Rounds(alive, cursor, n)[j] == Some(Slot(NextIndexOf(cursor, n), j, n))
    {
      RoundsAllAlive(alive, cursor, n, j);
      ModAdd(cursor + 1, j, n);
    }
  }

  /**
   * Round-robin fairness: on an all-alive pool of n backends, n consecutive calls return every
   * backend exactly once, in cyclic array order starting at NextIndex's index.
   * Stated for cursors that do not reach the uint64 wrap-around within the n calls.
   */
  lemma RoundRobinFair(alive: seq<bool>, cursor: nat)
    requires |alive| > 0 && cursor + |alive| < U64
    requires forall i :: 0 <= i < |alive| ==> alive[i]
    ensures var r := Rounds(alive, cursor, |alive|);
            && (forall j :: 0 <= j < |alive| ==> r[j] == Some(Slot(NextIndexOf(cursor, |alive|), j, |alive|)))
            && (forall i :: 0 <= i < |alive| ==> Some(i) in r)
            && (forall j, k :: 0 <= j < k < |alive| ==> r[j] != r[k])
  {
    var n := |alive|;
    var next := NextIndexOf(cursor, n);
    var r := Rounds(alive, cursor, n);
    RoundsInCyclicOrder(alive, cursor);
    forall i | 0 <= i < n
      ensures Some(i) in r
    {
      var k := SlotCovers(next, i, n);
      assert r[k] == Some(i);
    }
    forall j, k | 0 <= j < k < n
      ensures r[j] != r[k]
    {
      if r[j] == r[k] {
        SlotInjective(next, j, k, n);
      }
    }
  }

  /**
   * The pool of the prototype's test, [alive, dead, alive, alive] with the cursor at 0:
   * ten calls return the third, fourth and first backends in turn and never the second.
   */
  lemma PrototypeTestScenario()
    ensures Rounds([true, false, true, true], 0, 10)
            == [Some(2), Some(3), Some(0), Some(2), Some(3), Some(0), Some(2), Some(3), Some(0), Some(2)]
  {
    var a := [true, false, true, true];
    assert Select(a, 0) == Selection(Some(2), 2);
    assert Select(a, 2) == Selection(Some(3), 3);
    assert Select(a, 3) == Selection(Some(0), 4);
    assert Select(a, 4) == Selection(Some(2), 2);
  }

  /** Three backends, the middle one dead, cursor at 0: the first call skips to the third, the second wraps to the first. */
  lemma SkipDeadScenario()
    ensures Rounds([true, false, true], 0, 2) == [Some(2), Some(0)]
  {
    var a := [true, false, true];
    assert Select(a, 0) == Selection(Some(2), 2);
    assert Select(a, 2) == Selection(Some(0), 3);
  }
}
