/**
 * The port allocator (cmd/internal/port/port.go): hands out consecutive ports above the base
 * port 8080, at most `limit` of them, and records each one handed out.
 */
module Port {
  import opened Wrappers

  /** The base port every allocator starts from; the balancer itself listens on it. */
  const BasePort: int := 8080

  /** The error GetNext returns once the limit is reached. */
  const TooMany: string := "too many ports allocated"

  class Service {
    /** The set of ports handed out, as the keys of a map whose values are all nil. */
    var portsAllocated: map<int, ()>
    const basePort: int
    var portCount: int
    const limit: int

    /**
     * The allocator's invariant: portCount ports have been handed out, never more than the
     * limit, and they are exactly basePort + 1 .. basePort + portCount.
     */
    ghost predicate Valid()
      reads this
    {
      && basePort == BasePort
      && 0 <= portCount
      && (portCount == 0 || portCount <= limit)
      && forall p :: p in portsAllocated <==> basePort < p <= basePort + portCount
    }

    /** port.New: base port 8080, nothing allocated yet. */
    constructor New(limit: int)
      ensures Valid()
      ensures this.limit == limit && basePort == BasePort && portCount == 0 && portsAllocated == map[]
    {
      portsAllocated := map[];
      basePort := BasePort;
      portCount := 0;
      this.limit := limit;
    }

    /** GetBasePort: the base port; changes nothing. */
    method GetBasePort() returns (p: int)
      ensures p == basePort
    {
      p := basePort;
    }

    /**
     * GetNext: fails, changing nothing, when one more port would exceed the limit; otherwise
     * hands out the port just above the last one, records it and counts it.
     */
    method GetNext() returns (r: Result<int, string>)
      requires Valid()
      modifies this`portsAllocated, this`portCount
      ensures Valid()
      ensures old(portCount) + 1 > limit ==>
                r == Failure(TooMany) && portCount == old(portCount) && portsAllocated == old(portsAllocated)
      ensures old(portCount) + 1 <= limit ==>
                && r == Success(basePort + old(portCount) + 1)
                && portCount == old(portCount) + 1
                && portsAllocated == old(portsAllocated)[r.value := ()]
      ensures r.Success? ==> r.value > basePort && forall q :: q in old(portsAllocated) ==> q < r.value
    {
      var count := portCount + 1;
      if count > limit {
        return Failure(TooMany);
      }
      var nextPort := basePort + count;
      portsAllocated := portsAllocated[nextPort := ()];
      portCount := count;
      return Success(nextPort);
    }
  }
}
