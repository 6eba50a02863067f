/**
 * The fixed-range port service of core/services/port/port_range/provider.go:
 * a counter that starts at the range start and is raised by one before each
 * port is handed out, giving the ports of (start, end] in increasing order,
 * then 0 for ever, which AllocatePort reports as exhaustion.
 */
module PortRange {
  import opened Wrappers

  const DefaultPortStart := 10000
  const DefaultPortEnd := 12000

  datatype FixedPortRangeProviderConfig = FixedPortRangeProviderConfig(portRangeStart: int, portRangeEnd: int)

  /** A zero bound is replaced by its default; any other bound, even a negative one, is kept. */
  function RangeOf(config: FixedPortRangeProviderConfig): (bounds: (int, int))
    ensures config.portRangeStart == 0 ==> bounds.0 == DefaultPortStart
    ensures config.portRangeStart != 0 ==> bounds.0 == config.portRangeStart
    ensures config.portRangeEnd == 0 ==> bounds.1 == DefaultPortEnd
    ensures config.portRangeEnd != 0 ==> bounds.1 == config.portRangeEnd
  {
    (if config.portRangeStart == 0 then DefaultPortStart else config.portRangeStart,
     if config.portRangeEnd == 0 then DefaultPortEnd else config.portRangeEnd)
  }

  ghost predicate StrictlyIncreasing(s: seq<int>) {
    forall i, j :: 0 <= i < j < |s| ==> s[i] < s[j]
  }

  /** The panic of converting the nil that an empty sync.Pool without New yields to int. */
  const NilConversion := "interface conversion: interface {} is nil, not int"

  /**
   * The pool's Get as written: the inner sync.Pool never received the
   * wrapper's New function. An empty pool yields nil, whose conversion to int
   * panics; a non-empty one may hand out one of the values put back, in no
   * promised order, or act as if it were empty, since sync.Pool may drop what
   * it holds at any time. `rest` is what the pool holds afterwards.
   */
  method PoolGetAsWritten(pooled: seq<int>) returns (r: Result<int, string>, rest: seq<int>)
    ensures pooled == [] ==> r == Failure(NilConversion) && rest == pooled
    ensures pooled != [] ==>
              (r == Failure(NilConversion) && rest == pooled) ||
              (r.Success? && r.value in pooled && multiset(rest) == multiset(pooled) - multiset{r.value})
  {
    if pooled == [] {
      return Failure(NilConversion), pooled;
    }
    rest := pooled[..|pooled| - 1];
    r := Success(pooled[|pooled| - 1]);
    assert pooled == rest + [r.value];
  }

  class FixedPortRangeProvider {
    const portStart: int
    const portEnd: int
    /** The counter captured by the pool's New closure. */
    var maxPortAssigned: int
    /** The ports handed out so far, in order. */
    ghost var issued: seq<int>
    /** The values held by the pool's inner sync.Pool; the provider never puts a port back. */
    var pooled: seq<int>

    /** Every port handed out lies in (portStart, portEnd], is not 0, and is above all earlier ones and at most the counter. */
    ghost predicate Valid()
      reads this
    {
      pooled == [] &&
      portStart <= maxPortAssigned &&
      StrictlyIncreasing(issued) &&
      (forall i :: 0 <= i < |issued| ==> portStart < issued[i] <= portEnd && issued[i] <= maxPortAssigned && issued[i] != 0)
    }

    /** New: the bounds with their defaults, and the counter at the start. */
    constructor (config: FixedPortRangeProviderConfig)
      ensures Valid()
      ensures (portStart, portEnd) == RangeOf(config)
      ensures maxPortAssigned == portStart && issued == []
    {
      var bounds := RangeOf(config);
      portStart, portEnd := bounds.0, bounds.1;
      maxPortAssigned := bounds.0;
      issued := [];
      pooled := [];
    }

    /** The pool's New closure: raise the counter, then hand it out unless it passed the end, in which case 0. */
    method NextPort() returns (port: int)
      modifies this`maxPortAssigned
      ensures maxPortAssigned == old(maxPortAssigned) + 1
      ensures port == if maxPortAssigned > portEnd then 0 else maxPortAssigned
    {
      maxPortAssigned := maxPortAssigned + 1;
      if maxPortAssigned > portEnd {
        return 0;
      }
      port := maxPortAssigned;
    }

    /**
     * AllocatePort as written: the pool's Get never reaches New. With nothing
     * put back, which is always the case, the call panics and neither the
     * counter nor the pool changes; a value put back might be handed out, 0
     * still reading as exhaustion, or the call might panic all the same.
     */
    method AllocatePortAsWritten() returns (r: Result<int, string>)
      modifies this`pooled
      ensures old(pooled) == [] ==> r == Failure(NilConversion) && pooled == old(pooled)
      ensures old(pooled) != [] ==>
                (r == Failure(NilConversion) && pooled == old(pooled)) ||
                exists p :: p in old(pooled) && multiset(pooled) == multiset(old(pooled)) - multiset{p} &&
                            r == (if p == 0 then Failure("no more ports available") else Success(p))
    {
      var got;
      got, pooled := PoolGetAsWritten(pooled);
      if got.Failure? {
        return got;
      }
      if got.value == 0 {
        return Failure("no more ports available");
      }
      r := Success(got.value);
    }

    /**
     * AllocatePort, with the pool's Get read as one call of New. A port is
     * handed out unchanged unless New gave 0; once the counter has passed the
     * end every later call fails.
     */
    method AllocatePort() returns (r: Result<int, string>)
      requires Valid()
      modifies this`maxPortAssigned, this`issued
      ensures Valid()
      ensures maxPortAssigned == old(maxPortAssigned) + 1
      ensures r.Failure? <==> maxPortAssigned > portEnd || maxPortAssigned == 0
      ensures r.Failure? ==> r.error == "no more ports available" && issued == old(issued)
      ensures r.Success? ==> r.value == maxPortAssigned && portStart < r.value <= portEnd && issued == old(issued) + [r.value]
      ensures old(maxPortAssigned) >= portEnd ==> r.Failure?
    {
      var port := NextPort();
      if port == 0 {
        return Failure("no more ports available");
      }
      issued := issued + [port];
      r := Success(port);
    }
  }

  /**
   * As written, a fresh provider panics on its first AllocatePort and on every
   * later one, and its counter never leaves the range start.
   */
  method AllocatePortAsWrittenPanics() returns (first: Result<int, string>, second: Result<int, string>, counter: int)
    ensures first == second == Failure(NilConversion)
    ensures counter == DefaultPortStart
  {
    var provider := new FixedPortRangeProvider(FixedPortRangeProviderConfig(0, 0));
    first := provider.AllocatePortAsWritten();
    second := provider.AllocatePortAsWritten();
    counter := provider.maxPortAssigned;
  }

  /** With the default range the first two ports are 10001 and 10002. */
  method DefaultRangeFirstPorts() returns (first: Result<int, string>, second: Result<int, string>)
    ensures first == Success(10001) && second == Success(10002)
  {
    var provider := new FixedPortRangeProvider(FixedPortRangeProviderConfig(0, 0));
    first := provider.AllocatePort();
    second := provider.AllocatePort();
  }

  /** The range (5, 6] holds one port; the calls after it all fail. */
  method OnePortRange() returns (first: Result<int, string>, second: Result<int, string>, third: Result<int, string>)
    ensures first == Success(6)
    ensures second == third == Failure("no more ports available")
  {
    var provider := new FixedPortRangeProvider(FixedPortRangeProviderConfig(5, 6));
    first := provider.AllocatePort();
    second := provider.AllocatePort();
    third := provider.AllocatePort();
  }

  /** A range starting at -1 hands out 0 first, which is read as exhaustion although 0 lies in the range. */
  method ZeroInRange() returns (first: Result<int, string>, second: Result<int, string>)
    ensures first.Failure? && second == Success(1)
  {
    var provider := new FixedPortRangeProvider(FixedPortRangeProviderConfig(-1, 5));
    first := provider.AllocatePort();
    second := provider.AllocatePort();
  }
}
