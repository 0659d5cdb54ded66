/**
 * TrexStatelessPort: the per-port state machine that gates starting and
 * stopping traffic, the connection-handler generator, and the refresh of the
 * port statistics through four bandwidth estimators.
 */
module StatelessPort {
  import opened UnsignedInt
  import opened Bandwidth

  /**
   * The port state. `Unrecognized` stands for any value the C++ enum variable
   * may hold outside its three enumerators; no operation of the port produces it.
   */
  datatype PortState = Down | UpIdle | Transmitting | Unrecognized
  {
    predicate IsEnumerated() { !Unrecognized? }
  }

  /** The return codes of start_traffic. */
  datatype Rc = Ok | ErrBadStateForOp | ErrNoStreams

  /** The controlling session of the port, if any. */
  datatype Owner = NoOwner | OwnedBy(handler: string)

  /** The return code of start_traffic and the state it leaves behind. */
  datatype Transition = Transition(rc: Rc, next: PortState)

  /** start_traffic from state `s` with `streams` configured streams. */
  function StartOutcome(s: PortState, streams: nat): (t: Transition)
    // success exactly from UP_IDLE with at least one stream, and then the port transmits
    ensures t.rc == Ok <==> s == UpIdle && streams > 0
    ensures t.rc == Ok ==> t.next == Transmitting
    // the state is tested before the stream count
    ensures t.rc == ErrBadStateForOp <==> s != UpIdle
    ensures t.rc == ErrNoStreams <==> s == UpIdle && streams == 0
    // a refused start changes nothing
    ensures t.rc != Ok ==> t.next == s
    ensures s.IsEnumerated() ==> t.next.IsEnumerated()
  {
    if s != UpIdle then
      Transition(ErrBadStateForOp, s)
    else if streams == 0 then
      Transition(ErrNoStreams, s)
    else
      Transition(Ok, Transmitting)
  }

  /** The state stop_traffic leaves behind. */
  function StopOutcome(s: PortState): (t: PortState)
    ensures t != Transmitting
    ensures s == Transmitting ==> t == UpIdle
    // a port that is not transmitting is left alone
    ensures s != Transmitting ==> t == s
    ensures s.IsEnumerated() ==> t.IsEnumerated()
  {
    if s == Transmitting then UpIdle else s
  }

  /** Stopping twice is stopping once. */
  lemma StopIdempotent(s: PortState)
    ensures StopOutcome(StopOutcome(s)) == StopOutcome(s)
  {
  }

  /** A successful start is refused when repeated, and the port keeps transmitting. */
  lemma StartTwiceRefused(s: PortState, streams: nat)
    requires StartOutcome(s, streams).rc == Ok
    ensures var t := StartOutcome(s, streams);
      StartOutcome(t.next, streams) == Transition(ErrBadStateForOp, t.next)
  {
  }

  /** get_state_as_string: the name of every state, with a fallback for values outside the enumeration. */
  function StateName(s: PortState): (name: string)
    ensures name == "unknown" <==> !s.IsEnumerated()
    ensures |name| > 0
  {
    match s
    case Down => "down"
    case UpIdle => "idle"
    case Transmitting => "transmitting"
    case Unrecognized => "unknown"
  }

  /** Distinct states have distinct names. */
  lemma StateNameInjective(a: PortState, b: PortState)
    requires StateName(a) == StateName(b)
    ensures a == b
  {
  }

  /** The alphabet of generate_handler, written as the source writes it: digits, upper case, lower case. */
  const Digits: string := "0123456789"
  const UpperCase: string := "ABCDEFGHIJKLMNOPQRSTUVWXYZ"
  const LowerCase: string := "abcdefghijklmnopqrstuvwxyz"
  const Alphanum: string := Digits + UpperCase + LowerCase

  /** The number of characters in a handler. */
  const HandlerLength: nat := 8

  predicate IsAlnum(c: char) {
    '0' <= c <= '9' || 'A' <= c <= 'Z' || 'a' <= c <= 'z'
  }

  /** The alphabet holds exactly the ASCII digits and letters, 62 of them. */
  lemma AlphanumIsAlnum(c: char)
    ensures |Alphanum| == 62
    ensures c in Alphanum <==> IsAlnum(c)
  {
    assert c in Alphanum <==> c in Digits || c in UpperCase || c in LowerCase;
  }

  /** The statistics record of a port: cumulative counters as read, and the smoothed rates. */
  datatype PortCounters = PortCounters(
    totalTxBytes: uint64, totalRxBytes: uint64,
    totalTxPkts: uint64, totalRxPkts: uint64,
    txRxErrors: uint64,
    txBps: real, rxBps: real, txPps: real, rxPps: real)

  const ZeroCounters: PortCounters := PortCounters(0, 0, 0, 0, 0, 0.0, 0.0, 0.0, 0.0)

  /** One reading of the driver's counters for the port (rte_eth_stats). */
  datatype EthStats = EthStats(obytes: uint64, ibytes: uint64, opackets: uint64, ipackets: uint64)

  class Port {
    const portId: uint8
    var state: PortState
    var owner: Owner
    /** The size of the port's stream table, the only thing the port asks of it. */
    var streamCount: nat
    var stats: PortCounters
    const bwTxBps: BWMeasure
    const bwRxBps: BWMeasure
    const bwTxPps: BWMeasure
    const bwRxPps: BWMeasure

    /** The port invariant: the state is one of the three enumerators, and the estimators are sound. */
    ghost predicate Valid()
      reads this, bwTxBps, bwRxBps, bwTxPps, bwRxPps
    {
      state.IsEnumerated() && EstimatorsValid()
    }

    /** The four estimators are distinct objects, each keeping its own invariant. */
    ghost predicate EstimatorsValid()
      reads this, bwTxBps, bwRxBps, bwTxPps, bwRxPps
    {
      bwTxBps != bwRxBps && bwTxBps != bwTxPps && bwTxBps != bwRxPps &&
      bwRxBps != bwTxPps && bwRxBps != bwRxPps && bwTxPps != bwRxPps &&
      bwTxBps.Valid() && bwRxBps.Valid() && bwTxPps.Valid() && bwRxPps.Valid()
    }

    constructor (id: uint8)
      ensures Valid()
      ensures portId == id && state == UpIdle && owner == NoOwner
      ensures streamCount == 0 && stats == ZeroCounters
      ensures fresh(bwTxBps) && fresh(bwRxBps) && fresh(bwTxPps) && fresh(bwRxPps)
      ensures bwTxBps.Snapshot() == bwRxBps.Snapshot() == bwTxPps.Snapshot() == bwRxPps.Snapshot() == Cleared
    {
      portId := id;
      streamCount := 0;
      stats := ZeroCounters;
      bwTxBps := new BWMeasure();
      bwRxBps := new BWMeasure();
      bwTxPps := new BWMeasure();
      bwRxPps := new BWMeasure();
      state := UpIdle;
      owner := NoOwner;
    }

    method StartTraffic() returns (rc: Rc)
      modifies this`state
      ensures Transition(rc, state) == StartOutcome(old(state), streamCount)
      ensures old(Valid()) ==> Valid()
    {
      if state != UpIdle {
        return ErrBadStateForOp;
      }

      if streamCount == 0 {
        return ErrNoStreams;
      }

      state := Transmitting;
      return Ok;
    }

    method StopTraffic()
      modifies this`state
      ensures state == StopOutcome(old(state))
      ensures old(Valid()) ==> Valid()
    {
      if state == Transmitting {
        state := UpIdle;
      }
    }

    function StateAsString(): (name: string)
      reads this
      // a port whose state is one of the enumerators, as Valid() keeps it, never answers "unknown"
      ensures name != "unknown" <==> state.IsEnumerated()
      ensures |name| > 0
    {
      StateName(state)
    }

    /**
     * generate_handler, with the successive values of rand() given as `draws`:
     * character i is the alphabet entry at draws[i] modulo the alphabet's size.
     */
    static method GenerateHandler(draws: seq<nat>) returns (handler: string)
      requires |draws| >= HandlerLength
      ensures |handler| == HandlerLength
      ensures forall i :: 0 <= i < HandlerLength ==> handler[i] == Alphanum[draws[i] % |Alphanum|]
      ensures forall i :: 0 <= i < |handler| ==> IsAlnum(handler[i])
    {
      var ss: string := [];
      for i := 0 to HandlerLength
        invariant |ss| == i
        invariant forall k :: 0 <= k < i ==> ss[k] == Alphanum[draws[k] % |Alphanum|]
      {
        ss := ss + [Alphanum[draws[i] % |Alphanum|]];
      }
      forall i | 0 <= i < |ss|
        ensures IsAlnum(ss[i])
      {
        AlphanumIsAlnum(ss[i]);
      }
      handler := ss;
    }

    /**
     * update_stats: copy the counters read from the driver and feed each of
     * them to its estimator; `clockMsec` holds the clock reading each of the
     * four add calls makes.
     */
    method UpdateStats(counters: EthStats, clockMsec: seq<uint32>, freq: nat)
      requires EstimatorsValid() && |clockMsec| == 4 && freq > 0
      modifies this`stats, bwTxBps, bwRxBps, bwTxPps, bwRxPps
      ensures EstimatorsValid() && (old(Valid()) ==> Valid())
      ensures bwTxBps.Snapshot() == AddSample(old(bwTxBps.Snapshot()), counters.obytes, clockMsec[0], freq).next
      ensures bwRxBps.Snapshot() == AddSample(old(bwRxBps.Snapshot()), counters.ibytes, clockMsec[1], freq).next
      ensures bwTxPps.Snapshot() == AddSample(old(bwTxPps.Snapshot()), counters.opackets, clockMsec[2], freq).next
      ensures bwRxPps.Snapshot() == AddSample(old(bwRxPps.Snapshot()), counters.ipackets, clockMsec[3], freq).next
      // totals are the counters verbatim; each rate is what its estimator now holds
      ensures stats == old(stats).(
        totalTxBytes := counters.obytes, totalRxBytes := counters.ibytes,
        totalTxPkts := counters.opackets, totalRxPkts := counters.ipackets,
        txBps := bwTxBps.lastResult, rxBps := bwRxBps.lastResult,
        txPps := bwTxPps.lastResult, rxPps := bwRxPps.lastResult)
      ensures stats.txBps >= 0.0 && stats.rxBps >= 0.0 && stats.txPps >= 0.0 && stats.rxPps >= 0.0
    {
      var s := stats;
      s := s.(totalTxBytes := counters.obytes, totalRxBytes := counters.ibytes);
      s := s.(totalTxPkts := counters.opackets, totalRxPkts := counters.ipackets);

      var txBps := bwTxBps.Add(counters.obytes, clockMsec[0], freq);
      var rxBps := bwRxBps.Add(counters.ibytes, clockMsec[1], freq);
      var txPps := bwTxPps.Add(counters.opackets, clockMsec[2], freq);
      var rxPps := bwRxPps.Add(counters.ipackets, clockMsec[3], freq);
      stats := s.(txBps := txBps, rxBps := rxBps, txPps := txPps, rxPps := rxPps);
    }
  }

  /**
   * A new port: add five streams, start, start again, stop.
   */
  method StartStopScenario() returns (initial: PortState, first: Rc, second: Rc, final: PortState)
    ensures initial == UpIdle
    ensures first == Ok && second == ErrBadStateForOp
    ensures final == UpIdle
  {
    var port := new Port(0);
    initial := port.state;
    port.streamCount := 5;
    first := port.StartTraffic();
    second := port.StartTraffic();
    port.StopTraffic();
    final := port.state;
  }

  /** A new port without streams refuses to start and stays idle. */
  method NoStreamsScenario() returns (rc: Rc, final: PortState)
    ensures rc == ErrNoStreams && final == UpIdle
  {
    var port := new Port(1);
    rc := port.StartTraffic();
    final := port.state;
  }
}
