/**
 * The bandwidth estimator BWMeasure: a smoothing filter over one cumulative
 * counter. The clock reading (os_get_time_msec) and the tick frequency
 * (os_get_time_freq) are parameters; the double arithmetic of calc_MBsec is
 * done over `real`.
 */
module Bandwidth {
  import opened UnsignedInt

  /** The constant factor of calc_MBsec: 8 bits per byte, 10^6 bits per megabit. */
  const MbitPerByte: real := 0.000008

  /**
   * The rate, in megabits per second, of `dbytes` bytes counted over
   * `dtimeMsec` clock ticks when the clock runs at `freq` ticks per second.
   */
  function CalcMBsec(dtimeMsec: uint32, dbytes: uint64, freq: nat): (rate: real)
    requires dtimeMsec > 0
    ensures rate >= 0.0
    // rate times elapsed ticks is proportional to bytes times frequency
    ensures rate * (dtimeMsec as real) == MbitPerByte * (dbytes as real) * (freq as real)
  {
    var bytesTimesFreq := (dbytes as real) * (freq as real);
    assert bytesTimesFreq >= 0.0;
    MbitPerByte * (bytesTimesFreq / (dtimeMsec as real))
  }

  /** Exponential smoothing with weight one half: the new estimate from a fresh rate and the previous estimate. */
  function Smooth(rate: real, previous: real): (s: real)
    // the new estimate lies halfway between the two
    ensures s - previous == rate - s
    ensures rate <= previous ==> rate <= s <= previous
    ensures previous <= rate ==> previous <= s <= rate
  {
    0.5 * rate + 0.5 * previous
  }

  /** The four fields of a BWMeasure, as a value. */
  datatype Sample = Sample(started: bool, lastTimeMsec: uint32, lastBytes: uint64, lastResult: real)

  /** What BWMeasure::reset leaves behind. */
  const Cleared: Sample := Sample(false, 0, 0, 0.0)

  /** The invariant every BWMeasure keeps: untouched until its first sample, and never a negative rate. */
  predicate SampleValid(s: Sample) {
    (!s.started ==> s == Cleared) && s.lastResult >= 0.0
  }

  /** The new fields and the returned rate of one call of add. */
  datatype Step = Step(next: Sample, result: real)

  /** BWMeasure::add(size) with the clock reading `nowMsec` and `freq` ticks per second. */
  function AddSample(s: Sample, size: uint64, nowMsec: uint32, freq: nat): (o: Step)
    requires freq > 0
    // first sample: report no rate, record the time and the counter
    ensures !s.started ==>
      o.result == 0.0 && o.next == s.(started := true, lastTimeMsec := nowMsec, lastBytes := size)
    // too soon since the last recorded sample: nothing changes, the cached rate is returned
    ensures s.started && Sub32(nowMsec, s.lastTimeMsec) < freq ==> o.next == s && o.result == s.lastResult
    // otherwise: record the sample and blend the rate over the elapsed interval into the estimate
    ensures s.started && Sub32(nowMsec, s.lastTimeMsec) >= freq ==>
      o.next == Sample(true, nowMsec, size, o.result) &&
      o.result == Smooth(CalcMBsec(Sub32(nowMsec, s.lastTimeMsec), Sub64(size, s.lastBytes), freq), s.lastResult)
    // the invariant is kept, and the returned rate is always the stored estimate
    ensures SampleValid(s) ==> SampleValid(o.next) && o.result == o.next.lastResult
    ensures o.next.started
  {
    if !s.started then
      Step(s.(started := true, lastTimeMsec := nowMsec, lastBytes := size), 0.0)
    else
      var dtimeMsec := Sub32(nowMsec, s.lastTimeMsec);
      if dtimeMsec < freq then
        Step(s, s.lastResult)
      else
        var result := Smooth(CalcMBsec(dtimeMsec, Sub64(size, s.lastBytes), freq), s.lastResult);
        Step(Sample(true, nowMsec, size, result), result)
  }

  /**
   * A too-soon call leaves no trace: the call after it behaves as if it had
   * not happened, so its counter delta goes into the next recorded delta.
   */
  lemma TooSoonCallInvisible(s: Sample, x: uint64, t1: uint32, y: uint64, t2: uint32, freq: nat)
    requires freq > 0
    requires s.started && Sub32(t1, s.lastTimeMsec) < freq
    ensures AddSample(AddSample(s, x, t1, freq).next, y, t2, freq) == AddSample(s, y, t2, freq)
  {
  }

  /** A call less than `freq` ticks after a call that recorded its sample returns the same rate. */
  lemma CachedAfterRecording(s: Sample, x: uint64, t1: uint32, y: uint64, t2: uint32, freq: nat)
    requires freq > 0 && SampleValid(s)
    requires !s.started || Sub32(t1, s.lastTimeMsec) >= freq
    requires Sub32(t2, t1) < freq
    ensures AddSample(AddSample(s, x, t1, freq).next, y, t2, freq).result == AddSample(s, x, t1, freq).result
  {
  }

  /**
   * The interval counts from the last recorded sample, not from the previous
   * call: after a too-soon call at 600, a call at 1100 is only 500 ticks
   * later, yet it is due and reports a new, positive rate.
   */
  lemma IntervalFromRecordedSample()
    ensures var s := Sample(true, 0, 0, 0.0);
      var first := AddSample(s, 1000, 600, 1000);
      var second := AddSample(first.next, 2000, 1100, 1000);
      Sub32(1100, 600) < 1000 && first.result == 0.0 && second.result > 0.0
  {
  }

  /** The BWMeasure object, whose fields add and reset update in place. */
  class BWMeasure {
    var started: bool
    var lastTimeMsec: uint32
    var lastBytes: uint64
    var lastResult: real

    function Snapshot(): Sample
      reads this
    {
      Sample(started, lastTimeMsec, lastBytes, lastResult)
    }

    ghost predicate Valid()
      reads this
    {
      SampleValid(Snapshot())
    }

    constructor ()
      ensures Snapshot() == Cleared && Valid()
    {
      new;
      Reset();
    }

    method Reset()
      modifies this
      ensures Snapshot() == Cleared && Valid()
    {
      started := false;
      lastTimeMsec := 0;
      lastBytes := 0;
      lastResult := 0.0;
    }

    method Add(size: uint64, nowMsec: uint32, freq: nat) returns (result: real)
      requires freq > 0
      modifies this
      ensures Step(Snapshot(), result) == AddSample(old(Snapshot()), size, nowMsec, freq)
      ensures old(Valid()) ==> Valid() && result == lastResult
    {
      if !started {
        started := true;
        lastTimeMsec := nowMsec;
        lastBytes := size;
        return 0.0;
      }

      var ctime := nowMsec;
      if Sub32(ctime, lastTimeMsec) < freq {
        return lastResult;
      }

      var dtimeMsec := Sub32(ctime, lastTimeMsec);
      var dbytes := Sub64(size, lastBytes);

      lastTimeMsec := ctime;
      lastBytes := size;

      lastResult := Smooth(CalcMBsec(dtimeMsec, dbytes, freq), lastResult);
      return lastResult;
    }
  }

  /**
   * A fresh estimator, sampled three times at one tick per millisecond:
   * 1,000,000 bytes in, then 1,000,000 more one second later, then another
   * reading 10 ms after that.
   */
  method OneSecondScenario() returns (first: real, second: real, third: real)
    ensures first == 0.0
    // 8 Mbit/s instantaneous, blended with the resting estimate 0
    ensures second == 0.5 * CalcMBsec(1000, 1_000_000, 1000) && second == 4.0
    // too soon: the cached estimate again
    ensures third == second
  {
    var bw := new BWMeasure();
    first := bw.Add(1_000_000, 5000, 1000);
    second := bw.Add(2_000_000, 6000, 1000);
    third := bw.Add(2_500_000, 6010, 1000);
  }
}
