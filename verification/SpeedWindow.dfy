/** sampleSpeed of ui/update.go: a rolling throughput window over a clock that never
    goes back. Times are in milliseconds; the rate is an exact real. */
module SpeedWindow {
  import opened Transfer

  const WARMUP := 3000
  const SAMPLE_GAP := 750
  const WINDOW := 12000
  const MIN_SPAN := 2000
  const MAX_SAMPLES := 17

  datatype Sample = Sample(at: int, bytes: int)

  /** Consecutive samples are at least one gap apart. */
  ghost predicate Spaced(s: seq<Sample>) {
    forall i, j :: 0 <= i < j < |s| ==> s[i].at + SAMPLE_GAP * (j - i) <= s[j].at
  }

  lemma SpacedAppend(s: seq<Sample>, x: Sample)
    requires Spaced(s) && (s != [] ==> s[|s| - 1].at + SAMPLE_GAP <= x.at)
    ensures Spaced(s + [x])
  {
    var all := s + [x];
    forall i, j | 0 <= i < j < |all| ensures all[i].at + SAMPLE_GAP * (j - i) <= all[j].at {
      if j == |s| && i < |s| - 1 {
        assert s[i].at + SAMPLE_GAP * (|s| - 1 - i) <= s[|s| - 1].at;
      }
    }
  }

  /** Every sample lies in the window that ends at now. */
  ghost predicate Within(s: seq<Sample>, now: int) {
    forall i :: 0 <= i < |s| ==> now - WINDOW <= s[i].at <= now
  }

  /** From the first recent sample on, all are in the window. */
  lemma RestIsWithin(all: seq<Sample>, drop: nat, now: int)
    requires Spaced(all) && drop < |all| && all[|all| - 1].at == now
    requires drop == |all| - 1 || all[drop].at >= now - WINDOW
    ensures Spaced(all[drop..]) && Within(all[drop..], now)
  {
    var kept := all[drop..];
    forall i | 0 <= i < |kept| ensures now - WINDOW <= kept[i].at <= now {
      assert i > 0 ==> all[drop].at + SAMPLE_GAP * i <= all[drop + i].at;
      assert drop + i < |all| - 1 ==> all[drop + i].at + SAMPLE_GAP * (|all| - 1 - drop - i) <= all[|all| - 1].at;
    }
  }

  /** And before it none is. */
  lemma RestIsRecent(all: seq<Sample>, drop: nat, now: int)
    requires drop <= |all| && Within(all[drop..], now)
    requires forall i :: 0 <= i < drop ==> all[i].at < now - WINDOW
    ensures forall x :: x in all[drop..] <==> x in all && x.at >= now - WINDOW
  {
    assert all == all[..drop] + all[drop..];
    forall x | x in all && x.at >= now - WINDOW ensures x in all[drop..] {
      assert x !in all[..drop];
    }
  }

  /** Spacing and window together bound the number of samples kept. */
  lemma WindowIsSmall(s: seq<Sample>, now: int)
    requires Spaced(s) && Within(s, now)
    ensures |s| <= MAX_SAMPLES == 17
  {
    if |s| > 1 {
      assert s[0].at + SAMPLE_GAP * (|s| - 1) <= s[|s| - 1].at;
    }
  }

  /** The bound is reached: 17 samples one gap apart fill the window exactly. */
  lemma WindowCanBeFull()
    ensures exists s :: Spaced(s) && Within(s, WINDOW) && |s| == MAX_SAMPLES
  {
    var s := seq(MAX_SAMPLES, i => Sample(SAMPLE_GAP * i, 0));
    assert Spaced(s) && Within(s, WINDOW);
  }

  /** The average rate over a window, in bytes per second. */
  function Rate(w: seq<Sample>): real
    requires |w| >= 2 && w[|w| - 1].at > w[0].at
  {
    ((w[|w| - 1].bytes - w[0].bytes) * 1000) as real / (w[|w| - 1].at - w[0].at) as real
  }

  lemma RateIsBytesPerSecond(w: seq<Sample>)
    requires |w| >= 2 && w[|w| - 1].at > w[0].at
    ensures Rate(w) * ((w[|w| - 1].at - w[0].at) as real / 1000.0) == (w[|w| - 1].bytes - w[0].bytes) as real
  {
    var d, t := (w[|w| - 1].bytes - w[0].bytes) as real, (w[|w| - 1].at - w[0].at) as real;
    assert Rate(w) == (d * 1000.0) / t;
    assert Rate(w) * t == d * 1000.0;
  }

  /** The speed shown is the bytes over the seconds between the ends of the window, if those
      are at least 2 s apart and the bytes did not fall; else it is what it was. */
  predicate Shown(w: seq<Sample>, before: real, after: real)
    requires w != []
  {
    var first, last := w[0], w[|w| - 1];
    if last.at - first.at >= 2000 && last.bytes >= first.bytes
    then after * ((last.at - first.at) as real / 1000.0) == (last.bytes - first.bytes) as real
    else after == before
  }

  /** At a constant rate the window shows that rate. */
  lemma SteadyRate(w: seq<Sample>, perSecond: int)
    requires |w| >= 2 && w[|w| - 1].at > w[0].at
    requires (w[|w| - 1].bytes - w[0].bytes) * 1000 == perSecond * (w[|w| - 1].at - w[0].at)
    ensures Rate(w) == perSecond as real
  {
    var t := w[|w| - 1].at - w[0].at;
    assert Rate(w) * t as real == (perSecond * t) as real == perSecond as real * t as real;
  }

  /** The window is long enough to measure, and its byte count did not fall. */
  predicate Measurable(w: seq<Sample>) {
    && |w| >= 2
    && w[|w| - 1].at - w[0].at >= MIN_SPAN
    && w[|w| - 1].bytes >= w[0].bytes
  }

  class SpeedMeter {
    var startTime: int
    var lastSampleAt: Option<int>
    var samples: seq<Sample>
    var speedBps: real
    ghost var basis: Option<seq<Sample>>  // the window SpeedBps was last computed from

    ghost predicate Valid()
      reads this
    {
      && Spaced(samples)
      && (lastSampleAt.None? <==> samples == [])
      && (samples != [] ==> lastSampleAt == Some(samples[|samples| - 1].at) && Within(samples, lastSampleAt.value))
      && speedBps >= 0.0
      && (basis.None? ==> speedBps == 0.0)
      && (basis.Some? ==> Measurable(basis.value) && speedBps == Rate(basis.value))
    }

    constructor (now: int)
      ensures Valid() && startTime == now && samples == [] && speedBps == 0.0
    {
      startTime, lastSampleAt, samples, speedBps, basis := now, None, [], 0.0, None;
    }

    /** StartTime is set again when the scan completes. */
    method Restart(now: int)
      requires Valid()
      modifies this`startTime
      ensures Valid() && startTime == now
    {
      startTime := now;
    }

    predicate Due(now: int)
      reads this
    {
      now - startTime >= WARMUP && (lastSampleAt.Some? ==> now - lastSampleAt.value >= SAMPLE_GAP)
    }

    /** Drops the samples older than the window, but never the newest. */
    static method Trim(all: seq<Sample>, now: int) returns (kept: seq<Sample>)
      requires Spaced(all) && all != [] && all[|all| - 1].at == now
      ensures Spaced(kept) && kept != [] && kept[|kept| - 1] == all[|all| - 1]
      ensures Within(kept, now)
      ensures forall x :: x in kept <==> x in all && x.at >= now - WINDOW
    {
      var drop := 0;
      while drop < |all| - 1 && all[drop].at < now - WINDOW
        invariant 0 <= drop < |all|
        invariant forall i :: 0 <= i < drop ==> all[i].at < now - WINDOW
      {
        drop := drop + 1;
      }
      kept := all[drop..];
      RestIsWithin(all, drop, now);
      RestIsRecent(all, drop, now);
    }

    /** Sets SpeedBps from the window if it can be measured. */
    method Recompute()
      requires Spaced(samples) && (basis.None? ==> speedBps == 0.0) && speedBps >= 0.0
      requires basis.Some? ==> Measurable(basis.value) && speedBps == Rate(basis.value)
      modifies this`speedBps, this`basis
      ensures basis == if Measurable(samples) then Some(samples) else old(basis)
      ensures (basis.None? ==> speedBps == 0.0) && speedBps >= 0.0
      ensures basis.Some? ==> Measurable(basis.value) && speedBps == Rate(basis.value)
      ensures !Measurable(samples) ==> speedBps == old(speedBps)
      ensures samples != [] ==> Shown(samples, old(speedBps), speedBps)
    {
      if |samples| >= 2 {
        var first, last := samples[0], samples[|samples| - 1];
        if last.at - first.at >= MIN_SPAN {
          var bps := ((last.bytes - first.bytes) * 1000) as real / (last.at - first.at) as real;
          RateSign(last.bytes - first.bytes, last.at - first.at);
          if bps >= 0.0 {
            speedBps := bps;
            basis := Some(samples);
            RateIsBytesPerSecond(samples);
          }
        }
      }
    }

    /** One call of sampleSpeed at time now, with the live byte count. */
    method SampleSpeed(now: int, bytes: int)
      requires Valid() && (lastSampleAt.Some? ==> lastSampleAt.value <= now)
      modifies this
      ensures Valid() && |samples| <= MAX_SAMPLES && startTime == old(startTime)
      ensures !old(Due(now)) ==>
                samples == old(samples) && speedBps == old(speedBps)
                && lastSampleAt == old(lastSampleAt) && basis == old(basis)
      ensures old(Due(now)) ==> Within(samples, now) && lastSampleAt == Some(now)
      ensures old(Due(now)) ==> forall x :: x in samples <==>
                x in old(samples) + [Sample(now, bytes)] && x.at >= now - 12000
      ensures old(Due(now)) ==> basis == if Measurable(samples) then Some(samples) else old(basis)
      ensures old(Due(now)) ==> samples[|samples| - 1] == Sample(now, bytes)
      // due is 3 s after the start, then every 750 ms at the most
      ensures old(Due(now)) <==>
                now - startTime >= 3000 && (old(lastSampleAt).None? || now - old(lastSampleAt).value >= 750)
      ensures old(Due(now)) ==> Shown(samples, old(speedBps), speedBps) && now - 12000 <= samples[0].at
    {
      if samples != [] { WindowIsSmall(samples, lastSampleAt.value); }
      if now - startTime < WARMUP { return; }
      if lastSampleAt.Some? && now - lastSampleAt.value < SAMPLE_GAP { return; }
      Keep(now, bytes);
      Recompute();
    }

    /** Takes the sample and drops those that have left the window. */
    method Keep(now: int, bytes: int)
      requires Spaced(samples) && (samples != [] ==> samples[|samples| - 1].at + SAMPLE_GAP <= now)
      modifies this`samples, this`lastSampleAt
      ensures Spaced(samples) && Within(samples, now) && 0 < |samples| <= MAX_SAMPLES
      ensures lastSampleAt == Some(now) && samples[|samples| - 1] == Sample(now, bytes)
      ensures forall x :: x in samples <==> x in old(samples) + [Sample(now, bytes)] && x.at >= now - WINDOW
    {
      var all := samples + [Sample(now, bytes)];
      SpacedAppend(samples, Sample(now, bytes));
      lastSampleAt := Some(now);
      samples := Trim(all, now);
      WindowIsSmall(samples, now);
    }
  }

  /** The computed rate is non-negative exactly when the byte count did not fall. */
  lemma RateSign(delta: int, span: int)
    requires span > 0
    ensures (delta * 1000) as real / span as real >= 0.0 <==> delta >= 0
  {
    var q := (delta * 1000) as real / span as real;
    assert q * span as real == (delta * 1000) as real;
    if delta < 0 {
      assert q < 0.0;
    }
  }
}
