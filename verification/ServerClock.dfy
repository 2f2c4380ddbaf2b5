/** Correcting the device clock from samples of the server's: how far off the correction can be. */
module ServerClock {

  datatype Option<+T> = None | Some(value: T)

  /** A time in milliseconds, or a value that is not a finite number. */
  datatype Reading = Finite(ms: int) | NotFinite

  datatype Sample = Sample(serverNow: Reading, requestStartedAt: Reading, responseReceivedAt: Reading)

  datatype Accepted = Accepted(offsetMs: int, rttMs: int, receivedAtMs: int)

  const MAX_RTT_MS: int := 2500
  const INSIGNIFICANT_OFFSET_MARGIN_MS: int := 250
  const SAMPLE_MAX_AGE_MS: int := 600000

  function Abs(x: int): int {
    if x < 0 then -x else x
  }

  /** Math.round of half of x: rounds halves up. */
  function RoundHalf(x: int): int {
    (x + 1) / 2
  }

  predicate AllFinite(s: Sample) {
    s.serverNow.Finite? && s.requestStartedAt.Finite? && s.responseReceivedAt.Finite?
  }

  function Rtt(s: Sample): int
    requires AllFinite(s)
  {
    s.responseReceivedAt.ms - s.requestStartedAt.ms
  }

  predicate Valid(s: Sample) {
    AllFinite(s) && 0 <= Rtt(s) <= MAX_RTT_MS
  }

  /** Server time minus the device time half way through the round trip. */
  function Measured(s: Sample): int
    requires AllFinite(s)
  {
    RoundHalf(2 * s.serverNow.ms - 2 * s.requestStartedAt.ms - Rtt(s))
  }

  predicate IsInsignificant(s: Sample)
    requires AllFinite(s)
  {
    2 * Abs(Measured(s)) <= Rtt(s) + 2 * INSIGNIFICANT_OFFSET_MARGIN_MS
  }

  function Accept(s: Sample): Accepted
    requires AllFinite(s)
  {
    Accepted(if IsInsignificant(s) then 0 else Measured(s), Rtt(s), s.responseReceivedAt.ms)
  }

  predicate ShouldReplace(current: Accepted, next: Accepted) {
    || next.rttMs <= current.rttMs
    || next.receivedAtMs - current.receivedAtMs < 0
    || next.receivedAtMs - current.receivedAtMs > SAMPLE_MAX_AGE_MS
    || 2 * Abs(next.offsetMs - current.offsetMs) > current.rttMs + next.rttMs
  }

  function Record(kept: Option<Accepted>, s: Sample): Option<Accepted> {
    if !Valid(s) then kept
    else if kept.Some? && !ShouldReplace(kept.value, Accept(s)) then kept
    else Some(Accept(s))
  }

  function Offset(kept: Option<Accepted>): int {
    if kept.Some? then kept.value.offsetMs else 0
  }

  function RecordAll(samples: seq<Sample>): Option<Accepted> {
    if samples == [] then None else Record(RecordAll(samples[..|samples| - 1]), samples[|samples| - 1])
  }

  class Clock {
    var acceptedSample: Option<Accepted>
    var notifications: nat

    constructor ()
      ensures acceptedSample == None && notifications == 0
    {
      acceptedSample, notifications := None, 0;
    }

    /** Listeners hear of it exactly when the offset changes. */
    method RecordServerTimeSample(sample: Sample) returns (adopted: bool)
      modifies this
      ensures acceptedSample == Record(old(acceptedSample), sample)
      ensures adopted <==> Valid(sample) && (old(acceptedSample).None? || ShouldReplace(old(acceptedSample).value, Accept(sample)))
      ensures notifications == old(notifications) + if Offset(acceptedSample) != Offset(old(acceptedSample)) then 1 else 0
    {
      if sample.serverNow.NotFinite? || sample.requestStartedAt.NotFinite? || sample.responseReceivedAt.NotFinite? {
        return false;
      }
      var rttMs := sample.responseReceivedAt.ms - sample.requestStartedAt.ms;
      if rttMs < 0 || rttMs > MAX_RTT_MS { return false; }
      var measuredOffsetMs := RoundHalf(2 * sample.serverNow.ms - (2 * sample.requestStartedAt.ms + rttMs));
      var small := 2 * Abs(measuredOffsetMs) <= rttMs + 2 * INSIGNIFICANT_OFFSET_MARGIN_MS;
      var nextSample := Accepted(if small then 0 else measuredOffsetMs, rttMs, sample.responseReceivedAt.ms);
      if acceptedSample.Some? && !ShouldReplace(acceptedSample.value, nextSample) { return false; }
      var previousOffsetMs := Offset(acceptedSample);
      acceptedSample := Some(nextSample);
      if nextSample.offsetMs != previousOffsetMs { notifications := notifications + 1; }
      return true;
    }
  }

  // ----- honest samples -----

  /**
   The server clock is theta ahead of the device clock, and the server read its
   clock between the moments the request left and the answer arrived.
   */
  predicate Honest(s: Sample, theta: real) {
    && AllFinite(s)
    && s.requestStartedAt.ms as real + theta - 1.0 < s.serverNow.ms as real < s.responseReceivedAt.ms as real + theta + 1.0
  }

  /** Clocks that tick in whole milliseconds give honest samples. */
  lemma WholeMillisecondsAreHonest(sent: real, served: real, received: real, theta: real)
    requires sent <= served <= received
    ensures Honest(Sample(Finite((served + theta).Floor), Finite(sent.Floor), Finite(received.Floor)), theta)
  {
  }

  lemma MeasuredBound(s: Sample, theta: real)
    requires Valid(s) && Honest(s, theta)
    ensures -(Rtt(s) as real / 2.0 + 1.5) < Measured(s) as real - theta < Rtt(s) as real / 2.0 + 1.5
  {
    var d := 2 * s.serverNow.ms - 2 * s.requestStartedAt.ms - Rtt(s);
    assert 2 * RoundHalf(d) == d || 2 * RoundHalf(d) == d + 1;
  }

  /** Two measurements of the same difference agree within half the summed round trips, plus rounding. */
  lemma MeasurementsAgree(a: Sample, b: Sample, theta: real)
    requires Valid(a) && Honest(a, theta) && Valid(b) && Honest(b, theta)
    ensures 2 * Abs(Measured(a) - Measured(b)) <= Rtt(a) + Rtt(b) + 5
  {
    MeasuredBound(a, theta);
    MeasuredBound(b, theta);
  }

  /** An accepted offset is off by less than the round trip and 250 ms, plus rounding; a corrected one by half the round trip. */
  lemma AcceptedBound(s: Sample, theta: real)
    requires Valid(s) && Honest(s, theta)
    ensures var e := Accept(s).offsetMs as real - theta; -(Rtt(s) as real + 251.5) < e < Rtt(s) as real + 251.5
    ensures Accept(s).offsetMs != 0 ==>
              var e := Accept(s).offsetMs as real - theta; -(Rtt(s) as real / 2.0 + 1.5) < e < Rtt(s) as real / 2.0 + 1.5
  {
    MeasuredBound(s, theta);
  }

  // ----- over a run -----

  /**
   The kept sample is one that was recorded, and every valid sample since had a
   longer round trip, came within the age limit of it, not before it, and agrees with it.
   */
  ghost predicate KeptFrom(samples: seq<Sample>, kept: Accepted, i: nat) {
    && i < |samples| && Valid(samples[i]) && kept == Accept(samples[i])
    && forall j | i < j < |samples| && Valid(samples[j]) ::
      && Rtt(samples[j]) > kept.rttMs
      && kept.receivedAtMs <= samples[j].responseReceivedAt.ms <= kept.receivedAtMs + SAMPLE_MAX_AGE_MS
      && 2 * Abs(Accept(samples[j]).offsetMs - kept.offsetMs) <= kept.rttMs + Rtt(samples[j])
  }

  lemma {:induction false} KeptIsTightest(samples: seq<Sample>) returns (i: nat)
    ensures RecordAll(samples).Some? ==> KeptFrom(samples, RecordAll(samples).value, i)
    ensures RecordAll(samples).None? ==> forall s <- samples :: !Valid(s)
    decreases |samples|
  {
    i := 0;
    if samples != [] {
      var n := |samples| - 1;
      i := KeptIsTightest(samples[..n]);
      var before := RecordAll(samples[..n]);
      var s := samples[n];
      if Valid(s) && (before.None? || ShouldReplace(before.value, Accept(s))) {
        i := n;
      } else if before.Some? {
        assert KeptFrom(samples[..n], before.value, i);
      }
    }
  }

  /** A sample that is not slower, or from outside the age limit, is adopted at once. */
  lemma AdoptedAtOnce(samples: seq<Sample>, s: Sample)
    requires Valid(s) && RecordAll(samples).Some?
    requires var kept := RecordAll(samples).value; var age := s.responseReceivedAt.ms - kept.receivedAtMs;
      Rtt(s) <= kept.rttMs || age < 0 || age > SAMPLE_MAX_AGE_MS
    ensures RecordAll(samples + [s]) == Some(Accept(s))
  {
    assert (samples + [s])[..|samples|] == samples;
  }

  /** With an unchanged device clock and honest samples the correction stays within rtt + 250 ms of the truth. */
  lemma RunStaysClose(samples: seq<Sample>, theta: real)
    requires forall s <- samples :: Valid(s) ==> Honest(s, theta)
    requires RecordAll(samples).Some?
    ensures var kept := RecordAll(samples).value; var e := kept.offsetMs as real - theta;
      -(kept.rttMs as real + 251.5) < e < kept.rttMs as real + 251.5
    ensures 0 <= RecordAll(samples).value.rttMs <= MAX_RTT_MS
  {
    var i := KeptIsTightest(samples);
    assert samples[i] in samples;
    AcceptedBound(samples[i], theta);
  }

  /**
   When a slower sample within the age limit replaces the kept one, although the
   device clock did not change: never with both offsets taken for zero; with just
   one, exactly when the other exceeds half the summed round trips, and so always
   when the zeroed sample took at most twice the margin; with none, by rounding only.
   */
  lemma SlowerReplacesExactly(a: Sample, b: Sample, theta: real)
    requires Valid(a) && Honest(a, theta) && Valid(b) && Honest(b, theta)
    requires Rtt(b) > Rtt(a) && 0 <= Accept(b).receivedAtMs - Accept(a).receivedAtMs <= SAMPLE_MAX_AGE_MS
    ensures ShouldReplace(Accept(a), Accept(b)) <==>
            if IsInsignificant(a) && IsInsignificant(b) then false
            else if IsInsignificant(a) then 2 * Abs(Measured(b)) > Rtt(a) + Rtt(b)
            else if IsInsignificant(b) then 2 * Abs(Measured(a)) > Rtt(a) + Rtt(b)
            else Rtt(a) + Rtt(b) < 2 * Abs(Measured(a) - Measured(b)) <= Rtt(a) + Rtt(b) + 5
    ensures IsInsignificant(a) && !IsInsignificant(b) && Rtt(a) <= 2 * INSIGNIFICANT_OFFSET_MARGIN_MS ==>
              ShouldReplace(Accept(a), Accept(b))
    ensures !IsInsignificant(a) && IsInsignificant(b) && Rtt(b) <= 2 * INSIGNIFICANT_OFFSET_MARGIN_MS ==>
              ShouldReplace(Accept(a), Accept(b))
  {
    MeasurementsAgree(a, b, theta);
  }

  /** It does happen: 300 ms ahead, a 200 ms sample counts as in sync and a 300 ms sample then takes over with a larger error. */
  lemma ZeroingLetsSlowerReplace()
    ensures exists a, b ::
      && Valid(a) && Honest(a, 300.0) && Valid(b) && Honest(b, 300.0)
      && Rtt(b) > Rtt(a) && Accept(b).receivedAtMs - Accept(a).receivedAtMs == 1000
      && ShouldReplace(Accept(a), Accept(b))
  {
    var a := Sample(Finite(400), Finite(0), Finite(200));
    var b := Sample(Finite(1500), Finite(900), Finite(1200));
    assert Measured(a) == 300 && Measured(b) == 450;
    assert Valid(a) && Honest(a, 300.0) && Valid(b) && Honest(b, 300.0);
    assert Rtt(b) > Rtt(a) && Accept(b).receivedAtMs - Accept(a).receivedAtMs == 1000;
    assert ShouldReplace(Accept(a), Accept(b));
  }

  /** A change of the device clock beyond the error of both samples is noticed at once. */
  lemma ClockChangeIsNoticed(a: Sample, b: Sample, before: real, after: real)
    requires Valid(a) && Honest(a, before) && Valid(b) && Honest(b, after)
    requires before - after > 1.5 * (Rtt(a) + Rtt(b)) as real + 503.0 || after - before > 1.5 * (Rtt(a) + Rtt(b)) as real + 503.0
    ensures ShouldReplace(Accept(a), Accept(b))
  {
    AcceptedBound(a, before);
    AcceptedBound(b, after);
  }
}
