/** The arithmetic of `WindowWaveform`, shared by src/Oscilloscope.py and src/TesterBackend.py:
    cut a sub-range out of a captured trace by elapsed time. */
module Windowing {
  import opened Wrappers
  import opened PySeq

  /** A captured trace: the dictionary `{"Time": [...], "Voltage": [...]}` of the source. */
  datatype Waveform = Waveform(time: seq<real>, voltage: seq<real>)

  /** The dictionary `{"Frequency": [...], "Amplitude": [...]}` an FFT produces. */
  datatype Spectrum = Spectrum(frequency: seq<real>, amplitude: seq<real>)

  /** Why windowing raises: no trace stored, fewer than two time samples (so `Time[1]` does
      not exist), or a zero sampling interval (the quotients divide by zero). */
  datatype WindowError = NoWaveform | TooFewSamples | ZeroInterval

  /** Python's `int(x)` for a float: truncation toward zero. */
  function Truncate(x: real): (t: int)
    ensures 0.0 <= x ==> 0 <= t && t as real <= x < t as real + 1.0
    ensures x < 0.0 ==> t <= 0 && t as real - 1.0 < x <= t as real
  {
    if x >= 0.0 then x.Floor else -((-x).Floor)
  }

  /** `int(us / (deltat * 1000000))`: a duration in microseconds as a whole number of samples. */
  function SampleCount(us: real, deltat: real): int
    requires deltat != 0.0
  {
    Truncate(us / (deltat * 1000000.0))
  }

  /** The sampling interval, taken from the first two time samples. */
  function Interval(w: Waveform): real
    requires |w.time| >= 2
  {
    w.time[1] - w.time[0]
  }

  /** `WindowWaveform(initial_us, window_size_us)` on the stored trace `stored`: both lists
      are sliced with the same Python bounds `[n : n + d]`. */
  function Window(stored: Option<Waveform>, initialUs: real, windowSizeUs: real): Result<Waveform, WindowError>
  {
    match stored
    case None => Failure(NoWaveform)
    case Some(w) =>
      if |w.time| < 2 then Failure(TooFewSamples)
      else if Interval(w) == 0.0 then Failure(ZeroInterval)
      else
        var n := SampleCount(initialUs, Interval(w));
        var d := SampleCount(windowSizeUs, Interval(w));
        Success(Waveform(Slice(w.time, n, n + d), Slice(w.voltage, n, n + d)))
  }

  /** Windowing fails exactly when there is no trace, fewer than two time samples, or two
      equal first time stamps; past those checks it always succeeds, out-of-range windows
      included. */
  lemma WindowErrors(stored: Option<Waveform>, initialUs: real, windowSizeUs: real)
    ensures var r := Window(stored, initialUs, windowSizeUs);
      && (r == Failure(NoWaveform) <==> stored.None?)
      && (r == Failure(TooFewSamples) <==> stored.Some? && |stored.value.time| < 2)
      && (r == Failure(ZeroInterval) <==>
            stored.Some? && |stored.value.time| >= 2 && stored.value.time[1] == stored.value.time[0])
      && (r.Success? <==>
            stored.Some? && |stored.value.time| >= 2 && stored.value.time[1] != stored.value.time[0])
  {
  }

  /** Each output sample is the input sample at the slice's start offset plus its own
      position, for Time and Voltage alike; with both lists equally long the offsets agree
      and so do the output lengths. */
  lemma WindowElements(w: Waveform, initialUs: real, windowSizeUs: real)
    requires Window(Some(w), initialUs, windowSizeUs).Success?
    ensures var r := Window(Some(w), initialUs, windowSizeUs).value;
      var n := SampleCount(initialUs, Interval(w));
      && (forall k :: 0 <= k < |r.time| ==> r.time[k] == w.time[SliceBound(n, |w.time|) + k])
      && (forall k :: 0 <= k < |r.voltage| ==> r.voltage[k] == w.voltage[SliceBound(n, |w.voltage|) + k])
      && (|w.time| == |w.voltage| ==> |r.time| == |r.voltage|)
  {
  }

  /** For a window that starts at or after the first sample and does not end before it, the
      output holds the samples from `n` up to `n + d`, clamped to the trace. */
  lemma WindowLength(w: Waveform, initialUs: real, windowSizeUs: real)
    requires Window(Some(w), initialUs, windowSizeUs).Success?
    requires var n, d := SampleCount(initialUs, Interval(w)), SampleCount(windowSizeUs, Interval(w));
      0 <= n && 0 <= n + d
    ensures var r := Window(Some(w), initialUs, windowSizeUs).value;
      var n, d := SampleCount(initialUs, Interval(w)), SampleCount(windowSizeUs, Interval(w));
      var len := |w.time|;
      |r.time| == Max(0, Min(len, n + d) - Min(len, n))
  {
  }

  function Min(a: int, b: int): int { if a < b then a else b }

  function Max(a: int, b: int): int { if a < b then b else a }

  /** A window starting at time zero, applied twice, equals that window applied once, as long
      as the first result still has two samples to take the interval from (it then has the
      same first two time stamps), time runs forward and the window size is not negative. */
  lemma WindowFromStartIdempotent(w: Waveform, windowSizeUs: real)
    requires |w.time| >= 2 && w.time[1] > w.time[0] && windowSizeUs >= 0.0
    requires var r := Window(Some(w), 0.0, windowSizeUs);
      r.Success? && |r.value.time| >= 2
    ensures var once := Window(Some(w), 0.0, windowSizeUs).value;
      Window(Some(once), 0.0, windowSizeUs) == Success(once)
  {
    var once := Window(Some(w), 0.0, windowSizeUs).value;
    var d := SampleCount(windowSizeUs, Interval(w));
    assert 0.0 / (Interval(w) * 1000000.0) == 0.0;
    assert SampleCount(0.0, Interval(w)) == 0;
    assert Interval(w) * 1000000.0 > 0.0;
    assert d >= 0 by {
      assert windowSizeUs / (Interval(w) * 1000000.0) >= 0.0;
    }
    assert once.time == Slice(w.time, 0, d);
    assert once.time[0] == w.time[0] && once.time[1] == w.time[1];
    assert Interval(once) == Interval(w);
    assert Slice(once.time, 0, d) == once.time;
    assert Slice(once.voltage, 0, d) == once.voltage;
  }

  /** A window from time zero at least as long as the whole trace returns it unchanged. */
  lemma WholeTraceWindow(w: Waveform, windowSizeUs: real)
    requires |w.time| >= 2 && w.time[1] != w.time[0] && |w.voltage| == |w.time|
    requires SampleCount(windowSizeUs, Interval(w)) >= |w.time|
    ensures Window(Some(w), 0.0, windowSizeUs) == Success(w)
  {
    assert 0.0 / (Interval(w) * 1000000.0) == 0.0;
    assert SampleCount(0.0, Interval(w)) == 0;
    assert w.time[0..|w.time|] == w.time;
    assert w.voltage[0..|w.voltage|] == w.voltage;
  }
}
