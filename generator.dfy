/**
 * What every signal generator channel shares: the variables that shape the
 * waveform preview, and the preview computed from them. The vendor drivers
 * rewrite these variables from the instrument's settings.
 */
module Generator {
  import opened Common

  /** The number of points of a periodic preview. */
  const PreviewSamples: nat := 1000

  /** The locally stored variables a channel's preview is computed from. */
  datatype PreviewVars = PreviewVars(
    signalType: string,
    amplitude: real,
    offset: real,
    period: real,
    phase: real,
    symmetry: real,
    dutyCycle: real,
    arbTime: seq<real>,
    arbVolt: seq<real>)

  /** The preview variables of a new channel, before its driver first reads the instrument. */
  const InitialPreview: PreviewVars :=
    PreviewVars("unknown", 1.0, 1.0, 1.0, 1.0, 1.0, 1.0, [0.0], [0.0])

  /**
   * `n` evenly spaced points from 0 towards `stop`, as numpy's `linspace`:
   * with the endpoint the last point is `stop`, without it the spacing is
   * `stop / n` and `stop` itself is not reached.
   */
  function Linspace(stop: real, n: nat, endpoint: bool): (t: seq<real>)
    ensures |t| == n
  {
    var step :=
      if endpoint then (if n <= 1 then 0.0 else stop / (n - 1) as real)
      else if n == 0 then 0.0 else stop / n as real;
    seq(n, i requires 0 <= i < n => i as real * step)
  }

  /** A linspace starts at 0, and its points are evenly spaced. */
  lemma LinspaceSpacing(stop: real, n: nat, endpoint: bool, i: nat)
    requires i + 1 < n
    ensures Linspace(stop, n, endpoint)[0] == 0.0
    ensures Linspace(stop, n, endpoint)[i + 1] - Linspace(stop, n, endpoint)[i]
      == if endpoint then stop / (n - 1) as real else stop / n as real
  {
  }

  /** With the endpoint the last point is `stop` itself. */
  lemma LinspaceEndpoint(stop: real, n: nat)
    requires n >= 2
    ensures Linspace(stop, n, true)[n - 1] == stop
  {
    var step := stop / (n - 1) as real;
    assert Linspace(stop, n, true)[n - 1] == (n - 1) as real * step;
  }

  /** Without the endpoint every point lies in `[0, stop)` for a positive `stop`. */
  lemma LinspaceBelowStop(stop: real, n: nat, i: nat)
    requires stop > 0.0 && i < n
    ensures 0.0 <= Linspace(stop, n, false)[i] < stop
  {
    var step := stop / n as real;
    assert step * n as real == stop;
    assert Linspace(stop, n, false)[i] == i as real * step;
    assert i as real * step < n as real * step by {
      assert step > 0.0;
    }
  }

  /** A sample scaled by a factor and moved by an offset, as the drivers compute arbitrary preview voltages. */
  function Scaled(x: real, factor: real, offset: real): real
  {
    x * factor + offset
  }

  /** `n` time points that start at 0 and are `diff` apart. */
  function ArbTime(n: nat, diff: real): (t: seq<real>)
    ensures |t| == n
  {
    seq(n, i requires 0 <= i < n => i as real * diff)
  }

  /** The time vector as the drivers build it, one point after the other. */
  method ArbTimeVector(n: nat, diff: real) returns (t: seq<real>)
    ensures t == ArbTime(n, diff)
  {
    t := [];
    var timeValue := 0.0;
    while |t| < n
      invariant |t| <= n && timeValue == |t| as real * diff
      invariant forall i :: 0 <= i < |t| ==> t[i] == i as real * diff
    {
      t := t + [timeValue];
      timeValue := timeValue + diff;
    }
    assert forall i :: 0 <= i < n ==> t[i] == ArbTime(n, diff)[i];
  }

  /** Points `period / n` apart divide one period evenly, as a linspace without its end. */
  lemma ArbTimeIsLinspace(period: real, n: nat)
    requires n > 0
    ensures ArbTime(n, period / n as real) == Linspace(period, n, false)
  {
  }

  predicate Periodic(signalType: string)
  {
    signalType in {"sine", "square", "ramp", "pulse"}
  }

  /**
   * `get_signal_preview`: the time and voltage vectors of the preview graph.
   * A sine spans one period including its end, the other periodic shapes
   * one period excluding it; each voltage is the amplitude times the
   * waveform plus the offset. `wave` stands for numpy's sine and scipy's
   * square and sawtooth, evaluated at the phase-shifted argument of a time
   * point. An arbitrary signal shows the stored vectors, anything else one
   * point at the origin. No preview variable changes.
   */
  function SignalPreview(p: PreviewVars, wave: real -> real): (r: (seq<real>, seq<real>))
    ensures Periodic(p.signalType) ==>
      |r.0| == PreviewSamples && |r.1| == PreviewSamples
      && forall i :: 0 <= i < PreviewSamples ==> r.1[i] == p.amplitude * wave(r.0[i]) + p.offset
    ensures p.signalType == "sine" ==> r.0 == Linspace(p.period, PreviewSamples, true)
    ensures Periodic(p.signalType) && p.signalType != "sine" ==> r.0 == Linspace(p.period, PreviewSamples, false)
    ensures p.signalType == "arbitrary" ==> r == (p.arbTime, p.arbVolt)
    ensures !Periodic(p.signalType) && p.signalType != "arbitrary" ==> r == ([0.0], [0.0])
  {
    if Periodic(p.signalType) then
      var time := Linspace(p.period, PreviewSamples, p.signalType == "sine");
      (time, seq(PreviewSamples, i requires 0 <= i < PreviewSamples => p.amplitude * wave(time[i]) + p.offset))
    else if p.signalType == "arbitrary" then
      (p.arbTime, p.arbVolt)
    else
      ([0.0], [0.0])
  }

  /** A sine preview runs from 0 to exactly one period. */
  lemma SinePreviewSpansPeriod(p: PreviewVars, wave: real -> real)
    requires p.signalType == "sine"
    ensures SignalPreview(p, wave).0[0] == 0.0
    ensures SignalPreview(p, wave).0[PreviewSamples - 1] == p.period
  {
    LinspaceSpacing(p.period, PreviewSamples, true, 0);
    LinspaceEndpoint(p.period, PreviewSamples);
  }

  /** Square, ramp and pulse previews start at 0 and stay below one period. */
  lemma PeriodicPreviewBelowPeriod(p: PreviewVars, wave: real -> real, i: nat)
    requires Periodic(p.signalType) && p.signalType != "sine"
    requires p.period > 0.0 && i < PreviewSamples
    ensures SignalPreview(p, wave).0[0] == 0.0
    ensures 0.0 <= SignalPreview(p, wave).0[i] < p.period
  {
    LinspaceSpacing(p.period, PreviewSamples, false, 0);
    LinspaceBelowStop(p.period, PreviewSamples, i);
  }

  /** A channel whose driver has not yet recognised a signal previews one point at the origin. */
  lemma InitialPreviewIsOrigin(wave: real -> real)
    ensures SignalPreview(InitialPreview, wave) == ([0.0], [0.0])
  {
  }
}
