/**
 * The TiePie generator. The generator and its single channel talk to one
 * and the same instrument object, which holds the settings; the channel
 * keeps the preview variables and the raw arbitrary samples, and re-reads
 * the instrument after every accepted change.
 */
module TiepieGen {
  import opened Common
  import opened Device
  import opened Generator

  /** The instrument's limits for each clamped setting. */
  datatype GenLimits = GenLimits(
    ampMin: real, ampMax: real,
    offsetMin: real, offsetMax: real,
    freqMin: real, freqMax: real,
    phaseMin: real, phaseMax: real,
    symmetryMin: real, symmetryMax: real,
    pulseWidthMin: real, pulseWidthMax: real,
    burstCntMin: int, burstCntMax: int,
    burstSampleCntMin: int, burstSampleCntMax: int,
    burstSegmentCntMin: int, burstSegmentCntMax: int,
    arbLenMin: nat, arbLenMax: nat)

  /** The two burst counters the instrument keeps apart. */
  datatype BurstCounts = BurstCounts(sampleCnt: int, segmentCnt: int)

  /** The instrument's settings. */
  datatype Settings = Settings(
    sigType: string,
    amplitude: real,
    offset: real,
    freq: real,
    phase: real,
    symmetry: real,
    pulseWidth: real,
    freqMode: string,
    mode: string,
    burstCnt: int,
    burst: BurstCounts)

  /** The preview's name for an instrument signal type: a triangle previews as a ramp. */
  function PreviewType(sigType: string): (t: string)
    ensures sigType in {"sine", "square", "pulse", "arbitrary"} ==> t == sigType
    ensures sigType == "triangle" ==> t == "ramp"
    ensures sigType !in {"sine", "triangle", "square", "pulse", "arbitrary"} ==> t == "unknown"
    ensures Periodic(t) <==> sigType in {"sine", "triangle", "square", "pulse"}
  {
    if sigType == "sine" then "sine"
    else if sigType == "triangle" then "ramp"
    else if sigType == "square" then "square"
    else if sigType == "pulse" then "pulse"
    else if sigType == "arbitrary" then "arbitrary"
    else "unknown"
  }

  /** The largest magnitude among the raw samples. */
  function ArbLimit(raw: seq<real>): (l: real)
    requires raw != []
    ensures l >= 0.0
    ensures forall i :: 0 <= i < |raw| ==> -l <= raw[i] <= l
    ensures exists i :: 0 <= i < |raw| && (raw[i] == l || raw[i] == -l)
  {
    MaxReal(Abs(SeqMin(raw)), Abs(SeqMax(raw)))
  }

  /**
   * What the instrument's buffer holds after it normalised the raw samples:
   * scaled so that the largest magnitude becomes the amplitude, then moved
   * by the offset; all-zero samples stay at the offset.
   */
  function Normalized(raw: seq<real>, amp: real, offset: real): (v: seq<real>)
    requires raw != []
    ensures |v| == |raw|
  {
    var factor := Factor(raw, amp);
    seq(|raw|, i requires 0 <= i < |raw| => Scaled(raw[i], factor, offset))
  }

  /** The normalising factor: the amplitude over the largest magnitude, or 0 when that is 0. */
  function Factor(raw: seq<real>, amp: real): real
    requires raw != []
  {
    var limit := ArbLimit(raw);
    if limit != 0.0 then amp / limit else 0.0
  }

  /** A sample of magnitude at most `l`, scaled by `amp / l` and moved by `offset`, stays within `|amp|` of `offset`. */
  lemma ScaleBounded(x: real, l: real, amp: real, offset: real)
    requires l > 0.0 && -l <= x <= l
    ensures offset - Abs(amp) <= Scaled(x, amp / l, offset) <= offset + Abs(amp)
  {
    var f := amp / l;
    assert f * l == amp;
    if f >= 0.0 {
      assert x * f <= l * f;
      assert -l * f <= x * f;
    } else {
      assert x * f >= l * f;
      assert -l * f >= x * f;
    }
  }

  /** A sample of magnitude `l` scaled by `amp / l` and moved by `offset` lands at `offset` plus or minus `amp`. */
  lemma ScalePeak(x: real, l: real, amp: real, offset: real)
    requires l > 0.0 && (x == l || x == -l)
    ensures Scaled(x, amp / l, offset) in {offset + amp, offset - amp}
  {
    var f := amp / l;
    assert l * f == amp;
  }

  /** Every normalised sample lies within one amplitude of the offset. */
  lemma NormalizedBounded(raw: seq<real>, amp: real, offset: real, i: int)
    requires raw != [] && 0 <= i < |raw|
    ensures offset - Abs(amp) <= Normalized(raw, amp, offset)[i] <= offset + Abs(amp)
  {
    var limit := ArbLimit(raw);
    assert Normalized(raw, amp, offset)[i] == Scaled(raw[i], Factor(raw, amp), offset);
    if limit != 0.0 {
      ScaleBounded(raw[i], limit, amp, offset);
    }
  }

  /** Unless all samples are zero, some normalised sample reaches the offset plus or minus the amplitude. */
  lemma NormalizedReachesAmplitude(raw: seq<real>, amp: real, offset: real)
    requires raw != [] && ArbLimit(raw) != 0.0
    ensures exists k :: 0 <= k < |raw| && Normalized(raw, amp, offset)[k] in {offset + amp, offset - amp}
  {
    var limit := ArbLimit(raw);
    var k :| 0 <= k < |raw| && (raw[k] == limit || raw[k] == -limit);
    assert Normalized(raw, amp, offset)[k] == Scaled(raw[k], Factor(raw, amp), offset);
    ScalePeak(raw[k], limit, amp, offset);
  }

  /** Every normalised sample sits at the offset when all raw samples are zero. */
  lemma NormalizedZeroLimit(raw: seq<real>, amp: real, offset: real, i: int)
    requires raw != [] && ArbLimit(raw) == 0.0 && 0 <= i < |raw|
    ensures raw[i] == 0.0 && Normalized(raw, amp, offset)[i] == offset
  {
  }

  /** The instrument object that the generator and its channel share. */
  class Instrument {
    const lim: GenLimits
    /** The settings this instrument model lacks: reading them raises. */
    const missing: set<string>
    var controllable: bool
    var outOn: bool
    var generating: bool
    var closed: bool
    var s: Settings
    /** The samples last uploaded into the waveform buffer. */
    var arbData: seq<real>

    predicate Valid()
      reads this
    {
      0.0 < lim.freqMin <= lim.freqMax && s.freq > 0.0 && lim.arbLenMin >= 1 && lim.arbLenMax >= 1
    }

    constructor (limits: GenLimits, lacks: set<string>, settings: Settings, isControllable: bool)
      requires 0.0 < limits.freqMin <= limits.freqMax && settings.freq > 0.0
      requires limits.arbLenMin >= 1 && limits.arbLenMax >= 1
      ensures Valid() && lim == limits && missing == lacks && s == settings
      ensures controllable == isControllable && !generating && !closed
    {
      lim := limits;
      missing := lacks;
      s := settings;
      controllable := isControllable;
      outOn := false;
      generating := false;
      closed := false;
      arbData := [];
    }
  }

  class TiepieGenChannel {
    const chan: Channel
    const hw: Instrument
    var rawArb: seq<real>
    var preview: PreviewVars

    predicate Valid()
      reads this, hw
    {
      hw.Valid() && rawArb != [] && preview.period > 0.0
    }

    /**
     * The preview variables `_update_preview_variables` derives from the
     * instrument, starting from `p`: a setting the instrument lacks keeps
     * its old value, and when the frequency mode cannot be read the time
     * vector keeps its old value while the voltages are already renewed.
     */
    function Refresh(p: PreviewVars): (q: PreviewVars)
      requires hw.Valid() && rawArb != [] && p.period > 0.0
      reads this, hw
      ensures q.period > 0.0
    {
      var amp := if "amplitude" in hw.missing then p.amplitude else hw.s.amplitude;
      var period := if "freq" in hw.missing then p.period else 1.0 / hw.s.freq;
      var phase := if "phase" in hw.missing then p.phase else hw.s.phase;
      var sym := if "symmetry" in hw.missing then p.symmetry else hw.s.symmetry;
      var duty := if "pulse_width" in hw.missing then p.dutyCycle else hw.s.pulseWidth / period;
      var n := |rawArb|;
      var time :=
        if "freq_mode" in hw.missing then p.arbTime
        else ArbTime(n, if hw.s.freqMode == "signal" then period / n as real else period);
      PreviewVars(PreviewType(hw.s.sigType), amp, hw.s.offset, period, phase, sym, duty, time,
        Normalized(rawArb, amp, hw.s.offset))
    }

    /** The channel is numbered `no`, its output off, with one zero sample as arbitrary data. */
    constructor (no: int, instrument: Instrument)
      requires instrument.Valid()
      modifies instrument
      ensures chan.id == ChannelId("Channel", no) && !chan.enabled && hw == instrument
      ensures Valid() && !hw.outOn && rawArb == [0.0]
      ensures preview == Refresh(InitialPreview)
      ensures hw.s == old(instrument.s) && hw.controllable == old(instrument.controllable)
      ensures hw.generating == old(instrument.generating) && hw.closed == old(instrument.closed)
    {
      chan := new Channel("Channel", no);
      hw := instrument;
      rawArb := [0.0];
      preview := InitialPreview;
      new;
      hw.outOn := false;
      UpdatePreview();
    }

    /** `_update_preview_variables`, whose time vector is built point by point. */
    method UpdatePreview()
      requires Valid()
      modifies this`preview
      ensures Valid() && preview == Refresh(old(preview))
    {
      var p := preview;
      var amp := if "amplitude" in hw.missing then p.amplitude else hw.s.amplitude;
      var period := if "freq" in hw.missing then p.period else 1.0 / hw.s.freq;
      var phase := if "phase" in hw.missing then p.phase else hw.s.phase;
      var sym := if "symmetry" in hw.missing then p.symmetry else hw.s.symmetry;
      var duty := if "pulse_width" in hw.missing then p.dutyCycle else hw.s.pulseWidth / period;
      var volt := Normalized(rawArb, amp, hw.s.offset);
      var time := p.arbTime;
      if "freq_mode" !in hw.missing {
        var n := |rawArb|;
        var diff := if hw.s.freqMode == "signal" then period / n as real else period;
        time := ArbTimeVector(n, diff);
      }
      preview := PreviewVars(PreviewType(hw.s.sigType), amp, hw.s.offset, period, phase, sym, duty, time, volt);
    }

    /** `is_enabled`: output and local flag follow the value, only while the instrument is controllable. */
    method SetEnabled(value: bool)
      modifies hw`outOn, chan
      ensures old(hw.controllable) ==> hw.outOn == value && chan.enabled == value
      ensures !old(hw.controllable) ==> hw.outOn == old(hw.outOn) && chan.enabled == old(chan.enabled)
    {
      if hw.controllable {
        hw.outOn := value;
        chan.enabled := value;
      }
    }

    /**
     * `arb_data`: accepted only while controllable, in the arbitrary signal
     * type and with at least the minimum length; truncated to the maximum
     * length, uploaded, kept and previewed.
     */
    method SetArbData(value: seq<real>) returns (ok: bool)
      requires Valid()
      modifies this`rawArb, this`preview, hw`arbData
      ensures Valid()
      ensures ok <==> hw.controllable && hw.s.sigType == "arbitrary" && |value| >= hw.lim.arbLenMin
      ensures ok ==>
        rawArb == value[..MinNat(|value|, hw.lim.arbLenMax)] && hw.arbData == rawArb
        && preview == Refresh(old(preview))
      ensures !ok ==> rawArb == old(rawArb) && hw.arbData == old(hw.arbData) && preview == old(preview)
    {
      ok := false;
      if hw.controllable && hw.s.sigType == "arbitrary" {
        if |value| >= hw.lim.arbLenMin {
          var v := value[..MinNat(|value|, hw.lim.arbLenMax)];
          hw.arbData := v;
          rawArb := v;
          UpdatePreview();
          ok := true;
        }
      }
    }

    /** `sig_type`: written while controllable, then previewed. */
    method SetSigType(value: string)
      requires Valid()
      modifies hw`s, this`preview
      ensures Valid()
      ensures old(hw.controllable) ==> hw.s == old(hw.s).(sigType := value) && preview == Refresh(old(preview))
      ensures !old(hw.controllable) ==> hw.s == old(hw.s) && preview == old(preview)
    {
      if hw.controllable {
        hw.s := hw.s.(sigType := value);
        UpdatePreview();
      }
    }

    /** The `amp` getter: '-' (here `None`) for a DC signal. */
    function Amp(): (a: Option<real>)
      reads hw
      ensures a.None? <==> hw.s.sigType == "DC"
      ensures a.Some? ==> a.value == hw.s.amplitude
    {
      if hw.s.sigType != "DC" then Some(hw.s.amplitude) else None
    }

    /** `amp`: clamped into the instrument's range, while controllable and not DC. */
    method SetAmp(value: real)
      requires Valid()
      modifies hw`s, this`preview
      ensures Valid()
      ensures old(hw.controllable) && old(hw.s.sigType) != "DC" ==>
        hw.s == old(hw.s).(amplitude := Clamp(hw.lim.ampMin, hw.lim.ampMax, value))
        && Amp() == Some(Clamp(hw.lim.ampMin, hw.lim.ampMax, value))
        && preview == Refresh(old(preview))
      ensures !(old(hw.controllable) && old(hw.s.sigType) != "DC") ==> hw.s == old(hw.s) && preview == old(preview)
    {
      if hw.controllable && hw.s.sigType != "DC" {
        hw.s := hw.s.(amplitude := Clamp(hw.lim.ampMin, hw.lim.ampMax, value));
        UpdatePreview();
      }
    }

    /** `offset`: clamped into the instrument's range, while controllable. */
    method SetOffset(value: real)
      requires Valid()
      modifies hw`s, this`preview
      ensures Valid()
      ensures old(hw.controllable) ==>
        hw.s == old(hw.s).(offset := Clamp(hw.lim.offsetMin, hw.lim.offsetMax, value))
        && preview == Refresh(old(preview)) && preview.offset == hw.s.offset
      ensures !old(hw.controllable) ==> hw.s == old(hw.s) && preview == old(preview)
    {
      if hw.controllable {
        hw.s := hw.s.(offset := Clamp(hw.lim.offsetMin, hw.lim.offsetMax, value));
        UpdatePreview();
      }
    }

    /** The `freq` getter: '-' (here `None`) for a DC signal. */
    function Freq(): (f: Option<real>)
      reads hw
      ensures f.None? <==> hw.s.sigType == "DC"
      ensures f.Some? ==> f.value == hw.s.freq
    {
      if hw.s.sigType != "DC" then Some(hw.s.freq) else None
    }

    /** `freq`: clamped into the instrument's range, while controllable and not DC; the preview period follows. */
    method SetFreq(value: real)
      requires Valid()
      modifies hw`s, this`preview
      ensures Valid()
      ensures old(hw.controllable) && old(hw.s.sigType) != "DC" ==>
        hw.s == old(hw.s).(freq := Clamp(hw.lim.freqMin, hw.lim.freqMax, value))
        && Freq() == Some(Clamp(hw.lim.freqMin, hw.lim.freqMax, value))
        && preview == Refresh(old(preview))
        && ("freq" !in hw.missing ==> preview.period == 1.0 / hw.s.freq)
      ensures !(old(hw.controllable) && old(hw.s.sigType) != "DC") ==> hw.s == old(hw.s) && preview == old(preview)
    {
      if hw.controllable && hw.s.sigType != "DC" {
        hw.s := hw.s.(freq := Clamp(hw.lim.freqMin, hw.lim.freqMax, value));
        UpdatePreview();
      }
    }

    /** The `freq_mode` getter: '-' (here `None`) for DC and noise. */
    function FreqMode(): (m: Option<string>)
      reads hw
      ensures m.None? <==> hw.s.sigType in {"DC", "noise"}
      ensures m.Some? ==> m.value == hw.s.freqMode
    {
      if hw.s.sigType !in {"DC", "noise"} then Some(hw.s.freqMode) else None
    }

    /** `freq_mode`: written while controllable and neither DC nor noise. */
    method SetFreqMode(value: string)
      requires Valid()
      modifies hw`s, this`preview
      ensures Valid()
      ensures old(hw.controllable) && old(hw.s.sigType) !in {"DC", "noise"} ==>
        hw.s == old(hw.s).(freqMode := value) && FreqMode() == Some(value) && preview == Refresh(old(preview))
      ensures !(old(hw.controllable) && old(hw.s.sigType) !in {"DC", "noise"}) ==>
        hw.s == old(hw.s) && preview == old(preview)
    {
      if hw.controllable && hw.s.sigType !in {"DC", "noise"} {
        hw.s := hw.s.(freqMode := value);
        UpdatePreview();
      }
    }

    /** `phase`: clamped into the instrument's range, while controllable. */
    method SetPhase(value: real)
      requires Valid()
      modifies hw`s, this`preview
      ensures Valid()
      ensures old(hw.controllable) ==>
        hw.s == old(hw.s).(phase := Clamp(hw.lim.phaseMin, hw.lim.phaseMax, value))
        && preview == Refresh(old(preview))
      ensures !old(hw.controllable) ==> hw.s == old(hw.s) && preview == old(preview)
    {
      if hw.controllable {
        hw.s := hw.s.(phase := Clamp(hw.lim.phaseMin, hw.lim.phaseMax, value));
        UpdatePreview();
      }
    }

    /** The `symmetry` getter: '-' (here `None`) for DC, noise and arbitrary signals. */
    function Symmetry(): (y: Option<real>)
      reads hw
      ensures y.None? <==> hw.s.sigType in {"DC", "noise", "arbitrary"}
      ensures y.Some? ==> y.value == hw.s.symmetry
    {
      if hw.s.sigType !in {"DC", "noise", "arbitrary"} then Some(hw.s.symmetry) else None
    }

    /** `symmetry`: clamped into the instrument's range, while controllable and not DC, noise or arbitrary. */
    method SetSymmetry(value: real)
      requires Valid()
      modifies hw`s, this`preview
      ensures Valid()
      ensures old(hw.controllable) && old(hw.s.sigType) !in {"DC", "noise", "arbitrary"} ==>
        hw.s == old(hw.s).(symmetry := Clamp(hw.lim.symmetryMin, hw.lim.symmetryMax, value))
        && Symmetry() == Some(Clamp(hw.lim.symmetryMin, hw.lim.symmetryMax, value))
        && preview == Refresh(old(preview))
      ensures !(old(hw.controllable) && old(hw.s.sigType) !in {"DC", "noise", "arbitrary"}) ==>
        hw.s == old(hw.s) && preview == old(preview)
    {
      if hw.controllable && hw.s.sigType !in {"DC", "noise", "arbitrary"} {
        hw.s := hw.s.(symmetry := Clamp(hw.lim.symmetryMin, hw.lim.symmetryMax, value));
        UpdatePreview();
      }
    }

    /** `pulse_width`: clamped into the instrument's range, while controllable. */
    method SetPulseWidth(value: real)
      requires Valid()
      modifies hw`s, this`preview
      ensures Valid()
      ensures old(hw.controllable) ==>
        hw.s == old(hw.s).(pulseWidth := Clamp(hw.lim.pulseWidthMin, hw.lim.pulseWidthMax, value))
        && preview == Refresh(old(preview))
      ensures !old(hw.controllable) ==> hw.s == old(hw.s) && preview == old(preview)
    {
      if hw.controllable {
        hw.s := hw.s.(pulseWidth := Clamp(hw.lim.pulseWidthMin, hw.lim.pulseWidthMax, value));
        UpdatePreview();
      }
    }

    /** `mode`: written while controllable. */
    method SetMode(value: string)
      modifies hw`s
      ensures old(hw.controllable) ==> hw.s == old(hw.s).(mode := value)
      ensures !old(hw.controllable) ==> hw.s == old(hw.s)
    {
      if hw.controllable {
        hw.s := hw.s.(mode := value);
      }
    }

    /** The `burst_cnt` getter: '-' (here `None`) outside the 'burst count' mode. */
    function BurstCnt(): (b: Option<int>)
      reads hw
      ensures b.Some? <==> hw.s.mode == "burst count"
      ensures b.Some? ==> b.value == hw.s.burstCnt
    {
      if hw.s.mode == "burst count" then Some(hw.s.burstCnt) else None
    }

    /** `burst_cnt`: clamped, in the 'burst count' mode while controllable. */
    method SetBurstCnt(value: int)
      modifies hw`s
      ensures old(hw.s.mode) == "burst count" && old(hw.controllable) ==>
        hw.s == old(hw.s).(burstCnt := ClampInt(hw.lim.burstCntMin, hw.lim.burstCntMax, value))
        && BurstCnt() == Some(ClampInt(hw.lim.burstCntMin, hw.lim.burstCntMax, value))
      ensures !(old(hw.s.mode) == "burst count" && old(hw.controllable)) ==> hw.s == old(hw.s)
    {
      if hw.s.mode == "burst count" && hw.controllable {
        hw.s := hw.s.(burstCnt := ClampInt(hw.lim.burstCntMin, hw.lim.burstCntMax, value));
      }
    }

    function BurstSampleCnt(): (b: int)
      reads hw
    {
      hw.s.burst.sampleCnt
    }

    /** `burst_sample_cnt`: clamped, while controllable; the segment count is left alone. */
    method SetBurstSampleCnt(value: int)
      modifies hw`s
      ensures old(hw.controllable) ==>
        hw.s == old(hw.s).(burst := WithSampleCnt(old(hw.s.burst),
          ClampInt(hw.lim.burstSampleCntMin, hw.lim.burstSampleCntMax, value)))
        && BurstSampleCnt() == ClampInt(hw.lim.burstSampleCntMin, hw.lim.burstSampleCntMax, value)
      ensures !old(hw.controllable) ==> hw.s == old(hw.s)
    {
      if hw.controllable {
        var v := ClampInt(hw.lim.burstSampleCntMin, hw.lim.burstSampleCntMax, value);
        hw.s := hw.s.(burst := WithSampleCnt(hw.s.burst, v));
      }
    }

    /** The `burst_seg_cnt` getter as written: it reads the sample count. */
    function BurstSegCntAsWritten(): (b: int)
      reads hw
      ensures b == SegCntAsWritten(hw.s.burst)
    {
      hw.s.burst.sampleCnt
    }

    /** The `burst_seg_cnt` getter as intended: it reads the segment count. */
    function BurstSegCnt(): (b: int)
      reads hw
      ensures b == SegCnt(hw.s.burst)
    {
      hw.s.burst.segmentCnt
    }

    /** `burst_seg_cnt`: clamped, while controllable; reads back through the intended getter. */
    method SetBurstSegCnt(value: int)
      modifies hw`s
      ensures old(hw.controllable) ==>
        hw.s == old(hw.s).(burst := WithSegCnt(old(hw.s.burst),
          ClampInt(hw.lim.burstSegmentCntMin, hw.lim.burstSegmentCntMax, value)))
        && BurstSegCnt() == ClampInt(hw.lim.burstSegmentCntMin, hw.lim.burstSegmentCntMax, value)
        && BurstSampleCnt() == old(BurstSampleCnt())
      ensures !old(hw.controllable) ==> hw.s == old(hw.s)
    {
      if hw.controllable {
        var v := ClampInt(hw.lim.burstSegmentCntMin, hw.lim.burstSegmentCntMax, value);
        hw.s := hw.s.(burst := WithSegCnt(hw.s.burst, v));
        SegCntRoundTrip(old(hw.s.burst), v);
      }
    }
  }

  function WithSampleCnt(b: BurstCounts, v: int): (r: BurstCounts)
    ensures r.sampleCnt == v && r.segmentCnt == b.segmentCnt
  {
    b.(sampleCnt := v)
  }

  function WithSegCnt(b: BurstCounts, v: int): (r: BurstCounts)
    ensures r.segmentCnt == v && r.sampleCnt == b.sampleCnt
  {
    b.(segmentCnt := v)
  }

  /** The segment count as the getter reads it: the sample count. */
  function SegCntAsWritten(b: BurstCounts): int
  {
    b.sampleCnt
  }

  /** The segment count as the setter writes it. */
  function SegCnt(b: BurstCounts): int
  {
    b.segmentCnt
  }

  /** Writing a segment count and reading it back through the getter as written loses the value. */
  lemma SegCntAsWrittenLosesWrite()
    ensures SegCntAsWritten(WithSegCnt(BurstCounts(1, 1), 2)) != 2
  {
    var b := WithSegCnt(BurstCounts(1, 1), 2);
    assert b.sampleCnt == 1;
  }

  /** Reading the segment count back through the intended getter returns what was written. */
  lemma SegCntRoundTrip(b: BurstCounts, v: int)
    ensures SegCnt(WithSegCnt(b, v)) == v
    ensures SegCntAsWritten(WithSegCnt(b, v)) == SegCntAsWritten(b)
  {
  }

  class TiepieGen {
    const id: DeviceId
    const hw: Instrument
    const ch: seq<TiepieGenChannel>
    var running: bool

    function Chans(): set<object>
    {
      set i | 0 <= i < |ch| :: ch[i].chan
    }

    predicate SomeEnabled()
      reads Chans()
    {
      exists i :: 0 <= i < |ch| && ch[i].chan.enabled
    }

    /** One channel numbered 1 that shares the instrument; not generating. */
    constructor (name: string, serNo: string, instrument: Instrument)
      requires instrument.Valid()
      modifies instrument
      ensures id == DeviceId("Tiepie", name, serNo, "Gen") && hw == instrument
      ensures |ch| == 1 && ch[0].hw == hw && ch[0].chan.id == ChannelId("Channel", 1)
      ensures !ch[0].chan.enabled && ch[0].Valid() && !running
    {
      var c := new TiepieGenChannel(1, instrument);
      id := DeviceId("Tiepie", name, serNo, "Gen");
      hw := instrument;
      ch := [c];
      running := false;
    }

    predicate IsRunning()
      reads this
    {
      running
    }

    /** `start`: only while controllable, not running, and with an enabled channel. */
    method Start() returns (success: bool)
      modifies this`running, hw`generating
      ensures success <==> old(hw.controllable) && !old(running) && SomeEnabled()
      ensures running == (old(running) || success)
      ensures hw.generating == (old(hw.generating) || success)
    {
      success := false;
      if hw.controllable && !running {
        var allDisabled := true;
        var i := 0;
        while i < |ch|
          invariant 0 <= i <= |ch|
          invariant allDisabled && forall k :: 0 <= k < i ==> !ch[k].chan.enabled
        {
          if ch[i].chan.enabled {
            allDisabled := false;
            break;
          }
          i := i + 1;
        }
        if !allDisabled {
          hw.generating := true;
          running := true;
          success := true;
        }
      }
    }

    /** `stop`: only while controllable and running. */
    method Stop() returns (success: bool)
      modifies this`running, hw`generating
      ensures success <==> old(hw.controllable) && old(running)
      ensures running == (old(running) && !success)
      ensures hw.generating == (old(hw.generating) && !success)
    {
      success := false;
      if hw.controllable && running {
        hw.generating := false;
        running := false;
        success := true;
      }
    }

    /** `init_deletion`: closes the instrument and nothing else; generators have no deletion callbacks. */
    method InitDeletion()
      modifies hw`closed
      ensures hw.closed
    {
      hw.closed := true;
    }
  }
}
