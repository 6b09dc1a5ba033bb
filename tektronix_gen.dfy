/**
 * A Tektronix arbitrary function generator driven over VISA. It always
 * counts as running; each channel's arbitrary waveform is uploaded as
 * 14-bit codes, and the preview reads those codes back and scales them to
 * the channel's voltage window.
 */
module TektronixGen {
  import opened Common
  import opened Device
  import opened Generator

  /** The largest 14-bit code. */
  const CodeMax: int := 16383

  /** The largest number of samples one upload takes. */
  const ArbLenMax: nat := 8192

  // ---------------------------------------------------------------------
  // Locating the instrument

  /** The outcome of searching the connected resources for a serial number. */
  datatype ResourceLookup = Resource(name: string) | NoResource | FieldMissing

  /** The fourth `::`-separated field of a VISA resource string, if it has one. */
  function SerialField(resource: string): (f: Option<string>)
  {
    var parts := Split(resource, "::");
    if |parts| > 3 then Some(parts[3]) else None
  }

  /** A resource that has a fourth field and it differs from `serNo`. */
  predicate OtherSerial(resource: string, serNo: string)
  {
    SerialField(resource).Some? && SerialField(resource).value != serNo
  }

  /**
   * `_get_resource_from_ser_no`: the first resource whose fourth field is
   * the serial number. A resource with fewer than four fields met before
   * any match raises.
   */
  function ResourceFromSerNo(resources: seq<string>, serNo: string): (r: ResourceLookup)
    ensures r.Resource? ==> r.name in resources
  {
    if resources == [] then NoResource
    else
      var f := SerialField(resources[0]);
      if f.None? then FieldMissing
      else if f.value == serNo then Resource(resources[0])
      else ResourceFromSerNo(resources[1..], serNo)
  }

  /**
   * The lookup finds the first resource carrying the serial number, reports
   * none exactly when every resource carries another one, and raises only
   * at a resource without a fourth field that comes before any match.
   */
  lemma ResourceFromSerNoSpec(resources: seq<string>, serNo: string)
    ensures var r := ResourceFromSerNo(resources, serNo);
      && (r.Resource? ==>
            exists k :: 0 <= k < |resources| && resources[k] == r.name
              && SerialField(resources[k]) == Some(serNo)
              && forall j :: 0 <= j < k ==> OtherSerial(resources[j], serNo))
      && (r == NoResource <==> forall k :: 0 <= k < |resources| ==> OtherSerial(resources[k], serNo))
      && (r == FieldMissing ==>
            exists k :: 0 <= k < |resources| && SerialField(resources[k]).None?
              && forall j :: 0 <= j < k ==> OtherSerial(resources[j], serNo))
  {
    ResourceFound(resources, serNo);
    ResourceNone(resources, serNo);
    ResourceMissing(resources, serNo);
  }

  lemma {:induction false} ResourceFound(resources: seq<string>, serNo: string)
    ensures var r := ResourceFromSerNo(resources, serNo);
      r.Resource? ==>
        exists k :: 0 <= k < |resources| && resources[k] == r.name
          && SerialField(resources[k]) == Some(serNo)
          && forall j :: 0 <= j < k ==> OtherSerial(resources[j], serNo)
  {
    if resources != [] && OtherSerial(resources[0], serNo) {
      var rest := resources[1..];
      ResourceFound(rest, serNo);
      var r := ResourceFromSerNo(rest, serNo);
      if r.Resource? {
        var k :| 0 <= k < |rest| && rest[k] == r.name && SerialField(rest[k]) == Some(serNo)
          && forall j :: 0 <= j < k ==> OtherSerial(rest[j], serNo);
        assert resources[k + 1] == rest[k];
        forall j | 0 <= j < k + 1 ensures OtherSerial(resources[j], serNo) {
          if j > 0 { assert resources[j] == rest[j - 1]; }
        }
      }
    }
  }

  lemma {:induction false} ResourceNone(resources: seq<string>, serNo: string)
    ensures ResourceFromSerNo(resources, serNo) == NoResource
      <==> forall k :: 0 <= k < |resources| ==> OtherSerial(resources[k], serNo)
  {
    if resources != [] && OtherSerial(resources[0], serNo) {
      var rest := resources[1..];
      ResourceNone(rest, serNo);
      assert forall k :: 1 <= k < |resources| ==> resources[k] == rest[k - 1];
    }
  }

  lemma {:induction false} ResourceMissing(resources: seq<string>, serNo: string)
    ensures ResourceFromSerNo(resources, serNo) == FieldMissing ==>
      exists k :: 0 <= k < |resources| && SerialField(resources[k]).None?
        && forall j :: 0 <= j < k ==> OtherSerial(resources[j], serNo)
  {
    if resources != [] && OtherSerial(resources[0], serNo) {
      var rest := resources[1..];
      ResourceMissing(rest, serNo);
      if ResourceFromSerNo(rest, serNo) == FieldMissing {
        var k :| 0 <= k < |rest| && SerialField(rest[k]).None?
          && forall j :: 0 <= j < k ==> OtherSerial(rest[j], serNo);
        assert resources[k + 1] == rest[k];
        forall j | 0 <= j < k + 1 ensures OtherSerial(resources[j], serNo) {
          if j > 0 { assert resources[j] == rest[j - 1]; }
        }
      }
    }
  }

  // ---------------------------------------------------------------------
  // Quantising arbitrary waveforms

  /** One sample's 14-bit code: its distance from the minimum over the range, scaled and truncated. */
  function Code(x: real, lo: real, hi: real): int
    requires lo != hi
  {
    (CodeMax as real * Abs(x - lo) / Abs(hi - lo)).Floor
  }

  /** A quotient of a non-negative number by a larger positive one lies in `[0, 1]`. */
  lemma UnitQuotient(a: real, b: real)
    requires 0.0 <= a <= b && b > 0.0
    ensures 0.0 <= a / b <= 1.0
  {
    var q := a / b;
    assert q * b == a;
  }

  /** Dividing by a positive number keeps the order. */
  lemma QuotientMonotone(a: real, c: real, b: real)
    requires a <= c && b > 0.0
    ensures a / b <= c / b
  {
    var qa, qc := a / b, c / b;
    assert qa * b == a && qc * b == c;
  }

  /** A sample within the range gets a code in `[0, 16383]`: the minimum 0 and the maximum 16383. */
  lemma CodeBounds(x: real, lo: real, hi: real)
    requires lo < hi && lo <= x <= hi
    ensures 0 <= Code(x, lo, hi) <= CodeMax
    ensures x == lo ==> Code(x, lo, hi) == 0
    ensures x == hi ==> Code(x, lo, hi) == CodeMax
  {
    var q := (x - lo) / (hi - lo);
    UnitQuotient(x - lo, hi - lo);
    assert CodeMax as real * Abs(x - lo) / Abs(hi - lo) == CodeMax as real * q;
    assert 0.0 <= CodeMax as real * q <= CodeMax as real;
    if x == hi {
      assert q == 1.0;
    }
  }

  /** Among samples at or above the minimum, a larger sample never gets a smaller code. */
  lemma CodeMonotone(x: real, y: real, lo: real, hi: real)
    requires lo < hi && lo <= x <= y
    ensures Code(x, lo, hi) <= Code(y, lo, hi)
  {
    var qx, qy := (x - lo) / (hi - lo), (y - lo) / (hi - lo);
    QuotientMonotone(x - lo, y - lo, hi - lo);
    assert CodeMax as real * Abs(x - lo) / Abs(hi - lo) == CodeMax as real * qx;
    assert CodeMax as real * Abs(y - lo) / Abs(hi - lo) == CodeMax as real * qy;
    assert CodeMax as real * qx <= CodeMax as real * qy;
  }

  /** The samples one upload takes. */
  function Truncated(values: seq<real>): (v: seq<real>)
    ensures |v| == MinNat(|values|, ArbLenMax) && v == values[..|v|]
  {
    values[..MinNat(|values|, ArbLenMax)]
  }

  /**
   * The codes `arb_data` computes as written: when all samples are equal
   * the range is zero, numpy divides zero by zero and the integer cast of
   * the result is undefined, so no codes are defined (`None`).
   */
  function QuantizeAsWritten(values: seq<real>): (codes: Option<seq<int>>)
    requires values != []
  {
    var v := Truncated(values);
    var lo, hi := SeqMin(v), SeqMax(v);
    if lo == hi then None else Some(seq(|v|, i requires 0 <= i < |v| => Code(v[i], lo, hi)))
  }

  /** Two equal samples pass the length check, yet their codes are undefined. */
  lemma FlatSignalHasNoCodes()
    ensures |[0.5, 0.5]| >= 2 && QuantizeAsWritten([0.5, 0.5]).None?
  {
    var v := Truncated([0.5, 0.5]);
    assert v == [0.5, 0.5];
    assert SeqMin(v) == 0.5 && SeqMax(v) == 0.5;
  }

  /** The codes uploaded for a waveform; a flat waveform uploads code 0 throughout. */
  function Quantize(values: seq<real>): (codes: seq<int>)
    requires values != []
    ensures |codes| == MinNat(|values|, ArbLenMax)
  {
    var v := Truncated(values);
    var lo, hi := SeqMin(v), SeqMax(v);
    if lo == hi then seq(|v|, i requires 0 <= i < |v| => 0)
    else seq(|v|, i requires 0 <= i < |v| => Code(v[i], lo, hi))
  }

  /** Apart from a flat waveform, the intended codes are the written ones. */
  lemma QuantizeAgreesAsWritten(values: seq<real>)
    requires values != [] && QuantizeAsWritten(values).Some?
    ensures QuantizeAsWritten(values).value == Quantize(values)
  {
  }

  /** Every code lies in `[0, 16383]`. */
  lemma QuantizeBounds(values: seq<real>, i: int)
    requires values != [] && 0 <= i < |Quantize(values)|
    ensures 0 <= Quantize(values)[i] <= CodeMax
  {
    var v := Truncated(values);
    var lo, hi := SeqMin(v), SeqMax(v);
    if lo != hi {
      assert lo <= v[i] <= hi;
      CodeBounds(v[i], lo, hi);
    }
  }

  /** Codes keep the order of the samples. */
  lemma QuantizeMonotone(values: seq<real>, i: int, j: int)
    requires values != [] && 0 <= i < |Quantize(values)| && 0 <= j < |Quantize(values)|
    requires values[i] <= values[j]
    ensures Quantize(values)[i] <= Quantize(values)[j]
  {
    var v := Truncated(values);
    var lo, hi := SeqMin(v), SeqMax(v);
    if lo != hi {
      assert lo <= v[i] && v[j] <= hi;
      CodeMonotone(v[i], v[j], lo, hi);
    }
  }

  /** Unless the waveform is flat, its smallest sample gets code 0 and its largest code 16383. */
  lemma QuantizeEnds(values: seq<real>)
    requires values != []
    requires SeqMin(Truncated(values)) != SeqMax(Truncated(values))
    ensures exists i :: 0 <= i < |Quantize(values)| && Quantize(values)[i] == 0
    ensures exists j :: 0 <= j < |Quantize(values)| && Quantize(values)[j] == CodeMax
  {
    var v := Truncated(values);
    var lo, hi := SeqMin(v), SeqMax(v);
    var i :| 0 <= i < |v| && v[i] == lo;
    var j :| 0 <= j < |v| && v[j] == hi;
    CodeBounds(v[i], lo, hi);
    CodeBounds(v[j], lo, hi);
    assert Quantize(values)[i] == 0;
    assert Quantize(values)[j] == CodeMax;
  }

  // ---------------------------------------------------------------------
  // The preview

  /** The preview's name for an instrument signal type: 'memory' plus one character is arbitrary data. */
  function PreviewType(sigType: string): (t: string)
    ensures sigType in {"sine", "ramp", "square", "pulse"} ==> t == sigType
    ensures t == "arbitrary" <==> |sigType| == 7 && sigType[..6] == "memory"
    ensures t == "unknown" <==> sigType !in {"sine", "ramp", "square", "pulse"} && !(|sigType| == 7 && sigType[..6] == "memory")
  {
    if sigType == "sine" then "sine"
    else if sigType == "ramp" then "ramp"
    else if sigType == "square" then "square"
    else if sigType == "pulse" then "pulse"
    else if |sigType| > 0 && sigType[..|sigType| - 1] == "memory" then "arbitrary"
    else "unknown"
  }

  /** The codes read back from the instrument, scaled to the window from offset minus to offset plus amplitude. */
  function Denormalized(codes: seq<int>, amp: real, offset: real): (v: seq<real>)
    ensures |v| == |codes|
  {
    var factor := ((offset + amp) - (offset - amp)) / CodeMax as real;
    seq(|codes|, i requires 0 <= i < |codes| => Scaled(codes[i] as real, factor, offset - amp))
  }

  /** Code 0 shows as offset minus amplitude, 16383 as offset plus amplitude, and every valid code in between. */
  lemma DenormalizedWindow(codes: seq<int>, amp: real, offset: real, i: int)
    requires 0 <= i < |codes| && 0 <= codes[i] <= CodeMax
    ensures codes[i] == 0 ==> Denormalized(codes, amp, offset)[i] == offset - amp
    ensures codes[i] == CodeMax ==> Denormalized(codes, amp, offset)[i] == offset + amp
    ensures amp >= 0.0 ==> offset - amp <= Denormalized(codes, amp, offset)[i] <= offset + amp
  {
    var factor := ((offset + amp) - (offset - amp)) / CodeMax as real;
    assert Denormalized(codes, amp, offset)[i] == Scaled(codes[i] as real, factor, offset - amp);
    WindowPoint(codes[i], amp, offset);
  }

  lemma WindowPoint(c: int, amp: real, offset: real)
    requires 0 <= c <= CodeMax
    ensures var f := ((offset + amp) - (offset - amp)) / CodeMax as real;
      && (c == 0 ==> Scaled(c as real, f, offset - amp) == offset - amp)
      && (c == CodeMax ==> Scaled(c as real, f, offset - amp) == offset + amp)
      && (amp >= 0.0 ==> offset - amp <= Scaled(c as real, f, offset - amp) <= offset + amp)
  {
    var f := 2.0 * amp / CodeMax as real;
    assert ((offset + amp) - (offset - amp)) / CodeMax as real == f;
    assert f * CodeMax as real == 2.0 * amp;
    if amp >= 0.0 {
      assert 0.0 <= c as real * f <= CodeMax as real * f;
    }
  }

  /**
   * After an upload of a waveform that is not flat, the preview shows its
   * smallest sample at offset minus amplitude and its largest at offset
   * plus amplitude.
   */
  lemma UploadPreviewSpansWindow(values: seq<real>, amp: real, offset: real)
    requires values != []
    requires SeqMin(Truncated(values)) != SeqMax(Truncated(values))
    ensures exists i :: 0 <= i < |Quantize(values)| && Denormalized(Quantize(values), amp, offset)[i] == offset - amp
    ensures exists j :: 0 <= j < |Quantize(values)| && Denormalized(Quantize(values), amp, offset)[j] == offset + amp
  {
    var codes := Quantize(values);
    QuantizeEnds(values);
    var i :| 0 <= i < |codes| && codes[i] == 0;
    var j :| 0 <= j < |codes| && codes[j] == CodeMax;
    DenormalizedWindow(codes, amp, offset, i);
    DenormalizedWindow(codes, amp, offset, j);
  }

  /** A channel's settings on the instrument, with its phase in degrees. */
  datatype ChSettings = ChSettings(
    sigType: string,
    amplitude: real,
    offset: real,
    period: real,
    phase: real,
    pulseDuty: real,
    emom: seq<int>,
    burstOn: bool,
    burstMode: string,
    burstCycles: int)

  /** The signal types offered: the library's list for the two known models, otherwise '-'. */
  function SigTypesAvail(model: string, afg1022: seq<string>, afg31000: seq<string>): (l: seq<string>)
    ensures model == "AFG1022" ==> l == afg1022
    ensures model == "AFG31052" ==> l == afg31000
    ensures model !in {"AFG1022", "AFG31052"} ==> l == ["-"]
  {
    if model == "AFG1022" then afg1022 else if model == "AFG31052" then afg31000 else ["-"]
  }

  class TektronixGenChannel {
    const chan: Channel
    const no: int
    /** Whether this channel of this model offers burst settings at all. */
    const burstSupported: bool
    const sigTypesAvail: seq<string>
    var outOn: bool
    var s: ChSettings
    var preview: PreviewVars

    /**
     * The preview variables `_update_preview_variables` derives from the
     * instrument: half the peak-to-peak amplitude, the duty cycle as a
     * fraction, a fixed symmetry of 0.5, and the uploaded codes scaled to
     * the voltage window over one period.
     */
    function Refresh(): (p: PreviewVars)
      reads this
      ensures p.signalType == PreviewType(s.sigType)
      ensures p.amplitude * 2.0 == s.amplitude && p.dutyCycle * 100.0 == s.pulseDuty && p.symmetry == 0.5
      ensures |p.arbTime| == |p.arbVolt| == |s.emom|
    {
      var amp := s.amplitude / 2.0;
      var volt := Denormalized(s.emom, amp, s.offset);
      var n := |volt|;
      var time := ArbTime(n, if n > 0 then s.period / n as real else 0.0);
      PreviewVars(PreviewType(s.sigType), amp, s.offset, s.period, s.phase, 0.5, s.pulseDuty * 0.01, time, volt)
    }

    constructor (chNo: int, model: string, afg1022: seq<string>, afg31000: seq<string>, burst: bool, settings: ChSettings)
      ensures chan.id == ChannelId("Channel", chNo) && !chan.enabled && no == chNo
      ensures burstSupported == burst && s == settings
      ensures sigTypesAvail == SigTypesAvail(model, afg1022, afg31000)
      ensures preview == Refresh()
    {
      chan := new Channel("Channel", chNo);
      no := chNo;
      burstSupported := burst;
      sigTypesAvail := SigTypesAvail(model, afg1022, afg31000);
      s := settings;
      new;
      UpdatePreview();
    }

    /** `_update_preview_variables`, whose time vector is built point by point. */
    method UpdatePreview()
      modifies this`preview
      ensures preview == Refresh()
    {
      var amp := s.amplitude / 2.0;
      var volt := Denormalized(s.emom, amp, s.offset);
      var n := |volt|;
      var time := ArbTimeVector(n, if n > 0 then s.period / n as real else 0.0);
      preview := PreviewVars(PreviewType(s.sigType), amp, s.offset, s.period, s.phase, 0.5, s.pulseDuty * 0.01, time, volt);
    }

    /** `is_enabled`: the output and the local flag follow the value. */
    method SetEnabled(value: bool)
      modifies this`outOn, chan
      ensures outOn == value && chan.enabled == value
    {
      outOn := value;
      chan.enabled := value;
    }

    /**
     * `arb_data`: fewer than two samples are refused; otherwise at most 8192
     * are quantised to 14-bit codes, uploaded and previewed.
     */
    method SetArbData(value: seq<real>) returns (ok: bool)
      modifies this`s, this`preview
      ensures ok <==> |value| >= 2
      ensures ok ==> s == old(s).(emom := Quantize(value)) && preview == Refresh()
      ensures !ok ==> s == old(s) && preview == old(preview)
    {
      ok := false;
      if |value| >= 2 {
        s := s.(emom := Quantize(value));
        UpdatePreview();
        ok := true;
      }
    }

    /** `offset`: written, then previewed. */
    method SetOffset(value: real)
      modifies this`s, this`preview
      ensures s == old(s).(offset := value) && preview == Refresh() && preview.offset == value
    {
      s := s.(offset := value);
      UpdatePreview();
    }

    /** `amp`: the peak-to-peak amplitude is written; the preview shows half of it. */
    method SetAmp(value: real)
      modifies this`s, this`preview
      ensures s == old(s).(amplitude := value) && preview == Refresh() && preview.amplitude * 2.0 == value
    {
      s := s.(amplitude := value);
      UpdatePreview();
    }

    /** `sig_type`: written, then previewed. */
    method SetSigType(value: string)
      modifies this`s, this`preview
      ensures s == old(s).(sigType := value) && preview == Refresh() && preview.signalType == PreviewType(value)
    {
      s := s.(sigType := value);
      UpdatePreview();
    }

    /** `phase`: written in degrees, then previewed. */
    method SetPhase(value: real)
      modifies this`s, this`preview
      ensures s == old(s).(phase := value) && preview == Refresh() && preview.phase == value
    {
      s := s.(phase := value);
      UpdatePreview();
    }

    /** `period`: written, then previewed. */
    method SetPeriod(value: real)
      modifies this`s, this`preview
      ensures s == old(s).(period := value) && preview == Refresh() && preview.period == value
    {
      s := s.(period := value);
      UpdatePreview();
    }

    /** The `duty_cycle` getter: the instrument's percentage as a fraction. */
    function DutyCycle(): (d: real)
      reads this
      ensures d * 100.0 == s.pulseDuty
    {
      s.pulseDuty * 0.01
    }

    /** `duty_cycle`: the fraction is written as a percentage and reads back unchanged. */
    method SetDutyCycle(value: real)
      modifies this`s, this`preview
      ensures s == old(s).(pulseDuty := value * 100.0) && preview == Refresh()
      ensures DutyCycle() == value && preview.dutyCycle == value
    {
      s := s.(pulseDuty := value * 100.0);
      UpdatePreview();
    }

    /** The `is_burst_on` getter: false where bursts are not offered. */
    function BurstOn(): (b: bool)
      reads this
      ensures b <==> burstSupported && s.burstOn
    {
      burstSupported && s.burstOn
    }

    /** The `burst_mode` getter: '-' (here `None`) where bursts are not offered. */
    function BurstMode(): (m: Option<string>)
      reads this
      ensures m.Some? <==> burstSupported
      ensures m.Some? ==> m.value == s.burstMode
    {
      if burstSupported then Some(s.burstMode) else None
    }

    /** The `burst_cnt` getter: '-' (here `None`) where bursts are not offered. */
    function BurstCnt(): (c: Option<int>)
      reads this
      ensures c.Some? <==> burstSupported
      ensures c.Some? ==> c.value == s.burstCycles
    {
      if burstSupported then Some(s.burstCycles) else None
    }

    /** `is_burst_on`: ignored where bursts are not offered. */
    method SetBurstOn(value: bool)
      modifies this`s
      ensures burstSupported ==> s == old(s).(burstOn := value) && BurstOn() == value
      ensures !burstSupported ==> s == old(s)
    {
      if burstSupported {
        s := s.(burstOn := value);
      }
    }

    /** `burst_mode`: ignored where bursts are not offered. */
    method SetBurstMode(value: string)
      modifies this`s
      ensures burstSupported ==> s == old(s).(burstMode := value) && BurstMode() == Some(value)
      ensures !burstSupported ==> s == old(s)
    {
      if burstSupported {
        s := s.(burstMode := value);
      }
    }

    /** `burst_cnt`: ignored where bursts are not offered. */
    method SetBurstCnt(value: int)
      modifies this`s
      ensures burstSupported ==> s == old(s).(burstCycles := value) && BurstCnt() == Some(value)
      ensures !burstSupported ==> s == old(s)
    {
      if burstSupported {
        s := s.(burstCycles := value);
      }
    }
  }

  class TektronixGen {
    const id: DeviceId
    /** The VISA resource the instrument was opened with, `None` when no resource carries the serial number. */
    const resource: Option<string>
    const ch: seq<TektronixGenChannel>
    var closed: bool

    /** Looks up the resource by serial number and creates one channel per instrument channel, numbered from 1. */
    constructor (name: string, serNo: string, resources: seq<string>, model: string,
                 afg1022: seq<string>, afg31000: seq<string>, burst: seq<bool>, settings: seq<ChSettings>)
      requires ResourceFromSerNo(resources, serNo) != FieldMissing
      requires |burst| == |settings|
      ensures id == DeviceId("Tektronix", name, serNo, "Gen") && !closed
      ensures resource == match ResourceFromSerNo(resources, serNo)
        case Resource(r) => Some(r)
        case _ => None
      ensures |ch| == |settings| && forall i :: 0 <= i < |ch| ==>
        ch[i].chan.id == ChannelId("Channel", i + 1) && ch[i].s == settings[i] && ch[i].preview == ch[i].Refresh()
    {
      var cs: seq<TektronixGenChannel> := [];
      for i := 0 to |settings|
        invariant |cs| == i
        invariant forall k :: 0 <= k < i ==>
          cs[k].chan.id == ChannelId("Channel", k + 1) && cs[k].s == settings[k] && cs[k].preview == cs[k].Refresh()
      {
        var c := new TektronixGenChannel(i + 1, model, afg1022, afg31000, burst[i], settings[i]);
        cs := cs + [c];
      }
      id := DeviceId("Tektronix", name, serNo, "Gen");
      var found := ResourceFromSerNo(resources, serNo);
      resource := if found.Resource? then Some(found.name) else None;
      ch := cs;
      closed := false;
    }

    /** `is_running`: the instrument always counts as running. */
    predicate IsRunning()
    {
      true
    }

    /** `start` never succeeds. */
    method Start() returns (success: bool)
      ensures !success && IsRunning()
    {
      success := false;
    }

    /** `stop` never succeeds. */
    method Stop() returns (success: bool)
      ensures !success && IsRunning()
    {
      success := false;
    }

    /** `init_deletion`: closes the instrument and nothing else; generators have no deletion callbacks. */
    method InitDeletion()
      modifies this`closed
      ensures closed
    {
      closed := true;
    }
  }
}
