/**
 * A Tektronix oscilloscope driven over VISA. Unlike the other hardware
 * oscilloscopes each channel delivers its own time vector with its signal;
 * the published time range is the last enabled channel's.
 */
module TektronixOsc {
  import opened Common
  import opened Device
  import opened Oscilloscope

  const TriggerModes: Assoc<string, string> := [("Edge", "EDGE"), ("Pulse", "PULSE")]

  const TriggerSlopes: Assoc<string, string> := [("Rising edge", "RISE"), ("Falling edge", "FALL")]

  const TriggerSources: Assoc<string, string> :=
    [("Channel 1", "CH1"), ("Channel 2", "CH2"), ("Line", "LINE"), ("Aux", "AUX")]

  const Couplings: Assoc<string, string> := [("AC", "AC"), ("DC", "DC")]

  /** The fixed largest record length the driver offers. */
  const RecLenMax: int := 20000

  /** No name occurs twice and no two names share a code, in every table. */
  lemma TablesInvertible()
    ensures UniqueKeys(TriggerModes) && Distinct(Values(TriggerModes))
    ensures UniqueKeys(TriggerSlopes) && Distinct(Values(TriggerSlopes))
    ensures UniqueKeys(TriggerSources) && Distinct(Values(TriggerSources))
    ensures UniqueKeys(Couplings) && Distinct(Values(Couplings))
  {
    TriggerModesInvertible();
    TriggerSlopesInvertible();
    TriggerSourcesInvertible();
    CouplingsInvertible();
  }

  lemma TriggerModesInvertible()
    ensures UniqueKeys(TriggerModes) && Distinct(Values(TriggerModes))
  {
    assert Keys(TriggerModes) == ["Edge", "Pulse"] && Values(TriggerModes) == ["EDGE", "PULSE"];
    TableInvertible(TriggerModes);
  }

  lemma TriggerSlopesInvertible()
    ensures UniqueKeys(TriggerSlopes) && Distinct(Values(TriggerSlopes))
  {
    assert Keys(TriggerSlopes) == ["Rising edge", "Falling edge"] && Values(TriggerSlopes) == ["RISE", "FALL"];
    TableInvertible(TriggerSlopes);
  }

  lemma CouplingsInvertible()
    ensures UniqueKeys(Couplings) && Distinct(Values(Couplings))
  {
    assert Keys(Couplings) == ["AC", "DC"] && Values(Couplings) == ["AC", "DC"];
    TableInvertible(Couplings);
  }

  lemma TriggerSourcesInvertible()
    ensures UniqueKeys(TriggerSources) && Distinct(Values(TriggerSources))
  {
    var names, codes := ["Channel 1", "Channel 2", "Line", "Aux"], ["CH1", "CH2", "LINE", "AUX"];
    assert AllDifferent(names) && AllDifferent(codes);
    assert Keys(TriggerSources) == names && Values(TriggerSources) == codes;
    TableInvertible(TriggerSources);
  }

  /**
   * Setting a listed name and reading it back through the inverted table
   * yields that name, for every table of the driver.
   */
  lemma TableRoundTrips(t: Assoc<string, string>, name: string)
    requires t in {TriggerModes, TriggerSlopes, TriggerSources, Couplings}
    requires Lookup(t, name).Some?
    ensures Lookup(Inverse(t), Lookup(t, name).value) == Some(name)
  {
    TablesInvertible();
    InverseRoundTrip(t, name);
  }

  /** What each channel delivers in one iteration: its own time vector and signal, when enabled. */
  function Delivered(enabled: seq<bool>, signals: seq<Sample>): (samples: seq<Option<Sample>>)
    requires |signals| == |enabled|
    ensures |samples| == |enabled|
    ensures forall i :: 0 <= i < |enabled| ==> samples[i] == if enabled[i] then Some(signals[i]) else None
  {
    seq(|enabled|, i requires 0 <= i < |enabled| => if enabled[i] then Some(signals[i]) else None)
  }

  class TektronixOscChannel {
    const chan: Channel
    /** The instrument's channel switch. */
    var hwEnabled: bool
    var attenuation: real
    var coupling: string

    /** A new channel is numbered `no`, disabled, with probe attenuation 1. */
    constructor (no: int, hwCoupling: string)
      ensures chan.id == ChannelId("Channel", no) && !chan.enabled
      ensures attenuation == 1.0 && coupling == hwCoupling
    {
      chan := new Channel("Channel", no);
      attenuation := 1.0;
      coupling := hwCoupling;
    }

    /** `is_enabled`: the instrument's switch and the local flag both follow the value. */
    method SetEnabled(value: bool)
      modifies this`hwEnabled, chan
      ensures chan.enabled == value && hwEnabled == value
    {
      if value {
        hwEnabled := true;
      } else {
        hwEnabled := false;
      }
      chan.enabled := value;
    }

    /** `probe_gain`: zero becomes 1, anything else is clamped into `[0.1, 10000]`. */
    method SetProbeGain(value: real)
      modifies this`attenuation
      ensures attenuation == ProbeGain(0.1, 10000.0, value)
      ensures 0.1 <= attenuation <= 10000.0
    {
      if value == 0.0 {
        attenuation := 1.0;
      } else {
        attenuation := Clamp(0.1, 10000.0, value);
      }
    }

    function Coupling(): Option<string>
      reads this
    {
      Lookup(Inverse(Couplings), coupling)
    }

    /** The `coupling` setter: a listed name sends its code and reads back as itself; any other name raises. */
    method SetCoupling(name: string) returns (ok: bool)
      modifies this`coupling
      ensures ok <==> Lookup(Couplings, name).Some?
      ensures ok ==> coupling == Lookup(Couplings, name).value && Coupling() == Some(name)
      ensures !ok ==> coupling == old(coupling)
    {
      var code := Lookup(Couplings, name);
      if code.None? {
        return false;
      }
      coupling := code.value;
      TableRoundTrips(Couplings, name);
      ok := true;
    }
  }

  class TektronixOsc {
    const id: DeviceId
    const store: SnapshotStore
    const ch: seq<TektronixOscChannel>
    /** The instrument's largest sample rate. */
    const sampleFreqMax: real
    var running: bool
    /** How often the stopped callback has been invoked with this device's id. */
    var stopNotices: nat
    /** The channel whose waveform the instrument transfers. */
    var dataSource: string
    var recLen: int
    var sampleFreq: real
    var trigType: string
    var trigSlope: string
    var trigSource: string

    function Chans(): set<object>
    {
      set i | 0 <= i < |ch| :: ch[i].chan
    }

    predicate SomeEnabled()
      reads Chans()
    {
      exists i :: 0 <= i < |ch| && ch[i].chan.enabled
    }

    function Enabled(): (e: seq<bool>)
      reads Chans()
      ensures |e| == |ch| && forall i :: 0 <= i < |ch| ==> e[i] == ch[i].chan.enabled
    {
      seq(|ch|, i requires 0 <= i < |ch| reads Chans() => ch[i].chan.enabled)
    }

    /** One channel per instrument channel, numbered from 1; stopped, transferring channel 1. */
    constructor (name: string, serNo: string, couplings: seq<string>, maxRate: real)
      ensures id == DeviceId("Tektronix", name, serNo, "Osc") && sampleFreqMax == maxRate
      ensures |ch| == |couplings| && forall i :: 0 <= i < |ch| ==>
        ch[i].chan.id == ChannelId("Channel", i + 1) && !ch[i].chan.enabled
      ensures !running && stopNotices == 0 && dataSource == "CH1"
      ensures store.snap == InitialSnapshot() && !store.newData
    {
      var cs: seq<TektronixOscChannel> := [];
      for i := 0 to |couplings|
        invariant |cs| == i
        invariant forall k :: 0 <= k < i ==> cs[k].chan.id == ChannelId("Channel", k + 1) && !cs[k].chan.enabled
      {
        var c := new TektronixOscChannel(i + 1, couplings[i]);
        cs := cs + [c];
      }
      id := DeviceId("Tektronix", name, serNo, "Osc");
      ch := cs;
      sampleFreqMax := maxRate;
      running := false;
      stopNotices := 0;
      dataSource := "CH1";
      store := new SnapshotStore();
    }

    /** `start`: only when stopped and some channel is enabled. */
    method Start() returns (success: bool)
      modifies this`running
      ensures success <==> !old(running) && SomeEnabled()
      ensures running == (old(running) || success)
    {
      success := false;
      if !running {
        var allDisabled := true;
        var i := 0;
        while i < |ch|
          invariant 0 <= i <= |ch|
          invariant allDisabled && forall k :: 0 <= k < i ==> !ch[k].chan.enabled
        {
          if ch[i].chan.enabled {
            allDisabled := false;
            break;
          }
          i := i + 1;
        }
        if !allDisabled {
          running := true;
          success := true;
        }
      }
    }

    /** `stop`: only when running. */
    method Stop() returns (success: bool)
      modifies this`running
      ensures success == old(running) && !running
    {
      success := false;
      if running {
        running := false;
        success := true;
      }
    }

    /**
     * One iteration of the acquisition thread, given each channel's own
     * time vector and signal. While running, every enabled channel pairs
     * as many time points with samples as both have; the snapshot's time
     * range is the last enabled channel's; nothing is published when a
     * channel raises or none is enabled. While stopped, the stopped
     * callback is invoked.
     */
    method Step(signals: seq<Sample>) returns (outcome: StepOutcome)
      requires |signals| == |ch|
      modifies this`stopNotices, store
      ensures old(running) ==>
        var acq := Acquisition(Delivered(Enabled(), signals), false);
        stopNotices == old(stopNotices)
        && outcome == (if acq == NoChannel then Skipped else if acq == Raised then Faulted else Published)
        && (outcome == Published ==> store.snap == acq.snap && store.newData)
      ensures !old(running) ==> outcome == Stopped && stopNotices == old(stopNotices) + 1
      ensures outcome != Published ==> store.snap == old(store.snap) && store.newData == old(store.newData)
    {
      if running {
        var samples := Delivered(Enabled(), signals);
        outcome := AcquireAndPublish(store, samples, false);
        assert samples == Delivered(Enabled(), signals);
      } else {
        stopNotices := stopNotices + 1;
        outcome := Stopped;
      }
    }

    /** `rec_len`: clamped into `[1, 20000]`. */
    method SetRecLen(value: int)
      modifies this`recLen
      ensures recLen == ClampInt(1, RecLenMax, value)
      ensures 1 <= recLen <= RecLenMax
    {
      var v := if value > 1 then value else 1;
      recLen := if v < RecLenMax then v else RecLenMax;
    }

    /** `sample_freq`: clamped into `[1, sampleFreqMax]`. */
    method SetSampleFreq(value: real)
      modifies this`sampleFreq
      ensures sampleFreq == Clamp(1.0, sampleFreqMax, value)
    {
      var v := if value > 1.0 then value else 1.0;
      sampleFreq := if v < sampleFreqMax then v else sampleFreqMax;
    }

    function TrigMode(): Option<string>
      reads this
    {
      Lookup(Inverse(TriggerModes), trigType)
    }

    function TrigSlope(): Option<string>
      reads this
    {
      Lookup(Inverse(TriggerSlopes), trigSlope)
    }

    function TriggerSource(): Option<string>
      reads this
    {
      Lookup(Inverse(TriggerSources), trigSource)
    }

    /** `trig_mode`: a listed name sends its code and reads back as itself; any other name raises. */
    method SetTrigMode(name: string) returns (ok: bool)
      modifies this`trigType
      ensures ok <==> Lookup(TriggerModes, name).Some?
      ensures ok ==> trigType == Lookup(TriggerModes, name).value && TrigMode() == Some(name)
      ensures !ok ==> trigType == old(trigType)
    {
      var code := Lookup(TriggerModes, name);
      if code.None? {
        return false;
      }
      trigType := code.value;
      TableRoundTrips(TriggerModes, name);
      ok := true;
    }

    /** `trig_slope`: a listed name sends its code and reads back as itself; any other name raises. */
    method SetTrigSlope(name: string) returns (ok: bool)
      modifies this`trigSlope
      ensures ok <==> Lookup(TriggerSlopes, name).Some?
      ensures ok ==> trigSlope == Lookup(TriggerSlopes, name).value && TrigSlope() == Some(name)
      ensures !ok ==> trigSlope == old(trigSlope)
    {
      var code := Lookup(TriggerSlopes, name);
      if code.None? {
        return false;
      }
      trigSlope := code.value;
      TableRoundTrips(TriggerSlopes, name);
      ok := true;
    }

    /** `trigger_source`: a listed name sends its code and reads back as itself; any other name raises. */
    method SetTriggerSource(name: string) returns (ok: bool)
      modifies this`trigSource
      ensures ok <==> Lookup(TriggerSources, name).Some?
      ensures ok ==> trigSource == Lookup(TriggerSources, name).value && TriggerSource() == Some(name)
      ensures !ok ==> trigSource == old(trigSource)
    {
      var code := Lookup(TriggerSources, name);
      if code.None? {
        return false;
      }
      trigSource := code.value;
      TableRoundTrips(TriggerSources, name);
      ok := true;
    }
  }
}
