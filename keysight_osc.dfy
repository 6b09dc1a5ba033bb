/**
 * A Keysight oscilloscope driven over VISA. The driver keeps its own running
 * flag; trigger settings travel as instrument codes that the driver
 * translates from and back to display names through fixed tables.
 */
module KeysightOsc {
  import opened Common
  import opened Device
  import opened Oscilloscope

  /** Trigger mode names and their instrument codes ("SBUS1" is left out). */
  const TriggerModes: Assoc<string, string> :=
    [("Edge", "EDGE"), ("Glitch", "GLIT"), ("Pattern", "PATT"), ("Shold", "SHOL"),
     ("Transition", "TRAN"), ("TV", "TV")]

  const TriggerSweeps: Assoc<string, string> := [("Auto", "AUTO"), ("Normal", "NORM")]

  const TriggerSlopes: Assoc<string, string> :=
    [("Negative", "NEG"), ("Positive", "POS"), ("Either", "EITH"), ("Alternate", "ALT")]

  const Couplings: Assoc<string, string> := [("AC", "AC"), ("DC", "DC")]

  /** The waveform points modes offered as measure modes. */
  const MeasureModes: seq<string> := ["NORM", "MAX", "RAW"]

  /** No name occurs twice and no two names share a code, in every table. */
  lemma TablesInvertible()
    ensures UniqueKeys(TriggerModes) && Distinct(Values(TriggerModes))
    ensures UniqueKeys(TriggerSweeps) && Distinct(Values(TriggerSweeps))
    ensures UniqueKeys(TriggerSlopes) && Distinct(Values(TriggerSlopes))
    ensures UniqueKeys(Couplings) && Distinct(Values(Couplings))
  {
    TriggerModesInvertible();
    TriggerSweepsInvertible();
    TriggerSlopesInvertible();
    CouplingsInvertible();
  }

  lemma TriggerModesInvertible()
    ensures UniqueKeys(TriggerModes) && Distinct(Values(TriggerModes))
  {
    TriggerModeNamesDiffer();
    TriggerModeCodesDiffer();
    TableInvertible(TriggerModes);
  }

  lemma TriggerModeNamesDiffer()
    ensures AllDifferent(Keys(TriggerModes))
  {
    var names := ["Edge", "Glitch", "Pattern", "Shold", "Transition", "TV"];
    assert AllDifferent(names[4..]);
    assert AllDifferent(names[3..]);
    assert AllDifferent(names[2..]);
    assert AllDifferent(names[1..]);
    assert AllDifferent(names);
    assert Keys(TriggerModes) == names;
  }

  lemma TriggerModeCodesDiffer()
    ensures AllDifferent(Values(TriggerModes))
  {
    var codes := ["EDGE", "GLIT", "PATT", "SHOL", "TRAN", "TV"];
    assert AllDifferent(codes[4..]);
    assert AllDifferent(codes[3..]);
    assert AllDifferent(codes[2..]);
    assert AllDifferent(codes[1..]);
    assert AllDifferent(codes);
    assert Values(TriggerModes) == codes;
  }

  lemma TriggerSweepsInvertible()
    ensures UniqueKeys(TriggerSweeps) && Distinct(Values(TriggerSweeps))
  {
    var names, codes := ["Auto", "Normal"], ["AUTO", "NORM"];
    assert Keys(TriggerSweeps) == names && AllDifferent(names);
    assert Values(TriggerSweeps) == codes && AllDifferent(codes);
    TableInvertible(TriggerSweeps);
  }

  lemma TriggerSlopesInvertible()
    ensures UniqueKeys(TriggerSlopes) && Distinct(Values(TriggerSlopes))
  {
    var names, codes := ["Negative", "Positive", "Either", "Alternate"], ["NEG", "POS", "EITH", "ALT"];
    assert Keys(TriggerSlopes) == names && AllDifferent(names);
    assert Values(TriggerSlopes) == codes && AllDifferent(codes);
    TableInvertible(TriggerSlopes);
  }

  lemma CouplingsInvertible()
    ensures UniqueKeys(Couplings) && Distinct(Values(Couplings))
  {
    var names, codes := ["AC", "DC"], ["AC", "DC"];
    assert Keys(Couplings) == names && AllDifferent(names);
    assert Values(Couplings) == codes && AllDifferent(codes);
    TableInvertible(Couplings);
  }

  /**
   * The trigger setters send the code of a listed name and raise on any
   * other name; the getters read a code back through the inverted table.
   * Setting a listed name and reading it back yields that name, and a code
   * outside the table makes the getter raise.
   */
  lemma TableRoundTrips(t: Assoc<string, string>, name: string)
    requires t in {TriggerModes, TriggerSweeps, TriggerSlopes, Couplings}
    requires Lookup(t, name).Some?
    ensures Lookup(Inverse(t), Lookup(t, name).value) == Some(name)
  {
    TablesInvertible();
    InverseRoundTrip(t, name);
  }

  class KeysightOscChannel {
    const chan: Channel
    /** The instrument's display switch: 1 shows and acquires the channel, 0 hides it. */
    var display: int
    var attenuation: real
    /** The instrument's coupling code. */
    var coupling: string

    /** A new channel is numbered `no`, disabled, with probe attenuation 1. */
    constructor (no: int, hwCoupling: string)
      ensures chan.id == ChannelId("Channel", no) && !chan.enabled
      ensures attenuation == 1.0 && coupling == hwCoupling
    {
      chan := new Channel("Channel", no);
      attenuation := 1.0;
      coupling := hwCoupling;
    }

    /** `is_enabled`: True shows the channel (display 1), False hides it (display 0). */
    method SetEnabled(value: bool)
      modifies this`display, chan
      ensures chan.enabled == value
      ensures display == if value then 1 else 0
    {
      if value {
        display := 1;
      } else {
        display := 0;
      }
      chan.enabled := value;
    }

    /** `probe_gain`: zero becomes 1, anything else is clamped into `[0.1, 10000]`. */
    method SetProbeGain(value: real)
      modifies this`attenuation
      ensures attenuation == ProbeGain(0.1, 10000.0, value)
      ensures 0.1 <= attenuation <= 10000.0
    {
      if value == 0.0 {
        attenuation := 1.0;
      } else {
        attenuation := Clamp(0.1, 10000.0, value);
      }
    }

    /** The `coupling` getter: `None` where the instrument reports a code the table lacks. */
    function Coupling(): (r: Option<string>)
      reads this
    {
      Lookup(Inverse(Couplings), coupling)
    }

    /** The `coupling` setter: a listed name sends its code; any other name raises. */
    method SetCoupling(name: string) returns (ok: bool)
      modifies this`coupling
      ensures ok <==> Lookup(Couplings, name).Some?
      ensures ok ==> coupling == Lookup(Couplings, name).value && Coupling() == Some(name)
      ensures !ok ==> coupling == old(coupling)
    {
      var code := Lookup(Couplings, name);
      if code.None? {
        return false;
      }
      coupling := code.value;
      TableRoundTrips(Couplings, name);
      ok := true;
    }
  }

  class KeysightOsc {
    const id: DeviceId
    const store: SnapshotStore
    const ch: seq<KeysightOscChannel>
    /** The instrument's largest waveform point count. */
    const recLenMax: int
    var running: bool
    /** How often the stopped callback has been invoked with this device's id. */
    var stopNotices: nat
    var recLen: int
    var trigMode: string
    var trigSweep: string
    var trigSlope: string

    function Chans(): set<object>
    {
      set i | 0 <= i < |ch| :: ch[i].chan
    }

    predicate SomeEnabled()
      reads Chans()
    {
      exists i :: 0 <= i < |ch| && ch[i].chan.enabled
    }

    function Enabled(): (e: seq<bool>)
      reads Chans()
      ensures |e| == |ch| && forall i :: 0 <= i < |ch| ==> e[i] == ch[i].chan.enabled
    {
      seq(|ch|, i requires 0 <= i < |ch| reads Chans() => ch[i].chan.enabled)
    }

    /** One channel per instrument channel, numbered from 1; the driver starts stopped. */
    constructor (name: string, serNo: string, couplings: seq<string>, maxPoints: int)
      ensures id == DeviceId("Keysight", name, serNo, "Osc") && recLenMax == maxPoints
      ensures |ch| == |couplings| && forall i :: 0 <= i < |ch| ==>
        ch[i].chan.id == ChannelId("Channel", i + 1) && !ch[i].chan.enabled
      ensures !running && stopNotices == 0
      ensures store.snap == InitialSnapshot() && !store.newData
    {
      var cs: seq<KeysightOscChannel> := [];
      for i := 0 to |couplings|
        invariant |cs| == i
        invariant forall k :: 0 <= k < i ==> cs[k].chan.id == ChannelId("Channel", k + 1) && !cs[k].chan.enabled
      {
        var c := new KeysightOscChannel(i + 1, couplings[i]);
        cs := cs + [c];
      }
      id := DeviceId("Keysight", name, serNo, "Osc");
      ch := cs;
      recLenMax := maxPoints;
      running := false;
      stopNotices := 0;
      store := new SnapshotStore();
    }

    /** `start`: only when stopped and some channel is enabled. */
    method Start() returns (success: bool)
      modifies this`running
      ensures success <==> !old(running) && SomeEnabled()
      ensures running == (old(running) || success)
    {
      success := false;
      if !running {
        var allDisabled := true;
        var i := 0;
        while i < |ch|
          invariant 0 <= i <= |ch|
          invariant allDisabled && forall k :: 0 <= k < i ==> !ch[k].chan.enabled
        {
          if ch[i].chan.enabled {
            allDisabled := false;
            break;
          }
          i := i + 1;
        }
        if !allDisabled {
          running := true;
          success := true;
        }
      }
    }

    /** `stop`: only when running. */
    method Stop() returns (success: bool)
      modifies this`running
      ensures success == old(running) && !running
    {
      success := false;
      if running {
        running := false;
        success := true;
      }
    }

    /**
     * One iteration of the acquisition thread, given the instrument's time
     * vector and each channel's signal. While running, every enabled
     * channel pairs as many time points with samples as both have and the
     * snapshot is published, unless a channel raises or none is enabled.
     * While stopped, the stopped callback is invoked.
     */
    method Step(time: seq<real>, data: seq<seq<real>>) returns (outcome: StepOutcome)
      requires |data| == |ch|
      modifies this`stopNotices, store
      ensures old(running) ==>
        var acq := Acquisition(SharedTime(time, Enabled(), data), false);
        stopNotices == old(stopNotices)
        && outcome == (if acq == NoChannel then Skipped else if acq == Raised then Faulted else Published)
        && (outcome == Published ==> store.snap == acq.snap && store.newData)
      ensures !old(running) ==> outcome == Stopped && stopNotices == old(stopNotices) + 1
      ensures outcome != Published ==> store.snap == old(store.snap) && store.newData == old(store.newData)
    {
      if running {
        var samples := SharedTime(time, Enabled(), data);
        outcome := AcquireAndPublish(store, samples, false);
        assert samples == SharedTime(time, Enabled(), data);
      } else {
        stopNotices := stopNotices + 1;
        outcome := Stopped;
      }
    }

    /** `rec_len`: clamped into `[1, recLenMax]`. */
    method SetRecLen(value: int)
      modifies this`recLen
      ensures recLen == ClampInt(1, recLenMax, value)
    {
      var v := if value > 1 then value else 1;
      recLen := if v < recLenMax then v else recLenMax;
    }

    function TrigMode(): Option<string>
      reads this
    {
      Lookup(Inverse(TriggerModes), trigMode)
    }

    function TrigSweep(): Option<string>
      reads this
    {
      Lookup(Inverse(TriggerSweeps), trigSweep)
    }

    function TrigSlope(): Option<string>
      reads this
    {
      Lookup(Inverse(TriggerSlopes), trigSlope)
    }

    /** `trig_mode`: a listed name sends its code and reads back as itself; any other name raises. */
    method SetTrigMode(name: string) returns (ok: bool)
      modifies this`trigMode
      ensures ok <==> Lookup(TriggerModes, name).Some?
      ensures ok ==> trigMode == Lookup(TriggerModes, name).value && TrigMode() == Some(name)
      ensures !ok ==> trigMode == old(trigMode)
    {
      var code := Lookup(TriggerModes, name);
      if code.None? {
        return false;
      }
      trigMode := code.value;
      TableRoundTrips(TriggerModes, name);
      ok := true;
    }

    /** `trig_sweep`: a listed name sends its code and reads back as itself; any other name raises. */
    method SetTrigSweep(name: string) returns (ok: bool)
      modifies this`trigSweep
      ensures ok <==> Lookup(TriggerSweeps, name).Some?
      ensures ok ==> trigSweep == Lookup(TriggerSweeps, name).value && TrigSweep() == Some(name)
      ensures !ok ==> trigSweep == old(trigSweep)
    {
      var code := Lookup(TriggerSweeps, name);
      if code.None? {
        return false;
      }
      trigSweep := code.value;
      TableRoundTrips(TriggerSweeps, name);
      ok := true;
    }

    /** `trig_slope`: a listed name sends its code and reads back as itself; any other name raises. */
    method SetTrigSlope(name: string) returns (ok: bool)
      modifies this`trigSlope
      ensures ok <==> Lookup(TriggerSlopes, name).Some?
      ensures ok ==> trigSlope == Lookup(TriggerSlopes, name).value && TrigSlope() == Some(name)
      ensures !ok ==> trigSlope == old(trigSlope)
    {
      var code := Lookup(TriggerSlopes, name);
      if code.None? {
        return false;
      }
      trigSlope := code.value;
      TableRoundTrips(TriggerSlopes, name);
      ok := true;
    }
  }

  /** A code the instrument reports outside a table has no name: the getter raises. */
  lemma UnlistedCodeRaises(t: Assoc<string, string>, code: string)
    requires code !in Values(t)
    ensures Lookup(Inverse(t), code).None?
  {
    InverseCodes(t, code);
  }
}
