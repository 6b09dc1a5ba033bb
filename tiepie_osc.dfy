/**
 * A TiePie engineering Handyscope: a hardware oscilloscope whose SDK object
 * is reduced to the fields the driver reads and writes (running flag,
 * measure mode, bounds, per-channel trigger state). On top of the hardware
 * modes the driver offers a software 'repeat' mode: the hardware runs in
 * 'block' mode and the acquisition thread restarts it after every block
 * while `shouldRun` is set.
 */
module TiepieOsc {
  import opened Common
  import opened Device
  import opened Oscilloscope

  /** The software measure mode the driver adds to the hardware's modes. */
  const Repeat: string := "repeat"

  /** The trigger kinds that take no trigger condition and no trigger times. */
  predicate EdgeKind(kind: string)
  {
    kind == "rising" || kind == "falling" || kind == "any"
  }

  /** The trigger kinds whose hysteresis is expressed through two trigger levels. */
  predicate WindowKind(kind: string)
  {
    kind == "in window" || kind == "out window"
  }

  /** `trig_timeout`: any negative value becomes -1, meaning "wait forever". */
  function TrigTimeout(v: real): (t: real)
    ensures t >= 0.0 || t == -1.0
    ensures v >= 0.0 ==> t == v
    ensures v < 0.0 ==> t == -1.0
  {
    if v < 0.0 then -1.0 else v
  }

  /**
   * The hysteresis and trigger-time setters: keep at most `cnt` values and
   * clamp each of them into `[0, 1]`, one element at a time.
   */
  method TruncateClamp(values: seq<real>, cnt: nat) returns (r: seq<real>)
    ensures |r| == MinNat(|values|, cnt)
    ensures forall i :: 0 <= i < |r| ==> r[i] == Clamp(0.0, 1.0, values[i])
    ensures forall i :: 0 <= i < |r| ==> 0.0 <= r[i] <= 1.0
  {
    r := values[..MinNat(|values|, cnt)];
    for i := 0 to |r|
      invariant |r| == MinNat(|values|, cnt)
      invariant forall k :: 0 <= k < i ==> r[k] == Clamp(0.0, 1.0, values[k])
      invariant forall k :: i <= k < |r| ==> r[k] == values[k]
    {
      r := r[i := Clamp(0.0, 1.0, r[i])];
    }
  }

  /** What the SDK reports about one channel's trigger when the driver opens it. */
  datatype TrigHardware = TrigHardware(
    available: bool, lvlCnt: nat, hystCnt: nat, timeCnt: nat,
    kind: string, condition: string, range: real)

  class TiepieOscChannel {
    const chan: Channel
    const trigAvailable: bool
    const lvlCnt: nat
    const hystCnt: nat
    const timeCnt: nat
    var range: real
    var probeGain: real
    var probeOffset: real
    var trigKind: string
    var trigCondition: string
    var trigLvl: seq<real>
    var trigHyst: seq<real>
    var trigTime: seq<real>

    /** A new channel is numbered `no` and disabled. */
    constructor (no: int, hw: TrigHardware)
      ensures chan.id == ChannelId("Channel", no) && !chan.enabled
      ensures trigAvailable == hw.available && lvlCnt == hw.lvlCnt && hystCnt == hw.hystCnt && timeCnt == hw.timeCnt
      ensures trigKind == hw.kind && trigCondition == hw.condition && range == hw.range
    {
      chan := new Channel("Channel", no);
      trigAvailable := hw.available;
      lvlCnt := hw.lvlCnt;
      hystCnt := hw.hystCnt;
      timeCnt := hw.timeCnt;
      trigKind := hw.kind;
      trigCondition := hw.condition;
      range := hw.range;
    }

    /** The `is_enabled` setter: hardware and local flag follow the value. */
    method SetEnabled(value: bool)
      modifies chan
      ensures chan.enabled == value
    {
      chan.enabled := value;
    }

    method SetProbeGain(value: real)
      modifies this`probeGain
      ensures probeGain == ProbeGain(-1000000.0, 1000000.0, value)
    {
      if value == 0.0 {
        probeGain := 1.0;
      } else {
        probeGain := Clamp(-1000000.0, 1000000.0, value);
      }
    }

    method SetProbeOffset(value: real)
      modifies this`probeOffset
      ensures probeOffset == Clamp(-1000000.0, 1000000.0, value)
      ensures -1000000.0 <= probeOffset <= 1000000.0
    {
      probeOffset := Clamp(-1000000.0, 1000000.0, value);
    }

    /** The trigger kind can be changed only where the channel has a trigger. */
    method SetTrigKind(value: string)
      modifies this`trigKind
      ensures trigKind == if trigAvailable then value else old(trigKind)
    {
      if trigAvailable {
        trigKind := value;
      }
    }

    /** The trigger condition can be changed only for a kind that is not an edge. */
    method SetTrigCond(value: string)
      modifies this`trigCondition
      ensures trigCondition == if trigAvailable && !EdgeKind(trigKind) then value else old(trigCondition)
    {
      if trigAvailable && !EdgeKind(trigKind) {
        trigCondition := value;
      }
    }

    /** `trig_lvl`: keep the first `lvlCnt` levels, where the channel has a trigger. */
    method SetTrigLvl(value: seq<real>)
      modifies this`trigLvl
      ensures trigAvailable ==> trigLvl == value[..MinNat(|value|, lvlCnt)]
      ensures !trigAvailable ==> trigLvl == old(trigLvl)
      ensures |trigLvl| <= lvlCnt || trigLvl == old(trigLvl)
    {
      if trigAvailable {
        trigLvl := value[..MinNat(|value|, lvlCnt)];
      }
    }

    /**
     * `trig_hyst`: outside the window kinds, keep the first `hystCnt` values,
     * each clamped into `[0, 1]`. In a window kind the hysteresis becomes the
     * distance between the two trigger levels: the first is the highest
     * current level, the second lies `value[0] * range` below it. `ok` is
     * false where the source raises: a window kind with no value given or no
     * current level.
     */
    method SetTrigHyst(value: seq<real>) returns (ok: bool)
      modifies this`trigHyst, this`trigLvl
      ensures ok <==> !(trigAvailable && WindowKind(trigKind) && (value == [] || old(trigLvl) == []))
      ensures trigAvailable && !WindowKind(trigKind) ==>
        |trigHyst| == MinNat(|value|, hystCnt) && trigLvl == old(trigLvl)
        && forall i :: 0 <= i < |trigHyst| ==> trigHyst[i] == Clamp(0.0, 1.0, value[i])
      ensures trigAvailable && WindowKind(trigKind) && ok ==>
        trigHyst == old(trigHyst) && WindowWrite(old(trigLvl), trigLvl, value[0], range)
      ensures !trigAvailable || !ok ==> trigHyst == old(trigHyst) && trigLvl == old(trigLvl)
      ensures trigAvailable && WindowKind(trigKind) && ok && range != 0.0 && trigLvl[1] <= trigLvl[0] ==>
        TrigHyst() == Values([value[0]])
    {
      ok := true;
      if trigAvailable {
        if !WindowKind(trigKind) {
          trigHyst := TruncateClamp(value, hystCnt);
        } else if value == [] || trigLvl == [] {
          ok := false;
        } else {
          var top := SeqMax(trigLvl);
          trigLvl := [top, top - value[0] * range];
          if range != 0.0 && trigLvl[1] <= trigLvl[0] {
            WindowHystReadsBack(trigKind, trigLvl, trigHyst, value[0], range);
          }
        }
      }
    }

    /**
     * `trig_time`: where the kind takes a condition and the condition is not
     * "none", keep the first `timeCnt` times, each clamped into `[0, 1]`.
     */
    method SetTrigTime(value: seq<real>)
      modifies this`trigTime
      ensures trigAvailable && !EdgeKind(trigKind) && trigCondition != "none" ==>
        |trigTime| == MinNat(|value|, timeCnt)
        && forall i :: 0 <= i < |trigTime| ==> trigTime[i] == Clamp(0.0, 1.0, value[i])
      ensures !(trigAvailable && !EdgeKind(trigKind) && trigCondition != "none") ==> trigTime == old(trigTime)
    {
      if trigAvailable && !EdgeKind(trigKind) && trigCondition != "none" {
        trigTime := TruncateClamp(value, timeCnt);
      }
    }

    /** `trig_lvl` getter: `None` stands for the '-' shown without a trigger. */
    function TrigLvl(): (r: Option<seq<real>>)
      reads this
      ensures r.Some? <==> trigAvailable
      ensures r.Some? ==> r.value == trigLvl
    {
      if trigAvailable then Some(trigLvl) else None
    }

    /** `trig_hyst` getter. */
    function TrigHyst(): HystReading
      reads this
    {
      HystReadingOf(trigAvailable, trigKind, trigLvl, trigHyst, range)
    }

    /**
     * `trig_time` getter: the times only where the kind takes a condition
     * and the condition is not "none"; `None` stands for '-'.
     */
    function TrigTime(): (r: Option<seq<real>>)
      reads this
      ensures r.Some? <==> trigAvailable && !EdgeKind(trigKind) && trigCondition != "none"
      ensures r.Some? ==> r.value == trigTime
    {
      if trigAvailable && !EdgeKind(trigKind) && trigCondition != "none" then Some(trigTime) else None
    }
  }

  /**
   * The levels a window-kind hysteresis write leaves: the highest of the old
   * levels first, then one `h * range` below it.
   */
  predicate WindowWrite(old_lvl: seq<real>, lvl: seq<real>, h: real, range: real)
  {
    old_lvl != [] && |lvl| == 2 && lvl[0] == SeqMax(old_lvl) && lvl[1] == SeqMax(old_lvl) - h * range
  }

  /** In window mode the hysteresis setter keeps the top level and sits the other below it. */
  lemma WindowHystSpread(lvl: seq<real>, h: real, range: real)
    requires lvl != [] && 0.0 <= h && 0.0 <= range
    ensures var top := SeqMax(lvl);
      var next := [top, top - h * range];
      SeqMax(next) == top && SeqMax(next) - SeqMin(next) == h * range
  {
    var top := SeqMax(lvl);
    var next := [top, top - h * range];
    assert h * range >= 0.0;
    assert next[0] == top && next[1] == top - h * range;
  }

  /** What the `trig_hyst` getter reports: '-', a list of values, or a raised exception. */
  datatype HystReading = Dash | Values(vs: seq<real>) | Raises

  /** A spread written as `h * range` reads back as `h`. */
  lemma ScaledQuotient(h: real, range: real)
    requires range != 0.0
    ensures (h * range) / range == h
  {
  }

  /**
   * The `trig_hyst` getter on a channel's trigger state. Without a trigger
   * it shows '-'. In a window kind it reports the spread of the levels over
   * the range, which raises for no level (`max` of an empty list) or a zero
   * range. Otherwise it reports the stored hystereses.
   */
  function HystReadingOf(avail: bool, kind: string, lvl: seq<real>, hyst: seq<real>, range: real): (r: HystReading)
    ensures r.Dash? <==> !avail
    ensures r.Raises? <==> avail && WindowKind(kind) && (lvl == [] || range == 0.0)
    ensures avail && !WindowKind(kind) ==> r == Values(hyst)
    ensures r.Values? && WindowKind(kind) ==> r.vs == [(SeqMax(lvl) - SeqMin(lvl)) / range]
  {
    if !avail then Dash
    else if !WindowKind(kind) then Values(hyst)
    else if lvl == [] || range == 0.0 then Raises
    else
      Values([(SeqMax(lvl) - SeqMin(lvl)) / range])
  }

  /**
   * In a window kind the hysteresis written through the levels reads back:
   * once the setter has rewritten the levels to `[top, top - h * range]`
   * the getter reports `[h]`, for a nonzero range and a spread that is not
   * negative.
   */
  lemma WindowHystReadsBack(kind: string, lvl: seq<real>, hyst: seq<real>, h: real, range: real)
    requires WindowKind(kind) && |lvl| == 2 && lvl[1] == lvl[0] - h * range
    requires range != 0.0 && lvl[1] <= lvl[0]
    ensures HystReadingOf(true, kind, lvl, hyst, range) == Values([h])
  {
    assert SeqMax(lvl) == lvl[0] && SeqMin(lvl) == lvl[1];
    ScaledQuotient(h, range);
  }

  /** The bounds the SDK reports for the device-wide settings. */
  datatype Bounds = Bounds(
    sampleFreqMax: real, recLenMax: int, segCntMax: int,
    trigDelayMax: real, trigHoldoffMax: real, trigAvailable: bool)

  class TiepieOsc {
    const id: DeviceId
    const store: SnapshotStore
    const ch: seq<TiepieOscChannel>
    const bounds: Bounds
    /** The hardware's own measure modes. */
    const hwModes: seq<string>
    /** The SDK's running flag; it drops by itself when a block measurement ends. */
    var hwRunning: bool
    /** The mode last sent to the hardware. */
    var hwMode: string
    /** The mode last selected, possibly the software 'repeat' mode. */
    var measureMode: string
    var shouldRun: bool
    var dataNotFetched: bool
    /** How often the stopped callback has been invoked with this device's id. */
    var stopNotices: nat
    var sampleFreq: real
    var recLen: int
    var preSampleRatio: real
    var segCnt: int
    var trigTimeout: real
    var trigDelay: real
    var trigHoldoff: real

    function Chans(): set<object>
    {
      set i | 0 <= i < |ch| :: ch[i].chan
    }

    predicate SomeEnabled()
      reads Chans()
    {
      exists i :: 0 <= i < |ch| && ch[i].chan.enabled
    }

    function Enabled(): (e: seq<bool>)
      reads Chans()
      ensures |e| == |ch| && forall i :: 0 <= i < |ch| ==> e[i] == ch[i].chan.enabled
    {
      seq(|ch|, i requires 0 <= i < |ch| reads Chans() => ch[i].chan.enabled)
    }

    /** One channel per hardware channel, numbered from 1; the hardware starts in 'block' mode, halted. */
    constructor (name: string, serNo: string, hw: seq<TrigHardware>, modes: seq<string>, b: Bounds)
      ensures id == DeviceId("Tiepie", name, serNo, "Osc")
      ensures |ch| == |hw| && forall i :: 0 <= i < |ch| ==>
        ch[i].chan.id == ChannelId("Channel", i + 1) && !ch[i].chan.enabled
      ensures hwModes == modes && bounds == b
      ensures hwMode == "block" && measureMode == "block"
      ensures !hwRunning && !shouldRun && !dataNotFetched && stopNotices == 0
      ensures store.snap == InitialSnapshot() && !store.newData
    {
      var cs: seq<TiepieOscChannel> := [];
      for i := 0 to |hw|
        invariant |cs| == i
        invariant forall k :: 0 <= k < i ==> cs[k].chan.id == ChannelId("Channel", k + 1) && !cs[k].chan.enabled
      {
        var c := new TiepieOscChannel(i + 1, hw[i]);
        cs := cs + [c];
      }
      id := DeviceId("Tiepie", name, serNo, "Osc");
      ch := cs;
      bounds := b;
      hwModes := modes;
      hwMode := "block";
      measureMode := "block";
      hwRunning := false;
      shouldRun := false;
      dataNotFetched := false;
      stopNotices := 0;
      store := new SnapshotStore();
    }

    /** `measure_modes_avail`: the software 'repeat' mode followed by the hardware's modes. */
    function ModesAvail(): (ms: seq<string>)
      ensures |ms| == |hwModes| + 1 && ms[0] == Repeat && ms[1..] == hwModes
    {
      [Repeat] + hwModes
    }

    /** `is_running` reports whether the driver means to run, not the hardware flag. */
    function IsRunning(): (b: bool)
      reads this
      ensures b == shouldRun
    {
      shouldRun
    }

    /**
     * `measure_mode`: 'repeat' is stored as selected while the hardware
     * gets 'block'; every other mode goes to both unchanged.
     */
    method SetMeasureMode(value: string)
      modifies this`hwMode, this`measureMode
      ensures measureMode == value
      ensures hwMode == if value == Repeat then "block" else value
    {
      if value != Repeat {
        hwMode := value;
        measureMode := value;
      } else {
        hwMode := "block";
        measureMode := value;
      }
    }

    /**
     * `start`: only with the hardware idle and some channel enabled; in
     * 'block' mode the data of this run is marked as still to be fetched.
     */
    method Start() returns (success: bool)
      modifies this`hwRunning, this`shouldRun, this`dataNotFetched
      ensures success <==> !old(hwRunning) && SomeEnabled()
      ensures success ==> hwRunning && shouldRun && dataNotFetched == (old(dataNotFetched) || measureMode == "block")
      ensures !success ==> hwRunning == old(hwRunning) && shouldRun == old(shouldRun) && dataNotFetched == old(dataNotFetched)
    {
      success := false;
      if !hwRunning {
        var allDisabled := true;
        var i := 0;
        while i < |ch|
          invariant 0 <= i <= |ch|
          invariant allDisabled && forall k :: 0 <= k < i ==> !ch[k].chan.enabled
        {
          if ch[i].chan.enabled {
            allDisabled := false;
            break;
          }
          i := i + 1;
        }
        if !allDisabled {
          if measureMode == "block" {
            dataNotFetched := true;
          }
          hwRunning := true;
          shouldRun := true;
          success := true;
        }
      }
    }

    /**
     * `stop`: stops a running hardware, or cancels a pending repeat
     * restart; either way the driver no longer means to run.
     */
    method Stop() returns (success: bool)
      modifies this`hwRunning, this`shouldRun
      ensures success <==> old(hwRunning) || (measureMode == Repeat && old(shouldRun))
      ensures !hwRunning
      ensures success ==> !shouldRun
      ensures !success ==> shouldRun == old(shouldRun)
    {
      success := false;
      if hwRunning {
        hwRunning := false;
        shouldRun := false;
        success := true;
      } else if measureMode == Repeat && shouldRun {
        shouldRun := false;
        success := true;
      }
    }

    /** The hardware finishes a block measurement on its own. */
    method MeasurementEnds()
      modifies this`hwRunning
      ensures !hwRunning
    {
      hwRunning := false;
    }

    /**
     * Fetch the data of the current run: when the hardware reports it ready,
     * pair every enabled channel's samples with the shared time vector and
     * publish the snapshot unless a channel raises or none is enabled.
     */
    method Fetch(dataReady: bool, time: seq<real>, data: seq<seq<real>>) returns (outcome: StepOutcome)
      requires |data| == |ch|
      modifies store
      ensures var acq := Acquisition(SharedTime(time, Enabled(), data), true);
        outcome == (if !dataReady || acq == NoChannel then Skipped else if acq == Raised then Faulted else Published)
        && (outcome == Published ==> store.snap == acq.snap && store.newData)
      ensures outcome != Published ==> store.snap == old(store.snap) && store.newData == old(store.newData)
    {
      if !dataReady {
        return Skipped;
      }
      var samples := SharedTime(time, Enabled(), data);
      outcome := AcquireAndPublish(store, samples, true);
      assert samples == SharedTime(time, Enabled(), data);
    }

    /**
     * One iteration of the acquisition thread, given what the hardware
     * reports: whether data is ready, the shared time vector and one sample
     * vector per channel.
     *  - With the hardware running or data of the last run not yet fetched,
     *    the data is fetched once; when it is ready, every enabled channel
     *    pairs each time point with its sample and the snapshot is
     *    published, unless a channel raises or none is enabled.
     *  - Otherwise, in 'repeat' mode while meant to run, the hardware is
     *    restarted when some channel is enabled, and the driver stops
     *    meaning to run when none is.
     *  - Otherwise the driver stops meaning to run and invokes the stopped
     *    callback.
     */
    method Step(dataReady: bool, time: seq<real>, data: seq<seq<real>>) returns (outcome: StepOutcome)
      requires |data| == |ch|
      modifies this`hwRunning, this`shouldRun, this`dataNotFetched, this`stopNotices, store
      ensures old(hwRunning || dataNotFetched) ==>
        !dataNotFetched && hwRunning == old(hwRunning) && shouldRun == old(shouldRun) && stopNotices == old(stopNotices)
      ensures old(hwRunning || dataNotFetched) ==>
        var acq := Acquisition(SharedTime(time, Enabled(), data), true);
        outcome == (if !dataReady || acq == NoChannel then Skipped else if acq == Raised then Faulted else Published)
        && (outcome == Published ==> store.snap == acq.snap && store.newData)
      ensures !old(hwRunning || dataNotFetched) && measureMode == Repeat && old(shouldRun) ==>
        stopNotices == old(stopNotices)
        && (SomeEnabled() ==> outcome == Restarted && hwRunning && dataNotFetched && shouldRun)
        && (!SomeEnabled() ==> outcome == Skipped && !hwRunning && !dataNotFetched && !shouldRun)
      ensures !old(hwRunning || dataNotFetched) && !(measureMode == Repeat && old(shouldRun)) ==>
        outcome == Stopped && !shouldRun && !hwRunning && !dataNotFetched && stopNotices == old(stopNotices) + 1
      ensures outcome != Published ==> store.snap == old(store.snap) && store.newData == old(store.newData)
    {
      if hwRunning || dataNotFetched {
        dataNotFetched := false;
        outcome := Fetch(dataReady, time, data);
      } else if measureMode == Repeat && shouldRun {
        outcome := Skipped;
        if !hwRunning {
          var allDisabled := true;
          var i := 0;
          while i < |ch|
            invariant 0 <= i <= |ch|
            invariant allDisabled && forall k :: 0 <= k < i ==> !ch[k].chan.enabled
          {
            if ch[i].chan.enabled {
              allDisabled := false;
              break;
            }
            i := i + 1;
          }
          if !allDisabled {
            hwRunning := true;
            dataNotFetched := true;
            outcome := Restarted;
          } else {
            shouldRun := false;
          }
        }
      } else {
        shouldRun := false;
        stopNotices := stopNotices + 1;
        outcome := Stopped;
      }
    }

    /** `sample_freq`: clamped into `[1, sampleFreqMax]`. */
    method SetSampleFreq(value: real)
      modifies this`sampleFreq
      ensures sampleFreq == Clamp(1.0, bounds.sampleFreqMax, value)
    {
      var v := if value > 1.0 then value else 1.0;
      sampleFreq := if v < bounds.sampleFreqMax then v else bounds.sampleFreqMax;
    }

    /** `rec_len`: clamped into `[1, recLenMax]`. */
    method SetRecLen(value: int)
      modifies this`recLen
      ensures recLen == ClampInt(1, bounds.recLenMax, value)
    {
      var v := if value > 1 then value else 1;
      recLen := if v < bounds.recLenMax then v else bounds.recLenMax;
    }

    /** `pre_sample_ratio`: clamped into `[0, 1]`, written only with a trigger. */
    method SetPreSampleRatio(value: real)
      modifies this`preSampleRatio
      ensures preSampleRatio == if bounds.trigAvailable then Clamp(0.0, 1.0, value) else old(preSampleRatio)
    {
      var v := Clamp(0.0, 1.0, value);
      if bounds.trigAvailable {
        preSampleRatio := v;
      }
    }

    /** `pre_sample_ratio` getter: `None` stands for the '-' shown without a trigger. */
    function PreSampleRatio(): (r: Option<real>)
      reads this
      ensures r.Some? <==> bounds.trigAvailable
      ensures r.Some? ==> r.value == preSampleRatio
    {
      if bounds.trigAvailable then Some(preSampleRatio) else None
    }

    /** `seg_cnt`: clamped into `[1, segCntMax]`, written only with a trigger. */
    method SetSegCnt(value: int)
      modifies this`segCnt
      ensures segCnt == if bounds.trigAvailable then ClampInt(1, bounds.segCntMax, value) else old(segCnt)
    {
      var v := if value > 1 then value else 1;
      if bounds.trigAvailable {
        segCnt := if v < bounds.segCntMax then v else bounds.segCntMax;
      }
    }

    /** `seg_cnt` getter: 0 without a trigger. */
    function SegCnt(): (n: int)
      reads this
      ensures n == if bounds.trigAvailable then segCnt else 0
    {
      if bounds.trigAvailable then segCnt else 0
    }

    /** `trig_timeout`: a negative value becomes -1, written only with a trigger. */
    method SetTrigTimeout(value: real)
      modifies this`trigTimeout
      ensures trigTimeout == if bounds.trigAvailable then TrigTimeout(value) else old(trigTimeout)
    {
      var v := value;
      if v < 0.0 {
        v := -1.0;
      }
      if bounds.trigAvailable {
        trigTimeout := v;
      }
    }

    /** `trig_delay`: clamped into `[0, trigDelayMax]`, written only with a trigger. */
    method SetTrigDelay(value: real)
      modifies this`trigDelay
      ensures trigDelay == if bounds.trigAvailable then Clamp(0.0, bounds.trigDelayMax, value) else old(trigDelay)
    {
      var v := if value > 0.0 then value else 0.0;
      if bounds.trigAvailable {
        trigDelay := if v < bounds.trigDelayMax then v else bounds.trigDelayMax;
      }
    }

    /** `trig_holdoff`: clamped into `[0, trigHoldoffMax]`, written only with a trigger. */
    method SetTrigHoldoff(value: real)
      modifies this`trigHoldoff
      ensures trigHoldoff == if bounds.trigAvailable then Clamp(0.0, bounds.trigHoldoffMax, value) else old(trigHoldoff)
    {
      var v := if value > 0.0 then value else 0.0;
      if bounds.trigAvailable {
        trigHoldoff := if v < bounds.trigHoldoffMax then v else bounds.trigHoldoffMax;
      }
    }
  }

  /**
   * A 'repeat' measurement never reaches the hardware as such: whatever
   * mode is selected from the available ones, the hardware receives one of
   * its own modes provided it offers 'block'.
   */
  lemma MeasureModeReachesHardware(hwModes: seq<string>, value: string)
    requires "block" in hwModes
    requires value in [Repeat] + hwModes
    ensures (if value == Repeat then "block" else value) in hwModes
  {
    if value != Repeat {
      assert value in ([Repeat] + hwModes)[1..];
      assert ([Repeat] + hwModes)[1..] == hwModes;
    }
  }
}
