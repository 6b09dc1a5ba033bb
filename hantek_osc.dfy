/**
 * A Hantek USB oscilloscope. Whether it runs is the instrument's own state;
 * all channels share channel 1's time vector, and a channel contributes to
 * an iteration only while it is enabled and has fresh data.
 */
module HantekOsc {
  import opened Common
  import opened Device
  import opened Oscilloscope

  /** The channels that contribute to one iteration: enabled ones with fresh data. */
  function Contributing(enabled: seq<bool>, ready: seq<bool>): (c: seq<bool>)
    requires |ready| == |enabled|
    ensures |c| == |enabled|
    ensures forall i :: 0 <= i < |enabled| ==> (c[i] <==> enabled[i] && ready[i])
  {
    seq(|enabled|, i requires 0 <= i < |enabled| => enabled[i] && ready[i])
  }

  class HantekOscChannel {
    const chan: Channel
    /** The instrument's own channel switch, turned off once and never touched again. */
    var hwEnabled: bool
    /** The instrument holds a single trigger level. */
    var trigLevel: real

    constructor (no: int, level: real)
      ensures chan.id == ChannelId("Channel", no) && !chan.enabled && !hwEnabled
      ensures trigLevel == level
    {
      chan := new Channel("Channel", no);
      hwEnabled := false;
      trigLevel := level;
    }

    /** `is_enabled`: only the local flag follows; the instrument's switch is left alone. */
    method SetEnabled(value: bool)
      modifies chan
      ensures chan.enabled == value
    {
      chan.enabled := value;
    }

    /** The `trig_lvl` getter: the single level as a one-element list. */
    function TrigLvl(): (l: seq<real>)
      reads this
      ensures |l| == 1 && l[0] == trigLevel
    {
      [trigLevel]
    }

    /** The `trig_lvl` setter takes the list's first element; an empty list raises. */
    method SetTrigLvl(value: seq<real>) returns (ok: bool)
      modifies this`trigLevel
      ensures ok <==> |value| > 0
      ensures ok ==> trigLevel == value[0] && TrigLvl() == value[..1]
      ensures !ok ==> trigLevel == old(trigLevel)
    {
      if |value| == 0 {
        return false;
      }
      trigLevel := value[0];
      ok := true;
    }
  }

  class HantekOsc {
    const id: DeviceId
    const store: SnapshotStore
    const ch: seq<HantekOscChannel>
    const sampleFreqMax: real
    const recLenMax: int
    /** The instrument's running state, which `is_running` reports. */
    var hwRunning: bool
    var stopNotices: nat
    var sampleFreq: real
    var recLen: int
    var preSampleRatio: real

    function Chans(): set<object>
    {
      set i | 0 <= i < |ch| :: ch[i].chan
    }

    predicate SomeEnabled()
      reads Chans()
    {
      exists i :: 0 <= i < |ch| && ch[i].chan.enabled
    }

    function Enabled(): (e: seq<bool>)
      reads Chans()
      ensures |e| == |ch| && forall i :: 0 <= i < |ch| ==> e[i] == ch[i].chan.enabled
    {
      seq(|ch|, i requires 0 <= i < |ch| reads Chans() => ch[i].chan.enabled)
    }

    /** One channel per instrument channel, numbered from 1, all disabled. */
    constructor (name: string, serNo: string, levels: seq<real>, maxRate: real, maxLen: int)
      ensures id == DeviceId("Hantek", name, serNo, "Osc")
      ensures sampleFreqMax == maxRate && recLenMax == maxLen
      ensures |ch| == |levels| && forall i :: 0 <= i < |ch| ==>
        ch[i].chan.id == ChannelId("Channel", i + 1) && !ch[i].chan.enabled && !ch[i].hwEnabled
      ensures !hwRunning && stopNotices == 0
      ensures store.snap == InitialSnapshot() && !store.newData
    {
      var cs: seq<HantekOscChannel> := [];
      for i := 0 to |levels|
        invariant |cs| == i
        invariant forall k :: 0 <= k < i ==>
          cs[k].chan.id == ChannelId("Channel", k + 1) && !cs[k].chan.enabled && !cs[k].hwEnabled
      {
        var c := new HantekOscChannel(i + 1, levels[i]);
        cs := cs + [c];
      }
      id := DeviceId("Hantek", name, serNo, "Osc");
      ch := cs;
      sampleFreqMax := maxRate;
      recLenMax := maxLen;
      hwRunning := false;
      stopNotices := 0;
      store := new SnapshotStore();
    }

    predicate IsRunning()
      reads this
    {
      hwRunning
    }

    /** `start`: only when the instrument is stopped and some channel is enabled. */
    method Start() returns (success: bool)
      modifies this`hwRunning
      ensures success <==> !old(hwRunning) && SomeEnabled()
      ensures hwRunning == (old(hwRunning) || success)
    {
      success := false;
      if !hwRunning {
        var allDisabled := true;
        var i := 0;
        while i < |ch|
          invariant 0 <= i <= |ch|
          invariant allDisabled && forall k :: 0 <= k < i ==> !ch[k].chan.enabled
        {
          if ch[i].chan.enabled {
            allDisabled := false;
            break;
          }
          i := i + 1;
        }
        if !allDisabled {
          hwRunning := true;
          success := true;
        }
      }
    }

    /** `stop`: only when the instrument runs. */
    method Stop() returns (success: bool)
      modifies this`hwRunning
      ensures success == old(hwRunning) && !hwRunning
    {
      success := false;
      if hwRunning {
        hwRunning := false;
        success := true;
      }
    }

    /**
     * One iteration of the acquisition thread, given channel 1's time
     * vector, each channel's fresh-data flag and each channel's samples.
     * While the instrument runs, every enabled channel with fresh data
     * pairs as many time points with samples as both have; nothing is
     * published when none contributes or one raises. While it is stopped,
     * the stopped callback is invoked.
     */
    method Step(time: seq<real>, ready: seq<bool>, data: seq<seq<real>>) returns (outcome: StepOutcome)
      requires |ready| == |ch| && |data| == |ch|
      modifies this`stopNotices, store
      ensures old(hwRunning) ==>
        var acq := Acquisition(SharedTime(time, Contributing(Enabled(), ready), data), false);
        stopNotices == old(stopNotices)
        && outcome == (if acq == NoChannel then Skipped else if acq == Raised then Faulted else Published)
        && (outcome == Published ==> store.snap == acq.snap && store.newData)
      ensures !old(hwRunning) ==> outcome == Stopped && stopNotices == old(stopNotices) + 1
      ensures outcome != Published ==> store.snap == old(store.snap) && store.newData == old(store.newData)
    {
      if hwRunning {
        var samples := SharedTime(time, Contributing(Enabled(), ready), data);
        outcome := AcquireAndPublish(store, samples, false);
        assert samples == SharedTime(time, Contributing(Enabled(), ready), data);
      } else {
        stopNotices := stopNotices + 1;
        outcome := Stopped;
      }
    }

    /** `sample_freq`: clamped into `[1, sampleFreqMax]`. */
    method SetSampleFreq(value: real)
      modifies this`sampleFreq
      ensures sampleFreq == Clamp(1.0, sampleFreqMax, value)
    {
      var v := if value > 1.0 then value else 1.0;
      sampleFreq := if v < sampleFreqMax then v else sampleFreqMax;
    }

    /** `rec_len`: clamped into `[1, recLenMax]`. */
    method SetRecLen(value: int)
      modifies this`recLen
      ensures recLen == ClampInt(1, recLenMax, value)
    {
      var v := if value > 1 then value else 1;
      recLen := if v < recLenMax then v else recLenMax;
    }

    /** `pre_sample_ratio`: clamped into `[0, 1]`. */
    method SetPreSampleRatio(value: real)
      modifies this`preSampleRatio
      ensures preSampleRatio == Clamp(0.0, 1.0, value)
      ensures 0.0 <= preSampleRatio <= 1.0
    {
      preSampleRatio := if 1.0 < value then 1.0 else if value > 0.0 then value else 0.0;
    }
  }

  /** A channel contributes only while enabled and holding fresh data, and only contributors appear in a snapshot. */
  lemma OnlyContributorsPublished(enabled: seq<bool>, ready: seq<bool>, time: seq<real>, data: seq<seq<real>>, i: int)
    requires |ready| == |enabled| && |data| == |enabled| && 0 <= i < |enabled|
    requires Acquisition(SharedTime(time, Contributing(enabled, ready), data), false).Acquired?
    ensures i + 1 in Acquisition(SharedTime(time, Contributing(enabled, ready), data), false).snap.points
      <==> enabled[i] && ready[i]
  {
    var samples := SharedTime(time, Contributing(enabled, ready), data);
    SnapshotKeys(samples, false);
  }
}
