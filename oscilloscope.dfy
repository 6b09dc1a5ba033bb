/**
 * The oscilloscope base class: the latest measurement snapshot with its
 * "new data" flag, the per-channel registry of deletion callbacks, the
 * pseudo-destructor that runs them, and the bookkeeping every acquisition
 * loop shares (pairing time and voltage samples into points, keying them by
 * channel number, tracking the voltage minimum and maximum).
 */
module Oscilloscope {
  import opened Common
  import opened Device

  /** A chart point (time or frequency, voltage or share). */
  datatype Point = Point(x: real, y: real)

  /** A `(minimum, maximum)` pair of the limits dictionaries. */
  datatype Range = Range(lo: real, hi: real)

  /**
   * What `retrieve` hands out: the normal points of every published channel
   * keyed by channel number, and the time and voltage limits.
   */
  datatype Snapshot = Snapshot(points: map<int, seq<Point>>, time: Range, voltage: Range)

  /** The result of `retrieve`: the 'New' flag and the snapshot. */
  datatype Retrieved = Retrieved(isNew: bool, snap: Snapshot)

  /** The snapshot an oscilloscope holds before its first acquisition. */
  function InitialSnapshot(): (s: Snapshot)
    ensures s.points.Keys == {1} && s.points[1] == [Point(0.0, 0.0)]
    ensures s.time == Range(0.0, 0.0) && s.voltage == Range(0.0, 0.0)
  {
    Snapshot(map[1 := [Point(0.0, 0.0)]], Range(0.0, 0.0), Range(0.0, 0.0))
  }

  /**
   * `retrieve(dismiss)` as a function of the flag and the snapshot: the
   * result and the flag afterwards.
   */
  function RetrieveStep(flag: bool, snap: Snapshot, dismiss: bool): (r: (Retrieved, bool))
    ensures r.0.isNew == flag && r.0.snap == snap
    ensures r.1 == (flag && !dismiss)
  {
    (Retrieved(flag, snap), flag && !dismiss)
  }

  /** Reading twice with `dismiss` set reports new data at most once. */
  lemma DismissReportsOnce(flag: bool, snap: Snapshot, dismiss2: bool)
    ensures !RetrieveStep(RetrieveStep(flag, snap, true).1, snap, dismiss2).0.isNew
    ensures RetrieveStep(RetrieveStep(flag, snap, false).1, snap, dismiss2).0.isNew == flag
  {
  }

  /**
   * The part of an oscilloscope that the acquisition loop writes and
   * `retrieve` reads: the snapshot and the new-data flag.
   */
  class SnapshotStore {
    var snap: Snapshot
    var newData: bool

    constructor ()
      ensures snap == InitialSnapshot() && !newData
    {
      snap := InitialSnapshot();
      newData := false;
    }

    method Retrieve(dismiss: bool) returns (r: Retrieved)
      modifies this
      ensures (r, newData) == RetrieveStep(old(newData), old(snap), dismiss)
      ensures snap == old(snap)
    {
      var isNew := false;
      if newData {
        if dismiss {
          newData := false;
        }
        isNew := true;
      }
      r := Retrieved(isNew, snap);
    }

    /** The publication at the end of a successful acquisition iteration. */
    method Publish(s: Snapshot)
      modifies this
      ensures snap == s && newData
    {
      snap := s;
      newData := true;
    }
  }

  // ---------------------------------------------------------------------
  // Deletion callbacks

  /** A value of an id dictionary; ids are keyed by the set of their values. */
  datatype Atom = Text(s: string) | Number(n: int)

  /** `(frozenset(osc_id.values()), frozenset(ch_id.values()))`. */
  datatype Key = Key(osc: set<Atom>, ch: set<Atom>)

  function KeyOf(osc: DeviceId, ch: ChannelId): (k: Key)
    ensures Text(osc.vendor) in k.osc && Text(osc.name) in k.osc
    ensures Text(osc.serNo) in k.osc && Text(osc.devType) in k.osc
    ensures Text(ch.name) in k.ch && Number(ch.no) in k.ch
    ensures |k.ch| == 2
  {
    Key({Text(osc.vendor), Text(osc.name), Text(osc.serNo), Text(osc.devType)},
        {Text(ch.name), Number(ch.no)})
  }

  /** The `_was_removed` dictionary, in insertion order; `Cb` is the callback type. */
  type Registry<Cb> = Assoc<Key, Cb>

  /**
   * An oscilloscope channel: the channel fields of the base class and the
   * registry of callbacks to run when its oscilloscope is removed.
   */
  class OscChannel<Cb> {
    const id: ChannelId
    var enabled: bool
    var wasRemoved: Registry<Cb>

    ghost predicate Valid()
      reads this
    {
      UniqueKeys(wasRemoved)
    }

    constructor (name: string, no: int)
      ensures id == ChannelId(name, no) && !enabled
      ensures wasRemoved == [] && Valid()
    {
      id := ChannelId(name, no);
      enabled := false;
      wasRemoved := [];
    }

    /** `deletion_callbacks()`: the registered callbacks, in insertion order. */
    function DeletionCallbacks(): (cs: seq<Cb>)
      reads this
      ensures |cs| == |wasRemoved|
      ensures forall i :: 0 <= i < |cs| ==> cs[i] == wasRemoved[i].1
    {
      Values(wasRemoved)
    }

    /**
     * `set_deletion_callback(osc_id, ch_id, func)`: with a callback, store
     * it under the key of the two ids; without one, remove that key.
     */
    method SetDeletionCallback(osc: DeviceId, ch: ChannelId, func: Option<Cb>)
      requires Valid()
      modifies this
      ensures Valid()
      ensures func.Some? ==> wasRemoved == Put(old(wasRemoved), KeyOf(osc, ch), func.value)
      ensures func.None? ==> wasRemoved == Drop(old(wasRemoved), KeyOf(osc, ch))
      ensures Lookup(wasRemoved, KeyOf(osc, ch)) == func
      ensures forall k :: k != KeyOf(osc, ch) ==> Lookup(wasRemoved, k) == Lookup(old(wasRemoved), k)
      ensures enabled == old(enabled)
    {
      var key := KeyOf(osc, ch);
      if func.Some? {
        PutSpec(wasRemoved, key, func.value);
        wasRemoved := Put(wasRemoved, key, func.value);
      } else {
        DropSpec(wasRemoved, key);
        wasRemoved := Drop(wasRemoved, key);
      }
    }
  }

  /** Every callback of every channel, channel by channel. */
  function AllCallbacks<Cb>(chans: seq<OscChannel<Cb>>): (cs: seq<Cb>)
    reads set c | c in chans
  {
    if chans == [] then [] else chans[0].DeletionCallbacks() + AllCallbacks(chans[1..])
  }

  lemma {:induction false} AllCallbacksLength<Cb>(chans: seq<OscChannel<Cb>>)
    ensures |AllCallbacks(chans)| == SumRegistered(chans)
  {
    if chans != [] {
      AllCallbacksLength(chans[1..]);
    }
  }

  function SumRegistered<Cb>(chans: seq<OscChannel<Cb>>): nat
    reads set c | c in chans
  {
    if chans == [] then 0 else |chans[0].wasRemoved| + SumRegistered(chans[1..])
  }

  /**
   * The callbacks `init_deletion` invokes, in order: every callback of
   * every channel, channel by channel.
   */
  method InitDeletion<Cb>(chans: seq<OscChannel<Cb>>) returns (calls: seq<Cb>)
    ensures calls == AllCallbacks(chans)
    ensures forall c, i :: c in chans && 0 <= i < |c.wasRemoved| ==> c.wasRemoved[i].1 in calls
  {
    calls := [];
    var n := 0;
    while n < |chans|
      invariant 0 <= n <= |chans|
      invariant calls + AllCallbacks(chans[n..]) == AllCallbacks(chans)
    {
      assert chans[n..][1..] == chans[n + 1..];
      calls := calls + chans[n].DeletionCallbacks();
      n := n + 1;
    }
    assert chans[n..] == [];
    CallbacksContained(chans);
  }

  lemma {:induction false} CallbacksContained<Cb>(chans: seq<OscChannel<Cb>>)
    ensures forall c, i :: c in chans && 0 <= i < |c.wasRemoved| ==> c.wasRemoved[i].1 in AllCallbacks(chans)
  {
    if chans != [] {
      CallbacksContained(chans[1..]);
      forall c, i | c in chans && 0 <= i < |c.wasRemoved|
        ensures c.wasRemoved[i].1 in AllCallbacks(chans)
      {
        if c == chans[0] {
          assert chans[0].DeletionCallbacks()[i] == c.wasRemoved[i].1;
        } else {
          assert c in chans[1..];
        }
      }
    }
  }

  /**
   * The number of frequency and share values `calculate_fft_points`
   * returns for `n` samples (their values are not modelled); an empty time
   * vector makes `max` raise.
   */
  function FftPointCount(n: nat): (r: Option<nat>)
    ensures n == 0 <==> r.None?
    ensures r.Some? ==> r.value + r.value <= n < r.value + r.value + 2
  {
    if n == 0 then None else Some(n / 2)
  }

  // ---------------------------------------------------------------------
  // Acquisition bookkeeping

  /** `[QPointF(time[j], raw[j]) for j in range(min(len(time), len(raw)))]`. */
  function Zip(time: seq<real>, raw: seq<real>): (ps: seq<Point>)
    ensures |ps| == MinNat(|time|, |raw|)
    ensures forall j :: 0 <= j < |ps| ==> ps[j] == Point(time[j], raw[j])
  {
    if time == [] || raw == [] then [] else [Point(time[0], raw[0])] + Zip(time[1..], raw[1..])
  }

  /** The samples one channel delivered in one acquisition iteration. */
  datatype Reading = Reading(no: int, time: seq<real>, raw: seq<real>)

  predicate NonEmptyRaw(rs: seq<Reading>)
  {
    forall i :: 0 <= i < |rs| ==> rs[i].raw != []
  }

  /** The points dictionary built from the readings, one entry per channel number. */
  function Gather(rs: seq<Reading>): (m: map<int, seq<Point>>)
  {
    if rs == [] then map[]
    else Gather(rs[..|rs| - 1])[rs[|rs| - 1].no := Zip(rs[|rs| - 1].time, rs[|rs| - 1].raw)]
  }

  /** The running minimum and maximum over every reading's raw samples. */
  function VoltageRange(rs: seq<Reading>): (v: Option<Range>)
    requires NonEmptyRaw(rs)
  {
    if rs == [] then None
    else
      var last := rs[|rs| - 1];
      match VoltageRange(rs[..|rs| - 1])
      case None => Some(Range(SeqMin(last.raw), SeqMax(last.raw)))
      case Some(r) => Some(Range(MinReal(r.lo, SeqMin(last.raw)), MaxReal(r.hi, SeqMax(last.raw))))
  }

  /** No later reading has the same channel number as reading `i`. */
  predicate LastWithNo(rs: seq<Reading>, i: int)
    requires 0 <= i < |rs|
  {
    forall j :: i < j < |rs| ==> rs[j].no != rs[i].no
  }

  lemma {:induction false} GatherKeys(rs: seq<Reading>)
    ensures Gather(rs).Keys == set i | 0 <= i < |rs| :: rs[i].no
  {
    if rs != [] {
      var init := rs[..|rs| - 1];
      GatherKeys(init);
      var s := set i | 0 <= i < |rs| :: rs[i].no;
      var s0 := set i | 0 <= i < |init| :: init[i].no;
      assert s == s0 + {rs[|rs| - 1].no} by {
        forall x | x in s ensures x in s0 + {rs[|rs| - 1].no} {
          var i :| 0 <= i < |rs| && rs[i].no == x;
          if i < |init| { assert init[i] == rs[i]; }
        }
        forall x | x in s0 ensures x in s {
          var i :| 0 <= i < |init| && init[i].no == x;
          assert rs[i] == init[i];
        }
      }
    }
  }

  lemma {:induction false} GatherValue(rs: seq<Reading>, i: int)
    requires 0 <= i < |rs| && LastWithNo(rs, i)
    ensures rs[i].no in Gather(rs) && Gather(rs)[rs[i].no] == Zip(rs[i].time, rs[i].raw)
  {
    var init := rs[..|rs| - 1];
    if i < |rs| - 1 {
      assert init[i] == rs[i];
      assert LastWithNo(init, i) by {
        forall j | i < j < |init| ensures init[j].no != init[i].no {
          assert init[j] == rs[j];
        }
      }
      GatherValue(init, i);
    }
  }

  lemma {:induction false} VoltageRangeSpec(rs: seq<Reading>)
    requires NonEmptyRaw(rs)
    ensures VoltageRange(rs).None? <==> rs == []
    ensures VoltageRange(rs).Some? ==>
      (forall i, j :: 0 <= i < |rs| && 0 <= j < |rs[i].raw| ==>
        VoltageRange(rs).value.lo <= rs[i].raw[j] <= VoltageRange(rs).value.hi)
    ensures VoltageRange(rs).Some? ==>
      (exists i, j :: 0 <= i < |rs| && 0 <= j < |rs[i].raw| && VoltageRange(rs).value.lo == rs[i].raw[j])
    ensures VoltageRange(rs).Some? ==>
      (exists i, j :: 0 <= i < |rs| && 0 <= j < |rs[i].raw| && VoltageRange(rs).value.hi == rs[i].raw[j])
  {
    if rs != [] {
      var init := rs[..|rs| - 1];
      assert forall i :: 0 <= i < |init| ==> init[i] == rs[i];
      VoltageRangeSpec(init);
    }
  }

  /**
   * The loop shared by the acquisition threads: pair each reading's samples
   * into points under its channel number and track the voltage extremes.
   */
  method Accumulate(rs: seq<Reading>) returns (points: map<int, seq<Point>>, voltage: Option<Range>)
    requires NonEmptyRaw(rs)
    ensures points == Gather(rs) && voltage == VoltageRange(rs)
  {
    points := map[];
    voltage := None;
    var i := 0;
    while i < |rs|
      invariant 0 <= i <= |rs|
      invariant points == Gather(rs[..i]) && voltage == VoltageRange(rs[..i])
    {
      var r := rs[i];
      assert rs[..i + 1][..i] == rs[..i];
      points := points[r.no := Zip(r.time, r.raw)];
      match voltage {
        case None =>
          voltage := Some(Range(SeqMin(r.raw), SeqMax(r.raw)));
        case Some(v) =>
          voltage := Some(Range(MinReal(v.lo, SeqMin(r.raw)), MaxReal(v.hi, SeqMax(r.raw))));
      }
      i := i + 1;
    }
    assert rs[..i] == rs;
  }

  // ---------------------------------------------------------------------
  // One iteration of a hardware oscilloscope's acquisition thread

  /**
   * How one iteration of an acquisition thread ended: it found the
   * oscilloscope stopped, found nothing to publish, restarted a repeated
   * measurement, published a snapshot, or raised.
   */
  datatype StepOutcome = Stopped | Skipped | Restarted | Published | Faulted

  /** What one enabled channel delivered: its time vector and its samples. */
  datatype Sample = Sample(time: seq<real>, raw: seq<real>)

  /**
   * Whether handling a channel's samples raises: fewer than two time points
   * leave no FFT share values (`min` of them raises), and fewer samples than
   * points to pair index past the samples. `full` loops pair every time
   * point; the others pair as many as both vectors have, but the FFT still
   * asks for half as many samples as time points.
   */
  predicate SampleRaises(s: Sample, full: bool)
  {
    |s.time| < 2 || |s.raw| < (if full then |s.time| else |s.time| / 2)
  }

  predicate AnySampleRaises(samples: seq<Option<Sample>>, full: bool)
  {
    exists i :: 0 <= i < |samples| && samples[i].Some? && SampleRaises(samples[i].value, full)
  }

  /** The readings of the enabled channels among the first `n`, numbered by position + 1. */
  function SampleReadings(samples: seq<Option<Sample>>, n: nat): seq<Reading>
    requires n <= |samples|
  {
    if n == 0 then []
    else
      var s := samples[n - 1];
      SampleReadings(samples, n - 1) + (if s.Some? then [Reading(n, s.value.time, s.value.raw)] else [])
  }

  /** The samples of the last enabled channel among the first `n`. */
  function LastSample(samples: seq<Option<Sample>>, n: nat): Option<Sample>
    requires n <= |samples|
  {
    if n == 0 then None
    else if samples[n - 1].Some? then samples[n - 1]
    else LastSample(samples, n - 1)
  }

  /** The channel numbers that delivered samples. */
  ghost function SampleNos(samples: seq<Option<Sample>>): set<int>
  {
    set i | 0 <= i < |samples| && samples[i].Some? :: i + 1
  }

  lemma {:induction false} SampleReadingsMembers(samples: seq<Option<Sample>>, n: nat)
    requires n <= |samples|
    ensures forall rd :: rd in SampleReadings(samples, n) <==>
      exists i :: 0 <= i < n && samples[i].Some? && rd == Reading(i + 1, samples[i].value.time, samples[i].value.raw)
    ensures forall i, j :: 0 <= i < j < |SampleReadings(samples, n)| ==>
      SampleReadings(samples, n)[i].no < SampleReadings(samples, n)[j].no
    ensures forall i :: 0 <= i < |SampleReadings(samples, n)| ==> SampleReadings(samples, n)[i].no <= n
  {
    if n > 0 {
      SampleReadingsMembers(samples, n - 1);
    }
  }

  lemma SampleReadingsNonEmpty(samples: seq<Option<Sample>>, full: bool)
    requires !AnySampleRaises(samples, full)
    ensures NonEmptyRaw(SampleReadings(samples, |samples|))
  {
    var rs := SampleReadings(samples, |samples|);
    SampleReadingsMembers(samples, |samples|);
    forall k | 0 <= k < |rs| ensures rs[k].raw != [] {
      assert rs[k] in rs;
      var i :| 0 <= i < |samples| && samples[i].Some? && rs[k] == Reading(i + 1, samples[i].value.time, samples[i].value.raw);
      assert !SampleRaises(samples[i].value, full);
    }
  }

  lemma {:induction false} SampleReadingsLast(samples: seq<Option<Sample>>, n: nat)
    requires n <= |samples| && LastSample(samples, n).Some?
    ensures SampleReadings(samples, n) != []
    ensures SampleReadings(samples, n)[|SampleReadings(samples, n)| - 1].time == LastSample(samples, n).value.time
  {
    if samples[n - 1].None? {
      SampleReadingsLast(samples, n - 1);
    }
  }

  lemma {:induction false} LastSampleIsSample(samples: seq<Option<Sample>>, n: nat)
    requires n <= |samples| && LastSample(samples, n).Some?
    ensures exists i :: 0 <= i < n && samples[i] == LastSample(samples, n)
  {
    if samples[n - 1].None? {
      LastSampleIsSample(samples, n - 1);
    }
  }

  /** The snapshot an iteration publishes from the enabled channels' samples. */
  function SnapshotOf(samples: seq<Option<Sample>>, full: bool): Snapshot
    requires !AnySampleRaises(samples, full) && LastSample(samples, |samples|).Some?
  {
    SampleReadingsNonEmpty(samples, full);
    SampleReadingsLast(samples, |samples|);
    LastSampleIsSample(samples, |samples|);
    var rs := SampleReadings(samples, |samples|);
    var t := LastSample(samples, |samples|).value.time;
    VoltageRangeSpec(rs);
    Snapshot(Gather(rs), Range(t[0], t[|t| - 1]), VoltageRange(rs).value)
  }

  /** The result of an iteration's channel loop. */
  datatype Acquired = NoChannel | Raised | Acquired(snap: Snapshot)

  function Acquisition(samples: seq<Option<Sample>>, full: bool): Acquired
  {
    if AnySampleRaises(samples, full) then Raised
    else if LastSample(samples, |samples|).None? then NoChannel
    else Acquired(SnapshotOf(samples, full))
  }

  lemma {:induction false} NoSampleNoChannel(samples: seq<Option<Sample>>, n: nat)
    requires n <= |samples|
    ensures LastSample(samples, n).None? <==> forall i :: 0 <= i < n ==> samples[i].None?
  {
    if n > 0 {
      NoSampleNoChannel(samples, n - 1);
    }
  }

  /** An iteration finds no channel exactly when none is enabled and none raised. */
  lemma AcquisitionNoChannel(samples: seq<Option<Sample>>, full: bool)
    ensures Acquisition(samples, full) == NoChannel <==>
      !AnySampleRaises(samples, full) && forall i :: 0 <= i < |samples| ==> samples[i].None?
  {
    NoSampleNoChannel(samples, |samples|);
  }

  /** The published points hold one entry per enabled channel, under its number. */
  lemma SnapshotKeys(samples: seq<Option<Sample>>, full: bool)
    requires !AnySampleRaises(samples, full) && LastSample(samples, |samples|).Some?
    ensures SnapshotOf(samples, full).points.Keys == SampleNos(samples)
  {
    var rs := SampleReadings(samples, |samples|);
    GatherKeys(rs);
    SampleReadingsNos(samples);
  }

  /** The readings carry exactly the numbers of the enabled channels. */
  lemma SampleReadingsNos(samples: seq<Option<Sample>>)
    ensures (set k | 0 <= k < |SampleReadings(samples, |samples|)| :: SampleReadings(samples, |samples|)[k].no)
      == SampleNos(samples)
  {
    var rs := SampleReadings(samples, |samples|);
    SampleReadingsMembers(samples, |samples|);
    forall n | n in SampleNos(samples) ensures exists k :: 0 <= k < |rs| && rs[k].no == n {
      var i :| 0 <= i < |samples| && samples[i].Some? && n == i + 1;
      var rd := Reading(i + 1, samples[i].value.time, samples[i].value.raw);
      assert rd in rs;
    }
    forall k | 0 <= k < |rs| ensures rs[k].no in SampleNos(samples) {
      assert rs[k] in rs;
    }
  }

  lemma {:induction false} GatherSampleReadings(samples: seq<Option<Sample>>, n: nat, i: int)
    requires n <= |samples| && 0 <= i < n && samples[i].Some?
    ensures i + 1 in Gather(SampleReadings(samples, n))
    ensures Gather(SampleReadings(samples, n))[i + 1] == Zip(samples[i].value.time, samples[i].value.raw)
  {
    var init := SampleReadings(samples, n - 1);
    if samples[n - 1].None? {
      assert SampleReadings(samples, n) == init;
      GatherSampleReadings(samples, n - 1, i);
    } else {
      var rd := Reading(n, samples[n - 1].value.time, samples[n - 1].value.raw);
      assert SampleReadings(samples, n) == init + [rd];
      GatherSnoc(init, rd);
      if i < n - 1 {
        GatherSampleReadings(samples, n - 1, i);
      }
    }
  }

  /** Appending a reading sets its channel's entry and leaves the others. */
  lemma GatherSnoc(init: seq<Reading>, rd: Reading)
    ensures Gather(init + [rd]) == Gather(init)[rd.no := Zip(rd.time, rd.raw)]
  {
    assert (init + [rd])[..|init|] == init;
  }

  /** Each enabled channel's entry pairs its own time vector with its own samples. */
  lemma SnapshotPoints(samples: seq<Option<Sample>>, full: bool, i: int)
    requires !AnySampleRaises(samples, full) && LastSample(samples, |samples|).Some?
    requires 0 <= i < |samples| && samples[i].Some?
    ensures i + 1 in SnapshotOf(samples, full).points
    ensures SnapshotOf(samples, full).points[i + 1] == Zip(samples[i].value.time, samples[i].value.raw)
  {
    GatherSampleReadings(samples, |samples|, i);
  }

  /** The time range spans the last enabled channel's time vector, which has two points at least. */
  lemma SnapshotTime(samples: seq<Option<Sample>>, full: bool)
    requires !AnySampleRaises(samples, full) && LastSample(samples, |samples|).Some?
    ensures var t := LastSample(samples, |samples|).value.time;
      |t| >= 2 && SnapshotOf(samples, full).time == Range(t[0], t[|t| - 1])
  {
    LastSampleIsSample(samples, |samples|);
  }

  /** The voltage range bounds every sample of every enabled channel. */
  lemma SnapshotVoltage(samples: seq<Option<Sample>>, full: bool, i: int, j: int)
    requires !AnySampleRaises(samples, full) && LastSample(samples, |samples|).Some?
    requires 0 <= i < |samples| && samples[i].Some? && 0 <= j < |samples[i].value.raw|
    ensures SnapshotOf(samples, full).voltage.lo <= samples[i].value.raw[j] <= SnapshotOf(samples, full).voltage.hi
  {
    var rs := SampleReadings(samples, |samples|);
    SampleReadingsMembers(samples, |samples|);
    SampleReadingsNonEmpty(samples, full);
    VoltageRangeSpec(rs);
    var rd := Reading(i + 1, samples[i].value.time, samples[i].value.raw);
    assert rd in rs;
    var k :| 0 <= k < |rs| && rs[k] == rd;
    assert rs[k].raw[j] == samples[i].value.raw[j];
  }

  /**
   * The channel loop of a hardware oscilloscope's acquisition thread: pair
   * and collect every enabled channel's samples, stopping at the first one
   * whose handling raises, and build the snapshot when some channel was
   * enabled.
   */
  method Acquire(samples: seq<Option<Sample>>, full: bool) returns (r: Acquired)
    ensures r == Acquisition(samples, full)
  {
    var rs: seq<Reading> := [];
    var last: Option<Sample> := None;
    var i := 0;
    while i < |samples|
      invariant 0 <= i <= |samples|
      invariant rs == SampleReadings(samples, i) && last == LastSample(samples, i)
      invariant forall k :: 0 <= k < i && samples[k].Some? ==> !SampleRaises(samples[k].value, full)
    {
      if samples[i].Some? {
        var s := samples[i].value;
        if SampleRaises(s, full) {
          return Raised;
        }
        rs := rs + [Reading(i + 1, s.time, s.raw)];
        last := Some(s);
      }
      i := i + 1;
    }
    if last.None? {
      return NoChannel;
    }
    SampleReadingsNonEmpty(samples, full);
    SampleReadingsLast(samples, |samples|);
    LastSampleIsSample(samples, |samples|);
    VoltageRangeSpec(rs);
    var points, voltage := Accumulate(rs);
    var t := last.value.time;
    r := Acquired(Snapshot(points, Range(t[0], t[|t| - 1]), voltage.value));
  }

  /** Every enabled channel of a hardware oscilloscope that shares one time vector. */
  function SharedTime(time: seq<real>, enabled: seq<bool>, data: seq<seq<real>>): (samples: seq<Option<Sample>>)
    requires |data| == |enabled|
    ensures |samples| == |enabled|
    ensures forall i :: 0 <= i < |enabled| ==>
      samples[i] == if enabled[i] then Some(Sample(time, data[i])) else None
  {
    seq(|enabled|, i requires 0 <= i < |enabled| => if enabled[i] then Some(Sample(time, data[i])) else None)
  }

  /**
   * The channel loop followed by the publication of its snapshot, as every
   * hardware oscilloscope's acquisition thread does it.
   */
  method AcquireAndPublish(store: SnapshotStore, samples: seq<Option<Sample>>, full: bool) returns (outcome: StepOutcome)
    modifies store
    ensures var acq := Acquisition(samples, full);
      outcome == (if acq == NoChannel then Skipped else if acq == Raised then Faulted else Published)
      && (outcome == Published ==> store.snap == acq.snap && store.newData)
    ensures outcome != Published ==> store.snap == old(store.snap) && store.newData == old(store.newData)
  {
    var r := Acquire(samples, full);
    if r == NoChannel {
      outcome := Skipped;
    } else if r == Raised {
      outcome := Faulted;
    } else {
      store.Publish(r.snap);
      outcome := Published;
    }
  }

  /**
   * The `probe_gain` setters: a gain of zero becomes 1, anything else is
   * clamped into `[lo, hi]`; with nonzero bounds the stored gain is never
   * zero.
   */
  function ProbeGain(lo: real, hi: real, v: real): (g: real)
    ensures v == 0.0 ==> g == 1.0
    ensures v != 0.0 && lo <= v <= hi ==> g == v
    ensures v != 0.0 && lo <= hi ==> lo <= g <= hi
    ensures lo <= hi && lo != 0.0 && hi != 0.0 ==> g != 0.0
  {
    if v == 0.0 then 1.0 else Clamp(lo, hi, v)
  }
}
