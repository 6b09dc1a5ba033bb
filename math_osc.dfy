/**
 * The simulated "MS-SWAG" oscilloscope whose channels combine two operand
 * channels of other oscilloscopes. A math channel registers a reset
 * callback on each operand channel so that the operand is cleared when its
 * oscilloscope is removed; the channel list grows and shrinks at its end
 * and never drops below one channel.
 */
module MathOsc {
  import opened Common
  import opened Device
  import opened Oscilloscope
  import opened MathOps

  /** Which of the two operands. */
  datatype Slot = First | Second

  /** The bound method `_operand1_reset` / `_operand2_reset` of a math channel. */
  datatype Callback = Reset(target: MathOscChannel, slot: Slot)

  /** An oscilloscope channel whose registry holds math-channel callbacks. */
  type Chan = OscChannel<Callback>

  /** The `{'Device': osc, 'Channel': ch}` pair of a set operand. */
  datatype Operand = Operand(dev: DeviceId, store: SnapshotStore, ch: Chan)

  /** What the device list shows of an oscilloscope: its id, its data and its channels. */
  datatype DeviceView = DeviceView(id: DeviceId, store: SnapshotStore, ch: seq<Chan>)

  /** The operand name `Vendor Name (SerNo) - ChName No`. */
  function Label(dev: DeviceId, ch: ChannelId): (l: string)
    ensures |l| > 1
  {
    dev.vendor + " " + dev.name + " (" + dev.serNo + ") - " + ch.name + " " + IntToString(ch.no)
  }

  /**
   * Whether channel `c` of device `d` may be an operand of the math channel
   * `selfCh` of the oscilloscope `selfOsc`: any oscilloscope channel except
   * that math channel itself.
   */
  predicate Eligible(d: DeviceView, c: Chan, selfOsc: DeviceId, selfCh: ChannelId)
  {
    d.id.devType == "Osc" && (d.id != selfOsc || c.id != selfCh)
  }

  /** The dictionary item offered for channel `c` of device `d`. */
  function Item(d: DeviceView, c: Chan): (string, Option<Operand>)
  {
    (Label(d.id, c.id), Some(Operand(d.id, d.store, c)))
  }

  /** The items offered for the channels `cs` of device `d`, in channel order. */
  function ChannelItems(d: DeviceView, cs: seq<Chan>, selfOsc: DeviceId, selfCh: ChannelId): seq<(string, Option<Operand>)>
  {
    if cs == [] then []
    else (if Eligible(d, cs[0], selfOsc, selfCh) then [Item(d, cs[0])] else []) + ChannelItems(d, cs[1..], selfOsc, selfCh)
  }

  /** The items offered for every device, in device-list order. */
  function Candidates(devs: seq<DeviceView>, selfOsc: DeviceId, selfCh: ChannelId): seq<(string, Option<Operand>)>
  {
    if devs == [] then [] else ChannelItems(devs[0], devs[0].ch, selfOsc, selfCh) + Candidates(devs[1..], selfOsc, selfCh)
  }

  /** `operands_avail`: label to operand, with `'-'` for "no operand" last. */
  function OperandsAvail(devs: seq<DeviceView>, selfOsc: DeviceId, selfCh: ChannelId): Assoc<string, Option<Operand>>
  {
    Put(PutAll([], Candidates(devs, selfOsc, selfCh)), "-", None)
  }

  lemma {:induction false} ChannelItemsSpec(d: DeviceView, cs: seq<Chan>, selfOsc: DeviceId, selfCh: ChannelId)
    ensures forall e :: e in ChannelItems(d, cs, selfOsc, selfCh) <==>
      exists c :: c in cs && Eligible(d, c, selfOsc, selfCh) && e == Item(d, c)
  {
    if cs != [] {
      ChannelItemsSpec(d, cs[1..], selfOsc, selfCh);
      forall e ensures e in ChannelItems(d, cs, selfOsc, selfCh) <==>
        exists c :: c in cs && Eligible(d, c, selfOsc, selfCh) && e == Item(d, c)
      {
        if e in ChannelItems(d, cs, selfOsc, selfCh) && e !in ChannelItems(d, cs[1..], selfOsc, selfCh) {
          assert Eligible(d, cs[0], selfOsc, selfCh) && e == Item(d, cs[0]);
        }
        if exists c :: c in cs && Eligible(d, c, selfOsc, selfCh) && e == Item(d, c) {
          var c :| c in cs && Eligible(d, c, selfOsc, selfCh) && e == Item(d, c);
          if c != cs[0] {
            assert c in cs[1..];
          }
        }
      }
    }
  }

  lemma {:induction false} CandidatesSpec(devs: seq<DeviceView>, selfOsc: DeviceId, selfCh: ChannelId)
    ensures forall e :: e in Candidates(devs, selfOsc, selfCh) <==>
      exists d, c :: d in devs && c in d.ch && Eligible(d, c, selfOsc, selfCh) && e == Item(d, c)
  {
    if devs != [] {
      CandidatesSpec(devs[1..], selfOsc, selfCh);
      ChannelItemsSpec(devs[0], devs[0].ch, selfOsc, selfCh);
      forall e ensures e in Candidates(devs, selfOsc, selfCh) <==>
        exists d, c :: d in devs && c in d.ch && Eligible(d, c, selfOsc, selfCh) && e == Item(d, c)
      {
        if exists d, c :: d in devs && c in d.ch && Eligible(d, c, selfOsc, selfCh) && e == Item(d, c) {
          var d, c :| d in devs && c in d.ch && Eligible(d, c, selfOsc, selfCh) && e == Item(d, c);
          if d != devs[0] {
            assert d in devs[1..];
          }
        }
      }
    }
  }

  lemma OperandsAvailKeys(devs: seq<DeviceView>, selfOsc: DeviceId, selfCh: ChannelId)
    ensures UniqueKeys(OperandsAvail(devs, selfOsc, selfCh))
    ensures Lookup(OperandsAvail(devs, selfOsc, selfCh), "-") == Some(None)
  {
    var r0 := PutAll([], Candidates(devs, selfOsc, selfCh));
    PutAllSpec([], Candidates(devs, selfOsc, selfCh));
    PutSpec(r0, "-", None);
  }

  /**
   * Every item `operands_avail` offers is `'-'` for no operand or an
   * eligible channel under its own label.
   */
  lemma OperandsAvailSound(devs: seq<DeviceView>, selfOsc: DeviceId, selfCh: ChannelId)
    ensures forall e :: e in OperandsAvail(devs, selfOsc, selfCh) ==>
      if e.1.None? then e.0 == "-"
      else exists d, c :: d in devs && c in d.ch && Eligible(d, c, selfOsc, selfCh) && e == Item(d, c)
  {
    var items := Candidates(devs, selfOsc, selfCh);
    CandidatesSpec(devs, selfOsc, selfCh);
    var r0 := PutAll([], items);
    PutAllSpec([], items);
    PutItems(r0, "-", None);
  }

  /** Every channel of every oscilloscope other than the math channel itself is offered. */
  lemma OperandsAvailComplete(devs: seq<DeviceView>, selfOsc: DeviceId, selfCh: ChannelId)
    ensures forall d, c :: d in devs && c in d.ch && Eligible(d, c, selfOsc, selfCh) ==>
      Lookup(OperandsAvail(devs, selfOsc, selfCh), Label(d.id, c.id)).Some?
  {
    var items := Candidates(devs, selfOsc, selfCh);
    CandidatesSpec(devs, selfOsc, selfCh);
    var r0 := PutAll([], items);
    PutAllSpec([], items);
    PutSpec(r0, "-", None);
    forall d, c | d in devs && c in d.ch && Eligible(d, c, selfOsc, selfCh)
      ensures Lookup(OperandsAvail(devs, selfOsc, selfCh), Label(d.id, c.id)).Some?
    {
      assert Item(d, c) in items;
      var i :| 0 <= i < |items| && items[i] == Item(d, c);
      assert Lookup(r0, items[i].0).Some?;
    }
  }

  /**
   * Looking a name up in `operands_avail`: `'-'` gives "no operand", any
   * other hit is an eligible channel whose label is that name.
   */
  lemma OperandFound(devs: seq<DeviceView>, selfOsc: DeviceId, selfCh: ChannelId, name: string)
    ensures name == "-" ==> Lookup(OperandsAvail(devs, selfOsc, selfCh), name) == Some(None)
    ensures var f := Lookup(OperandsAvail(devs, selfOsc, selfCh), name);
      f.Some? && f.value.Some? ==>
        exists d, c :: d in devs && c in d.ch && Eligible(d, c, selfOsc, selfCh) && (name, f.value) == Item(d, c)
    ensures var f := Lookup(OperandsAvail(devs, selfOsc, selfCh), name);
      f.Some? && f.value.Some? ==> f.value.value.ch in ChanSet(devs) && Label(f.value.value.dev, f.value.value.ch.id) == name
  {
    OperandsAvailKeys(devs, selfOsc, selfCh);
    OperandsAvailSound(devs, selfOsc, selfCh);
    var r := OperandsAvail(devs, selfOsc, selfCh);
    var f := Lookup(r, name);
    if f.Some? && f.value.Some? {
      assert (name, f.value) in r;
    }
  }

  /** The channels of the listed devices. */
  function ChanSet(devs: seq<DeviceView>): set<Chan>
  {
    set d, c | d in devs && c in d.ch :: c
  }

  /** The channel of an operand, if any. */
  function ChanOf(o: Option<Operand>): set<Chan>
  {
    if o.Some? then {o.value.ch} else {}
  }

  /** The operand getter: `'-'` when unset, the label otherwise. */
  function OperandLabel(o: Option<Operand>): (l: string)
    ensures l == "-" <==> o.None?
  {
    if o.None? then "-" else Label(o.value.dev, o.value.ch.id)
  }

  /** Reading back an operand set from any name `operands_avail` offers gives that name. */
  lemma OperandLabelRoundTrip(devs: seq<DeviceView>, selfOsc: DeviceId, selfCh: ChannelId, name: string)
    requires Lookup(OperandsAvail(devs, selfOsc, selfCh), name).Some?
    ensures OperandLabel(Lookup(OperandsAvail(devs, selfOsc, selfCh), name).value) == name
  {
    OperandFound(devs, selfOsc, selfCh, name);
    OperandsAvailSound(devs, selfOsc, selfCh);
    var r := OperandsAvail(devs, selfOsc, selfCh);
    assert (name, Lookup(r, name).value) in r;
  }

  class MathOscChannel {
    const oscId: DeviceId
    /** The channel id, enabled flag and callback registry of the channel. */
    const chan: Chan
    var operand1: Option<Operand>
    var operand2: Option<Operand>
    var shift: real
    var op: Operator

    constructor (name: string, no: int, oscId: DeviceId)
      ensures this.oscId == oscId && fresh(chan)
      ensures chan.id == ChannelId(name, no) && !chan.enabled && chan.wasRemoved == [] && chan.Valid()
      ensures operand1 == None && operand2 == None
      ensures shift == 0.0 && op == Add
    {
      this.oscId := oscId;
      chan := new OscChannel(name, no);
      operand1 := None;
      operand2 := None;
      shift := 0.0;
      op := Add;
    }

    function Operand(slot: Slot): Option<Operand>
      reads this
    {
      if slot == First then operand1 else operand2
    }

    /** The operator getter: the symbol of the current operator. */
    function OperatorSymbol(): (s: string)
      reads this
      ensures s in OperatorsAvail() && FromSymbol(s) == Some(op)
    {
      Symbol(op)
    }

    /** The operator setter; an unknown symbol raises KeyError and changes nothing. */
    method SetOperator(sym: string) returns (ok: bool)
      modifies this`op
      ensures ok <==> sym in OperatorsAvail()
      ensures ok ==> OperatorSymbol() == sym
      ensures !ok ==> op == old(op)
    {
      var o := FromSymbol(sym);
      ok := o.Some?;
      if ok {
        op := o.value;
        SymbolRoundTrip(sym, op);
      }
    }

    method SetShift(value: real)
      modifies this`shift
      ensures shift == value
    {
      shift := value;
    }

    /** The `is_enabled` setter: only the local flag. */
    method SetEnabled(value: bool)
      modifies chan
      ensures chan.enabled == value && chan.wasRemoved == old(chan.wasRemoved)
    {
      chan.enabled := value;
    }

    /** `_operand1_reset` / `_operand2_reset`. */
    method ResetOperand(slot: Slot)
      modifies this`operand1, this`operand2
      ensures Operand(slot) == None
      ensures slot == First ==> operand2 == old(operand2)
      ensures slot == Second ==> operand1 == old(operand1)
    {
      if slot == First {
        operand1 := None;
      } else {
        operand2 := None;
      }
    }

    /**
     * The body of the operand setter once the operand is known: withdraw
     * this channel's callback from the previous operand channel, bind the
     * new operand and register the reset callback on its channel.
     */
    method Rebind(slot: Slot, operand: Option<Operand>)
      requires Operand(slot).Some? ==> Operand(slot).value.ch.Valid()
      requires operand.Some? ==> operand.value.ch.Valid()
      modifies this`operand1, this`operand2, ChanOf(Operand(slot)), ChanOf(operand)
      ensures Operand(slot) == operand
      ensures slot == First ==> operand2 == old(operand2)
      ensures slot == Second ==> operand1 == old(operand1)
      ensures operand.Some? ==> Lookup(operand.value.ch.wasRemoved, KeyOf(oscId, chan.id)) == Some(Reset(this, slot))
      ensures old(Operand(slot)).Some? && ChanOf(operand) != ChanOf(old(Operand(slot))) ==>
        Lookup(old(Operand(slot)).value.ch.wasRemoved, KeyOf(oscId, chan.id)) == None
      ensures forall c :: c in ChanOf(old(Operand(slot))) + ChanOf(operand) ==>
        c.Valid() && c.enabled == old(c.enabled)
        && forall k :: k != KeyOf(oscId, chan.id) ==> Lookup(c.wasRemoved, k) == Lookup(old(c.wasRemoved), k)
    {
      var previous := Operand(slot);
      if previous.Some? {
        previous.value.ch.SetDeletionCallback(oscId, chan.id, None);
      }
      if slot == First {
        operand1 := operand;
      } else {
        operand2 := operand;
      }
      if operand.Some? {
        operand.value.ch.SetDeletionCallback(oscId, chan.id, Some(Reset(this, slot)));
      }
    }

    /**
     * The operand setter: look the name up in `operands_avail` (an unknown
     * name raises KeyError and changes nothing), then rebind the operand.
     */
    method SetOperand(slot: Slot, name: string, devs: seq<DeviceView>) returns (ok: bool)
      requires Operand(slot).Some? ==> Operand(slot).value.ch.Valid()
      requires forall c :: c in ChanSet(devs) ==> c.Valid()
      modifies this`operand1, this`operand2, ChanOf(Operand(slot)), ChanSet(devs)
      ensures ok == Lookup(OperandsAvail(devs, oscId, chan.id), name).Some?
      ensures ok ==> Operand(slot) == Lookup(OperandsAvail(devs, oscId, chan.id), name).value
      ensures ok ==> OperandLabel(Operand(slot)) == name
      ensures ok && Operand(slot).Some? ==> Operand(slot).value.ch in ChanSet(devs)
      ensures !ok ==> Operand(slot) == old(Operand(slot))
      ensures slot == First ==> operand2 == old(operand2)
      ensures slot == Second ==> operand1 == old(operand1)
      ensures !ok ==> unchanged(ChanSet(devs)) && unchanged(ChanOf(old(Operand(slot))))
      ensures ok && Operand(slot).Some? ==>
        Lookup(Operand(slot).value.ch.wasRemoved, KeyOf(oscId, chan.id)) == Some(Reset(this, slot))
      ensures ok && old(Operand(slot)).Some? && ChanOf(Operand(slot)) != ChanOf(old(Operand(slot))) ==>
        Lookup(old(Operand(slot)).value.ch.wasRemoved, KeyOf(oscId, chan.id)) == None
      ensures forall c :: c in ChanOf(old(Operand(slot))) + ChanOf(Operand(slot)) ==>
        c.Valid() && c.enabled == old(c.enabled)
        && forall k :: k != KeyOf(oscId, chan.id) ==> Lookup(c.wasRemoved, k) == Lookup(old(c.wasRemoved), k)
      ensures forall c :: c in ChanSet(devs) && c !in ChanOf(old(Operand(slot))) + ChanOf(Operand(slot)) ==>
        c.wasRemoved == old(c.wasRemoved) && c.enabled == old(c.enabled)
    {
      OperandFound(devs, oscId, chan.id, name);
      var found := Lookup(OperandsAvail(devs, oscId, chan.id), name);
      if found.None? {
        return false;
      }
      OperandLabelRoundTrip(devs, oscId, chan.id, name);
      ok := true;
      Rebind(slot, found.value);
    }

    /** The snapshot objects this channel's operands read. */
    function OperandStores(): set<object>
      reads this
    {
      (if operand1.Some? then {operand1.value.store} else {})
      + (if operand2.Some? then {operand2.value.store} else {})
    }

    /**
     * `retrieve`: no data while an operand is unset or either operand's
     * oscilloscope has no points for the operand channel (KeyError);
     * otherwise the combination of both operands.
     */
    function Retrieve(): (r: MathResult)
      reads this, OperandStores()
      ensures operand1.None? || operand2.None? ==> r == NoData
      ensures operand1.Some? && operand2.Some? ==>
        r == Combine(Graph(operand1.value), Graph(operand2.value), shift, op)
    {
      if operand1.None? || operand2.None? then NoData
      else Combine(Graph(operand1.value), Graph(operand2.value), shift, op)
    }
  }

  /** The normal points the operand's oscilloscope publishes for the operand channel, if any. */
  function Graph(o: Operand): Option<seq<Point>>
    reads o.store
  {
    if o.ch.id.no in o.store.snap.points then Some(o.store.snap.points[o.ch.id.no]) else None
  }

  /** Run a list of callbacks: each clears the operand it names. */
  method RunCallbacks(cbs: seq<Callback>)
    modifies (set cb | cb in cbs :: cb.target)`operand1, (set cb | cb in cbs :: cb.target)`operand2
    ensures forall cb :: cb in cbs ==> cb.target.Operand(cb.slot) == None
    ensures forall cb :: cb in cbs ==>
      (cb.target.operand1 == None || cb.target.operand1 == old(cb.target.operand1))
      && (cb.target.operand2 == None || cb.target.operand2 == old(cb.target.operand2))
  {
    var j := 0;
    while j < |cbs|
      invariant 0 <= j <= |cbs|
      invariant forall k :: 0 <= k < j ==> cbs[k].target.Operand(cbs[k].slot) == None
      invariant forall cb :: cb in cbs ==>
        (cb.target.operand1 == None || cb.target.operand1 == old(cb.target.operand1))
        && (cb.target.operand2 == None || cb.target.operand2 == old(cb.target.operand2))
    {
      cbs[j].target.ResetOperand(cbs[j].slot);
      j := j + 1;
    }
  }

  // ---------------------------------------------------------------------
  // One iteration of the acquisition thread

  /** A channel's `retrieve` result, or None when the channel is disabled. */
  type ChannelResult = Option<MathResult>

  /** The readings of the first `n` channels that produced data, numbered by position + 1. */
  function ReadingsUpTo(results: seq<ChannelResult>, n: nat): seq<Reading>
    requires n <= |results|
  {
    if n == 0 then []
    else
      var r := results[n - 1];
      ReadingsUpTo(results, n - 1) + (if r.Some? && r.value.Data? then [Reading(n, r.value.time, r.value.voltage)] else [])
  }

  function Readings(results: seq<ChannelResult>): seq<Reading>
  {
    ReadingsUpTo(results, |results|)
  }

  /**
   * The time vector the loop holds after `n` channels: that of the last
   * enabled one, None if it had no data or none was enabled.
   */
  function LastTimeUpTo(results: seq<ChannelResult>, n: nat): Option<seq<real>>
    requires n <= |results|
  {
    if n == 0 then None
    else
      var r := results[n - 1];
      if r.None? then LastTimeUpTo(results, n - 1)
      else if r.value.Data? then Some(r.value.time)
      else None
  }

  function LastTime(results: seq<ChannelResult>): Option<seq<real>>
  {
    LastTimeUpTo(results, |results|)
  }

  /**
   * Whether handling the channel raises: numpy refuses to interpolate over
   * an empty operand graph, and a single time point gives no FFT share
   * values, on which `min` raises.
   */
  predicate Raises(r: ChannelResult)
  {
    r.Some? && (r.value.Fault? || (r.value.Data? && FftPointCount(|r.value.time|) == Some(0)))
  }

  predicate AnyRaises(results: seq<ChannelResult>)
  {
    exists i :: 0 <= i < |results| && Raises(results[i])
  }

  /** Data results pair every time with a voltage and are never empty. */
  ghost predicate Sane(results: seq<ChannelResult>)
  {
    forall i :: 0 <= i < |results| && results[i].Some? && results[i].value.Data? ==>
      |results[i].value.time| == |results[i].value.voltage| && results[i].value.time != []
  }

  /** The channel numbers that produced data. */
  ghost function DataNos(results: seq<ChannelResult>): set<int>
  {
    set i | 0 <= i < |results| && results[i].Some? && results[i].value.Data? :: i + 1
  }

  lemma {:induction false} ReadingsNos(results: seq<ChannelResult>, n: nat)
    requires n <= |results|
    ensures forall i :: 0 <= i < |ReadingsUpTo(results, n)| ==> 1 <= ReadingsUpTo(results, n)[i].no <= n
    ensures forall i, j :: 0 <= i < j < |ReadingsUpTo(results, n)| ==>
      ReadingsUpTo(results, n)[i].no < ReadingsUpTo(results, n)[j].no
  {
    if n > 0 {
      ReadingsNos(results, n - 1);
    }
  }

  lemma {:induction false} ReadingsMembers(results: seq<ChannelResult>, n: nat)
    requires n <= |results|
    ensures forall rd :: rd in ReadingsUpTo(results, n) <==>
      exists i :: 0 <= i < n && results[i].Some? && results[i].value.Data?
        && rd == Reading(i + 1, results[i].value.time, results[i].value.voltage)
  {
    if n > 0 {
      ReadingsMembers(results, n - 1);
    }
  }

  lemma ReadingsNonEmpty(results: seq<ChannelResult>)
    requires Sane(results)
    ensures NonEmptyRaw(Readings(results))
  {
    var rs := Readings(results);
    ReadingsMembers(results, |results|);
    forall i | 0 <= i < |rs| ensures rs[i].raw != [] {
      assert rs[i] in rs;
    }
  }

  lemma {:induction false} ReadingsLast(results: seq<ChannelResult>, n: nat)
    requires n <= |results| && Sane(results) && LastTimeUpTo(results, n).Some?
    ensures ReadingsUpTo(results, n) != []
    ensures ReadingsUpTo(results, n)[|ReadingsUpTo(results, n)| - 1].time == LastTimeUpTo(results, n).value != []
  {
    if results[n - 1].None? {
      ReadingsLast(results, n - 1);
    }
  }

  /** The snapshot an iteration publishes. */
  function PublishedSnapshot(results: seq<ChannelResult>): Snapshot
    requires Sane(results) && LastTime(results).Some?
  {
    ReadingsNonEmpty(results);
    ReadingsLast(results, |results|);
    var rs := Readings(results);
    var t := LastTime(results).value;
    VoltageRangeSpec(rs);
    Snapshot(Gather(rs), Range(t[0], t[|t| - 1]), VoltageRange(rs).value)
  }

  lemma GatherReadingsKeys(results: seq<ChannelResult>)
    ensures Gather(Readings(results)).Keys == DataNos(results)
  {
    var rs := Readings(results);
    ReadingsMembers(results, |results|);
    GatherKeys(rs);
    forall n | n in DataNos(results) ensures n in Gather(rs).Keys {
      var i :| 0 <= i < |results| && results[i].Some? && results[i].value.Data? && n == i + 1;
      assert Reading(i + 1, results[i].value.time, results[i].value.voltage) in rs;
    }
    forall n | n in Gather(rs).Keys ensures n in DataNos(results) {
      var k :| 0 <= k < |rs| && rs[k].no == n;
      assert rs[k] in rs;
    }
  }

  lemma GatherReadingsPoints(results: seq<ChannelResult>, i: int)
    requires 0 <= i < |results| && results[i].Some? && results[i].value.Data?
    ensures i + 1 in Gather(Readings(results))
    ensures Gather(Readings(results))[i + 1] == Zip(results[i].value.time, results[i].value.voltage)
  {
    var rs := Readings(results);
    ReadingsMembers(results, |results|);
    ReadingsNos(results, |results|);
    var rd := Reading(i + 1, results[i].value.time, results[i].value.voltage);
    assert rd in rs;
    var k :| 0 <= k < |rs| && rs[k] == rd;
    GatherValue(rs, k);
  }

  lemma ReadingsVoltageBound(results: seq<ChannelResult>, i: int, j: int)
    requires Sane(results)
    requires 0 <= i < |results| && results[i].Some? && results[i].value.Data?
    requires 0 <= j < |results[i].value.voltage|
    ensures NonEmptyRaw(Readings(results))
    ensures VoltageRange(Readings(results)).Some?
    ensures VoltageRange(Readings(results)).value.lo <= results[i].value.voltage[j] <= VoltageRange(Readings(results)).value.hi
  {
    var rs := Readings(results);
    ReadingsNonEmpty(results);
    ReadingsMembers(results, |results|);
    VoltageRangeSpec(rs);
    var rd := Reading(i + 1, results[i].value.time, results[i].value.voltage);
    assert rd in rs;
    var k :| 0 <= k < |rs| && rs[k] == rd;
    assert rs[k].raw[j] == results[i].value.voltage[j];
  }

  /**
   * The published snapshot holds one entry per channel that produced data,
   * under its number, with that channel's points; the time range spans the
   * last enabled channel's time vector and the voltage range bounds every
   * sample of every channel.
   */
  lemma PublishedSnapshotSpec(results: seq<ChannelResult>)
    requires Sane(results) && LastTime(results).Some?
    ensures PublishedSnapshot(results).points.Keys == DataNos(results)
    ensures forall i :: 0 <= i < |results| && results[i].Some? && results[i].value.Data? ==>
      PublishedSnapshot(results).points[i + 1] == Zip(results[i].value.time, results[i].value.voltage)
    ensures LastTime(results).value != []
    ensures var t := LastTime(results).value;
      PublishedSnapshot(results).time == Range(t[0], t[|t| - 1])
    ensures forall i, j :: (0 <= i < |results| && results[i].Some? && results[i].value.Data? && 0 <= j < |results[i].value.voltage|) ==>
        (PublishedSnapshot(results).voltage.lo <= results[i].value.voltage[j] <= PublishedSnapshot(results).voltage.hi)
  {
    ReadingsLast(results, |results|);
    GatherReadingsKeys(results);
    forall i | 0 <= i < |results| && results[i].Some? && results[i].value.Data?
      ensures PublishedSnapshot(results).points[i + 1] == Zip(results[i].value.time, results[i].value.voltage)
    {
      GatherReadingsPoints(results, i);
    }
    forall i, j | 0 <= i < |results| && results[i].Some? && results[i].value.Data? &&
      0 <= j < |results[i].value.voltage|
      ensures PublishedSnapshot(results).voltage.lo <= results[i].value.voltage[j] <= PublishedSnapshot(results).voltage.hi
    {
      ReadingsVoltageBound(results, i, j);
    }
  }

  /**
   * The channel loop of `_retrieve_new_data` over the channels' `retrieve`
   * results (None for a disabled channel): collect the readings of the
   * channels that deliver data and the time vector of the last enabled
   * one, stopping at the first channel whose handling raises.
   */
  method Collect(results: seq<ChannelResult>) returns (raised: bool, rs: seq<Reading>, time: Option<seq<real>>)
    ensures raised == AnyRaises(results)
    ensures !raised ==> rs == Readings(results) && time == LastTime(results)
  {
    rs := [];
    time := None;
    var i := 0;
    while i < |results|
      invariant 0 <= i <= |results|
      invariant rs == ReadingsUpTo(results, i) && time == LastTimeUpTo(results, i)
      invariant forall k :: 0 <= k < i ==> !Raises(results[k])
    {
      var r := results[i];
      if r.Some? {
        if Raises(r) {
          return true, rs, time;
        }
        if r.value.Data? {
          rs := rs + [Reading(i + 1, r.value.time, r.value.voltage)];
          time := Some(r.value.time);
        } else {
          time := None;
        }
      }
      i := i + 1;
    }
    raised := false;
  }

  /** The step outcome for the given state and channel results. */
  function Outcome(running: bool, results: seq<ChannelResult>): StepOutcome
  {
    if !running then Stopped
    else if AnyRaises(results) then Faulted
    else if LastTime(results).None? then Skipped
    else Published
  }

  class MathOsc {
    const id: DeviceId
    const store: SnapshotStore
    var ch: seq<MathOscChannel>
    var running: bool

    ghost predicate Valid()
      reads this
    {
      |ch| >= 1
      && forall i :: 0 <= i < |ch| ==> ch[i].oscId == id && ch[i].chan.id == ChannelId("Channel", i + 1)
    }

    function Chans(): set<object>
      reads this
    {
      set i | 0 <= i < |ch| :: ch[i].chan
    }

    predicate SomeEnabled()
      reads this, Chans()
    {
      exists i :: 0 <= i < |ch| && ch[i].chan.enabled
    }

    constructor (name: string, serNo: string)
      ensures Valid() && fresh(store) && fresh(ch[0]) && fresh(ch[0].chan)
      ensures id == DeviceId("MS-SWAG", name, serNo, "Osc")
      ensures |ch| == 1 && !ch[0].chan.enabled && ch[0].operand1 == None && ch[0].operand2 == None
      ensures !running && store.snap == InitialSnapshot() && !store.newData
    {
      id := DeviceId("MS-SWAG", name, serNo, "Osc");
      var c := new MathOscChannel("Channel", 1, DeviceId("MS-SWAG", name, serNo, "Osc"));
      ch := [c];
      running := false;
      store := new SnapshotStore();
    }

    /** `start`: succeeds only when stopped and some channel is enabled. */
    method Start() returns (success: bool)
      modifies this`running
      ensures success <==> !old(running) && SomeEnabled()
      ensures running == (old(running) || success)
    {
      success := false;
      if !running {
        var i := 0;
        var allDisabled := true;
        while i < |ch|
          invariant 0 <= i <= |ch|
          invariant allDisabled && forall k :: 0 <= k < i ==> !ch[k].chan.enabled
        {
          if ch[i].chan.enabled {
            allDisabled := false;
            break;
          }
          i := i + 1;
        }
        if !allDisabled {
          running := true;
          success := true;
          assert ch[i].chan.enabled;
        }
      }
    }

    /** `stop`: succeeds only when running. */
    method Stop() returns (success: bool)
      modifies this`running
      ensures success == old(running) && !running
    {
      success := running;
      running := false;
    }

    /** `add_ch`: append a channel numbered one more than the channel count. */
    method AddCh() returns (added: ChannelId)
      requires Valid()
      modifies this`ch
      ensures Valid() && |ch| == |old(ch)| + 1 && ch[..|old(ch)|] == old(ch)
      ensures added == ChannelId("Channel", |old(ch)| + 1) == ch[|ch| - 1].chan.id
      ensures fresh(ch[|ch| - 1]) && fresh(ch[|ch| - 1].chan)
      ensures !ch[|ch| - 1].chan.enabled && ch[|ch| - 1].chan.wasRemoved == []
      ensures ch[|ch| - 1].operand1 == None && ch[|ch| - 1].operand2 == None
    {
      var c := new MathOscChannel("Channel", |ch| + 1, id);
      ch := ch + [c];
      added := c.chan.id;
    }

    /** The callbacks registered on the last channel. */
    function LastCallbacks(): seq<Callback>
      requires |ch| >= 1
      reads this, ch[|ch| - 1].chan
    {
      ch[|ch| - 1].chan.DeletionCallbacks()
    }

    /**
     * `remove_ch`: when stopped and with more than one channel, drop the
     * last channel and run its deletion callbacks; otherwise change nothing.
     */
    method RemoveCh() returns (removed: Option<ChannelId>)
      requires Valid()
      modifies this`ch
      modifies (set cb | cb in LastCallbacks() :: cb.target)`operand1
      modifies (set cb | cb in LastCallbacks() :: cb.target)`operand2
      ensures Valid()
      ensures removed.Some? <==> !running && |old(ch)| > 1
      ensures removed.Some? ==>
        && ch == old(ch)[..|old(ch)| - 1]
        && removed.value == old(ch)[|old(ch)| - 1].chan.id
        && (forall cb :: cb in old(LastCallbacks()) ==> cb.target.Operand(cb.slot) == None)
        && forall cb :: cb in old(LastCallbacks()) ==>
             (cb.target.operand1 == None || cb.target.operand1 == old(cb.target.operand1))
             && (cb.target.operand2 == None || cb.target.operand2 == old(cb.target.operand2))
      ensures removed.None? ==> ch == old(ch)
      ensures removed.None? ==> forall cb :: cb in old(LastCallbacks()) ==>
        cb.target.operand1 == old(cb.target.operand1) && cb.target.operand2 == old(cb.target.operand2)
    {
      removed := None;
      if !running && |ch| > 1 {
        var last := ch[|ch| - 1];
        ch := ch[..|ch| - 1];
        RunCallbacks(last.chan.DeletionCallbacks());
        removed := Some(last.chan.id);
      }
    }

    function ChanSeq(): (cs: seq<Chan>)
      reads this
      ensures |cs| == |ch| && forall i :: 0 <= i < |ch| ==> cs[i] == ch[i].chan
    {
      seq(|ch|, i requires 0 <= i < |ch| reads this => ch[i].chan)
    }

    /** The callbacks registered on every channel, channel by channel. */
    function AllResets(): seq<Callback>
      reads this, Chans()
    {
      AllCallbacks(ChanSeq())
    }

    /** `init_deletion`: run every channel's callbacks; `_term_deletion` does nothing. */
    method InitDeletion() returns (calls: seq<Callback>)
      modifies (set cb | cb in AllResets() :: cb.target)`operand1
      modifies (set cb | cb in AllResets() :: cb.target)`operand2
      ensures calls == old(AllResets())
      ensures forall cb :: cb in calls ==> cb.target.Operand(cb.slot) == None
      ensures forall i, cb :: 0 <= i < |ch| && cb in old(ch[i].chan.DeletionCallbacks()) ==>
        (cb.target.operand1 == None || cb.target.operand1 == old(cb.target.operand1))
        && (cb.target.operand2 == None || cb.target.operand2 == old(cb.target.operand2))
    {
      calls := Oscilloscope.InitDeletion(ChanSeq());
      RunCallbacks(calls);
    }

    function Members(): set<object>
      reads this
    {
      set i | 0 <= i < |ch| :: ch[i]
    }

    function Stores(): set<object>
      reads this, Members()
    {
      set i, s | 0 <= i < |ch| && s in ch[i].OperandStores() :: s
    }

    /** The `retrieve` result of every channel (None for a disabled one). */
    function Results(): (rs: seq<ChannelResult>)
      reads this, Chans(), Members(), Stores()
      ensures |rs| == |ch|
    {
      seq(|ch|, i requires 0 <= i < |ch| reads this, Chans(), Members(), Stores() =>
        if ch[i].chan.enabled then Some(ch[i].Retrieve()) else None)
    }

    /** A data result pairs every time with a voltage and is never empty. */
    lemma ResultsSane()
      ensures Sane(Results())
    {
      var rs := Results();
      forall i | 0 <= i < |rs| && rs[i].Some? && rs[i].value.Data?
        ensures |rs[i].value.time| == |rs[i].value.voltage| && rs[i].value.time != []
      {
        assert rs[i] == Some(ch[i].Retrieve());
      }
    }

    /**
     * One iteration of `_retrieve_new_data`. While stopped nothing happens.
     * While running, unless a channel raises or the last enabled channel
     * delivered no data, the gathered points are published with the time
     * range of that channel and the voltage range over all channels.
     */
    method Step() returns (outcome: StepOutcome)
      modifies store
      ensures outcome == Outcome(old(running), old(Results()))
      ensures outcome != Published ==> store.snap == old(store.snap) && store.newData == old(store.newData)
      ensures outcome == Published ==>
        LastTime(old(Results())).Some? && store.snap == PublishedSnapshot(old(Results())) && store.newData
    {
      if !running {
        return Stopped;
      }
      var results := Results();
      var raised, rs, time := Collect(results);
      ResultsSane();
      if raised {
        return Faulted;
      }
      if time.None? {
        return Skipped;
      }
      ReadingsNonEmpty(results);
      ReadingsLast(results, |results|);
      VoltageRangeSpec(rs);
      var points, voltage := Accumulate(rs);
      var t := time.value;
      store.Publish(Snapshot(points, Range(t[0], t[|t| - 1]), voltage.value));
      outcome := Published;
    }
  }
}
