/**
 * The bookkeeping between the graphical front end and the devices: which
 * oscilloscope channels are shown on the charts, which device and channel
 * are selected, how far the chart axes reach, and how a device id becomes
 * a file name. Chart series, colours, signals to the front end and the
 * worker threads are not modelled; a request to stop a device completely
 * is recorded in `fullStops`.
 */
module Connector {
  import opened Common
  import opened Device
  import opened DeviceManager

  // ---------------------------------------------------------------------
  // Chart axis limits

  /** How far, relative to its size, a new extreme may stay inside an axis limit before the limit moves in. */
  const AxisRangeTolerance: real := 0.1

  datatype AxisRange = AxisRange(lo: real, hi: real)

  /** Every axis starts out as `[0, 1]`. */
  const InitialRange: AxisRange := AxisRange(0.0, 1.0)

  /** The factor `(-x) / (-|x|)` of a nonzero limit: its sign. */
  function SignOf(x: real): (s: real)
    requires x != 0.0
    ensures x > 0.0 ==> s == 1.0
    ensures x < 0.0 ==> s == -1.0
  {
    SignQuotient(x);
    (-1.0 * x) / (-1.0 * Abs(x))
  }

  lemma SignQuotient(x: real)
    requires x != 0.0
    ensures (-1.0 * x) / (-1.0 * Abs(x)) == if x > 0.0 then 1.0 else -1.0
  {
    var d := -1.0 * Abs(x);
    var q := (-1.0 * x) / d;
    assert q * d == -1.0 * x;
    if x > 0.0 {
      assert d == -x;
      assert (q - 1.0) * d == 0.0;
    } else {
      assert d == x;
      assert (q + 1.0) * d == 0.0;
    }
  }

  /**
   * The lower limit after the data's minimum became `v`. The limit never
   * cuts off data; a nonzero limit stays where it is exactly while the
   * minimum lies within a tenth of the limit's size above it, and a zero
   * limit follows the minimum.
   */
  function NewLower(lo: real, v: real): (r: real)
    ensures r <= v
    ensures lo != 0.0 ==> (r == lo <==> lo <= v <= lo + AxisRangeTolerance * Abs(lo))
    ensures lo == 0.0 ==> r == v
  {
    if lo != 0.0 then
      var bound := lo * (1.0 + AxisRangeTolerance * SignOf(lo));
      assert bound == lo + AxisRangeTolerance * Abs(lo);
      if v > bound || v < lo then v else lo
    else if v != lo then v
    else lo
  }

  /**
   * The upper limit after the data's maximum became `v`: never below the
   * maximum, kept exactly while the maximum lies within a tenth of the
   * limit's size below it, and following the maximum when zero.
   */
  function NewUpper(hi: real, v: real): (r: real)
    ensures r >= v
    ensures hi != 0.0 ==> (r == hi <==> hi - AxisRangeTolerance * Abs(hi) <= v <= hi)
    ensures hi == 0.0 ==> r == v
  {
    if hi != 0.0 then
      var bound := hi * (1.0 - AxisRangeTolerance * SignOf(hi));
      assert bound == hi - AxisRangeTolerance * Abs(hi);
      if v < bound || v > hi then v else hi
    else if v != hi then v
    else hi
  }

  /** Both limits of one axis, moved for the data's new extremes. */
  function Adjusted(r: AxisRange, vMin: real, vMax: real): (n: AxisRange)
    ensures n.lo <= vMin && vMax <= n.hi
  {
    AxisRange(NewLower(r.lo, vMin), NewUpper(r.hi, vMax))
  }

  /** Once an axis covers the data with little slack, the same extremes leave it where it is. */
  lemma AdjustedSettles(r: AxisRange, vMin: real, vMax: real)
    requires vMin != 0.0 && vMax != 0.0
    ensures Adjusted(Adjusted(r, vMin, vMax), vMin, vMax) == Adjusted(r, vMin, vMax)
  {
    var n := Adjusted(r, vMin, vMax);
    assert n.lo == r.lo || n.lo == vMin;
    assert n.hi == r.hi || n.hi == vMax;
    if n.lo == vMin {
      assert vMin <= vMin <= vMin + AxisRangeTolerance * Abs(vMin);
    }
    if n.hi == vMax {
      assert vMax - AxisRangeTolerance * Abs(vMax) <= vMax <= vMax;
    }
  }

  // ---------------------------------------------------------------------
  // File names

  /** Python's `isalnum`, restricted to ASCII letters and digits. */
  predicate IsAlnum(c: char)
  {
    'a' <= c <= 'z' || 'A' <= c <= 'Z' || '0' <= c <= '9'
  }

  /** The characters besides letters and digits a file name may contain. */
  const AllowedFileNameChars: set<char> := {' ', '&', '(', ')', '=', '+', '~', '#', ',', ';', '-', '_'}

  predicate FileNameChar(c: char)
  {
    IsAlnum(c) || c in AllowedFileNameChars
  }

  /** A text with every character that may not appear in a file name replaced by '_'. */
  function Sanitized(raw: string): (s: string)
    ensures |s| == |raw|
  {
    seq(|raw|, i requires 0 <= i < |raw| => if FileNameChar(raw[i]) then raw[i] else '_')
  }

  /** Sanitising yields a file name, keeps every allowed character in place and replaces only the others. */
  lemma SanitizedSpec(raw: string)
    ensures forall i :: 0 <= i < |raw| ==> FileNameChar(Sanitized(raw)[i])
    ensures forall i :: 0 <= i < |raw| ==> (Sanitized(raw)[i] == raw[i] <==> FileNameChar(raw[i]))
  {
    assert FileNameChar('_');
  }

  /** A text that is already a file name is left as it is, so sanitising twice changes nothing more. */
  lemma SanitizedIdempotent(raw: string)
    ensures Sanitized(Sanitized(raw)) == Sanitized(raw)
  {
    SanitizedSpec(raw);
    var s := Sanitized(raw);
    assert forall i :: 0 <= i < |s| ==> Sanitized(s)[i] == s[i];
  }

  /** The text `Vendor_Name_SerNo` the data of a device is saved under. */
  function RawFileId(id: DeviceId): string
  {
    id.vendor + "_" + id.name + "_" + id.serNo
  }

  /** The sanitising loop, one character after the other. */
  method FileId(id: DeviceId) returns (s: string)
    ensures s == Sanitized(RawFileId(id))
    ensures |s| == |RawFileId(id)| && forall i :: 0 <= i < |s| ==> FileNameChar(s[i])
  {
    var raw := RawFileId(id);
    s := "";
    for i := 0 to |raw|
      invariant |s| == i
      invariant forall k :: 0 <= k < i ==> s[k] == Sanitized(raw)[k]
    {
      if IsAlnum(raw[i]) || raw[i] in AllowedFileNameChars {
        s := s + [raw[i]];
      } else {
        s := s + ['_'];
      }
    }
    SanitizedSpec(raw);
  }

  // ---------------------------------------------------------------------
  // Arguments from the front end

  /**
   * The value an `access_*_property` call hands on to its callback: none at
   * all when the front end gave none, Python's `None` for 'NaN' and the
   * empty string, and the text itself otherwise.
   */
  function CallbackValue(value: Option<string>): (a: Option<Option<string>>)
    ensures a.None? <==> value.None?
    ensures a == Some(None) <==> value == Some("NaN") || value == Some("")
    ensures a.Some? && a.value.Some? ==> a.value == value
  {
    match value
    case None => None
    case Some(v) => if v == "NaN" || v == "" then Some(None) else Some(Some(v))
  }

  // ---------------------------------------------------------------------
  // Lists of channel numbers

  /** The numbers 1 to n, in order. */
  function Numbers(n: nat): (s: seq<int>)
    ensures |s| == n && forall i :: 0 <= i < n ==> s[i] == i + 1
  {
    seq(n, i requires 0 <= i < n => i + 1)
  }

  /** `s + [x]` repeats nothing when `s` does not and `x` is new. */
  lemma DistinctAppend(s: seq<int>, x: int)
    requires Distinct(s) && x !in s
    ensures Distinct(s + [x])
  {
    forall i, j | 0 <= i < j < |s| + 1 ensures (s + [x])[i] != (s + [x])[j] {
      if j == |s| {
        assert s[i] in s;
      }
    }
  }

  /** The position of the last occurrence of `x`, as a loop that keeps overwriting it finds. */
  function LastIndex(s: seq<int>, x: int): (k: Option<nat>)
    ensures k.None? <==> x !in s
    ensures k.Some? ==> k.value < |s| && s[k.value] == x && forall j :: k.value < j < |s| ==> s[j] != x
  {
    if s == [] then None
    else if s[|s| - 1] == x then Some(|s| - 1)
    else LastIndex(s[..|s| - 1], x)
  }

  /** `del s[k]`. */
  function RemoveAt(s: seq<int>, k: nat): (r: seq<int>)
    requires k < |s|
    ensures |r| == |s| - 1
  {
    s[..k] + s[k + 1..]
  }

  /** A channel number toggled in a list: appended when absent, its last occurrence deleted when present. */
  function Toggled(s: seq<int>, x: int): (r: seq<int>)
  {
    match LastIndex(s, x)
    case None => s + [x]
    case Some(k) => RemoveAt(s, k)
  }

  /** Deleting one element keeps a list without repeats, and removes exactly that element. */
  lemma DistinctRemoveAt(s: seq<int>, k: nat)
    requires Distinct(s) && k < |s|
    ensures Distinct(RemoveAt(s, k))
    ensures forall y :: y in RemoveAt(s, k) <==> y in s && y != s[k]
  {
    var r := RemoveAt(s, k);
    assert forall i :: 0 <= i < |r| ==> r[i] == if i < k then s[i] else s[i + 1];
    forall y | y in s && y != s[k] ensures y in r {
      var i :| 0 <= i < |s| && s[i] == y;
      if i < k {
        assert r[i] == y;
      } else {
        assert r[i - 1] == y;
      }
    }
  }

  /** `list.remove(x)` deletes at the first position holding `x`. */
  lemma {:induction false} RemoveFirstAt(s: seq<int>, x: int, k: nat)
    requires k < |s| && s[k] == x && forall j :: 0 <= j < k ==> s[j] != x
    ensures RemoveFirst(s, x) == RemoveAt(s, k)
  {
    if k > 0 {
      RemoveFirstAt(s[1..], x, k - 1);
      assert RemoveAt(s, k) == [s[0]] + RemoveAt(s[1..], k - 1);
    }
  }

  /**
   * In a list without repeats, toggling a number flips its membership and
   * leaves every other number alone; deleting at the last occurrence is
   * then `list.remove`.
   */
  lemma ToggledSpec(s: seq<int>, x: int)
    requires Distinct(s)
    ensures Distinct(Toggled(s, x))
    ensures x in Toggled(s, x) <==> x !in s
    ensures forall y :: y != x ==> (y in Toggled(s, x) <==> y in s)
    ensures x in s ==> Toggled(s, x) == RemoveFirst(s, x)
  {
    match LastIndex(s, x)
    case None =>
      DistinctAppend(s, x);
    case Some(k) =>
      DistinctRemoveAt(s, k);
      RemoveFirstAt(s, x, k);
  }

  /** Toggling an absent number on and off again restores the list. */
  lemma ToggledTwice(s: seq<int>, x: int)
    requires x !in s
    ensures Toggled(Toggled(s, x), x) == s
  {
    var t := s + [x];
    assert LastIndex(t, x) == Some(|s|) by {
      assert t[..|t| - 1] == s;
    }
    assert RemoveAt(t, |s|) == s;
  }

  /** The numbers whose flag is set, in order. */
  function Picked(nos: seq<int>, flags: seq<bool>): (r: seq<int>)
    requires |flags| == |nos|
    ensures |r| <= |nos|
  {
    if nos == [] then []
    else Picked(nos[..|nos| - 1], flags[..|nos| - 1]) + (if flags[|nos| - 1] then [nos[|nos| - 1]] else [])
  }

  /** A number is picked exactly when it belongs to a set flag; nothing is picked exactly when no flag is set. */
  lemma {:induction false} PickedSpec(nos: seq<int>, flags: seq<bool>)
    requires |flags| == |nos|
    ensures forall x :: x in Picked(nos, flags) <==> exists i :: 0 <= i < |nos| && flags[i] && nos[i] == x
    ensures Picked(nos, flags) == [] <==> forall i :: 0 <= i < |nos| ==> !flags[i]
  {
    if nos != [] {
      var n := |nos| - 1;
      PickedSpec(nos[..n], flags[..n]);
      forall x ensures x in Picked(nos, flags) <==> exists i :: 0 <= i < |nos| && flags[i] && nos[i] == x {
        if x in Picked(nos, flags) && !(flags[n] && nos[n] == x) {
          var i :| 0 <= i < n && flags[..n][i] && nos[..n][i] == x;
          assert flags[i] && nos[i] == x;
        }
        if exists i :: 0 <= i < |nos| && flags[i] && nos[i] == x {
          var i :| 0 <= i < |nos| && flags[i] && nos[i] == x;
          if i < n {
            assert flags[..n][i] && nos[..n][i] == x;
          }
        }
      }
      if Picked(nos, flags) == [] {
        forall i | 0 <= i < |nos| ensures !flags[i] {
          if i < n {
            assert flags[..n][i] == flags[i];
          }
        }
      }
      if forall i :: 0 <= i < |nos| ==> !flags[i] {
        assert forall i :: 0 <= i < n ==> !flags[..n][i];
      }
    }
  }

  /** The numbers of a list of channels. */
  function ChannelNos(chs: seq<Channel>): (nos: seq<int>)
    ensures |nos| == |chs| && forall i :: 0 <= i < |chs| ==> nos[i] == chs[i].id.no
  {
    seq(|chs|, i requires 0 <= i < |chs| => chs[i].id.no)
  }

  /** The enabled flags of a list of channels. */
  function Flags(chs: seq<Channel>): (f: seq<bool>)
    reads set c | c in chs
    ensures |f| == |chs| && forall i :: 0 <= i < |chs| ==> f[i] == chs[i].enabled
  {
    seq(|chs|, i requires 0 <= i < |chs| reads set c | c in chs => chs[i].enabled)
  }

  /** Python's `any` over the channels' enabled flags. */
  predicate AnyEnabled(chs: seq<Channel>)
    reads set c | c in chs
  {
    exists j :: 0 <= j < |chs| && chs[j].enabled
  }

  /** The numbers of the enabled channels, in order. */
  function EnabledNos(chs: seq<Channel>): (nos: seq<int>)
    reads set c | c in chs
  {
    Picked(ChannelNos(chs), Flags(chs))
  }

  // ---------------------------------------------------------------------
  // Looking things up

  /** The position of the first listed device with the given id, as the loops over the device list find it. */
  function DeviceIndex(devs: seq<Entry>, id: DeviceId): (k: Option<nat>)
    ensures k.None? <==> forall j :: 0 <= j < |devs| ==> devs[j].dev.id != id
    ensures k.Some? ==>
      && k.value < |devs| && devs[k.value].dev.id == id
      && forall j :: 0 <= j < k.value ==> devs[j].dev.id != id
  {
    if devs == [] then None
    else if devs[0].dev.id == id then Some(0)
    else match DeviceIndex(devs[1..], id)
      case None => None
      case Some(k) => Some(k + 1)
  }

  /** The position of the first channel with the given number. */
  function ChannelIndex(chs: seq<Channel>, no: int): (k: Option<nat>)
    ensures k.None? <==> forall j :: 0 <= j < |chs| ==> chs[j].id.no != no
    ensures k.Some? ==>
      && k.value < |chs| && chs[k.value].id.no == no
      && forall j :: 0 <= j < k.value ==> chs[j].id.no != no
  {
    if chs == [] then None
    else if chs[0].id.no == no then Some(0)
    else match ChannelIndex(chs[1..], no)
      case None => None
      case Some(k) => Some(k + 1)
  }

  /** Python's `ch[i]` on a list of `n` channels: negative positions count from the end. */
  function PyIndex(n: nat, i: int): (k: Option<nat>)
    ensures k.Some? <==> -(n as int) <= i < n
    ensures k.Some? ==> k.value < n && (if i >= 0 then k.value == i else k.value == i + n)
  {
    if 0 <= i < n then Some(i)
    else if -(n as int) <= i < 0 then Some((i + n) as nat)
    else None
  }

  /** The channel that becomes selected when the selected one is removed: the one numbered one less, if any, else the first. */
  function Fallback(chs: seq<Channel>, removedNo: int): (c: Channel)
    requires chs != []
    ensures c in chs
    ensures (exists j :: 0 <= j < |chs| && chs[j].id.no == removedNo - 1) ==> c.id.no == removedNo - 1
    ensures (forall j :: 0 <= j < |chs| ==> chs[j].id.no != removedNo - 1) ==> c == chs[0]
  {
    match ChannelIndex(chs, removedNo - 1)
    case None => chs[0]
    case Some(k) => chs[k]
  }

  // ---------------------------------------------------------------------
  // The connector

  /** What an oscilloscope shown on the charts keeps: the device and the numbers of its shown channels. */
  datatype VisibleOsc = VisibleOsc(dev: Device, nos: seq<int>)

  /** The selected oscilloscope and generator and their selected channels. */
  datatype Selection = Selection(osc: Option<Device>, oscCh: Option<Channel>, gen: Option<Device>, genCh: Option<Channel>)

  const NoSelection: Selection := Selection(None, None, None, None)

  /** The selected oscilloscope is an oscilloscope and the selected generator a generator. */
  predicate SelectionValid(s: Selection)
  {
    (s.osc.Some? ==> s.osc.value.id.devType == "Osc") && (s.gen.Some? ==> s.gen.value.id.devType == "Gen")
  }

  /** Whether a selection still refers to the device with the given id. */
  predicate Selects(s: Selection, id: DeviceId)
  {
    (s.osc.Some? && s.osc.value.id == id) || (s.gen.Some? && s.gen.value.id == id)
  }

  /**
   * The selection after the device with the given id was removed: a removed
   * oscilloscope takes its channel selection with it; otherwise a removed
   * generator does.
   */
  function Cleared(s: Selection, id: DeviceId): (r: Selection)
    ensures s.osc.Some? && s.osc.value.id == id ==> r == s.(osc := None, oscCh := None)
    ensures !(s.osc.Some? && s.osc.value.id == id) && s.gen.Some? && s.gen.value.id == id ==> r == s.(gen := None, genCh := None)
    ensures !Selects(s, id) ==> r == s
  {
    if s.osc.Some? && s.osc.value.id == id then s.(osc := None, oscCh := None)
    else if s.gen.Some? && s.gen.value.id == id then s.(gen := None, genCh := None)
    else s
  }

  /** Since an oscilloscope is never a generator, a removed device is no longer selected afterwards. */
  lemma ClearedForgets(s: Selection, id: DeviceId)
    requires SelectionValid(s)
    ensures SelectionValid(Cleared(s, id)) && !Selects(Cleared(s, id), id)
  {
    if s.osc.Some? && s.osc.value.id == id && s.gen.Some? {
      assert s.gen.value.id.devType != id.devType;
    }
  }

  /** The selection after each of the given devices was removed, in order. */
  function ClearedAll(s: Selection, ids: seq<DeviceId>): (r: Selection)
    decreases |ids|
  {
    if ids == [] then s else ClearedAll(Cleared(s, ids[0]), ids[1..])
  }

  /** After a batch of devices is removed, none of them is selected any more, and the other selections are kept. */
  lemma {:induction false} ClearedAllForgets(s: Selection, ids: seq<DeviceId>)
    requires SelectionValid(s)
    ensures SelectionValid(ClearedAll(s, ids))
    ensures forall id :: id in ids ==> !Selects(ClearedAll(s, ids), id)
    ensures ClearedAll(s, ids).osc.Some? ==> ClearedAll(s, ids).osc == s.osc
    ensures ClearedAll(s, ids).gen.Some? ==> ClearedAll(s, ids).gen == s.gen
    decreases |ids|
  {
    if ids != [] {
      ClearedForgets(s, ids[0]);
      ClearedAllForgets(Cleared(s, ids[0]), ids[1..]);
      ClearedAllKeeps(Cleared(s, ids[0]), ids[1..], ids[0]);
    }
  }

  /** Removing further devices never brings a selection back. */
  lemma {:induction false} ClearedAllKeeps(s: Selection, ids: seq<DeviceId>, id: DeviceId)
    requires !Selects(s, id)
    ensures !Selects(ClearedAll(s, ids), id)
    decreases |ids|
  {
    if ids != [] {
      ClearedAllKeeps(Cleared(s, ids[0]), ids[1..], id);
    }
  }

  function Ids(devs: seq<Device>): (ids: seq<DeviceId>)
    ensures |ids| == |devs| && forall i :: 0 <= i < |devs| ==> ids[i] == devs[i].id
  {
    seq(|devs|, i requires 0 <= i < |devs| => devs[i].id)
  }

  /** A channel's enabled flag after the output toggle: all flip together when no number is given, else only the numbered ones. */
  function OutputFlag(channelNo: Option<int>, wasOn: bool, no: int, before: bool): bool
  {
    match channelNo
    case None => !wasOn
    case Some(n) => if no == n then !before else before
  }

  /**
   * Whether the output toggle stops the device completely: after switching
   * every channel off, or when a single flip left no channel enabled.
   */
  function StopsAfterToggle(channelNo: Option<int>, wasOn: bool, nos: seq<int>): bool
  {
    if channelNo.None? then wasOn && nos == [] else nos == []
  }

  /** The loops that look for a channel number in a list of shown numbers, keeping its last position. */
  method LastPosition(nos: seq<int>, no: int) returns (pos: Option<nat>)
    ensures pos == LastIndex(nos, no)
  {
    pos := None;
    for i := 0 to |nos|
      invariant pos == LastIndex(nos[..i], no)
    {
      assert nos[..i + 1][..i] == nos[..i];
      if nos[i] == no {
        pos := Some(i);
      }
    }
    assert nos[..|nos|] == nos;
  }

  /** One step of collecting the numbers whose flag is set: one more prefix element. */
  lemma PickedPrefix(nos: seq<int>, flags: seq<bool>, i: nat)
    requires |flags| == |nos| && i < |nos|
    ensures Picked(nos[..i + 1], flags[..i + 1])
      == Picked(nos[..i], flags[..i]) + (if flags[i] then [nos[i]] else [])
  {
    assert nos[..i + 1][..i] == nos[..i];
    assert flags[..i + 1][..i] == flags[..i];
  }

  /** `chs[i].is_enabled = v`; in a list of distinct channels no other one changes. */
  method SetEnabledAt(chs: seq<Channel>, i: nat, v: bool)
    requires Distinct(chs) && i < |chs|
    modifies chs[i]
    ensures chs[i].enabled == v
    ensures forall j :: 0 <= j < |chs| && j != i ==> chs[j].enabled == old(chs[j].enabled)
  {
    chs[i].enabled := v;
  }

  /**
   * The channel loop of the output toggle: set each channel's flag as the
   * toggle demands and collect the numbers of those enabled afterwards.
   */
  method ToggleOutputs(chs: seq<Channel>, channelNo: Option<int>, wasOn: bool) returns (nos: seq<int>)
    requires Distinct(chs)
    modifies set c | c in chs
    ensures nos == EnabledNos(chs)
    ensures forall i :: 0 <= i < |chs| ==>
      chs[i].enabled == OutputFlag(channelNo, wasOn, chs[i].id.no, old(chs[i].enabled))
  {
    ghost var before := Flags(chs);
    ghost var nums := ChannelNos(chs);
    ghost var after := seq(|chs|, j requires 0 <= j < |chs| => OutputFlag(channelNo, wasOn, nums[j], before[j]));
    nos := [];
    for i := 0 to |chs|
      invariant nos == Picked(nums[..i], after[..i])
      invariant forall j :: 0 <= j < i ==> chs[j].enabled == after[j]
      invariant forall j :: i <= j < |chs| ==> chs[j].enabled == before[j]
    {
      var c := chs[i];
      var v := if channelNo.None? then !wasOn else if c.id.no == channelNo.value then !c.enabled else c.enabled;
      assert v == after[i];
      SetEnabledAt(chs, i, v);
      PickedPrefix(nums, after, i);
      if v {
        nos := nos + [c.id.no];
      }
    }
    assert nums[..|chs|] == nums;
    assert after[..|chs|] == after == Flags(chs);
  }

  /** What an attempt to show or hide channels came to. */
  datatype Outcome =
    | NotFound          // no listed device has the id; nothing is reported
    | Raised            // the channel number indexed past the channel list
    | Shown(nos: seq<int>)  // the numbers of the device's channels shown afterwards

  class Connector {
    /** The device list the connector looks devices up in. */
    const manager: Manager
    /** The oscilloscopes with shown channels, by device id. */
    var visible: map<DeviceId, VisibleOsc>
    /** The devices handed to the full-stop thread, in order. */
    var fullStops: seq<Device>
    var sel: Selection
    var normX: AxisRange
    var normY: AxisRange
    var fftX: AxisRange
    var fftY: AxisRange

    /** Every shown oscilloscope is filed under its own id and shows each channel number once. */
    ghost predicate Valid()
      reads this
    {
      SelectionValid(sel)
      && forall k :: k in visible ==> visible[k].dev.id == k && Distinct(visible[k].nos)
    }

    constructor (m: Manager)
      ensures manager == m && Valid()
      ensures visible == map[] && fullStops == [] && sel == NoSelection
      ensures normX == normY == fftX == fftY == InitialRange
    {
      manager := m;
      visible := map[];
      fullStops := [];
      sel := NoSelection;
      normX, normY, fftX, fftY := InitialRange, InitialRange, InitialRange, InitialRange;
    }

    /** The channels of the listed device with the given id, if any. */
    function ChannelsOf(id: DeviceId): set<Channel>
      reads manager, set e | e in manager.devices :: e.dev
    {
      match DeviceIndex(manager.devices, id)
      case None => {}
      case Some(k) => set c | c in manager.devices[k].dev.ch
    }

    /**
     * `_add_visible_osc`: show the listed device with the given id. With no
     * channel number every channel is enabled and shown, numbered 1 to the
     * channel count; with a number only the channel at position
     * `number - 1` is. The device's entry becomes exactly the shown numbers.
     */
    method AddVisibleOsc(id: DeviceId, channelNo: Option<int>) returns (outcome: Outcome)
      requires Valid()
      modifies this`visible, ChannelsOf(id)
      ensures Valid()
      ensures DeviceIndex(manager.devices, id).None? ==> outcome == NotFound && visible == old(visible)
      ensures DeviceIndex(manager.devices, id).Some? && channelNo.None? ==>
        var d := manager.devices[DeviceIndex(manager.devices, id).value].dev;
        && outcome == Shown(Numbers(|d.ch|))
        && visible == old(visible)[id := VisibleOsc(d, Numbers(|d.ch|))]
        && forall c :: c in d.ch ==> c.enabled
      ensures DeviceIndex(manager.devices, id).Some? && channelNo.Some? ==>
        var d := manager.devices[DeviceIndex(manager.devices, id).value].dev;
        var k := PyIndex(|d.ch|, channelNo.value - 1);
        && (k.None? ==> outcome == Raised && visible == old(visible) && forall c :: c in d.ch ==> c.enabled == old(c.enabled))
        && (k.Some? ==>
              && outcome == Shown([channelNo.value])
              && visible == old(visible)[id := VisibleOsc(d, [channelNo.value])]
              && d.ch[k.value].enabled
              && forall c :: c in d.ch && c != d.ch[k.value] ==> c.enabled == old(c.enabled))
    {
      var found := DeviceIndex(manager.devices, id);
      if found.None? {
        return NotFound;
      }
      var d := manager.devices[found.value].dev;
      match channelNo
      case None =>
        var nos: seq<int> := [];
        for i := 0 to |d.ch|
          invariant visible == old(visible)
          invariant nos == Numbers(i)
          invariant forall j :: 0 <= j < i ==> d.ch[j].enabled
        {
          assert Numbers(i + 1) == Numbers(i) + [i + 1];
          nos := nos + [i + 1];
          d.ch[i].enabled := true;
        }
        assert forall i, j :: 0 <= i < j < |nos| ==> nos[i] != nos[j];
        visible := visible[id := VisibleOsc(d, nos)];
        outcome := Shown(nos);
      case Some(no) =>
        var k := PyIndex(|d.ch|, no - 1);
        if k.None? {
          return Raised;
        }
        d.ch[k.value].enabled := true;
        visible := visible[id := VisibleOsc(d, [no])];
        outcome := Shown([no]);
    }

    /**
     * `_remove_visible_osc`: disable every channel of a shown oscilloscope,
     * have it stopped completely and stop showing it.
     */
    method RemoveVisibleOsc(id: DeviceId) returns (outcome: Outcome)
      requires Valid() && id in visible
      modifies this`visible, this`fullStops, set c | c in visible[id].dev.ch
      ensures Valid()
      ensures outcome == Shown([]) && visible == old(visible) - {id}
      ensures fullStops == old(fullStops) + [old(visible)[id].dev]
      ensures forall c :: c in old(visible)[id].dev.ch ==> !c.enabled
    {
      var dev := visible[id].dev;
      for i := 0 to |dev.ch|
        invariant visible == old(visible) && fullStops == old(fullStops)
        invariant forall j :: 0 <= j < i ==> !dev.ch[j].enabled
      {
        dev.ch[i].enabled := false;
      }
      fullStops := fullStops + [dev];
      visible := visible - {id};
      outcome := Shown([]);
    }

    /**
     * `_update_visible_osc`: toggle one channel of a shown oscilloscope. An
     * absent number is appended to the entry (before the channel is looked
     * up, so it stays there even when the lookup raises) and its channel
     * enabled; a present one is deleted and its channel disabled, and an
     * entry left empty is dropped and its device stopped completely. The
     * reported numbers are the entry's numbers afterwards.
     */
    method UpdateVisibleOsc(id: DeviceId, no: int) returns (outcome: Outcome)
      requires Valid() && id in visible
      modifies this`visible, this`fullStops, ChannelsOf(id)
      ensures Valid()
      ensures DeviceIndex(manager.devices, id).None? ==>
        outcome == NotFound && visible == old(visible) && fullStops == old(fullStops)
      ensures DeviceIndex(manager.devices, id).Some? ==>
        var d := manager.devices[DeviceIndex(manager.devices, id).value].dev;
        var e := old(visible)[id];
        var k := PyIndex(|d.ch|, no - 1);
        && (k.None? ==>
              && outcome == Raised && fullStops == old(fullStops)
              && visible == (if no in e.nos then old(visible) else old(visible)[id := e.(nos := e.nos + [no])]))
        && (k.Some? ==>
              && outcome == Shown(Toggled(e.nos, no))
              && d.ch[k.value].enabled == (no !in e.nos)
              && (forall c :: c in d.ch && c != d.ch[k.value] ==> c.enabled == old(c.enabled))
              && (Toggled(e.nos, no) == [] ==> visible == old(visible) - {id} && fullStops == old(fullStops) + [e.dev])
              && (Toggled(e.nos, no) != [] ==>
                    visible == old(visible)[id := e.(nos := Toggled(e.nos, no))] && fullStops == old(fullStops)))
    {
      var found := DeviceIndex(manager.devices, id);
      if found.None? {
        return NotFound;
      }
      var d := manager.devices[found.value].dev;
      var e := visible[id];
      var nos := e.nos;
      var pos := LastPosition(e.nos, no);
      var k := PyIndex(|d.ch|, no - 1);
      ToggledSpec(e.nos, no);
      if pos.None? {
        visible := visible[id := e.(nos := e.nos + [no])];
        if k.None? {
          return Raised;
        }
        d.ch[k.value].enabled := true;
        outcome := Shown(nos + [no]);
      } else {
        if k.None? {
          return Raised;
        }
        d.ch[k.value].enabled := false;
        var rest := RemoveAt(e.nos, pos.value);
        if rest == [] {
          fullStops := fullStops + [e.dev];
          visible := visible - {id};
        } else {
          visible := visible[id := e.(nos := rest)];
        }
        outcome := Shown(RemoveFirst(nos, no));
      }
    }

    /**
     * `_visibility_toggled_thread`: show a hidden oscilloscope, hide a shown
     * one when no channel number is given, and otherwise toggle the
     * numbered channel. A toggled number is shown afterwards exactly when it
     * was not before, and what is reported is what is shown.
     */
    method VisibilityToggled(id: DeviceId, channelNo: Option<int>) returns (outcome: Outcome)
      requires Valid()
      modifies this`visible, this`fullStops, ChannelsOf(id)
      modifies if id in visible then set c | c in visible[id].dev.ch else {}
      ensures Valid()
      ensures id !in old(visible) && outcome.Shown? ==> id in visible && visible[id].nos == outcome.nos
      ensures id in old(visible) && channelNo.None? ==> outcome == Shown([]) && id !in visible
      ensures id in old(visible) && channelNo.Some? && outcome.Shown? ==>
        && (channelNo.value in outcome.nos <==> channelNo.value !in old(visible)[id].nos)
        && (forall n :: n != channelNo.value ==> (n in outcome.nos <==> n in old(visible)[id].nos))
        && (id in visible ==> visible[id].nos == outcome.nos)
        && (id !in visible ==> outcome.nos == [])
    {
      if id !in visible {
        outcome := AddVisibleOsc(id, channelNo);
      } else if channelNo.None? {
        outcome := RemoveVisibleOsc(id);
      } else {
        ToggledSpec(visible[id].nos, channelNo.value);
        outcome := UpdateVisibleOsc(id, channelNo.value);
      }
    }

    /**
     * `remove_visible_ch`: stop showing one channel number of an
     * oscilloscope without disabling the channel. An entry left empty is
     * dropped and its device stopped completely; an unknown device or
     * number changes nothing.
     */
    method RemoveVisibleCh(id: DeviceId, no: int)
      requires Valid()
      modifies this`visible, this`fullStops
      ensures Valid()
      ensures !(id in old(visible) && no in old(visible)[id].nos) ==>
        visible == old(visible) && fullStops == old(fullStops)
      ensures id in old(visible) && no in old(visible)[id].nos ==>
        var e := old(visible)[id];
        && no !in Toggled(e.nos, no)
        && (Toggled(e.nos, no) == [] ==> visible == old(visible) - {id} && fullStops == old(fullStops) + [e.dev])
        && (Toggled(e.nos, no) != [] ==>
              visible == old(visible)[id := e.(nos := Toggled(e.nos, no))] && fullStops == old(fullStops))
    {
      if id in visible {
        var e := visible[id];
        ToggledSpec(e.nos, no);
        var pos := LastPosition(e.nos, no);
        if pos.Some? {
          var rest := RemoveAt(e.nos, pos.value);
          if rest == [] {
            fullStops := fullStops + [e.dev];
            visible := visible - {id};
          } else {
            visible := visible[id := e.(nos := rest)];
          }
        }
      }
    }

    /**
     * `_output_toggled_thread`, for the first listed device with the given
     * id. Without a channel number: if any channel is enabled all are
     * disabled, otherwise all are enabled. With a number: only the channels
     * carrying it flip. The numbers of the channels enabled afterwards are
     * reported, and a device left with none (or switched off as a whole) is
     * stopped completely.
     */
    method OutputToggled(id: DeviceId, channelNo: Option<int>) returns (outcome: Outcome)
      requires forall e :: e in manager.devices ==> Distinct(e.dev.ch)
      modifies this`fullStops, ChannelsOf(id)
      ensures DeviceIndex(manager.devices, id).None? ==> outcome == NotFound && fullStops == old(fullStops)
      ensures DeviceIndex(manager.devices, id).Some? ==>
        var d := manager.devices[DeviceIndex(manager.devices, id).value].dev;
        && outcome == Shown(EnabledNos(d.ch))
        && (forall i :: 0 <= i < |d.ch| ==>
              d.ch[i].enabled == OutputFlag(channelNo, old(AnyEnabled(d.ch)), d.ch[i].id.no, old(d.ch[i].enabled)))
        && fullStops == old(fullStops) + (if StopsAfterToggle(channelNo, old(AnyEnabled(d.ch)), outcome.nos) then [d] else [])
    {
      var found := DeviceIndex(manager.devices, id);
      if found.None? {
        return NotFound;
      }
      var d := manager.devices[found.value].dev;
      assert manager.devices[found.value] in manager.devices;
      var nos := ToggleOutputOf(d, channelNo);
      outcome := Shown(nos);
    }

    /** The output toggle on one device. */
    method ToggleOutputOf(d: Device, channelNo: Option<int>) returns (nos: seq<int>)
      requires Distinct(d.ch)
      modifies this`fullStops, set c | c in d.ch
      ensures nos == EnabledNos(d.ch)
      ensures forall i :: 0 <= i < |d.ch| ==>
        d.ch[i].enabled == OutputFlag(channelNo, old(AnyEnabled(d.ch)), d.ch[i].id.no, old(d.ch[i].enabled))
      ensures fullStops == old(fullStops) + (if StopsAfterToggle(channelNo, old(AnyEnabled(d.ch)), nos) then [d] else [])
    {
      var wasOn := AnyEnabled(d.ch);
      nos := ToggleOutputs(d.ch, channelNo, wasOn);
      if channelNo.None? {
        if wasOn && nos == [] {
          fullStops := fullStops + [d];
        }
      } else if nos == [] {
        fullStops := fullStops + [d];
      }
    }

    /**
     * The removal branch of `_device_list_update`: the devices are handled
     * one after the other.
     */
    method DevicesRemoved(changed: seq<Device>)
      requires Valid()
      modifies this`sel, this`visible
      ensures Valid()
      ensures sel == ClearedAll(old(sel), Ids(changed))
      ensures visible == old(visible) - (set d | d in changed :: d.id)
      ensures forall d :: d in changed ==> !Selects(sel, d.id)
    {
      ghost var ids := Ids(changed);
      for i := 0 to |changed|
        invariant Valid()
        invariant ClearedAll(sel, ids[i..]) == ClearedAll(old(sel), ids)
        invariant visible == old(visible) - (set j | 0 <= j < i :: changed[j].id)
      {
        assert ids[i..][1..] == ids[i + 1..];
        assert (set j | 0 <= j < i + 1 :: changed[j].id) == (set j | 0 <= j < i :: changed[j].id) + {changed[i].id};
        DeviceRemoved(changed[i].id);
      }
      assert (set j | 0 <= j < |changed| :: changed[j].id) == (set d | d in changed :: d.id);
      ClearedAllForgets(old(sel), ids);
    }

    /**
     * One removed device: a removed selected oscilloscope clears the
     * oscilloscope and its channel selection, otherwise a removed selected
     * generator clears the generator selections; the device is no longer
     * shown.
     */
    method DeviceRemoved(id: DeviceId)
      requires Valid()
      modifies this`sel, this`visible
      ensures Valid()
      ensures sel == Cleared(old(sel), id) && !Selects(sel, id)
      ensures visible == old(visible) - {id}
    {
      ClearedForgets(sel, id);
      var removed := false;
      if sel.osc.Some? && sel.osc.value.id == id {
        sel := sel.(osc := None);
        removed := true;
      }
      if removed {
        sel := sel.(oscCh := None);
      } else {
        if sel.gen.Some? && sel.gen.value.id == id {
          sel := sel.(gen := None);
          removed := true;
        }
        if removed {
          sel := sel.(genCh := None);
        }
      }
      if id in visible {
        visible := visible - {id};
      }
    }

    /**
     * The removal branch of `channel_list_update`: when the selected
     * oscilloscope lost its selected channel, the selection falls back to
     * the channel numbered one less, or else to the first. Comparing with
     * a missing channel selection, or falling back on an empty channel list,
     * raises and changes nothing.
     */
    method ChannelRemoved(id: DeviceId, removedId: ChannelId) returns (raised: bool)
      requires Valid()
      modifies this`sel
      ensures Valid()
      ensures !(old(sel).osc.Some? && old(sel).osc.value.id == id) ==> !raised && sel == old(sel)
      ensures old(sel).osc.Some? && old(sel).osc.value.id == id ==>
        var osc := old(sel).osc.value;
        && (old(sel).oscCh.None? ==> raised && sel == old(sel))
        && (old(sel).oscCh.Some? && old(sel).oscCh.value.id != removedId ==> !raised && sel == old(sel))
        && (old(sel).oscCh.Some? && old(sel).oscCh.value.id == removedId && osc.ch == [] ==> raised && sel == old(sel))
        && (old(sel).oscCh.Some? && old(sel).oscCh.value.id == removedId && osc.ch != [] ==>
              !raised && sel == old(sel).(oscCh := Some(Fallback(osc.ch, removedId.no))))
    {
      raised := false;
      if sel.osc.Some? && sel.osc.value.id == id {
        var osc := sel.osc.value;
        if sel.oscCh.None? {
          return true;
        }
        if sel.oscCh.value.id == removedId {
          if osc.ch == [] {
            return true;
          }
          var chs := osc.ch;
          var newSel := chs[0];
          var i := 0;
          while i < |chs|
            invariant 0 <= i <= |chs|
            invariant forall j :: 0 <= j < i ==> chs[j].id.no != removedId.no - 1
            invariant newSel == chs[0]
          {
            if chs[i].id.no == removedId.no - 1 {
              newSel := chs[i];
              break;
            }
            i := i + 1;
          }
          sel := sel.(oscCh := Some(newSel));
        }
      }
    }

    /** `set_selected_device`: select the first listed device with the id, as oscilloscope or as generator by its type. */
    method SetSelectedDevice(id: DeviceId)
      requires Valid()
      modifies this`sel
      ensures Valid()
      ensures DeviceIndex(manager.devices, id).None? ==> sel == old(sel)
      ensures DeviceIndex(manager.devices, id).Some? ==>
        var d := manager.devices[DeviceIndex(manager.devices, id).value].dev;
        && (id.devType == "Osc" ==> sel == old(sel).(osc := Some(d)))
        && (id.devType == "Gen" ==> sel == old(sel).(gen := Some(d)))
        && (id.devType != "Osc" && id.devType != "Gen" ==> sel == old(sel))
    {
      var found := DeviceIndex(manager.devices, id);
      if found.Some? {
        var d := manager.devices[found.value].dev;
        if id.devType == "Osc" {
          sel := sel.(osc := Some(d));
        } else if id.devType == "Gen" {
          sel := sel.(gen := Some(d));
        }
      }
    }

    /**
     * `set_selected_channel`: when the device with the id is the selected
     * oscilloscope or generator, select its first channel with the number.
     */
    method SetSelectedChannel(id: DeviceId, no: int)
      requires Valid()
      modifies this`sel
      ensures Valid()
      ensures
        var dev := if id.devType == "Osc" then old(sel).osc else if id.devType == "Gen" then old(sel).gen else None;
        && (dev.None? || dev.value.id != id || ChannelIndex(dev.value.ch, no).None? ==> sel == old(sel))
        && (dev.Some? && dev.value.id == id && ChannelIndex(dev.value.ch, no).Some? ==>
              var c := dev.value.ch[ChannelIndex(dev.value.ch, no).value];
              && (id.devType == "Osc" ==> sel == old(sel).(oscCh := Some(c)))
              && (id.devType == "Gen" ==> sel == old(sel).(genCh := Some(c))))
    {
      var dev := if id.devType == "Osc" then sel.osc else if id.devType == "Gen" then sel.gen else None;
      if dev.Some? && dev.value.id == id {
        var chs := dev.value.ch;
        var i := 0;
        while i < |chs|
          invariant 0 <= i <= |chs|
          invariant forall j :: 0 <= j < i ==> chs[j].id.no != no
        {
          if chs[i].id.no == no {
            if id.devType == "Osc" {
              sel := sel.(oscCh := Some(chs[i]));
            } else {
              sel := sel.(genCh := Some(chs[i]));
            }
            break;
          }
          i := i + 1;
        }
      }
    }

    /**
     * `_set_chart_axis_limits`: move the limits of the normal or (for any
     * other chart type) the spectrum chart for the data's new extremes.
     */
    method SetChartAxisLimits(chartType: string, xMin: real, xMax: real, yMin: real, yMax: real)
      modifies this`normX, this`normY, this`fftX, this`fftY
      ensures chartType == "Norm" ==>
        normX == Adjusted(old(normX), xMin, xMax) && normY == Adjusted(old(normY), yMin, yMax)
        && fftX == old(fftX) && fftY == old(fftY)
      ensures chartType != "Norm" ==>
        fftX == Adjusted(old(fftX), xMin, xMax) && fftY == Adjusted(old(fftY), yMin, yMax)
        && normX == old(normX) && normY == old(normY)
    {
      var x := if chartType == "Norm" then normX else fftX;
      var y := if chartType == "Norm" then normY else fftY;
      x := AxisRange(NewLower(x.lo, xMin), NewUpper(x.hi, xMax));
      y := AxisRange(NewLower(y.lo, yMin), NewUpper(y.hi, yMax));
      if chartType == "Norm" {
        normX, normY := x, y;
      } else {
        fftX, fftY := x, y;
      }
    }
  }
}
