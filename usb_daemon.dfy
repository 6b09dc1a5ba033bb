/**
 * The USB device daemon: it keeps one entry (shortened id, vendor name, USB
 * path) for every connected device of a known vendor, and turns USB bind
 * and unbind events into "device added" and "device removed" callbacks.
 * The operating system's USB monitors, the vendor libraries' device
 * listings and the polling loop that waits for them are not modelled: what
 * they deliver is passed in.
 */
module UsbDaemon {
  import opened Common

  /** A connected device as the vendor library lists it. */
  datatype RawDevice = RawDevice(manufacturer: string, model: string, serial: string)

  /** A device after formatting: the vendor is set only on the VISA path, the type only for Tektronix. */
  datatype Listed = Listed(vendor: Option<string>, name: string, serNo: string, devType: Option<string>)

  /** The shortened id stored for a registered device and passed to the callbacks. */
  datatype ShortId = ShortId(name: string, serNo: string, devType: Option<string>)

  /** A callback invocation. */
  datatype Event = Added(id: ShortId, vendor: string) | Removed(id: ShortId, vendor: string)

  /** The vendor branches of the bind handler. */
  datatype Branch = TiepieBranch | KeysightBranch | TektronixBranch | VisaBranch

  /** The answer to a VISA identification query. */
  datatype Idn = Idn(manufacturer: string, model: string, serial: string)

  // ---------------------------------------------------------------------
  // Formatting the vendor listings

  /** The vendor name a VISA manufacturer string stands for. */
  function VisaVendor(manufacturer: string): string
  {
    if manufacturer == "KEYSIGHT TECHNOLOGIES" then "Keysight"
    else if manufacturer == "TEKTRONIX" then "Tektronix"
    else "unknown"
  }

  /** The Tektronix device type: an oscilloscope for the TBS models, a generator otherwise. */
  function TektronixType(model: string): string
  {
    if Contains(model, "TBS") then "OSC" else "GEN"
  }

  /** The formatting of one listed device on each vendor branch. */
  function Format(b: Branch, d: RawDevice): Listed
  {
    match b
    case TiepieBranch => Listed(None, d.model, d.serial, None)
    case KeysightBranch => Listed(None, d.model, d.serial, None)
    case TektronixBranch => Listed(None, d.model, d.serial, Some(TektronixType(d.model)))
    case VisaBranch => Listed(Some(VisaVendor(d.manufacturer)), d.model, d.serial, None)
  }

  /**
   * Formatting keeps name and serial number; only the Tektronix branch sets
   * a type ('OSC' exactly when the model contains 'TBS') and only the VISA
   * branch sets a vendor.
   */
  lemma FormatSpec(b: Branch, d: RawDevice)
    ensures Format(b, d).name == d.model && Format(b, d).serNo == d.serial
    ensures Format(b, d).devType.Some? <==> b == TektronixBranch
    ensures b == TektronixBranch ==>
      (Format(b, d).devType == Some("OSC") <==> exists j :: At(d.model, "TBS", j))
    ensures Format(b, d).vendor.Some? <==> b == VisaBranch
  {
    ContainsSpec(d.model, "TBS");
    assert "OSC" != "GEN" by {
      assert "OSC"[0] != "GEN"[0];
    }
  }

  /** The formatting loop of each bind branch. */
  method FormatAll(b: Branch, raw: seq<RawDevice>) returns (listed: seq<Listed>)
    ensures |listed| == |raw|
    ensures forall i :: 0 <= i < |raw| ==> listed[i] == Format(b, raw[i])
  {
    listed := [];
    for i := 0 to |raw|
      invariant |listed| == i
      invariant forall k :: 0 <= k < i ==> listed[k] == Format(b, raw[k])
    {
      listed := listed + [Format(b, raw[i])];
    }
  }

  /** The values of the device properties whose name contains 'VENDOR', in order. */
  function VendorValues(extras: seq<(string, string)>, n: nat): seq<string>
    requires n <= |extras|
  {
    if n == 0 then []
    else VendorValues(extras, n - 1) + (if Contains(extras[n - 1].0, "VENDOR") then [extras[n - 1].1] else [])
  }

  lemma {:induction false} VendorValuesMembers(extras: seq<(string, string)>, n: nat)
    requires n <= |extras|
    ensures forall v :: v in VendorValues(extras, n) <==>
      exists i :: 0 <= i < n && Contains(extras[i].0, "VENDOR") && extras[i].1 == v
  {
    if n > 0 {
      VendorValuesMembers(extras, n - 1);
    }
  }

  /** Collect the vendor information of a bind event. */
  method VendorInfo(extras: seq<(string, string)>) returns (info: seq<string>)
    ensures info == VendorValues(extras, |extras|)
    ensures forall v :: v in info <==>
      exists i :: 0 <= i < |extras| && Contains(extras[i].0, "VENDOR") && extras[i].1 == v
  {
    info := [];
    for i := 0 to |extras|
      invariant info == VendorValues(extras, i)
    {
      if Contains(extras[i].0, "VENDOR") {
        info := info + [extras[i].1];
      }
    }
    VendorValuesMembers(extras, |extras|);
  }

  /** The vendor branch a bind event takes, if any. */
  function Route(info: seq<string>, windows: bool): Option<Branch>
  {
    if "TiePie engineering" in info then Some(TiepieBranch)
    else if "Keysight_Technologies" in info then Some(KeysightBranch)
    else if "0699" in info then Some(TektronixBranch)
    else if "IVI Foundation, Inc" in info && windows then Some(VisaBranch)
    else None
  }

  /** The vendor name a branch registers its devices under; none on the VISA path. */
  function BranchVendor(b: Branch): Option<string>
  {
    match b
    case TiepieBranch => Some("Tiepie")
    case KeysightBranch => Some("Keysight")
    case TektronixBranch => Some("Tektronix")
    case VisaBranch => None
  }

  /** Only USB device events are considered, and only for a path not yet registered. */
  predicate Accepts(devType: string, path: string, paths: seq<string>)
  {
    (devType == "usb_device" || Contains(devType, "USB")) && path !in paths
  }

  // ---------------------------------------------------------------------
  // Registering a new device

  /** A listed device and a registered one have the same name and serial number. */
  predicate SameDevice(l: Listed, r: ShortId)
  {
    l.name == r.name && l.serNo == r.serNo
  }

  predicate Known(l: Listed, registered: seq<ShortId>)
  {
    exists r :: r in registered && SameDevice(l, r)
  }

  /** The position of the first listed device that is not registered yet. */
  function FirstNew(all: seq<Listed>, registered: seq<ShortId>): (r: Option<nat>)
    ensures r.Some? ==> r.value < |all| && !Known(all[r.value], registered)
    ensures r.Some? ==> forall k :: 0 <= k < r.value ==> Known(all[k], registered)
    ensures r.None? ==> forall k :: 0 <= k < |all| ==> Known(all[k], registered)
  {
    if all == [] then None
    else if !Known(all[0], registered) then Some(0)
    else
      match FirstNew(all[1..], registered)
      case None => None
      case Some(i) => Some(i + 1)
  }

  /**
   * The shortened id as the registration builds it: it reads the 'Type'
   * field, which only the Tektronix branch sets, so on every other branch
   * the lookup raises (`None` here).
   */
  function ShortIdAsWritten(l: Listed): Option<ShortId>
  {
    if l.devType.None? then None else Some(ShortId(l.name, l.serNo, l.devType))
  }

  /**
   * Every device found on the TiePie and Keysight branches makes the
   * registration raise. A VISA-formatted device carries no type either, but
   * the VISA branch raises earlier, while listing (see `ListingAsWritten`).
   */
  lemma ShortIdAsWrittenRaises(b: Branch, d: RawDevice)
    requires b != TektronixBranch
    ensures ShortIdAsWritten(Format(b, d)).None?
  {
  }

  /** The shortened id as intended: name and serial number, and the type where one is known. */
  function ShortIdOf(l: Listed): (id: ShortId)
    ensures SameDevice(l, id)
  {
    ShortId(l.name, l.serNo, l.devType)
  }

  /**
   * Registration succeeds on every branch and keeps the name, the serial
   * number and the type, and agrees with the original wherever that one
   * does not raise.
   */
  lemma ShortIdOfSpec(b: Branch, d: RawDevice)
    ensures ShortIdOf(Format(b, d)).name == d.model && ShortIdOf(Format(b, d)).serNo == d.serial
    ensures ShortIdOf(Format(b, d)).devType == Format(b, d).devType
    ensures ShortIdAsWritten(Format(b, d)).Some? ==> ShortIdAsWritten(Format(b, d)).value == ShortIdOf(Format(b, d))
  {
    FormatSpec(b, d);
  }

  /** The vendor stored for a new device: the branch's vendor, else the device's own. */
  function VendorFor(vendor: Option<string>, l: Listed): string
    requires vendor.Some? || l.vendor.Some?
  {
    if vendor.Some? then vendor.value else l.vendor.value
  }

  /** What `_add_new_device` registers: at most one device, the first one not registered yet. */
  function Registration(all: seq<Listed>, registered: seq<ShortId>, vendor: Option<string>): Option<(ShortId, string)>
    requires vendor.None? ==> forall l :: l in all ==> l.vendor.Some?
  {
    match FirstNew(all, registered)
    case None => None
    case Some(i) => Some((ShortIdOf(all[i]), VendorFor(vendor, all[i])))
  }

  /**
   * A registration is of a listed device that was not registered, with the
   * branch's vendor or, without one, the device's own; when every listed
   * device is already registered, nothing is.
   */
  lemma RegistrationSpec(all: seq<Listed>, registered: seq<ShortId>, vendor: Option<string>)
    requires vendor.None? ==> forall l :: l in all ==> l.vendor.Some?
    ensures Registration(all, registered, vendor).None? <==> forall l :: l in all ==> Known(l, registered)
    ensures Registration(all, registered, vendor).Some? ==>
      exists l :: l in all && !Known(l, registered)
        && Registration(all, registered, vendor).value == (ShortIdOf(l), VendorFor(vendor, l))
    ensures Registration(all, registered, vendor).Some? ==>
      forall r :: r in registered ==> !SameDevice(all[FirstNew(all, registered).value], r)
  {
    if FirstNew(all, registered).None? {
      forall l | l in all ensures Known(l, registered) {
        var k :| 0 <= k < |all| && all[k] == l;
      }
    }
  }

  // ---------------------------------------------------------------------
  // The registry

  /** The shortened ids registered under a vendor, in list order. */
  function ByVendor(ids: seq<ShortId>, vendors: seq<string>, vendor: string, n: nat): seq<ShortId>
    requires n <= |ids| && n <= |vendors|
  {
    if n == 0 then []
    else ByVendor(ids, vendors, vendor, n - 1) + (if vendors[n - 1] == vendor then [ids[n - 1]] else [])
  }

  /** A vendor's devices are exactly the entries stored under that vendor. */
  lemma {:induction false} ByVendorMembers(ids: seq<ShortId>, vendors: seq<string>, vendor: string, n: nat)
    requires n <= |ids| && n <= |vendors|
    ensures forall x :: x in ByVendor(ids, vendors, vendor, n) <==>
      exists i :: 0 <= i < n && vendors[i] == vendor && ids[i] == x
    ensures |ByVendor(ids, vendors, vendor, n)| <= n
  {
    if n > 0 {
      ByVendorMembers(ids, vendors, vendor, n - 1);
    }
  }

  /** The first position of `x` in `s` (Python's `list.index`). */
  function IndexOf<T(==)>(s: seq<T>, x: T): (i: nat)
    requires x in s
    ensures i < |s| && s[i] == x && x !in s[..i]
  {
    if s[0] == x then 0
    else
      var i := IndexOf(s[1..], x) + 1;
      assert s[..i] == [s[0]] + s[1..][..i - 1];
      i
  }

  /** The sequence without its element at `i` (Python's `del s[i]`). */
  function Delete<T>(s: seq<T>, i: nat): (r: seq<T>)
    requires i < |s|
    ensures |r| == |s| - 1
    ensures forall k :: 0 <= k < i ==> r[k] == s[k]
    ensures forall k :: i <= k < |r| ==> r[k] == s[k + 1]
  {
    s[..i] + s[i + 1..]
  }

  lemma DeleteDistinct<T>(s: seq<T>, i: nat)
    requires i < |s| && Distinct(s)
    ensures Distinct(Delete(s, i)) && s[i] !in Delete(s, i)
  {
    var r := Delete(s, i);
    forall a, b | 0 <= a < b < |r| ensures r[a] != r[b] {
      var a' := if a < i then a else a + 1;
      var b' := if b < i then b else b + 1;
      assert r[a] == s[a'] && r[b] == s[b'];
    }
    forall k | 0 <= k < |r| ensures r[k] != s[i] {
      if k >= i {
        assert r[k] == s[k + 1];
      }
    }
  }

  class Daemon {
    /** `_usb_list['ShortID']`, `_usb_list['Vendor']` and `_usb_list['Path']`. */
    var shortIds: seq<ShortId>
    var vendors: seq<string>
    var paths: seq<string>
    /** The callbacks invoked so far, in order. */
    var events: seq<Event>
    /** `_busy_visa_resources`: the identification of every VISA resource queried so far. */
    var busy: map<string, Idn>

    /** The three lists are parallel, and no path is registered twice. */
    ghost predicate Valid()
      reads this
    {
      |shortIds| == |vendors| == |paths| && Distinct(paths)
    }

    constructor ()
      ensures Valid()
      ensures shortIds == [] && vendors == [] && paths == [] && events == [] && busy == map[]
    {
      shortIds := [];
      vendors := [];
      paths := [];
      events := [];
      busy := map[];
    }

    /** `_devices_filtered_by_vendor`. */
    method DevicesFilteredByVendor(vendor: string) returns (r: seq<ShortId>)
      requires Valid()
      ensures r == ByVendor(shortIds, vendors, vendor, |vendors|)
      ensures forall x :: x in r <==> exists i :: 0 <= i < |vendors| && vendors[i] == vendor && shortIds[i] == x
    {
      r := [];
      for i := 0 to |vendors|
        invariant r == ByVendor(shortIds, vendors, vendor, i)
      {
        if vendors[i] == vendor {
          r := r + [shortIds[i]];
        }
      }
      ByVendorMembers(shortIds, vendors, vendor, |vendors|);
    }

    /**
     * `_add_new_device`: register the first listed device that is not
     * registered yet, under `path`, and report it; at most one device is
     * registered.
     */
    method AddNewDevice(all: seq<Listed>, registered: seq<ShortId>, vendor: Option<string>, path: string)
      requires Valid() && path !in paths
      requires vendor.None? ==> forall l :: l in all ==> l.vendor.Some?
      modifies this`shortIds, this`vendors, this`paths, this`events
      ensures Valid()
      ensures Registration(all, registered, vendor).None? ==>
        shortIds == old(shortIds) && vendors == old(vendors) && paths == old(paths) && events == old(events)
      ensures Registration(all, registered, vendor).Some? ==>
        var (id, v) := Registration(all, registered, vendor).value;
        shortIds == old(shortIds) + [id] && vendors == old(vendors) + [v] && paths == old(paths) + [path]
        && events == old(events) + [Added(id, v)]
    {
      var i := 0;
      while i < |all|
        invariant 0 <= i <= |all|
        invariant forall k :: 0 <= k < i ==> Known(all[k], registered)
      {
        var isNew := true;
        var j := 0;
        while j < |registered|
          invariant 0 <= j <= |registered|
          invariant isNew <==> forall k :: 0 <= k < j ==> !SameDevice(all[i], registered[k])
        {
          if all[i].name == registered[j].name && all[i].serNo == registered[j].serNo {
            isNew := false;
            break;
          }
          j := j + 1;
        }
        if isNew {
          assert FirstNew(all, registered) == Some(i);
          var deviceVendor := if vendor.Some? then vendor.value else all[i].vendor.value;
          var id := ShortIdOf(all[i]);
          shortIds := shortIds + [id];
          vendors := vendors + [deviceVendor];
          paths := paths + [path];
          events := events + [Added(id, deviceVendor)];
          return;
        }
        i := i + 1;
      }
    }

    /**
     * A bind event. `extras` are the device properties, `connected` is what
     * the vendor library lists once the new device shows up, and `windows`
     * tells whether the VISA branch is available.
     */
    method OnBind(devType: string, path: string, extras: seq<(string, string)>, windows: bool,
                  connected: seq<RawDevice>)
      requires Valid()
      modifies this`shortIds, this`vendors, this`paths, this`events
      ensures Valid()
      ensures var route := Route(VendorValues(extras, |extras|), windows);
        var reg := if Accepts(devType, path, old(paths)) && route.Some?
          then BindRegistration(route.value, connected, old(shortIds), old(vendors)) else None;
        (reg.None? ==>
          shortIds == old(shortIds) && vendors == old(vendors) && paths == old(paths) && events == old(events))
        && (reg.Some? ==>
          shortIds == old(shortIds) + [reg.value.0] && vendors == old(vendors) + [reg.value.1]
          && paths == old(paths) + [path] && events == old(events) + [Added(reg.value.0, reg.value.1)])
    {
      var info := VendorInfo(extras);
      if (devType == "usb_device" || Contains(devType, "USB")) && path !in paths {
        var route := Route(info, windows);
        if route.Some? {
          var registered: seq<ShortId>;
          match route.value {
            case TiepieBranch =>
              registered := DevicesFilteredByVendor("Tiepie");
            case KeysightBranch =>
              registered := DevicesFilteredByVendor("Keysight");
            case TektronixBranch =>
              registered := DevicesFilteredByVendor("Tektronix");
            case VisaBranch =>
              var keysight := DevicesFilteredByVendor("Keysight");
              var tektronix := DevicesFilteredByVendor("Tektronix");
              registered := keysight + tektronix;
          }
          var listed := FormatAll(route.value, connected);
          FormattedVendors(route.value, connected);
          assert listed == Formatted(route.value, connected);
          AddNewDevice(listed, registered, BranchVendor(route.value), path);
        }
      }
    }

    /**
     * An unbind event: a registered USB device is deleted from all three
     * lists and reported; anything else is ignored.
     */
    method OnUnbind(devType: string, path: string)
      requires Valid()
      modifies this`shortIds, this`vendors, this`paths, this`events
      ensures Valid()
      ensures !(devType == "usb_device" && path in old(paths)) ==>
        shortIds == old(shortIds) && vendors == old(vendors) && paths == old(paths) && events == old(events)
      ensures devType == "usb_device" && path in old(paths) ==>
        var i := IndexOf(old(paths), path);
        shortIds == Delete(old(shortIds), i) && vendors == Delete(old(vendors), i)
        && paths == Delete(old(paths), i) && path !in paths
        && events == old(events) + [Removed(old(shortIds)[i], old(vendors)[i])]
    {
      if devType == "usb_device" && path in paths {
        var idx := IndexOf(paths, path);
        var removedId, removedVendor := shortIds[idx], vendors[idx];
        DeleteDistinct(paths, idx);
        shortIds := Delete(shortIds, idx);
        vendors := Delete(vendors, idx);
        paths := Delete(paths, idx);
        events := events + [Removed(removedId, removedVendor)];
      }
    }

    /** Forget the identification of every resource that is no longer listed. */
    method PruneBusy(resources: seq<string>)
      modifies this`busy
      ensures busy == Prune(old(busy), resources)
    {
      var pending := busy.Keys;
      var toDelete: set<string> := {};
      while pending != {}
        invariant pending <= busy.Keys && busy == old(busy)
        invariant toDelete == set k | k in busy.Keys - pending && k !in resources
        decreases pending
      {
        var key :| key in pending;
        if key !in resources {
          toDelete := toDelete + {key};
        }
        pending := pending - {key};
      }
      busy := busy - toDelete;
    }

    /**
     * `_list_connected_visa_devices`: forget the cached identification of
     * every resource that is no longer listed, then identify every USB
     * resource, querying only those not cached. `query` stands for opening
     * the resource and asking `*IDN?`; `None` is a failed query.
     */
    method ListConnectedVisaDevices(resources: seq<string>, query: string -> Option<Idn>) returns (devs: seq<Idn>)
      modifies this`busy
      ensures devs == VisaListing(resources, |resources|, Prune(old(busy), resources), query, Usable)
      ensures busy == CacheAt(resources, |resources|, Prune(old(busy), resources), query, Usable)
    {
      PruneBusy(resources);
      ghost var cache0 := busy;
      devs := [];
      for n := 0 to |resources|
        invariant devs == VisaListing(resources, n, cache0, query, Usable)
        invariant busy == CacheAt(resources, n, cache0, query, Usable)
      {
        var parts := Split(resources[n], "::");
        assert Usable(resources[n]) <==> |parts| > 3 && Contains(parts[0], "USB");
        if |parts| > 3 && Contains(parts[0], "USB") {
          var resource := resources[n];
          var device: Option<Idn>;
          if resource !in busy {
            CacheAtGrows(resources, n, cache0, query, Usable);
            device := query(resource);
            if device.Some? {
              busy := busy[resource := device.value];
            }
          } else {
            CacheAtInfo(resources, n, cache0, query, Usable, resource);
            device := Some(busy[resource]);
          }
          if device.Some? {
            devs := devs + [device.value];
          }
        }
      }
    }
  }

  /** The formatted listing of a branch. */
  function Formatted(b: Branch, raw: seq<RawDevice>): (listed: seq<Listed>)
    ensures |listed| == |raw|
    ensures forall i :: 0 <= i < |raw| ==> listed[i] == Format(b, raw[i])
  {
    if raw == [] then [] else [Format(b, raw[0])] + Formatted(b, raw[1..])
  }

  lemma FormattedVendors(b: Branch, raw: seq<RawDevice>)
    ensures BranchVendor(b).None? ==> forall l :: l in Formatted(b, raw) ==> l.vendor.Some?
  {
  }

  /** The registered devices a branch compares against: its vendor's, or Keysight's and Tektronix's for VISA. */
  function RegisteredFor(b: Branch, ids: seq<ShortId>, vendors: seq<string>): seq<ShortId>
    requires |ids| == |vendors|
  {
    match b
    case TiepieBranch => ByVendor(ids, vendors, "Tiepie", |vendors|)
    case KeysightBranch => ByVendor(ids, vendors, "Keysight", |vendors|)
    case TektronixBranch => ByVendor(ids, vendors, "Tektronix", |vendors|)
    case VisaBranch => ByVendor(ids, vendors, "Keysight", |vendors|) + ByVendor(ids, vendors, "Tektronix", |vendors|)
  }

  /** What a bind taking branch `b` registers. */
  function BindRegistration(b: Branch, connected: seq<RawDevice>, ids: seq<ShortId>, vendors: seq<string>): Option<(ShortId, string)>
    requires |ids| == |vendors|
  {
    FormattedVendors(b, connected);
    Registration(Formatted(b, connected), RegisteredFor(b, ids, vendors), BranchVendor(b))
  }

  /** Unbinding the path a bind just registered restores the three lists. */
  lemma UnbindUndoesBind(ids: seq<ShortId>, vendors: seq<string>, paths: seq<string>, id: ShortId, v: string, path: string)
    requires |ids| == |vendors| == |paths| && path !in paths
    ensures IndexOf(paths + [path], path) == |paths|
    ensures Delete(ids + [id], |paths|) == ids && Delete(vendors + [v], |paths|) == vendors
    ensures Delete(paths + [path], |paths|) == paths
  {
    assert (paths + [path])[..|paths|] == paths;
  }

  /**
   * The device listing a branch obtains, as written: `None` when it raises.
   * The VISA branch hands the listing loop the bare VISA listing method where
   * the loop expects a list of methods; iterating over it raises a
   * `TypeError`, which the loop's `OSError` handler does not catch. The other
   * branches get what the vendor library lists.
   */
  function ListingAsWritten(b: Branch, connected: seq<RawDevice>): Option<seq<RawDevice>>
  {
    if b == VisaBranch then None else Some(connected)
  }

  /**
   * What a bind taking branch `b` does as written: `None` when it raises,
   * `Some(None)` when it registers nothing, `Some(Some(r))` when it
   * registers `r`.
   */
  function BindAsWritten(b: Branch, connected: seq<RawDevice>, ids: seq<ShortId>, vendors: seq<string>): Option<Option<(ShortId, string)>>
    requires |ids| == |vendors|
  {
    match ListingAsWritten(b, connected)
    case None => None
    case Some(raw) =>
      var all := Formatted(b, raw);
      match FirstNew(all, RegisteredFor(b, ids, vendors))
      case None => Some(None)
      case Some(i) =>
        match ShortIdAsWritten(all[i])
        case None => None
        case Some(id) =>
          FormattedVendors(b, raw);
          Some(Some((id, VendorFor(BranchVendor(b), all[i]))))
  }

  /**
   * As written, a VISA bind raises whatever is connected; a TiePie or
   * Keysight bind raises exactly when the corrected bind registers a device;
   * only the Tektronix branch behaves as intended.
   */
  lemma BindAsWrittenSpec(b: Branch, connected: seq<RawDevice>, ids: seq<ShortId>, vendors: seq<string>)
    requires |ids| == |vendors|
    ensures b == VisaBranch ==> BindAsWritten(b, connected, ids, vendors).None?
    ensures b == TiepieBranch || b == KeysightBranch ==>
      (BindAsWritten(b, connected, ids, vendors).None? <==> BindRegistration(b, connected, ids, vendors).Some?)
    ensures b == TektronixBranch ==>
      BindAsWritten(b, connected, ids, vendors) == Some(BindRegistration(b, connected, ids, vendors))
  {
    if b != VisaBranch {
      var all := Formatted(b, connected);
      match FirstNew(all, RegisteredFor(b, ids, vendors))
      case None =>
      case Some(i) =>
        FormatSpec(b, connected[i]);
    }
  }

  /**
   * A Tektronix AFG1022 generator, reported through VISA, is lost as
   * written, while the corrected bind registers it under its own vendor.
   */
  lemma VisaBindAsWrittenLosesDevice()
    ensures BindAsWritten(VisaBranch, [RawDevice("TEKTRONIX", "AFG1022", "C012345")], [], []).None?
    ensures BindRegistration(VisaBranch, [RawDevice("TEKTRONIX", "AFG1022", "C012345")], [], [])
      == Some((ShortId("AFG1022", "C012345", None), "Tektronix"))
  {
    var all := Formatted(VisaBranch, [RawDevice("TEKTRONIX", "AFG1022", "C012345")]);
    assert all[0] == Listed(Some("Tektronix"), "AFG1022", "C012345", None);
    assert RegisteredFor(VisaBranch, [], []) == [];
    assert !Known(all[0], []);
  }

  /**
   * The corrected VISA bind registers a device exactly when some connected
   * device is registered under neither Keysight nor Tektronix; it then
   * registers such a device, by model and serial number, under the vendor
   * its manufacturer string names.
   */
  lemma VisaBindRegisters(connected: seq<RawDevice>, ids: seq<ShortId>, vendors: seq<string>)
    requires |ids| == |vendors|
    ensures var registered := ByVendor(ids, vendors, "Keysight", |vendors|) + ByVendor(ids, vendors, "Tektronix", |vendors|);
      BindRegistration(VisaBranch, connected, ids, vendors).Some? <==>
        exists d :: d in connected && !Known(Format(VisaBranch, d), registered)
    ensures var registered := ByVendor(ids, vendors, "Keysight", |vendors|) + ByVendor(ids, vendors, "Tektronix", |vendors|);
      BindRegistration(VisaBranch, connected, ids, vendors).Some? ==>
        exists d :: d in connected && !Known(Format(VisaBranch, d), registered)
          && BindRegistration(VisaBranch, connected, ids, vendors).value
             == (ShortId(d.model, d.serial, None), VisaVendor(d.manufacturer))
  {
    var registered := RegisteredFor(VisaBranch, ids, vendors);
    var all := Formatted(VisaBranch, connected);
    FormattedVendors(VisaBranch, connected);
    RegistrationSpec(all, registered, None);
    match FirstNew(all, registered)
    case None =>
      forall d | d in connected ensures Known(Format(VisaBranch, d), registered) {
        var k :| 0 <= k < |connected| && connected[k] == d;
        assert all[k] == Format(VisaBranch, d);
      }
    case Some(i) =>
      assert all[i] == Format(VisaBranch, connected[i]);
      assert connected[i] in connected;
  }

  // ---------------------------------------------------------------------
  // The VISA identification cache

  /** A VISA resource with more than three '::'-separated parts whose first part mentions USB. */
  predicate Usable(resource: string)
  {
    var parts := Split(resource, "::");
    |parts| > 3 && Contains(parts[0], "USB")
  }

  /** The cache without the entries of resources that are no longer listed. */
  function Prune(cache: map<string, Idn>, resources: seq<string>): (c: map<string, Idn>)
    ensures forall k :: k in c <==> k in cache && k in resources
    ensures forall k :: k in c ==> c[k] == cache[k]
  {
    map k | k in cache && k in resources :: cache[k]
  }

  /** The identification of a resource: the cached one, else the query's answer. */
  function Info(r: string, cache: map<string, Idn>, query: string -> Option<Idn>): Option<Idn>
  {
    if r in cache then Some(cache[r]) else query(r)
  }

  /** The identifications of the first `n` resources that are usable and answer. */
  function VisaListing(resources: seq<string>, n: nat, cache: map<string, Idn>, query: string -> Option<Idn>, usable: string -> bool): seq<Idn>
    requires n <= |resources|
  {
    if n == 0 then []
    else
      var r := resources[n - 1];
      VisaListing(resources, n - 1, cache, query, usable)
        + (if usable(r) && Info(r, cache, query).Some? then [Info(r, cache, query).value] else [])
  }

  /** The cache after the first `n` resources: every successful new query is added. */
  function CacheAt(resources: seq<string>, n: nat, cache: map<string, Idn>, query: string -> Option<Idn>, usable: string -> bool): map<string, Idn>
    requires n <= |resources|
  {
    if n == 0 then cache
    else
      var c := CacheAt(resources, n - 1, cache, query, usable);
      var r := resources[n - 1];
      if usable(r) && r !in c && query(r).Some? then c[r := query(r).value] else c
  }

  /** Every cached identification is the resource's identification. */
  lemma {:induction false} CacheAtInfo(resources: seq<string>, n: nat, cache: map<string, Idn>,
                                       query: string -> Option<Idn>, usable: string -> bool, k: string)
    requires n <= |resources| && k in CacheAt(resources, n, cache, query, usable)
    ensures Info(k, cache, query) == Some(CacheAt(resources, n, cache, query, usable)[k])
  {
    if n > 0 {
      var c := CacheAt(resources, n - 1, cache, query, usable);
      CacheAtGrows(resources, n - 1, cache, query, usable);
      if k in c {
        CacheAtInfo(resources, n - 1, cache, query, usable, k);
      }
    }
  }

  /** The cache only grows. */
  lemma {:induction false} CacheAtGrows(resources: seq<string>, n: nat, cache: map<string, Idn>, query: string -> Option<Idn>, usable: string -> bool)
    requires n <= |resources|
    ensures cache.Keys <= CacheAt(resources, n, cache, query, usable).Keys
  {
    if n > 0 {
      CacheAtGrows(resources, n - 1, cache, query, usable);
    }
  }

  /** The cache holds the old entries and the usable resources seen so far that answered. */
  lemma {:induction false} CacheAtKeys(resources: seq<string>, n: nat, cache: map<string, Idn>, query: string -> Option<Idn>, usable: string -> bool)
    requires n <= |resources|
    ensures forall k :: k in CacheAt(resources, n, cache, query, usable) <==>
      k in cache || (k in resources[..n] && usable(k) && query(k).Some?)
  {
    if n > 0 {
      CacheAtKeys(resources, n - 1, cache, query, usable);
      assert resources[..n] == resources[..n - 1] + [resources[n - 1]];
    }
  }

  /**
   * After the listing the cache holds exactly the listed resources that
   * were cached before or are usable and answered; resources no longer
   * listed are gone.
   */
  lemma CacheSpec(resources: seq<string>, old_cache: map<string, Idn>, query: string -> Option<Idn>, usable: string -> bool)
    ensures forall k :: k in CacheAt(resources, |resources|, Prune(old_cache, resources), query, usable) <==>
      k in resources && (k in old_cache || (usable(k) && query(k).Some?))
  {
    CacheAtKeys(resources, |resources|, Prune(old_cache, resources), query, usable);
    assert resources[..|resources|] == resources;
  }

  /**
   * The listing holds one identification per usable resource that has one,
   * in resource order, and nothing else.
   */
  lemma {:induction false} VisaListingSpec(resources: seq<string>, n: nat, cache: map<string, Idn>, query: string -> Option<Idn>, usable: string -> bool)
    requires n <= |resources|
    ensures forall d :: d in VisaListing(resources, n, cache, query, usable) ==>
      exists i :: 0 <= i < n && usable(resources[i]) && Info(resources[i], cache, query) == Some(d)
    ensures forall i :: 0 <= i < n && usable(resources[i]) && Info(resources[i], cache, query).Some? ==>
      Info(resources[i], cache, query).value in VisaListing(resources, n, cache, query, usable)
  {
    if n > 0 {
      VisaListingSpec(resources, n - 1, cache, query, usable);
      var prev := VisaListing(resources, n - 1, cache, query, usable);
      var r := resources[n - 1];
      var last := if usable(r) && Info(r, cache, query).Some? then [Info(r, cache, query).value] else [];
      assert VisaListing(resources, n, cache, query, usable) == prev + last;
      forall d | d in prev + last
        ensures exists i :: 0 <= i < n && usable(resources[i]) && Info(resources[i], cache, query) == Some(d)
      {
        if d !in prev {
          assert usable(resources[n - 1]) && Info(resources[n - 1], cache, query) == Some(d);
        }
      }
    }
  }
}
