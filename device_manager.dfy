/**
 * The device list. When a device appears (a USB device is plugged in, or the
 * software math oscilloscope at start-up) the classes for its vendor are
 * instantiated and appended; when it disappears every device with its name,
 * serial number and vendor is shut down and removed. Each change is
 * reported as a list event.
 */
module DeviceManager {
  import opened Common
  import opened Device

  /** The device classes the manager instantiates. */
  datatype Kind = MathOscKind | TiepieOscKind | TiepieGenKind | KeysightOscKind | TektronixGenKind

  /** The vendor each class passes to the device base constructor. */
  function VendorOf(k: Kind): string
  {
    match k
    case MathOscKind => "MS-SWAG"
    case TiepieOscKind => "Tiepie"
    case TiepieGenKind => "Tiepie"
    case KeysightOscKind => "Keysight"
    case TektronixGenKind => "Tektronix"
  }

  /** The device type of each class: oscilloscope or generator. */
  function TypeOf(k: Kind): string
  {
    match k
    case TiepieGenKind => "Gen"
    case TektronixGenKind => "Gen"
    case _ => "Osc"
  }

  /** The classes instantiated for a vendor, in order. */
  function KindsFor(vendor: string): seq<Kind>
  {
    if vendor == "MS-SWAG" then [MathOscKind]
    else if vendor == "Tiepie" then [TiepieOscKind, TiepieGenKind]
    else if vendor == "Keysight" then [KeysightOscKind]
    else if vendor == "Tektronix" then [TektronixGenKind]
    else []
  }

  /**
   * A vendor gets exactly the classes that carry its name, each once, the
   * oscilloscope before the generator; an unknown vendor gets none.
   */
  lemma KindsForSpec(vendor: string)
    ensures forall k :: k in KindsFor(vendor) <==> VendorOf(k) == vendor
    ensures Distinct(KindsFor(vendor))
    ensures |KindsFor(vendor)| <= 2
    ensures |KindsFor(vendor)| == 2 ==>
      TypeOf(KindsFor(vendor)[0]) == "Osc" && TypeOf(KindsFor(vendor)[1]) == "Gen"
    ensures vendor !in {"MS-SWAG", "Tiepie", "Keysight", "Tektronix"} ==> KindsFor(vendor) == []
  {
  }

  /** A device object together with its class. */
  datatype Entry = Entry(kind: Kind, dev: Device)

  /** The `list_event` callback's arguments: 'add' or 'remove' and the devices concerned. */
  datatype ListEvent = ListEvent(action: string, devs: seq<Entry>)

  /** Whether a device has the given name, serial number and vendor (the type is ignored). */
  predicate Matches(e: Entry, name: string, serNo: string, vendor: string)
  {
    e.dev.id.name == name && e.dev.id.serNo == serNo && e.dev.id.vendor == vendor
  }

  /** The devices that match, in list order. */
  function Matching(s: seq<Entry>, name: string, serNo: string, vendor: string): seq<Entry>
  {
    if s == [] then []
    else (if Matches(s[0], name, serNo, vendor) then [s[0]] else []) + Matching(s[1..], name, serNo, vendor)
  }

  /** The devices that do not match, in list order. */
  function NotMatching(s: seq<Entry>, name: string, serNo: string, vendor: string): seq<Entry>
  {
    if s == [] then []
    else (if Matches(s[0], name, serNo, vendor) then [] else [s[0]]) + NotMatching(s[1..], name, serNo, vendor)
  }

  lemma {:induction false} MatchingAppend(s: seq<Entry>, e: Entry, name: string, serNo: string, vendor: string)
    ensures Matching(s + [e], name, serNo, vendor) ==
      Matching(s, name, serNo, vendor) + (if Matches(e, name, serNo, vendor) then [e] else [])
  {
    if s != [] {
      assert (s + [e])[1..] == s[1..] + [e];
      MatchingAppend(s[1..], e, name, serNo, vendor);
    }
  }

  lemma {:induction false} MatchingMembers(s: seq<Entry>, name: string, serNo: string, vendor: string)
    ensures forall e :: e in Matching(s, name, serNo, vendor) <==> e in s && Matches(e, name, serNo, vendor)
    ensures forall e :: e in NotMatching(s, name, serNo, vendor) <==> e in s && !Matches(e, name, serNo, vendor)
  {
    if s != [] {
      MatchingMembers(s[1..], name, serNo, vendor);
      assert s == [s[0]] + s[1..];
    }
  }

  /** Filtering out the matching devices one by one leaves exactly the non-matching ones. */
  lemma {:induction false} WithoutMatching(s: seq<Entry>, r: seq<Entry>, name: string, serNo: string, vendor: string)
    requires forall e :: e in s ==> (e in r <==> Matches(e, name, serNo, vendor))
    ensures Without(s, r) == NotMatching(s, name, serNo, vendor)
  {
    if s != [] {
      WithoutMatching(s[1..], r, name, serNo, vendor);
    }
  }

  lemma {:induction false} NotMatchingDistinct(s: seq<Entry>, name: string, serNo: string, vendor: string)
    requires Distinct(s)
    ensures Distinct(NotMatching(s, name, serNo, vendor))
  {
    if s != [] {
      DistinctTail(s);
      NotMatchingDistinct(s[1..], name, serNo, vendor);
      MatchingMembers(s[1..], name, serNo, vendor);
      var t := NotMatching(s[1..], name, serNo, vendor);
      if !Matches(s[0], name, serNo, vendor) {
        var u := [s[0]] + t;
        forall i, j | 0 <= i < j < |u| ensures u[i] != u[j] {
          if i == 0 {
            assert u[j] == t[j - 1] && t[j - 1] in t;
          } else {
            assert u[i] == t[i - 1] && u[j] == t[j - 1];
          }
        }
      }
    }
  }

  class Manager {
    /** The connected devices. */
    var devices: seq<Entry>
    /** The devices whose `init_deletion` has run, in call order. */
    var deinitialised: seq<Entry>

    /** Each device object is listed once and carries its class's vendor and type. */
    ghost predicate Valid()
      reads this
    {
      Distinct(devices)
      && forall e :: e in devices ==> e.dev.id.vendor == VendorOf(e.kind) && e.dev.id.devType == TypeOf(e.kind)
    }

    /** Start-up registers the math oscilloscope 'MathOsc' with serial number '123'. */
    constructor ()
      ensures Valid() && deinitialised == []
      ensures |devices| == 1 && devices[0].kind == MathOscKind
      ensures devices[0].dev.id == DeviceId("MS-SWAG", "MathOsc", "123", "Osc")
    {
      devices := [];
      deinitialised := [];
      new;
      var _ := OnAddDevice("MathOsc", "123", "MS-SWAG");
      assert KindsFor("MS-SWAG")[0] == MathOscKind;
    }

    /** Instantiate one device class. */
    static method Create(k: Kind, name: string, serNo: string) returns (e: Entry)
      ensures e.kind == k && e.dev.id == DeviceId(VendorOf(k), name, serNo, TypeOf(k)) && fresh(e.dev)
    {
      var d := new Device(VendorOf(k), name, serNo, TypeOf(k));
      e := Entry(k, d);
    }

    /**
     * `_on_add_device`: create the devices for the vendor, append them in
     * order and report exactly them.
     */
    method OnAddDevice(name: string, serNo: string, vendor: string) returns (event: ListEvent)
      requires Valid()
      modifies this`devices
      ensures Valid()
      ensures |devices| == |old(devices)| + |KindsFor(vendor)| && devices[..|old(devices)|] == old(devices)
      ensures event == ListEvent("add", devices[|old(devices)|..])
      ensures forall i :: 0 <= i < |KindsFor(vendor)| ==>
        devices[|old(devices)| + i].kind == KindsFor(vendor)[i]
        && devices[|old(devices)| + i].dev.id == DeviceId(vendor, name, serNo, TypeOf(KindsFor(vendor)[i]))
        && fresh(devices[|old(devices)| + i].dev)
    {
      KindsForSpec(vendor);
      var added: seq<Entry> := [];
      if vendor == "MS-SWAG" {
        var e := Create(MathOscKind, name, serNo);
        added := [e];
      } else if vendor == "Tiepie" {
        var e1 := Create(TiepieOscKind, name, serNo);
        var e2 := Create(TiepieGenKind, name, serNo);
        added := [e1, e2];
      } else if vendor == "Keysight" {
        var e := Create(KeysightOscKind, name, serNo);
        added := [e];
      } else if vendor == "Tektronix" {
        var e := Create(TektronixGenKind, name, serNo);
        added := [e];
      }
      var i := 0;
      while i < |added|
        invariant 0 <= i <= |added|
        invariant devices == old(devices) + added[..i]
        invariant Valid()
      {
        assert added[i] !in devices;
        assert devices + [added[i]] == old(devices) + added[..i + 1];
        devices := devices + [added[i]];
        i := i + 1;
      }
      assert added[..i] == added;
      event := ListEvent("add", added);
    }

    /**
     * `_on_remove_device`: shut down every device with the given name,
     * serial number and vendor, in list order, then remove each from the
     * list and report exactly them.
     */
    method OnRemoveDevice(name: string, serNo: string, vendor: string) returns (event: ListEvent)
      requires Valid()
      modifies this`devices, this`deinitialised
      ensures Valid()
      ensures devices == NotMatching(old(devices), name, serNo, vendor)
      ensures deinitialised == old(deinitialised) + Matching(old(devices), name, serNo, vendor)
      ensures event == ListEvent("remove", Matching(old(devices), name, serNo, vendor))
    {
      var removed := ShutDownMatching(name, serNo, vendor);
      ghost var before := devices;
      RemoveEach(removed);
      MatchingMembers(before, name, serNo, vendor);
      WithoutMatching(before, removed, name, serNo, vendor);
      NotMatchingDistinct(before, name, serNo, vendor);
      event := ListEvent("remove", removed);
    }

    /** The first loop of `_on_remove_device`: shut down every matching device, in list order. */
    method ShutDownMatching(name: string, serNo: string, vendor: string) returns (removed: seq<Entry>)
      modifies this`deinitialised
      ensures removed == Matching(devices, name, serNo, vendor)
      ensures deinitialised == old(deinitialised) + removed
    {
      removed := [];
      var i := 0;
      while i < |devices|
        invariant 0 <= i <= |devices|
        invariant removed == Matching(devices[..i], name, serNo, vendor)
        invariant deinitialised == old(deinitialised) + removed
      {
        MatchingAppend(devices[..i], devices[i], name, serNo, vendor);
        assert devices[..i + 1] == devices[..i] + [devices[i]];
        if Matches(devices[i], name, serNo, vendor) {
          deinitialised := deinitialised + [devices[i]];
          removed := removed + [devices[i]];
        }
        i := i + 1;
      }
      assert devices[..i] == devices;
    }

    /** The second loop of `_on_remove_device`: `list.remove` each shut-down device. */
    method RemoveEach(removed: seq<Entry>)
      requires Distinct(devices)
      modifies this`devices
      ensures devices == Without(old(devices), removed)
    {
      ghost var before := devices;
      WithoutNothing(before);
      assert removed[..0] == [];
      var j := 0;
      while j < |removed|
        invariant 0 <= j <= |removed|
        invariant devices == Without(before, removed[..j])
      {
        RemoveFirstWithout(before, removed[..j], removed[j]);
        assert removed[..j + 1] == removed[..j] + [removed[j]];
        devices := RemoveFirst(devices, removed[j]);
        j := j + 1;
      }
      assert removed[..j] == removed;
    }
  }
}
