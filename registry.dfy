/** The list of monitored devices and the three edits the configuration screen makes
    to it. Each entry is a record of address, name and telnet port. */
module Registry {

  datatype Device = Device(ip: string, name: string, port: int)

  /** Every device is added with the telnet port. */
  const TelnetPort: int := 23

  /** Why an addition was refused, or that it was made. */
  datatype Admission = Full | Blank | Added

  /** The list without the devices named `name`: `[d for d in devices if d["name"] != name]`. */
  function Without(s: seq<Device>, name: string): (r: seq<Device>)
    ensures |r| <= |s|
    ensures forall d :: d in r <==> d in s && d.name != name
  {
    if s == [] then []
    else if s[0].name == name then Without(s[1..], name)
    else [s[0]] + Without(s[1..], name)
  }

  /** Deletion keeps the order of what remains: it works piece by piece. */
  lemma {:induction false} WithoutAppend(a: seq<Device>, b: seq<Device>, name: string)
    ensures Without(a + b, name) == Without(a, name) + Without(b, name)
    decreases |a|
  {
    if a != [] {
      var ab := a + b;
      assert ab != [] && ab[0] == a[0] && ab[1..] == a[1..] + b;
      WithoutAppend(a[1..], b, name);
      if a[0].name == name {
        assert Without(ab, name) == Without(a[1..] + b, name);
        assert Without(a, name) == Without(a[1..], name);
      } else {
        assert Without(ab, name) == [a[0]] + Without(a[1..] + b, name);
        assert Without(a, name) == [a[0]] + Without(a[1..], name);
      }
    } else {
      assert a + b == b;
    }
  }

  /** A list with no device of that name is left as it is. */
  lemma {:induction false} WithoutAbsent(s: seq<Device>, name: string)
    requires forall i :: 0 <= i < |s| ==> s[i].name != name
    ensures Without(s, name) == s
    decreases |s|
  {
    if s != [] {
      WithoutAbsent(s[1..], name);
    }
  }

  /** Index of the first device named `name`, or `|s|` when there is none. */
  function FirstNamed(s: seq<Device>, name: string): (k: nat)
    ensures k <= |s|
    ensures k < |s| ==> s[k].name == name
    ensures forall i :: 0 <= i < k ==> s[i].name != name
    decreases |s|
  {
    if s == [] then 0
    else if s[0].name == name then 0
    else 1 + FirstNamed(s[1..], name)
  }

  /** The list after the first device named `name` gets a new address and name; its
      port and every other entry stay as they are. */
  function Renamed(s: seq<Device>, name: string, ip: string, newName: string): (r: seq<Device>)
    ensures |r| == |s|
    ensures forall i :: 0 <= i < |s| && i != FirstNamed(s, name) ==> r[i] == s[i]
    ensures FirstNamed(s, name) < |s| ==>
      r[FirstNamed(s, name)] == Device(ip, newName, s[FirstNamed(s, name)].port)
  {
    var k := FirstNamed(s, name);
    if k < |s| then s[k := Device(ip, newName, s[k].port)] else s
  }

  /** Renaming touches at most one entry: any later device with the same name keeps it. */
  lemma RenamedOnlyFirst(s: seq<Device>, name: string, ip: string, newName: string, j: nat)
    requires j < |s| && s[j].name == name && j != FirstNamed(s, name)
    ensures FirstNamed(s, name) < j && Renamed(s, name, ip, newName)[j].name == name
  {
  }

  class DeviceList {
    var devices: seq<Device>

    constructor(devices: seq<Device>)
      ensures this.devices == devices
    {
      this.devices := devices;
    }

    /** `add_device` once the entries have been read: refused when the list already holds
        `cap` devices (checked first), then when the address or the name is empty;
        otherwise exactly one device is appended, on the telnet port. */
    method Add(ip: string, name: string, cap: nat) returns (a: Admission)
      modifies this
      ensures a == Full <==> |old(devices)| >= cap
      ensures a == Blank <==> |old(devices)| < cap && (ip == "" || name == "")
      ensures a == Added ==> devices == old(devices) + [Device(ip, name, TelnetPort)]
      ensures a != Added ==> devices == old(devices)
      ensures |old(devices)| <= cap ==> |devices| <= cap
    {
      if |devices| >= cap {
        return Full;
      }
      if ip == "" || name == "" {
        return Blank;
      }
      devices := devices + [Device(ip, name, TelnetPort)];
      return Added;
    }

    /** `delete_device`: every device with that name goes, the rest keep their order. */
    method Delete(name: string)
      modifies this
      ensures devices == Without(old(devices), name)
    {
      devices := Without(devices, name);
    }

    /** `edit_device`: walks the list and updates the first device with that name in
        place, then stops; with no such device nothing changes. */
    method Edit(name: string, ip: string, newName: string)
      modifies this
      ensures devices == Renamed(old(devices), name, ip, newName)
    {
      var i := 0;
      while i < |devices|
        invariant 0 <= i <= |devices|
        invariant devices == old(devices)
        invariant forall j :: 0 <= j < i ==> devices[j].name != name
      {
        if devices[i].name == name {
          devices := devices[i := Device(ip, newName, devices[i].port)];
          break;
        }
        i := i + 1;
      }
    }
  }
}
