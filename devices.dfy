/** Input-device discovery and the device selector: which audio devices are
    offered, how each is labelled, and how a chosen label is read back into
    a device index. */
module Devices {
  import opened Strings

  /** What the audio library reports for one device index. */
  datatype DeviceInfo = DeviceInfo(maxInputChannels: int, name: string)

  /** The answer to one per-index query: the record, or an exception. */
  datatype Lookup = Found(info: DeviceInfo) | LookupFailed

  /** One enumeration attempt. `EnumerationFailed` stands for an exception
      while opening the library or counting devices; otherwise `lookups[i]`
      is the answer for index i and `closeOk` says whether releasing the
      library succeeded. */
  datatype Enumeration = EnumerationFailed | Enumerated(lookups: seq<Lookup>, closeOk: bool)

  /** An entry of the input-device list: a device index and its name. */
  datatype InputDevice = InputDevice(index: nat, name: string)

  /** The enumeration ran to the end without any exception. */
  predicate Completed(e: Enumeration) {
    e.Enumerated? && e.closeOk && forall i :: 0 <= i < |e.lookups| ==> e.lookups[i].Found?
  }

  /** Index `i` was answered with a device that can record. */
  predicate IsInputAt(lookups: seq<Lookup>, i: int) {
    0 <= i < |lookups| && lookups[i].Found? && lookups[i].info.maxInputChannels > 0
  }

  /** The devices with at least one input channel among the answers, in
      index order, each paired with its index and its own name. */
  function InputList(lookups: seq<Lookup>): seq<InputDevice>
    decreases |lookups|
  {
    if lookups == [] then []
    else
      var n := |lookups| - 1;
      var prev := InputList(lookups[..n]);
      if IsInputAt(lookups, n) then prev + [InputDevice(n, lookups[n].info.name)] else prev
  }

  /** Every listed entry is an input device, named as the library names it. */
  lemma {:induction false} InputListSound(lookups: seq<Lookup>)
    ensures forall k :: 0 <= k < |InputList(lookups)| ==>
      IsInputAt(lookups, InputList(lookups)[k].index)
      && InputList(lookups)[k].name == lookups[InputList(lookups)[k].index].info.name
    decreases |lookups|
  {
    if lookups != [] {
      var n := |lookups| - 1;
      InputListSound(lookups[..n]);
      var prev := InputList(lookups[..n]);
      forall k | 0 <= k < |prev| ensures IsInputAt(lookups, prev[k].index) {
        assert IsInputAt(lookups[..n], prev[k].index);
      }
    }
  }

  /** Every input device appears in the list, under its own name. */
  lemma {:induction false} InputListComplete(lookups: seq<Lookup>)
    ensures forall i :: IsInputAt(lookups, i) ==> InputDevice(i, lookups[i].info.name) in InputList(lookups)
  {
    forall i | IsInputAt(lookups, i)
      ensures InputDevice(i, lookups[i].info.name) in InputList(lookups)
    {
      var k := InputListHas(lookups, i);
    }
  }

  /** Where input device `i` stands in the list. */
  lemma {:induction false} InputListHas(lookups: seq<Lookup>, i: int) returns (k: nat)
    requires IsInputAt(lookups, i)
    ensures k < |InputList(lookups)| && InputList(lookups)[k] == InputDevice(i, lookups[i].info.name)
    decreases |lookups|
  {
    var n := |lookups| - 1;
    var prev := InputList(lookups[..n]);
    if i == n {
      k := |prev|;
    } else {
      assert IsInputAt(lookups[..n], i);
      k := InputListHas(lookups[..n], i);
    }
  }

  /** The list is in strictly increasing index order, so no device is
      listed twice. */
  lemma {:induction false} InputListSorted(lookups: seq<Lookup>)
    ensures forall k :: 0 <= k < |InputList(lookups)| ==> InputList(lookups)[k].index < |lookups|
    ensures forall k, l :: 0 <= k < l < |InputList(lookups)| ==>
      InputList(lookups)[k].index < InputList(lookups)[l].index
    decreases |lookups|
  {
    if lookups != [] {
      InputListSorted(lookups[..|lookups| - 1]);
    }
  }

  /** The device list built at start-up: the devices with at least one input
      channel, in index order; any exception during enumeration gives the
      empty list. */
  method GetInputDevices(e: Enumeration) returns (devices: seq<InputDevice>)
    ensures devices == if Completed(e) then InputList(e.lookups) else []
  {
    if e.EnumerationFailed? {
      return [];
    }
    var lookups := e.lookups;
    var found: seq<InputDevice> := [];
    for i := 0 to |lookups|
      invariant forall j :: 0 <= j < i ==> lookups[j].Found?
      invariant found == InputList(lookups[..i])
    {
      assert lookups[..i + 1][..i] == lookups[..i];
      match lookups[i]
      case LookupFailed =>
        return [];
      case Found(info) =>
        if info.maxInputChannels > 0 {
          found := found + [InputDevice(i, info.name)];
        }
    }
    assert lookups[..|lookups|] == lookups;
    if !e.closeOk {
      return [];
    }
    devices := found;
  }

  // ---------------------------------------------------------------------
  // The device selector

  /** The selector's only entry when there is no input device. */
  const NoDevices: string := "Нет доступных устройств"

  /** How a device is shown in the selector: "<index>: <name>". */
  function DeviceLabel(d: InputDevice): string {
    Decimal(d.index) + ": " + d.name
  }

  /** The selector's entries: one label per device, or the placeholder. */
  function SelectorValues(devices: seq<InputDevice>): (values: seq<string>)
    ensures |values| >= 1
  {
    if devices == [] then [NoDevices]
    else seq(|devices|, k requires 0 <= k < |devices| => DeviceLabel(devices[k]))
  }

  /** The device picked by a selector entry: the integer before the first
      colon, or None (the default device) when there are no devices, the
      entry is the placeholder, or the text before the colon is not an
      integer. */
  function SelectedDevice(devices: seq<InputDevice>, selected: string): (id: Option<int>)
    ensures id.Some? ==> devices != [] && selected != NoDevices
  {
    if devices != [] && selected != NoDevices then ParseInt(BeforeColon(selected)) else None
  }

  /** A device's label is split back at its first colon into the numeral. */
  lemma LabelPrefix(d: InputDevice)
    ensures BeforeColon(DeviceLabel(d)) == Decimal(d.index)
  {
    var digits := Decimal(d.index);
    assert ':' !in digits by {
      forall k | 0 <= k < |digits| ensures digits[k] != ':' { assert IsDigit(digits[k]); }
    }
    assert DeviceLabel(d) == digits + (": " + d.name);
    BeforeColonOfPrefix(digits, ": " + d.name);
  }

  /** Choosing the label of a device selects that device's index,
      whatever its name (a name may itself contain colons). */
  lemma LabelSelectsDevice(devices: seq<InputDevice>, d: InputDevice)
    requires devices != []
    ensures SelectedDevice(devices, DeviceLabel(d)) == Some(d.index)
  {
    LabelPrefix(d);
    ParseDecimal(d.index);
    assert DeviceLabel(d) != NoDevices by {
      assert IsDigit(DeviceLabel(d)[0]) && !IsDigit(NoDevices[0]);
    }
  }

  /** Whichever selector entry is chosen, the selection is the device that
      entry lists, or None when the selector shows the placeholder. */
  lemma SelectorEntrySelects(devices: seq<InputDevice>, k: nat)
    requires k < |SelectorValues(devices)|
    ensures SelectedDevice(devices, SelectorValues(devices)[k])
            == if devices == [] then None else Some(devices[k].index)
  {
    if devices != [] {
      LabelSelectsDevice(devices, devices[k]);
    }
  }

  /** An entry with no digit before its first colon selects nothing. */
  lemma NonNumericPrefixSelectsNone(devices: seq<InputDevice>, selected: string)
    requires forall k :: 0 <= k < |BeforeColon(selected)| ==> !IsDigit(BeforeColon(selected)[k])
    ensures SelectedDevice(devices, selected) == None
  {
    NoDigitNoInt(BeforeColon(selected));
  }
}
