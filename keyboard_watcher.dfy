/**
 * The keyboard presence tracker: which WMI devices count as keyboards, the set of
 * connected keyboard ids, the full rescan that rebuilds it, and the four WMI
 * notification handlers that add or remove one id.
 */
module KeyboardWatching {
  import opened Wrappers
  import opened Text

  /** One WMI object as the core reads it; a property that is null is None. */
  datatype DeviceRecord = DeviceRecord(
    deviceId: Option<string>,
    name: Option<string>,
    description: Option<string>,
    pnpClass: Option<string>)

  /** The events the watcher raises, in the order it raises them. */
  datatype WatcherEvent =
    | KeyboardConnected(deviceId: string, description: string)
    | KeyboardDisconnected(deviceId: string, description: string)
    | KeyboardCountChanged(count: int)

  /** What one rescan's two WMI queries return, and where (if anywhere) enumerating them throws. */
  datatype Enumeration = Enumeration(keyboards: seq<DeviceRecord>, pnp: seq<DeviceRecord>, failAfter: Option<nat>)

  const RootPrefix: string := "ROOT\\"

  /** `string.IsNullOrEmpty` */
  predicate IsNullOrEmpty(s: Option<string>) {
    s.None? || s.value == ""
  }

  /**
   * A device the tracker must ignore: one without an id, one whose id starts with
   * `ROOT\` in any letter case, or one whose lowered name mentions virtual or remote.
   */
  predicate IsVirtualKeyboard(deviceId: Option<string>, name: Option<string>)
    ensures IsNullOrEmpty(deviceId) ==> IsVirtualKeyboard(deviceId, name)
    ensures deviceId.Some? && |deviceId.value| >= 5 && Lower(deviceId.value[..5]) == "root\\" ==>
      IsVirtualKeyboard(deviceId, name)
    ensures !IsNullOrEmpty(deviceId) && !StartsWithIgnoreCase(deviceId.value, RootPrefix) ==>
      (IsVirtualKeyboard(deviceId, name) <==>
        name.Some? && (Occurs(Lower(name.value), "virtual") || Occurs(Lower(name.value), "remote")))
  {
    assert Lower(RootPrefix) == "root\\";
    if IsNullOrEmpty(deviceId) then true
    else if StartsWithIgnoreCase(deviceId.value, RootPrefix) then true
    else if name.Some? then
      var lowerName := Lower(name.value);
      Contains(lowerName, "virtual") || Contains(lowerName, "remote")
    else false
  }

  /** Whether a lower-cased name or description names a keyboard, in English or Chinese. */
  predicate MentionsKeyboard(lowered: string) {
    Contains(lowered, "keyboard") || Contains(lowered, "键盘")
  }

  /**
   * The test a PnP creation event must pass: PNPClass "Keyboard" in any case, or a
   * name or description that mentions a keyboard and is not virtual. The source's
   * HID `VID_`/`PID_` test has an empty body and decides nothing, so it is absent.
   */
  predicate IsKeyboardDevice(d: DeviceRecord)
    ensures d.pnpClass.Some? && EqualsIgnoreCase(d.pnpClass.value, "Keyboard") ==> IsKeyboardDevice(d)
    ensures IsKeyboardDevice(d) ==>
      (d.pnpClass.Some? && EqualsIgnoreCase(d.pnpClass.value, "Keyboard"))
      || MentionsKeyboard(Lower(d.name.GetOr(""))) || MentionsKeyboard(Lower(d.description.GetOr("")))
  {
    var name := Lower(d.name.GetOr(""));
    var description := Lower(d.description.GetOr(""));
    var deviceId := d.deviceId.GetOr("");
    if d.pnpClass.Some? && EqualsIgnoreCase(d.pnpClass.value, "Keyboard") then true
    else if MentionsKeyboard(name) || MentionsKeyboard(description) then !IsVirtualKeyboard(Some(deviceId), Some(name))
    else false
  }

  /** The id a Win32_Keyboard record contributes to a scan: any non-empty id. */
  function KeyboardIdOf(d: DeviceRecord): set<string> {
    if IsNullOrEmpty(d.deviceId) then {} else {d.deviceId.value}
  }

  /** The id a PnP record contributes to a scan: a non-empty id that is not virtual. */
  function PnpIdOf(d: DeviceRecord): set<string> {
    if IsNullOrEmpty(d.deviceId) || IsVirtualKeyboard(d.deviceId, d.name) then {} else {d.deviceId.value}
  }

  /** The ids the Win32_Keyboard loop adds, for the records it has seen. */
  function KeyboardIds(records: seq<DeviceRecord>): set<string> {
    if records == [] then {} else KeyboardIds(records[..|records| - 1]) + KeyboardIdOf(records[|records| - 1])
  }

  /** The ids the Win32_PnPEntity loop adds, for the records it has seen. */
  function PnpIds(records: seq<DeviceRecord>): set<string> {
    if records == [] then {} else PnpIds(records[..|records| - 1]) + PnpIdOf(records[|records| - 1])
  }

  function Min(a: int, b: int): int {
    if a <= b then a else b
  }

  /** How many Win32_Keyboard records the scan processes before it stops. */
  function KeyboardsProcessed(keyboards: seq<DeviceRecord>, failAfter: Option<nat>): nat {
    match failAfter
    case None => |keyboards|
    case Some(k) => Min(k, |keyboards|)
  }

  /** How many PnP records the scan processes before it stops. */
  function PnpProcessed(keyboards: seq<DeviceRecord>, pnp: seq<DeviceRecord>, failAfter: Option<nat>): nat {
    match failAfter
    case None => |pnp|
    case Some(k) => if k <= |keyboards| then 0 else Min(k - |keyboards|, |pnp|)
  }

  /**
   * The set a scan leaves behind. `failAfter == Some(k)` means the enumeration threw
   * after k records (counted over both lists in order); None means it did not throw.
   */
  function ScanOutcome(keyboards: seq<DeviceRecord>, pnp: seq<DeviceRecord>, failAfter: Option<nat>): set<string> {
    KeyboardIds(keyboards[..KeyboardsProcessed(keyboards, failAfter)])
      + PnpIds(pnp[..PnpProcessed(keyboards, pnp, failAfter)])
  }

  /** An id the insert handlers add: non-empty and not yet tracked. */
  predicate Addable(deviceId: Option<string>, connected: set<string>) {
    !IsNullOrEmpty(deviceId) && deviceId.value !in connected
  }

  /** An id the remove handlers delete: non-empty and tracked (`HashSet.Remove` returned true). */
  predicate Removable(deviceId: Option<string>, connected: set<string>) {
    !IsNullOrEmpty(deviceId) && deviceId.value in connected
  }

  class KeyboardWatcher {
    /** `_connectedKeyboards`, a HashSet with the default, case-sensitive comparer. */
    var connected: set<string>
    /** Whether the Win32_Keyboard creation and deletion watchers run. */
    var listening: bool
    /** Whether the Win32_PnPEntity creation and deletion watchers run. */
    var pnpListening: bool
    var disposed: bool
    /**
     * The lists handed to `UpdateExcludedDevices`. That method is not part of this
     * model, so these calls are recorded and have no effect on `connected`.
     */
    var exclusionUpdates: seq<Option<seq<string>>>

    constructor ()
      ensures connected == {} && !listening && !pnpListening && !disposed && exclusionUpdates == []
    {
      connected := {};
      listening := false;
      pnpListening := false;
      disposed := false;
      exclusionUpdates := [];
    }

    /** `ConnectedKeyboardCount` */
    function ConnectedKeyboardCount(): (n: nat)
      reads this
      ensures n == 0 <==> connected == {}
    {
      |connected|
    }

    /** `HasKeyboardConnected` */
    predicate HasKeyboardConnected()
      reads this
      ensures HasKeyboardConnected() <==> ConnectedKeyboardCount() > 0
    {
      connected != {}
    }

    method UpdateExcludedDevices(ids: Option<seq<string>>)
      modifies this
      ensures exclusionUpdates == old(exclusionUpdates) + [ids]
      ensures connected == old(connected) && listening == old(listening)
      ensures pnpListening == old(pnpListening) && disposed == old(disposed)
    {
      exclusionUpdates := exclusionUpdates + [ids];
    }

    /**
     * `ScanExistingKeyboards`: clear the set, add the Win32_Keyboard ids, then the
     * non-virtual PnP ids, stopping where the enumeration throws, and report the count.
     */
    method ScanExistingKeyboards(keyboards: seq<DeviceRecord>, pnp: seq<DeviceRecord>, failAfter: Option<nat>)
      returns (raised: seq<WatcherEvent>)
      modifies this
      ensures connected == ScanOutcome(keyboards, pnp, failAfter)
      ensures raised == [KeyboardCountChanged(|connected|)]
      ensures listening == old(listening) && pnpListening == old(pnpListening)
      ensures disposed == old(disposed) && exclusionUpdates == old(exclusionUpdates)
    {
      connected := {};
      var n1 := KeyboardsProcessed(keyboards, failAfter);
      var n2 := PnpProcessed(keyboards, pnp, failAfter);
      for i := 0 to n1
        invariant connected == KeyboardIds(keyboards[..i])
        invariant listening == old(listening) && pnpListening == old(pnpListening)
        invariant disposed == old(disposed) && exclusionUpdates == old(exclusionUpdates)
      {
        var deviceId := keyboards[i].deviceId;
        if !IsNullOrEmpty(deviceId) {
          connected := connected + {deviceId.value};
        }
        assert keyboards[..i + 1][..i] == keyboards[..i];
      }
      ghost var fromKeyboards := connected;
      for j := 0 to n2
        invariant connected == fromKeyboards + PnpIds(pnp[..j])
        invariant listening == old(listening) && pnpListening == old(pnpListening)
        invariant disposed == old(disposed) && exclusionUpdates == old(exclusionUpdates)
      {
        AddPnpRecord(pnp[j]);
        assert pnp[..j + 1][..j] == pnp[..j];
      }
      raised := [KeyboardCountChanged(|connected|)];
    }

    /** One pass of the PnP scan loop: a new, non-virtual id is added. */
    method AddPnpRecord(d: DeviceRecord)
      modifies this
      ensures connected == old(connected) + PnpIdOf(d)
      ensures listening == old(listening) && pnpListening == old(pnpListening)
      ensures disposed == old(disposed) && exclusionUpdates == old(exclusionUpdates)
    {
      var deviceId := d.deviceId;
      if !IsNullOrEmpty(deviceId) && deviceId.value !in connected {
        if !IsVirtualKeyboard(deviceId, d.name) {
          connected := connected + {deviceId.value};
        }
      }
    }

    /** `Start`: scan, then start the WMI watchers; starting the PnP pair may fail and is then skipped. */
    method Start(keyboards: seq<DeviceRecord>, pnp: seq<DeviceRecord>, failAfter: Option<nat>, pnpWatcherStarts: bool)
      returns (raised: seq<WatcherEvent>)
      modifies this
      ensures connected == ScanOutcome(keyboards, pnp, failAfter)
      ensures raised == [KeyboardCountChanged(|connected|)]
      ensures listening && pnpListening == pnpWatcherStarts
      ensures disposed == old(disposed) && exclusionUpdates == old(exclusionUpdates)
    {
      raised := ScanExistingKeyboards(keyboards, pnp, failAfter);
      listening := true;
      pnpListening := pnpWatcherStarts;
    }

    /** `OnDeviceInserted`: a Win32_Keyboard creation event. */
    method OnDeviceInserted(d: DeviceRecord) returns (raised: seq<WatcherEvent>)
      modifies this
      ensures Addable(d.deviceId, old(connected)) ==> connected == old(connected) + {d.deviceId.value}
      ensures Addable(d.deviceId, old(connected)) ==>
        raised == [KeyboardConnected(d.deviceId.value, d.description.GetOr("Unknown")), KeyboardCountChanged(|connected|)]
      ensures !Addable(d.deviceId, old(connected)) ==> connected == old(connected) && raised == []
      ensures listening == old(listening) && pnpListening == old(pnpListening)
      ensures disposed == old(disposed) && exclusionUpdates == old(exclusionUpdates)
    {
      raised := [];
      if !IsNullOrEmpty(d.deviceId) && d.deviceId.value !in connected {
        connected := connected + {d.deviceId.value};
        raised := [KeyboardConnected(d.deviceId.value, d.description.GetOr("Unknown")), KeyboardCountChanged(|connected|)];
      }
    }

    /** `OnDeviceRemoved`: a Win32_Keyboard deletion event. */
    method OnDeviceRemoved(d: DeviceRecord) returns (raised: seq<WatcherEvent>)
      modifies this
      ensures Removable(d.deviceId, old(connected)) ==> connected == old(connected) - {d.deviceId.value}
      ensures Removable(d.deviceId, old(connected)) ==>
        raised == [KeyboardDisconnected(d.deviceId.value, d.description.GetOr("Unknown")), KeyboardCountChanged(|connected|)]
      ensures !Removable(d.deviceId, old(connected)) ==> connected == old(connected) && raised == []
      ensures listening == old(listening) && pnpListening == old(pnpListening)
      ensures disposed == old(disposed) && exclusionUpdates == old(exclusionUpdates)
    {
      raised := [];
      if !IsNullOrEmpty(d.deviceId) && d.deviceId.value in connected {
        connected := connected - {d.deviceId.value};
        raised := [KeyboardDisconnected(d.deviceId.value, d.description.GetOr("Unknown")), KeyboardCountChanged(|connected|)];
      }
    }

    /** `OnPnPDeviceInserted`: a Win32_PnPEntity creation event, kept only when it is a keyboard. */
    method OnPnPDeviceInserted(d: DeviceRecord) returns (raised: seq<WatcherEvent>)
      modifies this
      ensures IsKeyboardDevice(d) && Addable(d.deviceId, old(connected)) ==> connected == old(connected) + {d.deviceId.value}
      ensures IsKeyboardDevice(d) && Addable(d.deviceId, old(connected)) ==>
        raised == [KeyboardConnected(d.deviceId.value, d.name.GetOr("Unknown")), KeyboardCountChanged(|connected|)]
      ensures !(IsKeyboardDevice(d) && Addable(d.deviceId, old(connected))) ==> connected == old(connected) && raised == []
      ensures listening == old(listening) && pnpListening == old(pnpListening)
      ensures disposed == old(disposed) && exclusionUpdates == old(exclusionUpdates)
    {
      raised := [];
      if IsKeyboardDevice(d) {
        if !IsNullOrEmpty(d.deviceId) && d.deviceId.value !in connected {
          connected := connected + {d.deviceId.value};
          raised := [KeyboardConnected(d.deviceId.value, d.name.GetOr("Unknown")), KeyboardCountChanged(|connected|)];
        }
      }
    }

    /** `OnPnPDeviceRemoved`: a Win32_PnPEntity deletion event; the device class is not checked again. */
    method OnPnPDeviceRemoved(d: DeviceRecord) returns (raised: seq<WatcherEvent>)
      modifies this
      ensures Removable(d.deviceId, old(connected)) ==> connected == old(connected) - {d.deviceId.value}
      ensures Removable(d.deviceId, old(connected)) ==>
        raised == [KeyboardDisconnected(d.deviceId.value, d.name.GetOr("Unknown")), KeyboardCountChanged(|connected|)]
      ensures !Removable(d.deviceId, old(connected)) ==> connected == old(connected) && raised == []
      ensures listening == old(listening) && pnpListening == old(pnpListening)
      ensures disposed == old(disposed) && exclusionUpdates == old(exclusionUpdates)
    {
      raised := [];
      if !IsNullOrEmpty(d.deviceId) && d.deviceId.value in connected {
        connected := connected - {d.deviceId.value};
        raised := [KeyboardDisconnected(d.deviceId.value, d.name.GetOr("Unknown")), KeyboardCountChanged(|connected|)];
      }
    }

    /** `Stop`: stop all four WMI watchers; the set is kept. */
    method Stop()
      modifies this
      ensures !listening && !pnpListening
      ensures connected == old(connected) && disposed == old(disposed) && exclusionUpdates == old(exclusionUpdates)
    {
      listening := false;
      pnpListening := false;
    }

    /** `Dispose`: stop the watchers once; a second call does nothing. */
    method Dispose()
      modifies this
      ensures old(disposed) ==> listening == old(listening) && pnpListening == old(pnpListening)
      ensures !old(disposed) ==> !listening && !pnpListening
      ensures disposed
      ensures connected == old(connected) && exclusionUpdates == old(exclusionUpdates)
    {
      if disposed {
        return;
      }
      disposed := true;
      Stop();
    }
  }

  // ---- What the scan computes ----

  lemma {:induction false} KeyboardIdsMembers(records: seq<DeviceRecord>, id: string)
    ensures id in KeyboardIds(records) <==>
      exists i :: 0 <= i < |records| && records[i].deviceId == Some(id) && id != ""
  {
    if records != [] {
      var init := records[..|records| - 1];
      KeyboardIdsMembers(init, id);
      if id in KeyboardIds(init) {
        var i :| 0 <= i < |init| && init[i].deviceId == Some(id) && id != "";
        assert records[i] == init[i];
      }
      if exists i :: 0 <= i < |records| && records[i].deviceId == Some(id) && id != "" {
        var i :| 0 <= i < |records| && records[i].deviceId == Some(id) && id != "";
        if i < |init| {
          assert init[i] == records[i];
        }
      }
    }
  }

  lemma {:induction false} PnpIdsMembers(records: seq<DeviceRecord>, id: string)
    ensures id in PnpIds(records) <==>
      exists i :: 0 <= i < |records| && records[i].deviceId == Some(id) && id != ""
        && !IsVirtualKeyboard(records[i].deviceId, records[i].name)
  {
    if records != [] {
      var init := records[..|records| - 1];
      PnpIdsMembers(init, id);
      if id in PnpIds(init) {
        var i :| 0 <= i < |init| && init[i].deviceId == Some(id) && id != ""
          && !IsVirtualKeyboard(init[i].deviceId, init[i].name);
        assert records[i] == init[i];
      }
      if exists i :: 0 <= i < |records| && records[i].deviceId == Some(id) && id != ""
          && !IsVirtualKeyboard(records[i].deviceId, records[i].name) {
        var i :| 0 <= i < |records| && records[i].deviceId == Some(id) && id != ""
          && !IsVirtualKeyboard(records[i].deviceId, records[i].name);
        if i < |init| {
          assert init[i] == records[i];
        }
      }
    }
  }

  /**
   * After a scan that does not throw, an id is tracked exactly when some Win32_Keyboard
   * record carries it (virtual or not) or some PnP record carries it and is not virtual.
   * Nothing of the set before the scan survives: the result depends on the inputs alone.
   */
  lemma CompleteScanContents(keyboards: seq<DeviceRecord>, pnp: seq<DeviceRecord>, id: string)
    ensures id in ScanOutcome(keyboards, pnp, None) <==>
      (exists i :: 0 <= i < |keyboards| && keyboards[i].deviceId == Some(id) && id != "")
      || (exists j :: 0 <= j < |pnp| && pnp[j].deviceId == Some(id) && id != ""
            && !IsVirtualKeyboard(pnp[j].deviceId, pnp[j].name))
  {
    assert keyboards[..|keyboards|] == keyboards;
    assert pnp[..|pnp|] == pnp;
    KeyboardIdsMembers(keyboards, id);
    PnpIdsMembers(pnp, id);
  }

  lemma {:induction false} KeyboardIdsPrefix(records: seq<DeviceRecord>, k: nat)
    requires k <= |records|
    ensures KeyboardIds(records[..k]) <= KeyboardIds(records)
  {
    if k < |records| {
      var init := records[..|records| - 1];
      assert init[..k] == records[..k];
      KeyboardIdsPrefix(init, k);
    } else {
      assert records[..k] == records;
    }
  }

  lemma {:induction false} PnpIdsPrefix(records: seq<DeviceRecord>, k: nat)
    requires k <= |records|
    ensures PnpIds(records[..k]) <= PnpIds(records)
  {
    if k < |records| {
      var init := records[..|records| - 1];
      assert init[..k] == records[..k];
      PnpIdsPrefix(init, k);
    } else {
      assert records[..k] == records;
    }
  }

  /**
   * A scan that throws leaves only ids a complete scan would also have added: the set
   * was cleared first, so a failure can lose devices but never invent one.
   */
  lemma FailedScanIsPartial(keyboards: seq<DeviceRecord>, pnp: seq<DeviceRecord>, k: nat)
    ensures ScanOutcome(keyboards, pnp, Some(k)) <= ScanOutcome(keyboards, pnp, None)
  {
    assert keyboards[..|keyboards|] == keyboards;
    assert pnp[..|pnp|] == pnp;
    KeyboardIdsPrefix(keyboards, KeyboardsProcessed(keyboards, Some(k)));
    PnpIdsPrefix(pnp, PnpProcessed(keyboards, pnp, Some(k)));
  }

  /** A throw before the first record leaves the set empty, so the count reported is 0. */
  lemma ScanFailingAtOnceIsEmpty(keyboards: seq<DeviceRecord>, pnp: seq<DeviceRecord>)
    ensures ScanOutcome(keyboards, pnp, Some(0)) == {}
  {
    assert keyboards[..0] == [];
    assert pnp[..0] == [];
  }

  /** A throw after the last record changes nothing. */
  lemma LateFailureIsHarmless(keyboards: seq<DeviceRecord>, pnp: seq<DeviceRecord>, k: nat)
    requires k >= |keyboards| + |pnp|
    ensures ScanOutcome(keyboards, pnp, Some(k)) == ScanOutcome(keyboards, pnp, None)
  {
  }

  // ---- The classification predicates ----

  /** The case of the name does not matter to the virtual test. */
  lemma VirtualIgnoresNameCase(deviceId: Option<string>, name: string)
    ensures IsVirtualKeyboard(deviceId, Some(Lower(name))) == IsVirtualKeyboard(deviceId, Some(name))
  {
    LowerIdempotent(name);
  }

  /**
   * A device of PNPClass "Keyboard" is accepted without the virtual test; otherwise a
   * device is accepted only when its name or description mentions a keyboard and it is
   * not virtual by the same test the PnP scan applies. There is no third way in.
   */
  lemma KeyboardDeviceCases(d: DeviceRecord)
    ensures !(d.pnpClass.Some? && EqualsIgnoreCase(d.pnpClass.value, "Keyboard")) ==>
      (IsKeyboardDevice(d) <==>
        (MentionsKeyboard(Lower(d.name.GetOr(""))) || MentionsKeyboard(Lower(d.description.GetOr(""))))
        && !IsVirtualKeyboard(d.deviceId, d.name))
  {
    var name := d.name.GetOr("");
    VirtualIgnoresNameCase(Some(d.deviceId.GetOr("")), name);
    if d.name.None? {
      assert !Contains(Lower(""), "virtual") && !Contains(Lower(""), "remote");
    }
  }

  /**
   * The insert handler and the rescan disagree on a remote-desktop keyboard of class
   * "Keyboard": the handler adds it without the virtual test, the PnP scan loop drops it.
   */
  lemma InsertAndScanDisagreeOnVirtualClassKeyboard()
    ensures var d := DeviceRecord(Some("TS_INPT\\KBD"), Some("Remote Desktop Keyboard"), None, Some("Keyboard"));
      IsKeyboardDevice(d) && PnpIdOf(d) == {}
  {
    var lowered := Lower("Remote Desktop Keyboard");
    assert lowered[..6] == "remote";
    assert Contains(lowered, "remote");
    assert Lower("Keyboard") == "keyboard";
  }
}
