/**
 * What the two settings dialogs compute from `GetAllKeyboardDevices` and their
 * exclusion list: the case-insensitive exclusion set, the device list they show,
 * the active-keyboard count, and the edits to the exclusion list.
 */
module DeviceList {
  import opened Text

  /** One tuple of `GetAllKeyboardDevices()`: id, description, and whether the watcher filters it. */
  datatype DeviceEntry = DeviceEntry(deviceId: string, description: string, filtered: bool)

  /** One row of the keyboard list box. */
  datatype ListItem = ListItem(deviceId: string, displayText: string, isFiltered: bool)

  /** The text of the status label: current mode, active keyboards, all devices. */
  datatype Status = Status(tabletMode: bool, activeCount: nat, totalCount: nat)

  const SystemTag: string := "[系统] "

  /** The exclusion HashSet built with `StringComparer.OrdinalIgnoreCase`, as the set of case-folded ids. */
  function FoldedIds(ids: seq<string>): set<string> {
    if ids == [] then {} else FoldedIds(ids[..|ids| - 1]) + {Lower(ids[|ids| - 1])}
  }

  /** `excludedIds.Contains(id)` */
  predicate IsExcluded(excludedIds: set<string>, id: string) {
    Lower(id) in excludedIds
  }

  /** The row shown for a device; filtered ones carry the system tag. */
  function ItemFor(d: DeviceEntry): ListItem {
    ListItem(d.deviceId, if d.filtered then SystemTag + d.description else d.description, d.filtered)
  }

  /** The rows `RefreshKeyboardList` adds, in device order. */
  function VisibleItems(devices: seq<DeviceEntry>, excludedIds: set<string>): (r: seq<ListItem>)
    ensures |r| <= |devices|
    ensures forall k :: 0 <= k < |r| ==> !IsExcluded(excludedIds, r[k].deviceId)
  {
    if devices == [] then []
    else
      var last := devices[|devices| - 1];
      VisibleItems(devices[..|devices| - 1], excludedIds) + (if IsExcluded(excludedIds, last.deviceId) then [] else [ItemFor(last)])
  }

  /** `allDevices.Count(d => !d.Filtered && !excludedIds.Contains(d.DeviceId))` */
  function ActiveCount(devices: seq<DeviceEntry>, excludedIds: set<string>): (r: nat)
    ensures r <= |devices|
    ensures (forall i :: 0 <= i < |devices| ==> devices[i].filtered) ==> r == 0
  {
    if devices == [] then 0
    else
      var last := devices[|devices| - 1];
      ActiveCount(devices[..|devices| - 1], excludedIds) + (if !last.filtered && !IsExcluded(excludedIds, last.deviceId) then 1 else 0)
  }

  /** The number of rows that are not tagged as system devices. */
  function UnfilteredCount(items: seq<ListItem>): nat {
    if items == [] then 0 else UnfilteredCount(items[..|items| - 1]) + (if items[|items| - 1].isFiltered then 0 else 1)
  }

  /** The status line `UpdateStatus` writes. */
  function StatusFor(tabletMode: bool, devices: seq<DeviceEntry>, excluded: seq<string>): Status {
    Status(tabletMode, ActiveCount(devices, FoldedIds(excluded)), |devices|)
  }

  predicate NoDuplicates(ids: seq<string>) {
    forall i, j :: 0 <= i < j < |ids| ==> ids[i] != ids[j]
  }

  /** Add-to-exclusion: append the id unless the list already holds it (`Items.Contains`, case-sensitive). */
  function AddExclusion(ids: seq<string>, id: string): (r: seq<string>)
    ensures id in r
    ensures |r| == if id in ids then |ids| else |ids| + 1
    ensures r[..|ids|] == ids
  {
    if id in ids then ids else ids + [id]
  }

  /** `Items.Remove(item)`: drop the first entry equal to `item`. */
  function RemoveFirst(ids: seq<string>, item: string): (r: seq<string>)
    ensures |r| <= |ids|
    ensures forall x :: x in r ==> x in ids
  {
    if ids == [] then []
    else if ids[0] == item then ids[1..]
    else [ids[0]] + RemoveFirst(ids[1..], item)
  }

  /** The loop both dialogs run to fill their exclusion HashSet from the list box. */
  method BuildExcludedIds(items: seq<string>) returns (excludedIds: set<string>)
    ensures excludedIds == FoldedIds(items)
  {
    excludedIds := {};
    for i := 0 to |items|
      invariant excludedIds == FoldedIds(items[..i])
    {
      excludedIds := excludedIds + {Lower(items[i])};
      assert items[..i + 1][..i] == items[..i];
    }
    assert items[..|items|] == items;
  }

  // ---- Properties ----

  /** The folded set matches an id exactly when some list entry equals it ignoring case. */
  lemma {:induction false} FoldedIdsMembers(ids: seq<string>, id: string)
    ensures IsExcluded(FoldedIds(ids), id) <==> exists j :: 0 <= j < |ids| && EqualsIgnoreCase(ids[j], id)
  {
    if ids != [] {
      var init := ids[..|ids| - 1];
      FoldedIdsMembers(init, id);
      if IsExcluded(FoldedIds(init), id) {
        var j :| 0 <= j < |init| && EqualsIgnoreCase(init[j], id);
        assert ids[j] == init[j];
      }
      if exists j :: 0 <= j < |ids| && EqualsIgnoreCase(ids[j], id) {
        var j :| 0 <= j < |ids| && EqualsIgnoreCase(ids[j], id);
        if j < |init| {
          assert init[j] == ids[j];
        }
      }
    }
  }

  /** The shown list is a filter: it keeps device order across any split of the input. */
  lemma {:induction false} VisibleItemsAppend(a: seq<DeviceEntry>, b: seq<DeviceEntry>, excludedIds: set<string>)
    ensures VisibleItems(a + b, excludedIds) == VisibleItems(a, excludedIds) + VisibleItems(b, excludedIds)
  {
    if b == [] {
      assert a + b == a;
    } else {
      var initB := b[..|b| - 1];
      assert (a + b)[..|a + b| - 1] == a + initB;
      VisibleItemsAppend(a, initB, excludedIds);
    }
  }

  /** Every shown row is the row of a non-excluded device, and every non-excluded device has its row. */
  lemma {:induction false} VisibleItemsMembers(devices: seq<DeviceEntry>, excludedIds: set<string>, item: ListItem)
    ensures item in VisibleItems(devices, excludedIds) <==>
      exists i :: 0 <= i < |devices| && !IsExcluded(excludedIds, devices[i].deviceId) && ItemFor(devices[i]) == item
  {
    if devices != [] {
      var init := devices[..|devices| - 1];
      VisibleItemsMembers(init, excludedIds, item);
      if exists i :: 0 <= i < |init| && !IsExcluded(excludedIds, init[i].deviceId) && ItemFor(init[i]) == item {
        var i :| 0 <= i < |init| && !IsExcluded(excludedIds, init[i].deviceId) && ItemFor(init[i]) == item;
        assert devices[i] == init[i];
      }
      if exists i :: 0 <= i < |devices| && !IsExcluded(excludedIds, devices[i].deviceId) && ItemFor(devices[i]) == item {
        var i :| 0 <= i < |devices| && !IsExcluded(excludedIds, devices[i].deviceId) && ItemFor(devices[i]) == item;
        if i < |init| {
          assert init[i] == devices[i];
        }
      }
    }
  }

  /**
   * The active count equals the number of untagged rows the list shows, and so never
   * exceeds the device total.
   */
  lemma {:induction false} ActiveCountIsUntaggedRows(devices: seq<DeviceEntry>, excludedIds: set<string>)
    ensures ActiveCount(devices, excludedIds) == UnfilteredCount(VisibleItems(devices, excludedIds))
    ensures ActiveCount(devices, excludedIds) <= |devices|
  {
    if devices != [] {
      var init := devices[..|devices| - 1];
      var last := devices[|devices| - 1];
      ActiveCountIsUntaggedRows(init, excludedIds);
      var shown := VisibleItems(init, excludedIds);
      if !IsExcluded(excludedIds, last.deviceId) {
        assert (shown + [ItemFor(last)])[..|shown|] == shown;
      } else {
        assert shown + [] == shown;
      }
    }
  }

  /** Adding never creates a duplicate. */
  lemma AddExclusionDistinct(ids: seq<string>, id: string)
    requires NoDuplicates(ids)
    ensures NoDuplicates(AddExclusion(ids, id))
  {
  }

  /** Once its id is in the list, a device is hidden from the keyboard list. */
  lemma AddedDeviceIsHidden(ids: seq<string>, devices: seq<DeviceEntry>, id: string, k: nat)
    requires k < |VisibleItems(devices, FoldedIds(AddExclusion(ids, id)))|
    ensures EqualsIgnoreCase(VisibleItems(devices, FoldedIds(AddExclusion(ids, id)))[k].deviceId, id) == false
  {
    var added := AddExclusion(ids, id);
    var row := VisibleItems(devices, FoldedIds(added))[k];
    FoldedIdsMembers(added, row.deviceId);
    var j :| 0 <= j < |added| && added[j] == id;
  }

  /** Removing drops exactly one occurrence of an entry that is present, and changes nothing otherwise. */
  lemma {:induction false} RemoveFirstDropsOne(ids: seq<string>, item: string)
    ensures item in ids ==> multiset(RemoveFirst(ids, item)) == multiset(ids) - multiset{item}
    ensures item in ids ==> |RemoveFirst(ids, item)| == |ids| - 1
    ensures item !in ids ==> RemoveFirst(ids, item) == ids
  {
    if ids != [] {
      RemoveFirstDropsOne(ids[1..], item);
      assert ids == [ids[0]] + ids[1..];
    }
  }

  /** In a list without duplicates the removed entry is gone afterwards, and no entry repeats. */
  lemma {:induction false} RemoveFirstFromDistinct(ids: seq<string>, item: string)
    requires NoDuplicates(ids)
    ensures item !in RemoveFirst(ids, item)
    ensures NoDuplicates(RemoveFirst(ids, item))
  {
    if ids != [] && ids[0] != item {
      var tail := ids[1..];
      RemoveFirstFromDistinct(tail, item);
      var rest := RemoveFirst(tail, item);
      assert ids[0] !in tail;
      assert ids[0] !in rest;
      var r := [ids[0]] + rest;
      forall i, j | 0 <= i < j < |r| ensures r[i] != r[j] {
        if i > 0 {
          assert r[i] == rest[i - 1] && r[j] == rest[j - 1];
        } else {
          assert r[j] in rest;
        }
      }
    }
  }
}
