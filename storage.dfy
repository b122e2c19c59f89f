/**
 * The trust ledger of src/clipberry/storage/__init__.py: a table of clipboard
 * items, unique on content hash and keyed by id, and a table of devices keyed
 * by id. SQLite is read as a table store; every operation on a disconnected
 * store returns the empty answer and changes nothing.
 */
module Storage {
  import opened Wrappers
  import Ordering

  /** The item types the rest of the system tests for. */
  const TextType: string := "text"
  const ImageType: string := "image"

  /** A JSON value stored in an item's `metadata` column. */
  datatype MetaValue = MetaInt(i: int) | MetaStr(s: string) | MetaBool(b: bool)

  type Metadata = map<string, MetaValue>

  datatype ClipboardItem = ClipboardItem(
    id: string,
    itemType: string,
    contentHash: string,
    originDeviceId: string,
    timestamp: int,
    size: int,
    metadata: Metadata,
    textContent: Option<string>,
    blobPath: Option<string>)

  datatype Device = Device(
    id: string,
    name: string,
    certificateFingerprint: string,
    addedTimestamp: int,
    lastSeenTimestamp: Option<int>,
    isTrusted: bool,
    capabilities: map<string, bool>)

  /** The clipboard_items table, one row per content hash. */
  type ItemTable = map<string, ClipboardItem>

  /** The devices table, one row per device id. */
  type DeviceTable = map<string, Device>

  /** Some stored row already uses `id` as its primary key. */
  predicate IdTaken(items: ItemTable, id: string)
  {
    exists h | h in items :: items[h].id == id
  }

  /** Neither UNIQUE(content_hash) nor PRIMARY KEY(id) rejects the INSERT of `item`. */
  predicate Admits(items: ItemTable, item: ClipboardItem)
  {
    item.contentHash !in items && !IdTaken(items, item.id)
  }

  /** Each row sits under its own content hash, and no two rows share an id. */
  ghost predicate ItemsKeyed(items: ItemTable)
  {
    && (forall h :: h in items ==> items[h].contentHash == h)
    && (forall h, h' :: h in items && h' in items && items[h].id == items[h'].id ==> h == h')
  }

  ghost predicate DevicesKeyed(devices: DeviceTable)
  {
    forall id :: id in devices ==> devices[id].id == id
  }

  /** The table after one `add_item` on a connected store. */
  function Inserted(items: ItemTable, item: ClipboardItem): ItemTable
  {
    if Admits(items, item) then items[item.contentHash := item] else items
  }

  /** The table after `add_item` of each of `xs` in turn. */
  function InsertedAll(items: ItemTable, xs: seq<ClipboardItem>): ItemTable
    decreases |xs|
  {
    if xs == [] then items else InsertedAll(Inserted(items, xs[0]), xs[1..])
  }

  /** How many of the `add_item` calls of `xs`, made in turn, return true for hash `h`. */
  function AcceptedWithHash(items: ItemTable, xs: seq<ClipboardItem>, h: string): nat
    decreases |xs|
  {
    if xs == [] then 0
    else
      (if xs[0].contentHash == h && Admits(items, xs[0]) then 1 else 0)
      + AcceptedWithHash(Inserted(items, xs[0]), xs[1..], h)
  }

  /**
   * At-most-once acceptance: over any sequence of `add_item` calls, a content
   * hash is accepted at most once, never if already stored, and a stored row
   * is never replaced.
   */
  lemma {:induction false} AcceptedAtMostOnce(items: ItemTable, xs: seq<ClipboardItem>, h: string)
    ensures AcceptedWithHash(items, xs, h) <= (if h in items then 0 else 1)
    ensures forall g :: g in items ==> g in InsertedAll(items, xs) && InsertedAll(items, xs)[g] == items[g]
    decreases |xs|
  {
    if xs != [] {
      var next := Inserted(items, xs[0]);
      AcceptedAtMostOnce(next, xs[1..], h);
      if xs[0].contentHash == h && Admits(items, xs[0]) {
        assert h in next;
      }
    }
  }

  /** Some returned row holds content hash `h`. */
  predicate ListsHash(r: seq<ClipboardItem>, h: string)
  {
    exists j :: 0 <= j < |r| && r[j].contentHash == h
  }

  /** Some returned device has id `id`. */
  predicate ListsDevice(r: seq<Device>, id: string)
  {
    exists j :: 0 <= j < |r| && r[j].id == id
  }

  class ClipboardDatabase {
    /** `_conn` is set. */
    var connected: bool
    var items: ItemTable
    var devices: DeviceTable

    ghost predicate Valid()
      reads this
    {
      ItemsKeyed(items) && DevicesKeyed(devices)
    }

    /**
     * A new handle on the database file, not yet connected. The rows already
     * persisted in the file are `persistedItems` and `persistedDevices`; a
     * fresh file has none.
     */
    constructor (persistedItems: ItemTable, persistedDevices: DeviceTable)
      requires ItemsKeyed(persistedItems) && DevicesKeyed(persistedDevices)
      ensures Valid() && !connected && items == persistedItems && devices == persistedDevices
    {
      connected := false;
      items := persistedItems;
      devices := persistedDevices;
    }

    /** connect(): opens the file; the tables persisted in it are kept. */
    method Connect()
      modifies this
      ensures connected && items == old(items) && devices == old(devices)
    {
      connected := true;
    }

    method Disconnect()
      modifies this
      ensures !connected && items == old(items) && devices == old(devices)
    {
      connected := false;
    }

    /** add_item: true and stored exactly when connected and no row clashes on hash or id. */
    method AddItem(item: ClipboardItem) returns (inserted: bool)
      requires Valid()
      modifies this
      ensures Valid() && connected == old(connected) && devices == old(devices)
      ensures inserted <==> old(connected) && Admits(old(items), item)
      ensures items == if inserted then old(items)[item.contentHash := item] else old(items)
      ensures old(connected) ==> items == Inserted(old(items), item)
    {
      if !connected {
        return false;
      }
      if !Admits(items, item) {
        return false;
      }
      items := items[item.contentHash := item];
      inserted := true;
    }

    /** get_item_by_hash. */
    function GetItemByHash(contentHash: string): (r: Option<ClipboardItem>)
      requires Valid()
      reads this
      ensures r.Some? <==> connected && contentHash in items
      ensures r.Some? ==> r.value == items[contentHash] && r.value.contentHash == contentHash
    {
      if !connected then None
      else if contentHash in items then Some(items[contentHash])
      else None
    }

    /**
     * get_recent_items: `SELECT ... ORDER BY timestamp DESC LIMIT limit`;
     * SQLite reads a negative limit as no limit.
     */
    method GetRecentItems(limit: int := 100) returns (r: seq<ClipboardItem>)
      requires Valid()
      ensures !connected ==> r == []
      ensures connected ==> |r| == if limit < 0 || limit >= |items| then |items| else limit
      ensures forall i :: 0 <= i < |r| ==> r[i].contentHash in items && items[r[i].contentHash] == r[i]
      ensures forall i, j :: 0 <= i < j < |r| ==> r[i].timestamp >= r[j].timestamp && r[i].contentHash != r[j].contentHash
      ensures forall h, i :: h in items && 0 <= i < |r| && !ListsHash(r, h) ==> items[h].timestamp <= r[i].timestamp
    {
      if !connected {
        return [];
      }
      var key := (x: ClipboardItem) => x.timestamp;
      var hs, rows := Ordering.SortedRows(items, key);
      var n := if limit < 0 || limit >= |rows| then |rows| else limit;
      r := rows[..n];
      assert forall i :: 0 <= i < n ==> r[i] == items[hs[i]] && r[i].contentHash == hs[i];
      forall h, i | h in items && 0 <= i < |r| && !ListsHash(r, h)
        ensures items[h].timestamp <= r[i].timestamp
      {
        var p :| 0 <= p < |hs| && hs[p] == h;
        assert key(items[hs[i]]) >= key(items[hs[p]]);
      }
    }

    /** add_device: INSERT OR REPLACE, an upsert keyed by id. */
    method AddDevice(device: Device)
      requires Valid()
      modifies this
      ensures Valid() && connected == old(connected) && items == old(items)
      ensures devices == if connected then old(devices)[device.id := device] else old(devices)
    {
      if !connected {
        return;
      }
      devices := devices[device.id := device];
    }

    /** get_device. */
    function GetDevice(id: string): (r: Option<Device>)
      requires Valid()
      reads this
      ensures r.Some? <==> connected && id in devices
      ensures r.Some? ==> r.value == devices[id] && r.value.id == id
    {
      if !connected then None
      else if id in devices then Some(devices[id])
      else None
    }

    /** get_all_devices: every device, `ORDER BY added_timestamp DESC`. */
    method GetAllDevices() returns (r: seq<Device>)
      requires Valid()
      ensures !connected ==> r == []
      ensures connected ==> |r| == |devices| && forall id :: id in devices ==> ListsDevice(r, id)
      ensures forall i :: 0 <= i < |r| ==> r[i].id in devices && devices[r[i].id] == r[i]
      ensures forall i, j :: 0 <= i < j < |r| ==> r[i].addedTimestamp >= r[j].addedTimestamp && r[i].id != r[j].id
    {
      if !connected {
        return [];
      }
      var key := (d: Device) => d.addedTimestamp;
      var ids, rows := Ordering.SortedRows(devices, key);
      r := rows;
      assert forall i :: 0 <= i < |r| ==> r[i] == devices[ids[i]] && r[i].id == ids[i];
      forall id | id in devices
        ensures ListsDevice(r, id)
      {
        var p :| 0 <= p < |ids| && ids[p] == id;
        assert r[p].id == id;
      }
    }

    /** update_device_last_seen: best effort, a missing id is a no-op. */
    method UpdateDeviceLastSeen(id: string, timestamp: int)
      requires Valid()
      modifies this
      ensures Valid() && connected == old(connected) && items == old(items)
      ensures devices == if connected && id in old(devices)
                         then old(devices)[id := old(devices)[id].(lastSeenTimestamp := Some(timestamp))]
                         else old(devices)
    {
      if connected && id in devices {
        devices := devices[id := devices[id].(lastSeenTimestamp := Some(timestamp))];
      }
    }

    /** revoke_device: clears the trusted flag, keeps the record and all items. */
    method RevokeDevice(id: string)
      requires Valid()
      modifies this
      ensures Valid() && connected == old(connected) && items == old(items)
      ensures devices == if connected && id in old(devices)
                         then old(devices)[id := old(devices)[id].(isTrusted := false)]
                         else old(devices)
    {
      if connected && id in devices {
        devices := devices[id := devices[id].(isTrusted := false)];
      }
    }

    /** clear_clipboard_history: every item row goes, devices stay. */
    method ClearClipboardHistory()
      requires Valid()
      modifies this
      ensures Valid() && connected == old(connected) && devices == old(devices)
      ensures items == if connected then map[] else old(items)
    {
      if connected {
        items := map[];
      }
    }
  }

  /**
   * add_item, then get_item_by_hash: the new item when it was admitted, the
   * old row when the hash was stored, nothing when only the id clashed.
   */
  method AddedItemIsFound(db: ClipboardDatabase, item: ClipboardItem)
    requires db.Valid() && db.connected
    modifies db
    ensures db.Valid()
    ensures db.GetItemByHash(item.contentHash)
            == if old(Admits(db.items, item)) then Some(item)
               else if item.contentHash in old(db.items) then Some(old(db.items[item.contentHash]))
               else None
  {
    var inserted := db.AddItem(item);
  }

  /** add_device, then get_device: the device is read back, and every other id keeps its record. */
  method AddedDeviceIsFound(db: ClipboardDatabase, device: Device, other: string)
    requires db.Valid() && db.connected && other != device.id
    modifies db
    ensures db.Valid() && db.GetDevice(device.id) == Some(device)
    ensures db.GetDevice(other) == old(db.GetDevice(other))
  {
    db.AddDevice(device);
  }
}
