/**
 * The orchestrator of src/clibpard/core/__init__.py: the gates a captured or
 * a received item passes before it is stored, broadcast or written to the
 * local clipboard, and trust revocation.
 */
module Core {
  import opened Wrappers
  import opened Utils
  import Storage
  import Clipboard
  import WebSocket
  import Ordering
  import PyText

  /** 10 MB, the default `max_item_size`. */
  const DefaultMaxItemSize: int := 10 * 1024 * 1024

  /** The sync settings of AppConfig. */
  datatype AppConfig = AppConfig(syncEnabled: bool, syncText: bool, syncImages: bool, maxItemSize: int)

  function DefaultConfig(): (c: AppConfig)
    ensures c.syncEnabled && c.syncText && c.syncImages && c.maxItemSize == 10485760
  {
    AppConfig(true, true, true, DefaultMaxItemSize)
  }

  /** The type filters: text needs sync_text, image needs sync_images, other types pass. */
  predicate TypeAllowed(config: AppConfig, itemType: string)
  {
    (itemType == Storage.TextType ==> config.syncText) && (itemType == Storage.ImageType ==> config.syncImages)
  }

  /** The gates of `_on_clipboard_captured`, in order: sync on, size within the limit, type filter. */
  predicate CaptureGatesPass(syncEnabled: bool, config: AppConfig, item: Storage.ClipboardItem)
  {
    syncEnabled && item.size <= config.maxItemSize && TypeAllowed(config, item.itemType)
  }

  /** `device and device.is_trusted` for the sender key; a missing key finds no row. */
  predicate SenderTrusted(device: Option<Storage.Device>)
  {
    device.Some? && device.value.isTrusted
  }

  /** The gates of `_on_item_received`, in order: sync on, sender trusted, type filter; there is no size gate. */
  predicate ReceiveGatesPass(syncEnabled: bool, config: AppConfig, sender: Option<Storage.Device>, item: Storage.ClipboardItem)
  {
    syncEnabled && SenderTrusted(sender) && TypeAllowed(config, item.itemType)
  }

  /** What a newly stored peer item writes to the local clipboard: non-empty text, or an image with a blob path. */
  function WriteBackOf(item: Storage.ClipboardItem): (w: Option<Clipboard.ClipboardWrite>)
    ensures w.Some? && w.value.WriteText? <==>
              item.itemType == Storage.TextType && item.textContent.Some? && item.textContent.value != ""
    ensures w.Some? && w.value.WriteImage? <==>
              item.itemType == Storage.ImageType && item.blobPath.Some? && item.blobPath.value != ""
    ensures w.Some? && w.value.WriteText? ==> w.value == Clipboard.WriteText(item.textContent.value)
    ensures w.Some? && w.value.WriteImage? ==> w.value == Clipboard.WriteImage(item.blobPath.value)
  {
    if item.itemType == Storage.TextType && item.textContent.Some? && item.textContent.value != "" then
      Some(Clipboard.WriteText(item.textContent.value))
    else if item.itemType == Storage.ImageType && item.blobPath.Some? && item.blobPath.value != "" then
      Some(Clipboard.WriteImage(item.blobPath.value))
    else None
  }

  /**
   * End to end over the envelope: for a text item with text, sent and
   * parsed, that text is the write-back `WriteBackOf` chooses; for an item
   * of any other type there is none, since its blob path does not travel.
   * Whether it is written also depends on the receive gates and the ledger.
   */
  lemma WriteBackAfterTransfer(item: Storage.ClipboardItem, blob: seq<byte>)
    ensures var r := WebSocket.ParseItemMessage(WebSocket.BuildItemMessage(item, blob));
            && r.Some?
            && (item.itemType == Storage.TextType && item.textContent.Some? && item.textContent.value != "" ==>
                  WriteBackOf(r.value) == Some(Clipboard.WriteText(item.textContent.value)))
            && (item.itemType != Storage.TextType ==> WriteBackOf(r.value).None?)
  {
  }

  /** No item that arrives over the wire is ever written back as an image. */
  lemma {:induction false} ReceivedImagesNeverWritten(data: WebSocket.Message)
    requires WebSocket.ParseItemMessage(data).Some?
    ensures WriteBackOf(WebSocket.ParseItemMessage(data).value).None?
            || WriteBackOf(WebSocket.ParseItemMessage(data).value).value.WriteText?
  {
    var it := WebSocket.ParseItemMessage(data).value;
    assert it.blobPath.None?;
  }

  class ClipboardSyncService {
    var config: AppConfig
    /** `_sync_enabled`, initialised from the configuration. */
    var syncEnabled: bool
    var running: bool
    const database: Storage.ClipboardDatabase
    const monitor: Clipboard.ClipboardMonitor
    var wsServer: WebSocket.WebSocketServer?
    var wsClient: WebSocket.WebSocketClient?

    /** The store opens the file under `dataDir` holding `persistedItems` and `persistedDevices`. */
    constructor (config: AppConfig, deviceId: string, dataDir: string, contentHashOf: Hasher,
                 persistedItems: Storage.ItemTable, persistedDevices: Storage.DeviceTable)
      requires Storage.ItemsKeyed(persistedItems) && Storage.DevicesKeyed(persistedDevices)
      ensures this.config == config && syncEnabled == config.syncEnabled && !running
      ensures fresh(database) && database.Valid() && !database.connected
      ensures database.items == persistedItems && database.devices == persistedDevices
      ensures fresh(monitor) && monitor.deviceId == deviceId && !monitor.started && !monitor.ignoreNext
      ensures monitor.contentHashOf == contentHashOf && monitor.lastHash.None? && monitor.writes == []
      ensures wsServer == null && wsClient == null
    {
      this.config := config;
      syncEnabled := config.syncEnabled;
      running := false;
      database := new Storage.ClipboardDatabase(persistedItems, persistedDevices);
      monitor := new Clipboard.ClipboardMonitor(deviceId, dataDir, contentHashOf);
      wsServer := null;
      wsClient := null;
    }

    /** start(): once only; connects the store, attaches the monitor, creates the server and client. */
    method Start(deviceId: string, deviceName: string)
      requires database.Valid()
      modifies this, database, monitor
      ensures running && database.Valid()
      ensures config == old(config) && syncEnabled == old(syncEnabled)
      ensures database.items == old(database.items) && database.devices == old(database.devices)
      ensures monitor.lastHash == old(monitor.lastHash) && monitor.ignoreNext == old(monitor.ignoreNext)
      ensures monitor.writes == old(monitor.writes) && monitor.blobs == old(monitor.blobs)
      ensures old(running) ==> && database.connected == old(database.connected) && monitor.started == old(monitor.started)
                               && wsServer == old(wsServer) && wsClient == old(wsClient)
      ensures !old(running) ==> && database.connected && monitor.started
                                && wsServer != null && fresh(wsServer) && wsServer.connections == map[]
                                && wsClient != null && fresh(wsClient) && wsClient.connections == map[]
    {
      if running {
        return;
      }
      database.Connect();
      monitor.Start();
      wsServer := new WebSocket.WebSocketServer(deviceId, deviceName);
      wsClient := new WebSocket.WebSocketClient(deviceId, deviceName);
      running := true;
    }

    /**
     * _on_clipboard_captured: past the gates the item is offered to the store,
     * and only a newly stored item is broadcast, when there is a server.
     * `order` is the broadcast's visiting order, empty when nothing was sent.
     */
    method OnClipboardCaptured(item: Storage.ClipboardItem, blob: seq<byte>, sendOk: WebSocket.PeerKey -> bool)
      returns (order: seq<WebSocket.PeerKey>)
      requires database.Valid()
      modifies database, wsServer
      ensures database.Valid() && database.connected == old(database.connected)
      ensures database.devices == old(database.devices)
      ensures var stored := CaptureGatesPass(syncEnabled, config, item) && database.connected
                            && Storage.Admits(old(database.items), item);
              && database.items == (if stored then old(database.items)[item.contentHash := item] else old(database.items))
              && (wsServer != null ==>
                    && wsServer.connections == old(wsServer.connections) && wsServer.received == old(wsServer.received)
                    && (stored ==> Ordering.Distinct(order) && forall k :: k in order <==> k in old(wsServer.connections))
                    && wsServer.outbox == old(wsServer.outbox)
                         + (if stored then WebSocket.BroadcastLog(order, old(wsServer.connections), WebSocket.BuildItemMessage(item, blob), sendOk) else []))
              && (!stored || wsServer == null ==> order == [])
    {
      order := [];
      if !syncEnabled || item.size > config.maxItemSize || !TypeAllowed(config, item.itemType) {
        return;
      }
      var added := database.AddItem(item);
      if !added {
        return;
      }
      if wsServer != null {
        order := wsServer.BroadcastItem(item, blob, sendOk);
      }
    }

    /**
     * _on_item_received: past the gates the item is offered to the store; a
     * newly stored item refreshes the sender's last-seen time and is written
     * to the local clipboard when it carries text or a blob path.
     */
    method OnItemReceived(item: Storage.ClipboardItem, peer: WebSocket.PeerKey, now: int)
      requires database.Valid()
      modifies database, monitor
      ensures database.Valid() && database.connected == old(database.connected)
      ensures monitor.started == old(monitor.started) && monitor.lastHash == old(monitor.lastHash)
      ensures monitor.blobs == old(monitor.blobs)
      ensures var sender := if peer.Some? then old(database.GetDevice(peer.value)) else None;
              var stored := ReceiveGatesPass(syncEnabled, config, sender, item) && Storage.Admits(old(database.items), item);
              var w := WriteBackOf(item);
              && database.items == (if stored then old(database.items)[item.contentHash := item] else old(database.items))
              && database.devices == (if stored then old(database.devices)[peer.value := sender.value.(lastSeenTimestamp := Some(now))]
                                      else old(database.devices))
              && monitor.writes == (if stored && w.Some? && monitor.started then old(monitor.writes) + [w.value] else old(monitor.writes))
              && monitor.ignoreNext == (if stored && w.Some? then true else old(monitor.ignoreNext))
    {
      if !syncEnabled {
        return;
      }
      if peer.None? {
        return;
      }
      var device := database.GetDevice(peer.value);
      if device.None? || !device.value.isTrusted {
        return;
      }
      if !TypeAllowed(config, item.itemType) {
        return;
      }
      var added := database.AddItem(item);
      if !added {
        return;
      }
      database.UpdateDeviceLastSeen(peer.value, now);
      if item.itemType == Storage.TextType && item.textContent.Some? && item.textContent.value != "" {
        monitor.SetClipboardText(item.textContent.value);
      } else if item.itemType == Storage.ImageType && item.blobPath.Some? && item.blobPath.value != "" {
        monitor.SetClipboardImage(item.blobPath.value);
      }
    }

    /** connect_to_device: None before start, else the client's handshake. */
    method ConnectToDevice(conn: WebSocket.ConnId, dialed: bool, first: WebSocket.Frame, helloSent: bool)
      returns (peer: WebSocket.PeerKey)
      modifies wsClient
      ensures wsClient == null ==> peer.None?
      ensures wsClient != null ==>
                var ok := dialed && first.Decoded? && WebSocket.HasType(first.data, WebSocket.HelloTag) && helloSent;
                && peer == (if ok then WebSocket.PeerIdOf(first.data) else None)
                && wsClient.connections == (if ok then old(wsClient.connections)[peer := conn] else old(wsClient.connections))
    {
      if wsClient == null {
        return None;
      }
      peer := wsClient.ConnectToDevice(conn, dialed, first, helloSent);
    }

    /**
     * revoke_device: the record stays but loses trust, and the client-side
     * session is closed; server-side sessions of that peer stay open.
     */
    method RevokeDevice(deviceId: string)
      requires database.Valid()
      modifies database, wsClient
      ensures database.Valid() && database.connected == old(database.connected) && database.items == old(database.items)
      ensures database.devices == if database.connected && deviceId in old(database.devices)
                                  then old(database.devices)[deviceId := old(database.devices)[deviceId].(isTrusted := false)]
                                  else old(database.devices)
      ensures wsClient != null ==> wsClient.connections == old(wsClient.connections) - {Some(deviceId)}
      ensures wsServer != null ==> wsServer.connections == old(wsServer.connections)
    {
      database.RevokeDevice(deviceId);
      if wsClient != null {
        wsClient.Disconnect(deviceId);
      }
    }

    /** toggle_sync: the flag and the configuration change together. */
    method ToggleSync(enabled: bool)
      modifies this
      ensures syncEnabled == enabled && IsSyncEnabled() == enabled && config == old(config).(syncEnabled := enabled)
      ensures running == old(running) && wsServer == old(wsServer) && wsClient == old(wsClient)
    {
      syncEnabled := enabled;
      config := config.(syncEnabled := enabled);
    }

    function IsSyncEnabled(): bool
      reads this
    {
      syncEnabled
    }

    /**
     * A clipboard change seen by the monitor, and the capture callback it
     * triggers. A captured item becomes the monitor's last hash and is then
     * stored and broadcast exactly as `_on_clipboard_captured` decides.
     */
    method ClipboardChanged(content: Option<Clipboard.MimeData>, id: string, now: int, blob: seq<byte>,
                            sendOk: WebSocket.PeerKey -> bool)
      returns (captured: Option<Storage.ClipboardItem>, order: seq<WebSocket.PeerKey>)
      requires database.Valid()
      modifies monitor, database, wsServer
      ensures database.Valid() && database.devices == old(database.devices) && database.connected == old(database.connected)
      ensures monitor.writes == old(monitor.writes) && monitor.started == old(monitor.started)
      ensures !monitor.ignoreNext
      ensures old(monitor.ignoreNext) ==> captured.None? && monitor.lastHash == old(monitor.lastHash)
      ensures !old(monitor.ignoreNext) && (!monitor.started || Clipboard.Choose(content).TakeNothing?) ==> captured.None?
      ensures !old(monitor.ignoreNext) && monitor.started && Clipboard.Choose(content).TakeText? ==>
                var text := Clipboard.Choose(content).text;
                var h := monitor.contentHashOf(PyText.Utf8Encode(text));
                captured == if Some(h) == old(monitor.lastHash) then None
                            else Some(Clipboard.TextItem(monitor.deviceId, text, h, id, now))
      ensures !old(monitor.ignoreNext) && monitor.started && Clipboard.Choose(content).TakeImage? ==>
                var image := Clipboard.Choose(content).image;
                var h := monitor.contentHashOf(image.png);
                captured == if Some(h) == old(monitor.lastHash) then None
                            else Some(Clipboard.ImageItem(monitor.deviceId, monitor.blobsDir, image, h, id, now))
      ensures captured.None? ==> database.items == old(database.items) && order == []
      ensures captured.None? && wsServer != null ==> wsServer.outbox == old(wsServer.outbox)
      ensures wsServer != null ==> wsServer.connections == old(wsServer.connections)
      ensures captured.Some? ==>
                var item := captured.value;
                var stored := CaptureGatesPass(syncEnabled, config, item) && database.connected
                              && Storage.Admits(old(database.items), item);
                && monitor.lastHash == Some(item.contentHash)
                && database.items == (if stored then old(database.items)[item.contentHash := item] else old(database.items))
                && (!stored || wsServer == null ==> order == [])
                && (wsServer != null ==>
                      && (stored ==> Ordering.Distinct(order) && forall k :: k in order <==> k in old(wsServer.connections))
                      && wsServer.outbox == old(wsServer.outbox)
                           + (if stored then WebSocket.BroadcastLog(order, old(wsServer.connections),
                                                                     WebSocket.BuildItemMessage(item, blob), sendOk) else []))
    {
      captured := monitor.ProcessClipboard(content, id, now);
      order := [];
      if captured.Some? {
        order := OnClipboardCaptured(captured.value, blob, sendOk);
      }
    }
  }

  /**
   * A run of `_process_clipboard` that finds `text` on the clipboard, with
   * no write pending, and the capture callback it triggers.
   */
  method ProcessText(s: ClipboardSyncService, text: string, id: string, now: int,
                     blob: seq<byte>, sendOk: WebSocket.PeerKey -> bool)
    returns (captured: Option<Storage.ClipboardItem>, order: seq<WebSocket.PeerKey>)
    requires s.database.Valid() && s.monitor.started && !s.monitor.ignoreNext
    modifies s.database, s.monitor, s.wsServer
    ensures s.database.Valid() && !s.monitor.ignoreNext
    ensures s.database.connected == old(s.database.connected)
    ensures s.wsServer != null ==> s.wsServer.connections == old(s.wsServer.connections)
    ensures var h := s.monitor.contentHashOf(PyText.Utf8Encode(text));
            && (!PyText.HasNonBlank(text) ==> captured.None?)
            && (PyText.HasNonBlank(text) ==>
                  captured == if Some(h) == old(s.monitor.lastHash) then None
                              else Some(Clipboard.TextItem(s.monitor.deviceId, text, h, id, now)))
            && (captured.Some? && h in old(s.database.items) ==> s.database.items == old(s.database.items) && order == [])
            && (captured.Some? && CaptureGatesPass(s.syncEnabled, s.config, captured.value) && s.database.connected
                && Storage.Admits(old(s.database.items), captured.value) ==>
                  && s.database.items == old(s.database.items)[h := captured.value]
                  && (s.wsServer != null ==> forall k :: k in order <==> k in old(s.wsServer.connections)))
    ensures captured.None? ==> s.database.items == old(s.database.items) && order == []
    ensures s.wsServer != null && order == [] ==> s.wsServer.outbox == old(s.wsServer.outbox)
  {
    var content := Some(Clipboard.MimeData(Some(text), None));
    assert PyText.HasNonBlank(text) ==> Clipboard.Choose(content) == Clipboard.TakeText(text);
    assert !PyText.HasNonBlank(text) ==> Clipboard.Choose(content).TakeNothing?;
    captured, order := s.ClipboardChanged(content, id, now, blob, sendOk);
  }

  /**
   * The two runs of `_process_clipboard` after `set_clipboard_text(text)`:
   * the armed flag swallows the first, and the second sees `text` again.
   */
  method ProcessWriteBack(s: ClipboardSyncService, text: string, id1: string, t1: int, id2: string, t2: int,
                          blob: seq<byte>, sendOk: WebSocket.PeerKey -> bool)
    returns (first: Option<Storage.ClipboardItem>, second: Option<Storage.ClipboardItem>, order: seq<WebSocket.PeerKey>)
    requires s.database.Valid() && s.monitor.started && s.monitor.ignoreNext
    modifies s.database, s.monitor, s.wsServer
    ensures s.database.Valid() && !s.monitor.ignoreNext && first.None?
    ensures s.database.connected == old(s.database.connected)
    ensures var h := s.monitor.contentHashOf(PyText.Utf8Encode(text));
            && (!PyText.HasNonBlank(text) ==> second.None?)
            && (PyText.HasNonBlank(text) ==>
                  second == if Some(h) == old(s.monitor.lastHash) then None
                            else Some(Clipboard.TextItem(s.monitor.deviceId, text, h, id2, t2)))
            && (second.Some? && h in old(s.database.items) ==> s.database.items == old(s.database.items) && order == [])
            && (second.Some? && CaptureGatesPass(s.syncEnabled, s.config, second.value) && s.database.connected
                && Storage.Admits(old(s.database.items), second.value) ==>
                  && s.database.items == old(s.database.items)[h := second.value]
                  && (s.wsServer != null ==> forall k :: k in order <==> k in old(s.wsServer.connections)))
    ensures second.None? ==> s.database.items == old(s.database.items) && order == []
    ensures s.wsServer != null && order == [] ==> s.wsServer.outbox == old(s.wsServer.outbox)
  {
    var swallowed;
    first, swallowed := s.ClipboardChanged(Some(Clipboard.MimeData(Some(text), None)), id1, t1, blob, sendOk);
    second, order := ProcessText(s, text, id2, t2, blob, sendOk);
  }

  /**
   * Loop prevention end to end, for a peer's text. A stored text is written
   * to the clipboard, and the change this causes is processed twice: once
   * for the `dataChanged` signal and once by the one-second poll. The flag
   * the write arms swallows the first run only. The second run re-captures
   * the text unless its hash is the monitor's last one, and then the ledger
   * decides. When the local hash of the text equals the content hash the
   * peer sent, the row stored on receipt refuses the capture and nothing is
   * broadcast. When the two hashes differ, the text is stored a second time
   * and broadcast back to every connected peer: an echo.
   */
  method WriteBackThenPoll(s: ClipboardSyncService, item: Storage.ClipboardItem, peer: string, now: int,
                           id1: string, t1: int, id2: string, t2: int, blob: seq<byte>, sendOk: WebSocket.PeerKey -> bool)
    returns (stored: bool, first: Option<Storage.ClipboardItem>, second: Option<Storage.ClipboardItem>,
             order: seq<WebSocket.PeerKey>)
    requires s.database.Valid() && s.monitor.started && !s.monitor.ignoreNext
    requires item.itemType == Storage.TextType && item.textContent.Some? && item.textContent.value != ""
    modifies s.database, s.monitor, s.wsServer
    ensures s.database.Valid() && !s.monitor.ignoreNext && first.None?
    ensures stored <==> ReceiveGatesPass(s.syncEnabled, s.config, old(s.database.GetDevice(peer)), item)
                        && Storage.Admits(old(s.database.items), item)
    ensures !stored ==> second.None? && s.database.items == old(s.database.items) && order == []
    ensures var text := item.textContent.value;
            var h := s.monitor.contentHashOf(PyText.Utf8Encode(text));
            var afterReceipt := old(s.database.items)[item.contentHash := item];
            && (stored && !PyText.HasNonBlank(text) ==> second.None? && s.database.items == afterReceipt)
            && (stored && PyText.HasNonBlank(text) ==>
                  second == if Some(h) == old(s.monitor.lastHash) then None
                            else Some(Clipboard.TextItem(s.monitor.deviceId, text, h, id2, t2)))
            && (stored && h == item.contentHash ==> s.database.items == afterReceipt && order == [])
            && (stored && second.Some? && h != item.contentHash && CaptureGatesPass(s.syncEnabled, s.config, second.value)
                && Storage.Admits(afterReceipt, second.value) ==>
                  && s.database.items == afterReceipt[h := second.value]
                  && (s.wsServer != null ==> forall k :: k in order <==> k in old(s.wsServer.connections)))
    ensures s.wsServer != null && order == [] ==> s.wsServer.outbox == old(s.wsServer.outbox)
  {
    var w0 := s.monitor.writes;
    s.OnItemReceived(item, Some(peer), now);
    stored := s.monitor.writes != w0;
    first, second, order := None, None, [];
    if stored {
      assert s.database.connected && s.database.items == old(s.database.items)[item.contentHash := item];
      first, second, order := ProcessWriteBack(s, item.textContent.value, id1, t1, id2, t2, blob, sendOk);
    }
  }
}
