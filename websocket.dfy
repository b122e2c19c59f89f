/**
 * The session layer of src/clibpard/networking/websocket.py. A message is
 * the JSON object of one frame, already parsed; sends are recorded with an
 * outcome each (delivered or failed) that is an input; the receive callback
 * is a log of (item, sender) deliveries that the orchestrator consumes. A
 * connection's life is its first frame followed by a sequence of frames.
 */
module WebSocket {
  import opened Wrappers
  import opened Utils
  import Ordering
  import Storage

  /** The `Message` type tags. */
  const HelloTag: string := "hello"
  const ClipboardItemTag: string := "clipboard_item"
  const RequestItemTag: string := "request_item"
  const AckTag: string := "ack"
  const PingTag: string := "ping"
  const PongTag: string := "pong"

  /**
   * A JSON value of a message field. `FBytes` is the base64 text of
   * `blob_data`, represented by the bytes it encodes.
   */
  datatype Field = FNull | FStr(s: string) | FInt(i: int) | FMeta(m: Storage.Metadata) | FBytes(b: seq<byte>)

  type Message = map<string, Field>

  /** A received frame, by what the receive paths can make of it. */
  datatype Frame =
    | EmptyFrame             // "" or b""
    | BadUtf8                // bytes that are not UTF-8
    | Undecodable            // text that is not a JSON object
    | Decoded(data: Message)

  /** A connection-table key, `data.get("device_id")` of the peer's HELLO: None when absent. */
  type PeerKey = Option<string>

  /** Identifies one open websocket. */
  type ConnId = nat

  /** One attempted send on connection `conn`, registered under `peer`, and whether it went through. */
  datatype Sent = Sent(peer: PeerKey, conn: ConnId, msg: Message, delivered: bool)

  /** One call of the receive callback. */
  datatype Delivery = Delivery(item: Storage.ClipboardItem, sender: PeerKey)

  /** Python truthiness of a key: `if peer_device_id:` is false for None and for "". */
  predicate IsTruthyKey(k: PeerKey)
  {
    k.Some? && k.value != ""
  }

  /** Python truthiness of a field value. */
  predicate IsTruthy(f: Field)
  {
    match f
    case FNull => false
    case FStr(s) => s != ""
    case FInt(i) => i != 0
    case FMeta(m) => m != map[]
    case FBytes(b) => b != []
  }

  /** `data.get("type") == tag`. */
  predicate HasType(data: Message, tag: string)
  {
    "type" in data && data["type"] == FStr(tag)
  }

  /** The HELLO both sides send first; the peer reads our id back from it. */
  function HelloMessage(deviceId: string, deviceName: string): (m: Message)
    ensures HasType(m, HelloTag) && PeerIdOf(m) == Some(deviceId)
    ensures Classify(Decoded(m)).OtherMsg?
  {
    map["type" := FStr(HelloTag), "device_id" := FStr(deviceId), "device_name" := FStr(deviceName)]
  }

  /** An ACK names the item it acknowledges; a received ACK is ignored, so it starts no reply. */
  function AckMessage(itemId: string): (m: Message)
    ensures HasType(m, AckTag) && AckedIds([Sent(None, 0, m, true)]) == [itemId]
    ensures Classify(Decoded(m)).OtherMsg?
  {
    map["type" := FStr(AckTag), "item_id" := FStr(itemId)]
  }

  /** A received PONG is ignored as well, so PINGs never start a loop of replies. */
  function PongMessage(): (m: Message)
    ensures HasType(m, PongTag) && AckedIds([Sent(None, 0, m, true)]) == []
    ensures Classify(Decoded(m)).OtherMsg?
  {
    map["type" := FStr(PongTag)]
  }

  /** `data.get("device_id")`; a non-string id is read as absent. */
  function PeerIdOf(data: Message): PeerKey
  {
    if "device_id" in data && data["device_id"].FStr? then Some(data["device_id"].s) else None
  }

  /** What a parsed item keeps of the sent one: empty text is dropped, the blob path never travels. */
  function AsReceived(item: Storage.ClipboardItem): Storage.ClipboardItem
  {
    item.(textContent := if item.textContent.Some? && item.textContent.value != "" then item.textContent else None,
          blobPath := None)
  }

  /** A required key of ClipboardItem is missing, or holds a value of another type. */
  predicate RequiredKeyBad(data: Message)
  {
    || "id" !in data || !data["id"].FStr? || "item_type" !in data || !data["item_type"].FStr?
    || "content_hash" !in data || !data["content_hash"].FStr?
    || "origin_device_id" !in data || !data["origin_device_id"].FStr?
    || "timestamp" !in data || !data["timestamp"].FInt? || "size" !in data || !data["size"].FInt?
  }

  /** `metadata` is present but not a dict, or `text_content` is present but neither null nor a string. */
  predicate OptionalKeyBad(data: Message)
  {
    || ("metadata" in data && !data["metadata"].FMeta?)
    || ("text_content" in data && !data["text_content"].FNull? && !data["text_content"].FStr?)
  }

  /**
   * The construction of a ClipboardItem from the dict in both
   * `_handle_clipboard_item`s: required keys must hold values of the
   * declared types, `metadata` defaults to {}, `text_content` to None. A
   * failure raises, which is None here.
   */
  function ParseItemMessage(data: Message): (r: Option<Storage.ClipboardItem>)
    ensures r.Some? ==> && "id" in data && data["id"] == FStr(r.value.id)
                        && "item_type" in data && data["item_type"] == FStr(r.value.itemType)
                        && "content_hash" in data && data["content_hash"] == FStr(r.value.contentHash)
                        && "origin_device_id" in data && data["origin_device_id"] == FStr(r.value.originDeviceId)
                        && "timestamp" in data && data["timestamp"] == FInt(r.value.timestamp)
                        && "size" in data && data["size"] == FInt(r.value.size)
    ensures r.Some? ==> && ("metadata" in data ==> data["metadata"] == FMeta(r.value.metadata))
                        && ("metadata" !in data ==> r.value.metadata == map[])
                        && (r.value.textContent.Some? <==> "text_content" in data && data["text_content"].FStr?)
                        && (r.value.textContent.Some? ==> data["text_content"] == FStr(r.value.textContent.value))
                        && r.value.blobPath.None?
    ensures r.None? <==> RequiredKeyBad(data) || OptionalKeyBad(data)
  {
    if && "id" in data && data["id"].FStr?
       && "item_type" in data && data["item_type"].FStr?
       && "content_hash" in data && data["content_hash"].FStr?
       && "origin_device_id" in data && data["origin_device_id"].FStr?
       && "timestamp" in data && data["timestamp"].FInt?
       && "size" in data && data["size"].FInt?
       && ("metadata" !in data || data["metadata"].FMeta?)
       && ("text_content" !in data || data["text_content"].FNull? || data["text_content"].FStr?)
    then
      Some(Storage.ClipboardItem(
        data["id"].s, data["item_type"].s, data["content_hash"].s, data["origin_device_id"].s,
        data["timestamp"].i, data["size"].i,
        if "metadata" in data then data["metadata"].m else map[],
        if "text_content" in data && data["text_content"].FStr? then Some(data["text_content"].s) else None,
        None))
    else None
  }

  /**
   * The CLIPBOARD_ITEM envelope of `broadcast_item` and `send_item`; `blob`
   * is the content of the file at the item's blob path. Parsing it gives the
   * item back, up to the fields that do not travel.
   */
  function BuildItemMessage(item: Storage.ClipboardItem, blob: seq<byte>): (msg: Message)
    ensures HasType(msg, ClipboardItemTag)
    ensures ParseItemMessage(msg) == Some(AsReceived(item))
    ensures "blob_data" in msg <==> item.blobPath.Some? && item.blobPath.value != ""
    ensures "blob_data" in msg ==> msg["blob_data"] == FBytes(blob)
  {
    var base := map[
      "type" := FStr(ClipboardItemTag),
      "id" := FStr(item.id),
      "item_type" := FStr(item.itemType),
      "content_hash" := FStr(item.contentHash),
      "origin_device_id" := FStr(item.originDeviceId),
      "timestamp" := FInt(item.timestamp),
      "size" := FInt(item.size),
      "metadata" := FMeta(item.metadata)];
    var withText := if item.textContent.Some? && item.textContent.value != ""
                    then base["text_content" := FStr(item.textContent.value)] else base;
    if item.blobPath.Some? && item.blobPath.value != "" then withText["blob_data" := FBytes(blob)] else withText
  }

  /** The server's `if data.get("blob_data"): base64.b64decode(...)` does not raise. */
  predicate BlobDataDecodes(data: Message)
  {
    "blob_data" !in data || !IsTruthy(data["blob_data"]) || data["blob_data"].FBytes?
  }

  /** Envelope round trip, field by field; the blob, if any, decodes. */
  lemma EnvelopeRoundTrip(item: Storage.ClipboardItem, blob: seq<byte>)
    ensures var r := ParseItemMessage(BuildItemMessage(item, blob));
            && r.Some?
            && r.value.id == item.id && r.value.itemType == item.itemType && r.value.contentHash == item.contentHash
            && r.value.originDeviceId == item.originDeviceId && r.value.timestamp == item.timestamp
            && r.value.size == item.size && r.value.metadata == item.metadata
            && r.value.textContent == (if item.textContent.Some? && item.textContent.value != "" then item.textContent else None)
            && r.value.blobPath.None?
            && BlobDataDecodes(BuildItemMessage(item, blob))
  {
  }

  /** A received frame, classified once by its type tag. */
  datatype Incoming =
    | ItemMsg(item: Storage.ClipboardItem)   // CLIPBOARD_ITEM whose fields parse
    | BadItem                                // CLIPBOARD_ITEM whose fields do not
    | PingMsg
    | OtherMsg                               // HELLO, ACK, PONG, REQUEST_ITEM or any other tag
    | Garbage                                // a frame that is not a JSON object

  function Classify(frame: Frame): (c: Incoming)
    ensures c.Garbage? <==> !frame.Decoded?
    ensures c.ItemMsg? <==> frame.Decoded? && HasType(frame.data, ClipboardItemTag) && ParseItemMessage(frame.data).Some?
    ensures c.ItemMsg? ==> ParseItemMessage(frame.data) == Some(c.item)
    ensures c.PingMsg? <==> frame.Decoded? && HasType(frame.data, PingTag)
    ensures c.OtherMsg? <==> frame.Decoded? && !HasType(frame.data, ClipboardItemTag) && !HasType(frame.data, PingTag)
  {
    match frame
    case Decoded(data) =>
      if HasType(data, ClipboardItemTag) then
        match ParseItemMessage(data)
        case Some(item) => ItemMsg(item)
        case None => BadItem
      else if HasType(data, PingTag) then PingMsg
      else OtherMsg
    case _ => Garbage
  }

  /** The item the server's `_handle_clipboard_item` hands on: its fields parse and its blob decodes. */
  function ServerItem(frame: Frame): (r: Option<Storage.ClipboardItem>)
    ensures r.Some? <==> Classify(frame).ItemMsg? && BlobDataDecodes(frame.data)
    ensures r.Some? ==> r.value == Classify(frame).item
  {
    match Classify(frame)
    case ItemMsg(item) => if BlobDataDecodes(frame.data) then Some(item) else None
    case _ => None
  }

  /** The callback invocation the server makes for one frame. */
  function ServerDelivery(peer: PeerKey, frame: Frame): seq<Delivery>
  {
    match ServerItem(frame) case Some(item) => [Delivery(item, peer)] case None => []
  }

  /** The reply (ACK or PONG) the server sends for one frame over `conn`, with its outcome. */
  function ServerReply(peer: PeerKey, conn: ConnId, frame: Frame, replyOk: bool): seq<Sent>
  {
    match ServerItem(frame)
    case Some(item) => [Sent(peer, conn, AckMessage(item.id), replyOk)]
    case None => if Classify(frame).PingMsg? then [Sent(peer, conn, PongMessage(), replyOk)] else []
  }

  /**
   * The callback invocations the server makes for the frames of a session,
   * from sender `peer`, up to a frame that is not UTF-8, which ends it.
   */
  function ServerDeliveries(peer: PeerKey, frames: seq<Frame>): seq<Delivery>
  {
    if frames == [] || frames[0].BadUtf8? then []
    else ServerDelivery(peer, frames[0]) + ServerDeliveries(peer, frames[1..])
  }

  /** The replies the server sends for the frames of a session over `conn`. */
  function ServerReplies(peer: PeerKey, conn: ConnId, frames: seq<Frame>, replyOk: seq<bool>): seq<Sent>
    requires |replyOk| == |frames|
  {
    if frames == [] || frames[0].BadUtf8? then []
    else ServerReply(peer, conn, frames[0], replyOk[0]) + ServerReplies(peer, conn, frames[1..], replyOk[1..])
  }

  /** Every message of a lifetime that is neither a parsable item nor a PING causes nothing. */
  lemma {:induction false} ServerIgnoresOthers(peer: PeerKey, conn: ConnId, frames: seq<Frame>, replyOk: seq<bool>)
    requires |replyOk| == |frames|
    requires forall i :: 0 <= i < |frames| ==> !Classify(frames[i]).ItemMsg? && !Classify(frames[i]).PingMsg?
    ensures ServerDeliveries(peer, frames) == [] && ServerReplies(peer, conn, frames, replyOk) == []
  {
    if frames != [] && !frames[0].BadUtf8? {
      assert !Classify(frames[0]).ItemMsg? && !Classify(frames[0]).PingMsg?;
      assert ServerDelivery(peer, frames[0]) == [] && ServerReply(peer, conn, frames[0], replyOk[0]) == [];
      ServerIgnoresOthers(peer, conn, frames[1..], replyOk[1..]);
    }
  }

  /** The item ids acknowledged by the ACK messages of a send log, in order. */
  function AckedIds(log: seq<Sent>): seq<string>
  {
    if log == [] then []
    else
      (if HasType(log[0].msg, AckTag) && "item_id" in log[0].msg && log[0].msg["item_id"].FStr?
       then [log[0].msg["item_id"].s] else [])
      + AckedIds(log[1..])
  }

  /** The ids of the delivered items, in order. */
  function DeliveredIds(ds: seq<Delivery>): seq<string>
  {
    if ds == [] then [] else [ds[0].item.id] + DeliveredIds(ds[1..])
  }

  lemma {:induction false} AckedIdsConcat(a: seq<Sent>, b: seq<Sent>)
    ensures AckedIds(a + b) == AckedIds(a) + AckedIds(b)
  {
    if a != [] {
      assert (a + b)[1..] == a[1..] + b;
      AckedIdsConcat(a[1..], b);
    } else {
      assert a + b == b;
    }
  }

  lemma {:induction false} DeliveredIdsConcat(a: seq<Delivery>, b: seq<Delivery>)
    ensures DeliveredIds(a + b) == DeliveredIds(a) + DeliveredIds(b)
  {
    if a != [] {
      assert (a + b)[1..] == a[1..] + b;
      DeliveredIdsConcat(a[1..], b);
    } else {
      assert a + b == b;
    }
  }

  /**
   * Each delivery names the connection's peer, and the ACKs of a session
   * pair up with its deliveries one to one: the acknowledged ids are the
   * delivered items' ids, in the same order, whatever the send outcomes.
   */
  lemma {:induction false} ServerAcksEachDelivery(peer: PeerKey, conn: ConnId, frames: seq<Frame>, replyOk: seq<bool>)
    requires |replyOk| == |frames|
    ensures forall d :: d in ServerDeliveries(peer, frames) ==> d.sender == peer
    ensures AckedIds(ServerReplies(peer, conn, frames, replyOk)) == DeliveredIds(ServerDeliveries(peer, frames))
    ensures |ServerDeliveries(peer, frames)| <= |ServerReplies(peer, conn, frames, replyOk)| <= |frames|
  {
    if frames != [] && !frames[0].BadUtf8? {
      var reply := ServerReply(peer, conn, frames[0], replyOk[0]);
      var delivery := ServerDelivery(peer, frames[0]);
      ServerAcksEachDelivery(peer, conn, frames[1..], replyOk[1..]);
      AckedIdsConcat(reply, ServerReplies(peer, conn, frames[1..], replyOk[1..]));
      DeliveredIdsConcat(delivery, ServerDeliveries(peer, frames[1..]));
      assert AckedIds(reply) == DeliveredIds(delivery);
    }
  }

  /** The sends of one broadcast, in the order the peers were visited. */
  function BroadcastLog(order: seq<PeerKey>, snapshot: map<PeerKey, ConnId>, msg: Message, sendOk: PeerKey -> bool): (log: seq<Sent>)
    requires forall i :: 0 <= i < |order| ==> order[i] in snapshot
    ensures |log| == |order|
    ensures forall i :: 0 <= i < |log| ==> log[i] == Sent(order[i], snapshot[order[i]], msg, sendOk(order[i]))
  {
    seq(|order|, i requires 0 <= i < |order| => Sent(order[i], snapshot[order[i]], msg, sendOk(order[i])))
  }

  /**
   * Partial-failure isolation: when every peer of the snapshot is visited
   * once, each peer gets exactly one attempt, and every peer whose own send
   * succeeds receives the message, whatever happens to the others.
   */
  lemma BroadcastIsolation(order: seq<PeerKey>, snapshot: map<PeerKey, ConnId>, msg: Message, sendOk: PeerKey -> bool)
    requires Ordering.Distinct(order) && forall k :: k in order <==> k in snapshot
    ensures var log := BroadcastLog(order, snapshot, msg, sendOk);
            forall k :: k in snapshot ==>
              && (exists i :: 0 <= i < |log| && log[i].peer == k && log[i].conn == snapshot[k] && log[i].msg == msg
                                             && log[i].delivered == sendOk(k))
              && (forall i, j :: 0 <= i < j < |log| && log[i].peer == k ==> log[j].peer != k)
  {
    var log := BroadcastLog(order, snapshot, msg, sendOk);
    forall k | k in snapshot
      ensures exists i :: 0 <= i < |log| && log[i].peer == k && log[i].conn == snapshot[k] && log[i].msg == msg
                                         && log[i].delivered == sendOk(k)
    {
      var i :| 0 <= i < |order| && order[i] == k;
      assert log[i].peer == k;
    }
  }

  class WebSocketServer {
    const deviceId: string
    const deviceName: string
    /** `_connections`: the live session per peer key. */
    var connections: map<PeerKey, ConnId>
    /** Every send attempted after a handshake, oldest first. */
    var outbox: seq<Sent>
    /** The receive-callback invocations, oldest first. */
    var received: seq<Delivery>

    constructor (deviceId: string, deviceName: string)
      ensures this.deviceId == deviceId && this.deviceName == deviceName
      ensures connections == map[] && outbox == [] && received == []
    {
      this.deviceId := deviceId;
      this.deviceName := deviceName;
      connections := map[];
      outbox := [];
      received := [];
    }

    /**
     * The handshake of `_handle_connection` on connection `conn`: our HELLO
     * goes out (`helloSent` is its outcome), then the first frame must be a
     * HELLO; its device id becomes the key, superseding an older entry.
     * `peerDeviceId` is the handler's `peer_device_id` afterwards.
     */
    method Accept(conn: ConnId, helloSent: bool, first: Frame) returns (registered: bool, peerDeviceId: PeerKey)
      modifies this
      ensures outbox == old(outbox) && received == old(received)
      ensures registered <==> helloSent && first.Decoded? && HasType(first.data, HelloTag)
      ensures peerDeviceId == if registered then PeerIdOf(first.data) else None
      ensures connections == if registered then old(connections)[peerDeviceId := conn] else old(connections)
    {
      if !helloSent || !first.Decoded? {
        return false, None;
      }
      if HasType(first.data, HelloTag) {
        peerDeviceId := PeerIdOf(first.data);
        connections := connections[peerDeviceId := conn];
        return true, peerDeviceId;
      }
      return false, None;
    }

    /**
     * _handle_message: a CLIPBOARD_ITEM whose fields parse and whose blob
     * decodes is handed to the callback, then ACKed through the table's entry
     * for the sender; a PING is answered with a PONG the same way; anything
     * else, or an error, changes nothing.
     */
    method HandleMessage(peer: PeerKey, frame: Frame, replyOk: bool)
      modifies this
      ensures connections == old(connections)
      ensures received == old(received) + ServerDelivery(peer, frame)
      ensures outbox == old(outbox) + (if peer in connections then ServerReply(peer, connections[peer], frame, replyOk) else [])
    {
      match Classify(frame)
      case ItemMsg(item) =>
        if BlobDataDecodes(frame.data) {
          received := received + [Delivery(item, peer)];
          if peer in connections {
            outbox := outbox + [Sent(peer, connections[peer], AckMessage(item.id), replyOk)];
          }
        }
      case PingMsg =>
        if peer in connections {
          outbox := outbox + [Sent(peer, connections[peer], PongMessage(), replyOk)];
        }
      case _ =>
    }

    /** The `finally` of `_handle_connection`: pops the key if it is truthy. */
    method ConnectionClosed(peerDeviceId: PeerKey)
      modifies this
      ensures outbox == old(outbox) && received == old(received)
      ensures connections == if IsTruthyKey(peerDeviceId) then old(connections) - {peerDeviceId} else old(connections)
    {
      if IsTruthyKey(peerDeviceId) {
        connections := connections - {peerDeviceId};
      }
    }

    /**
     * A whole `_handle_connection` run with no other connection interleaved:
     * handshake, one `_handle_message` per frame, then the `finally`.
     */
    method HandleConnection(conn: ConnId, helloSent: bool, first: Frame, frames: seq<Frame>, replyOk: seq<bool>)
      requires |replyOk| == |frames|
      modifies this
      ensures var registered := helloSent && first.Decoded? && HasType(first.data, HelloTag);
              var k := if registered then PeerIdOf(first.data) else None;
              && connections == (if !registered then old(connections)
                                 else if IsTruthyKey(k) then old(connections) - {k}
                                 else old(connections)[k := conn])
              && received == old(received) + (if registered then ServerDeliveries(k, frames) else [])
              && outbox == old(outbox) + (if registered then ServerReplies(k, conn, frames, replyOk) else [])
    {
      var registered, peer := Accept(conn, helloSent, first);
      if registered {
        HandleFrames(peer, frames, replyOk);
      }
      ConnectionClosed(peer);
    }

    /** One iteration of the `async for`: an empty frame is skipped, any other goes to `_handle_message`. */
    method HandleFrame(peer: PeerKey, frame: Frame, replyOk: bool)
      requires !frame.BadUtf8?
      modifies this
      ensures connections == old(connections)
      ensures received == old(received) + ServerDelivery(peer, frame)
      ensures outbox == old(outbox) + (if peer in connections then ServerReply(peer, connections[peer], frame, replyOk) else [])
    {
      if !frame.EmptyFrame? {
        HandleMessage(peer, frame, replyOk);
      }
    }

    /**
     * The `async for` of `_handle_connection`, for a registered session: empty
     * frames are skipped, the rest go to `_handle_message`, and a frame that
     * is not UTF-8 raises out of the loop.
     */
    method HandleFrames(peer: PeerKey, frames: seq<Frame>, replyOk: seq<bool>)
      requires |replyOk| == |frames| && peer in connections
      modifies this
      ensures connections == old(connections)
      ensures received == old(received) + ServerDeliveries(peer, frames)
      ensures outbox == old(outbox) + ServerReplies(peer, connections[peer], frames, replyOk)
    {
      var conn := connections[peer];
      var rest, oks := frames, replyOk;
      while rest != [] && !rest[0].BadUtf8?
        invariant |oks| == |rest|
        invariant connections == old(connections)
        invariant received + ServerDeliveries(peer, rest) == old(received) + ServerDeliveries(peer, frames)
        invariant outbox + ServerReplies(peer, conn, rest, oks) == old(outbox) + ServerReplies(peer, conn, frames, replyOk)
        decreases |rest|
      {
        HandleFrame(peer, rest[0], oks[0]);
        rest, oks := rest[1..], oks[1..];
      }
    }

    /**
     * broadcast_item: one send of the same envelope to every peer of the
     * table's snapshot, each with its own outcome; a failure is caught and
     * the loop goes on. `order` is the order the peers were visited in.
     */
    method BroadcastItem(item: Storage.ClipboardItem, blob: seq<byte>, sendOk: PeerKey -> bool)
      returns (order: seq<PeerKey>)
      modifies this
      ensures connections == old(connections) && received == old(received)
      ensures Ordering.Distinct(order) && forall k :: k in order <==> k in old(connections)
      ensures outbox == old(outbox) + BroadcastLog(order, old(connections), BuildItemMessage(item, blob), sendOk)
    {
      var msg := BuildItemMessage(item, blob);
      var snapshot := connections;
      order := [];
      var rest := snapshot.Keys;
      while rest != {}
        invariant rest <= snapshot.Keys && connections == snapshot && received == old(received)
        invariant Ordering.Distinct(order) && forall k :: k in order <==> k in snapshot && k !in rest
        invariant outbox == old(outbox) + BroadcastLog(order, snapshot, msg, sendOk)
        decreases |rest|
      {
        var k :| k in rest;
        outbox := outbox + [Sent(k, snapshot[k], msg, sendOk(k))];
        order := order + [k];
        rest := rest - {k};
      }
    }
  }

  /**
   * Supersede, then close the older session: removal is by key, so the newer
   * session's entry goes too.
   */
  method SupersededSessionClosed(server: WebSocketServer, c1: ConnId, c2: ConnId, hello: Message)
    requires HasType(hello, HelloTag) && IsTruthyKey(PeerIdOf(hello))
    modifies server
    ensures PeerIdOf(hello) !in server.connections
  {
    var r1, k1 := server.Accept(c1, true, Decoded(hello));
    var r2, k2 := server.Accept(c2, true, Decoded(hello));
    assert server.connections[k1] == c2;
    server.ConnectionClosed(k1);
  }

  /** The callback invocations the client makes for `frames`, up to the first frame that ends its loop. */
  function ClientDeliveries(peer: PeerKey, frames: seq<Frame>, replyOk: seq<bool>): seq<Delivery>
    requires |replyOk| == |frames|
  {
    if frames == [] then []
    else
      match Classify(frames[0])
      case ItemMsg(item) => [Delivery(item, peer)] + ClientDeliveries(peer, frames[1..], replyOk[1..])
      case PingMsg => if replyOk[0] then ClientDeliveries(peer, frames[1..], replyOk[1..]) else []
      case OtherMsg => ClientDeliveries(peer, frames[1..], replyOk[1..])
      case _ => []
  }

  /** The PONGs the client sends for `frames`, up to the first frame that ends its loop. */
  function ClientReplies(peer: PeerKey, conn: ConnId, frames: seq<Frame>, replyOk: seq<bool>): seq<Sent>
    requires |replyOk| == |frames|
  {
    if frames == [] then []
    else
      match Classify(frames[0])
      case ItemMsg(_) => ClientReplies(peer, conn, frames[1..], replyOk[1..])
      case PingMsg =>
        [Sent(peer, conn, PongMessage(), replyOk[0])]
        + (if replyOk[0] then ClientReplies(peer, conn, frames[1..], replyOk[1..]) else [])
      case OtherMsg => ClientReplies(peer, conn, frames[1..], replyOk[1..])
      case _ => []
  }

  /** The client never acknowledges an item: all it ever sends back is PONG. */
  lemma {:induction false} ClientSendsNoAck(peer: PeerKey, conn: ConnId, frames: seq<Frame>, replyOk: seq<bool>)
    requires |replyOk| == |frames|
    ensures forall s :: s in ClientReplies(peer, conn, frames, replyOk) ==> s.msg == PongMessage() && !HasType(s.msg, AckTag)
  {
    if frames != [] {
      ClientSendsNoAck(peer, conn, frames[1..], replyOk[1..]);
    }
  }

  class WebSocketClient {
    const deviceId: string
    const deviceName: string
    var connections: map<PeerKey, ConnId>
    var outbox: seq<Sent>
    var received: seq<Delivery>

    constructor (deviceId: string, deviceName: string)
      ensures this.deviceId == deviceId && this.deviceName == deviceName
      ensures connections == map[] && outbox == [] && received == []
    {
      this.deviceId := deviceId;
      this.deviceName := deviceName;
      connections := map[];
      outbox := [];
      received := [];
    }

    /**
     * connect_to_device over new connection `conn`: `dialed` is whether the TLS
     * connection opened, `first` the peer's first frame, `helloSent` the outcome
     * of our HELLO. The session is registered only after a HELLO both ways.
     */
    method ConnectToDevice(conn: ConnId, dialed: bool, first: Frame, helloSent: bool) returns (peer: PeerKey)
      modifies this
      ensures outbox == old(outbox) && received == old(received)
      ensures var ok := dialed && first.Decoded? && HasType(first.data, HelloTag) && helloSent;
              && peer == (if ok then PeerIdOf(first.data) else None)
              && connections == (if ok then old(connections)[PeerIdOf(first.data) := conn] else old(connections))
    {
      if !dialed || !first.Decoded? {
        return None;
      }
      if HasType(first.data, HelloTag) {
        var id := PeerIdOf(first.data);
        if !helloSent {
          return None;
        }
        connections := connections[id := conn];
        return id;
      }
      return None;
    }

    /**
     * One step of `_handle_messages`: false when the frame ends the loop (it
     * is not a JSON object, an item's fields do not parse, a PONG fails).
     * `blob_data` is not looked at.
     */
    method HandleMessage(peer: PeerKey, conn: ConnId, frame: Frame, replyOk: bool) returns (goOn: bool)
      modifies this
      ensures connections == old(connections)
      ensures goOn == match Classify(frame)
                      case ItemMsg(_) => true
                      case OtherMsg => true
                      case PingMsg => replyOk
                      case _ => false
      ensures received == old(received) + ClientDeliveries(peer, [frame], [replyOk])
      ensures outbox == old(outbox) + ClientReplies(peer, conn, [frame], [replyOk])
    {
      match Classify(frame)
      case ItemMsg(item) =>
        received := received + [Delivery(item, peer)];
        goOn := true;
      case PingMsg =>
        outbox := outbox + [Sent(peer, conn, PongMessage(), replyOk)];
        goOn := replyOk;
      case OtherMsg =>
        goOn := true;
      case _ =>
        goOn := false;
    }

    /** The `finally` of `_handle_messages`: pops the key, truthy or not. */
    method MessagesEnded(peer: PeerKey)
      modifies this
      ensures outbox == old(outbox) && received == old(received)
      ensures connections == old(connections) - {peer}
    {
      connections := connections - {peer};
    }

    /** A whole `_handle_messages` run: frames until one ends the loop, then the `finally`. */
    method HandleMessages(peer: PeerKey, conn: ConnId, frames: seq<Frame>, replyOk: seq<bool>)
      requires |replyOk| == |frames|
      modifies this
      ensures connections == old(connections) - {peer}
      ensures received == old(received) + ClientDeliveries(peer, frames, replyOk)
      ensures outbox == old(outbox) + ClientReplies(peer, conn, frames, replyOk)
    {
      var i := 0;
      var goOn := true;
      while i < |frames| && goOn
        invariant 0 <= i <= |frames|
        invariant connections == old(connections)
        invariant goOn ==> received + ClientDeliveries(peer, frames[i..], replyOk[i..])
                           == old(received) + ClientDeliveries(peer, frames, replyOk)
        invariant goOn ==> outbox + ClientReplies(peer, conn, frames[i..], replyOk[i..])
                           == old(outbox) + ClientReplies(peer, conn, frames, replyOk)
        invariant !goOn ==> received == old(received) + ClientDeliveries(peer, frames, replyOk)
        invariant !goOn ==> outbox == old(outbox) + ClientReplies(peer, conn, frames, replyOk)
      {
        ghost var r0, o0 := received, outbox;
        goOn := HandleMessage(peer, conn, frames[i], replyOk[i]);
        assert frames[i..][0] == frames[i] && frames[i..][1..] == frames[i + 1..];
        assert replyOk[i..][0] == replyOk[i] && replyOk[i..][1..] == replyOk[i + 1..];
        i := i + 1;
      }
      if goOn {
        assert frames[i..] == [] && replyOk[i..] == [];
      }
      MessagesEnded(peer);
    }

    /** send_item: nothing when not connected; else one send of the envelope. */
    method SendItem(deviceId: string, item: Storage.ClipboardItem, blob: seq<byte>, sendOk: bool)
      modifies this
      ensures connections == old(connections) && received == old(received)
      ensures outbox == if Some(deviceId) in connections
                        then old(outbox) + [Sent(Some(deviceId), connections[Some(deviceId)], BuildItemMessage(item, blob), sendOk)]
                        else old(outbox)
    {
      if Some(deviceId) !in connections {
        return;
      }
      var msg := BuildItemMessage(item, blob);
      outbox := outbox + [Sent(Some(deviceId), connections[Some(deviceId)], msg, sendOk)];
    }

    /** is_connected. */
    predicate IsConnected(deviceId: string)
      reads this
    {
      Some(deviceId) in connections
    }

    /** disconnect: closes and forgets the session, if there is one. */
    method Disconnect(deviceId: string)
      modifies this
      ensures outbox == old(outbox) && received == old(received)
      ensures connections == old(connections) - {Some(deviceId)}
      ensures !IsConnected(deviceId)
    {
      if Some(deviceId) in connections {
        connections := connections - {Some(deviceId)};
      }
    }
  }
}
