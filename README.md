# clipberry: a verified model of the sync and trust core

Clipberry (imported as `clibpard`) keeps the clipboards of paired devices in sync over TLS websockets. This project models its bookkeeping core in Dafny and proves what that core promises:

- the pairing-token table and the pairing handshake that makes a peer trusted;
- the trust ledger: an item table, unique on content hash and keyed by id, and a device table;
- the monitor that captures local clipboard changes, and how far it and the ledger keep a peer's write-back from being sent back;
- the websocket session tables, message dispatch and the item envelope;
- the orchestrator's gates that decide what is stored, broadcast and written back.

One module models each source file:

| module | file | models |
|---|---|---|
| `Utils` | `utils.dfy` | the token generator; the content hash as a function parameter |
| `PyText` | `pytext.dfy` | the Python string semantics the source relies on: UTF-8 `encode`, `strip()` with `str.isspace`, `isalnum`/`isupper` |
| `Ordering` | `ordering.dfy` | `ORDER BY … DESC` over a table, as a sort of the table's keys |
| `Storage` | `storage.dfy` | `ClipboardDatabase` |
| `Pairing` | `pairing.dfy` | `PairingManager`, `PairingWorkflow` |
| `Clipboard` | `clipboard.dfy` | `ClipboardMonitor` |
| `WebSocket` | `websocket.dfy` | `WebSocketServer`, `WebSocketClient` and the message formats |
| `Core` | `core.dfy` | `ClipboardSyncService` |

The model replaces the outside world with inputs and logs:

- **Time.** The clock is a parameter `now: int`.
- **Randomness.** The random choices of `secrets.choice` are a function `draws` from a position to an alphabet index.
- **Hash.** SHA-256 is a function `Hasher` from the bytes to a string, fixed for each monitor.
- **Clipboard.** What the Qt clipboard holds when polled is a `MimeData` value. What the monitor writes to it is a log.
- **Network.** Every send after the handshake (ACK, PONG, broadcast and `send_item`) is logged with the connection it used and an outcome (delivered or not) that is an input. Our own HELLO is not logged; its outcome is the input `helloSent`. The receive callback is a log of (item, sender) deliveries. A connection's life is its first frame followed by a sequence of frames.

Several behaviours follow the code where a reader might expect otherwise:

- **The expiry instant.** A token whose expiry equals `now` still validates. The listing of active tokens and the periodic sweep already treat it as expired (`Pairing.ExpiryBoundary`).
- **One swallowed change per write-back.** Writing a peer's text to the clipboard arms a one-shot flag, but the monitor processes the clipboard both on the `dataChanged` signal and on a one-second poll. The flag absorbs only the first of these runs; the next one captures the written text again, unless it is the monitor's last hash. The ledger then stops the echo only when the local hash of the text equals the content hash the peer sent; when they differ, the text is stored again and broadcast back (`Core.WriteBackThenPoll`).
- **Validate, store, then consume.** Host-side pairing validates the token, waits for the device to be stored, and only then consumes the token, ignoring the result of that consume. Two pairing sessions that interleave at that wait could both pair with one token. The model runs each call as one sequential step, so it does not show this interleaving.
- **No trust check at the handshake.** The server registers any peer that sends a HELLO, and a broadcast goes to every registered session. Untrusted and revoked peers therefore receive broadcast items; trust is checked only for items received. The model keeps this: `WebSocket.WebSocketServer.Accept` and `WebSocket.WebSocketServer.BroadcastItem` have no trust gate.
- **Supersede, then close.** The server removes sessions by key. When an older session for a peer id closes after a newer one replaced it, the newer entry is removed too (`WebSocket.SupersededSessionClosed`).

## Model

| member | source | states |
|---|---|---|
| Utils.GeneratePairingToken | src/clibpard/utils/__init__.py:15-18 | the token has exactly `length` characters, 8 by default, and none for a negative length; each character is in the alphabet and is the one drawn for that position |
| Utils.AlphabetRanks | src/clibpard/utils/__init__.py:17 | the alphabet has 32 symbols; the k-th is a token symbol whose rank is k |
| Utils.AlphabetFacts | src/clibpard/utils/__init__.py:17 | the alphabet has 32 pairwise distinct symbols, all upper-case letters or digits, none of them I, O, 0 or 1 |
| PyText.Utf8Encode | src/clibpard/clipboard/__init__.py:100 | `text.encode("utf-8")`, character by character; its properties are the lemmas below |
| PyText.EncodeChar | src/clibpard/clipboard/__init__.py:100 | one code point encodes to 1–4 well-formed UTF-8 bytes: one byte exactly for ASCII, the lead byte fixes the length, continuation bytes fall in 0x80–0xBF |
| PyText.Utf8EncodeConcat | src/clibpard/clipboard/__init__.py:100 | encoding distributes over concatenation |
| PyText.Utf8LengthBounds | src/clibpard/clipboard/__init__.py:115 | the byte length of an encoded text lies between its character count and four times that count |
| PyText.Utf8AsciiLength | src/clibpard/clipboard/__init__.py:115 | an ASCII text's byte length equals its character count |
| PyText.IsPyWhitespace | src/clibpard/clipboard/__init__.py:87 | the characters `str.isspace()` accepts, which `strip()` removes |
| PyText.HasNonBlank | src/clibpard/clipboard/__init__.py:87 | the truth of `text and text.strip()`: some character is not Python whitespace |
| PyText.Strip | src/clibpard/clipboard/__init__.py:87 | `strip()` is empty exactly when every character is Python whitespace; otherwise it starts and ends on non-whitespace |
| PyText.IsAlnum | tests/test_utils.py:38 | `str.isalnum()` for ASCII: non-empty, every character a letter or digit |
| PyText.IsUpper | tests/test_utils.py:39 | `str.isupper()` for ASCII: some upper-case letter and no lower-case one |
| PyText.TokenCharacterClasses | tests/test_utils.py:37-39 | a non-empty generated token is alphanumeric; it passes `isupper` exactly when it contains a letter |
| Ordering.InsertDesc | src/clipberry/storage/__init__.py:167 | inserting a key into a list sorted by descending key keeps it sorted and duplicate-free, and adds exactly that key |
| Ordering.SortedRows | src/clipberry/storage/__init__.py:158-263 | lists every key of the table once, with its row, in non-increasing order of the sort key; it stands for both `ORDER BY timestamp DESC` of `get_recent_items` (line 167) and `ORDER BY added_timestamp DESC` of `get_all_devices` (line 247) |
| Storage.IdTaken | src/clipberry/storage/__init__.py:97-127 | the PRIMARY KEY rule: some stored row already has this id |
| Storage.Admits | src/clipberry/storage/__init__.py:105-127 | the INSERT succeeds, rather than raising IntegrityError, exactly when neither the content hash nor the id is already stored |
| Storage.Inserted | src/clipberry/storage/__init__.py:97-127 | the value-level `add_item` on a connected store: the table gains the item under its hash exactly when admitted; `AddItem` is proved against it |
| Storage.InsertedAll | src/clipberry/storage/__init__.py:97-127 | the table after a run of `add_item` calls, one after another |
| Storage.AcceptedWithHash | src/clipberry/storage/__init__.py:97-127 | how many calls of such a run return True for one content hash |
| Storage.AcceptedAtMostOnce | src/clipberry/storage/__init__.py:97-127 | over any run of `add_item` calls a content hash is accepted at most once, never if already stored, and a stored row is never replaced |
| Storage.ClipboardDatabase.constructor | src/clipberry/storage/__init__.py:43-45 | a new handle is disconnected, over the rows already persisted in the file |
| Storage.ClipboardDatabase.Connect | src/clipberry/storage/__init__.py:47-53 | the handle is connected; the persisted tables are kept |
| Storage.ClipboardDatabase.Disconnect | src/clipberry/storage/__init__.py:55-59 | the handle is disconnected; the tables are kept |
| Storage.ClipboardDatabase.AddItem | src/clipberry/storage/__init__.py:97-127 | returns true exactly when connected and neither the hash nor the id is stored; only then is the item added under its hash; the device table never changes |
| Storage.ClipboardDatabase.GetItemByHash | src/clipberry/storage/__init__.py:129-156 | finds a row exactly when connected and the hash is stored, and returns that row |
| Storage.ClipboardDatabase.GetRecentItems | src/clipberry/storage/__init__.py:158-187 | returns `limit` rows, or all rows when fewer are stored or `limit` is negative; every row is stored, timestamps do not increase, no row repeats, no unlisted row is newer than a listed one; empty when disconnected |
| Storage.ClipboardDatabase.AddDevice | src/clipberry/storage/__init__.py:189-209 | an upsert by id when connected; every other id keeps its record |
| Storage.ClipboardDatabase.GetDevice | src/clipberry/storage/__init__.py:211-236 | finds a record exactly when connected and the id is stored, and returns that record |
| Storage.ClipboardDatabase.GetAllDevices | src/clipberry/storage/__init__.py:238-263 | lists every stored device exactly once, in non-increasing order of added time; empty when disconnected |
| Storage.ClipboardDatabase.UpdateDeviceLastSeen | src/clipberry/storage/__init__.py:265-272 | sets only the last-seen time of a stored device; an absent id or a disconnected store is a no-op; items are unchanged |
| Storage.ClipboardDatabase.RevokeDevice | src/clipberry/storage/__init__.py:274-280 | clears only the trusted flag and keeps the record and every item |
| Storage.ClipboardDatabase.ClearClipboardHistory | src/clipberry/storage/__init__.py:282-286 | empties the item table when connected; devices stay |
| Storage.AddedItemIsFound | src/clipberry/storage/__init__.py:97-156 | after `add_item`, a lookup by its hash finds the new item if it was admitted, the old row if the hash was taken, and nothing if only the id clashed |
| Storage.AddedDeviceIsFound | src/clipberry/storage/__init__.py:189-236 | after `add_device`, `get_device` returns that device, and a lookup of any other id is unchanged |
| Pairing.IsValidAt | src/clibpard/security/pairing.py:59-70 | the value-level definition `validate_token` returns: present and `now <= expires_at` |
| Pairing.AfterValidate | src/clibpard/security/pairing.py:59-70 | the table after `validate_token`: an expired token is deleted, all else kept |
| Pairing.AfterConsume | src/clibpard/security/pairing.py:72-80 | the table after `consume_token`: the token is deleted whether it was valid or expired |
| Pairing.ExpiredKeys | src/clibpard/security/pairing.py:95-103 | the keys the sweep deletes: `expires_at <= now` |
| Pairing.IsActiveAt | src/clibpard/security/pairing.py:82-87 | the records `get_active_tokens` lists: `expires_at > now` |
| Pairing.Step | src/clibpard/security/pairing.py:40-103 | one operation of the token manager on the table, the value-level definition the `PairingManager` methods are proved against |
| Pairing.ValidateAndConsumeFrames | src/clibpard/security/pairing.py:59-80 | consuming removes the token whatever its state; an absent token validates false and changes nothing; every other entry is untouched by both |
| Pairing.ExpiryBoundary | src/clibpard/security/pairing.py:59-103 | at `now == expires_at` a token validates, is not listed as active, and is deleted by a sweep |
| Pairing.ConsumedAtMostOnce | src/clibpard/security/pairing.py:72-80 | in any run that does not re-issue a token, consuming it succeeds at most once, and never once it is absent |
| Pairing.AbsentStaysInvalid | src/clibpard/security/pairing.py:59-80 | an absent token stays absent through any run that does not issue it, so every later validation fails |
| Pairing.PairingManager.constructor | src/clibpard/security/pairing.py:24-29 | the token table starts empty |
| Pairing.PairingManager.GenerateToken | src/clibpard/security/pairing.py:40-57 | returns the generated 8-character token and records it under that key, expiring at `now + ttl`; it validates at `now` exactly when the ttl is not negative |
| Pairing.PairingManager.ValidateToken | src/clibpard/security/pairing.py:59-70 | true exactly when the token is present and `now <= expires_at`; a token found expired is deleted |
| Pairing.PairingManager.ConsumeToken | src/clibpard/security/pairing.py:72-80 | true exactly when the token validates; the token is absent afterwards |
| Pairing.PairingManager.GetActiveTokens | src/clibpard/security/pairing.py:82-87 | lists exactly the records with `expires_at > now`, each once, and does not change the table |
| Pairing.PairingManager.SweepExpired | src/clibpard/security/pairing.py:95-103 | deletes exactly the tokens with `expires_at <= now` and keeps all others |
| Pairing.PairedDevice | src/clibpard/security/pairing.py:145-152 | the stored record carries the peer's id, name and fingerprint, is trusted, and has both sync capabilities on |
| Pairing.PairingWorkflow.constructor | src/clibpard/security/pairing.py:114-117 | binds the token manager and the ledger |
| Pairing.PairingWorkflow.InitiatePairingAsHost | src/clibpard/security/pairing.py:119-125 | issues a token with the default five-minute lifetime |
| Pairing.PairingWorkflow.CompletePairingAsHost | src/clibpard/security/pairing.py:127-159 | succeeds exactly when the token validates at `now`; only then is the peer upserted as trusted; the token is gone afterwards; items are unchanged |
| Pairing.PairingWorkflow.CompletePairingAsClient | src/clibpard/security/pairing.py:175-198 | always succeeds and upserts the peer as trusted |
| Clipboard.BlobPath | src/clibpard/clipboard/__init__.py:138 | the path is the blobs directory, a `/`, the content hash and `.png` |
| Clipboard.TextItem | src/clibpard/clipboard/__init__.py:109-118 | a text item from this device: size is the UTF-8 byte length, metadata `length` is the character count, the content is the text, and there is no blob |
| Clipboard.ImageItem | src/clibpard/clipboard/__init__.py:142-155 | an image item from this device: size is the PNG byte length, the blob path is derived from the hash, metadata holds width, height and format |
| Clipboard.SameTextSameHash | src/clibpard/clipboard/__init__.py:98-121 | two started monitors with the same hash function capture equal text as items with one content hash, each from its own device; a ledger that stores the first refuses the second |
| Clipboard.Choose | src/clibpard/clipboard/__init__.py:80-96 | text is taken only when it has a non-whitespace character; an image only when no such text is present |
| Clipboard.ClipboardMonitor.constructor | src/clibpard/clipboard/__init__.py:17-27 | blobs live under `data_dir/blobs`; no last hash, no pending ignore, not started |
| Clipboard.ClipboardMonitor.Start | src/clibpard/clipboard/__init__.py:29-42 | attaches the clipboard and the callback; nothing else changes |
| Clipboard.ClipboardMonitor.ProcessClipboard | src/clibpard/clipboard/__init__.py:71-96 | a pending ignore swallows exactly this change and is cleared. Otherwise the chosen text or image is captured unless its hash equals the last hash. A capture becomes the last hash and, for an image, saves the blob. Nothing is written to the clipboard |
| Clipboard.ClipboardMonitor.CaptureText | src/clibpard/clipboard/__init__.py:98-121 | a hash equal to the last one emits nothing and changes nothing; otherwise it becomes the last hash and exactly one text item is emitted |
| Clipboard.ClipboardMonitor.CaptureImage | src/clibpard/clipboard/__init__.py:123-158 | the same suppression; a new image also stores its PNG bytes under the blob path |
| Clipboard.ClipboardMonitor.SetClipboardText | src/clibpard/clipboard/__init__.py:160-164 | always arms the one-shot ignore; writes the text only when attached |
| Clipboard.ClipboardMonitor.SetClipboardImage | src/clibpard/clipboard/__init__.py:166-171 | always arms the one-shot ignore; writes the image only when attached |
| Clipboard.WriteBackSwallowsOneChange | src/clibpard/clipboard/__init__.py:60-107 | after `set_clipboard_text`, the first run of `_process_clipboard` is swallowed; the second run, with the written text still on the clipboard, captures it unless its hash is the last one, and the last hash was never set by the write |
| Clipboard.SameContentTwice | src/clibpard/clipboard/__init__.py:98-158 | two consecutive changes with identical content emit exactly one item when its hash differs from the last one, and none otherwise; the second change never emits, for text and image alike |
| WebSocket.ParseItemMessage | src/clibpard/networking/websocket.py:138-147 | fails exactly when a required key is missing or has another type, or `metadata` or `text_content` has a wrong type; a built item holds each key's value, `metadata` defaults to empty, text exactly when `text_content` is a string, and no blob path |
| WebSocket.IsTruthyKey | src/clibpard/networking/websocket.py:107-109 | the truth of `if peer_device_id:`: present and not the empty string |
| WebSocket.IsTruthy | src/clibpard/networking/websocket.py:150 | the truth of `data.get("blob_data")` and other field values: null, "", 0, {} and empty bytes are false |
| WebSocket.RequiredKeyBad | src/clibpard/networking/websocket.py:138-144 | the ClipboardItem construction fails: a required key is missing or not of its declared type |
| WebSocket.OptionalKeyBad | src/clibpard/networking/websocket.py:145-146 | it fails on an optional key: `metadata` is not a dict, or `text_content` is neither null nor a string |
| WebSocket.HelloMessage | src/clibpard/networking/websocket.py:74-82 | tagged HELLO, with our id as the `device_id` the peer reads; an incoming one is neither an item nor a PING |
| WebSocket.AckMessage | src/clibpard/networking/websocket.py:159-166 | tagged ACK and acknowledging exactly the given item id; an incoming one is ignored |
| WebSocket.PongMessage | src/clibpard/networking/websocket.py:127-130 | tagged PONG and acknowledging nothing; an incoming one is ignored, so PINGs start no loop |
| WebSocket.PeerIdOf | src/clibpard/networking/websocket.py:89 | the `device_id` of a HELLO, or None when it is missing or not a string |
| WebSocket.BuildItemMessage | src/clibpard/networking/websocket.py:170-188 | the envelope is tagged CLIPBOARD_ITEM, parses back to the item up to the fields that do not travel, and carries blob data exactly when the item has a blob path |
| WebSocket.AsReceived | src/clibpard/networking/websocket.py:138-147 | what a parsed item keeps of the sent one: empty text is dropped and the blob path does not travel |
| WebSocket.BlobDataDecodes | src/clibpard/networking/websocket.py:150-151 | the server's decode of a truthy `blob_data` does not raise |
| WebSocket.EnvelopeRoundTrip | src/clibpard/networking/websocket.py:138-188 | parsing a built envelope recovers id, type, hash, origin, timestamp, size and metadata exactly; text when non-empty and None otherwise; never a blob path; the blob decodes |
| WebSocket.Classify | src/clibpard/networking/websocket.py:121-130 | a frame is an item exactly when it is a CLIPBOARD_ITEM whose fields parse, a PING exactly when so tagged, and otherwise ignored |
| WebSocket.ServerItem | src/clibpard/networking/websocket.py:135-153 | the server hands on an item exactly when its fields parse and its blob data decodes |
| WebSocket.ServerDelivery | src/clibpard/networking/websocket.py:124-156 | the callback one frame causes: one delivery, naming the sender, exactly when the server hands on an item |
| WebSocket.ServerReply | src/clibpard/networking/websocket.py:124-166 | the reply one frame causes over the sender's connection: an ACK of a handed-on item, a PONG for a PING, otherwise none |
| WebSocket.ServerDeliveries | src/clibpard/networking/websocket.py:93-102 | the callbacks a server session makes, frame by frame, up to a frame that is not UTF-8; the value-level definition `HandleFrames` is proved against |
| WebSocket.ServerReplies | src/clibpard/networking/websocket.py:93-102 | the ACKs and PONGs a server session sends, over the same frames |
| WebSocket.ServerIgnoresOthers | src/clibpard/networking/websocket.py:124-133 | a session of frames that are neither items nor PINGs causes no callback and no reply |
| WebSocket.ServerAcksEachDelivery | src/clibpard/networking/websocket.py:154-166 | every callback names the session's peer; the ids the session's ACKs acknowledge are exactly the delivered items' ids, in order; replies are at least as many as callbacks and at most as many as frames |
| WebSocket.BroadcastLog | src/clibpard/networking/websocket.py:190-195 | one send per visited peer, over that peer's connection, with that peer's own outcome |
| WebSocket.BroadcastIsolation | src/clibpard/networking/websocket.py:190-195 | every peer of the snapshot gets exactly one attempt, and whether it is delivered depends on that peer's send only |
| WebSocket.WebSocketServer.constructor | src/clibpard/networking/websocket.py:34-49 | no sessions, no sends, no deliveries |
| WebSocket.WebSocketServer.Accept | src/clibpard/networking/websocket.py:68-90 | registers the connection exactly when our HELLO went out and the first frame is a HELLO, under that frame's `device_id`, replacing an older entry |
| WebSocket.WebSocketServer.HandleMessage | src/clibpard/networking/websocket.py:111-166 | an item is delivered once with the sender's key and then ACKed with its id over the table's entry for the sender; a PING gets a PONG the same way; anything else changes nothing; the table never changes |
| WebSocket.WebSocketServer.ConnectionClosed | src/clibpard/networking/websocket.py:107-109 | removes the key exactly when it is truthy |
| WebSocket.WebSocketServer.HandleFrame | src/clibpard/networking/websocket.py:94-102 | an empty frame causes nothing; any other has the effects of `_handle_message` |
| WebSocket.WebSocketServer.HandleFrames | src/clibpard/networking/websocket.py:93-102 | processes the frames in order, skipping empty ones, until one is not UTF-8 |
| WebSocket.WebSocketServer.HandleConnection | src/clibpard/networking/websocket.py:68-109 | a whole session: after it, a truthy peer id has no entry; the callbacks and replies are those of its frames; an unregistered connection leaves everything unchanged |
| WebSocket.WebSocketServer.BroadcastItem | src/clibpard/networking/websocket.py:168-195 | visits every peer of the snapshot exactly once, logging one send of the envelope each; the table is unchanged |
| WebSocket.SupersededSessionClosed | src/clibpard/networking/websocket.py:85-109 | after a second HELLO with the same id, closing the first session removes the entry |
| WebSocket.ClientDeliveries | src/clibpard/networking/websocket.py:253-286 | the callbacks a client session makes, up to the frame that ends its loop; the value-level definition `HandleMessages` is proved against |
| WebSocket.ClientReplies | src/clibpard/networking/websocket.py:253-286 | the PONGs a client session sends, over the same frames |
| WebSocket.ClientSendsNoAck | src/clibpard/networking/websocket.py:253-286 | the client's only replies are PONGs: items are never acknowledged |
| WebSocket.WebSocketClient.constructor | src/clibpard/networking/websocket.py:201-213 | no sessions, no sends, no deliveries |
| WebSocket.WebSocketClient.ConnectToDevice | src/clibpard/networking/websocket.py:215-251 | returns the peer id and registers the connection exactly when the dial works, the first frame is a HELLO, and our HELLO goes out; otherwise None and the table is unchanged |
| WebSocket.WebSocketClient.HandleMessage | src/clibpard/networking/websocket.py:256-286 | an item is delivered without reply; a PING is answered on the session's own connection; a non-JSON frame, an unparsable item or a failed PONG ends the loop |
| WebSocket.WebSocketClient.MessagesEnded | src/clibpard/networking/websocket.py:269-270 | removes the key, truthy or not |
| WebSocket.WebSocketClient.HandleMessages | src/clibpard/networking/websocket.py:253-270 | a whole session: its deliveries and PONGs up to the frame that ends the loop, then the key is removed |
| WebSocket.WebSocketClient.SendItem | src/clibpard/networking/websocket.py:288-312 | nothing for an unregistered id; otherwise one send of the envelope over that peer's connection |
| WebSocket.WebSocketClient.IsConnected | src/clibpard/networking/websocket.py:314-316 | the id has a session in the table; false after `Disconnect` |
| WebSocket.WebSocketClient.Disconnect | src/clibpard/networking/websocket.py:318-322 | the id is no longer connected; every other entry is kept |
| Core.DefaultConfig | src/clibpard/utils/config.py:26-29 | sync, text and images are on, and the size limit is 10 MB |
| Core.TypeAllowed | src/clibpard/core/__init__.py:143-146 | text passes only with sync_text on, an image only with sync_images on, any other type always |
| Core.CaptureGatesPass | src/clibpard/core/__init__.py:132-146 | sync is on, the size is within the limit, and the type filter passes |
| Core.SenderTrusted | src/clibpard/core/__init__.py:169-172 | the sender's record exists and is trusted |
| Core.ReceiveGatesPass | src/clibpard/core/__init__.py:163-178 | sync is on, the sender is trusted and the type filter passes; there is no size gate |
| Core.WriteBackOf | src/clibpard/core/__init__.py:195-198 | text is written back exactly for a text item with non-empty text; an image exactly for an image item with a blob path |
| Core.WriteBackAfterTransfer | src/clibpard/core/__init__.py:193-198 | once received and stored, a text item with non-empty text is written back as that text; an item of any other type is not |
| Core.ReceivedImagesNeverWritten | src/clibpard/core/__init__.py:197-198 | no item parsed from the wire is written back as an image |
| Core.ClipboardSyncService.constructor | src/clibpard/core/__init__.py:19-50 | the sync flag starts from the configuration; the ledger opens over the persisted rows, disconnected; no server or client yet |
| Core.ClipboardSyncService.Start | src/clibpard/core/__init__.py:52-104 | a first start connects the ledger, attaches the monitor, and creates an empty server and client; a second start changes nothing |
| Core.ClipboardSyncService.OnClipboardCaptured | src/clibpard/core/__init__.py:132-158 | an item failing the sync, size or type gate changes nothing. A passing item is offered to the ledger. It is broadcast to every peer exactly when it was newly stored and a server exists |
| Core.ClipboardSyncService.OnItemReceived | src/clibpard/core/__init__.py:163-198 | stored only when sync is on, the sender is trusted, the type filter passes and the ledger admits it, with no size gate. Only a stored item refreshes the sender's last-seen time and writes text or an image back, arming the one-shot ignore. Nothing is broadcast |
| Core.ClipboardSyncService.ConnectToDevice | src/clibpard/core/__init__.py:216-220 | None before start; otherwise the client's handshake |
| Core.ClipboardSyncService.RevokeDevice | src/clibpard/core/__init__.py:226-232 | the record loses trust and is kept; the connection state and items are unchanged; the client session to that id is closed; server sessions stay |
| Core.ClipboardSyncService.IsSyncEnabled | src/clibpard/core/__init__.py:240-242 | the service's sync flag; after `ToggleSync(enabled)` it is `enabled` |
| Core.ClipboardSyncService.ToggleSync | src/clibpard/core/__init__.py:234-242 | the service flag, `is_sync_enabled` and the configuration all take the new value |
| Core.ClipboardSyncService.ClipboardChanged | src/clibpard/core/__init__.py:132-158 | a pending ignore swallows the change; otherwise the chosen text or image is captured unless its hash is the last one. A captured item becomes the last hash and is stored and broadcast exactly as the capture gates and the ledger decide; an uncaptured change stores and broadcasts nothing |
| Core.ProcessText | src/clibpard/clipboard/__init__.py:71-121 | a run that finds `text` captures it exactly when it is non-blank and not the last hash; the ledger refuses it when its hash is stored, and otherwise stores and broadcasts it past the gates |
| Core.ProcessWriteBack | src/clibpard/clipboard/__init__.py:60-75 | of the two runs after a write-back, the first is swallowed and the second behaves as a fresh run on the written text |
| Core.WriteBackThenPoll | src/clibpard/core/__init__.py:132-198 | a peer's text is stored exactly when the receive gates and the ledger admit it; the poll after the write-back re-captures it unless it is the last hash; nothing is stored or broadcast again when the local hash equals the peer's, and the text is stored again and broadcast to every peer when the hashes differ and the capture passes the gates |

## Left out

- Floating-point timestamps are modelled as integers. The item model's `timestamp` and the device times are floats, and `timedelta` arithmetic is on datetimes. Only their order and additions matter here.
- SHA-256, base64, JSON text, UUIDs and `secrets.choice` are not computed. They are a hash parameter, raw bytes in `FBytes`, parsed dictionaries, an id parameter and the `draws` function.
- The `created_at` column and the SQL schema text are not modelled. The tables are maps with the UNIQUE and PRIMARY KEY rules written out.
- A call on a disconnected ledger returns false, None or an empty list and changes nothing. The source does that explicitly (for example src/clipberry/storage/__init__.py:102-103). An aiosqlite error on a connected store is not modelled.
- Ordering.SortedRows: rows with equal sort keys come in an unspecified order, where SQLite's order is unspecified too.
- Pairing.PairingManager.GetActiveTokens: lists the active records in an unspecified order rather than dict insertion order.
- asyncio is read as sequential steps. Tasks, cancellation, the 60-second sleep and interleavings of several sessions are not modelled. Each handler call or sweep iteration is one step.
- `PairingManager.start`/`stop` are not modelled. They start and cancel the sweep task, which is modelled as `SweepExpired`.
- `initiate_pairing_as_client` is not modelled. It returns `(True, None)` without touching any state.
- Qt is not modelled. Signals, the poll timer, `ClipboardMonitor.stop` and the QImage conversion are outside the model. The clipboard's content is an input, and writes are a log.
- Blob files are abstracted. An image write-back is logged by path only, and a read for sending is the `blob` parameter. A missing file is not modelled.
- PyText.Utf8Encode and Clipboard.ClipboardMonitor.CaptureText: a Python `str` may hold a lone surrogate, on which `text.encode("utf-8")` raises UnicodeEncodeError inside `_capture_text`. A Dafny `char` is a Unicode scalar value, so that error path is not modelled.
- WebSocket.ParseItemMessage: fields are taken as strictly typed. Pydantic's lax coercions are not modelled, so a numeric string for `size` is rejected here.
- WebSocket.BlobDataDecodes: valid base64 is `FBytes`, and any other truthy value counts as failing to decode. The lenient decoder's handling of stray characters is not modelled.
- WebSocket.PeerIdOf: a non-string `device_id` is read as absent. In the source, an integer id such as 5 registers the session under 5 and, being truthy, pops it on close; here the session is registered under None and never popped. An unhashable id such as a list makes the source's table assignment raise. Only strings are modelled because every device id the program sends is a UUID string.
- WebSocket.WebSocketServer.BroadcastItem: the snapshot is visited in an unspecified order, while the source iterates the table in insertion order. Each peer gets its own connection and exactly one attempt, so the order across connections is not observed by any one peer.
- WebSocket.WebSocketClient.SendItem: a failed send is logged with its outcome, while the source's final `send` raises to the caller. No caller in the core uses `send_item`, so nothing downstream depends on the exception.
- Storage.ClipboardDatabase.constructor: the persisted rows are parameters that must already satisfy the table keys. Reading and writing the file itself is not modelled.
- `Device.capabilities` is a map to booleans, and `MetaValue` holds integers, strings and booleans only. The source allows any JSON value in both, including floats, lists and null; only the sync capabilities and the item metadata the monitor writes are modelled.
- Core.WriteBackThenPoll: the two runs of `_process_clipboard` after a write-back are modelled as the signal's run followed by the poll's; other clipboard changes in between are not modelled.
- The websocket `close()` call inside `disconnect` is assumed to return. TLS contexts, `start`/`stop` of the server, and the socket itself are not modelled.
- The callback is modelled as a delivery log, and assumed not to raise. When it raises in the source, the server sends no ACK.
- The service's `get_recent_items`, `get_devices` and `generate_pairing_token` are not modelled separately. They pass their call straight through to `ClipboardDatabase.GetRecentItems`, `ClipboardDatabase.GetAllDevices` and `PairingManager.GenerateToken`.
- Core.ClipboardSyncService.Start: the security manager, discovery and the pairing manager's task are not started. `stop` is not modelled either. Certificates, mDNS and the task are I/O.
- `SecurityManager`, discovery, the UI, `main.py` and config file I/O are not part of this model. Only the configuration defaults are taken.
- `format_size`, `format_timestamp`, `utc_now` and `generate_device_id` are not modelled. They are formatting, the clock and UUIDs.
