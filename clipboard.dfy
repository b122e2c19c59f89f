/**
 * The capture side of src/clibpard/clipboard/__init__.py and its one-shot
 * guard against re-capturing a write-back. The Qt clipboard is replaced by its observable effects: what the clipboard holds
 * when it is polled is an input, and what the monitor writes to it is a log.
 * The item id (a fresh UUID) and the clock are inputs too.
 */
module Clipboard {
  import opened Wrappers
  import opened Utils
  import PyText
  import Storage

  /** A non-null clipboard image with its PNG encoding (`image.save(buffer, "PNG")`). */
  datatype ImageData = ImageData(png: seq<byte>, width: int, height: int)

  /** The clipboard's `mimeData()`: text if `hasText()`, an image if `hasImage()` and it is not null. */
  datatype MimeData = MimeData(text: Option<string>, image: Option<ImageData>)

  /** One `setText` / `setImage` on the system clipboard. */
  datatype ClipboardWrite = WriteText(text: string) | WriteImage(path: string)

  /** Where a captured image is saved: `blobs_dir / f"{content_hash}.png"`. */
  function BlobPath(blobsDir: string, contentHash: string): (p: string)
    ensures |p| == |blobsDir| + |contentHash| + 5
    ensures p[..|blobsDir|] == blobsDir && p[|blobsDir|] == '/'
    ensures p[|blobsDir| + 1..|blobsDir| + 1 + |contentHash|] == contentHash
    ensures p[|p| - 4..] == ".png"
  {
    blobsDir + "/" + contentHash + ".png"
  }

  /** The item `_capture_text` emits for `text`, hashed as `contentHash`. */
  function TextItem(deviceId: string, text: string, contentHash: string, id: string, now: int): (item: Storage.ClipboardItem)
    ensures item.itemType == Storage.TextType && item.originDeviceId == deviceId && item.contentHash == contentHash
    ensures item.size == |PyText.Utf8Encode(text)| && |text| <= item.size <= 4 * |text|
    ensures item.metadata == map["length" := Storage.MetaInt(|text|)]
    ensures item.textContent == Some(text) && item.blobPath.None?
  {
    PyText.Utf8LengthBounds(text);
    Storage.ClipboardItem(id, Storage.TextType, contentHash, deviceId, now, |PyText.Utf8Encode(text)|,
                          map["length" := Storage.MetaInt(|text|)], Some(text), None)
  }

  /** The item `_capture_image` emits for `image`, saved under its hash. */
  function ImageItem(deviceId: string, blobsDir: string, image: ImageData, contentHash: string, id: string, now: int)
    : (item: Storage.ClipboardItem)
    ensures item.itemType == Storage.ImageType && item.originDeviceId == deviceId && item.contentHash == contentHash
    ensures item.size == |image.png| && item.textContent.None?
    ensures item.blobPath == Some(BlobPath(blobsDir, contentHash))
    ensures item.metadata == map["width" := Storage.MetaInt(image.width), "height" := Storage.MetaInt(image.height),
                                 "format" := Storage.MetaStr("PNG")]
  {
    Storage.ClipboardItem(id, Storage.ImageType, contentHash, deviceId, now, |image.png|,
                          map["width" := Storage.MetaInt(image.width), "height" := Storage.MetaInt(image.height),
                              "format" := Storage.MetaStr("PNG")],
                          None, Some(BlobPath(blobsDir, contentHash)))
  }

  /** Which of text and image `_process_clipboard` takes from `content`, if either. */
  datatype Choice = TakeText(text: string) | TakeImage(image: ImageData) | TakeNothing

  /** Text first, and only if it has a non-blank character; otherwise a non-null image. */
  function Choose(content: Option<MimeData>): (c: Choice)
    ensures c.TakeText? ==> content.Some? && content.value.text == Some(c.text) && PyText.HasNonBlank(c.text)
    ensures c.TakeImage? ==> content.Some? && content.value.image == Some(c.image)
                             && !(content.value.text.Some? && PyText.HasNonBlank(content.value.text.value))
    ensures c.TakeNothing? <==> content.None? || (!(content.value.text.Some? && PyText.HasNonBlank(content.value.text.value))
                                                 && content.value.image.None?)
  {
    match content
    case None => TakeNothing
    case Some(mime) =>
      if mime.text.Some? && PyText.Strip(mime.text.value) != [] then TakeText(mime.text.value)
      else if mime.image.Some? then TakeImage(mime.image.value)
      else TakeNothing
  }

  class ClipboardMonitor {
    const deviceId: string
    /** `data_dir / "blobs"`. */
    const blobsDir: string
    /** compute_content_hash. */
    const contentHashOf: Hasher
    /** `start()` has attached the clipboard and the capture callback. */
    var started: bool
    var lastHash: Option<string>
    var ignoreNext: bool
    /** What the monitor has written to the system clipboard, oldest first. */
    var writes: seq<ClipboardWrite>
    /** Blob files written, by path. */
    var blobs: map<string, seq<byte>>

    constructor (deviceId: string, dataDir: string, contentHashOf: Hasher)
      ensures this.deviceId == deviceId && blobsDir == dataDir + "/blobs" && this.contentHashOf == contentHashOf
      ensures !started && lastHash.None? && !ignoreNext && writes == [] && blobs == map[]
    {
      this.deviceId := deviceId;
      blobsDir := dataDir + "/blobs";
      this.contentHashOf := contentHashOf;
      started := false;
      lastHash := None;
      ignoreNext := false;
      writes := [];
      blobs := map[];
    }

    /** start(): the clipboard and callback are attached. */
    method Start()
      modifies this
      ensures started && lastHash == old(lastHash) && ignoreNext == old(ignoreNext)
      ensures writes == old(writes) && blobs == old(blobs)
    {
      started := true;
    }

    /**
     * _process_clipboard: a pending `ignoreNext` swallows this one change and
     * is cleared; otherwise usable text is captured, else a non-null image.
     * The returned item is what the callback receives.
     */
    method ProcessClipboard(content: Option<MimeData>, id: string, now: int) returns (captured: Option<Storage.ClipboardItem>)
      modifies this
      ensures writes == old(writes) && started == old(started)
      ensures old(ignoreNext) ==> captured.None? && !ignoreNext && lastHash == old(lastHash) && blobs == old(blobs)
      ensures !old(ignoreNext) ==> !ignoreNext
      ensures captured.Some? ==> !old(ignoreNext) && started && Some(captured.value.contentHash) != old(lastHash)
      ensures captured.Some? ==> lastHash == Some(captured.value.contentHash)
      ensures !old(ignoreNext) && (!started || Choose(content).TakeNothing?) ==>
                captured.None? && lastHash == old(lastHash) && blobs == old(blobs)
      ensures !old(ignoreNext) && started && Choose(content).TakeText? ==>
                var h := contentHashOf(PyText.Utf8Encode(Choose(content).text));
                && lastHash == Some(h) && blobs == old(blobs)
                && captured == (if Some(h) == old(lastHash) then None else Some(TextItem(deviceId, Choose(content).text, h, id, now)))
      ensures !old(ignoreNext) && started && Choose(content).TakeImage? ==>
                var h := contentHashOf(Choose(content).image.png);
                && lastHash == Some(h)
                && blobs == (if Some(h) == old(lastHash) then old(blobs) else old(blobs)[BlobPath(blobsDir, h) := Choose(content).image.png])
                && captured == (if Some(h) == old(lastHash) then None else Some(ImageItem(deviceId, blobsDir, Choose(content).image, h, id, now)))
    {
      if ignoreNext {
        ignoreNext := false;
        return None;
      }
      if !started {
        return None;
      }
      if content.None? {
        return None;
      }
      var mime := content.value;
      if mime.text.Some? {
        var text := mime.text.value;
        if PyText.Strip(text) != [] {
          captured := CaptureText(text, id, now);
          return;
        }
      }
      if mime.image.Some? {
        captured := CaptureImage(mime.image.value, id, now);
        return;
      }
      return None;
    }

    /** _capture_text: a hash equal to the last one is dropped; otherwise it becomes the last one. */
    method CaptureText(text: string, id: string, now: int) returns (captured: Option<Storage.ClipboardItem>)
      modifies this
      ensures writes == old(writes) && started == old(started) && ignoreNext == old(ignoreNext) && blobs == old(blobs)
      ensures var h := contentHashOf(PyText.Utf8Encode(text));
              && (Some(h) == old(lastHash) ==> captured.None? && lastHash == old(lastHash))
              && (Some(h) != old(lastHash) ==>
                    lastHash == Some(h) && captured == (if started then Some(TextItem(deviceId, text, h, id, now)) else None))
    {
      var content := PyText.Utf8Encode(text);
      var h := contentHashOf(content);
      if Some(h) == lastHash {
        return None;
      }
      lastHash := Some(h);
      var item := TextItem(deviceId, text, h, id, now);
      captured := if started then Some(item) else None;
    }

    /** _capture_image: the same suppression, and the PNG bytes are saved under the hash. */
    method CaptureImage(image: ImageData, id: string, now: int) returns (captured: Option<Storage.ClipboardItem>)
      modifies this
      ensures writes == old(writes) && started == old(started) && ignoreNext == old(ignoreNext)
      ensures var h := contentHashOf(image.png);
              && (Some(h) == old(lastHash) ==> captured.None? && lastHash == old(lastHash) && blobs == old(blobs))
              && (Some(h) != old(lastHash) ==>
                    && lastHash == Some(h)
                    && blobs == old(blobs)[BlobPath(blobsDir, h) := image.png]
                    && captured == (if started then Some(ImageItem(deviceId, blobsDir, image, h, id, now)) else None))
    {
      var h := contentHashOf(image.png);
      if Some(h) == lastHash {
        return None;
      }
      lastHash := Some(h);
      var path := BlobPath(blobsDir, h);
      blobs := blobs[path := image.png];
      var item := ImageItem(deviceId, blobsDir, image, h, id, now);
      captured := if started then Some(item) else None;
    }

    /** set_clipboard_text: always arms `ignoreNext`, writes only when attached. */
    method SetClipboardText(text: string)
      modifies this
      ensures ignoreNext && started == old(started) && lastHash == old(lastHash) && blobs == old(blobs)
      ensures writes == if started then old(writes) + [WriteText(text)] else old(writes)
    {
      ignoreNext := true;
      if started {
        writes := writes + [WriteText(text)];
      }
    }

    /** set_clipboard_image: the same for an image file. */
    method SetClipboardImage(imagePath: string)
      modifies this
      ensures ignoreNext && started == old(started) && lastHash == old(lastHash) && blobs == old(blobs)
      ensures writes == if started then old(writes) + [WriteImage(imagePath)] else old(writes)
    {
      ignoreNext := true;
      if started {
        writes := writes + [WriteImage(imagePath)];
      }
    }
  }

  /**
   * A write-back swallows one change only. Both the `dataChanged` signal and
   * the one-second poll run `_process_clipboard`; the flag armed by
   * `set_clipboard_text` absorbs the first of these runs, and the next run
   * sees the written text as new content, unless it is the last hash
   * captured. `set_clipboard_text` leaves the last hash alone.
   */
  method WriteBackSwallowsOneChange(m: ClipboardMonitor, text: string, id1: string, id2: string, t1: int, t2: int)
    returns (first: Option<Storage.ClipboardItem>, second: Option<Storage.ClipboardItem>)
    requires m.started && PyText.HasNonBlank(text)
    modifies m
    ensures first.None?
    ensures !m.ignoreNext
    ensures var h := m.contentHashOf(PyText.Utf8Encode(text));
            second == if Some(h) == old(m.lastHash) then None else Some(TextItem(m.deviceId, text, h, id2, t2))
  {
    m.SetClipboardText(text);
    first := m.ProcessClipboard(Some(MimeData(Some(text), None)), id1, t1);
    second := m.ProcessClipboard(Some(MimeData(Some(text), None)), id2, t2);
  }

  /**
   * Equal text captured on two devices whose monitors hash alike gives two
   * items with one content hash, so the ledger that stores the first refuses
   * the second.
   */
  method SameTextSameHash(m1: ClipboardMonitor, m2: ClipboardMonitor, db: Storage.ClipboardDatabase, text: string,
                          id1: string, id2: string, t1: int, t2: int)
    returns (c1: Option<Storage.ClipboardItem>, c2: Option<Storage.ClipboardItem>, added1: bool, added2: bool)
    requires m1 != m2 && m1.started && m2.started && !m1.ignoreNext && !m2.ignoreNext
    requires m1.contentHashOf == m2.contentHashOf && PyText.HasNonBlank(text)
    requires db.Valid() && db.connected
    modifies m1, m2, db
    ensures var h := m1.contentHashOf(PyText.Utf8Encode(text));
            && (c1.Some? <==> Some(h) != old(m1.lastHash)) && (c2.Some? <==> Some(h) != old(m2.lastHash))
            && (c1.Some? ==> c1.value.contentHash == h && c1.value.originDeviceId == m1.deviceId)
            && (c2.Some? ==> c2.value.contentHash == h && c2.value.originDeviceId == m2.deviceId)
    ensures c1.Some? && c2.Some? ==> && c1.value.contentHash == c2.value.contentHash
                                     && (added1 <==> Storage.Admits(old(db.items), c1.value))
                                     && (added1 ==> !added2)
    ensures db.Valid() && db.devices == old(db.devices)
  {
    c1 := m1.ProcessClipboard(Some(MimeData(Some(text), None)), id1, t1);
    c2 := m2.ProcessClipboard(Some(MimeData(Some(text), None)), id2, t2);
    added1, added2 := false, false;
    if c1.Some? && c2.Some? {
      added1 := db.AddItem(c1.value);
      added2 := db.AddItem(c2.value);
    }
  }

  /**
   * Two consecutive captures of the same content give one callback: the
   * first run captures it exactly when its hash differs from the last one,
   * and the second run never does.
   */
  method SameContentTwice(m: ClipboardMonitor, content: MimeData, id1: string, id2: string, t1: int, t2: int)
    returns (first: Option<Storage.ClipboardItem>, second: Option<Storage.ClipboardItem>)
    requires m.started && !m.ignoreNext
    modifies m
    ensures second.None?
    ensures Choose(Some(content)).TakeText? ==>
              (first.Some? <==> old(m.lastHash) != Some(m.contentHashOf(PyText.Utf8Encode(Choose(Some(content)).text))))
    ensures Choose(Some(content)).TakeImage? ==>
              (first.Some? <==> old(m.lastHash) != Some(m.contentHashOf(Choose(Some(content)).image.png)))
    ensures Choose(Some(content)).TakeNothing? ==> first.None?
  {
    first := m.ProcessClipboard(Some(content), id1, t1);
    second := m.ProcessClipboard(Some(content), id2, t2);
  }
}
