/**
 * The attachment list of the report form (`ImageUploadComponent`,
 * app/createTask.tsx): its entries, how picked assets become entries, and the
 * list updates applied when an upload completes or an entry is deleted.
 */
module Attachments {
  import opened Js

  /** `ImageData`: one entry of the attachment list. */
  datatype ImageData = ImageData(
    id: string, uri: string, name: string, mimeType: string, size: int,
    uploading: bool, uploaded: bool, error: Option<string>,
    minioPath: Option<string>, minioFileName: Option<string>)

  /**
   * A picked asset, with the size `FileSystem.getInfoAsync` reported for it
   * (`None` when the file does not exist or no size was given).
   */
  datatype Asset = Asset(uri: string, fileName: Option<string>, assetType: Option<string>, fileSize: Option<int>)

  predicate DistinctIds(images: seq<ImageData>) {
    forall i, j :: 0 <= i < j < |images| ==> images[i].id != images[j].id
  }

  predicate HasId(images: seq<ImageData>, id: string) {
    exists i :: 0 <= i < |images| && images[i].id == id
  }

  /** The `uploading` flag is never raised anywhere in the list. */
  predicate NoneUploading(images: seq<ImageData>) {
    forall i :: 0 <= i < |images| ==> !images[i].uploading
  }

  // ---------------------------------------------------------------------------
  // MIME type detection (`getProperMimeType`)

  /** `fileName.toLowerCase().split(".").pop()`. */
  function Extension(fileName: string): string {
    Last(Split(Lower(fileName), '.'))
  }

  function MimeType(fileName: string, assetType: Option<string>): (r: string)
    ensures "image/" <= r
  {
    var ext := Extension(fileName);
    if ext == "jpg" || ext == "jpeg" then "image/jpeg"
    else if ext == "png" then "image/png"
    else if ext == "gif" then "image/gif"
    else if ext == "webp" then "image/webp"
    else if assetType.Some? && "image/" <= assetType.value then assetType.value
    else "image/jpeg"
  }

  /** The extension is the lowercased text after the last dot, whatever precedes it. */
  lemma ExtensionAfterLastDot(base: string, ext: string)
    requires '.' !in ext
    ensures Extension(base + "." + ext) == Lower(ext)
  {
    LowerAppend(base + ".", ext);
    LowerAppend(base, ".");
    assert Lower(".") == ".";
    assert '.' !in Lower(ext) by {
      forall i | 0 <= i < |ext| ensures Lower(ext)[i] != '.' {
        assert ext[i] != '.';
      }
    }
    SplitAppendPart(Lower(base), '.', Lower(ext));
    assert Lower(base) + "." + Lower(ext) == Lower(base) + ['.'] + Lower(ext);
  }

  /**
   * The type is decided by the text after the last dot, in any case, whatever
   * the base name holds; outside the table the picker's type is used when it
   * is an image type.
   */
  lemma MimeByExtension(base: string, ext: string, assetType: Option<string>)
    requires '.' !in ext
    ensures Lower(ext) == "jpg" || Lower(ext) == "jpeg" ==> MimeType(base + "." + ext, assetType) == "image/jpeg"
    ensures Lower(ext) == "png" ==> MimeType(base + "." + ext, assetType) == "image/png"
    ensures Lower(ext) == "gif" ==> MimeType(base + "." + ext, assetType) == "image/gif"
    ensures Lower(ext) == "webp" ==> MimeType(base + "." + ext, assetType) == "image/webp"
    ensures Lower(ext) !in ["jpg", "jpeg", "png", "gif", "webp"] ==>
              MimeType(base + "." + ext, assetType)
                == if assetType.Some? && "image/" <= assetType.value then assetType.value else "image/jpeg"
  {
    ExtensionAfterLastDot(base, ext);
  }

  lemma UpperCaseExtension(base: string)
    ensures MimeType(base + ".JPG", None) == "image/jpeg"
    ensures MimeType(base + ".Png", None) == "image/png"
  {
    assert Lower("JPG") == "jpg" && Lower("Png") == "png";
    assert base + ".JPG" == base + "." + "JPG" && base + ".Png" == base + "." + "Png";
    MimeByExtension(base, "JPG", None);
    MimeByExtension(base, "Png", None);
  }

  // ---------------------------------------------------------------------------
  // New entries

  predicate Oversized(asset: Asset, maxSize: int) {
    asset.fileSize.Some? && asset.fileSize.value > maxSize
  }

  /** The name an asset is listed under; generated from the id when the picker gave none. */
  function EntryName(asset: Asset, id: string): string {
    OrDefault(asset.fileName, "image_" + id + ".jpg")
  }

  /** The entry a picked asset becomes: fresh, not uploaded, unknown size recorded as 0. */
  function NewEntry(asset: Asset, id: string): (e: ImageData)
    ensures e.id == id && e.uri == asset.uri && e.name == EntryName(asset, id)
    ensures !e.uploading && !e.uploaded && e.error.None? && e.minioPath.None? && e.minioFileName.None?
    ensures "image/" <= e.mimeType
    ensures e.size == if asset.fileSize.Some? then asset.fileSize.value else 0
  {
    var name := EntryName(asset, id);
    ImageData(id, asset.uri, name, MimeType(name, asset.assetType),
              if asset.fileSize.Some? then asset.fileSize.value else 0,
              false, false, None, None, None)
  }

  /** An asset without a file name is always sent as JPEG. */
  lemma UnnamedAssetIsJpeg(asset: Asset, id: string)
    requires asset.fileName.None? || asset.fileName == Some("")
    ensures NewEntry(asset, id).mimeType == "image/jpeg"
  {
    assert "image_" + id + ".jpg" == ("image_" + id) + "." + "jpg";
    ExtensionAfterLastDot("image_" + id, "jpg");
  }

  // ---------------------------------------------------------------------------
  // Adding one image (camera)

  datatype AddOutcome = LimitReached | TooLarge | Added(entry: ImageData)

  /** `handleImageSelected`: the capacity check comes first, then the size check. */
  function DecideSingle(count: int, maxImages: int, maxSize: int, asset: Asset, id: string): (o: AddOutcome)
    ensures o == LimitReached <==> count >= maxImages
    ensures o == TooLarge <==> count < maxImages && Oversized(asset, maxSize)
    ensures o.Added? ==> o.entry == NewEntry(asset, id)
  {
    if count >= maxImages then LimitReached
    else if Oversized(asset, maxSize) then TooLarge
    else Added(NewEntry(asset, id))
  }

  // ---------------------------------------------------------------------------
  // Adding a gallery batch

  /** The entries accepted from a batch and the names of the files rejected as too large. */
  datatype BatchScan = BatchScan(accepted: seq<ImageData>, oversized: seq<string>)

  /** The name an oversized asset is reported under. */
  function RejectedName(asset: Asset): string {
    OrDefault(asset.fileName, "Unknown file")
  }

  /**
   * The scan of `handleMultipleImagesSelected` with `slots` places left: it
   * stops once no place is left, skips (and names) oversized assets, and
   * accepts the others in selection order, `ids[i]` being the id drawn for
   * `assets[i]`.
   */
  function ScanBatch(assets: seq<Asset>, ids: seq<string>, slots: int, maxSize: int): BatchScan
    requires |ids| == |assets|
    decreases |assets|
  {
    if assets == [] || slots <= 0 then BatchScan([], [])
    else if Oversized(assets[0], maxSize) then
      var rest := ScanBatch(assets[1..], ids[1..], slots, maxSize);
      BatchScan(rest.accepted, [RejectedName(assets[0])] + rest.oversized)
    else
      var rest := ScanBatch(assets[1..], ids[1..], slots - 1, maxSize);
      BatchScan([NewEntry(assets[0], ids[0])] + rest.accepted, rest.oversized)
  }

  /**
   * The scan never accepts more files than places are left, looks at each
   * file at most once, and yields entries that are not uploading.
   */
  lemma {:induction false} ScanBatchBounds(assets: seq<Asset>, ids: seq<string>, slots: int, maxSize: int)
    requires |ids| == |assets|
    ensures var b := ScanBatch(assets, ids, slots, maxSize);
            |b.accepted| <= (if slots < 0 then 0 else slots) && |b.accepted| + |b.oversized| <= |assets|
            && NoneUploading(b.accepted)
    decreases |assets|
  {
    if assets != [] && slots > 0 {
      if Oversized(assets[0], maxSize) {
        ScanBatchBounds(assets[1..], ids[1..], slots, maxSize);
      } else {
        ScanBatchBounds(assets[1..], ids[1..], slots - 1, maxSize);
        var rest := ScanBatch(assets[1..], ids[1..], slots - 1, maxSize);
        var accepted := [NewEntry(assets[0], ids[0])] + rest.accepted;
        assert forall k :: 1 <= k < |accepted| ==> accepted[k] == rest.accepted[k - 1];
      }
    }
  }

  /** One step of the scan, from position `i`. */
  lemma ScanStep(assets: seq<Asset>, ids: seq<string>, i: int, slots: int, maxSize: int)
    requires |ids| == |assets| && 0 <= i < |assets| && slots > 0
    ensures var here := ScanBatch(assets[i..], ids[i..], slots, maxSize);
            if Oversized(assets[i], maxSize) then
              var rest := ScanBatch(assets[i + 1..], ids[i + 1..], slots, maxSize);
              here == BatchScan(rest.accepted, [RejectedName(assets[i])] + rest.oversized)
            else
              var rest := ScanBatch(assets[i + 1..], ids[i + 1..], slots - 1, maxSize);
              here == BatchScan([NewEntry(assets[i], ids[i])] + rest.accepted, rest.oversized)
  {
    assert assets[i..][1..] == assets[i + 1..] && ids[i..][1..] == ids[i + 1..];
  }

  /**
   * The loop of `handleMultipleImagesSelected`: `break` once the list would be
   * full, `continue` past an oversized file.
   */
  method SelectBatch(existing: nat, maxImages: int, maxSize: int, assets: seq<Asset>, ids: seq<string>)
    returns (validImages: seq<ImageData>, oversizedImages: seq<string>)
    requires |ids| == |assets|
    ensures BatchScan(validImages, oversizedImages) == ScanBatch(assets, ids, maxImages - existing, maxSize)
  {
    ghost var whole := ScanBatch(assets, ids, maxImages - existing, maxSize);
    ghost var left := maxImages - existing;
    validImages, oversizedImages := [], [];
    var i := 0;
    while i < |assets|
      invariant 0 <= i <= |assets|
      invariant left == maxImages - existing - |validImages|
      invariant whole.accepted == validImages + ScanBatch(assets[i..], ids[i..], left, maxSize).accepted
      invariant whole.oversized == oversizedImages + ScanBatch(assets[i..], ids[i..], left, maxSize).oversized
    {
      if existing + |validImages| >= maxImages {
        break;
      }
      var asset := assets[i];
      ScanStep(assets, ids, i, left, maxSize);
      if Oversized(asset, maxSize) {
        ghost var rest := ScanBatch(assets[i + 1..], ids[i + 1..], left, maxSize);
        assert whole.oversized == (oversizedImages + [RejectedName(asset)]) + rest.oversized;
        oversizedImages := oversizedImages + [RejectedName(asset)];
        i := i + 1;
        continue;
      }
      ghost var rest := ScanBatch(assets[i + 1..], ids[i + 1..], left - 1, maxSize);
      assert whole.accepted == (validImages + [NewEntry(asset, ids[i])]) + rest.accepted;
      validImages := validImages + [NewEntry(asset, ids[i])];
      left := left - 1;
      i := i + 1;
    }
  }

  /** The entries of every asset that is not oversized, in selection order. */
  function AcceptAll(assets: seq<Asset>, ids: seq<string>, maxSize: int): seq<ImageData>
    requires |ids| == |assets|
  {
    if assets == [] then []
    else if Oversized(assets[0], maxSize) then AcceptAll(assets[1..], ids[1..], maxSize)
    else [NewEntry(assets[0], ids[0])] + AcceptAll(assets[1..], ids[1..], maxSize)
  }

  /** The names of every oversized asset, in selection order. */
  function AllOversized(assets: seq<Asset>, maxSize: int): seq<string> {
    if assets == [] then []
    else if Oversized(assets[0], maxSize) then [RejectedName(assets[0])] + AllOversized(assets[1..], maxSize)
    else AllOversized(assets[1..], maxSize)
  }

  /**
   * Partial acceptance: when the batch fits, every acceptable file is accepted
   * and every oversized one is named, whatever their mix.
   */
  lemma {:induction false} BatchThatFits(assets: seq<Asset>, ids: seq<string>, slots: int, maxSize: int)
    requires |ids| == |assets|
    requires |AcceptAll(assets, ids, maxSize)| < slots
    ensures ScanBatch(assets, ids, slots, maxSize) == BatchScan(AcceptAll(assets, ids, maxSize), AllOversized(assets, maxSize))
    decreases |assets|
  {
    if assets != [] {
      if Oversized(assets[0], maxSize) {
        BatchThatFits(assets[1..], ids[1..], slots, maxSize);
      } else {
        BatchThatFits(assets[1..], ids[1..], slots - 1, maxSize);
      }
    }
  }

  /** Whatever the batch holds, the accepted entries are the first acceptable ones, in order. */
  lemma {:induction false} BatchAcceptsPrefix(assets: seq<Asset>, ids: seq<string>, slots: int, maxSize: int)
    requires |ids| == |assets|
    ensures ScanBatch(assets, ids, slots, maxSize).accepted <= AcceptAll(assets, ids, maxSize)
    ensures slots >= 0 && |AcceptAll(assets, ids, maxSize)| >= slots ==>
              |ScanBatch(assets, ids, slots, maxSize).accepted| == slots
    decreases |assets|
  {
    if assets != [] && slots > 0 {
      if Oversized(assets[0], maxSize) {
        BatchAcceptsPrefix(assets[1..], ids[1..], slots, maxSize);
      } else {
        BatchAcceptsPrefix(assets[1..], ids[1..], slots - 1, maxSize);
      }
    }
  }

  /** Taking one picture is a gallery batch of one, as far as the list is concerned. */
  lemma SingleIsBatchOfOne(count: int, maxImages: int, maxSize: int, asset: Asset, id: string)
    ensures var o := DecideSingle(count, maxImages, maxSize, asset, id);
            ScanBatch([asset], [id], maxImages - count, maxSize).accepted == if o.Added? then [o.entry] else []
  {
    assert [asset][1..] == [] && [id][1..] == [];
  }

  // ---------------------------------------------------------------------------
  // Upload completion

  /** The entry as the success path writes it, spread from the entry the upload started with. */
  function Uploaded(original: ImageData, path: Option<string>, fileName: Option<string>): (e: ImageData)
    ensures e.id == original.id && e.uri == original.uri && e.name == original.name
    ensures e.mimeType == original.mimeType && e.size == original.size && e.error == original.error
    ensures e.uploaded && !e.uploading && e.minioPath == path && e.minioFileName == fileName
  {
    original.(uploading := false, uploaded := true, minioPath := path, minioFileName := fileName)
  }

  /** The error text recorded on a failed entry. */
  function FailureText(message: string): (t: string)
    ensures t != ""
    ensures message != "" ==> t == message
    ensures message == "" ==> t == "Upload gagal"
  {
    if message == "" then "Upload gagal" else message
  }

  /** The entry as the failure path writes it, spread from the entry in the list. */
  function Failed(entry: ImageData, message: string): (e: ImageData)
    ensures e.id == entry.id && !e.uploaded && !e.uploading && e.error == Some(FailureText(message))
    ensures e.minioPath == entry.minioPath && e.minioFileName == entry.minioFileName && e.name == entry.name
    ensures e.uri == entry.uri && e.mimeType == entry.mimeType && e.size == entry.size
  {
    entry.(uploading := false, uploaded := false, error := Some(FailureText(message)))
  }

  /** The success updater: replace the entry carrying the upload's id, keep the others. */
  function MarkUploaded(images: seq<ImageData>, original: ImageData, path: Option<string>, fileName: Option<string>): (r: seq<ImageData>)
    ensures |r| == |images|
    ensures forall i :: 0 <= i < |images| ==> r[i].id == images[i].id
    ensures forall i :: 0 <= i < |images| && images[i].id != original.id ==> r[i] == images[i]
    ensures forall i :: 0 <= i < |images| && images[i].id == original.id ==> r[i] == Uploaded(original, path, fileName)
    ensures !HasId(images, original.id) ==> r == images
  {
    seq(|images|, i requires 0 <= i < |images| =>
      if images[i].id == original.id then Uploaded(original, path, fileName) else images[i])
  }

  /** The failure transformation: mark the entry carrying the id failed, keep the others. */
  function MarkFailed(images: seq<ImageData>, id: string, message: string): (r: seq<ImageData>)
    ensures |r| == |images|
    ensures forall i :: 0 <= i < |images| ==> r[i].id == images[i].id
    ensures forall i :: 0 <= i < |images| && images[i].id != id ==> r[i] == images[i]
    ensures forall i :: 0 <= i < |images| && images[i].id == id ==> r[i] == Failed(images[i], message)
    ensures !HasId(images, id) ==> r == images
  {
    seq(|images|, i requires 0 <= i < |images| =>
      if images[i].id == id then Failed(images[i], message) else images[i])
  }

  /** One upload completion, as a list update against the current list. */
  datatype Completion =
    | Succeeded(original: ImageData, path: Option<string>, fileName: Option<string>)
    | Rejected(id: string, message: string)
  {
    function Id(): string {
      if Succeeded? then original.id else id
    }
  }

  /** What a completion makes of the entry it concerns. */
  function Settle(entry: ImageData, c: Completion): ImageData {
    match c
    case Succeeded(original, path, fileName) => Uploaded(original, path, fileName)
    case Rejected(_, message) => Failed(entry, message)
  }

  function Apply(images: seq<ImageData>, c: Completion): seq<ImageData> {
    match c
    case Succeeded(original, path, fileName) => MarkUploaded(images, original, path, fileName)
    case Rejected(id, message) => MarkFailed(images, id, message)
  }

  /** Completions applied one after the other, in arrival order. */
  function ApplyAll(images: seq<ImageData>, events: seq<Completion>): (r: seq<ImageData>)
    ensures |r| == |images|
    decreases |events|
  {
    if events == [] then images else ApplyAll(Apply(images, events[0]), events[1..])
  }

  predicate DistinctCompletions(events: seq<Completion>) {
    forall k, l :: 0 <= k < l < |events| ==> events[k].Id() != events[l].Id()
  }

  /** How one upload ended: the step that threw, or the server's answer. */
  datatype UploadResponse =
    | Unreachable                                          // the connectivity probe threw
    | HttpError(status: int, body: string)                 // the upload answered with a non-OK status
    | Refused(serverMessage: Option<string>)               // `success` was false
    | Stored(path: Option<string>, fileName: Option<string>) // `success` was true
    | Thrown(reason: string)                               // `fetch` or `json` itself threw

  /** `uploadImageToServer`: the list update its outcome leads to. */
  function UploadCompletion(entry: ImageData, response: UploadResponse): (c: Completion)
    ensures c.Id() == entry.id
    ensures c.Succeeded? <==> response.Stored?
    ensures c.Succeeded? ==> c.original == entry
    ensures c.Rejected? ==> (c.message == "" <==> response == Thrown(""))
    ensures response.Unreachable? ==> c == Rejected(entry.id, "Network connectivity test failed. Check your connection.")
    ensures response.HttpError? ==>
              c == Rejected(entry.id, "Upload failed with status: " + IntToString(response.status) + " - " + response.body)
    ensures response.Refused? ==> c == Rejected(entry.id, OrDefault(response.serverMessage, "Upload failed"))
    ensures response.Thrown? ==> c == Rejected(entry.id, response.reason)
  {
    match response
    case Stored(path, fileName) => Succeeded(entry, path, fileName)
    case Unreachable => Rejected(entry.id, "Network connectivity test failed. Check your connection.")
    case HttpError(status, body) => Rejected(entry.id, "Upload failed with status: " + IntToString(status) + " - " + body)
    case Refused(serverMessage) => Rejected(entry.id, OrDefault(serverMessage, "Upload failed"))
    case Thrown(reason) => Rejected(entry.id, reason)
  }

  /** The entry an upload leaves behind: uploaded exactly when the server stored the file. */
  lemma UploadOutcome(entry: ImageData, response: UploadResponse)
    ensures var e := Settle(entry, UploadCompletion(entry, response));
            e.id == entry.id && !e.uploading
            && (e.uploaded <==> response.Stored?)
            && (response.Stored? ==> e.minioPath == response.path && e.minioFileName == response.fileName)
            && (!response.Stored? ==> e.error.Some? && e.error.value != ""
                                      && (e.error == Some("Upload gagal") ==> response in {Thrown(""), Thrown("Upload gagal"), Refused(Some("Upload gagal"))}))
  {
    if response.HttpError? {
      var text := "Upload failed with status: " + IntToString(response.status) + " - " + response.body;
      assert text[7] == 'f';
    }
  }

  /**
   * Completion safety: with one completion per upload, every entry ends up
   * exactly as its own completion leaves it, and an entry without a completion
   * is untouched, whatever the arrival order.
   */
  lemma {:induction false} ApplyAllPointwise(images: seq<ImageData>, events: seq<Completion>, i: int)
    requires DistinctCompletions(events)
    requires 0 <= i < |images|
    ensures ApplyAll(images, events)[i].id == images[i].id
    ensures forall k :: 0 <= k < |events| && events[k].Id() == images[i].id ==>
              ApplyAll(images, events)[i] == Settle(images[i], events[k])
    ensures (forall k :: 0 <= k < |events| ==> events[k].Id() != images[i].id) ==>
              ApplyAll(images, events)[i] == images[i]
    decreases |events|
  {
    if events != [] {
      var next := Apply(images, events[0]);
      var rest := events[1..];
      assert DistinctCompletions(rest) by {
        forall k, l | 0 <= k < l < |rest| ensures rest[k].Id() != rest[l].Id() {
          assert rest[k] == events[k + 1] && rest[l] == events[l + 1];
        }
      }
      ApplyAllPointwise(next, rest, i);
      forall k | 0 <= k < |events| && events[k].Id() == images[i].id
        ensures ApplyAll(images, events)[i] == Settle(images[i], events[k])
      {
        if k == 0 {
          forall m | 0 <= m < |rest| ensures rest[m].Id() != next[i].id {
            assert rest[m] == events[m + 1];
          }
        } else {
          assert rest[k - 1] == events[k];
        }
      }
      if forall k :: 0 <= k < |events| ==> events[k].Id() != images[i].id {
        forall m | 0 <= m < |rest| ensures rest[m].Id() != next[i].id {
          assert rest[m] == events[m + 1];
        }
      }
    }
  }

  /** The arrival order of the completions does not change the final list. */
  lemma ArrivalOrderIrrelevant(images: seq<ImageData>, events: seq<Completion>, reordered: seq<Completion>)
    requires DistinctCompletions(events) && DistinctCompletions(reordered)
    requires multiset(events) == multiset(reordered)
    ensures ApplyAll(images, events) == ApplyAll(images, reordered)
  {
    forall i | 0 <= i < |images| ensures ApplyAll(images, events)[i] == ApplyAll(images, reordered)[i] {
      ApplyAllPointwise(images, events, i);
      ApplyAllPointwise(images, reordered, i);
      if k :| 0 <= k < |events| && events[k].Id() == images[i].id {
        assert events[k] in multiset(reordered);
        var k2 :| 0 <= k2 < |reordered| && reordered[k2] == events[k];
      } else if k2 :| 0 <= k2 < |reordered| && reordered[k2].Id() == images[i].id {
        assert reordered[k2] in multiset(events);
      }
    }
  }

  /**
   * The failure path as written: the transformation is applied to the snapshot
   * in `imagesRef`, which lags behind a success not yet rendered. Two entries,
   * the first upload succeeds, the second fails before the next render: the
   * first entry's success is lost.
   */
  lemma SnapshotFailureLosesSuccess()
    ensures var a := ImageData("a", "file:///a.jpg", "a.jpg", "image/jpeg", 10, false, false, None, None, None);
            var b := ImageData("b", "file:///b.jpg", "b.jpg", "image/jpeg", 10, false, false, None, None, None);
            var rendered := [a, b];
            var live := MarkUploaded(rendered, a, Some("siger/a.jpg"), Some("a.jpg"));
            live[0].uploaded
            && !MarkFailed(rendered, "b", "Network request failed")[0].uploaded
            && MarkFailed(live, "b", "Network request failed")[0].uploaded
  {
  }

  // ---------------------------------------------------------------------------
  // Deletion

  lemma HasIdCons(images: seq<ImageData>, id: string)
    requires images != []
    ensures HasId(images, id) <==> images[0].id == id || HasId(images[1..], id)
  {
    if HasId(images, id) {
      var k :| 0 <= k < |images| && images[k].id == id;
      if k > 0 { assert images[1..][k - 1].id == id; }
    }
    if HasId(images[1..], id) {
      var k :| 0 <= k < |images[1..]| && images[1..][k].id == id;
      assert images[k + 1].id == id;
    }
  }

  lemma DistinctCons(images: seq<ImageData>)
    requires images != []
    ensures DistinctIds(images) <==> DistinctIds(images[1..]) && !HasId(images[1..], images[0].id)
  {
    var tail := images[1..];
    if DistinctIds(images) {
      forall i, j | 0 <= i < j < |tail| ensures tail[i].id != tail[j].id {
        assert tail[i] == images[i + 1] && tail[j] == images[j + 1];
      }
      forall k | 0 <= k < |tail| ensures tail[k].id != images[0].id {
        assert tail[k] == images[k + 1];
      }
    }
    if DistinctIds(tail) && !HasId(tail, images[0].id) {
      forall i, j | 0 <= i < j < |images| ensures images[i].id != images[j].id {
        assert images[j] == tail[j - 1];
        if i > 0 { assert images[i] == tail[i - 1]; }
      }
    }
  }

  /** `images.filter(img => img.id !== id)`. */
  function WithoutId(images: seq<ImageData>, id: string): (r: seq<ImageData>)
    ensures IsSubsequence(r, images)
    ensures forall e :: e in r <==> e in images && e.id != id
    ensures forall e :: multiset(r)[e] == if e.id == id then 0 else multiset(images)[e]
    ensures !HasId(images, id) ==> r == images
  {
    if images == [] then []
    else
      var rest := WithoutId(images[1..], id);
      assert images == [images[0]] + images[1..];
      HasIdCons(images, id);
      if images[0].id == id then rest
      else
        var r := [images[0]] + rest;
        assert r[1..] == rest;
        r
  }

  /** With distinct ids, removing a present id drops exactly one entry and keeps the ids distinct. */
  lemma {:induction false} WithoutIdDistinct(images: seq<ImageData>, id: string)
    requires DistinctIds(images)
    ensures HasId(images, id) ==> |WithoutId(images, id)| == |images| - 1
    ensures DistinctIds(WithoutId(images, id))
    decreases |images|
  {
    if images != [] {
      var rest := WithoutId(images[1..], id);
      HasIdCons(images, id);
      DistinctCons(images);
      WithoutIdDistinct(images[1..], id);
      if images[0].id != id {
        var r := [images[0]] + rest;
        assert r[1..] == rest;
        forall k | 0 <= k < |rest| ensures rest[k].id != images[0].id {
          assert rest[k] in images[1..];
        }
        DistinctCons(r);
      }
    }
  }

  /** `images.find(img => img.id === id)`: the first entry carrying the id, if any. */
  function FindImage(images: seq<ImageData>, id: string): (r: Option<ImageData>)
    ensures r.None? <==> !HasId(images, id)
    ensures r.Some? ==> r.value in images && r.value.id == id
    ensures r.Some? ==> exists i :: 0 <= i < |images| && images[i] == r.value
                          && forall j :: 0 <= j < i ==> images[j].id != id
  {
    if images == [] then None
    else if images[0].id == id then Some(images[0])
    else
      HasIdCons(images, id);
      var r := FindImage(images[1..], id);
      assert r.Some? ==> exists i :: 0 <= i < |images[1..]| && images[1..][i] == r.value
                          && forall j :: 0 <= j < i ==> images[1..][j].id != id;
      r
  }

  /** The storage path of a removed entry that must also be deleted remotely. */
  function RemoteDeletePath(entry: ImageData): (r: Option<string>)
    ensures r.Some? <==> entry.uploaded && Truthy(entry.minioPath)
    ensures r.Some? ==> entry.minioPath == r
  {
    if entry.uploaded && Truthy(entry.minioPath) then entry.minioPath else None
  }

  datatype DeleteOutcome = NotFound | Removed(remaining: seq<ImageData>, remoteDelete: Option<string>)

  /** `deleteImage`: an unknown id changes nothing; a known one is filtered out. */
  function DecideDelete(images: seq<ImageData>, id: string): (o: DeleteOutcome)
    ensures o.NotFound? <==> !HasId(images, id)
    ensures o.Removed? ==> o.remaining == WithoutId(images, id)
    ensures o.Removed? ==> o.remoteDelete == RemoteDeletePath(FindImage(images, id).value)
    ensures o.Removed? ==> exists i :: 0 <= i < |images| && images[i].id == id
                             && (forall j :: 0 <= j < i ==> images[j].id != id)
                             && o.remoteDelete == RemoteDeletePath(images[i])
  {
    match FindImage(images, id)
    case None => NotFound
    case Some(entry) => Removed(WithoutId(images, id), RemoteDeletePath(entry))
  }
}
