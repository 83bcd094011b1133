/**
 * `ImageUploadComponent` (app/createTask.tsx) as a stateful object. The list
 * lives in the parent (`uploadedImages`); the component reads the list of the
 * last render, both through its `images` prop and through `imagesRef`, and
 * writes back through `onImagesChange`, either with a new list or with a
 * functional update of whatever the parent holds by then.
 */
module Uploader {
  import opened Js
  import opened Attachments

  /** The limits the report form passes to the component. */
  const MAX_IMAGES := 5
  const MAX_SIZE := 5 * 1024 * 1024

  class ImageUploader {
    /** The list the parent holds now, functional updates included. */
    var images: seq<ImageData>
    /** The list of the last render: the `images` prop and `imagesRef.current`. */
    var rendered: seq<ImageData>
    const maxImages: int
    const maxSize: int

    /** No entry is ever marked as uploading. */
    predicate Valid()
      reads this
    {
      NoneUploading(images) && NoneUploading(rendered)
    }

    constructor (maxImages: int, maxSize: int)
      ensures Valid()
      ensures images == [] && rendered == []
      ensures this.maxImages == maxImages && this.maxSize == maxSize
    {
      images, rendered := [], [];
      this.maxImages, this.maxSize := maxImages, maxSize;
    }

    /** A render: the prop and the ref catch up with the parent's list. */
    method Render()
      requires Valid()
      modifies this
      ensures Valid()
      ensures rendered == old(images) && images == old(images)
    {
      rendered := images;
    }

    /** The parent replaces the list (the existing-record lookup seeds it this way). */
    method Replace(list: seq<ImageData>)
      requires Valid() && NoneUploading(list)
      modifies this
      ensures Valid()
      ensures images == list && rendered == old(rendered)
    {
      images := list;
    }

    /** `handleImageSelected`: one picture from the camera. */
    method AddImage(asset: Asset, id: string) returns (outcome: AddOutcome)
      requires Valid()
      modifies this
      ensures Valid()
      ensures outcome == DecideSingle(|old(rendered)|, maxImages, maxSize, asset, id)
      ensures images == if outcome.Added? then old(rendered) + [outcome.entry] else old(images)
      ensures rendered == old(rendered)
    {
      outcome := DecideSingle(|rendered|, maxImages, maxSize, asset, id);
      if outcome.Added? {
        images := rendered + [outcome.entry];
      }
    }

    /**
     * `pickImageFromGallery` and `handleMultipleImagesSelected`: nothing is
     * picked when no place is left; otherwise the accepted entries are
     * appended after the rendered list, unless there are none.
     */
    method AddFromGallery(assets: seq<Asset>, ids: seq<string>) returns (outcome: BatchScan)
      requires Valid() && |ids| == |assets|
      modifies this
      ensures Valid()
      ensures outcome == ScanBatch(assets, ids, maxImages - |old(rendered)|, maxSize)
      ensures images == if outcome.accepted == [] then old(images) else old(rendered) + outcome.accepted
      ensures rendered == old(rendered)
    {
      var remainingSlots := maxImages - |rendered|;
      if remainingSlots <= 0 {
        return BatchScan([], []);
      }
      var validImages, oversizedImages := SelectBatch(|rendered|, maxImages, maxSize, assets, ids);
      outcome := BatchScan(validImages, oversizedImages);
      ScanBatchBounds(assets, ids, remainingSlots, maxSize);
      if validImages == [] {
        return;
      }
      images := rendered + validImages;
    }

    /**
     * `uploadImageToServer` as written: a success is a functional update of
     * the parent's list, a failure writes the transformed rendered list.
     */
    method FinishUpload(entry: ImageData, response: UploadResponse)
      requires Valid()
      modifies this
      ensures Valid()
      ensures images == match UploadCompletion(entry, response)
                        case Succeeded(original, path, fileName) => MarkUploaded(old(images), original, path, fileName)
                        case Rejected(id, message) => MarkFailed(old(rendered), id, message)
      ensures rendered == old(rendered)
    {
      var completion := UploadCompletion(entry, response);
      match completion {
        case Succeeded(original, path, fileName) =>
          images := MarkUploaded(images, original, path, fileName);
        case Rejected(id, message) =>
          var currentImages := rendered;
          images := MarkFailed(currentImages, id, message);
      }
    }

    /** The failure written as a functional update too, like the success. */
    method FinishUploadCorrected(entry: ImageData, response: UploadResponse)
      requires Valid()
      modifies this
      ensures Valid()
      ensures images == Apply(old(images), UploadCompletion(entry, response))
      ensures rendered == old(rendered)
    {
      images := Apply(images, UploadCompletion(entry, response));
    }

    /** `deleteImage`: filter the rendered list; say which remote file to delete. */
    method Delete(id: string) returns (outcome: DeleteOutcome)
      requires Valid()
      modifies this
      ensures Valid()
      ensures outcome == DecideDelete(old(rendered), id)
      ensures images == if outcome.Removed? then outcome.remaining else old(images)
      ensures rendered == old(rendered)
    {
      outcome := DecideDelete(rendered, id);
      if outcome.Removed? {
        images := outcome.remaining;
      }
    }

    /**
     * `confirmDeleteImage`, with the user's answer as a parameter: nothing
     * happens for an id already gone or when the user cancels.
     */
    method ConfirmDelete(id: string, confirmed: bool) returns (outcome: Option<DeleteOutcome>)
      requires Valid()
      modifies this
      ensures Valid()
      ensures outcome.Some? <==> confirmed && HasId(old(rendered), id)
      ensures outcome.Some? ==> outcome.value.Removed? && outcome.value == DecideDelete(old(rendered), id)
      ensures outcome.None? ==> images == old(images)
      ensures outcome.Some? ==> images == outcome.value.remaining
      ensures rendered == old(rendered)
    {
      outcome := None;
      if FindImage(rendered, id).None? {
        return;
      }
      if confirmed && FindImage(rendered, id).Some? {
        var deleted := Delete(id);
        outcome := Some(deleted);
      }
    }
  }
}
