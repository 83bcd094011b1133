/**
 * The existing-record lookup of the report form (app/createTask.tsx,
 * `fetchExistingDailyData`, `populateFormWithExistingData`,
 * `setDefaultFormData`): how the answer of the lookup for today's record of a
 * sub-activity decides between CREATE and UPDATE mode, and what the form
 * fields and the attachment list are seeded with.
 */
module Resolver {
  import opened Js
  import opened Attachments

  /** The stored coordinates, as the text the template literal renders. */
  datatype Coordinates = Coordinates(latitude: string, longitude: string)

  /** One element of a stored record's `file` array. */
  datatype FileRef = FileRef(url: Option<string>, file: Option<string>, path: Option<string>)

  /**
   * A stored daily record: the progress as the text `toString` gives, the
   * notes, the coordinates and the files (`None` when `file` is not an array).
   */
  datatype ExistingRecord = ExistingRecord(
    progress: Option<string>, catatan: Option<string>,
    koordinat: Option<Coordinates>, files: Option<seq<FileRef>>)

  /** The `data` of the answer: not an array, or the records. */
  datatype ListData = NotAList | Records(records: seq<ExistingRecord>)

  /** How the lookup ended: the request or body parsing threw, a non-OK status, or a body. */
  datatype LookupOutcome = Threw | NotOk(status: int) | Answered(success: bool, data: ListData)

  datatype Resolution = Skipped | CreateMode | UpdateMode(record: ExistingRecord)

  /**
   * The decision: nothing for an empty id; UPDATE only for a successful answer
   * with at least one record, seeded from the first; CREATE on every other
   * path, errors included.
   */
  function Resolve(subActivityId: string, outcome: LookupOutcome): (r: Resolution)
    ensures r.Skipped? <==> subActivityId == ""
    ensures r.UpdateMode? <==> subActivityId != "" && outcome.Answered? && outcome.success
                                && outcome.data.Records? && |outcome.data.records| > 0
    ensures r.UpdateMode? ==> r.record == outcome.data.records[0]
  {
    if subActivityId == "" then Skipped
    else match outcome
      case Threw => CreateMode
      case NotOk(_) => CreateMode
      case Answered(success, data) =>
        if success && data.Records? && |data.records| > 0 then UpdateMode(data.records[0])
        else CreateMode
  }

  /** The fields the lookup seeds. */
  datatype Form = Form(progress: string, catatan: string, koordinat: string, images: seq<ImageData>)

  /** `setDefaultFormData`. */
  const EmptyForm := Form("", "", "", [])

  /** The id of the `index`-th seeded entry, `now` being the clock reading. */
  function SeededId(index: nat, now: nat): string {
    "existing_" + NatToString(index) + "_" + NatToString(now)
  }

  /** A stored file as an attachment entry: already uploaded, at the stored path. */
  function SeedImage(file: FileRef, index: nat, now: nat): (e: ImageData)
    ensures e.id == SeededId(index, now)
    ensures e.uploaded && !e.uploading && e.error.None?
    ensures e.minioPath == file.path && e.minioFileName == file.file
    ensures e.uri == OrDefault(file.url, "") && e.mimeType == "image/jpeg" && e.size == 0
    ensures e.name == OrDefault(file.file, "file_" + NatToString(index))
  {
    ImageData(SeededId(index, now), OrDefault(file.url, ""), OrDefault(file.file, "file_" + NatToString(index)),
              "image/jpeg", 0, false, true, None, file.path, file.file)
  }

  function SeedImages(files: seq<FileRef>, now: nat): (r: seq<ImageData>)
    ensures |r| == |files|
    ensures forall i :: 0 <= i < |files| ==> r[i] == SeedImage(files[i], i, now)
  {
    seq(|files|, i requires 0 <= i < |files| => SeedImage(files[i], i, now))
  }

  /** Seeded entries carry distinct ids, so the list operations can tell them apart. */
  lemma SeededIdsDistinct(files: seq<FileRef>, now: nat)
    ensures DistinctIds(SeedImages(files, now))
    ensures NoneUploading(SeedImages(files, now))
  {
    var images := SeedImages(files, now);
    forall i, j | 0 <= i < j < |images| ensures images[i].id != images[j].id {
      if images[i].id == images[j].id {
        var p := "existing_";
        var si, sj := NatToString(i), NatToString(j);
        assert images[i].id == p + (si + ['_'] + NatToString(now));
        assert images[j].id == p + (sj + ['_'] + NatToString(now));
        assert si + ['_'] + NatToString(now) == (p + (si + ['_'] + NatToString(now)))[|p|..];
        assert sj + ['_'] + NatToString(now) == (p + (sj + ['_'] + NatToString(now)))[|p|..];
        NatToStringDelimited(i, j, '_', NatToString(now), NatToString(now));
      }
    }
  }

  /**
   * `populateFormWithExistingData`: progress and notes always, the
   * coordinates only when stored, the list only when `file` is an array;
   * whatever is not stored keeps its previous value.
   */
  function Populate(form: Form, record: ExistingRecord, now: nat): (f: Form)
    ensures f.progress == OrDefault(record.progress, "") && f.catatan == OrDefault(record.catatan, "")
    ensures record.koordinat.None? ==> f.koordinat == form.koordinat
    ensures record.koordinat.Some? ==>
              f.koordinat == record.koordinat.value.latitude + ", " + record.koordinat.value.longitude
    ensures record.files.None? ==> f.images == form.images
    ensures record.files.Some? ==> f.images == SeedImages(record.files.value, now)
  {
    var koordinat :=
      if record.koordinat.Some? then record.koordinat.value.latitude + ", " + record.koordinat.value.longitude
      else form.koordinat;
    var images := if record.files.Some? then SeedImages(record.files.value, now) else form.images;
    Form(OrDefault(record.progress, ""), OrDefault(record.catatan, ""), koordinat, images)
  }

  /** The form after the lookup resolved. */
  function Seed(form: Form, resolution: Resolution, now: nat): (f: Form)
    ensures resolution.Skipped? ==> f == form
    ensures resolution.CreateMode? ==> f == EmptyForm
    ensures resolution.UpdateMode? ==> f == Populate(form, resolution.record, now)
  {
    match resolution
    case Skipped => form
    case CreateMode => EmptyForm
    case UpdateMode(record) => Populate(form, record, now)
  }

  /** Resolving the same answer twice gives the same form as resolving it once. */
  lemma SeedIdempotent(form: Form, resolution: Resolution, now: nat)
    ensures Seed(Seed(form, resolution, now), resolution, now) == Seed(form, resolution, now)
  {
  }

  /**
   * Fail-open: an error, any non-OK status, `success` false, a `data` that is
   * not an array or an empty one all clear the form, whatever it held.
   */
  lemma FailedLookupClears(form: Form, subActivityId: string, outcome: LookupOutcome, now: nat)
    requires subActivityId != ""
    requires outcome.Threw? || outcome.NotOk?
             || (outcome.Answered? && (!outcome.success || outcome.data == NotAList || outcome.data == Records([])))
    ensures Seed(form, Resolve(subActivityId, outcome), now) == EmptyForm
  {
  }

  /** An UPDATE with stored files yields only uploaded entries with distinct ids. */
  lemma UpdateSeedsUploadedList(form: Form, subActivityId: string, outcome: LookupOutcome, now: nat)
    requires Resolve(subActivityId, outcome).UpdateMode?
    ensures var f := Seed(form, Resolve(subActivityId, outcome), now);
            var record := outcome.data.records[0];
            record.files.Some? ==>
              (DistinctIds(f.images) && |f.images| == |record.files.value|
               && forall i :: 0 <= i < |f.images| ==> f.images[i].uploaded)
  {
    var record := outcome.data.records[0];
    if record.files.Some? {
      SeededIdsDistinct(record.files.value, now);
    }
  }

  /** Two concrete answers: a 404 and a stored record with one file. */
  lemma ConcreteLookups()
    ensures Seed(Form("12", "old", "1, 2", []), Resolve("sub003", NotOk(404)), 7) == EmptyForm
    ensures var rec := ExistingRecord(Some("12.5"), Some("Galian 20 m"), None,
                                      Some([FileRef(Some("https://x/a.jpg"), Some("a.jpg"), Some("siger/a.jpg"))]));
            var f := Seed(Form("", "", "1, 2", []), Resolve("sub003", Answered(true, Records([rec]))), 7);
            f.progress == "12.5" && f.catatan == "Galian 20 m" && f.koordinat == "1, 2"
            && |f.images| == 1 && f.images[0].uploaded && f.images[0].minioPath == Some("siger/a.jpg")
            && f.images[0].id == "existing_0_7"
  {
    assert NatToString(0) == "0" && NatToString(7) == "7";
  }
}
