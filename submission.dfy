/**
 * `handleSubmit` of the report form (app/createTask.tsx): the required
 * selections checked in order, the upsert payload, and the alert its answer
 * leads to.
 */
module Submission {
  import opened Js
  import opened Attachments
  import opened Resolver

  /** The fixed reporting user, one third of the upsert key. */
  const USER_ID := "cmfb8i5yo0000vpgc5p776720"

  /** One element of the payload's `files`. */
  datatype FileEntry = FileEntry(file: string, path: string)

  /** An entry whose upload finished and whose storage name and path are known. */
  predicate Submittable(e: ImageData) {
    e.uploaded && Truthy(e.minioFileName) && Truthy(e.minioPath)
  }

  function AsFileEntry(e: ImageData): FileEntry
    requires Submittable(e)
  {
    FileEntry(e.minioFileName.value, e.minioPath.value)
  }

  /** `uploadedFiles`: the submittable entries, as `{file, path}`, in list order. */
  function UploadedFiles(images: seq<ImageData>): (r: seq<FileEntry>)
    ensures |r| <= |images|
    ensures forall i :: 0 <= i < |images| && Submittable(images[i]) ==> AsFileEntry(images[i]) in r
    ensures forall f :: f in r ==> exists e :: e in images && Submittable(e) && f == AsFileEntry(e)
  {
    if images == [] then []
    else
      var rest := UploadedFiles(images[1..]);
      assert forall i :: 1 <= i < |images| ==> images[i] == images[1..][i - 1];
      if Submittable(images[0]) then [AsFileEntry(images[0])] + rest else rest
  }

  lemma {:induction false} UploadedFilesAppend(a: seq<ImageData>, b: seq<ImageData>)
    ensures UploadedFiles(a + b) == UploadedFiles(a) + UploadedFiles(b)
    decreases |a|
  {
    if a == [] {
      assert a + b == b;
    } else {
      assert (a + b)[0] == a[0] && (a + b)[1..] == a[1..] + b;
      UploadedFilesAppend(a[1..], b);
    }
  }

  /** Entries still pending, failed or without a storage path never reach the payload. */
  lemma PendingEntryNotSent(images: seq<ImageData>, e: ImageData)
    requires !Submittable(e)
    ensures UploadedFiles(images + [e]) == UploadedFiles(images)
  {
    UploadedFilesAppend(images, [e]);
  }

  /** The files of a stored record that carry both a name and a path. */
  function StoredFiles(files: seq<FileRef>): seq<FileEntry> {
    if files == [] then []
    else
      var last := files[|files| - 1];
      StoredFiles(files[..|files| - 1])
        + if Truthy(last.file) && Truthy(last.path) then [FileEntry(last.file.value, last.path.value)] else []
  }

  /**
   * Round trip with the lookup: submitting the list seeded from a stored
   * record sends back exactly the stored files that have a name and a path.
   */
  lemma {:induction false} ResubmitKeepsStoredFiles(files: seq<FileRef>, now: nat)
    ensures UploadedFiles(SeedImages(files, now)) == StoredFiles(files)
    decreases |files|
  {
    if files != [] {
      var init, last := files[..|files| - 1], files[|files| - 1];
      var seeded := SeedImage(last, |init|, now);
      assert SeedImages(files, now) == SeedImages(init, now) + [seeded];
      UploadedFilesAppend(SeedImages(init, now), [seeded]);
      ResubmitKeepsStoredFiles(init, now);
    }
  }

  /** The upsert body, keyed by user, sub-activity and date. */
  datatype Payload = Payload(
    userId: string, subActivityId: string, tanggalProgres: string,
    catatanKegiatan: string, files: seq<FileEntry>)

  datatype Submission = MissingProject | MissingActivity | MissingSubActivity | Ready(payload: Payload)

  /** The checks in order, the first empty selection winning; then the payload. */
  function Assemble(project: string, activity: string, subActivity: string, tanggal: string,
                    catatan: string, images: seq<ImageData>): (s: Submission)
    ensures s == MissingProject <==> project == ""
    ensures s == MissingActivity <==> project != "" && activity == ""
    ensures s == MissingSubActivity <==> project != "" && activity != "" && subActivity == ""
    ensures s.Ready? <==> project != "" && activity != "" && subActivity != ""
    ensures s.Ready? ==> s.payload.userId == USER_ID && s.payload.subActivityId == subActivity
                         && s.payload.tanggalProgres == tanggal
    ensures s.Ready? ==> s.payload.files == UploadedFiles(images) && s.payload.catatanKegiatan == Trim(catatan)
  {
    if project == "" then MissingProject
    else if activity == "" then MissingActivity
    else if subActivity == "" then MissingSubActivity
    else Ready(Payload(USER_ID, subActivity, tanggal, Trim(catatan), UploadedFiles(images)))
  }

  /** The alert shown when a check blocks the submission. */
  function BlockingMessage(s: Submission): (m: string)
    requires !s.Ready?
    ensures "Pilih " <= m
    ensures s.MissingProject? ==> m == "Pilih proyek terlebih dahulu"
    ensures s.MissingActivity? ==> m == "Pilih kegiatan terlebih dahulu"
    ensures s.MissingSubActivity? ==> m == "Pilih sub kegiatan terlebih dahulu"
  {
    match s
    case MissingProject => "Pilih proyek terlebih dahulu"
    case MissingActivity => "Pilih kegiatan terlebih dahulu"
    case MissingSubActivity => "Pilih sub kegiatan terlebih dahulu"
  }

  /** How the upsert ended: a thrown error with its text, a non-OK status, or a body. */
  datatype UpsertOutcome =
    | UpsertThrew(detail: string)
    | UpsertNotOk(status: int)
    | UpsertAnswered(success: bool, message: Option<string>)

  datatype SubmitResult = Saved(message: string) | NotSaved(message: string)

  /** The prefix of the failure alert. */
  function FailurePrefix(isUpdateMode: bool): string {
    if isUpdateMode then "Laporan gagal diperbarui." else "Laporan gagal dibuat."
  }

  /** The alert after the upsert: the wording follows the mode, the verdict only the answer. */
  function SubmitResultOf(isUpdateMode: bool, outcome: UpsertOutcome): (r: SubmitResult)
    ensures r.Saved? <==> outcome.UpsertAnswered? && outcome.success
    ensures r.Saved? ==> r.message == if isUpdateMode then "Laporan harian berhasil diperbarui!"
                                      else "Laporan harian berhasil dibuat!"
    ensures r.NotSaved? ==> FailurePrefix(isUpdateMode) <= r.message
    ensures outcome.UpsertThrew? ==>
              r == NotSaved(FailurePrefix(isUpdateMode) + " Silakan coba lagi.\n\nDetail: " + outcome.detail)
    ensures outcome.UpsertNotOk? ==>
              r == NotSaved(FailurePrefix(isUpdateMode) + " Silakan coba lagi.\n\nDetail: "
                            + "HTTP error! status: " + IntToString(outcome.status))
    ensures outcome.UpsertAnswered? && !outcome.success ==>
              r == NotSaved(FailurePrefix(isUpdateMode) + " Silakan coba lagi.\n\nDetail: "
                            + OrDefault(outcome.message, "Failed to upsert daily progress"))
  {
    var detail :=
      match outcome
      case UpsertThrew(detail) => detail
      case UpsertNotOk(status) => "HTTP error! status: " + IntToString(status)
      case UpsertAnswered(_, message) => OrDefault(message, "Failed to upsert daily progress");
    if outcome.UpsertAnswered? && outcome.success then
      Saved(if isUpdateMode then "Laporan harian berhasil diperbarui!" else "Laporan harian berhasil dibuat!")
    else
      NotSaved(FailurePrefix(isUpdateMode) + " Silakan coba lagi.\n\nDetail: " + detail)
  }

  /** A concrete list: only the entry whose upload finished with a path is sent. */
  lemma ConcretePayload()
    ensures var done := ImageData("a", "file:///a.jpg", "a.jpg", "image/jpeg", 10, false, true, None,
                                  Some("siger/a.jpg"), Some("a.jpg"));
            var failed := ImageData("b", "file:///b.jpg", "b.jpg", "image/jpeg", 10, false, false,
                                    Some("Upload gagal"), None, None);
            UploadedFiles([done, failed]) == [FileEntry("a.jpg", "siger/a.jpg")]
  {
    var done := ImageData("a", "file:///a.jpg", "a.jpg", "image/jpeg", 10, false, true, None,
                          Some("siger/a.jpg"), Some("a.jpg"));
    var failed := ImageData("b", "file:///b.jpg", "b.jpg", "image/jpeg", 10, false, false,
                            Some("Upload gagal"), None, None);
    assert [done, failed] == [done] + [failed];
    PendingEntryNotSent([done], failed);
    assert [done][1..] == [];
  }
}
