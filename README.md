# siger-mobile: daily report form, attachment list and report history

A Dafny model of the field-reporting core of the siger-mobile app. Three
parts of it are modelled:

- **The daily report form** (`app/createTask.tsx`):
  - the project → activity → sub-activity cascade over the project catalog, with the demonstration catalog used when the live one cannot be loaded;
  - the lookup of today's stored record for the chosen sub-activity, which puts the form in CREATE or UPDATE mode and seeds its fields and attachment list;
  - the upsert submission and the alert its answer leads to.
- **The attachment list** (`ImageUploadComponent`): the camera and gallery additions with their capacity and size checks, MIME detection, the list updates written when an upload completes or fails, and deletion.
- **The report history** (`app/dailyActivities.tsx` with `hooks/useDailySubActivities.ts`): the request parameters built from the filters, the query string, the classification of the answer, the list replaced or extended page by page without duplicates, the load-more guard and the filter handlers.

The code that changes state step by step is modelled as classes whose fields are that state:

- `Uploader.ImageUploader`: the list the parent holds and the list of the last render.
- `TaskScreen.CreateTaskScreen`: the form's `useState` variables.
- `History.HistoryScreen`: the history screen's `useState` variables.
- `DailyQuery.DailyActivitiesFetcher`: the hook's `isLoading`/`error`.

The loops `handleMultipleImagesSelected` and the `forEach` of the query builder are methods with loop invariants. Each is proved against a specification function (`Attachments.SelectBatch` against `ScanBatch`, `DailyQuery.BuildQuery` against `Query`).

The rest is pure:

- the decisions: single add, batch scan, upload completion, delete, lookup resolution, submission checks;
- the list transformations: `MarkUploaded`, `MarkFailed`, `WithoutId`, `MergePage`;
- JavaScript's own `toLowerCase`, `trim`, `split`, `includes`, `||` on strings and `Number.toString`, in module `Js`.

Every network answer, the file sizes `FileSystem.getInfoAsync` reports, the clock and the random ids are parameters of the operations that consume them.

React's update semantics are modelled explicitly. `Uploader.ImageUploader` keeps two lists:

- `images`: what the parent holds now;
- `rendered`: the `images` prop of the last render, which is also `imagesRef.current`.

A `Render` step copies the first into the second. The two list writes behave differently:

- A functional update (the upload success) transforms `images`.
- A plain write sends a list computed from `rendered`. The upload failure, both additions and deletion all do this.

`handleSubmit` belongs to the render where submit was tapped. `TaskScreen.CreateTaskScreen.BeginSubmit` therefore takes its files from `rendered` and returns the mode of that render. `FinishSubmit` words the alert with that mode, even when a lookup has changed the mode while the request was in flight.

`History.Load` is a call `loadDailyActivities(page, reset)`, together with the filters of the render whose callback makes it.

Source behaviour the model keeps as written:

- A failed or empty existing-record lookup, an error and every non-OK status alike, clears the form and sets CREATE mode. Nothing distinguishes them.
- In UPDATE mode the coordinates and the attachment list keep their previous values when the stored record has none.
- Changing the project or the activity resets the lower selections. It does not reset the form or the mode.
- Picking a sub-activity (`SelectSubActivity`) and the settling of its lookup (`SettleLookup`) are separate steps. Nothing cancels an earlier lookup, so when the answers arrive out of order, the last one to arrive seeds the form and sets the mode, even when it belongs to a sub-activity that is no longer selected (`StaleAnswerRace`).
- The `uploading` flag is never raised: no entry is ever marked as uploading (`Valid()` of the uploader).
- The second existence check in `confirmDeleteImage`'s confirm handler reads the same render's list as the first. It can never fail once the first passed.
- Every filter change creates a new load callback. The effect keyed on it then requests the project catalog again and starts a plain page-1 load, so typing in the search box reloads both on each keystroke (`FilterEffect`).

## Model

| member | source | states |
|---|---|---|
| Js.OrDefault | app/createTask.tsx:1348-1349 | `o \|\| fallback` for a string: the value when present and non-empty, the fallback otherwise |
| Js.Lower | app/createTask.tsx:383 | same length, each character mapped by ASCII `toLowerCase` |
| Js.LowerAppend | app/createTask.tsx:383 | lower-casing distributes over concatenation |
| Js.IsSpace | app/createTask.tsx:1619 | the characters `trim` removes: the ECMAScript WhiteSpace and LineTerminator code points |
| Js.SkipSpaces | app/createTask.tsx:1619 | the end of the whitespace run that starts at an index: everything skipped is whitespace and the character it stops at is not |
| Js.SkipSpacesBack | app/createTask.tsx:1619 | the start of the whitespace run that ends at an index, within a lower bound: everything skipped is whitespace and the character before it is not |
| Js.Trim | app/createTask.tsx:1619 | the infix of the input that starts at its first non-blank character, with only whitespace outside it and none at either of its ends; empty exactly when the input is all whitespace |
| Js.Split | app/createTask.tsx:383 | `split` on one character always yields at least one part |
| Js.SplitJoin | app/createTask.tsx:383 | joining the parts with the separator gives the string back (round trip) |
| Js.SplitPartsAvoidSep | app/createTask.tsx:383 | no part contains the separator |
| Js.SplitPartOccurs | app/createTask.tsx:52-54 | every word of a split occurs in the string, the first as a prefix |
| Js.SplitAppendPart | app/createTask.tsx:383 | a separator followed by separator-free text adds exactly that text as the last part |
| Js.NatToString | app/createTask.tsx:1347 | decimal digits only, one digit exactly below 10 |
| Js.DecimalValue | app/createTask.tsx:1347 | the number a string of decimal digits denotes, most significant first |
| Js.NatToStringValue | app/createTask.tsx:1347 | the rendering denotes the number: its decimal value is `n` |
| Js.IntToString | app/createTask.tsx:1347 | `toString` of an integer: a minus sign before the digits of a negative number |
| Js.NatToStringInjective | app/createTask.tsx:1347 | different numbers render differently |
| Js.NatToStringDelimited | app/createTask.tsx:1347 | a rendering followed by a non-digit delimiter can be read back uniquely |
| Dropdown.Matches | app/createTask.tsx:45-54 | an item matches when the lower-cased, trimmed query is empty, occurs in the lower-cased label, or starts one of its space-separated words |
| Dropdown.Visible | app/createTask.tsx:43-56 | the visible items keep their order, are exactly the items whose label matches the query, and each matching item keeps its multiplicity |
| Dropdown.FilteredItems | app/dailyActivities.tsx:49-62 | a non-searchable dropdown shows all items; a searchable one shows `Visible`, exactly the matching items |
| Dropdown.BlankQueryKeepsAll | app/createTask.tsx:45-50 | a query blank after trimming keeps every item in order |
| Dropdown.MatchesIsSubstring | app/createTask.tsx:47-54 | the word-prefix test adds nothing: an item matches iff the trimmed query occurs in its lower-cased label |
| Catalog.FindProject | app/createTask.tsx:1532 | `find`: none iff no project has the id; otherwise the first project carrying it |
| Catalog.FindActivity | app/createTask.tsx:1547-1549 | `find`: none iff no activity has the id; otherwise the first carrying it |
| Catalog.ActivitiesOf | app/dailyActivities.tsx:398-403 | no activities for an empty or unknown project; the found project's activities otherwise |
| Catalog.SubActivitiesOf | app/dailyActivities.tsx:412-417 | no sub-activities for an empty or unknown activity; the found activity's list otherwise |
| Catalog.ProjectChoices | app/createTask.tsx:1522-1527 | one option per project, label `pekerjaan`, value id, same order |
| Catalog.ActivityChoices | app/createTask.tsx:1535-1538 | one option per activity, label name, value id, same order |
| Catalog.SubActivityChoices | app/createTask.tsx:1552-1555 | one option per sub-activity, label name, value id, same order |
| Catalog.ActivityOptions | app/createTask.tsx:1529-1539 | empty when no project is selected or it is not in the catalog |
| Catalog.SubActivityOptions | app/createTask.tsx:1541-1556 | empty when either selection is missing, the project is unknown, or the activity is not in that project |
| Catalog.OptionsAgreeWithFilterLists | app/dailyActivities.tsx:393-418 | the form's options equal the choices built from the lists the history handlers keep for the same ids |
| Catalog.FoundProjectOffered | app/createTask.tsx:1522-1533 | a project the lookup finds is among the project options |
| Catalog.FoundActivityOffered | app/createTask.tsx:1535-1550 | an activity the lookup finds is among that project's activity options |
| Catalog.SubOptionImpliesActivityOption | app/createTask.tsx:1529-1556 | whenever a sub-activity option exists, its project and activity are themselves offered |
| Catalog.MockCatalog | app/createTask.tsx:1377-1519 | the demonstration catalog has two projects with different ids |
| Catalog.MockProjectChoices | app/createTask.tsx:1377-1527 | the project dropdown over the demonstration catalog offers its two projects, in order |
| Catalog.MockProjectActivities | app/createTask.tsx:1377-1539 | the first demonstration project offers its three activities in order |
| Catalog.MockActivitySubActivities | app/createTask.tsx:1377-1556 | activity act002 of the first project offers sub003 and sub004 |
| Catalog.MockCascadeMisses | app/createTask.tsx:1377-1556 | an activity of another project, or an unknown project, offers nothing |
| Attachments.Extension | app/createTask.tsx:383 | `split(".").pop()` of the lower-cased file name |
| Attachments.MimeType | app/createTask.tsx:382-399 | the detected type is always an `image/` type |
| Attachments.ExtensionAfterLastDot | app/createTask.tsx:383 | the extension is the lower-cased text after the last dot, whatever the base name is |
| Attachments.MimeByExtension | app/createTask.tsx:382-399 | jpg/jpeg, png, gif and webp in any case map to their types; any other extension uses the picker's type if it is an image type, else JPEG |
| Attachments.UpperCaseExtension | app/createTask.tsx:383-390 | `.JPG` and `.Png` are recognised |
| Attachments.EntryName | app/createTask.tsx:401 | the picker's file name, or `image_<id>.jpg` when it has none |
| Attachments.NewEntry | app/createTask.tsx:401-419 | fresh entry: given id and uri, not uploaded, no error or path, image type, unknown size recorded as 0 |
| Attachments.UnnamedAssetIsJpeg | app/createTask.tsx:401-402 | an asset without a file name is named `image_<id>.jpg` and sent as JPEG |
| Attachments.Oversized | app/createTask.tsx:367 | a file is too large when its size is known and exceeds the maximum |
| Attachments.DecideSingle | app/createTask.tsx:355-374 | limit reached iff the list is full; too large iff there is room and the reported size exceeds the maximum; added otherwise |
| Attachments.RejectedName | app/createTask.tsx:467 | the name an oversized file is listed under: its file name, or "Unknown file" |
| Attachments.ScanBatch | app/createTask.tsx:452-474 | the scan as a specification: stop once no place is left, name and skip an oversized file, accept any other and use one place |
| Attachments.ScanBatchBounds | app/createTask.tsx:452-474 | never more accepted than places left; accepted plus oversized at most the batch; nothing uploading |
| Attachments.ScanStep | app/createTask.tsx:452-474 | one loop step: an oversized file is named and skipped, another is accepted and uses one place |
| Attachments.SelectBatch | app/createTask.tsx:448-520 | the loop with `break` and `continue` computes exactly the scan specification |
| Attachments.BatchThatFits | app/createTask.tsx:452-520 | when the acceptable files fit, all are accepted and every oversized file is named, whatever the mix |
| Attachments.BatchAcceptsPrefix | app/createTask.tsx:452-520 | accepted files are the first acceptable ones in order; when more are acceptable than places, exactly the places are filled |
| Attachments.SingleIsBatchOfOne | app/createTask.tsx:355-520 | the camera path and a gallery batch of one add the same entry |
| Attachments.Uploaded | app/createTask.tsx:664-670 | the success entry is the original spread (id, uri, name, type, size, error kept) with uploaded, not uploading, and the server's path and name |
| Attachments.FailureText | app/createTask.tsx:749 | the recorded error is the message, or "Upload gagal" when the message is empty |
| Attachments.Failed | app/createTask.tsx:744-751 | the failure entry keeps id, uri, name, type, size and paths and is not uploaded, with the error text |
| Attachments.MarkUploaded | app/createTask.tsx:684-706 | same length and ids; only the entry with the upload's id is replaced; no change if the id is gone |
| Attachments.MarkFailed | app/createTask.tsx:742-752 | same length and ids; only the entry with the id is marked failed; no change if the id is gone |
| Attachments.Settle | app/createTask.tsx:664-751 | the entry one completion leaves: the success entry or the failure entry |
| Attachments.Apply | app/createTask.tsx:684-752 | one completion applied to a list: marked uploaded or marked failed by id |
| Attachments.ApplyAll | app/createTask.tsx:684-762 | applying completions keeps the list length |
| Attachments.UploadCompletion | app/createTask.tsx:575-719 | success iff the server stored the file, carrying the original entry; an unreachable server, a non-OK status (with status and body), a refusal (the server's message or "Upload failed") and a thrown error each yield their own message |
| Attachments.UploadOutcome | app/createTask.tsx:655-752 | the settled entry is uploaded iff the file was stored, with the server's path and name; otherwise it carries a non-empty error |
| Attachments.ApplyAllPointwise | app/createTask.tsx:684-706 | with one completion per upload, each entry ends as its own completion leaves it, and one without a completion is untouched |
| Attachments.ArrivalOrderIrrelevant | app/createTask.tsx:684-706 | the final list does not depend on the order in which distinct completions arrive |
| Attachments.SnapshotFailureLosesSuccess | app/createTask.tsx:742-762 | a failure written from the stale snapshot undoes a success applied just before |
| Attachments.HasIdCons | app/createTask.tsx:789 | an id is in a list iff it heads it or is in its tail |
| Attachments.DistinctCons | app/createTask.tsx:807 | distinct ids iff the tail is distinct and does not repeat the head's id |
| Attachments.WithoutId | app/createTask.tsx:807 | `filter`: keeps order, keeps exactly the entries with other ids with their multiplicity, no change for an absent id |
| Attachments.WithoutIdDistinct | app/createTask.tsx:807 | with distinct ids, deleting a present id removes exactly one entry and keeps ids distinct |
| Attachments.FindImage | app/createTask.tsx:789 | none iff no entry has the id; otherwise the first entry of the list with that id |
| Attachments.RemoteDeletePath | app/createTask.tsx:828-843 | the server copy is deleted iff the entry was uploaded and has a storage path |
| Attachments.DecideDelete | app/createTask.tsx:776-846 | not found iff the id is absent; otherwise the list without every entry of that id, and the remote path of the first such entry, which `find` returns |
| Uploader.ImageUploader.constructor | app/createTask.tsx:226-247 | empty list and snapshot, the given limits |
| Uploader.ImageUploader.Render | app/createTask.tsx:242-248 | the prop and the ref catch up with the parent's list |
| Uploader.ImageUploader.Replace | app/createTask.tsx:1102-1134 | the parent's list is replaced; the snapshot waits for the next render |
| Uploader.ImageUploader.AddImage | app/createTask.tsx:352-437 | the single-add decision on the rendered count; on success the list becomes the rendered list plus the entry |
| Uploader.ImageUploader.AddFromGallery | app/createTask.tsx:314-572 | the batch scan with the rendered count's places left; the rendered list plus the accepted entries, or no change when none is accepted |
| Uploader.ImageUploader.FinishUpload | app/createTask.tsx:575-773 | as written: a success transforms the parent's current list, a failure writes the transformed snapshot |
| Uploader.ImageUploader.FinishUploadCorrected | app/createTask.tsx:684-706 | every completion transforms the parent's current list |
| Uploader.ImageUploader.Delete | app/createTask.tsx:776-846 | the delete decision on the rendered list; the list becomes the filtered snapshot when found |
| Uploader.ImageUploader.ConfirmDelete | app/createTask.tsx:897-941 | a deletion happens iff the user confirms and the id is in the rendered list; otherwise nothing changes |
| Resolver.Resolve | app/createTask.tsx:1220-1323 | skipped iff no sub-activity; UPDATE iff a successful answer holds at least one record, seeded from the first; CREATE on every other path |
| Resolver.SeededId | app/createTask.tsx:1347 | the id `existing_<index>_<now>` of a seeded entry |
| Resolver.SeedImage | app/createTask.tsx:1345-1356 | a stored file becomes an uploaded entry at its stored path, id `existing_<index>_<now>`, name from the file or `file_<index>` |
| Resolver.SeedImages | app/createTask.tsx:1345-1357 | one seeded entry per stored file, in order |
| Resolver.SeededIdsDistinct | app/createTask.tsx:1347 | seeded ids are pairwise distinct and nothing is uploading |
| Resolver.Populate | app/createTask.tsx:1326-1361 | progress and notes always set; coordinates as `lat, lng` when stored, else kept; images seeded when `file` is an array, else kept |
| Resolver.Seed | app/createTask.tsx:1264-1374 | no lookup leaves the form; CREATE clears it; UPDATE populates it from the record |
| Resolver.SeedIdempotent | app/createTask.tsx:1326-1374 | applying the same resolution twice equals applying it once |
| Resolver.FailedLookupClears | app/createTask.tsx:1264-1319 | errors, non-OK statuses, `success` false, non-array or empty data all clear the form |
| Resolver.UpdateSeedsUploadedList | app/createTask.tsx:1292-1357 | UPDATE with stored files yields one uploaded entry per file, with distinct ids |
| Resolver.ConcreteLookups | app/createTask.tsx:1264-1361 | a 404 clears a filled form; a stored record with one file seeds progress, notes, kept coordinates and one entry |
| Submission.Submittable | app/createTask.tsx:1599 | an entry is sent when it is uploaded and has a non-empty storage name and path |
| Submission.UploadedFiles | app/createTask.tsx:1598-1603 | never more than the list; every submittable entry is sent and only submittable entries are sent |
| Submission.UploadedFilesAppend | app/createTask.tsx:1598-1603 | the filter-map distributes over concatenation |
| Submission.PendingEntryNotSent | app/createTask.tsx:1599 | an entry pending, failed or without path adds nothing to the payload |
| Submission.ResubmitKeepsStoredFiles | app/createTask.tsx:1343-1603 | round trip: submitting the list seeded from a stored record sends back exactly its files that have a name and a path |
| Submission.Assemble | app/createTask.tsx:1576-1621 | checks in order (project, activity, sub-activity); ready iff all are set, with the fixed user, the date, trimmed notes and the uploaded files |
| Submission.BlockingMessage | app/createTask.tsx:1577-1588 | the exact alert of each missing level: "Pilih proyek terlebih dahulu", "Pilih kegiatan terlebih dahulu", "Pilih sub kegiatan terlebih dahulu" |
| Submission.FailurePrefix | app/createTask.tsx:1667-1669 | the failure alert starts "Laporan gagal diperbarui." in UPDATE mode and "Laporan gagal dibuat." otherwise |
| Submission.SubmitResultOf | app/createTask.tsx:1635-1674 | saved iff the upsert answered with success, worded by the mode; every failure is the mode's prefix, " Silakan coba lagi.", and a detail: the thrown text, "HTTP error! status: " and the status, or the server's message with "Failed to upsert daily progress" as fallback |
| Submission.ConcretePayload | app/createTask.tsx:1598-1603 | from an uploaded and a failed entry only the uploaded one is sent |
| TaskScreen.CatalogOf | app/createTask.tsx:1170-1214 | the served catalog on success, the demonstration catalog on every other path |
| TaskScreen.CreateTaskScreen.constructor | app/createTask.tsx:1082-1163 | empty selections and form, loading, CREATE mode, today's date, limits 5 and 5 MB |
| TaskScreen.CreateTaskScreen.LoadCatalog | app/createTask.tsx:1170-1214 | the catalog as decided, loading cleared; selections, form, mode and the other flags untouched |
| TaskScreen.CreateTaskScreen.OnProjectChange | app/createTask.tsx:1559-1563 | lower selections cleared, the cascade is consistent; form, mode, catalog and flags untouched |
| TaskScreen.CreateTaskScreen.OnActivityChange | app/createTask.tsx:1565-1568 | sub-activity cleared; consistent when the activity is offered; form, mode, catalog and flags untouched |
| TaskScreen.CreateTaskScreen.SelectSubActivity | app/createTask.tsx:1570-1574 | the selection is taken and a non-empty id raises the lookup flag; consistent when the sub-activity is offered; everything else untouched |
| TaskScreen.CreateTaskScreen.SettleLookup | app/createTask.tsx:1220-1374 | as written: the form becomes the seeded form of the answered lookup and the mode follows its resolution, whatever is selected by then; lookup flag cleared; selections, catalog and other flags untouched |
| TaskScreen.CreateTaskScreen.SettleLookupCorrected | app/createTask.tsx:1220-1374 | an answer for a sub-activity no longer selected changes nothing; an answer for the current one settles as written |
| TaskScreen.StaleAnswerRace | app/createTask.tsx:1220-1574 | sub001 then sub002 picked, sub002's 404 first, sub001's record last: UPDATE mode with sub001's record while sub002 stays selected |
| TaskScreen.StaleAnswerIgnored | app/createTask.tsx:1220-1574 | the same sequence with the corrected step leaves CREATE mode and the empty form |
| TaskScreen.CreateTaskScreen.BeginSubmit | app/createTask.tsx:1576-1603 | the submission assembled from the selections, the note and the files of the rendered attachment list; the mode of that render returned for the alert; submitting raised exactly when ready; form, selections, mode, catalog and the other flags untouched |
| TaskScreen.CreateTaskScreen.FinishSubmit | app/createTask.tsx:1639-1677 | the alert of the answer in the mode captured when submit was tapped; submitting cleared on every path; form, selections, mode, catalog and the other flags untouched |
| TaskScreen.ModeCapturedAtTap | app/createTask.tsx:1220-1677 | a lookup that turns the screen to UPDATE mode while the upsert is in flight leaves the alert worded for CREATE, the mode of the tap |
| DailyQuery.Sent | hooks/useDailySubActivities.ts:103 | a value is sent unless it is `undefined`, `null` or `""` |
| DailyQuery.Rendered | hooks/useDailySubActivities.ts:104 | `toString` of a sent value is never empty |
| DailyQuery.Query | hooks/useDailySubActivities.ts:102-106 | never more pairs than entries |
| DailyQuery.QueryPairs | hooks/useDailySubActivities.ts:102-106 | no empty values; every sent entry appears as its pair and every pair comes from a sent entry |
| DailyQuery.EmptyParamOmitted | hooks/useDailySubActivities.ts:103 | with unique keys, an undefined, null or empty value leaves no pair with its key |
| DailyQuery.BuildQuery | hooks/useDailySubActivities.ts:99-106 | the `forEach` loop computes exactly the query specification |
| DailyQuery.Classify | hooks/useDailySubActivities.ts:114-130 | the answer iff it says success; each failure path with its own message |
| DailyQuery.OwnFailuresHaveMessages | hooks/useDailySubActivities.ts:114-122 | a failure the hook raises itself always carries a non-empty message |
| DailyQuery.DailyActivitiesFetcher.constructor | hooks/useDailySubActivities.ts:88-89 | not loading, no error |
| DailyQuery.DailyActivitiesFetcher.Begin | hooks/useDailySubActivities.ts:95-106 | loading, error cleared, the query of the parameters |
| DailyQuery.DailyActivitiesFetcher.Settle | hooks/useDailySubActivities.ts:114-133 | the answer on success with the error kept; `null` and the message otherwise; never loading afterwards |
| History.RequestParams | app/dailyActivities.tsx:272-284 | the `params` object: the fixed paging and sorting entries, then each set filter and the trimmed search, in key order |
| History.SearchParam | app/dailyActivities.tsx:283 | the search entry: the trimmed text, only when it is not blank |
| History.FixedParams | app/dailyActivities.tsx:273-277 | page, limit 20, sortBy updatedAt and sortOrder desc, in that order |
| History.IfSet | app/dailyActivities.tsx:279-283 | the conditional spread: the entry only when its value is non-empty |
| History.QueryAppend | hooks/useDailySubActivities.ts:102-106 | the query of concatenated parameters is the concatenation of the queries |
| History.QueryOfIfSet | app/dailyActivities.tsx:279-283 | a conditional spread yields its pair exactly when the value is set |
| History.QueryOfOne | hooks/useDailySubActivities.ts:102-106 | one entry yields its pair exactly when it is sent |
| History.FixedQuery | app/dailyActivities.tsx:273-278 | the paging and sorting pairs page, limit 20, sortBy updatedAt, sortOrder desc, in that order |
| History.RequestQuery | app/dailyActivities.tsx:273-284 | the query sent: the fixed pairs, then each id filter only when set, then the trimmed search only when not blank |
| History.ProjectFilterSent | app/dailyActivities.tsx:279 | a load with a project selected filters by it |
| History.ClearedFiltersSendPagingOnly | app/dailyActivities.tsx:273-284 | a load with every filter cleared sends the paging and sorting pairs only |
| History.FreshRecords | app/dailyActivities.tsx:306-309 | the page's records whose id is not in the list, in page order, and exactly those with their multiplicity |
| History.MergePage | app/dailyActivities.tsx:305-311 | the previous list is a prefix and the rest is the unseen records of the page |
| History.FreshRecordsOfKnown | app/dailyActivities.tsx:306-309 | a page of known ids adds nothing |
| History.MergePageTwice | app/dailyActivities.tsx:305-311 | receiving the same page twice equals receiving it once |
| History.DuplicatesWithinPageKept | app/dailyActivities.tsx:306-310 | a record repeated inside one new page is added twice: only the previous list is checked |
| History.ApplyPage | app/dailyActivities.tsx:296-311 | page 1 or a reset replaces the list; any other page merges |
| History.NextPage | app/dailyActivities.tsx:450-458 | a next page iff pagination is known, there is a later page and no load-more is running; it is the following page |
| History.HistoryScreen.constructor | app/dailyActivities.tsx:223-246 | empty lists, no filters, no pagination, not loading |
| History.HistoryScreen.LoadProjects | app/dailyActivities.tsx:249-259 | the projects are replaced only when the hook returned a result; everything else untouched |
| History.HistoryScreen.OnProjectChange | app/dailyActivities.tsx:393-405 | lower filters cleared; the activity list of the chosen project, sub-activities emptied; list, projects, pagination and flags untouched |
| History.HistoryScreen.OnActivityChange | app/dailyActivities.tsx:408-418 | sub-activity filter cleared; the sub-activity list of the chosen activity; list, projects, pagination and flags untouched |
| History.HistoryScreen.OnSubActivityChange | app/dailyActivities.tsx:421-423 | only the sub-activity filter changes; lists, pagination and flags untouched |
| History.HistoryScreen.OnSearchChange | app/dailyActivities.tsx:590 | only the search text changes; lists, pagination and flags untouched |
| History.HistoryScreen.StartLoad | app/dailyActivities.tsx:262-284 | the load-more flag for anything but a plain page 1; the call carries the current filters; nothing else changes |
| History.HistoryScreen.FinishLoad | app/dailyActivities.tsx:288-381 | on a result the list is replaced or merged by page, pagination stored and the length ref kept equal; flags cleared on every path; filters and option lists untouched |
| History.HistoryScreen.LoadMore | app/dailyActivities.tsx:442-459 | a call iff the guard allows it, for the following page with the current filters; list, filters, pagination, refresh flag and option lists untouched |
| History.HistoryScreen.FilterEffect | app/dailyActivities.tsx:533-536 | each run requests the project catalog and starts a plain page-1 load with the filters of the new render; nothing else changes |
| History.HistoryScreen.ApplyFilters | app/dailyActivities.tsx:426-428 | a reset page-1 load with the current filters; list, filters, pagination, refresh flag and option lists untouched |
| History.HistoryScreen.Refresh | app/dailyActivities.tsx:462-465 | refreshing raised and a reset page-1 load with the current filters; list, filters, pagination and option lists untouched |
| History.HistoryScreen.ClearFilters | app/dailyActivities.tsx:431-439 | as written: filters and option lists emptied, and the reset load carries the previous filters; list, projects, pagination and refresh flag untouched |
| History.HistoryScreen.ClearFiltersCorrected | app/dailyActivities.tsx:431-439 | filters emptied and the reset load carries the cleared filters; list, projects, pagination and refresh flag untouched |

## Left out

- Floating-point values are not modelled:
  - the parsed progress (`parseFloat(progress) || 0`) and the dummy coordinates of the payload;
  - the size shown in MB in alerts;
  - the numeric fields of `Project`, `SubActivity` and `DailySubActivity`. The catalog keeps them as `real` literals that no operation reads.
- `DailySubActivity`'s nested `subActivity`, `activity`, `project` and `user` objects are flattened to the names the history shows.
- Alerts, console logging, permissions, the image pickers and the rendering (highlighting, list items, scroll restoration with `requestAnimationFrame`) are left out. The screens' only dependence on them is the user's answer, which `ConfirmDelete` takes as a parameter.
- Network requests are outcome parameters:
  - the upload (`UploadResponse`);
  - the connectivity probe;
  - the existing-record lookup (`LookupOutcome`);
  - the catalog (`CatalogOutcome`);
  - the upsert (`UpsertOutcome`);
  - the history list (`FetchOutcome`).

  `deleteImageFromServer` is reduced to the path it is called with. Its own request and outcome are ignored by the screen, so they are left out.
- The form encoding that `URLSearchParams` applies to keys and values is not modelled. `Query` yields the pairs before encoding.
- `Date.now`, `Math.random` and `getTodayDate` are parameters: the ids passed to `AddImage`/`AddFromGallery`, the `now` of seeded ids, and the `today` of the form's constructor. Seeded ids use one clock reading for the whole list.
- The picker's `selectionLimit` is not modelled. The batch scan enforces the same bound itself.
- Asynchronous interleavings are modelled only through explicit `Render` steps and the order in which methods are called. The model does not explore every schedule.
- `Js.Lower`: `toLowerCase` is modelled for ASCII letters only.
- `TaskScreen.CreateTaskScreen.LoadCatalog`: the retry offered in the connection alert is another call of the same method and has no contract of its own.
- The `isLoading`/`error` state of `useProjects` (hooks/useProjects.ts) is not part of this model. Only its types and the `null`-on-failure result that `LoadProjects` takes are.
- `History.HistoryScreen.FinishLoad`: the `catch` branch of `loadDailyActivities` is not modelled separately. The hook returns `null` instead of throwing, so only the `finally` flag reset is reachable, and the model has it.

## Findings

| source | as written | input that shows it | evidently intended | confidence | as-written member | corrected member |
|---|---|---|---|---|---|---|
| app/createTask.tsx:742-762 | a failed upload writes the list derived from `imagesRef.current`, the snapshot of the last render | two entries a and b uploading; a's success is applied as a functional update, then b fails before the next render: the written list has a not uploaded again | the failure is a functional update of the current list, like the success, so completions commute | low-medium, depends on timing, not executed | Uploader.ImageUploader.FinishUpload, Attachments.SnapshotFailureLosesSuccess | Uploader.ImageUploader.FinishUploadCorrected, Attachments.ArrivalOrderIrrelevant |
| app/createTask.tsx:1570-1574 | `handleSubActivityChange` starts a lookup that is never cancelled, and its answer is applied whatever is selected when it arrives | sub001 then sub002 picked; sub002's lookup answers 404 first, then sub001's answers with a stored record: the form shows sub001's record in UPDATE mode while sub002 is selected | an answer for a sub-activity that is no longer selected is dropped | medium (needs the first answer to be the slower one), not executed | TaskScreen.StaleAnswerRace, TaskScreen.CreateTaskScreen.SettleLookup | TaskScreen.CreateTaskScreen.SettleLookupCorrected, TaskScreen.StaleAnswerIgnored |
| app/dailyActivities.tsx:431-439 | `clearFilters` calls the load callback of the render before the clear, so its reset load still sends the old filters | project p selected, Clear pressed: the reset load sends `projectId=p` | the reset load sends no filter | medium (the effect's later plain load uses the cleared filters, so the stale request races it), not executed | History.HistoryScreen.ClearFilters, History.ProjectFilterSent | History.HistoryScreen.ClearFiltersCorrected, History.ClearedFiltersSendPagingOnly |
