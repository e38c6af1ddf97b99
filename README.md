# DropZone upload pipeline in Dafny

This project models the client-side upload pipeline of the DropZone web
application, from selecting files to the final upload summary:

- the **upload service**: file validation against the configured size and
  type limits, MIME-type categories and the category filter, the list of
  supported extensions, the image preview hook, and the simulated single
  and batch uploads;
- the **drop zone**: it turns a dropped or browsed selection into queue
  entries, and guards against drops while disabled, drops while busy, and
  drops over `maxFiles`;
- the **upload controls**: the batch upload that takes every pending entry
  through `uploading` to `success` or `error`, its success tally and
  overall progress, and the clear-all and retry handlers;
- the **home page**: it owns the `files` list and appends selections,
  removes entries, auto-clears successes after a clean batch, and keeps the
  displayed list in step with the category filter;
- the **file row**: its type icon, status colour and status icon, and when
  the remove button, progress read-out and error line are shown;
- the **hosted file field**: its props check, the 50-attempt readiness
  poll, the record conversions between the library's capitalised field
  names and the page's lower-case ones, the two `getFiles`, and retry.

## How the model is organised

Each source file has its own module:

| module | file | form |
|---|---|---|
| `Service` | `src/services/api/uploadService.js` | functions, plus class `UploadService` whose loops are methods |
| `DropZone` | `src/components/organisms/FileDropZone.jsx` | class `FileDropZone` |
| `Controls` | `src/components/organisms/UploadControls.jsx` | class `UploadControls` |
| `HomePage` | `src/components/pages/Home.jsx` | class `Home` |
| `Preview` | `src/components/molecules/FilePreview.jsx` | functions |
| `FileField` | `src/components/atoms/FileUploader/ApperFileFieldComponent.jsx` | class `ApperFileField` |

Helper modules hold shared definitions: `Model` (file handles, entries,
configuration, and the home page's `files` state as class `FilesCell`),
`Seqs` (order-preserving `filter`), `Strings` (prefix and substring tests,
decimal text, string order), `Arith` (the integer quotient behind the
overall-progress formula) and `Wrappers` (`Option`).

The model works as follows:

- Component state that a handler updates is a class field, and each
  handler is a method.
- The home page's `files` state is one `FilesCell` object, shared by the
  page and the upload controls. `onFilesUpdate` is an assignment to it.
- The random numbers and timers of the simulated upload are inputs. Each
  upload receives a `Transport` record holding:
  - the progress increments of the ticks that fire;
  - whether the 10% failure draw hits;
  - the result's id, clock reading and URL.
- The fresh ids and the FileReader results of a selection are also inputs.

Where the code and the design description disagree, the model follows the
code:

- The batch upload marks every pending entry `uploading` in one update,
  before the first upload starts. The entries therefore do not become
  `uploading` one at a time.
- The overall progress of the upload controls advances only when an upload
  succeeds. A failed upload leaves it where it was.
- Only the drop path checks `maxFiles`. A browsed selection of any size is
  accepted.
- After a retry, the pending entries are the former error entries plus the
  entries that were already pending (`Controls.RetryCounts`).
- Removing an entry is refused only through the row: the row hides its
  remove button while the entry uploads, but `handleRemoveFile` itself
  removes any entry.
- `generatePreview` resolves `null` when reading fails. The drop zone
  treats a rejection the same way. Both give no preview (`None`).

## Model

| member | source | states |
|---|---|---|
| `Service.SizeLimitTextValue` | src/services/api/uploadService.js:25 | the limit text is a decimal number, a point and one digit, and it reads back as the limit in tenths of a MiB, rounded half up (`toFixed(1)`) |
| `Service.TenMiBLimitText` | src/services/api/uploadService.js:25-26 | a 10 MiB limit is shown as "10.0" |
| `Service.SizeAndTypeErrorsDiffer` | src/services/api/uploadService.js:26-31 | the size message and the type message are always different strings |
| `Service.ValidateSpec` | src/services/api/uploadService.js:20-38 | there is a size error iff the file is over the limit, and a type error iff its type is not allowed; the size error comes first, there is nothing else, and the file is valid iff there are no errors |
| `Service.UploadService.ValidateFile` | src/services/api/uploadService.js:20-38 | the method that pushes messages one by one computes exactly `Validate` |
| `Service.GetFileCategory` | src/services/api/uploadService.js:41-52 | each category holds exactly when its rule is the first that matches: image, video and audio prefixes, then the document words, then "zip", then other |
| `Service.FilterFilesByCategory` | src/services/api/uploadService.js:182-201 | "all" is the identity; any other filter keeps, in order and with multiplicities, exactly the entries of its category; an unknown filter keeps nothing |
| `Service.CollectExtensionsMembers` | src/services/api/uploadService.js:171-176 | an extension is collected iff some allowed type maps to it |
| `Service.UploadService.GetSupportedExtensions` | src/services/api/uploadService.js:143-179 | the result is strictly sorted (so it has no duplicates) and contains exactly the extensions of the allowed types |
| `Service.GeneratePreview` | src/services/api/uploadService.js:55-67 | no preview for a non-image type; for an image, what the reader delivers, or none when reading fails |
| `Service.OutcomeSpec` | src/services/api/uploadService.js:84-116 | an upload succeeds iff the file is valid and the failure draw misses; an invalid file fails with its first validation message, and a valid one fails only with the network error; a result describes the uploaded file |
| `Service.CappedBoundsAndGrows` | src/services/api/uploadService.js:90-95 | with non-negative increments, the capped progress never decreases and stays within 0..95 |
| `Service.TickValuesOrdered` | src/services/api/uploadService.js:92-94 | the tick values passed to `onProgress` are within 0..95 and never go back |
| `Service.ProgressEventsSpec` | src/services/api/uploadService.js:84-102 | an invalid file reports no progress; otherwise there is one value per tick and then 100; every value before the last is at most 95, and the values never decrease |
| `Service.UploadService.UploadFile` | src/services/api/uploadService.js:81-117 | the loop reports exactly `ProgressEvents`, and the upload settles exactly as `Outcome` says |
| `Service.FileReports` | src/services/api/uploadService.js:128-130 | file `i` forwards one report per file progress value, carrying `floor((i*100 + p) / total)`, its index and its name |
| `Service.FileReportsBounds` | src/services/api/uploadService.js:128-130 | file `i`'s reports are ordered, and lie between the overall progress at the start of file `i` and at the start of file `i + 1` (at most 100) |
| `Service.ExtendReports` | src/services/api/uploadService.js:124-137 | appending one file's reports keeps the batch's reports ordered and about the files done so far |
| `Service.BatchEvents` | src/services/api/uploadService.js:127-130 | the progress list of each file of the batch is that file's `ProgressEvents`, within 0..100 and never going back |
| `Service.BatchStreamReports` | src/services/api/uploadService.js:124-137 | the reports of the first `n` files, concatenated in file order, are percentages naming those files, never go back, and end by the overall progress at the start of file `n` |
| `Service.UploadService.UploadOne` | src/services/api/uploadService.js:127-136 | one iteration yields the file's own result item, and forwards exactly the file's progress values as overall reports (`FileStream`), each within the file's share of the progress |
| `Service.UploadService.UploadFiles` | src/services/api/uploadService.js:120-140 | every file gets its own result, in input order, whatever happened to the others; the reports are exactly the files' forwarded reports one file after the other (`BatchStream` over each file's `ProgressEvents`); every report is a percentage naming one of the files, and the reports never go back in progress or in file index |
| `Arith.OverallProgressBounds` | src/services/api/uploadService.js:129-130 | the overall progress grows with the file progress, and stays between its values at the start of file `i` and at the start of file `i + 1`, at most 100 |
| `DropZone.NewEntrySpec` | src/components/organisms/FileDropZone.jsx:29-51 | a new entry is pending iff its file is valid, and otherwise is an error carrying the first validation message (the size message when the file is too large); it copies the file's fields, starts at progress 0, has a preview only when it is a valid image, and is well-formed |
| `DropZone.NewEntries` | src/components/organisms/FileDropZone.jsx:27-54 | one entry per file, in selection order |
| `DropZone.NewEntriesSpec` | src/components/organisms/FileDropZone.jsx:27-54 | fresh ids give the entries of a selection unique ids; all of them are well-formed, and exactly the invalid files become error entries |
| `DropZone.FileDropZone.constructor` | src/components/organisms/FileDropZone.jsx:8-17 | the zone keeps its service and its `maxFiles` and `disabled` props, and starts neither highlighted nor processing |
| `DropZone.FileDropZone.ProcessFiles` | src/components/organisms/FileDropZone.jsx:20-69 | does nothing while disabled or processing; otherwise delivers exactly `NewEntries` of the selection and ends not processing |
| `DropZone.FileDropZone.HandleDragOver` | src/components/organisms/FileDropZone.jsx:71-77 | highlights the zone unless it is disabled or busy |
| `DropZone.FileDropZone.HandleDragLeave` | src/components/organisms/FileDropZone.jsx:79-83 | clears the highlight |
| `DropZone.FileDropZone.HandleDrop` | src/components/organisms/FileDropZone.jsx:85-100 | clears the highlight; a selection is delivered iff the zone is enabled and idle and the drop holds at most `maxFiles` files; what is delivered is `NewEntries` |
| `DropZone.FileDropZone.HandleFileSelect` | src/components/organisms/FileDropZone.jsx:102-114 | a selection is delivered iff the zone is enabled and idle and the selection is not empty, with no limit on its size |
| `Controls.UpdateById` | src/components/organisms/UploadControls.jsx:47-53 | the entries with the id are updated and every other entry is unchanged; the length is kept |
| `Controls.MarkUploadingSpec` | src/components/organisms/UploadControls.jsx:35-40 | every pending entry becomes the same entry with status uploading and progress 0, every other entry is unchanged, the length is kept, and no entry is left pending |
| `Controls.SetProgress` | src/components/organisms/UploadControls.jsx:46-54 | only the `progress` field of the entries with that id changes |
| `Controls.Succeed` | src/components/organisms/UploadControls.jsx:60-71 | the entries with the id become success at 100 with their upload time, and nothing else changes |
| `Controls.Fail` | src/components/organisms/UploadControls.jsx:80-91 | the entries with the id become error at 0 with the failure's message, and nothing else changes |
| `Controls.ApplyEventsKeepsLast` | src/components/organisms/UploadControls.jsx:46-54 | a run of progress callbacks leaves only the last value behind |
| `Controls.SettleAbsorbsProgress` | src/components/organisms/UploadControls.jsx:46-91 | settling an upload overwrites whatever progress its callbacks left |
| `Controls.Successes` | src/components/organisms/UploadControls.jsx:73 | the success count never exceeds the number of uploads |
| `Controls.SuccessesExtremes` | src/components/organisms/UploadControls.jsx:73 | the count equals the number of uploads iff each one succeeded, and is 0 iff none did |
| `Controls.PercentBounds` | src/components/organisms/UploadControls.jsx:74 | the overall progress is a percentage that grows with every success and reaches 100 iff every upload succeeded |
| `Controls.IndexOfId` | src/components/organisms/UploadControls.jsx:43 | finds the first snapshot position that holds the id |
| `Controls.PendingSnapshotIds` | src/components/organisms/UploadControls.jsx:19 | in a list with unique ids, each entry of the pending snapshot is the one entry of the list with its id |
| `Controls.ProcessedEntries` | src/components/organisms/UploadControls.jsx:35-93 | after the first `k` uploads, exactly those entries have settled, each by its own outcome; other pending entries are uploading at 0, and entries that were not pending are untouched |
| `Controls.EntryAfterBatch` | src/components/organisms/UploadControls.jsx:43-93 | once the batch has settled, an entry keeps its id and file, is no longer pending, and stays well-formed |
| `Controls.BatchResult` | src/components/organisms/UploadControls.jsx:35-93 | after the batch no entry is pending; ids, files and order are those from before; ids stay unique, and well-formed entries stay well-formed |
| `Controls.RetryErrors` | src/components/organisms/UploadControls.jsx:132-136 | every error entry goes back to pending, with no message, at 0; the other entries, the length and the order are unchanged |
| `Controls.RetryCounts` | src/components/organisms/UploadControls.jsx:128-140 | after a retry no entry is in error; the pending count grows by the former error count, and the uploading and success lists are unchanged |
| `Controls.RetryKeepsWellFormed` | src/components/organisms/UploadControls.jsx:132-136 | a retry keeps entries well-formed |
| `Controls.UploadControls.constructor` | src/components/organisms/UploadControls.jsx:10-17 | the controls share the page's `files` state and service, and start not uploading with the overall progress at 0 |
| `Controls.UploadControls.HandleUpload` | src/components/organisms/UploadControls.jsx:24-120 | a no-op while a batch runs or when nothing is pending; otherwise the list ends as the batch leaves it, the summary is (pending, successes, pending − successes), the progress bar takes the percentages after 0, 1, 2, … successes, and both flags are reset |
| `Controls.UploadControls.UploadPending` | src/components/organisms/UploadControls.jsx:31-93 | marks the pending entries, then uploads them in snapshot order, counting the successes and showing each new overall progress |
| `Controls.UploadControls.UploadNext` | src/components/organisms/UploadControls.jsx:44-91 | one pass settles the `k`-th upload, counts it only on success, and shows the new progress only then |
| `Controls.UploadControls.UploadEntry` | src/components/organisms/UploadControls.jsx:46-91 | the upload's progress goes to the entry with its id, and the entry then ends settled by the upload's outcome |
| `Controls.UploadControls.HandleClearAll` | src/components/organisms/UploadControls.jsx:122-126 | empties the list unless a batch is running |
| `Controls.UploadControls.HandleRetryErrors` | src/components/organisms/UploadControls.jsx:128-140 | a no-op while a batch runs or when nothing is in error; otherwise the retry update |
| `Model.StatusCountsPartition` | src/components/organisms/UploadControls.jsx:19-22 | the four status lists together account for every entry exactly once |
| `Model.WithStatusMembers` | src/components/organisms/UploadControls.jsx:19-22 | a status list holds exactly the entries with that status |
| `HomePage.MaxFilesPropSpec` | src/components/pages/Home.jsx:141 | the drop zone's limit is the configured one when that is set, and 10 otherwise |
| `HomePage.AppendKeepsUniqueIds` | src/components/pages/Home.jsx:50-52 | appending a selection with fresh ids keeps ids unique |
| `HomePage.RemoveByIdSpec` | src/components/pages/Home.jsx:54-57 | removal keeps exactly the entries with another id, in order and each as many times as before, and drops every entry with the id |
| `HomePage.RemoveByIdKeepsIds` | src/components/pages/Home.jsx:55 | removal keeps ids unique, and removing an id no entry has changes nothing |
| `HomePage.RemoveByIdAt` | src/components/pages/Home.jsx:55 | with unique ids, removing the id of the entry at `k` takes out that entry and nothing else |
| `HomePage.PruneSuccessesSpec` | src/components/pages/Home.jsx:65 | the auto-clear drops exactly the successful entries; the pending, uploading and error lists are unchanged, and the list shrinks by the number of successes |
| `HomePage.PruneAfterCleanBatch` | src/components/pages/Home.jsx:59-68 | for a batch's summary, the auto-clear is scheduled iff the batch was not empty and every upload succeeded |
| `HomePage.DisplayedFiles` | src/components/pages/Home.jsx:41-48 | the displayed list is the category filter's result, with "all" showing everything |
| `HomePage.Home.constructor` | src/components/pages/Home.jsx:14-16 | the page starts with an empty list under the "all" filter; its children share its service and `files` state, and the drop zone gets the `maxFiles` prop |
| `HomePage.Home.SyncFilter` | src/components/pages/Home.jsx:41-48 | afterwards the displayed list is the filtered list |
| `HomePage.Home.SetActiveFilter` | src/components/pages/Home.jsx:161-162 | changing the filter re-synchronises the displayed list |
| `HomePage.Home.HandleFilesSelected` | src/components/pages/Home.jsx:50-52 | the selection goes after the entries already listed |
| `HomePage.Home.HandleRemoveFile` | src/components/pages/Home.jsx:54-57 | the list becomes `RemoveById` of the old list |
| `HomePage.Home.HandleUploadComplete` | src/components/pages/Home.jsx:59-68 | an auto-clear timer starts iff something succeeded and nothing failed |
| `HomePage.Home.PruneTimerFires` | src/components/pages/Home.jsx:64-66 | when the timer fires, the successes of the list as it is then are dropped |
| `HomePage.Home.Drop` | src/components/pages/Home.jsx:139-143 | dropped files reach the end of the list iff the zone is idle and the drop is within `maxFiles` |
| `HomePage.Home.Browse` | src/components/pages/Home.jsx:139-143 | browsed files reach the end of the list iff the zone is idle and the choice is not empty |
| `HomePage.Home.Upload` | src/components/pages/Home.jsx:167-173 | a batch runs iff something is pending and no batch is running; its summary counts its successes, and an auto-clear is scheduled iff the batch was clean |
| `Preview.IconFollowsCategory` | src/components/molecules/FilePreview.jsx:6-16 | the media icons mark exactly the media categories, an archive or unclassified type gets its own icon, and every office icon marks a document |
| `Preview.WorkbookGetsTextIcon` | src/components/molecules/FilePreview.jsx:11-12 | the Excel 2007 workbook type gets the text icon, not the calculator, because the word rule catches "officedocument" first |
| `Preview.PlainTextGetsFileIcon` | src/components/molecules/FilePreview.jsx:6-16 | plain text gets the generic file icon, yet is filed as a document |
| `Preview.StatusStylesDistinct` | src/components/molecules/FilePreview.jsx:18-42 | each status has its own colour and its own icon |
| `Preview.RowVisibility` | src/components/molecules/FilePreview.jsx:57-135 | the row takes its status's colour and icon; the progress bar shows iff the entry is uploading, with the entry's progress; the remove button shows iff there is a remove handler and the entry is not uploading, so the two never show together; the icon spins exactly while the bar shows; a picture is shown iff the preview is not empty; an error line appears only on an error row and, for a well-formed entry, exactly when it has a message |
| `Preview.NewEntryRow` | src/components/molecules/FilePreview.jsx:57-135 | a rejected file's row shows its first message; a valid file's row shows no error, no bar and the clock icon; a valid image with a decoded picture shows the picture |
| `FileField.Or` | src/components/atoms/FileUploader/ApperFileFieldComponent.jsx:146-152 | the logical or of two values is the first when it is truthy and the second otherwise |
| `FileField.DigitRun` | src/components/atoms/FileUploader/ApperFileFieldComponent.jsx:160 | the digit run that `parseInt` reads is the longest digit prefix |
| `FileField.ParseIntOfIntToString` | src/components/atoms/FileUploader/ApperFileFieldComponent.jsx:160 | reading back the text of an integer gives the integer |
| `FileField.ApiRecordToUiSpec` | src/components/atoms/FileUploader/ApperFileFieldComponent.jsx:145-153 | the converted record has only lower-case fields; a numeric id becomes its decimal text; the status is never falsy and defaults to "success"; for every field (the id as text), a truthy capitalised field is taken and a falsy one falls through to the lower-case one |
| `FileField.UiRecordToApiSpec` | src/components/atoms/FileUploader/ApperFileFieldComponent.jsx:159-167 | the converted record has only capitalised fields; the id is the parsed page id unless that is NaN or 0, in which case `Id` is kept; the status is never falsy; for every other field, a truthy lower-case field is taken and a falsy one falls through to the capitalised one |
| `FileField.ApiRoundTrip` | src/components/atoms/FileUploader/ApperFileFieldComponent.jsx:142-168 | a library record with a non-zero numeric id and every field set comes back unchanged through the page's format |
| `FileField.UiRoundTrip` | src/components/atoms/FileUploader/ApperFileFieldComponent.jsx:142-168 | a page record with a non-zero integer id and every field set comes back unchanged through the library's format |
| `FileField.ZeroIdIsLost` | src/components/atoms/FileUploader/ApperFileFieldComponent.jsx:146-160 | an id of 0 becomes "0" on the way in and is lost on the way back |
| `FileField.ConvertApiToUi` | src/components/atoms/FileUploader/ApperFileFieldComponent.jsx:142-154 | a non-array gives the empty list; otherwise one converted record per record, in order |
| `FileField.ConvertUiToApi` | src/components/atoms/FileUploader/ApperFileFieldComponent.jsx:156-168 | a non-array gives the empty list; otherwise one converted record per record, in order |
| `FileField.ApiListRoundTrip` | src/components/atoms/FileUploader/ApperFileFieldComponent.jsx:142-168 | whole lists round-trip record by record and in order |
| `FileField.PropsCheckSpec` | src/components/atoms/FileUploader/ApperFileFieldComponent.jsx:42-59 | the props pass iff the element id is truthy, a config is given and all six keys are truthy; otherwise the first failing check names the problem |
| `FileField.LoadingBarBounds` | src/components/atoms/FileUploader/ApperFileFieldComponent.jsx:195-222 | while the count is within the limit, the loading bar stays within its track, and it is full exactly at the limit |
| `FileField.ApperFileField.constructor` | src/components/atoms/FileUploader/ApperFileFieldComponent.jsx:33-36 | not loaded, no error, not mounted, no attempts |
| `FileField.ApperFileField.ValidateProps` | src/components/atoms/FileUploader/ApperFileFieldComponent.jsx:42-59 | records the first failing check's message, and leaves the error alone otherwise |
| `FileField.ApperFileField.CheckSDK` | src/components/atoms/FileUploader/ApperFileFieldComponent.jsx:62-84 | the poll stops at the first check that finds the library (loaded, no error) or after exactly 50 checks with the timeout message; the counter is the number of checks made, and the loading card is gone |
| `FileField.ApperFileField.Start` | src/components/atoms/FileUploader/ApperFileFieldComponent.jsx:42-84 | the poll's result overwrites the props check's message: the field ends loaded or timed out, whatever its props |
| `FileField.ApperFileField.MountFileField` | src/components/atoms/FileUploader/ApperFileFieldComponent.jsx:87-125 | does nothing before loading or while an error is shown; a successful mount sets the mounted flag, and a failed one shows the prefixed message |
| `FileField.ApperFileField.HandleRetry` | src/components/atoms/FileUploader/ApperFileFieldComponent.jsx:187-192 | back to the loading card with a zero count |
| `FileField.GetFilesStatic` | src/components/atoms/FileUploader/ApperFileFieldComponent.jsx:290-315 | nothing comes back when the library is missing, throws or answers with a non-list; otherwise one converted record per library record, in order, the same as the instance's `convertApiToUiFormat` |
| `FileField.ApperFileField.GetFilesSpec` | src/components/atoms/FileUploader/ApperFileFieldComponent.jsx:171-184 | returns nothing unless mounted and given a list; an error is reported iff the mounted widget's library throws; once mounted, it agrees with the static `getFiles` |

## Left out

- Timers, `Math.random`, `Date.now` and `URL.createObjectURL` are inputs
  (the `Transport` record and the clock readings), not simulated.
- The 100 ms delay before an upload, the 2–5 s duration and the 300 ms tick
  interval are left out. They decide only how many ticks fire, and that
  number is an input: the length of the increments.
- FileReader is an input: `decoded` is what reading an image yields, or
  `None` on failure.
- Id generation in the drop zone and the upload result is an input: fresh
  ids are passed in.
- Toasts, console logging, the reload after a configuration error and
  `formatFileSize` are left out. They are display only, and
  `formatFileSize` works on floating-point numbers.
- Loading the configuration (`getUploadConfig`) and its error and loading
  screens are left out. The home page is modelled from the point where the
  configuration has loaded.
- The `accept` attribute is left out. It is only a hint to the browser's
  file picker, and drops ignore it, so it restricts nothing the model
  receives.
- The browse dialog (`openFileDialog`) is left out, together with its own
  disabled and busy guard (src/components/organisms/FileDropZone.jsx:116-119).
  The model starts from the selection the dialog delivers.
- React batching, re-renders and the interleaving of asynchronous
  handlers are not modelled. Each handler runs to completion as one
  method. A drop that arrives while `processFiles` is awaiting a preview
  is modelled only through the `isProcessing` guard.
- The hosted library's `mount`, `unmount` and `getFiles` are inputs:
  `failure` and `SdkAnswer`. The container element check, the
  `mountedRef` guard and the unmount cleanup are left out.
- `FileField.ParseInt`: does not model hexadecimal prefixes, leading
  whitespace or numbers beyond the safe-integer range. The ids the page
  produces are decimal integers.
- `FileField.Value`: JavaScript numbers are modelled as integers. The
  record fields are copied, never computed with.
- `Service.UploadService.GetSupportedExtensions`: orders strings by
  character code, which agrees with JavaScript's default sort on these
  ASCII extensions.
- `Service.UploadService.GetSupportedExtensions`: looks up only the map's
  own keys. In the source, an allowed type that names a property every
  object inherits, such as "constructor", finds a function there, and
  spreading it throws; the model skips such a type instead.
- `Service.Capped`: the capped progress (src/services/api/uploadService.js:92-93)
  is an exact real, where the source adds IEEE doubles; the floors passed
  to `onProgress` may differ by rounding.
- `Controls.Percent`: the overall progress
  (src/components/organisms/UploadControls.jsx:74) is an exact real
  quotient, where the source computes it in IEEE doubles.
- `FileField.ScreenOf`: the loading bar's width
  (src/components/atoms/FileUploader/ApperFileFieldComponent.jsx:214) is
  an exact real, where the source computes it in IEEE doubles.
- `Service.SizeLimitText`: computes `toFixed(1)` with integers. This is
  exact because dividing by 1024 twice is exact in floating point below
  2^53 bytes.
- `Controls.UploadControls.HandleUpload`: the outer `catch` is left out.
  Nothing in its `try` block throws once `uploadFile`'s own failures are
  caught per file.
- `FileField.ApperFileField.HandleRetry`: states the state it resets. The
  readiness poll runs in an effect with no dependencies, so nothing in the
  component polls again after a retry. The model leaves that loop to the
  caller.
