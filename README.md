# SS-Frontend client core, modelled in Dafny

This project models the data handling of the SS-Frontend React client, a
front end for a safety-equipment (PPE) detection service. Three parts are
covered:

- the upload page. It validates and stages the files the user selects,
  shapes the upload request and mirrors its progress onto every staged
  file. It then reconciles a single-file or batch response into per-file
  progress, messages and navigation.
- the analytics page. It formats a default date range and fetches every
  image of that range page by page, with a safety bound on the offset.
  It then rolls the images up into counts, a per-label histogram and the
  first ten images.
- the history page. It manages the filters and the pagination state,
  renders the row of page buttons, updates the list on delete and shows
  the "Showing a to b of n" line.

It also models the parts of the API service those pages rely on: the
multipart body and headers of an upload, the progress percentage, the
image URL fallbacks and the default Authorization header.

Modules and files:

- `Strings.dfy` (module `Strings`): decimal rendering of numbers as
  template literals produce it, two-digit zero padding, and `join`.
- `Records.dfy` (module `Records`): the shared values. These are the
  metadata of a selected file and its `name-size-lastModified` key, the
  image records of the backend, its nullable JSON numbers, and
  `Array.prototype.filter`.
- `Api.dfy` (module `Api`): `src/services/api.js`.
- `Upload.dfy` (module `Upload`): `src/pages/Upload.jsx`. The page is the
  class `UploadPage`, whose fields are the component's state.
- `DateRange.dfy` (module `DateRange`): the `T00:00:00` and `T23:59:59`
  day bounds that both the analytics and the history page use.
- `Analytics.dfy` (module `Analytics`): `src/pages/Analytics.jsx`. The
  page is the class `AnalyticsPage`.
- `History.dfy` (module `History`): `src/pages/History.jsx`. The page is
  the class `HistoryPage`.

Conventions:

- A JavaScript `null` or `undefined` string is the empty string, which is
  falsy in JavaScript too.
- A nullable number is `JsonNumber`: `Null`, `Absent` or `Number(v)`.
  The pagination code tells `null` from a missing field, so the model
  keeps them apart.
- A field that may be missing or not an array is an `Option`.
- Each `await` splits an operation in two. The page state before the call
  is one method. What the call returns is a parameter of the next method
  (`StartUpload`, then `OnUploadProgress` for each progress event, then
  `SettleUpload`).
- The backend is a function from query to reply. A rejected request is a
  reply of its own (`Threw`, `RequestFailed`, `ListFailed`) and leads into
  the page's `catch` block.

Facts the model establishes:

- In `handleUpload`, the "Image already processed" branch can never be
  taken. Its condition needs a truthy `id`, and the branch before it
  already takes every truthy `id`. Re-uploading a known file therefore
  shows the "uploaded and analyzed" message. `SingleFileVerdict` and
  `SingleFileReconciles` state this.
- In the analytics roll-up, the per-label histogram leaves out detections
  with an empty label, but the detection total counts them. The two sums
  are equal exactly when every detection has a label (`HistogramTotal`).
- `removeFile` clears the error and success lines but not the upload
  progress map, unlike `clearAllFiles`. The model follows the code.
- In the partial-success message of a batch upload, "m failed" is the
  length of the response's `errors` list (0 when it is missing), not the
  number of results that did not succeed (`BatchMessages`). Two successes
  and one failed result with no `errors` list read "2 images uploaded
  successfully. 0 failed.".
- The paged fetch need not end. A full first page with a missing or zero
  `next_offset` sends the loop back to offset 0 for ever
  (`MissingNextOffsetNeverEnds`). When the loop does end, it never requests
  an offset twice (`RequestedOffsetsDistinct`). It keeps every page whole,
  in request order (`CollectIsPages`). So when a server's next offset
  points back into a page already fetched, the overlapping images are
  counted again. Such a loop can still end: `BackwardOffsetExample` pages
  0, 100, then back to 50.

## Model

| member | source | states |
|---|---|---|
| Records.FileKeyInjective | src/pages/Upload.jsx:59 | two files get the same `name-size-lastModified` id only if name, size and modification time all agree, so the key separates files that differ in any of the three |
| Strings.TwoDigits | src/pages/Analytics.jsx:27-28 | `String(n).padStart(2, "0")` for n below 100 is exactly two decimal digits whose value is n |
| Api.UploadImages | src/services/api.js:78-115 | one file gives a single `image` part, any other count one `images` part per file in order; the content type is multipart; the Idempotency-Key header is present exactly for one file and is that file's key; no other header; the progress hook is installed exactly when a callback is given |
| Api.UploadImage | src/services/api.js:63-76 | one `image` part; the Idempotency-Key header is present exactly when a key is given, with that value; multipart content type |
| Api.ProgressPercent | src/services/api.js:106-110 | no finite percentage when the total is 0; otherwise the integer nearest to 100·loaded/total, a half rounding up |
| Api.ProgressPercentBounds | src/services/api.js:106-110 | while the body is sent the percentage lies in 0..100, is 0 at the start and 100 at the end |
| Api.ProgressPercentMonotonic | src/services/api.js:106-110 | the percentage never decreases as more of the body is sent |
| Api.GetImageUrlInjective | src/services/api.js:141-143 | distinct image ids give distinct file-route URLs |
| Api.GetDirectImageUrl | src/services/api.js:146-148 | the stored original URL when there is one, else the file route of the id; never empty |
| Api.GetAnnotatedImageUrl | src/services/api.js:151-157 | the annotated URL when there is one, else the direct URL; never empty |
| Api.WithAuthToken | src/services/api.js:41-47 | a truthy token sets `Authorization: Bearer <token>`, a falsy one removes that header; every other header keeps its presence and value |
| Api.ApiService.SetAuthToken | src/services/api.js:41-47 | the common headers become `WithAuthToken` of the old ones |
| Upload.ValidateFile | src/pages/Upload.jsx:31-43 | a file is accepted exactly when its declared type is one of the four image types and its size is at most 10 MiB; a bad type reports the type message even when the size is also too large |
| Upload.RejectionLinesOfRejectedFiles | src/pages/Upload.jsx:52-56 | the error lines are `name: reason` for the rejected files, one each, in selection order |
| Upload.NoRejectionLinesIffAllAccepted | src/pages/Upload.jsx:52-70 | no error line is produced exactly when every selected file is accepted |
| Upload.StagedEntriesAllAccepted | src/pages/Upload.jsx:56-64 | when every file is accepted each becomes its own entry, in order, with id `name-size-lastModified` and no preview |
| Upload.StagedEntriesKeyed | src/pages/Upload.jsx:57-59 | every staged entry's id is the key of its own file |
| Upload.SortSelection | src/pages/Upload.jsx:49-65 | the forEach fills the valid-file and error arrays with exactly the staged entries and rejection lines of the selection |
| Upload.UploadPage.constructor | src/pages/Upload.jsx:14-18 | no files, no progress, not uploading, empty error and success lines |
| Upload.UploadPage.HandleFiles | src/pages/Upload.jsx:45-89 | success clears; a selection with any rejected file stages nothing and shows every rejection line joined by `, `; otherwise all accepted files are appended in order and the error clears; every staged id stays the key of its file |
| Upload.IndexOfId | src/pages/Upload.jsx:78 | `findIndex` by id: -1 exactly when no entry has the id, else the first entry that has it |
| Upload.UploadPage.AttachPreview | src/pages/Upload.jsx:75-83 | a finished preview goes to the first entry with that id when there still is one; no other entry and no other field changes |
| Upload.WithoutIdRemovesExactly | src/pages/Upload.jsx:111 | removal by id keeps exactly the entries with another id, and distributes over concatenation, so the kept entries stay in order |
| Upload.UploadPage.RemoveFile | src/pages/Upload.jsx:110-114 | the list becomes the list without that id; error and success clear; the progress map is left as it was |
| Upload.UploadPage.ClearAllFiles | src/pages/Upload.jsx:116-121 | files and progress map empty, error and success clear |
| Upload.BroadcastEntry | src/pages/Upload.jsx:133-137 | every file of the batch gets the same entry, and the map has no other key |
| Upload.UploadPage.StartUpload | src/pages/Upload.jsx:123-144 | with no files only the "select at least one file" error is set; otherwise uploading starts, the messages clear, every file is uploading at 0, and the request takes the files in order with the tracked progress hook, the single file's id as Idempotency-Key, and no key for a batch |
| Upload.FilesOf | src/pages/Upload.jsx:142 | the files behind the entries, one per entry, in order |
| Upload.UploadRequestFor | src/pages/Upload.jsx:142-151 | the request carries the tracked progress hook; one entry gives a single `image` part with that entry's id as Idempotency-Key; more give one `images` part per entry in order and no key |
| Upload.UploadPage.OnUploadProgress | src/pages/Upload.jsx:144-151 | each progress event gives every file of the batch the same uploading entry with the reported percentage and changes nothing else |
| Upload.SingleFileVerdict | src/pages/Upload.jsx:167-180 | a response with a truthy id is analyzed with that id; anything else has no id; the "already processed" verdict is never reached |
| Upload.SingleFileReconciles | src/pages/Upload.jsx:154-180 | a single-file response marks the file completed at 100; a truthy id shows the success message and navigates to its result, anything else shows the missing-id error and stays; the "already processed" message never appears |
| Upload.IndexOfName | src/pages/Upload.jsx:203 | `find` by filename: -1 exactly when no entry has the name, else the first entry that has it |
| Upload.PositionalProgressKeys | src/pages/Upload.jsx:186-199 | after the positional pass an id has an entry exactly when a file at a position covered by `results` has that id |
| Upload.PositionalProgressAt | src/pages/Upload.jsx:186-199 | result i decides the entry of file i, which is completed at 100 exactly for `success` or `duplicate`, unless a later covered file has the same id |
| Upload.OneOutcomePerFile | src/pages/Upload.jsx:186-199 | with distinct ids and one result per file, the map has exactly one entry per staged file, the entry of its own result |
| Upload.PositionalPass | src/pages/Upload.jsx:186-199 | the loop over `results` builds exactly the positional map |
| Upload.ApplyNamedErrorsKeys | src/pages/Upload.jsx:201-212 | the named-error pass adds entries only for the first file with each named filename, and leaves every entry it does not target as it was |
| Upload.ApplyNamedErrorsMarks | src/pages/Upload.jsx:201-212 | every named error that matches a file leaves that file errored at 0 |
| Upload.NamedErrorPass | src/pages/Upload.jsx:201-212 | the loop over the named errors turns the positional map into exactly the map with every matched file's error entry |
| Upload.BatchMessages | src/pages/Upload.jsx:216-238 | the page navigates to the history exactly when some result succeeded; all succeeded gives the "All n images" message, some `N images uploaded successfully. M failed.` with M the length of `errors` (0 when missing), none the all-failed error; no error line unless none succeeded |
| Upload.FailureMarksEveryFile | src/pages/Upload.jsx:240-251 | a thrown upload marks every staged file errored at 0 and nothing completed, sets the server's message or the generic one, and stays |
| Upload.UploadPage.SettleSingle | src/pages/Upload.jsx:154-180 | the page shows the single-file settlement: the one completed entry, then the analyzed message and the result page, or the missing-id error; files and the uploading flag stay |
| Upload.UploadPage.SettleBatch | src/pages/Upload.jsx:183-238 | the page shows the batch settlement: the positional map with any named errors applied, the summary message for the success count, and the history page exactly when something succeeded |
| Upload.UploadPage.SettleFailure | src/pages/Upload.jsx:240-251 | the page shows the catch block's settlement: every file of the batch errored at 0 and the server's message, or the generic one |
| Upload.UploadPage.SettleUpload | src/pages/Upload.jsx:153-254 | the progress map, messages and navigation become those of the reconciliation (single shape, batch shape or catch block), messages not set keep their old text, the files stay, and uploading ends |
| DateRange.DayBoundsSpanTheDay | src/pages/Analytics.jsx:43-48 | both bounds keep the picked date; the lower bound is second 0 of the day and the upper bound second 86399 |
| Analytics.FormatLocalDate | src/pages/Analytics.jsx:25-30 | `YYYY-MM-DD`: the year's digits, then two digits whose value is the month counted from 1, then two digits whose value is the day |
| Analytics.FormatLocalDateInjective | src/pages/Analytics.jsx:25-30 | distinct calendar dates format to distinct strings |
| Analytics.FromBound | src/pages/Analytics.jsx:43-45 | no lower bound for an empty `from`, else the start of that day |
| Analytics.ToBound | src/pages/Analytics.jsx:46-48 | no upper bound for an empty `to`, else the end of that day |
| Analytics.StepOf | src/pages/Analytics.jsx:71-84 | a rejected request fails the load; a reply without an `items` array stops with no items; a page goes on exactly when `next_offset` is not null and the page has 100 items, at `next_offset \|\| 0` |
| Analytics.FetchAllImages | src/pages/Analytics.jsx:57-87 | on any server on which the loop ends, the loop returns what the load collects (`Collect`): the pages of the requests at offset 0 and then at each named next offset, concatenated in request order, stopping at the safety bound with what it has; any rejected request fails the whole fetch. The offsets it requests are exactly `RequestedOffsets` |
| Analytics.RequestedOffsetsFollowTheLoop | src/pages/Analytics.jsx:59-86 | the requested offsets are the loop's iterations: the first at the starting offset, request i at the offset reached after i iterations, none after the last, and every request after the first at an offset of at most 10000 |
| Analytics.RequestedOffsetsDistinct | src/pages/Analytics.jsx:63-87 | when the loop ends it has requested no offset twice |
| Analytics.CollectIsPages | src/pages/Analytics.jsx:63-87 | the collected images are every requested page, whole and in request order, or a failure when any of those requests is rejected |
| Analytics.RepeatedOffsetNeverStops | src/pages/Analytics.jsx:77-86 | a server that answers a full page with the same offset as the next one is asked for that page again after any number of iterations |
| Analytics.MissingNextOffsetNeverEnds | src/pages/Analytics.jsx:77-86 | a full first page whose `next_offset` is missing or 0 makes the loop never end, because `next_offset \|\| 0` returns it to offset 0 |
| Analytics.BackwardOffsetExample | src/pages/Analytics.jsx:63-87 | a server paging 0, 100, then back to 50, where the page is short, gets exactly those three requests, and the loop ends with the two full pages |
| Analytics.ComputeStats | src/pages/Analytics.jsx:89-107 | the image count is the number of images, the detection total and histogram are those of all images, and the recent activity is the first min(10, n) images in fetched order |
| Analytics.AddDetectionsLookup | src/pages/Analytics.jsx:97-101 | each detection with a non-empty label adds one to that label's count; the empty label never gets a key |
| Analytics.HistogramCounts | src/pages/Analytics.jsx:94-104 | the histogram holds, for every non-empty label, how many detections of all images carry it, and holds no other key |
| Analytics.HistogramTotal | src/pages/Analytics.jsx:94-104 | the histogram counts add up to at most the detection total, and equal it exactly when no detection has an empty label |
| Analytics.UnlabeledDetectionExample | src/pages/Analytics.jsx:90-104 | an image with a `helmet` and an unlabeled detection plus an image with none give 2 images, 2 detections and the histogram `{helmet: 1}` |
| Analytics.AnalyticsPage.constructor | src/pages/Analytics.jsx:12-36 | empty statistics, loading, no error, and the range from the date thirty days ago to today, both formatted |
| Analytics.AnalyticsPage.LoadAnalytics | src/pages/Analytics.jsx:38-130 | on a server on which the fetch ends: loading ends and the range stays; a successful fetch replaces the statistics with those of the fetched images and clears the error; a failed one keeps the old statistics and shows the load error |
| Analytics.AnalyticsPage.HandleDateRangeChange | src/pages/Analytics.jsx:136-138 | exactly the named end of the range takes the new value |
| History.WithFilter | src/pages/History.jsx:82 | the named filter takes the new value, the offset resets to 0, and the other filters and the page size stay |
| History.AtPage | src/pages/History.jsx:98-99 | the offset becomes (page − 1)·limit and every other filter stays |
| History.AtPageSteps | src/pages/History.jsx:97-99 | page 1 starts at offset 0 and consecutive pages are one page size apart |
| History.ApiFilters | src/pages/History.jsx:85-92 | the API copy turns a set `from` into the start of its day and a set `to` into the end of its day, sends an unset date as it is, and keeps the other filters |
| History.PaginationOf | src/pages/History.jsx:57-63 | current page, page count and item count fall back to 1, 1 and 0 when falsy; more pages exactly when `next_offset` is not null |
| History.AfterLoad | src/pages/History.jsx:50-79 | a response body replaces the images (or empties them) and the pagination and clears the error; a rejection or missing body keeps the images, shows the load error and uses the fallback pagination (1, 1, 0, no more) |
| History.WindowBounds | src/pages/History.jsx:124-133 | the window lies within 1..T; for a current page in range it contains the current page and holds min(5, T) pages; page 1 is shown apart only when the current page is two or more past the window start, the last page only when it is two or more before the window end |
| History.ShownPagesIncrease | src/pages/History.jsx:148-203 | the shown page numbers start at 1, end at the last page and strictly increase, so none appears twice; a current page in range is among them |
| History.ControlsInEmitOrder | src/pages/History.jsx:135-216 | the row of controls (back arrow, pages laid out with an ellipsis at each gap, forward arrow) is the sequence written in emit order: back arrow, page 1 and ellipsis, the window, ellipsis and last page, forward arrow |
| History.PushButtons | src/pages/History.jsx:169-183 | the loop appends one button per page of the window, highlighted exactly on the current page |
| History.RenderPagination | src/pages/History.jsx:117-223 | nothing for one page or fewer; otherwise the emitted tokens are exactly the row `Controls(c, T)`: a back arrow to c − 1 when c > 1, one button per shown page laid out in order with the current page highlighted and an ellipsis between non-adjacent pages, and a forward arrow to c + 1 when c < T |
| History.WithoutImageRemovesExactly | src/pages/History.jsx:232 | a delete keeps exactly the images with another id, and distributes over concatenation, so the rest stay in order |
| History.ShowingRange | src/pages/History.jsx:386-395 | the line is shown exactly when there are items; it starts at (page − 1)·limit + 1 and ends at most at the total |
| History.ShowingRangeCountsThePage | src/pages/History.jsx:386-394 | for a page that starts before the end of the list, 1 ≤ a ≤ b ≤ n and the line counts a full page, or the rest of the list on the last page |
| History.HistoryPage.constructor | src/pages/History.jsx:15-34 | no images, loading, no error, filters (8, 0, "", "", "") and pagination (1, 0, 0, no more) |
| History.HistoryPage.LoadImages | src/pages/History.jsx:50-79 | the images, pagination and error become `AfterLoad` of the reply; loading ends; the filters are untouched |
| History.HistoryPage.HandleFilterChange | src/pages/History.jsx:81-95 | the filters in state become `WithFilter` (raw date strings kept, offset 0) and the list reloads with their API copy |
| History.HistoryPage.HandlePageChange | src/pages/History.jsx:97-115 | only the offset changes, to the first item of the page, and the list reloads with the API copy |
| History.HistoryPage.DeleteImage | src/pages/History.jsx:225-237 | nothing changes unless confirmed; a confirmed successful delete drops exactly the images with that id; a failed one leaves the list alone |

## Left out

- Analytics.FetchAllImages: requires that the loop ends on the given server (`Terminates`: after some number of iterations there is no further request). A non-ending run is not modelled as a method. MissingNextOffsetNeverEnds and RepeatedOffsetNeverStops state on `OffsetAfter` when the source never stops.
- Analytics.AnalyticsPage.LoadAnalytics: has the same termination requirement as FetchAllImages.
- Analytics.ComputeStats, Analytics.HistogramCounts: the histogram is a map, not a plain JavaScript object. Labels that name an `Object.prototype` property are not modelled. For such a label (`constructor`, `__proto__`, `toString` and the like) the source reads the inherited value or cannot store the key.
- Analytics.FromBound, Analytics.ToBound, History.ApiFilters: `new Date(...).toISOString()` is not modelled. The bound is the local-time string that would be converted; converting it to UTC depends on the host's time zone.
- Analytics.AnalyticsPage.constructor: "today" and "thirty days ago" come from the host clock and are parameters. The date arithmetic that produces them is not modelled.
- Api.ApiService.constructor: models only the common headers, starting empty. The axios instance, its base URL, the default headers axios adds and the request/response interceptors (`localStorage`, redirect on 401) are I/O.
- The transport itself (axios, `FormData`) is not modelled. An upload request is the value handed to it.
- Progress events with a zero total give `None` (JavaScript would yield a non-finite number). The page stores whatever percentage is reported.
- The exception object of a failed upload is reduced to the server's error message. The progress entries of the catch block carry that message, not the object.
- `FileReader`: reading a preview is the separate `AttachPreview` operation, applied when the read finishes.
- `setTimeout` and `navigate` are not modelled. The navigation target is the returned `Navigation` value; the delays (1.2 s to 2 s) are not modelled.
- `window.confirm` and the outcome of `DELETE /images/:id` are inputs of `DeleteImage`. `alert`, `console` calls and `window.scrollTo` are omitted.
- The `uploaded: false` and `error: null` fields of a staged entry are not modelled; nothing in the core reads or changes them.
- Drag-and-drop state, JSX rendering and styling are omitted, as are `loadLabels` and the label list of the history page's select.
- Floating-point display values are omitted: average detections, histogram percentages, file sizes in MB, confidence and box formatting.
- `handleFilterChange` is modelled for the three keys the page passes (label, from, to). The page never passes `limit` or `offset`.
- React's asynchronous state updates, and closures that capture stale state (for example, a delete that filters an outdated list), are not modelled: each handler sees the current state.
- src/pages/Result.jsx, src/App.jsx, src/components/Navbar.jsx and src/contexts/AuthContext.jsx are not part of this model.
