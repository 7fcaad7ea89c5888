/** The upload page: validation and all-or-nothing staging of selected
    files, previews filled in later by id, removal, and an upload whose one
    progress value is mirrored onto every staged file and whose response is
    reconciled per file, in the single-file shape or in the batch shape. */
module Upload {
  import opened Strings
  import opened Records
  import Api

  const AllowedTypes: seq<string> := ["image/jpeg", "image/jpg", "image/png", "image/webp"]
  const MaxFileSize: nat := 10 * 1024 * 1024

  const TypeMessage := "Please select valid image files (JPEG, PNG, or WebP)"
  const SizeMessage := "File size must be less than 10MB"
  const NoFilesMessage := "Please select at least one file to upload"
  const AnalyzedMessage := "Image uploaded and analyzed successfully!"
  const AlreadyProcessedMessage := "Image already processed. Redirecting to result..."
  const MissingIdMessage := "Upload succeeded but no result id was returned."
  const AllFailedMessage := "All uploads failed. Please try again."
  const UploadFailedMessage := "Failed to upload images. Please try again."

  /** `validateFile(file)`: None when the file is accepted, otherwise the
      reason. The declared type is checked before the size. */
  function ValidateFile(f: FileInfo): (r: Option<string>)
    ensures r.None? <==> f.mimeType in AllowedTypes && f.size <= MaxFileSize
    ensures f.mimeType !in AllowedTypes ==> r == Some(TypeMessage)
    ensures f.mimeType in AllowedTypes && f.size > MaxFileSize ==> r == Some(SizeMessage)
  {
    if f.mimeType !in AllowedTypes then Some(TypeMessage)
    else if f.size > MaxFileSize then Some(SizeMessage)
    else None
  }

  predicate Rejected(f: FileInfo) { ValidateFile(f).Some? }

  /** A file on the staging list: the file, its id and its preview data URL
      once the read has finished. */
  datatype StagedFile = StagedFile(file: FileInfo, id: string, preview: Option<string>)

  /** The entry `handleFiles` creates for an accepted file. */
  function Stage(f: FileInfo): StagedFile
  {
    StagedFile(f, FileKey(f), None)
  }

  /** The `"${name}: ${reason}"` line for a rejected file. */
  function RejectionLine(f: FileInfo): string
    requires Rejected(f)
  {
    f.name + ": " + ValidateFile(f).value
  }

  /** The `errors` array `handleFiles` fills, one line per rejected file. */
  function RejectionLines(fs: seq<FileInfo>): seq<string>
    decreases |fs|
  {
    if fs == [] then []
    else
      var last := fs[|fs| - 1];
      RejectionLines(fs[..|fs| - 1]) + (if Rejected(last) then [RejectionLine(last)] else [])
  }

  /** The `validFiles` array `handleFiles` fills, one entry per accepted file. */
  function StagedEntries(fs: seq<FileInfo>): seq<StagedFile>
    decreases |fs|
  {
    if fs == [] then []
    else
      var last := fs[|fs| - 1];
      StagedEntries(fs[..|fs| - 1]) + (if Rejected(last) then [] else [Stage(last)])
  }

  lemma StagingStep(fs: seq<FileInfo>, i: nat)
    requires i < |fs|
    ensures RejectionLines(fs[..i + 1]) ==
      RejectionLines(fs[..i]) + (if Rejected(fs[i]) then [RejectionLine(fs[i])] else [])
    ensures StagedEntries(fs[..i + 1]) ==
      StagedEntries(fs[..i]) + (if Rejected(fs[i]) then [] else [Stage(fs[i])])
  {
    assert fs[..i + 1][..i] == fs[..i];
  }

  /** Every staged entry is keyed by its file. */
  lemma {:induction false} StagedEntriesKeyed(fs: seq<FileInfo>)
    ensures forall k :: 0 <= k < |StagedEntries(fs)| ==> KeyedById(StagedEntries(fs)[k])
    decreases |fs|
  {
    if fs != [] {
      StagedEntriesKeyed(fs[..|fs| - 1]);
    }
  }

  /** The rejection lines are the lines of the rejected files, in input order. */
  lemma {:induction false} RejectionLinesOfRejectedFiles(fs: seq<FileInfo>)
    ensures var rejected := Filter(fs, Rejected);
            |RejectionLines(fs)| == |rejected| &&
            forall k :: 0 <= k < |rejected| ==> RejectionLines(fs)[k] == RejectionLine(rejected[k])
    decreases |fs|
  {
    if fs != [] {
      var init, last := fs[..|fs| - 1], fs[|fs| - 1];
      assert fs == init + [last];
      FilterAppend(init, [last], Rejected);
      RejectionLinesOfRejectedFiles(init);
      assert [last][1..] == [];
    }
  }

  /** No line is produced exactly when every file is accepted. */
  lemma {:induction false} NoRejectionLinesIffAllAccepted(fs: seq<FileInfo>)
    ensures RejectionLines(fs) == [] <==> forall i :: 0 <= i < |fs| ==> !Rejected(fs[i])
    decreases |fs|
  {
    if fs != [] {
      var init := fs[..|fs| - 1];
      NoRejectionLinesIffAllAccepted(init);
      assert forall i :: 0 <= i < |init| ==> init[i] == fs[i];
    }
  }

  /** When every file is accepted, each gets its own entry, in input order,
      with the id `name-size-lastModified` and no preview yet. */
  lemma {:induction false} StagedEntriesAllAccepted(fs: seq<FileInfo>)
    requires forall i :: 0 <= i < |fs| ==> !Rejected(fs[i])
    ensures |StagedEntries(fs)| == |fs|
    ensures forall i :: 0 <= i < |fs| ==>
      StagedEntries(fs)[i] == StagedFile(fs[i], FileKey(fs[i]), None)
    decreases |fs|
  {
    if fs != [] {
      var n := |fs| - 1;
      var init := fs[..n];
      assert forall i :: 0 <= i < |init| ==> init[i] == fs[i];
      StagedEntriesAllAccepted(init);
      var prev, all := StagedEntries(init), StagedEntries(fs);
      assert !Rejected(fs[n]);
      assert all == prev + [Stage(fs[n])];
      forall i | 0 <= i < |fs|
        ensures all[i] == StagedFile(fs[i], FileKey(fs[i]), None)
      {
        if i < n {
          assert all[i] == prev[i] && init[i] == fs[i];
        }
      }
    }
  }

  /** Removal keeps every remaining entry keyed by its file. */
  lemma WithoutIdKeyed(files: seq<StagedFile>, id: string)
    requires forall i :: 0 <= i < |files| ==> KeyedById(files[i])
    ensures forall i :: 0 <= i < |WithoutId(files, id)| ==> KeyedById(WithoutId(files, id)[i])
  {
    var r := WithoutId(files, id);
    forall i | 0 <= i < |r|
      ensures KeyedById(r[i])
    {
      assert r[i] in files;
    }
  }

  /** `files.findIndex(f => f.id === id)`, -1 when there is none. */
  function IndexOfId(files: seq<StagedFile>, id: string): (k: int)
    ensures -1 <= k < |files|
    ensures k == -1 <==> forall i :: 0 <= i < |files| ==> files[i].id != id
    ensures k >= 0 ==> files[k].id == id && forall i :: 0 <= i < k ==> files[i].id != id
    decreases |files|
  {
    if files == [] then -1
    else if files[0].id == id then 0
    else
      var k := IndexOfId(files[1..], id);
      if k == -1 then -1 else k + 1
  }

  /** `files.find(f => f.file.name === name)`, by its index, -1 when there is none. */
  function IndexOfName(files: seq<StagedFile>, name: string): (k: int)
    ensures -1 <= k < |files|
    ensures k == -1 <==> forall i :: 0 <= i < |files| ==> files[i].file.name != name
    ensures k >= 0 ==> files[k].file.name == name && forall i :: 0 <= i < k ==> files[i].file.name != name
    decreases |files|
  {
    if files == [] then -1
    else if files[0].file.name == name then 0
    else
      var k := IndexOfName(files[1..], name);
      if k == -1 then -1 else k + 1
  }

  predicate KeyedById(f: StagedFile) { f.id == FileKey(f.file) }

  /** `prev.filter(f => f.id !== id)`. */
  function WithoutId(files: seq<StagedFile>, id: string): seq<StagedFile>
  {
    Filter(files, (f: StagedFile) => f.id != id)
  }

  /** Removal drops exactly the entries with that id; the others keep their order. */
  lemma WithoutIdRemovesExactly(files: seq<StagedFile>, more: seq<StagedFile>, id: string)
    ensures forall f :: f in WithoutId(files, id) <==> f in files && f.id != id
    ensures WithoutId(files + more, id) == WithoutId(files, id) + WithoutId(more, id)
  {
    FilterAppend(files, more, (f: StagedFile) => f.id != id);
  }

  datatype Status = Uploading | Completed | Errored

  /** One element of a batch response's `results`. */
  datatype BatchResult = BatchResult(status: string, id: string)

  /** One element of a batch response's `errors`. */
  datatype NamedError = NamedError(filename: string, error: string)

  /** `response.data` of `POST /images`; the single-file shape uses `id` and
      `existing`, the batch shape `results` and `errors` (None: not present). */
  datatype ResponseData = ResponseData(
    id: string,
    existing: bool,
    results: Option<seq<BatchResult>>,
    errors: Option<seq<NamedError>>)

  /** What the upload call ended with: a response (None: `response.data`
      is empty), or an exception carrying the server's error message ("" when
      it has none). */
  datatype UploadOutcome = Responded(data: Option<ResponseData>) | Threw(serverMessage: string)

  /** What an entry of `uploadProgress` carries besides status and percentage. */
  datatype Detail = NoDetail | WithResponse(data: Option<ResponseData>) | WithResult(result: BatchResult) | WithError(message: string)

  datatype ProgressEntry = ProgressEntry(status: Status, progress: int, detail: Detail)

  /** Where the page navigates once the upload has settled. */
  datatype Navigation = Stay | ToResult(id: string) | ToHistory

  function IdsOf(batch: seq<StagedFile>): set<string>
  {
    set i | 0 <= i < |batch| :: batch[i].id
  }

  /** One entry, the same for every staged file. */
  function Broadcast(batch: seq<StagedFile>, entry: ProgressEntry): map<string, ProgressEntry>
  {
    map k | k in IdsOf(batch) :: entry
  }

  /** The `forEach` that gives every file in `batch` the same entry
      (initial, per-progress-event and failure maps of `handleUpload`). */
  method BroadcastEntry(batch: seq<StagedFile>, entry: ProgressEntry) returns (m: map<string, ProgressEntry>)
    ensures m == Broadcast(batch, entry)
    ensures forall i :: 0 <= i < |batch| ==> batch[i].id in m && m[batch[i].id] == entry
    ensures forall k :: k in m ==> exists i :: 0 <= i < |batch| && batch[i].id == k
  {
    m := map[];
    for i := 0 to |batch|
      invariant m == Broadcast(batch[..i], entry)
    {
      assert IdsOf(batch[..i + 1]) == IdsOf(batch[..i]) + {batch[i].id} by {
        assert forall j :: 0 <= j < i ==> batch[..i + 1][j] == batch[..i][j];
      }
      m := m[batch[i].id := entry];
    }
    assert batch[..|batch|] == batch;
  }

  /** The single-file verdict. The second branch needs a truthy id, which
      the first branch already takes: "already processed" is never chosen. */
  datatype Verdict = Analyzed(id: string) | AlreadyProcessed(id: string) | MissingId

  function SingleFileVerdict(data: Option<ResponseData>): (v: Verdict)
    ensures v.Analyzed? <==> data.Some? && data.value.id != ""
    ensures v.Analyzed? ==> v.id == data.value.id
    ensures !v.AlreadyProcessed?
  {
    match data
    case None => MissingId
    case Some(d) =>
      if d.id != "" then Analyzed(d.id)
      else if d.existing && d.id != "" then AlreadyProcessed(d.id)
      else MissingId
  }

  predicate Succeeded(r: BatchResult) { r.status == "success" || r.status == "duplicate" }

  function ResultEntry(r: BatchResult): ProgressEntry
  {
    ProgressEntry(if Succeeded(r) then Completed else Errored, 100, WithResult(r))
  }

  function NamedErrorEntry(e: NamedError): ProgressEntry
  {
    ProgressEntry(Errored, 0, WithError(e.error))
  }

  /** The map after the positional pass over `results`: result i goes to
      file i when there is one; a later file with the same id overwrites. */
  function PositionalProgress(batch: seq<StagedFile>, results: seq<BatchResult>): map<string, ProgressEntry>
    decreases |results|
  {
    if results == [] then map[]
    else
      var i := |results| - 1;
      var m := PositionalProgress(batch, results[..i]);
      if i < |batch| then m[batch[i].id := ResultEntry(results[i])] else m
  }

  /** The map after the pass over the named errors: each goes to the first
      file with that filename, when there is one. */
  function ApplyNamedErrors(m: map<string, ProgressEntry>, batch: seq<StagedFile>, errors: seq<NamedError>): map<string, ProgressEntry>
    decreases |errors|
  {
    if errors == [] then m
    else
      var j := |errors| - 1;
      var m' := ApplyNamedErrors(m, batch, errors[..j]);
      var k := IndexOfName(batch, errors[j].filename);
      if k >= 0 then m'[batch[k].id := NamedErrorEntry(errors[j])] else m'
  }

  /** The number of successful results. */
  function SuccessCount(results: seq<BatchResult>): nat
  {
    |Filter(results, Succeeded)|
  }

  /** What settling assigns: the progress map, the messages it sets (None:
      left as they were) and where it navigates. */
  datatype Settlement = Settlement(
    progress: map<string, ProgressEntry>,
    error: Option<string>,
    success: Option<string>,
    nav: Navigation)

  /** The catch block: every staged file errored at 0. */
  function FailureSettlement(batch: seq<StagedFile>, serverMessage: string): Settlement
  {
    Settlement(
      Broadcast(batch, ProgressEntry(Errored, 0, WithError(serverMessage))),
      Some(if serverMessage != "" then serverMessage else UploadFailedMessage),
      None,
      Stay)
  }

  function SingleSettlement(file: StagedFile, data: Option<ResponseData>): Settlement
  {
    var progress := map[file.id := ProgressEntry(Completed, 100, WithResponse(data))];
    match SingleFileVerdict(data)
    case Analyzed(id) => Settlement(progress, None, Some(AnalyzedMessage), ToResult(id))
    case AlreadyProcessed(id) => Settlement(progress, None, Some(AlreadyProcessedMessage), ToResult(id))
    case MissingId => Settlement(progress, Some(MissingIdMessage), None, Stay)
  }

  function BatchMessage(successCount: nat, fileCount: nat, errorCount: nat): (r: (Option<string>, Option<string>))
  {
    if successCount == fileCount then
      (None, Some("All " + NatToString(successCount) + " images uploaded and analyzed successfully!"))
    else if successCount > 0 then
      (None, Some(NatToString(successCount) + " images uploaded successfully. " + NatToString(errorCount) + " failed."))
    else
      (Some(AllFailedMessage), None)
  }

  function BatchSettlement(batch: seq<StagedFile>, results: seq<BatchResult>, errors: Option<seq<NamedError>>): Settlement
  {
    var positional := PositionalProgress(batch, results);
    var progress := if errors.Some? && |errors.value| > 0 then ApplyNamedErrors(positional, batch, errors.value) else positional;
    var successCount := SuccessCount(results);
    var errorCount := if errors.Some? then |errors.value| else 0;
    var messages := BatchMessage(successCount, |batch|, errorCount);
    Settlement(progress, messages.0, messages.1, if successCount > 0 then ToHistory else Stay)
  }

  /** Everything `handleUpload` does after the upload call returns or throws. */
  function Settle(batch: seq<StagedFile>, outcome: UploadOutcome): Settlement
    requires batch != []
  {
    match outcome
    case Threw(message) => FailureSettlement(batch, message)
    case Responded(data) =>
      if |batch| == 1 then SingleSettlement(batch[0], data)
      // destructuring an empty body or calling `forEach` on missing results throws inside the try
      else if data.None? || data.value.results.None? then FailureSettlement(batch, "")
      else BatchSettlement(batch, data.value.results.value, data.value.errors)
  }

  /** A thrown upload (or a batch response without `results`) marks every
      staged file errored at 0, none completed, and shows the server's message
      or the generic one. */
  lemma FailureMarksEveryFile(batch: seq<StagedFile>, serverMessage: string)
    ensures var s := FailureSettlement(batch, serverMessage);
      (forall i :: 0 <= i < |batch| ==>
        batch[i].id in s.progress && s.progress[batch[i].id].status == Errored && s.progress[batch[i].id].progress == 0) &&
      (forall k :: k in s.progress ==> s.progress[k].status != Completed) &&
      s.progress.Keys == IdsOf(batch) &&
      s.error == Some(if serverMessage != "" then serverMessage else UploadFailedMessage) &&
      s.success.None? && s.nav == Stay
  {
  }

  /** Single-file shape: the map holds just that file, completed at 100; a
      truthy id gives the success message and the result page, anything else
      the missing-id error; the "already processed" message never appears. */
  lemma SingleFileReconciles(file: StagedFile, data: Option<ResponseData>)
    ensures var s := SingleSettlement(file, data);
      s.progress == map[file.id := ProgressEntry(Completed, 100, WithResponse(data))] &&
      (data.Some? && data.value.id != "" ==>
        s.success == Some(AnalyzedMessage) && s.error.None? && s.nav == ToResult(data.value.id)) &&
      (!(data.Some? && data.value.id != "") ==>
        s.error == Some(MissingIdMessage) && s.success.None? && s.nav == Stay) &&
      s.success != Some(AlreadyProcessedMessage)
  {
  }

  /** After the positional pass a file id has an entry exactly when some
      file at a position covered by `results` has it. */
  lemma {:induction false} PositionalProgressKeys(batch: seq<StagedFile>, results: seq<BatchResult>, key: string)
    ensures key in PositionalProgress(batch, results) <==>
      exists i :: 0 <= i < |results| && i < |batch| && batch[i].id == key
    decreases |results|
  {
    if results != [] {
      var n := |results| - 1;
      PositionalProgressKeys(batch, results[..n], key);
    }
  }

  /** Result i decides the entry of file i (completed exactly for "success"
      and "duplicate", at 100), unless a later covered file has the same id. */
  lemma {:induction false} PositionalProgressAt(batch: seq<StagedFile>, results: seq<BatchResult>, i: nat)
    requires i < |results| && i < |batch|
    requires forall j :: i < j < |results| && j < |batch| ==> batch[j].id != batch[i].id
    ensures batch[i].id in PositionalProgress(batch, results)
    ensures PositionalProgress(batch, results)[batch[i].id] == ResultEntry(results[i])
    ensures PositionalProgress(batch, results)[batch[i].id].status == Completed <==> Succeeded(results[i])
    decreases |results|
  {
    var n := |results| - 1;
    if i < n {
      PositionalProgressAt(batch, results[..n], i);
    }
  }

  predicate UniqueIds(batch: seq<StagedFile>)
  {
    forall i, j :: 0 <= i < j < |batch| ==> batch[i].id != batch[j].id
  }

  /** With distinct ids and one result per file, the positional pass gives
      exactly one outcome per staged file, aligned by position. */
  lemma OneOutcomePerFile(batch: seq<StagedFile>, results: seq<BatchResult>)
    requires UniqueIds(batch) && |results| == |batch|
    ensures PositionalProgress(batch, results).Keys == IdsOf(batch)
    ensures forall i :: 0 <= i < |batch| ==> PositionalProgress(batch, results)[batch[i].id] == ResultEntry(results[i])
  {
    forall key | true
      ensures key in PositionalProgress(batch, results) <==> key in IdsOf(batch)
    {
      PositionalProgressKeys(batch, results, key);
    }
    forall i | 0 <= i < |batch|
      ensures PositionalProgress(batch, results)[batch[i].id] == ResultEntry(results[i])
    {
      PositionalProgressAt(batch, results, i);
    }
  }

  /** The file a named error goes to, -1 when no file has that name. */
  function Target(batch: seq<StagedFile>, e: NamedError): int
  {
    IndexOfName(batch, e.filename)
  }

  /** The named-error pass adds entries only for the first file with each
      named filename, and leaves every other entry as it was. */
  lemma {:induction false} ApplyNamedErrorsKeys(m: map<string, ProgressEntry>, batch: seq<StagedFile>, errors: seq<NamedError>, key: string)
    ensures key in ApplyNamedErrors(m, batch, errors) <==>
      key in m || exists j :: 0 <= j < |errors| && Target(batch, errors[j]) >= 0 && batch[Target(batch, errors[j])].id == key
    ensures (forall j :: 0 <= j < |errors| && Target(batch, errors[j]) >= 0 ==> batch[Target(batch, errors[j])].id != key) ==>
      (key in m ==> ApplyNamedErrors(m, batch, errors)[key] == m[key])
    decreases |errors|
  {
    if errors != [] {
      var n := |errors| - 1;
      var init := errors[..n];
      ApplyNamedErrorsKeys(m, batch, init, key);
      assert forall j :: 0 <= j < n ==> init[j] == errors[j];
      var k := Target(batch, errors[n]);
      if k >= 0 && batch[k].id == key {
        assert ApplyNamedErrors(m, batch, errors) == ApplyNamedErrors(m, batch, init)[key := NamedErrorEntry(errors[n])];
      } else if k >= 0 {
        assert ApplyNamedErrors(m, batch, errors) == ApplyNamedErrors(m, batch, init)[batch[k].id := NamedErrorEntry(errors[n])];
      } else {
        assert ApplyNamedErrors(m, batch, errors) == ApplyNamedErrors(m, batch, init);
      }
    }
  }

  /** Every named error that matches a file leaves that file errored at 0:
      whichever of them comes last, the entry is an error entry. */
  lemma {:induction false} ApplyNamedErrorsMarks(m: map<string, ProgressEntry>, batch: seq<StagedFile>, errors: seq<NamedError>, j: nat)
    requires j < |errors| && Target(batch, errors[j]) >= 0
    ensures var key := batch[Target(batch, errors[j])].id;
      key in ApplyNamedErrors(m, batch, errors) &&
      ApplyNamedErrors(m, batch, errors)[key].status == Errored &&
      ApplyNamedErrors(m, batch, errors)[key].progress == 0
    decreases |errors|
  {
    var n := |errors| - 1;
    if j < n {
      assert errors[..n][j] == errors[j];
      ApplyNamedErrorsMarks(m, batch, errors[..n], j);
    }
  }

  /** Batch shape, third step: the navigation to the history page happens
      exactly when some result succeeded; all succeeded gives the "All"
      message, some the partial one, none the failure error. The "failed"
      figure of the partial message is the length of `errors` (0 when it
      is missing), not the number of results that did not succeed. */
  lemma BatchMessages(batch: seq<StagedFile>, results: seq<BatchResult>, errors: Option<seq<NamedError>>)
    requires |batch| > 1
    ensures var s := BatchSettlement(batch, results, errors);
      var n := SuccessCount(results);
      var m := if errors.Some? then |errors.value| else 0;
      (s.nav == ToHistory <==> n > 0) && (s.nav != ToHistory ==> s.nav == Stay) &&
      (n == |batch| ==> s.success == Some("All " + NatToString(n) + " images uploaded and analyzed successfully!") && s.error.None?) &&
      (0 < n != |batch| ==> s.success == Some(NatToString(n) + " images uploaded successfully. " + NatToString(m) + " failed.") && s.error.None?) &&
      (n == 0 ==> s.error == Some(AllFailedMessage) && s.success.None?)
  {
  }

  /** The `forEach` of `handleFiles`: accepted files become entries,
      rejected ones become lines, each in input order. */
  method SortSelection(selected: seq<FileInfo>) returns (validFiles: seq<StagedFile>, errors: seq<string>)
    ensures validFiles == StagedEntries(selected)
    ensures errors == RejectionLines(selected)
  {
    validFiles, errors := [], [];
    for i := 0 to |selected|
      invariant validFiles == StagedEntries(selected[..i])
      invariant errors == RejectionLines(selected[..i])
    {
      var file := selected[i];
      StagingStep(selected, i);
      var reason := ValidateFile(file);
      if reason.Some? {
        errors := errors + [file.name + ": " + reason.value];
      } else {
        validFiles := validFiles + [StagedFile(file, FileKey(file), None)];
      }
    }
    assert selected[..|selected|] == selected;
  }

  /** The `results.forEach` of the batch shape: result i settles file i. */
  method PositionalPass(batch: seq<StagedFile>, results: seq<BatchResult>) returns (finalProgress: map<string, ProgressEntry>)
    ensures finalProgress == PositionalProgress(batch, results)
  {
    finalProgress := map[];
    for i := 0 to |results|
      invariant finalProgress == PositionalProgress(batch, results[..i])
    {
      assert results[..i + 1][..i] == results[..i];
      if i < |batch| {
        var fileObj := batch[i];
        var r := results[i];
        finalProgress := finalProgress[fileObj.id :=
          ProgressEntry(if r.status == "success" || r.status == "duplicate" then Completed else Errored, 100, WithResult(r))];
      }
    }
    assert results[..|results|] == results;
  }

  /** The `errors.forEach` of the batch shape: each named error marks the
      first file with that filename. */
  method NamedErrorPass(positional: map<string, ProgressEntry>, batch: seq<StagedFile>, named: seq<NamedError>)
    returns (finalProgress: map<string, ProgressEntry>)
    ensures finalProgress == ApplyNamedErrors(positional, batch, named)
  {
    finalProgress := positional;
    for j := 0 to |named|
      invariant finalProgress == ApplyNamedErrors(positional, batch, named[..j])
    {
      assert named[..j + 1][..j] == named[..j];
      var k := IndexOfName(batch, named[j].filename);
      if k >= 0 {
        finalProgress := finalProgress[batch[k].id := ProgressEntry(Errored, 0, WithError(named[j].error))];
      }
    }
    assert named[..|named|] == named;
  }

  /** `files.map((f) => f.file)`: the selected files behind the entries. */
  function FilesOf(entries: seq<StagedFile>): (fs: seq<FileInfo>)
    ensures |fs| == |entries|
    ensures forall i :: 0 <= i < |entries| ==> fs[i] == entries[i].file
  {
    seq(|entries|, i requires 0 <= i < |entries| => entries[i].file)
  }

  /** The call `handleUpload` makes: the files behind the entries, with the
      progress callback. A single entry's id is its file's key, which the
      service sends as the Idempotency-Key. */
  method UploadRequestFor(batch: seq<StagedFile>) returns (req: Api.UploadRequest)
    requires forall i :: 0 <= i < |batch| ==> KeyedById(batch[i])
    ensures req.tracksProgress
    ensures |batch| == 1 ==>
      req.parts == [Api.Part("image", batch[0].file)] &&
      Api.IdempotencyKeyHeader in req.headers && req.headers[Api.IdempotencyKeyHeader] == batch[0].id
    ensures |batch| != 1 ==>
      |req.parts| == |batch| && Api.IdempotencyKeyHeader !in req.headers &&
      forall i :: 0 <= i < |batch| ==> req.parts[i] == Api.Part("images", batch[i].file)
  {
    var fileArray := FilesOf(batch);
    req := Api.UploadImages(fileArray, true);
    if |batch| == 1 {
      assert fileArray[0] == batch[0].file;
    }
  }

  /** The upload page's state. */
  class UploadPage {
    var files: seq<StagedFile>
    var uploadProgress: map<string, ProgressEntry>
    var uploading: bool
    var error: string
    var success: string

    /** Every staged id is the key of its file. */
    ghost predicate Valid()
      reads this
    {
      forall i :: 0 <= i < |files| ==> KeyedById(files[i])
    }

    constructor ()
      ensures Valid()
      ensures files == [] && uploadProgress == map[] && !uploading && error == "" && success == ""
    {
      files := [];
      uploadProgress := map[];
      uploading := false;
      error := "";
      success := "";
    }

    /** `handleFiles(selectedFiles)`: all or nothing. One rejected file
        rejects the whole selection, with every reason in input order. */
    method HandleFiles(selected: seq<FileInfo>)
      requires Valid()
      modifies this
      ensures Valid()
      ensures success == ""
      ensures uploadProgress == old(uploadProgress) && uploading == old(uploading)
      ensures RejectionLines(selected) != [] ==>
        files == old(files) && error == Join(RejectionLines(selected), ", ")
      ensures RejectionLines(selected) == [] ==>
        files == old(files) + StagedEntries(selected) && error == ""
    {
      error := "";
      success := "";
      var validFiles, errors := SortSelection(selected);
      if |errors| > 0 {
        error := Join(errors, ", ");
        return;
      }
      StagedEntriesKeyed(selected);
      files := files + validFiles;
    }

    /** The FileReader's `onload` updater: the preview goes to the first
        entry with that id, when there still is one. */
    method AttachPreview(id: string, dataUrl: string)
      requires Valid()
      modifies this
      ensures Valid()
      ensures |files| == |old(files)|
      ensures var k := IndexOfId(old(files), id);
        forall j :: 0 <= j < |files| && j != k ==> files[j] == old(files)[j]
      ensures var k := IndexOfId(old(files), id);
        k >= 0 ==> files[k] == old(files)[k].(preview := Some(dataUrl))
      ensures uploadProgress == old(uploadProgress) && uploading == old(uploading)
      ensures error == old(error) && success == old(success)
    {
      var existingIndex := IndexOfId(files, id);
      if existingIndex >= 0 {
        files := files[existingIndex := files[existingIndex].(preview := Some(dataUrl))];
      }
    }

    /** `removeFile(id)`. */
    method RemoveFile(id: string)
      requires Valid()
      modifies this
      ensures Valid()
      ensures files == WithoutId(old(files), id)
      ensures error == "" && success == ""
      ensures uploadProgress == old(uploadProgress) && uploading == old(uploading)
    {
      WithoutIdKeyed(files, id);
      files := WithoutId(files, id);
      error := "";
      success := "";
    }

    /** `clearAllFiles()`. */
    method ClearAllFiles()
      requires Valid()
      modifies this
      ensures Valid()
      ensures files == [] && uploadProgress == map[]
      ensures error == "" && success == ""
      ensures uploading == old(uploading)
    {
      files := [];
      error := "";
      success := "";
      uploadProgress := map[];
    }

    /** `handleUpload` up to the upload call: with no files only the error
        is set; otherwise every file starts uploading at 0 and the request
        is shaped from the files. `batch` is the `files` the call's
        callbacks close over. */
    method StartUpload() returns (batch: seq<StagedFile>, request: Option<Api.UploadRequest>)
      requires Valid()
      modifies this
      ensures Valid()
      ensures batch == old(files) && files == old(files)
      ensures old(files) == [] ==>
        request.None? && error == NoFilesMessage && success == old(success) &&
        uploading == old(uploading) && uploadProgress == old(uploadProgress)
      ensures old(files) != [] ==>
        request.Some? && uploading && error == "" && success == "" &&
        uploadProgress == Broadcast(batch, ProgressEntry(Uploading, 0, NoDetail))
      ensures request.Some? ==> request.value.tracksProgress
      ensures request.Some? && |batch| == 1 ==>
        request.value.parts == [Api.Part("image", batch[0].file)] &&
        Api.IdempotencyKeyHeader in request.value.headers &&
        request.value.headers[Api.IdempotencyKeyHeader] == batch[0].id
      ensures request.Some? && |batch| > 1 ==>
        |request.value.parts| == |batch| && Api.IdempotencyKeyHeader !in request.value.headers &&
        forall i :: 0 <= i < |batch| ==> request.value.parts[i] == Api.Part("images", batch[i].file)
    {
      batch := files;
      if |files| == 0 {
        error := NoFilesMessage;
        request := None;
        return;
      }
      uploading := true;
      error := "";
      success := "";
      var initialProgress := BroadcastEntry(files, ProgressEntry(Uploading, 0, NoDetail));
      uploadProgress := initialProgress;
      var req := UploadRequestFor(files);
      request := Some(req);
    }

    /** The progress callback: every file of the batch gets the same
        uploading entry with the reported percentage. */
    method OnUploadProgress(batch: seq<StagedFile>, percent: int)
      requires Valid()
      modifies this
      ensures Valid()
      ensures uploadProgress == Broadcast(batch, ProgressEntry(Uploading, percent, NoDetail))
      ensures files == old(files) && uploading == old(uploading)
      ensures error == old(error) && success == old(success)
    {
      var progressUpdate := BroadcastEntry(batch, ProgressEntry(Uploading, percent, NoDetail));
      uploadProgress := progressUpdate;
    }

    /** The page shows settlement `s`: its progress map, the messages it
        sets (the others keep `oldError` and `oldSuccess`) and its navigation. */
    ghost predicate Shows(s: Settlement, oldError: string, oldSuccess: string, nav: Navigation)
      reads this
    {
      uploadProgress == s.progress && nav == s.nav &&
      error == (if s.error.Some? then s.error.value else oldError) &&
      success == (if s.success.Some? then s.success.value else oldSuccess)
    }

    /** The single-file shape of the response. */
    method SettleSingle(fileObj: StagedFile, responseData: Option<ResponseData>) returns (nav: Navigation)
      modifies this
      ensures Shows(SingleSettlement(fileObj, responseData), old(error), old(success), nav)
      ensures files == old(files) && uploading == old(uploading)
    {
      nav := Stay;
      uploadProgress := map[fileObj.id := ProgressEntry(Completed, 100, WithResponse(responseData))];
      var verdict := SingleFileVerdict(responseData);
      if verdict.Analyzed? {
        success := AnalyzedMessage;
        nav := ToResult(verdict.id);
      } else if verdict.AlreadyProcessed? {
        assert false;
      } else {
        error := MissingIdMessage;
      }
    }

    /** The batch shape of the response: the positional pass, the named
        errors, then the summary message and the navigation. */
    method SettleBatch(batch: seq<StagedFile>, results: seq<BatchResult>, errors: Option<seq<NamedError>>) returns (nav: Navigation)
      modifies this
      ensures Shows(BatchSettlement(batch, results, errors), old(error), old(success), nav)
      ensures files == old(files) && uploading == old(uploading)
    {
      nav := Stay;
      var finalProgress := PositionalPass(batch, results);
      if errors.Some? && |errors.value| > 0 {
        finalProgress := NamedErrorPass(finalProgress, batch, errors.value);
      }
      uploadProgress := finalProgress;
      var successCount := |Filter(results, Succeeded)|;
      var errorCount := if errors.Some? then |errors.value| else 0;
      if successCount == |batch| {
        success := "All " + NatToString(successCount) + " images uploaded and analyzed successfully!";
      } else if successCount > 0 {
        success := NatToString(successCount) + " images uploaded successfully. " + NatToString(errorCount) + " failed.";
      } else {
        error := AllFailedMessage;
      }
      if successCount > 0 {
        nav := ToHistory;
      }
    }

    /** The catch block: every file of the batch errored at 0 and the
        server's message, or the generic one. */
    method SettleFailure(batch: seq<StagedFile>, serverMessage: string) returns (nav: Navigation)
      modifies this
      ensures Shows(FailureSettlement(batch, serverMessage), old(error), old(success), nav)
      ensures files == old(files) && uploading == old(uploading)
    {
      nav := Stay;
      var errorProgress := BroadcastEntry(batch, ProgressEntry(Errored, 0, WithError(serverMessage)));
      uploadProgress := errorProgress;
      error := if serverMessage != "" then serverMessage else UploadFailedMessage;
    }

    /** `handleUpload` after the call: the reconciliation of the response,
        or the catch block, and the `finally` that ends the upload. */
    method SettleUpload(batch: seq<StagedFile>, outcome: UploadOutcome) returns (nav: Navigation)
      requires Valid() && batch != []
      modifies this
      ensures Valid()
      ensures !uploading && files == old(files)
      ensures Shows(Settle(batch, outcome), old(error), old(success), nav)
    {
      if outcome.Threw? {
        nav := SettleFailure(batch, outcome.serverMessage);
      } else if |batch| == 1 {
        nav := SettleSingle(batch[0], outcome.data);
      } else if outcome.data.None? || outcome.data.value.results.None? {
        // destructuring a missing body or iterating missing results throws into the catch block
        nav := SettleFailure(batch, "");
      } else {
        nav := SettleBatch(batch, outcome.data.value.results.value, outcome.data.value.errors);
      }
      uploading := false;
    }
  }
}
