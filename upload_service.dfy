/** The upload service: file validation against the configured limits,
    MIME-type categories and the category filter, the list of supported
    extensions, the preview hook, and the simulated single and batch
    upload. The timers and random numbers of the simulation are the
    `Transport` record that each upload receives. */
module Service {
  import opened Wrappers
  import opened Strings
  import opened Seqs
  import opened Model
  import opened Arith

  // ---------------------------------------------------------------------
  // Validation

  datatype Validation = Validation(isValid: bool, errors: seq<string>)

  const MiB: nat := 1024 * 1024

  /** `(maxFileSize / 1024 / 1024).toFixed(1)`: the limit in MiB, rounded
      half up to one decimal. Dividing by powers of two is exact, so the
      integer computation agrees with the floating-point one. */
  function SizeLimitText(maxFileSize: nat): string
  {
    var tenths := (10 * maxFileSize + MiB / 2) / MiB;
    NatToString(tenths / 10) + "." + [DigitChar(tenths % 10)]
  }

  /** The limit text is digits, a point and one digit, and reads back as
      the limit's number of tenths of a MiB, rounded half up. */
  lemma SizeLimitTextValue(maxFileSize: nat)
    ensures var s := SizeLimitText(maxFileSize);
            && |s| >= 3 && s[|s| - 2] == '.'
            && (forall i :: 0 <= i < |s| && i != |s| - 2 ==> IsDigit(s[i]))
            && 10 * DigitsValue(s[..|s| - 2]) + (s[|s| - 1] as int - '0' as int)
               == (10 * maxFileSize + MiB / 2) / MiB
  {
    var tenths := (10 * maxFileSize + MiB / 2) / MiB;
    var whole := NatToString(tenths / 10);
    var s := SizeLimitText(maxFileSize);
    assert s[..|s| - 2] == whole;
    DigitsValueOfNatToString(tenths / 10);
  }

  /** A 10 MiB limit reads "10.0". */
  lemma TenMiBLimitText()
    ensures SizeLimitText(10 * MiB) == "10.0"
  {
    var s := SizeLimitText(10 * MiB);
    assert (10 * (10 * MiB) + MiB / 2) / MiB == 100;
    assert NatToString(10) == "10";
  }

  function SizeError(maxFileSize: nat): string
  {
    "File size exceeds " + SizeLimitText(maxFileSize) + "MB limit"
  }

  function TypeError(mimeType: string): string
  {
    "File type " + mimeType + " is not supported"
  }

  /** The two messages can never be confused: they differ at position 5. */
  lemma SizeAndTypeErrorsDiffer(maxFileSize: nat, mimeType: string)
    ensures SizeError(maxFileSize) != TypeError(mimeType)
  {
    assert SizeError(maxFileSize)[5] == 's';
    assert TypeError(mimeType)[5] == 't';
  }

  /** `validateFile`: the size check, then the type check, each adding its
      message; valid exactly when no message was added. */
  function Validate(config: UploadConfig, file: FileHandle): Validation
  {
    var sizeErrors := if file.size > config.maxFileSize then [SizeError(config.maxFileSize)] else [];
    var typeErrors := if file.mimeType !in config.allowedTypes then [TypeError(file.mimeType)] else [];
    var errors := sizeErrors + typeErrors;
    Validation(|errors| == 0, errors)
  }

  /** A size error exactly when the file is too large, a type error exactly
      when its type is not allowed, the size error first, nothing else;
      valid exactly when there is no error. */
  lemma ValidateSpec(config: UploadConfig, file: FileHandle)
    ensures var v := Validate(config, file);
            && (v.isValid <==> v.errors == [])
            && |v.errors| <= 2
            && (SizeError(config.maxFileSize) in v.errors <==> file.size > config.maxFileSize)
            && (TypeError(file.mimeType) in v.errors <==> file.mimeType !in config.allowedTypes)
            && (forall m :: m in v.errors ==> m == SizeError(config.maxFileSize) || m == TypeError(file.mimeType))
            && (file.size > config.maxFileSize ==> v.errors[0] == SizeError(config.maxFileSize))
  {
    SizeAndTypeErrorsDiffer(config.maxFileSize, file.mimeType);
  }

  // ---------------------------------------------------------------------
  // Categories and the category filter

  datatype Category = Image | Video | Audio | Document | Archive | Other

  predicate IsMediaType(mimeType: string)
  {
    StartsWith(mimeType, "image/") || StartsWith(mimeType, "video/") || StartsWith(mimeType, "audio/")
  }

  /** One of the words that make a non-media type a document. */
  predicate MentionsDocument(mimeType: string)
  {
    || Contains(mimeType, "pdf")
    || Contains(mimeType, "word") || Contains(mimeType, "document")
    || Contains(mimeType, "excel") || Contains(mimeType, "spreadsheet")
    || Contains(mimeType, "powerpoint") || Contains(mimeType, "presentation")
    || Contains(mimeType, "text")
  }

  /** `getFileCategory`: the first rule that matches decides. */
  function GetFileCategory(mimeType: string): (c: Category)
    ensures c == Image <==> StartsWith(mimeType, "image/")
    ensures c == Video <==> !StartsWith(mimeType, "image/") && StartsWith(mimeType, "video/")
    ensures c == Audio <==> !StartsWith(mimeType, "image/") && !StartsWith(mimeType, "video/")
                            && StartsWith(mimeType, "audio/")
    ensures c == Document <==> !IsMediaType(mimeType) && MentionsDocument(mimeType)
    ensures c == Archive <==> !IsMediaType(mimeType) && !MentionsDocument(mimeType) && Contains(mimeType, "zip")
    ensures c == Other <==> !IsMediaType(mimeType) && !MentionsDocument(mimeType) && !Contains(mimeType, "zip")
  {
    if StartsWith(mimeType, "image/") then Image
    else if StartsWith(mimeType, "video/") then Video
    else if StartsWith(mimeType, "audio/") then Audio
    else if Contains(mimeType, "pdf") then Document
    else if Contains(mimeType, "word") || Contains(mimeType, "document") then Document
    else if Contains(mimeType, "excel") || Contains(mimeType, "spreadsheet") then Document
    else if Contains(mimeType, "powerpoint") || Contains(mimeType, "presentation") then Document
    else if Contains(mimeType, "text") then Document
    else if Contains(mimeType, "zip") then Archive
    else Other
  }

  /** The `switch` inside `filterFilesByCategory`: which category each
      filter id selects; an unknown id selects nothing. */
  predicate InFilter(filter: string, c: Category)
  {
    || (filter == "images" && c == Image)
    || (filter == "documents" && c == Document)
    || (filter == "videos" && c == Video)
    || (filter == "audio" && c == Audio)
  }

  predicate EntryInFilter(filter: string, e: Entry)
  {
    InFilter(filter, GetFileCategory(e.mimeType))
  }

  /** `filterFilesByCategory`: `"all"` is the identity; any other id keeps,
      in order and with their multiplicities, exactly the entries of its
      category. */
  function FilterFilesByCategory(files: seq<Entry>, filter: string): (r: seq<Entry>)
    ensures filter == "all" ==> r == files
    ensures filter != "all" ==> forall e :: e in r <==> e in files && EntryInFilter(filter, e)
    ensures filter != "all" ==> forall e :: multiset(r)[e] == if EntryInFilter(filter, e) then multiset(files)[e] else 0
    ensures IsSubsequence(r, files)
    ensures filter !in {"all", "images", "documents", "videos", "audio"} ==> r == []
  {
    if filter == "all" then
      assert IsSubsequence(files, files) by { SubsequenceOfItself(files); }
      files
    else
      var p := (e: Entry) => EntryInFilter(filter, e);
      FilterCounts(files, p);
      FilterIsSubsequence(files, p);
      FilterMembers(files, p);
      Filter(files, p)
  }

  lemma {:induction false} SubsequenceOfItself<T>(s: seq<T>)
    ensures IsSubsequence(s, s)
  {
    if s != [] {
      SubsequenceOfItself(s[1..]);
    }
  }

  // ---------------------------------------------------------------------
  // Supported extensions

  /** `extensionMap` of `getSupportedExtensions`. */
  const ExtensionMap: map<string, seq<string>> := map[
    "image/jpeg" := ["jpg", "jpeg"],
    "image/png" := ["png"],
    "image/gif" := ["gif"],
    "image/webp" := ["webp"],
    "image/svg+xml" := ["svg"],
    "application/pdf" := ["pdf"],
    "application/msword" := ["doc"],
    "application/vnd.openxmlformats-officedocument.wordprocessingml.document" := ["docx"],
    "application/vnd.ms-excel" := ["xls"],
    "application/vnd.openxmlformats-officedocument.spreadsheetml.sheet" := ["xlsx"],
    "application/vnd.ms-powerpoint" := ["ppt"],
    "application/vnd.openxmlformats-officedocument.presentationml.presentation" := ["pptx"],
    "text/plain" := ["txt"],
    "text/csv" := ["csv"],
    "video/mp4" := ["mp4"],
    "video/avi" := ["avi"],
    "video/mov" := ["mov"],
    "video/wmv" := ["wmv"],
    "video/quicktime" := ["mov"],
    "audio/mp3" := ["mp3"],
    "audio/wav" := ["wav"],
    "audio/mpeg" := ["mp3"],
    "application/zip" := ["zip"],
    "application/x-zip-compressed" := ["zip"]
  ]

  /** What one allowed type contributes: its mapped extensions, or nothing. */
  function ExtensionsOf(mimeType: string): seq<string>
  {
    if mimeType in ExtensionMap then ExtensionMap[mimeType] else []
  }

  /** The extensions pushed for `types`, in order, duplicates included. */
  function CollectExtensions(types: seq<string>): seq<string>
  {
    if types == [] then [] else CollectExtensions(types[..|types| - 1]) + ExtensionsOf(types[|types| - 1])
  }

  /** An extension is collected exactly when one of the types maps to it. */
  lemma {:induction false} CollectExtensionsMembers(types: seq<string>, x: string)
    ensures x in CollectExtensions(types)
        <==> exists t :: t in types && t in ExtensionMap && x in ExtensionMap[t]
  {
    if types != [] {
      var init, last := types[..|types| - 1], types[|types| - 1];
      CollectExtensionsMembers(init, x);
      assert types == init + [last];
      if x in CollectExtensions(types) && x !in CollectExtensions(init) {
        assert last in types && last in ExtensionMap && x in ExtensionMap[last];
      }
      if exists t :: t in types && t in ExtensionMap && x in ExtensionMap[t] {
        var t :| t in types && t in ExtensionMap && x in ExtensionMap[t];
        if t != last {
          assert t in init;
        }
      }
    }
  }

  // ---------------------------------------------------------------------
  // Preview

  /** `generatePreview`: no preview for a non-image type; for an image,
      whatever the browser's decoder delivers (`None` when it fails). */
  function GeneratePreview(file: FileHandle, decoded: Option<string>): (p: Option<string>)
    ensures !StartsWith(file.mimeType, "image/") ==> p == None
    ensures StartsWith(file.mimeType, "image/") ==> p == decoded
  {
    if !StartsWith(file.mimeType, "image/") then None else decoded
  }

  // ---------------------------------------------------------------------
  // Simulated upload

  /** What the environment decides for one simulated upload: the random
      progress increments of the ticks that fire before the random
      duration ends, whether the final 10% failure draw hits, and the id,
      clock reading and object URL of the result. */
  datatype Transport = Transport(
    increments: seq<real>,
    fails: bool,
    resultId: string,
    uploadedAt: int,
    url: string)

  /** `Math.random() * 25` lies in [0, 25). */
  predicate ValidTransport(env: Transport)
  {
    forall k :: 0 <= k < |env.increments| ==> 0.0 <= env.increments[k] < 25.0
  }

  datatype UploadResult = UploadResult(
    id: string,
    name: string,
    size: nat,
    mimeType: string,
    uploadedAt: int,
    url: string)

  datatype UploadOutcome = Uploaded(result: UploadResult) | Failed(message: string)

  const NetworkError: string := "Upload failed due to network error"

  /** How `uploadFile` settles: the first validation error for an invalid
      file, otherwise the network failure or the result record. */
  function Outcome(config: UploadConfig, file: FileHandle, env: Transport): UploadOutcome
  {
    var v := Validate(config, file);
    if !v.isValid then Failed(v.errors[0])
    else if env.fails then Failed(NetworkError)
    else Uploaded(UploadResult(env.resultId, file.name, file.size, file.mimeType, env.uploadedAt, env.url))
  }

  /** An upload succeeds exactly when the file is valid and the failure
      draw misses; an invalid file fails with its first validation error
      (the size error when it is too large), a valid one only with the
      network error; a result describes the uploaded file. */
  lemma OutcomeSpec(config: UploadConfig, file: FileHandle, env: Transport)
    ensures var o := Outcome(config, file, env);
            var v := Validate(config, file);
            && (o.Uploaded? <==> v.isValid && !env.fails)
            && (!v.isValid ==> o == Failed(v.errors[0]))
            && (file.size > config.maxFileSize ==> o == Failed(SizeError(config.maxFileSize)))
            && (v.isValid ==> (o.Failed? <==> o == Failed(NetworkError)))
            && (o.Uploaded? ==> o.result.name == file.name && o.result.size == file.size
                                && o.result.mimeType == file.mimeType && o.result.id == env.resultId)
  {
    ValidateSpec(config, file);
  }

  /** The `progress` variable after the given ticks: each tick adds its
      increment and caps the sum at 95. */
  function Capped(increments: seq<real>): real
  {
    if increments == [] then 0.0
    else
      var p := Capped(increments[..|increments| - 1]) + increments[|increments| - 1];
      if p > 95.0 then 95.0 else p
  }

  /** With non-negative increments the capped progress never decreases and
      stays within 0..95. */
  lemma {:induction false} CappedBoundsAndGrows(increments: seq<real>, k: nat)
    requires k <= |increments|
    requires forall j :: 0 <= j < |increments| ==> 0.0 <= increments[j]
    ensures 0.0 <= Capped(increments[..k]) <= Capped(increments) <= 95.0
    decreases |increments|
  {
    if increments != [] {
      var init := increments[..|increments| - 1];
      if k == |increments| {
        assert increments[..k] == increments;
        CappedBoundsAndGrows(init, |init|);
        assert init[..|init|] == init;
      } else {
        assert increments[..k] == init[..k];
        CappedBoundsAndGrows(init, k);
      }
    }
  }

  /** Integer floors of reals preserve order. */
  lemma FloorMonotone(x: real, y: real)
    requires x <= y
    ensures x.Floor <= y.Floor
  {
  }

  /** One `onProgress` value per tick: the floor of the capped progress. */
  function TickValue(increments: seq<real>, k: nat): int
    requires k < |increments|
  {
    Capped(increments[..k + 1]).Floor
  }

  lemma TickValuesOrdered(increments: seq<real>, i: nat, j: nat)
    requires i <= j < |increments|
    requires forall k :: 0 <= k < |increments| ==> 0.0 <= increments[k]
    ensures 0 <= TickValue(increments, i) <= TickValue(increments, j) <= 95
  {
    var pre := increments[..j + 1];
    assert forall k :: 0 <= k < |pre| ==> 0.0 <= pre[k];
    CappedBoundsAndGrows(pre, i + 1);
    assert pre[..i + 1] == increments[..i + 1];
    FloorMonotone(Capped(increments[..i + 1]), Capped(pre));
    FloorMonotone(0.0, Capped(increments[..i + 1]));
    FloorMonotone(Capped(pre), 95.0);
  }

  /** The values `uploadFile` passes to `onProgress`: none for an invalid
      file, otherwise one per tick and then 100. */
  function ProgressEvents(config: UploadConfig, file: FileHandle, env: Transport): seq<int>
  {
    if !Validate(config, file).isValid then []
    else
      var incs := env.increments;
      seq(|incs|, k requires 0 <= k < |incs| => TickValue(incs, k)) + [100]
  }

  /** No progress for an invalid file; otherwise one value per tick, never
      above 95 and never going back, then a final 100. */
  lemma ProgressEventsSpec(config: UploadConfig, file: FileHandle, env: Transport)
    requires ValidTransport(env)
    ensures var events := ProgressEvents(config, file, env);
            && (!Validate(config, file).isValid ==> events == [])
            && (Validate(config, file).isValid ==>
                  && |events| == |env.increments| + 1
                  && events[|env.increments|] == 100
                  && forall k :: 0 <= k < |env.increments| ==> events[k] == TickValue(env.increments, k))
            && (forall k :: 0 <= k < |events| - 1 ==> 0 <= events[k] <= 95)
            && (forall k :: 0 <= k < |events| ==> 0 <= events[k] <= 100)
            && (forall i, j :: 0 <= i <= j < |events| ==> events[i] <= events[j])
  {
    var events := ProgressEvents(config, file, env);
    var incs := env.increments;
    if Validate(config, file).isValid {
      forall i, j | 0 <= i <= j < |events| ensures events[i] <= events[j] {
        if j < |incs| {
          TickValuesOrdered(incs, i, j);
        } else if i < |incs| {
          TickValuesOrdered(incs, i, i);
        }
      }
      forall k | 0 <= k < |events| - 1 ensures 0 <= events[k] <= 95 {
        TickValuesOrdered(incs, k, k);
      }
    }
  }

  /** One report of the batch upload's `onProgress`. */
  datatype ProgressReport = ProgressReport(overall: int, index: nat, name: string)

  /** One entry of the batch upload's result list. */
  datatype BatchItem =
    | Succeeded(file: FileHandle, result: UploadResult)
    | FailedItem(file: FileHandle, error: string)

  function ItemOf(file: FileHandle, o: UploadOutcome): BatchItem
  {
    match o
    case Uploaded(result) => Succeeded(file, result)
    case Failed(message) => FailedItem(file, message)
  }

  /** The reports the batch forwards while file `i` of `total` reports
      the file progress values `events`. */
  function FileReports(i: nat, total: nat, name: string, events: seq<int>): (r: seq<ProgressReport>)
    requires i < total
    requires forall k :: 0 <= k < |events| ==> 0 <= events[k]
    ensures |r| == |events|
    ensures forall m :: 0 <= m < |r| ==> r[m] == ProgressReport(Overall(i, events[m], total), i, name)
  {
    seq(|events|, m requires 0 <= m < |events| => ProgressReport(Overall(i, events[m], total), i, name))
  }

  /** The reports file `i` of `total` forwards during its upload: one per
      progress value that `uploadFile` reports for it. */
  function FileStream(config: UploadConfig, i: nat, total: nat, file: FileHandle, env: Transport): seq<ProgressReport>
    requires i < total && ValidTransport(env)
  {
    ProgressEventsSpec(config, file, env);
    FileReports(i, total, file.name, ProgressEvents(config, file, env))
  }

  /** Progress values that stay within 0..100 and never go back. */
  predicate ValidEvents(events: seq<int>)
  {
    && (forall k :: 0 <= k < |events| ==> 0 <= events[k] <= 100)
    && (forall j, k :: 0 <= j < |events| && 0 <= k < |events| && k == j + 1 ==> events[j] <= events[k])
  }

  lemma ProgressEventsValid(config: UploadConfig, file: FileHandle, env: Transport)
    requires ValidTransport(env)
    ensures ValidEvents(ProgressEvents(config, file, env))
  {
    ProgressEventsSpec(config, file, env);
  }

  /** The progress values `uploadFile` reports for each of the first `n`
      files of a batch, in input order; each list is valid. */
  function BatchEvents(config: UploadConfig, files: seq<FileHandle>, envs: seq<Transport>, n: nat): (r: seq<seq<int>>)
    requires n <= |files| == |envs|
    requires forall k :: 0 <= k < |envs| ==> ValidTransport(envs[k])
    ensures |r| == n
    ensures forall k :: 0 <= k < n ==> r[k] == ProgressEvents(config, files[k], envs[k]) && ValidEvents(r[k])
  {
    if n == 0 then []
    else
      ProgressEventsValid(config, files[n - 1], envs[n - 1]);
      BatchEvents(config, files, envs, n - 1) + [ProgressEvents(config, files[n - 1], envs[n - 1])]
  }

  /** Every report of a batch, in order: the reports of its first `n` files
      one after the other, file `k` forwarding the values `events[k]`. */
  function BatchStream(files: seq<FileHandle>, events: seq<seq<int>>, n: nat): seq<ProgressReport>
    requires n <= |files| == |events|
    requires forall k :: 0 <= k < |events| ==> ValidEvents(events[k])
  {
    if n == 0 then []
    else BatchStream(files, events, n - 1) + FileReports(n - 1, |files|, files[n - 1].name, events[n - 1])
  }

  /** The stream of the first `n` files is ordered, about those files, and
      ends by the share of file `n`. */
  lemma {:induction false} BatchStreamReports(files: seq<FileHandle>, events: seq<seq<int>>, n: nat, reports: seq<ProgressReport>)
    requires n <= |files| == |events|
    requires forall k :: 0 <= k < |events| ==> ValidEvents(events[k])
    requires reports == BatchStream(files, events, n)
    ensures BatchReports(reports, files, n)
  {
    if n > 0 {
      var before := BatchStream(files, events, n - 1);
      BatchStreamReports(files, events, n - 1, before);
      AppendFileReports(before, files, n, events[n - 1]);
    } else {
      assert reports == [];
    }
  }

  /** A whole batch's stream: every report is a percentage about one of the
      files, and the reports never go back. */
  lemma StreamReports(reports: seq<ProgressReport>, files: seq<FileHandle>, events: seq<seq<int>>)
    requires |files| == |events|
    requires forall k :: 0 <= k < |events| ==> ValidEvents(events[k])
    requires reports == BatchStream(files, events, |files|)
    ensures ReportsOf(reports, files, |files|) && Ordered(reports)
  {
    BatchStreamReports(files, events, |files|, reports);
  }

  /** Reports that never go back, neither in overall progress nor in file
      index. */
  predicate Ordered(reports: seq<ProgressReport>)
  {
    forall j, k :: 0 <= j < |reports| && 0 <= k < |reports| && k == j + 1 ==>
      reports[j].overall <= reports[k].overall && reports[j].index <= reports[k].index
  }

  /** Every report is a percentage about one of the first `n` files and
      carries that file's name. */
  predicate ReportsOf(reports: seq<ProgressReport>, files: seq<FileHandle>, n: nat)
  {
    forall m :: 0 <= m < |reports| ==>
      && 0 <= reports[m].overall <= 100
      && reports[m].index < n && reports[m].index < |files|
      && reports[m].name == files[reports[m].index].name
  }

  /** The result list after the first `n` files: one item per file, in
      input order, each the file's own outcome. */
  predicate ResultsOf(config: UploadConfig, results: seq<BatchItem>, files: seq<FileHandle>, envs: seq<Transport>, n: nat)
    requires n <= |files| == |envs|
  {
    && |results| == n
    && forall j :: 0 <= j < n ==> results[j] == ItemOf(files[j], Outcome(config, files[j], envs[j]))
  }

  /** Appending the item of file `n` extends the result list by one file. */
  lemma ExtendResults(config: UploadConfig, results: seq<BatchItem>, item: BatchItem,
                      files: seq<FileHandle>, envs: seq<Transport>, n: nat)
    requires n < |files| == |envs|
    requires ResultsOf(config, results, files, envs, n)
    requires item == ItemOf(files[n], Outcome(config, files[n], envs[n]))
    ensures ResultsOf(config, results + [item], files, envs, n + 1)
  {
    var r := results + [item];
    assert forall j :: 0 <= j < n ==> r[j] == results[j];
  }

  /** The reports of file `i` of `total`: in order, each a percentage
      between the overall progress at the start of file `i` and at the
      start of file `i + 1`, naming file `i`. */
  predicate FileReportsWithin(forwarded: seq<ProgressReport>, i: nat, total: nat, name: string)
    requires i < total
  {
    && Ordered(forwarded)
    && forall m :: 0 <= m < |forwarded| ==>
         && Quotient(i * 100, total) <= forwarded[m].overall <= Quotient((i + 1) * 100, total) <= 100
         && forwarded[m].index == i && forwarded[m].name == name
  }

  /** The last report, if any, is at most `bound`. */
  predicate EndsBy(reports: seq<ProgressReport>, bound: int)
  {
    reports != [] ==> reports[|reports| - 1].overall <= bound
  }

  /** The batch's reports after `i` of its files are done. */
  predicate BatchReports(reports: seq<ProgressReport>, files: seq<FileHandle>, i: nat)
    requires i <= |files|
  {
    && ReportsOf(reports, files, i)
    && Ordered(reports)
    && (|files| > 0 ==> EndsBy(reports, Quotient(i * 100, |files|)))
  }

  /** Appending the reports of file `i` keeps every report a percentage
      about one of the files done so far. */
  lemma ExtendReportsOf(reports: seq<ProgressReport>, forwarded: seq<ProgressReport>, files: seq<FileHandle>, i: nat)
    requires i < |files|
    requires ReportsOf(reports, files, i)
    requires FileReportsWithin(forwarded, i, |files|, files[i].name)
    ensures ReportsOf(reports + forwarded, files, i + 1)
  {
    var all := reports + forwarded;
    forall m | 0 <= m < |all|
      ensures 0 <= all[m].overall <= 100 && all[m].index < i + 1 && all[m].name == files[all[m].index].name
    {
      if m < |reports| {
        assert all[m] == reports[m];
      } else {
        assert all[m] == forwarded[m - |reports|];
      }
    }
  }

  /** Appending the reports of file `i` after reports that end by the start
      of file `i` keeps them in order. */
  lemma ExtendOrdered(reports: seq<ProgressReport>, forwarded: seq<ProgressReport>, files: seq<FileHandle>, i: nat)
    requires i < |files|
    requires BatchReports(reports, files, i)
    requires FileReportsWithin(forwarded, i, |files|, files[i].name)
    ensures Ordered(reports + forwarded)
  {
    var all := reports + forwarded;
    forall j, k | 0 <= j < |all| && 0 <= k < |all| && k == j + 1
      ensures all[j].overall <= all[k].overall && all[j].index <= all[k].index
    {
      if k < |reports| {
        assert all[j] == reports[j] && all[k] == reports[k];
      } else if k == |reports| {
        assert all[j] == reports[|reports| - 1] && all[k] == forwarded[0];
      } else {
        assert all[j] == forwarded[j - |reports|] && all[k] == forwarded[k - |reports|];
      }
    }
  }

  /** Appending the reports of file `i` keeps the batch's reports in order
      and about the files done so far. */
  lemma ExtendReports(reports: seq<ProgressReport>, forwarded: seq<ProgressReport>, files: seq<FileHandle>, i: nat)
    requires i < |files|
    requires BatchReports(reports, files, i)
    requires FileReportsWithin(forwarded, i, |files|, files[i].name)
    ensures BatchReports(reports + forwarded, files, i + 1)
  {
    ExtendReportsOf(reports, forwarded, files, i);
    ExtendOrdered(reports, forwarded, files, i);
    if forwarded == [] {
      QuotientMonotone(i * 100, (i + 1) * 100, |files|);
    } else {
      assert (reports + forwarded)[|reports + forwarded| - 1] == forwarded[|forwarded| - 1];
    }
  }

  /** Appending the reports the `n`th file forwards for valid progress
      values keeps the batch's reports in order and about the files done
      so far. */
  lemma AppendFileReports(reports: seq<ProgressReport>, files: seq<FileHandle>, n: nat, events: seq<int>)
    requires 0 < n <= |files| && ValidEvents(events)
    requires BatchReports(reports, files, n - 1)
    ensures BatchReports(reports + FileReports(n - 1, |files|, files[n - 1].name, events), files, n)
  {
    FileReportsBounds(n - 1, |files|, files[n - 1].name, events);
    ExtendReports(reports, FileReports(n - 1, |files|, files[n - 1].name, events), files, n - 1);
  }

  lemma FileReportsBounds(i: nat, total: nat, name: string, events: seq<int>)
    requires i < total && ValidEvents(events)
    ensures FileReportsWithin(FileReports(i, total, name, events), i, total, name)
  {
    var r := FileReports(i, total, name, events);
    forall j, k | 0 <= j < |r| && 0 <= k < |r| && k == j + 1
      ensures r[j].overall <= r[k].overall
    {
      OverallProgressBounds(i, events[j], events[k], total);
    }
    forall m | 0 <= m < |r|
      ensures Quotient(i * 100, total) <= r[m].overall <= Quotient((i + 1) * 100, total) <= 100
    {
      OverallProgressBounds(i, events[m], events[m], total);
    }
  }

  class UploadService {
    const config: UploadConfig

    constructor (config: UploadConfig)
      ensures this.config == config
    {
      this.config := config;
    }

    /** `validateFile`, pushing each failed check's message in turn. */
    method ValidateFile(file: FileHandle) returns (v: Validation)
      ensures v == Validate(config, file)
    {
      var errors: seq<string> := [];
      if file.size > config.maxFileSize {
        errors := errors + [SizeError(config.maxFileSize)];
      }
      if file.mimeType !in config.allowedTypes {
        errors := errors + [TypeError(file.mimeType)];
      }
      v := Validation(|errors| == 0, errors);
    }

    /** `getSupportedExtensions`: the extensions of the allowed types,
        each once, in ascending order. */
    method GetSupportedExtensions() returns (r: seq<string>)
      ensures StrictlySorted(r)
      ensures forall x :: x in r <==>
                exists t :: t in config.allowedTypes && t in ExtensionMap && x in ExtensionMap[t]
    {
      var types := config.allowedTypes;
      var extensions: seq<string> := [];
      for i := 0 to |types|
        invariant extensions == CollectExtensions(types[..i])
      {
        assert types[..i + 1][..i] == types[..i];
        if types[i] in ExtensionMap {
          extensions := extensions + ExtensionMap[types[i]];
        }
      }
      assert types[..|types|] == types;
      r := SortDistinct(extensions);
      forall x ensures x in r <==> exists t :: t in types && t in ExtensionMap && x in ExtensionMap[t] {
        CollectExtensionsMembers(types, x);
      }
    }

    /** `uploadFile`: the progress values it reports and how it settles. */
    method UploadFile(file: FileHandle, env: Transport) returns (o: UploadOutcome, events: seq<int>)
      requires ValidTransport(env)
      ensures o == Outcome(config, file, env)
      ensures events == ProgressEvents(config, file, env)
    {
      var validation := ValidateFile(file);
      if !validation.isValid {
        return Failed(validation.errors[0]), [];
      }
      var incs := env.increments;
      var progress := 0.0;
      events := [];
      for k := 0 to |incs|
        invariant progress == Capped(incs[..k])
        invariant |events| == k
        invariant forall j :: 0 <= j < k ==> events[j] == TickValue(incs, j)
      {
        assert incs[..k + 1][..k] == incs[..k];
        progress := progress + incs[k];
        if progress > 95.0 {
          progress := 95.0;
        }
        events := events + [progress.Floor];
      }
      events := events + [100];
      if env.fails {
        o := Failed(NetworkError);
      } else {
        o := Uploaded(UploadResult(env.resultId, file.name, file.size, file.mimeType, env.uploadedAt, env.url));
      }
    }

    /** One iteration of `uploadFiles`: upload file `i` of `total`,
        forwarding each of its progress values as overall progress, and
        turn its outcome into a result item. */
    method UploadOne(i: nat, total: nat, file: FileHandle, env: Transport)
      returns (item: BatchItem, forwarded: seq<ProgressReport>)
      requires i < total && ValidTransport(env)
      ensures item == ItemOf(file, Outcome(config, file, env))
      ensures forwarded == FileStream(config, i, total, file, env)
      ensures FileReportsWithin(forwarded, i, total, file.name)
    {
      var o, events := UploadFile(file, env);
      ProgressEventsSpec(config, file, env);
      assert ValidEvents(events);
      forwarded := FileReports(i, total, file.name, events);
      FileReportsBounds(i, total, file.name, events);
      item := ItemOf(file, o);
    }

    /** `uploadFiles`: uploads the files one after another; every file gets
        its result in input order whatever happened to the others, and the
        overall progress it reports is a percentage that never goes back. */
    method UploadFiles(files: seq<FileHandle>, envs: seq<Transport>)
      returns (results: seq<BatchItem>, reports: seq<ProgressReport>)
      requires |envs| == |files|
      requires forall k :: 0 <= k < |envs| ==> ValidTransport(envs[k])
      ensures ResultsOf(config, results, files, envs, |files|)
      ensures reports == BatchStream(files, BatchEvents(config, files, envs, |files|), |files|)
      ensures ReportsOf(reports, files, |files|)
      ensures Ordered(reports)
    {
      ghost var events := BatchEvents(config, files, envs, |files|);
      results, reports := [], [];
      for i := 0 to |files|
        invariant ResultsOf(config, results, files, envs, i)
        invariant reports == BatchStream(files, events, i)
      {
        var item, forwarded := UploadOne(i, |files|, files[i], envs[i]);
        assert forwarded == FileReports(i, |files|, files[i].name, events[i]);
        ExtendResults(config, results, item, files, envs, i);
        reports := reports + forwarded;
        results := results + [item];
      }
      StreamReports(reports, files, events);
    }
  }
}
