/** The home page: it owns the `files` list, appends what the drop zone
    delivers, removes single entries, auto-clears the successful entries
    after a batch in which every upload succeeded, and keeps the list on
    display in step with the active category filter. */
module HomePage {
  import opened Wrappers
  import opened Seqs
  import opened Model
  import opened Service
  import opened DropZone
  import opened Controls

  // ---------------------------------------------------------------------
  // List updates

  /** The `maxFiles` prop handed to the drop zone: the configured limit,
      or 10 when the configuration gives 0. */
  function MaxFilesProp(config: UploadConfig): int
  {
    if config.maxFiles != 0 then config.maxFiles else 10
  }

  /** The drop zone's limit is never 0, and is the configured one whenever
      that is set. */
  lemma MaxFilesPropSpec(config: UploadConfig)
    ensures MaxFilesProp(config) != 0
    ensures config.maxFiles != 0 ==> MaxFilesProp(config) == config.maxFiles
    ensures config.maxFiles == 0 ==> MaxFilesProp(config) == 10
  {
  }

  /** Appending a selection whose ids are fresh keeps ids unique. */
  lemma AppendKeepsUniqueIds(files: seq<Entry>, added: seq<Entry>)
    requires UniqueIds(files) && UniqueIds(added)
    requires forall i, j :: 0 <= i < |files| && 0 <= j < |added| ==> files[i].id != added[j].id
    ensures UniqueIds(files + added)
  {
    var r := files + added;
    forall i, j | 0 <= i < j < |r| ensures r[i].id != r[j].id {
      if j < |files| {
        assert r[i] == files[i] && r[j] == files[j];
      } else if i < |files| {
        assert r[i] == files[i] && r[j] == added[j - |files|];
      } else {
        assert r[i] == added[i - |files|] && r[j] == added[j - |files|];
      }
    }
  }

  /** `handleRemoveFile`'s list: every entry whose id differs. */
  function RemoveById(files: seq<Entry>, id: string): seq<Entry>
  {
    Filter(files, (e: Entry) => e.id != id)
  }

  /** Removal keeps, in order and as often as they occur, exactly the
      entries with another id. */
  lemma RemoveByIdSpec(files: seq<Entry>, id: string)
    ensures forall e :: e in RemoveById(files, id) <==> e in files && e.id != id
    ensures forall e :: multiset(RemoveById(files, id))[e] == if e.id == id then 0 else multiset(files)[e]
    ensures IsSubsequence(RemoveById(files, id), files)
  {
    var p := (e: Entry) => e.id != id;
    FilterMembers(files, p);
    FilterCounts(files, p);
    FilterIsSubsequence(files, p);
  }

  /** Removal keeps ids unique, and removing an id nobody has changes
      nothing. */
  lemma RemoveByIdKeepsIds(files: seq<Entry>, id: string)
    ensures UniqueIds(files) ==> UniqueIds(RemoveById(files, id))
    ensures (forall i :: 0 <= i < |files| ==> files[i].id != id) ==> RemoveById(files, id) == files
  {
    var p := (e: Entry) => e.id != id;
    if UniqueIds(files) {
      FilterKeepsUniqueIds(files, p);
    }
    if forall i :: 0 <= i < |files| ==> files[i].id != id {
      FilterAll(files, p);
    }
  }

  /** With unique ids, removing the id of the entry at `k` takes out that
      entry and nothing else. */
  lemma {:induction false} RemoveByIdAt(files: seq<Entry>, k: nat)
    requires UniqueIds(files) && k < |files|
    ensures RemoveById(files, files[k].id) == files[..k] + files[k + 1..]
  {
    var id := files[k].id;
    if k == 0 {
      forall x | x in files[1..] ensures x.id != id {
        var i :| 0 <= i < |files[1..]| && files[1..][i] == x;
        assert files[i + 1] == x;
      }
      FilterAll(files[1..], (e: Entry) => e.id != id);
    } else {
      RemoveByIdAt(files[1..], k - 1);
      assert files[1..][k - 1] == files[k];
      assert files[..k] == [files[0]] + files[1..][..k - 1];
      assert files[k + 1..] == files[1..][k..];
    }
  }

  /** The auto-clear's list: every entry that did not succeed. */
  function PruneSuccesses(files: seq<Entry>): seq<Entry>
  {
    Filter(files, (e: Entry) => e.status != Success)
  }

  /** The auto-clear drops exactly the successful entries: none is left,
      the pending, uploading and error lists are what they were, and the
      list shrinks by the number of successes. */
  lemma PruneSuccessesSpec(files: seq<Entry>)
    ensures forall e :: e in PruneSuccesses(files) <==> e in files && e.status != Success
    ensures IsSubsequence(PruneSuccesses(files), files)
    ensures WithStatus(PruneSuccesses(files), Success) == []
    ensures forall s :: s != Success ==> WithStatus(PruneSuccesses(files), s) == WithStatus(files, s)
    ensures |PruneSuccesses(files)| == |files| - |WithStatus(files, Success)|
    ensures UniqueIds(files) ==> UniqueIds(PruneSuccesses(files))
  {
    var q := (e: Entry) => e.status != Success;
    var r := PruneSuccesses(files);
    FilterMembers(files, q);
    FilterIsSubsequence(files, q);
    forall s | s != Success ensures WithStatus(r, s) == WithStatus(files, s) {
      FilterOfFilter(files, q, (e: Entry) => e.status == s);
    }
    forall i | 0 <= i < |r| ensures r[i].status != Success {
      assert r[i] in r;
    }
    NoneWithStatus(r, Success);
    StatusCountsPartition(r);
    StatusCountsPartition(files);
    if UniqueIds(files) {
      FilterKeepsUniqueIds(files, q);
    }
  }

  /** The condition under which `handleUploadComplete` schedules the
      auto-clear. */
  predicate ShouldPrune(results: UploadSummary)
  {
    results.success > 0 && results.error == 0
  }

  /** For the summary of a batch, the auto-clear is scheduled exactly when
      the batch was not empty and every upload in it succeeded; a batch
      with a single failure keeps its successes on screen. */
  lemma PruneAfterCleanBatch(outcomes: seq<UploadOutcome>, total: nat)
    requires total <= |outcomes|
    ensures var n := Successes(outcomes, total);
            var clean := forall j :: 0 <= j < total ==> outcomes[j].Uploaded?;
            ShouldPrune(UploadSummary(total, n, total - n)) <==> total > 0 && clean
  {
    SuccessesExtremes(outcomes, total);
  }

  /** The list the filter effect puts on display. */
  function DisplayedFiles(files: seq<Entry>, filter: string): (r: seq<Entry>)
    ensures r == FilterFilesByCategory(files, filter)
  {
    if filter == "all" then files else FilterFilesByCategory(files, filter)
  }

  // ---------------------------------------------------------------------
  // The page

  class Home {
    const service: UploadService
    /** The `files` state. */
    const cell: FilesCell
    const dropZone: FileDropZone
    const controls: UploadControls
    var activeFilter: string
    var filteredFiles: seq<Entry>
    /** Auto-clear timers started and not yet fired. */
    var scheduledPrunes: nat

    /** The children share the page's service and `files` state, and the
        drop zone is enabled. */
    predicate Wired()
    {
      && dropZone.service == service && !dropZone.disabled
      && controls.service == service && controls.cell == cell
    }

    /** The filter effect has run since the last change. */
    predicate Synced()
      reads this, cell
    {
      filteredFiles == DisplayedFiles(cell.files, activeFilter)
    }

    /** The page once its configuration has loaded. */
    constructor (config: UploadConfig)
      ensures Wired() && Synced()
      ensures service.config == config && dropZone.maxFiles == MaxFilesProp(config)
      ensures cell.files == [] && activeFilter == "all" && scheduledPrunes == 0
      ensures fresh(cell) && fresh(dropZone) && fresh(controls)
      ensures !dropZone.isProcessing && !controls.isUploading
    {
      var s := new UploadService(config);
      var c := new FilesCell();
      service := s;
      cell := c;
      dropZone := new FileDropZone(s, MaxFilesProp(config), false);
      controls := new UploadControls(c, s);
      activeFilter := "all";
      filteredFiles := [];
      scheduledPrunes := 0;
    }

    /** The filter effect. */
    method SyncFilter()
      modifies this
      ensures Synced()
      ensures activeFilter == old(activeFilter) && scheduledPrunes == old(scheduledPrunes)
    {
      if activeFilter == "all" {
        filteredFiles := cell.files;
      } else {
        filteredFiles := FilterFilesByCategory(cell.files, activeFilter);
      }
    }

    /** A click in the category filter. */
    method SetActiveFilter(filter: string)
      modifies this
      ensures activeFilter == filter && Synced()
      ensures scheduledPrunes == old(scheduledPrunes)
    {
      activeFilter := filter;
      SyncFilter();
    }

    /** `handleFilesSelected`: the selection goes after the entries already
        listed. */
    method HandleFilesSelected(added: seq<Entry>)
      modifies this, cell
      ensures cell.files == old(cell.files) + added && Synced()
      ensures activeFilter == old(activeFilter) && scheduledPrunes == old(scheduledPrunes)
    {
      cell.files := cell.files + added;
      SyncFilter();
    }

    /** `handleRemoveFile`. */
    method HandleRemoveFile(id: string)
      modifies this, cell
      ensures cell.files == RemoveById(old(cell.files), id) && Synced()
      ensures activeFilter == old(activeFilter) && scheduledPrunes == old(scheduledPrunes)
    {
      cell.files := RemoveById(cell.files, id);
      SyncFilter();
    }

    /** `handleUploadComplete`: starts the auto-clear timer when something
        succeeded and nothing failed. */
    method HandleUploadComplete(results: UploadSummary)
      modifies this
      ensures scheduledPrunes == old(scheduledPrunes) + (if ShouldPrune(results) then 1 else 0)
      ensures activeFilter == old(activeFilter) && filteredFiles == old(filteredFiles)
    {
      if results.success > 0 && results.error == 0 {
        scheduledPrunes := scheduledPrunes + 1;
      }
    }

    /** An auto-clear timer fires: the successful entries of the list as it
        is then are dropped. */
    method PruneTimerFires()
      requires scheduledPrunes > 0
      modifies this, cell
      ensures cell.files == PruneSuccesses(old(cell.files)) && Synced()
      ensures scheduledPrunes == old(scheduledPrunes) - 1 && activeFilter == old(activeFilter)
    {
      scheduledPrunes := scheduledPrunes - 1;
      cell.files := PruneSuccesses(cell.files);
      SyncFilter();
    }

    /** Files dropped on the drop zone reach the list when the drop is
        accepted. */
    method Drop(files: seq<FileHandle>, ids: seq<string>, decoded: seq<Option<string>>)
      requires Wired() && |ids| == |files| == |decoded|
      modifies this, cell, dropZone
      ensures old(dropZone.isProcessing) || |files| > dropZone.maxFiles ==> cell.files == old(cell.files)
      ensures !old(dropZone.isProcessing) && |files| <= dropZone.maxFiles ==>
                cell.files == old(cell.files) + NewEntries(service.config, files, ids, decoded)
      ensures Synced() && scheduledPrunes == old(scheduledPrunes)
    {
      var delivered := dropZone.HandleDrop(files, ids, decoded);
      if delivered.Some? {
        HandleFilesSelected(delivered.value);
      } else {
        SyncFilter();
      }
    }

    /** Files chosen in the browse dialog reach the list when the choice is
        not empty, however many there are. */
    method Browse(files: seq<FileHandle>, ids: seq<string>, decoded: seq<Option<string>>)
      requires Wired() && |ids| == |files| == |decoded|
      modifies this, cell, dropZone
      ensures old(dropZone.isProcessing) || |files| == 0 ==> cell.files == old(cell.files)
      ensures !old(dropZone.isProcessing) && |files| > 0 ==>
                cell.files == old(cell.files) + NewEntries(service.config, files, ids, decoded)
      ensures Synced() && scheduledPrunes == old(scheduledPrunes)
    {
      var delivered := dropZone.HandleFileSelect(files, ids, decoded);
      if delivered.Some? {
        HandleFilesSelected(delivered.value);
      } else {
        SyncFilter();
      }
    }

    /** The upload button: a batch runs and its summary reaches
        `handleUploadComplete`. */
    method Upload(envs: seq<Transport>, now: seq<int>) returns (summary: Option<UploadSummary>)
      requires Wired()
      requires |envs| == |now| == |WithStatus(cell.files, Pending)|
      requires forall k :: 0 <= k < |envs| ==> ValidTransport(envs[k])
      modifies this, cell, controls
      ensures var pending := WithStatus(old(cell.files), Pending);
              var outcomes := Outcomes(service.config, pending, envs);
              var n := Successes(outcomes, |pending|);
              && (summary.Some? <==> |pending| > 0 && !old(controls.isUploading))
              && (summary.Some? ==>
                    && summary.value == UploadSummary(|pending|, n, |pending| - n)
                    && cell.files == Processed(MarkUploading(old(cell.files)), pending, outcomes, now, |pending|))
              && (summary.None? ==> cell.files == old(cell.files))
      ensures scheduledPrunes == old(scheduledPrunes) + (if summary.Some? && ShouldPrune(summary.value) then 1 else 0)
      ensures Synced() && activeFilter == old(activeFilter)
    {
      var shown;
      summary, shown := controls.HandleUpload(envs, now);
      if summary.Some? {
        HandleUploadComplete(summary.value);
      }
      SyncFilter();
    }
  }
}
