/** The upload controls: the batch upload over the pending entries, which
    moves each entry from `pending` through `uploading` to `success` or
    `error`, the clear-all and retry handlers, and the tally handed to the
    home page. Every update replaces the home page's `files` list, which
    the controls reach through the shared `FilesCell`. */
module Controls {
  import opened Wrappers
  import opened Seqs
  import opened Model
  import opened Service
  import opened Arith

  // ---------------------------------------------------------------------
  // Updates of the entry list

  /** `files.map(f => f.id === id ? update(f) : f)`. */
  function UpdateById(files: seq<Entry>, id: string, update: Entry -> Entry): (r: seq<Entry>)
    ensures |r| == |files|
    ensures forall i :: 0 <= i < |files| ==> r[i] == if files[i].id == id then update(files[i]) else files[i]
  {
    seq(|files|, i requires 0 <= i < |files| => if files[i].id == id then update(files[i]) else files[i])
  }

  /** The first update of `handleUpload`, entry by entry. */
  function MarkEntry(e: Entry): Entry
  {
    if e.status == Pending then e.(status := Uploading, progress := 0) else e
  }

  /** The first update of `handleUpload`: every pending entry becomes
      uploading at progress 0; nothing else changes, and no entry is left
      pending. */
  function MarkUploading(files: seq<Entry>): seq<Entry>
  {
    seq(|files|, i requires 0 <= i < |files| => MarkEntry(files[i]))
  }

  lemma MarkUploadingSpec(files: seq<Entry>)
    ensures var r := MarkUploading(files);
            && |r| == |files|
            && (forall i :: 0 <= i < |files| && files[i].status != Pending ==> r[i] == files[i])
            && (forall i :: 0 <= i < |files| && files[i].status == Pending ==> r[i] == files[i].(status := Uploading, progress := 0))
            && WithStatus(r, Pending) == []
  {
    NoneWithStatus(MarkUploading(files), Pending);
  }

  /** The progress callback of one upload: only the `progress` field of
      the entries with that id changes. */
  function SetProgress(files: seq<Entry>, id: string, p: int): (r: seq<Entry>)
    ensures |r| == |files|
    ensures forall i :: 0 <= i < |files| && files[i].id != id ==> r[i] == files[i]
    ensures forall i :: 0 <= i < |files| && files[i].id == id ==> r[i].progress == p && r[i].(progress := files[i].progress) == files[i]
  {
    UpdateById(files, id, (e: Entry) => e.(progress := p))
  }

  /** What a settled upload does to its entry. */
  function SettledEntry(e: Entry, o: UploadOutcome, at: int): Entry
  {
    match o
    case Uploaded(_) => e.(status := Success, progress := 100, uploadedAt := Some(at))
    case Failed(message) => e.(status := Error, error := Some(message), progress := 0)
  }

  /** "Mark as success": the entries with that id become `success` at 100
      with their upload time; every other entry and field is unchanged. */
  function Succeed(files: seq<Entry>, id: string, at: int): (r: seq<Entry>)
    ensures |r| == |files|
    ensures forall i :: 0 <= i < |files| && files[i].id != id ==> r[i] == files[i]
    ensures forall i :: 0 <= i < |files| && files[i].id == id ==>
              && r[i].status == Success && r[i].progress == 100 && r[i].uploadedAt == Some(at)
              && r[i].(status := files[i].status, progress := files[i].progress, uploadedAt := files[i].uploadedAt) == files[i]
  {
    UpdateById(files, id, (e: Entry) => e.(status := Success, progress := 100, uploadedAt := Some(at)))
  }

  /** "Mark as error": the entries with that id become `error` at 0 with
      the failure's message; every other entry and field is unchanged. */
  function Fail(files: seq<Entry>, id: string, message: string): (r: seq<Entry>)
    ensures |r| == |files|
    ensures forall i :: 0 <= i < |files| && files[i].id != id ==> r[i] == files[i]
    ensures forall i :: 0 <= i < |files| && files[i].id == id ==>
              && r[i].status == Error && r[i].progress == 0 && r[i].error == Some(message)
              && r[i].(status := files[i].status, progress := files[i].progress, error := files[i].error) == files[i]
  {
    UpdateById(files, id, (e: Entry) => e.(status := Error, error := Some(message), progress := 0))
  }

  /** The update that follows the settling of one upload. */
  function Settle(files: seq<Entry>, id: string, o: UploadOutcome, at: int): seq<Entry>
  {
    match o
    case Uploaded(_) => Succeed(files, id, at)
    case Failed(message) => Fail(files, id, message)
  }

  /** The list after the progress callback has been called with each of
      `events` in turn. */
  function ApplyEvents(files: seq<Entry>, id: string, events: seq<int>): seq<Entry>
    decreases |events|
  {
    if events == [] then files
    else SetProgress(ApplyEvents(files, id, events[..|events| - 1]), id, events[|events| - 1])
  }

  /** A run of progress callbacks leaves only the last value behind. */
  lemma {:induction false} ApplyEventsKeepsLast(files: seq<Entry>, id: string, events: seq<int>)
    ensures ApplyEvents(files, id, events) == if events == [] then files else SetProgress(files, id, events[|events| - 1])
    decreases |events|
  {
    if |events| > 1 {
      var init := events[..|events| - 1];
      ApplyEventsKeepsLast(files, id, init);
      assert init[|init| - 1] == events[|events| - 2];
      var a := SetProgress(SetProgress(files, id, init[|init| - 1]), id, events[|events| - 1]);
      var b := SetProgress(files, id, events[|events| - 1]);
      assert |a| == |b|;
      assert forall i :: 0 <= i < |a| ==> a[i] == b[i];
    }
  }

  /** Settling overwrites whatever progress the callbacks left. */
  lemma SettleAbsorbsProgress(files: seq<Entry>, id: string, events: seq<int>, o: UploadOutcome, at: int)
    ensures Settle(ApplyEvents(files, id, events), id, o, at) == Settle(files, id, o, at)
  {
    ApplyEventsKeepsLast(files, id, events);
    var a := Settle(ApplyEvents(files, id, events), id, o, at);
    var b := Settle(files, id, o, at);
    assert |a| == |b|;
    assert forall i :: 0 <= i < |a| ==> a[i] == b[i];
  }

  // ---------------------------------------------------------------------
  // The batch

  /** How each upload of the pending snapshot settles: `uploadFile` run
      on the `k`-th entry with `envs[k]`, the random draws of that upload.
      Its progress values are not recorded: settling overwrites them (see
      SettleAbsorbsProgress). */
  function Outcomes(config: UploadConfig, pending: seq<Entry>, envs: seq<Transport>): (r: seq<UploadOutcome>)
    requires |envs| == |pending|
    ensures |r| == |pending|
  {
    seq(|pending|, k requires 0 <= k < |pending| => Outcome(config, pending[k].file, envs[k]))
  }

  /** The `k`-th outcome of the batch. */
  lemma OutcomeAt(config: UploadConfig, pending: seq<Entry>, envs: seq<Transport>, k: nat)
    requires |envs| == |pending| && k < |pending|
    ensures Outcomes(config, pending, envs)[k] == Outcome(config, pending[k].file, envs[k])
  {
  }

  /** The list after the first `k` entries of the pending snapshot have
      been uploaded one after the other, starting from `start`; `now[j]`
      is the clock reading when the `j`-th settles. The progress values of
      an upload are not part of it: settling overwrites them (see
      SettleAbsorbsProgress). */
  function Processed(start: seq<Entry>, pending: seq<Entry>, outcomes: seq<UploadOutcome>, now: seq<int>, k: nat): seq<Entry>
    requires |outcomes| == |pending| == |now| && k <= |pending|
  {
    if k == 0 then start
    else Settle(Processed(start, pending, outcomes, now, k - 1), pending[k - 1].id, outcomes[k - 1], now[k - 1])
  }

  /** `completedCount` after the first `k` uploads. */
  function Successes(outcomes: seq<UploadOutcome>, k: nat): (n: nat)
    requires k <= |outcomes|
    ensures n <= k
  {
    if k == 0 then 0
    else Successes(outcomes, k - 1) + (if outcomes[k - 1].Uploaded? then 1 else 0)
  }

  /** The count reaches `k` exactly when each of the first `k` uploads
      succeeded, and stays 0 exactly when none did. */
  lemma {:induction false} SuccessesExtremes(outcomes: seq<UploadOutcome>, k: nat)
    requires k <= |outcomes|
    ensures Successes(outcomes, k) == k <==> forall j :: 0 <= j < k ==> outcomes[j].Uploaded?
    ensures Successes(outcomes, k) == 0 <==> forall j :: 0 <= j < k ==> outcomes[j].Failed?
  {
    if k > 0 {
      SuccessesExtremes(outcomes, k - 1);
    }
  }

  /** `overallProgress` after `completed` of `total` successes. */
  function Percent(completed: nat, total: nat): real
    requires total > 0
  {
    (completed as real / total as real) * 100.0
  }

  /** The overall progress is a percentage that grows with every success
      and reaches 100 only when every upload succeeded. */
  lemma PercentBounds(m: nat, n: nat, total: nat)
    requires m <= n <= total && total > 0
    ensures 0.0 <= Percent(m, total) <= Percent(n, total) <= 100.0
    ensures Percent(n, total) == 100.0 <==> n == total
  {
    RatioBounds(m as real, n as real, total as real);
  }

  /** Shares of a positive whole: ordered like their parts, within 0..1,
      and 1 only for the whole itself. */
  lemma RatioBounds(x: real, y: real, t: real)
    requires 0.0 <= x <= y <= t && t > 0.0
    ensures 0.0 <= x / t <= y / t <= 1.0
    ensures y / t == 1.0 <==> y == t
  {
    var a, b := x / t, y / t;
    DivThenMul(x, t);
    DivThenMul(y, t);
    CancelPositive(a, b, t);
    CancelPositive(b, 1.0, t);
    CancelPositive(0.0, a, t);
  }

  /** `shown` lists the overall progress after 0, 1, 2, ... successes. */
  predicate ProgressTrace(shown: seq<real>, total: nat)
    requires total > 0
  {
    forall m :: 0 <= m < |shown| ==> shown[m] == Percent(m, total)
  }

  lemma ProgressTraceExtends(shown: seq<real>, total: nat)
    requires total > 0 && ProgressTrace(shown, total)
    ensures ProgressTrace(shown + [Percent(|shown|, total)], total)
  {
  }

  /** Where the first entry with `id` sits in the pending snapshot. */
  function IndexOfId(pending: seq<Entry>, id: string): (k: nat)
    ensures k <= |pending|
    ensures k < |pending| ==> pending[k].id == id
    ensures forall j :: 0 <= j < k ==> pending[j].id != id
  {
    if pending == [] then 0
    else if pending[0].id == id then 0
    else 1 + IndexOfId(pending[1..], id)
  }

  /** An entry after the first `k` uploads, described on its own: an entry
      that was not pending is untouched; a pending entry whose upload has
      settled carries its outcome; any other pending entry is uploading at
      progress 0. */
  function EntryAfter(e: Entry, pending: seq<Entry>, outcomes: seq<UploadOutcome>, now: seq<int>, k: nat): Entry
    requires |outcomes| == |pending| == |now|
  {
    if e.status != Pending then e
    else
      var j := IndexOfId(pending, e.id);
      if j < k && j < |pending| then SettledEntry(e, outcomes[j], now[j])
      else MarkEntry(e)
  }

  /** The pending snapshot of a list with unique ids: each of its entries
      is the one entry of the list with its id. */
  lemma PendingSnapshotIds(files: seq<Entry>, pending: seq<Entry>, k: nat, i: nat)
    requires UniqueIds(files) && pending == WithStatus(files, Pending)
    requires k < |pending| && i < |files| && files[i].id == pending[k].id
    ensures files[i] == pending[k] && files[i].status == Pending && IndexOfId(pending, files[i].id) == k
  {
    WithStatusMembers(files, Pending);
    assert pending[k] in files;
    var m :| 0 <= m < |files| && files[m] == pending[k];
    assert m == i;
    FilterKeepsUniqueIds(files, (e: Entry) => e.status == Pending);
  }

  /** Every entry of `r` is the corresponding entry of `files` as it
      stands after the first `k` uploads. */
  predicate EntriesAfter(r: seq<Entry>, files: seq<Entry>, pending: seq<Entry>, outcomes: seq<UploadOutcome>, now: seq<int>, k: nat)
    requires |outcomes| == |pending| == |now|
  {
    |r| == |files| && forall i :: 0 <= i < |files| ==> r[i] == EntryAfter(files[i], pending, outcomes, now, k)
  }

  /** One upload of the batch, seen from one entry of the list. */
  lemma ProcessedEntryStep(files: seq<Entry>, pending: seq<Entry>, outcomes: seq<UploadOutcome>, now: seq<int>,
                           prev: seq<Entry>, k: nat, i: nat)
    requires UniqueIds(files) && pending == WithStatus(files, Pending)
    requires |outcomes| == |pending| == |now| && 0 < k <= |pending|
    requires |prev| == |files| && i < |files|
    requires prev[i] == EntryAfter(files[i], pending, outcomes, now, k - 1)
    ensures Settle(prev, pending[k - 1].id, outcomes[k - 1], now[k - 1])[i]
            == EntryAfter(files[i], pending, outcomes, now, k)
  {
    if files[i].id == pending[k - 1].id {
      PendingSnapshotIds(files, pending, k - 1, i);
    }
  }

  /** One upload of the batch, seen from the whole list. */
  lemma ProcessedStep(files: seq<Entry>, pending: seq<Entry>, outcomes: seq<UploadOutcome>, now: seq<int>,
                      prev: seq<Entry>, k: nat)
    requires UniqueIds(files) && pending == WithStatus(files, Pending)
    requires |outcomes| == |pending| == |now| && 0 < k <= |pending|
    requires EntriesAfter(prev, files, pending, outcomes, now, k - 1)
    ensures EntriesAfter(Settle(prev, pending[k - 1].id, outcomes[k - 1], now[k - 1]), files, pending, outcomes, now, k)
  {
    forall i | 0 <= i < |files|
      ensures Settle(prev, pending[k - 1].id, outcomes[k - 1], now[k - 1])[i]
              == EntryAfter(files[i], pending, outcomes, now, k)
    {
      ProcessedEntryStep(files, pending, outcomes, now, prev, k, i);
    }
  }

  /** Uploading the first `k` pending entries settles exactly those, each
      by its own outcome, and changes nothing else. */
  lemma {:induction false} ProcessedEntries(files: seq<Entry>, pending: seq<Entry>, outcomes: seq<UploadOutcome>,
                                            now: seq<int>, k: nat)
    requires UniqueIds(files) && pending == WithStatus(files, Pending)
    requires |outcomes| == |pending| == |now| && k <= |pending|
    ensures EntriesAfter(Processed(MarkUploading(files), pending, outcomes, now, k), files, pending, outcomes, now, k)
  {
    if k > 0 {
      var prev := Processed(MarkUploading(files), pending, outcomes, now, k - 1);
      ProcessedEntries(files, pending, outcomes, now, k - 1);
      ProcessedStep(files, pending, outcomes, now, prev, k);
      assert Processed(MarkUploading(files), pending, outcomes, now, k) == Settle(prev, pending[k - 1].id, outcomes[k - 1], now[k - 1]);
    } else {
      MarkedEntries(files, pending, outcomes, now);
    }
  }

  /** Before any upload every entry is as EntryAfter describes it at 0. */
  lemma MarkedEntries(files: seq<Entry>, pending: seq<Entry>, outcomes: seq<UploadOutcome>, now: seq<int>)
    requires |outcomes| == |pending| == |now|
    ensures EntriesAfter(MarkUploading(files), files, pending, outcomes, now, 0)
  {
  }

  /** One entry once the whole batch has settled. */
  lemma EntryAfterBatch(e: Entry, pending: seq<Entry>, outcomes: seq<UploadOutcome>, now: seq<int>)
    requires |outcomes| == |pending| == |now|
    requires e.status == Pending ==> e in pending
    ensures var r := EntryAfter(e, pending, outcomes, now, |pending|);
            && r.id == e.id && r.file == e.file && r.status != Pending
            && (WellFormed(e) ==> WellFormed(r))
  {
    if e.status == Pending {
      var k :| 0 <= k < |pending| && pending[k] == e;
      assert IndexOfId(pending, e.id) <= k;
    }
  }

  /** After the whole batch no entry is pending, ids and order are those
      of the list before, and well-formed entries stay well-formed. */
  lemma BatchResult(files: seq<Entry>, pending: seq<Entry>, outcomes: seq<UploadOutcome>, now: seq<int>)
    requires UniqueIds(files) && pending == WithStatus(files, Pending)
    requires |outcomes| == |pending| == |now|
    ensures var r := Processed(MarkUploading(files), pending, outcomes, now, |pending|);
            && |r| == |files|
            && (forall i :: 0 <= i < |files| ==> r[i].id == files[i].id && r[i].file == files[i].file)
            && UniqueIds(r)
            && WithStatus(r, Pending) == []
            && (AllWellFormed(files) ==> AllWellFormed(r))
  {
    var r := Processed(MarkUploading(files), pending, outcomes, now, |pending|);
    ProcessedEntries(files, pending, outcomes, now, |pending|);
    WithStatusMembers(files, Pending);
    forall i | 0 <= i < |files|
      ensures r[i].id == files[i].id && r[i].file == files[i].file && r[i].status != Pending
      ensures WellFormed(files[i]) ==> WellFormed(r[i])
    {
      EntryAfterBatch(files[i], pending, outcomes, now);
    }
    SameIdsKeepUnique(files, r);
    NoneWithStatus(r, Pending);
  }

  /** The summary handed to `onUploadComplete`. */
  datatype UploadSummary = UploadSummary(total: nat, success: nat, error: int)

  // ---------------------------------------------------------------------
  // Retry

  /** The update of `handleRetryErrors`, entry by entry. */
  function RetryEntry(e: Entry): Entry
  {
    if e.status == Error then e.(status := Pending, error := None, progress := 0) else e
  }

  /** `handleRetryErrors`' list: every error entry back to pending without
      its message and at progress 0; the other entries, the length and the
      order unchanged. */
  function RetryErrors(files: seq<Entry>): (r: seq<Entry>)
    ensures |r| == |files|
    ensures forall i :: 0 <= i < |files| && files[i].status != Error ==> r[i] == files[i]
    ensures forall i :: 0 <= i < |files| && files[i].status == Error ==>
              && r[i].status == Pending && r[i].error == None && r[i].progress == 0
              && r[i].(status := Error, error := files[i].error, progress := files[i].progress) == files[i]
  {
    if files == [] then [] else [RetryEntry(files[0])] + RetryErrors(files[1..])
  }

  /** After a retry no entry is in error, the former error entries have
      joined the pending ones, and the other counts are unchanged. */
  lemma {:induction false} RetryCounts(files: seq<Entry>)
    ensures WithStatus(RetryErrors(files), Error) == []
    ensures |WithStatus(RetryErrors(files), Pending)| == |WithStatus(files, Pending)| + |WithStatus(files, Error)|
    ensures WithStatus(RetryErrors(files), Uploading) == WithStatus(files, Uploading)
    ensures WithStatus(RetryErrors(files), Success) == WithStatus(files, Success)
  {
    if files != [] {
      RetryCounts(files[1..]);
      var r := RetryErrors(files);
      assert r[1..] == RetryErrors(files[1..]);
    }
  }

  /** A retry keeps entries well-formed. */
  lemma RetryKeepsWellFormed(files: seq<Entry>)
    requires AllWellFormed(files)
    ensures AllWellFormed(RetryErrors(files))
  {
  }

  // ---------------------------------------------------------------------
  // The component

  class UploadControls {
    /** The home page's `files` state, read as the `files` prop and set
        through `onFilesUpdate`. */
    const cell: FilesCell
    const service: UploadService
    var isUploading: bool
    var overallProgress: real

    constructor (cell: FilesCell, service: UploadService)
      ensures this.cell == cell && this.service == service
      ensures !isUploading && overallProgress == 0.0
    {
      this.cell := cell;
      this.service := service;
      isUploading := false;
      overallProgress := 0.0;
    }

    /** `handleUpload`. A no-op while a batch runs or when nothing is
        pending. Otherwise it marks the pending entries uploading, uploads
        the snapshot one entry after the other (`envs[k]` and `now[k]` are
        the random draws and the clock reading for the `k`-th), reports
        the tally, and resets its flags. `shown` lists the values the
        overall progress bar takes during the batch. */
    method HandleUpload(envs: seq<Transport>, now: seq<int>) returns (summary: Option<UploadSummary>, shown: seq<real>)
      requires |envs| == |now| == |WithStatus(cell.files, Pending)|
      requires forall k :: 0 <= k < |envs| ==> ValidTransport(envs[k])
      modifies this, cell
      ensures var pending := WithStatus(old(cell.files), Pending);
              if |pending| == 0 || old(isUploading) then
                && summary == None && shown == []
                && cell.files == old(cell.files)
                && isUploading == old(isUploading) && overallProgress == old(overallProgress)
              else
                var outcomes := Outcomes(service.config, pending, envs);
                var n := Successes(outcomes, |pending|);
                && cell.files == Processed(MarkUploading(old(cell.files)), pending, outcomes, now, |pending|)
                && summary == Some(UploadSummary(|pending|, n, |pending| - n))
                && summary.value.success + summary.value.error == summary.value.total
                && |shown| == n + 1
                && ProgressTrace(shown, |pending|)
                && !isUploading && overallProgress == 0.0
    {
      var pending := WithStatus(cell.files, Pending);
      if |pending| == 0 || isUploading {
        return None, [];
      }
      ghost var before := cell.files;
      isUploading := true;
      overallProgress := 0.0;
      var completed;
      completed, shown := UploadPending(before, pending, envs, now);
      summary := Some(UploadSummary(|pending|, completed, |pending| - completed));
      isUploading := false;
      overallProgress := 0.0;
    }

    /** The body of the `try` block of `handleUpload`: mark the pending
        entries, then upload them in snapshot order, counting and showing
        the successes. */
    method UploadPending(ghost before: seq<Entry>, pending: seq<Entry>, envs: seq<Transport>, now: seq<int>)
      returns (completed: nat, shown: seq<real>)
      requires before == cell.files && pending != []
      requires |envs| == |now| == |pending| && forall k :: 0 <= k < |envs| ==> ValidTransport(envs[k])
      requires overallProgress == 0.0
      modifies this, cell
      ensures cell.files == Processed(MarkUploading(before), pending, Outcomes(service.config, pending, envs), now, |pending|)
      ensures completed == Successes(Outcomes(service.config, pending, envs), |pending|)
      ensures |shown| == completed + 1 && ProgressTrace(shown, |pending|)
      ensures isUploading == old(isUploading)
    {
      var total := |pending|;
      completed := 0;
      ghost var outcomes := Outcomes(service.config, pending, envs);
      cell.files := MarkUploading(cell.files);
      ghost var start := cell.files;
      shown := [overallProgress];
      for k := 0 to total
        invariant cell.files == Processed(start, pending, outcomes, now, k)
        invariant completed == Successes(outcomes, k)
        invariant |shown| == completed + 1 && ProgressTrace(shown, total)
        invariant overallProgress == Percent(completed, total)
        invariant isUploading == old(isUploading)
      {
        completed, shown := UploadNext(pending, envs, now, k, completed, shown);
      }
    }

    /** One pass of the `for` loop of `handleUpload`: upload the `k`-th
        entry of the snapshot; on success count it and show the new
        overall progress. `completed` and `shown` are the tally so far. */
    method UploadNext(pending: seq<Entry>, envs: seq<Transport>, now: seq<int>, k: nat, completed: nat, shown: seq<real>)
      returns (completed': nat, shown': seq<real>)
      requires |envs| == |now| == |pending| && k < |pending| && ValidTransport(envs[k])
      requires |shown| == completed + 1 && ProgressTrace(shown, |pending|)
      requires overallProgress == Percent(completed, |pending|)
      modifies this, cell
      ensures var o := Outcomes(service.config, pending, envs)[k];
              && cell.files == Settle(old(cell.files), pending[k].id, o, now[k])
              && completed' == completed + (if o.Uploaded? then 1 else 0)
      ensures |shown'| == completed' + 1 && ProgressTrace(shown', |pending|)
      ensures overallProgress == Percent(completed', |pending|)
      ensures isUploading == old(isUploading)
    {
      var o := UploadEntry(pending[k], envs[k], now[k]);
      OutcomeAt(service.config, pending, envs, k);
      completed', shown' := completed, shown;
      if o.Uploaded? {
        completed' := completed + 1;
        ProgressTraceExtends(shown, |pending|);
        overallProgress := Percent(completed', |pending|);
        shown' := shown + [overallProgress];
      }
    }

    /** Uploads the entry's file, passes each progress value to the entry
        with its id, then marks that entry as settled. */
    method UploadEntry(e: Entry, env: Transport, at: int) returns (o: UploadOutcome)
      requires ValidTransport(env)
      modifies cell
      ensures o == Outcome(service.config, e.file, env)
      ensures cell.files == Settle(old(cell.files), e.id, o, at)
    {
      var events;
      o, events := service.UploadFile(e.file, env);
      ghost var before := cell.files;
      for j := 0 to |events|
        invariant cell.files == ApplyEvents(before, e.id, events[..j])
      {
        assert events[..j + 1][..j] == events[..j];
        cell.files := SetProgress(cell.files, e.id, events[j]);
      }
      assert events[..|events|] == events;
      SettleAbsorbsProgress(before, e.id, events, o, at);
      match o {
        case Uploaded(_) =>
          cell.files := Succeed(cell.files, e.id, at);
        case Failed(message) =>
          cell.files := Fail(cell.files, e.id, message);
      }
    }

    /** `handleClearAll`: empties the list unless a batch is running. */
    method HandleClearAll()
      modifies cell
      ensures cell.files == if isUploading then old(cell.files) else []
    {
      if isUploading {
        return;
      }
      cell.files := [];
    }

    /** `handleRetryErrors`: a no-op while a batch runs or when no entry is
        in error; otherwise the retry update. */
    method HandleRetryErrors()
      modifies cell
      ensures cell.files == if WithStatus(old(cell.files), Error) == [] || isUploading
                            then old(cell.files) else RetryErrors(old(cell.files))
    {
      if |WithStatus(cell.files, Error)| == 0 || isUploading {
        return;
      }
      cell.files := RetryErrors(cell.files);
    }
  }
}
