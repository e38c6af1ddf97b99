/** The data the upload pipeline works on: the browser's file handle, the
    per-file queue entry with its status, the upload configuration, and
    the `files` state cell that the home page owns and hands down to the
    upload controls. */
module Model {
  import opened Wrappers
  import opened Seqs

  /** A browser `File`: the fields the pipeline reads. */
  datatype FileHandle = FileHandle(name: string, size: nat, mimeType: string)

  /** The four values an entry's `status` takes. */
  datatype Status = Pending | Uploading | Success | Error

  /** One queued file. `mimeType` is the source's `type` field; `file` is
      the raw handle the entry owns; `uploadedAt` is a millisecond clock
      reading. */
  datatype Entry = Entry(
    id: string,
    name: string,
    size: nat,
    mimeType: string,
    file: FileHandle,
    status: Status,
    progress: int,
    preview: Option<string>,
    error: Option<string>,
    uploadedAt: Option<int>)

  /** The upload limits; fixed for the session once loaded. */
  datatype UploadConfig = UploadConfig(
    maxFileSize: nat,
    allowedTypes: seq<string>,
    maxFiles: int,
    compressionEnabled: bool)

  /** The `files` state of the home page. Setting `files` is the setter
      that the home page uses itself and passes to the upload controls as
      `onFilesUpdate`. */
  class FilesCell {
    var files: seq<Entry>

    constructor ()
      ensures files == []
    {
      files := [];
    }
  }

  /** No two entries share an id. */
  predicate UniqueIds(files: seq<Entry>)
  {
    forall i, j :: 0 <= i < j < |files| ==> files[i].id != files[j].id
  }

  /** The entry-level invariants: an error message only on an `error`
      entry, an upload time only on a `success` entry, progress a
      percentage. */
  predicate WellFormed(e: Entry)
  {
    && (e.error.Some? ==> e.status == Error)
    && (e.uploadedAt.Some? ==> e.status == Success)
    && 0 <= e.progress <= 100
  }

  predicate AllWellFormed(files: seq<Entry>)
  {
    forall i :: 0 <= i < |files| ==> WellFormed(files[i])
  }

  /** `files.filter(f => f.status === status)`: the status-count lists of
      the upload controls. */
  function WithStatus(files: seq<Entry>, status: Status): seq<Entry>
  {
    Filter(files, (e: Entry) => e.status == status)
  }

  /** The list holds exactly the entries with that status. */
  lemma WithStatusMembers(files: seq<Entry>, status: Status)
    ensures forall e :: e in WithStatus(files, status) <==> e in files && e.status == status
  {
    FilterMembers(files, (e: Entry) => e.status == status);
  }

  /** Selecting entries keeps ids unique. */
  lemma {:induction false} FilterKeepsUniqueIds(files: seq<Entry>, p: Entry -> bool)
    requires UniqueIds(files)
    ensures UniqueIds(Filter(files, p))
  {
    if files != [] {
      FilterKeepsUniqueIds(files[1..], p);
      FilterMembers(files[1..], p);
      var rest := Filter(files[1..], p);
      forall e | e in rest ensures e.id != files[0].id {
        var k :| 0 <= k < |files[1..]| && files[1..][k] == e;
        assert files[k + 1] == e;
      }
    }
  }

  /** Ids are a property of positions: a list with the same id at each
      position as a list with unique ids has unique ids. */
  lemma SameIdsKeepUnique(a: seq<Entry>, b: seq<Entry>)
    requires UniqueIds(a) && |a| == |b|
    requires forall i :: 0 <= i < |a| ==> a[i].id == b[i].id
    ensures UniqueIds(b)
  {
  }

  /** No entry with `status` leaves nothing to select. */
  lemma NoneWithStatus(files: seq<Entry>, status: Status)
    requires forall i :: 0 <= i < |files| ==> files[i].status != status
    ensures WithStatus(files, status) == []
  {
    FilterNone(files, (e: Entry) => e.status == status);
  }

  /** Every entry has exactly one of the four statuses, so the four
      status counts add up to the length of the list. */
  lemma {:induction false} StatusCountsPartition(files: seq<Entry>)
    ensures |WithStatus(files, Pending)| + |WithStatus(files, Uploading)|
          + |WithStatus(files, Success)| + |WithStatus(files, Error)| == |files|
  {
    if files != [] {
      StatusCountsPartition(files[1..]);
    }
  }
}
