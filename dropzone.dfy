/** The drop zone: turning a dropped or browsed selection of files into
    queue entries. Each file is validated; a valid one starts `pending`
    (with a picture preview when it is an image), an invalid one starts
    `error` with its first validation message. The new entries are handed
    to the home page in one batch. */
module DropZone {
  import opened Wrappers
  import opened Strings
  import opened Model
  import opened Service

  // ---------------------------------------------------------------------
  // Entry construction

  /** The entry `processFiles` builds for `file`: `id` is the fresh id the
      component draws for it, `decoded` what reading an image file as a
      data URL yields (`None` when the reader fails). */
  function NewEntry(config: UploadConfig, file: FileHandle, id: string, decoded: Option<string>): Entry
  {
    var v := Validate(config, file);
    Entry(
      id := id,
      name := file.name,
      size := file.size,
      mimeType := file.mimeType,
      file := file,
      status := if v.isValid then Pending else Error,
      progress := 0,
      preview := if v.isValid then GeneratePreview(file, decoded) else None,
      error := if v.isValid then None else Some(v.errors[0]),
      uploadedAt := None)
  }

  /** A new entry is pending exactly when its file is valid, and otherwise
      an error carrying the first validation message (the size message
      when the file is too large); it copies the file's fields, starts at
      progress 0 with no upload time, has a preview only when it is a
      valid image, and is well-formed. */
  lemma NewEntrySpec(config: UploadConfig, file: FileHandle, id: string, decoded: Option<string>)
    ensures var e := NewEntry(config, file, id, decoded);
            var v := Validate(config, file);
            && (e.status == Pending <==> v.isValid)
            && (e.status == Error <==> !v.isValid)
            && (e.error.Some? <==> !v.isValid)
            && (!v.isValid ==> e.error == Some(v.errors[0]))
            && (file.size > config.maxFileSize ==> e.error == Some(SizeError(config.maxFileSize)))
            && e.id == id && e.name == file.name && e.size == file.size && e.mimeType == file.mimeType
            && e.file == file && e.progress == 0 && e.uploadedAt == None
            && (e.preview.Some? ==> v.isValid && StartsWith(file.mimeType, "image/"))
            && (v.isValid && StartsWith(file.mimeType, "image/") ==> e.preview == decoded)
            && WellFormed(e)
  {
    ValidateSpec(config, file);
  }

  /** The entries of a whole selection, one per file, in selection order. */
  function NewEntries(config: UploadConfig, files: seq<FileHandle>, ids: seq<string>, decoded: seq<Option<string>>): (r: seq<Entry>)
    requires |ids| == |files| == |decoded|
    ensures |r| == |files|
    ensures forall i :: 0 <= i < |files| ==> r[i] == NewEntry(config, files[i], ids[i], decoded[i])
  {
    seq(|files|, i requires 0 <= i < |files| => NewEntry(config, files[i], ids[i], decoded[i]))
  }

  /** Fresh ids give a selection's entries unique ids, and all of them are
      well-formed; exactly the invalid files become error entries. */
  lemma NewEntriesSpec(config: UploadConfig, files: seq<FileHandle>, ids: seq<string>, decoded: seq<Option<string>>)
    requires |ids| == |files| == |decoded|
    requires forall i, j :: 0 <= i < j < |ids| ==> ids[i] != ids[j]
    ensures var r := NewEntries(config, files, ids, decoded);
            && UniqueIds(r) && AllWellFormed(r)
            && forall i :: 0 <= i < |r| ==> (r[i].status == Error <==> !Validate(config, files[i]).isValid)
  {
    var r := NewEntries(config, files, ids, decoded);
    forall i | 0 <= i < |r|
      ensures WellFormed(r[i]) && (r[i].status == Error <==> !Validate(config, files[i]).isValid)
    {
      NewEntrySpec(config, files[i], ids[i], decoded[i]);
    }
  }

  // ---------------------------------------------------------------------
  // The component

  class FileDropZone {
    const service: UploadService
    /** The `maxFiles` and `disabled` props. */
    const maxFiles: int
    const disabled: bool
    var isDragOver: bool
    var isProcessing: bool

    constructor (service: UploadService, maxFiles: int, disabled: bool)
      ensures this.service == service && this.maxFiles == maxFiles && this.disabled == disabled
      ensures !isDragOver && !isProcessing
    {
      this.service := service;
      this.maxFiles := maxFiles;
      this.disabled := disabled;
      isDragOver := false;
      isProcessing := false;
    }

    /** `processFiles`. Does nothing while disabled or already processing;
        otherwise builds one entry per file, in order, and returns the
        list handed to `onFilesSelected`. `ids[i]` and `decoded[i]` are the
        fresh id and the preview read of the `i`-th file. */
    method ProcessFiles(files: seq<FileHandle>, ids: seq<string>, decoded: seq<Option<string>>)
      returns (delivered: Option<seq<Entry>>)
      requires |ids| == |files| == |decoded|
      modifies this
      ensures disabled || old(isProcessing) ==> delivered == None && isProcessing == old(isProcessing)
      ensures !(disabled || old(isProcessing)) ==>
                delivered == Some(NewEntries(service.config, files, ids, decoded)) && !isProcessing
      ensures isDragOver == old(isDragOver)
    {
      if disabled || isProcessing {
        return None;
      }
      isProcessing := true;
      var processed: seq<Entry> := [];
      for i := 0 to |files|
        invariant processed == NewEntries(service.config, files[..i], ids[..i], decoded[..i])
        invariant isDragOver == old(isDragOver)
      {
        var file := files[i];
        var validation := service.ValidateFile(file);
        var entry := Entry(
          id := ids[i], name := file.name, size := file.size, mimeType := file.mimeType, file := file,
          status := if validation.isValid then Pending else Error,
          progress := 0, preview := None,
          error := if validation.isValid then None else Some(validation.errors[0]),
          uploadedAt := None);
        if validation.isValid && StartsWith(file.mimeType, "image/") {
          entry := entry.(preview := GeneratePreview(file, decoded[i]));
        }
        processed := processed + [entry];
      }
      assert files[..|files|] == files && ids[..|ids|] == ids && decoded[..|decoded|] == decoded;
      delivered := Some(processed);
      isProcessing := false;
    }

    /** `handleDragOver`: highlights the zone unless it is disabled or busy. */
    method HandleDragOver()
      modifies this
      ensures isDragOver == (old(isDragOver) || (!disabled && !isProcessing))
      ensures isProcessing == old(isProcessing)
    {
      if !disabled && !isProcessing {
        isDragOver := true;
      }
    }

    /** `handleDragLeave`. */
    method HandleDragLeave()
      modifies this
      ensures !isDragOver && isProcessing == old(isProcessing)
    {
      isDragOver := false;
    }

    /** `handleDrop`. Clears the highlight; a drop while disabled or busy,
        or of more than `maxFiles` files, is ignored as a whole; any other
        drop (an empty one included) is processed. */
    method HandleDrop(files: seq<FileHandle>, ids: seq<string>, decoded: seq<Option<string>>)
      returns (delivered: Option<seq<Entry>>)
      requires |ids| == |files| == |decoded|
      modifies this
      ensures !isDragOver
      ensures delivered.Some? <==> !disabled && !old(isProcessing) && |files| <= maxFiles
      ensures delivered.Some? ==> delivered.value == NewEntries(service.config, files, ids, decoded)
      ensures delivered.Some? ==> |delivered.value| <= maxFiles
      ensures isProcessing == old(isProcessing)
    {
      isDragOver := false;
      if disabled || isProcessing {
        return None;
      }
      if |files| > maxFiles {
        return None;
      }
      delivered := ProcessFiles(files, ids, decoded);
    }

    /** `handleFileSelect`. A selection while disabled or busy, or an empty
        one, is ignored; any other is processed, however many files it
        holds: this path has no `maxFiles` check. */
    method HandleFileSelect(files: seq<FileHandle>, ids: seq<string>, decoded: seq<Option<string>>)
      returns (delivered: Option<seq<Entry>>)
      requires |ids| == |files| == |decoded|
      modifies this
      ensures delivered.Some? <==> !disabled && !old(isProcessing) && |files| > 0
      ensures delivered.Some? ==> delivered.value == NewEntries(service.config, files, ids, decoded)
      ensures isDragOver == old(isDragOver) && isProcessing == old(isProcessing)
    {
      if disabled || isProcessing {
        return None;
      }
      if |files| == 0 {
        return None;
      }
      delivered := ProcessFiles(files, ids, decoded);
    }
  }
}
