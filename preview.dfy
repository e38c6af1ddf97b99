/** One row of the file list: the thumbnail or type icon, the status icon
    and its colour, the remove button, the progress read-out and bar, and
    the error line, each shown under the conditions the row component
    checks. */
module Preview {
  import opened Wrappers
  import opened Strings
  import opened Model
  import opened Service
  import opened DropZone

  /** `getFileIcon`: the icon name for a type; the first rule that matches
      decides. Unlike the category rules, "text" is not a rule here. */
  function GetFileIcon(mimeType: string): string
  {
    if StartsWith(mimeType, "image/") then "Image"
    else if StartsWith(mimeType, "video/") then "Video"
    else if StartsWith(mimeType, "audio/") then "Music"
    else if Contains(mimeType, "pdf") then "FileText"
    else if Contains(mimeType, "word") || Contains(mimeType, "document") then "FileText"
    else if Contains(mimeType, "excel") || Contains(mimeType, "spreadsheet") then "Calculator"
    else if Contains(mimeType, "powerpoint") || Contains(mimeType, "presentation") then "Presentation"
    else if Contains(mimeType, "zip") then "Archive"
    else "File"
  }

  /** The icon agrees with the category wherever both look at the same
      words: the three media icons exactly mark the media categories, an
      archive or unclassified type gets its own icon, and every office
      icon marks a document. The two differ only through "text", which
      makes a document without giving it a document icon. */
  lemma IconFollowsCategory(mimeType: string)
    ensures var icon, c := GetFileIcon(mimeType), GetFileCategory(mimeType);
            && (icon == "Image" <==> c == Image)
            && (icon == "Video" <==> c == Video)
            && (icon == "Music" <==> c == Audio)
            && (icon in {"FileText", "Calculator", "Presentation"} ==> c == Document)
            && (c == Archive ==> icon == "Archive")
            && (c == Other ==> icon == "File")
            && (c == Document ==> icon in {"FileText", "Calculator", "Presentation", "Archive", "File"})
  {
  }

  /** `sub` occurs in any string built around it. */
  lemma ContainsBetween(a: string, sub: string, b: string)
    ensures Contains(a + sub + b, sub)
  {
    var s := a + sub + b;
    forall j | 0 <= j < |sub| ensures s[|a| + j] == sub[j] {
    }
    ContainsAt(s, sub, |a|);
  }

  /** A string that differs from a prefix at some position within both
      does not start with it. */
  lemma MismatchRulesOut(s: string, prefix: string, i: nat)
    requires i < |s| && i < |prefix| && s[i] != prefix[i]
    ensures !StartsWith(s, prefix)
  {
  }

  /** The Excel 2007 workbook type names an "officedocument", so the
      word rule catches it before the spreadsheet rule: it is shown with
      the text icon, not the calculator, and filed as a document. */
  lemma WorkbookGetsTextIcon()
    ensures var m := "application/vnd.openxmlformats-office" + "document" + ".spreadsheetml.sheet";
            GetFileIcon(m) == "FileText" && GetFileCategory(m) == Document
  {
    var a := "application/vnd.openxmlformats-office";
    var m := a + "document" + ".spreadsheetml.sheet";
    assert a[0] == 'a';
    assert m[0] == 'a' && m[1] == 'p';
    MismatchRulesOut(m, "image/", 0);
    MismatchRulesOut(m, "video/", 0);
    MismatchRulesOut(m, "audio/", 1);
    ContainsBetween(a, "document", ".spreadsheetml.sheet");
  }

  /** Plain text does not start like a media type. */
  lemma PlainTextIsNotMedia(m: string)
    requires m == "text/plain"
    ensures !IsMediaType(m)
  {
    MismatchRulesOut(m, "image/", 0);
    MismatchRulesOut(m, "video/", 0);
    MismatchRulesOut(m, "audio/", 0);
  }

  /** Plain text lacks the words of the two text-icon rules. */
  lemma PlainTextLacksTextWords(m: string)
    requires m == "text/plain"
    ensures !Contains(m, "pdf") && !Contains(m, "word") && !Contains(m, "document")
  {
    NotContainsMissingChar(m, "pdf", 'd');
    NotContainsMissingChar(m, "word", 'w');
    NotContainsMissingChar(m, "document", 'd');
  }

  /** Plain text lacks the words of the spreadsheet and slide rules. */
  lemma PlainTextLacksSheetAndSlideWords(m: string)
    requires m == "text/plain"
    ensures !Contains(m, "excel") && !Contains(m, "spreadsheet")
    ensures !Contains(m, "powerpoint") && !Contains(m, "presentation")
  {
    NotContainsMissingChar(m, "excel", 'c');
    NotContainsMissingChar(m, "spreadsheet", 's');
    NotContainsMissingChar(m, "powerpoint", 'w');
    NotContainsMissingChar(m, "presentation", 'r');
  }

  /** Plain text holds none of the icon words and so gets the generic
      file icon, yet the category rules file it under documents. */
  lemma PlainTextGetsFileIcon(m: string)
    requires m == "text/plain"
    ensures GetFileIcon(m) == "File"
    ensures GetFileCategory(m) == Document
  {
    PlainTextIsNotMedia(m);
    PlainTextLacksTextWords(m);
    PlainTextLacksSheetAndSlideWords(m);
    NotContainsMissingChar(m, "zip", 'z');
    ContainsAt(m, "text", 0);
  }

  /** `getStatusColor`. */
  function GetStatusColor(status: Status): string
  {
    match status
    case Success => "text-green-500"
    case Error => "text-red-500"
    case Uploading => "text-blue-500"
    case Pending => "text-gray-500"
  }

  /** `getStatusIcon`. */
  function GetStatusIcon(status: Status): string
  {
    match status
    case Success => "CheckCircle"
    case Error => "XCircle"
    case Uploading => "Loader"
    case Pending => "Clock"
  }

  /** Each status has its own colour and its own icon, so either one
      tells the status apart. */
  lemma StatusStylesDistinct(s: Status, t: Status)
    ensures GetStatusColor(s) == GetStatusColor(t) <==> s == t
    ensures GetStatusIcon(s) == GetStatusIcon(t) <==> s == t
  {
  }

  /** What the row shows in the thumbnail slot. */
  datatype Thumbnail = Picture(src: string) | TypeIcon(name: string)

  /** The visible parts of one row. `progress` is the percentage shown in
      the read-out and the bar, `None` when neither is shown; `errorText`
      the error line. */
  datatype Row = Row(
    thumbnail: Thumbnail,
    statusColor: string,
    statusIcon: string,
    spinning: bool,
    removable: bool,
    progress: Option<int>,
    errorText: Option<string>)

  /** A JavaScript string is truthy when it is not empty. */
  predicate Truthy(s: string)
  {
    s != ""
  }

  /** The row for entry `e`; `hasOnRemove` says whether the list passed a
      remove handler. */
  function RenderRow(e: Entry, hasOnRemove: bool): Row
  {
    Row(
      thumbnail := if e.preview.Some? && Truthy(e.preview.value) then Picture(e.preview.value)
                   else TypeIcon(GetFileIcon(e.mimeType)),
      statusColor := GetStatusColor(e.status),
      statusIcon := GetStatusIcon(e.status),
      spinning := e.status == Uploading,
      removable := hasOnRemove && e.status != Uploading,
      progress := if e.status == Uploading then Some(e.progress) else None,
      errorText := if e.status == Error && e.error.Some? && Truthy(e.error.value) then e.error else None)
  }

  /** The status colour and icon are those of the entry's status. The
      progress read-out and bar show exactly while the entry uploads, with
      the entry's progress; the remove button shows on every other row when
      a handler is given, so the two never show together. The status icon
      spins exactly while the bar shows. A picture is shown exactly for a non-empty preview.
      An error line appears only on an error row. On a well-formed entry
      the bar is a percentage, and the error line is shown exactly when
      the entry carries a non-empty message. */
  lemma RowVisibility(e: Entry, hasOnRemove: bool)
    ensures var row := RenderRow(e, hasOnRemove);
            && row.statusColor == GetStatusColor(e.status) && row.statusIcon == GetStatusIcon(e.status)
            && (row.progress.Some? <==> e.status == Uploading)
            && (row.progress.Some? ==> row.progress.value == e.progress)
            && (row.removable <==> hasOnRemove && e.status != Uploading)
            && !(row.removable && row.progress.Some?)
            && (row.spinning <==> row.progress.Some?)
            && (row.thumbnail.Picture? <==> e.preview.Some? && e.preview.value != "")
            && (row.thumbnail.TypeIcon? ==> row.thumbnail.name == GetFileIcon(e.mimeType))
            && (row.errorText.Some? ==> e.status == Error && row.errorText == e.error)
            && (WellFormed(e) && row.progress.Some? ==> 0 <= row.progress.value <= 100)
            && (WellFormed(e) ==> (row.errorText.Some? <==> e.error.Some? && e.error.value != ""))
  {
  }

  /** A file rejected by validation shows its first message on its row,
      and a row built for a valid image with a decoded picture shows the
      picture. */
  lemma NewEntryRow(config: UploadConfig, file: FileHandle, id: string, decoded: Option<string>, hasOnRemove: bool)
    ensures var v := Validate(config, file);
            var row := RenderRow(NewEntry(config, file, id, decoded), hasOnRemove);
            && (!v.isValid ==> row.errorText == Some(v.errors[0]) && row.removable == hasOnRemove)
            && (v.isValid ==> row.errorText == None && row.progress == None && row.statusIcon == "Clock")
            && (v.isValid && StartsWith(file.mimeType, "image/") && decoded.Some? && decoded.value != "" ==>
                  row.thumbnail == Picture(decoded.value))
  {
    ValidateSpec(config, file);
    var v := Validate(config, file);
    if !v.isValid {
      assert v.errors[0] in v.errors;
      assert v.errors[0][0] == 'F';
    }
  }
}
