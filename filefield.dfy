/** The file field that wraps the hosted upload widget: it checks its
    required props, polls for the widget library (at most 50 times),
    converts file records between the library's capitalised field names
    and the page's lower-case ones, and reads the widget's files. The
    library itself is outside the model: what it answers is an input. */
module FileField {
  import opened Wrappers
  import opened Strings

  // ---------------------------------------------------------------------
  // JavaScript values

  /** The values a record field can hold. Numbers are integers. */
  datatype Value = Undefined | Null | Str(s: string) | Num(n: int) | Bool(b: bool)

  /** JavaScript truthiness. */
  predicate Truthy(v: Value)
  {
    match v
    case Undefined => false
    case Null => false
    case Str(s) => s != ""
    case Num(n) => n != 0
    case Bool(b) => b
  }

  /** `a || b`: `a` when it is truthy, `b` otherwise. */
  function Or(a: Value, b: Value): (r: Value)
    ensures Truthy(a) ==> r == a
    ensures !Truthy(a) ==> r == b
  {
    if Truthy(a) then a else b
  }

  /** `String(v)`. */
  function JsString(v: Value): string
  {
    match v
    case Undefined => "undefined"
    case Null => "null"
    case Str(s) => s
    case Num(n) => IntToString(n)
    case Bool(b) => if b then "true" else "false"
  }

  /** `v?.toString()`: `undefined` on a missing value, its text otherwise. */
  function ToStr(v: Value): Value
  {
    if v.Undefined? || v.Null? then Undefined else Str(JsString(v))
  }

  /** The seven fields of a file record under one spelling. */
  datatype Fields = Fields(id: Value, name: Value, size: Value, fileType: Value,
                           uploadedAt: Value, url: Value, status: Value)

  const NoFields := Fields(Undefined, Undefined, Undefined, Undefined, Undefined, Undefined, Undefined)

  /** A file record as either side may send it: the library spells the
      fields with a capital (`Id`, `Name`, ...), the page in lower case
      (`id`, `name`, ..., `type`); a field that is not there is
      `undefined`. */
  datatype FileRecord = FileRecord(upper: Fields, lower: Fields)

  /** What the library hands over where a list of records is expected. */
  datatype Json = NotArray | Array(items: seq<FileRecord>)

  // ---------------------------------------------------------------------
  // parseInt

  /** Length of the run of decimal digits that `s` starts with. */
  function DigitRun(s: string): (n: nat)
    ensures n <= |s|
    ensures forall i :: 0 <= i < n ==> IsDigit(s[i])
    ensures n < |s| ==> !IsDigit(s[n])
  {
    if s == [] || !IsDigit(s[0]) then 0 else 1 + DigitRun(s[1..])
  }

  /** `parseInt(s)` in base 10: an optional sign, then the longest run of
      digits; `None` (NaN) when there is no digit. */
  function ParseInt(s: string): Option<int>
  {
    var negative := |s| > 0 && s[0] == '-';
    var body := if |s| > 0 && (s[0] == '-' || s[0] == '+') then s[1..] else s;
    var n := DigitRun(body);
    if n == 0 then None
    else
      var magnitude: int := DigitsValue(body[..n]);
      Some(if negative then -magnitude else magnitude)
  }

  /** Reading back the text of an integer gives the integer. */
  lemma ParseIntOfIntToString(i: int)
    ensures ParseInt(IntToString(i)) == Some(i)
  {
    var t := NatToString(if i < 0 then -i else i);
    DigitsValueOfNatToString(if i < 0 then -i else i);
    assert DigitRun(t) == |t|;
    assert t[..|t|] == t;
    if i < 0 {
      assert IntToString(i)[1..] == t;
    }
  }

  // ---------------------------------------------------------------------
  // Record conversion

  /** One record of `convertApiToUiFormat`: a lower-case record. */
  function ApiRecordToUi(r: FileRecord): FileRecord
  {
    var up, low := r.upper, r.lower;
    FileRecord(NoFields, Fields(
      id := Or(ToStr(up.id), ToStr(low.id)),
      name := Or(up.name, low.name),
      size := Or(up.size, low.size),
      fileType := Or(up.fileType, low.fileType),
      uploadedAt := Or(up.uploadedAt, low.uploadedAt),
      url := Or(up.url, low.url),
      status := Or(Or(up.status, low.status), Str("success"))))
  }

  /** One record of `convertUiToApiFormat`: a capitalised record. */
  function UiRecordToApi(u: FileRecord): FileRecord
  {
    var up, low := u.upper, u.lower;
    var parsed := ParseInt(JsString(low.id));
    FileRecord(Fields(
      id := if parsed.Some? && parsed.value != 0 then Num(parsed.value) else up.id,
      name := Or(low.name, up.name),
      size := Or(low.size, up.size),
      fileType := Or(low.fileType, up.fileType),
      uploadedAt := Or(low.uploadedAt, up.uploadedAt),
      url := Or(low.url, up.url),
      status := Or(Or(low.status, up.status), Str("success"))), NoFields)
  }

  /** `r` is what `first || second` leaves: `first` when it is truthy,
      `second` otherwise. */
  predicate FallsThrough(first: Value, second: Value, r: Value)
  {
    (Truthy(first) ==> r == first) && (!Truthy(first) ==> r == second)
  }

  /** Every field is set: truthy. */
  predicate AllSet(f: Fields)
  {
    && Truthy(f.id) && Truthy(f.name) && Truthy(f.size) && Truthy(f.fileType)
    && Truthy(f.uploadedAt) && Truthy(f.url) && Truthy(f.status)
  }

  /** A converted library record carries only lower-case fields; the id
      becomes text, and a numeric id always survives as its decimal text;
      the status is never falsy, and is "success" when neither status
      field is set; every falsy capitalised field falls through to the
      lower-case one (so a size of 0 is replaced by `size`, and an empty
      `Id` text by the text of `id`). */
  lemma ApiRecordToUiSpec(r: FileRecord)
    ensures var u := ApiRecordToUi(r);
            && u.upper == NoFields
            && (r.upper.id.Num? ==> u.lower.id == Str(IntToString(r.upper.id.n)))
            && (r.upper.id.Str? && r.upper.id.s != "" ==> u.lower.id == r.upper.id)
            && (r.upper.id.Undefined? || r.upper.id.Null? ==> u.lower.id == ToStr(r.lower.id))
            && FallsThrough(ToStr(r.upper.id), ToStr(r.lower.id), u.lower.id)
            && FallsThrough(r.upper.name, r.lower.name, u.lower.name)
            && FallsThrough(r.upper.size, r.lower.size, u.lower.size)
            && FallsThrough(r.upper.fileType, r.lower.fileType, u.lower.fileType)
            && FallsThrough(r.upper.uploadedAt, r.lower.uploadedAt, u.lower.uploadedAt)
            && FallsThrough(r.upper.url, r.lower.url, u.lower.url)
            && Truthy(u.lower.status)
            && (Truthy(r.upper.status) ==> u.lower.status == r.upper.status)
            && (!Truthy(r.upper.status) && Truthy(r.lower.status) ==> u.lower.status == r.lower.status)
            && (!Truthy(r.upper.status) && !Truthy(r.lower.status) ==> u.lower.status == Str("success"))
            && (r.upper.size == Num(0) ==> u.lower.size == r.lower.size)
            && (AllSet(r.upper) && r.upper.id.Str? ==> u.lower == r.upper)
  {
    if r.upper.id.Num? {
      assert |IntToString(r.upper.id.n)| > 0;
    }
  }

  /** A converted page record carries only capitalised fields; the id is
      the number the page id reads as, unless that is NaN or 0, in which
      case the record's own `Id` is kept; the status is never falsy and
      defaults to "success"; every set lower-case field wins over its
      capitalised twin, and a falsy one falls through to that twin. */
  lemma UiRecordToApiSpec(u: FileRecord)
    ensures var r := UiRecordToApi(u);
            var parsed := ParseInt(JsString(u.lower.id));
            && r.lower == NoFields
            && (parsed.Some? && parsed.value != 0 ==> r.upper.id == Num(parsed.value))
            && (parsed.None? || parsed == Some(0) ==> r.upper.id == u.upper.id)
            && Truthy(r.upper.status)
            && (Truthy(u.lower.status) ==> r.upper.status == u.lower.status)
            && (!Truthy(u.lower.status) && Truthy(u.upper.status) ==> r.upper.status == u.upper.status)
            && (!Truthy(u.lower.status) && !Truthy(u.upper.status) ==> r.upper.status == Str("success"))
            && FallsThrough(u.lower.name, u.upper.name, r.upper.name)
            && FallsThrough(u.lower.size, u.upper.size, r.upper.size)
            && FallsThrough(u.lower.fileType, u.upper.fileType, r.upper.fileType)
            && FallsThrough(u.lower.uploadedAt, u.upper.uploadedAt, r.upper.uploadedAt)
            && FallsThrough(u.lower.url, u.upper.url, r.upper.url)
            && (AllSet(u.lower) ==> r.upper.(id := u.lower.id) == u.lower)
  {
  }

  /** A library record with a non-zero numeric id and every field set
      comes back with the same capitalised fields from the page's
      format. */
  lemma ApiRoundTrip(r: FileRecord)
    requires r.upper.id.Num? && r.upper.id.n != 0 && AllSet(r.upper)
    ensures UiRecordToApi(ApiRecordToUi(r)).upper == r.upper
  {
    ParseIntOfIntToString(r.upper.id.n);
    assert |IntToString(r.upper.id.n)| > 0;
  }

  /** A page record whose id is the text of a non-zero integer and whose
      fields are all set comes back with the same lower-case fields from
      the library's format. */
  lemma UiRoundTrip(u: FileRecord, n: int)
    requires u.lower.id == Str(IntToString(n)) && n != 0 && AllSet(u.lower)
    ensures ApiRecordToUi(UiRecordToApi(u)).lower == u.lower
  {
    ParseIntOfIntToString(n);
  }

  /** The round trip loses an id of 0: its text "0" is truthy on the way
      in, but reads back as 0, which is falsy, and the page record has no
      `Id` to fall back on. */
  lemma ZeroIdIsLost(r: FileRecord)
    requires r.upper.id == Num(0)
    ensures ApiRecordToUi(r).lower.id == Str("0")
    ensures UiRecordToApi(ApiRecordToUi(r)).upper.id == Undefined
  {
    ParseIntOfIntToString(0);
    assert IntToString(0) == "0";
  }

  /** `convertApiToUiFormat`. */
  function ConvertApiToUi(files: Json): (r: seq<FileRecord>)
    ensures files.NotArray? ==> r == []
    ensures files.Array? ==> |r| == |files.items|
    ensures files.Array? ==> forall i :: 0 <= i < |r| ==> r[i] == ApiRecordToUi(files.items[i])
  {
    match files
    case NotArray => []
    case Array(items) => seq(|items|, i requires 0 <= i < |items| => ApiRecordToUi(items[i]))
  }

  /** `convertUiToApiFormat`. */
  function ConvertUiToApi(files: Json): (r: seq<FileRecord>)
    ensures files.NotArray? ==> r == []
    ensures files.Array? ==> |r| == |files.items|
    ensures files.Array? ==> forall i :: 0 <= i < |r| ==> r[i] == UiRecordToApi(files.items[i])
  {
    match files
    case NotArray => []
    case Array(items) => seq(|items|, i requires 0 <= i < |items| => UiRecordToApi(items[i]))
  }

  /** Whole lists round-trip record by record and in order under the
      conditions of `ApiRoundTrip`. */
  lemma ApiListRoundTrip(items: seq<FileRecord>)
    requires forall i :: 0 <= i < |items| ==>
               items[i].upper.id.Num? && items[i].upper.id.n != 0 && AllSet(items[i].upper)
    ensures var back := ConvertUiToApi(Array(ConvertApiToUi(Array(items))));
            && |back| == |items|
            && forall i :: 0 <= i < |items| ==> back[i].upper == items[i].upper
  {
    var back := ConvertUiToApi(Array(ConvertApiToUi(Array(items))));
    forall i | 0 <= i < |items| ensures back[i].upper == items[i].upper {
      ApiRoundTrip(items[i]);
    }
  }

  // ---------------------------------------------------------------------
  // Props

  /** The three ways the props can be incomplete, checked in this order. */
  datatype PropsProblem = NoElementId | NoConfig | IncompleteConfig

  function PropsMessage(p: PropsProblem): string
  {
    match p
    case NoElementId => "elementId is required"
    case NoConfig => "config is required"
    case IncompleteConfig =>
      "Missing required config properties: fieldKey, tableName, fieldName, apperProjectId, apperPublicKey, purpose"
  }

  /** The six keys the config must set. */
  datatype ConfigKey = FieldKey | TableName | FieldName | ApperProjectId | ApperPublicKey | Purpose

  /** The config prop: the six required keys and what they hold. */
  type Config = ConfigKey -> Value

  /** The first failing prop check, `None` when the props are complete;
      `config` is `None` when that prop is missing. */
  function PropsCheck(elementId: Value, config: Option<Config>): Option<PropsProblem>
  {
    if !Truthy(elementId) then Some(NoElementId)
    else if config.None? then Some(NoConfig)
    else
      var c := config.value;
      if || !Truthy(c(FieldKey)) || !Truthy(c(TableName)) || !Truthy(c(FieldName))
         || !Truthy(c(ApperProjectId)) || !Truthy(c(ApperPublicKey)) || !Truthy(c(Purpose))
      then Some(IncompleteConfig)
      else None
  }

  /** The props pass exactly when the element id is truthy, a config is
      given, and all six required keys are truthy in it; otherwise the
      first failing check names the problem. */
  lemma PropsCheckSpec(elementId: Value, config: Option<Config>)
    ensures PropsCheck(elementId, config).None? <==>
              Truthy(elementId) && config.Some? && forall k :: Truthy(config.value(k))
    ensures PropsCheck(elementId, config) == Some(NoElementId) <==> !Truthy(elementId)
    ensures PropsCheck(elementId, config) == Some(NoConfig) <==> Truthy(elementId) && config.None?
    ensures PropsCheck(elementId, config) == Some(IncompleteConfig) <==>
              Truthy(elementId) && config.Some? && exists k :: !Truthy(config.value(k))
  {
    if Truthy(elementId) && config.Some? && exists k :: !Truthy(config.value(k)) {
      var k :| !Truthy(config.value(k));
      assert k.FieldKey? || k.TableName? || k.FieldName? || k.ApperProjectId? || k.ApperPublicKey? || k.Purpose?;
    }
  }

  // ---------------------------------------------------------------------
  // The component

  /** 50 checks, 100 ms apart. */
  const MaxLoadingAttempts := 50
  const TimeoutMessage := "ApperSDK failed to load within 5 seconds. Please refresh the page."

  /** What the library's `getFiles` does for the field: there is no
      library, it throws, or it returns a value. */
  datatype SdkAnswer = Absent | Throws | Returns(files: Json)

  /** The files `getFiles` returns, and whether it called `onError`. */
  datatype Fetched = Fetched(files: seq<FileRecord>, errorReported: bool)

  /** What the component shows: the loading card with its counter and bar
      width, the error card, or the widget with its mounting overlay and
      its mounted badge. */
  datatype Screen =
    | LoadingScreen(attempts: nat, barPercent: real)
    | ErrorScreen(message: string)
    | WidgetScreen(mountingOverlay: bool, mountedBadge: bool)

  function ScreenOf(isSDKLoaded: bool, sdkError: Option<string>, isComponentMounted: bool, loadingAttempts: nat): Screen
  {
    if !isSDKLoaded && sdkError.None? then
      LoadingScreen(loadingAttempts, (loadingAttempts as real / MaxLoadingAttempts as real) * 100.0)
    else if sdkError.Some? then ErrorScreen(sdkError.value)
    else WidgetScreen(isSDKLoaded && !isComponentMounted, isComponentMounted)
  }

  /** The loading bar stays within its track while the count is within
      the limit, and is full exactly at the limit. */
  lemma LoadingBarBounds(loadingAttempts: nat, isComponentMounted: bool)
    requires loadingAttempts <= MaxLoadingAttempts
    ensures var s := ScreenOf(false, None, isComponentMounted, loadingAttempts);
            && s.LoadingScreen? && 0.0 <= s.barPercent <= 100.0
            && (s.barPercent == 100.0 <==> loadingAttempts == MaxLoadingAttempts)
  {
  }

  /** `ApperFileFieldComponent.getFiles`, the static one: no mounted
      check and no `onError`. Nothing comes back when the library is
      missing, throws or answers with something other than a list;
      otherwise one converted record per library record, in order, as the
      instance's `convertApiToUiFormat` gives them. */
  function GetFilesStatic(answer: SdkAnswer): (r: seq<FileRecord>)
    ensures answer.Absent? || answer.Throws? ==> r == []
    ensures answer.Returns? && answer.files.NotArray? ==> r == []
    ensures answer.Returns? && answer.files.Array? ==>
              |r| == |answer.files.items| && forall i :: 0 <= i < |r| ==> r[i] == ApiRecordToUi(answer.files.items[i])
    ensures answer.Returns? ==> r == ConvertApiToUi(answer.files)
  {
    match answer
    case Absent => []
    case Throws => []
    case Returns(files) =>
      if files.NotArray? then []
      else seq(|files.items|, i requires 0 <= i < |files.items| => ApiRecordToUi(files.items[i]))
  }

  class ApperFileField {
    const elementId: Value
    const config: Option<Config>
    var isSDKLoaded: bool
    var sdkError: Option<string>
    var isComponentMounted: bool
    var loadingAttempts: nat

    constructor (elementId: Value, config: Option<Config>)
      ensures this.elementId == elementId && this.config == config
      ensures !isSDKLoaded && sdkError == None && !isComponentMounted && loadingAttempts == 0
    {
      this.elementId := elementId;
      this.config := config;
      isSDKLoaded := false;
      sdkError := None;
      isComponentMounted := false;
      loadingAttempts := 0;
    }

    function CurrentScreen(): Screen
      reads this
    {
      ScreenOf(isSDKLoaded, sdkError, isComponentMounted, loadingAttempts)
    }

    /** The prop-check effect: records the message of a failing check and
        leaves the error alone otherwise. */
    method ValidateProps()
      modifies this
      ensures var p := PropsCheck(elementId, config);
              sdkError == if p.Some? then Some(PropsMessage(p.value)) else old(sdkError)
      ensures isSDKLoaded == old(isSDKLoaded) && isComponentMounted == old(isComponentMounted)
      ensures loadingAttempts == old(loadingAttempts)
    {
      if !Truthy(elementId) {
        sdkError := Some(PropsMessage(NoElementId));
        return;
      }
      if config.None? {
        sdkError := Some(PropsMessage(NoConfig));
        return;
      }
      var c := config.value;
      if || !Truthy(c(FieldKey)) || !Truthy(c(TableName)) || !Truthy(c(FieldName))
         || !Truthy(c(ApperProjectId)) || !Truthy(c(ApperPublicKey)) || !Truthy(c(Purpose))
      {
        sdkError := Some(PropsMessage(IncompleteConfig));
      }
    }

    /** `checkSDK` and its re-scheduling. `present[k]` says whether the
        library is there at check `k + 1`. The poll stops at the first
        check that finds it, marking it loaded and clearing the error, or
        after exactly 50 checks with the timeout message; the counter shown
        is the number of checks made. Either way the loading card is gone. */
    method CheckSDK(present: seq<bool>)
      requires |present| >= MaxLoadingAttempts
      modifies this
      ensures 1 <= loadingAttempts <= MaxLoadingAttempts
      ensures forall j :: 0 <= j < loadingAttempts - 1 ==> !present[j]
      ensures present[loadingAttempts - 1] ==> isSDKLoaded && sdkError == None
      ensures !present[loadingAttempts - 1] ==>
                && loadingAttempts == MaxLoadingAttempts
                && sdkError == Some(TimeoutMessage) && isSDKLoaded == old(isSDKLoaded)
      ensures (exists j :: 0 <= j < MaxLoadingAttempts && present[j]) <==> present[loadingAttempts - 1]
      ensures isComponentMounted == old(isComponentMounted)
      ensures !CurrentScreen().LoadingScreen?
    {
      var attempts := 1;
      loadingAttempts := attempts;
      while !present[attempts - 1] && attempts < MaxLoadingAttempts
        invariant 1 <= attempts <= MaxLoadingAttempts
        invariant forall j :: 0 <= j < attempts - 1 ==> !present[j]
        invariant loadingAttempts == attempts
        invariant isSDKLoaded == old(isSDKLoaded) && sdkError == old(sdkError)
        invariant isComponentMounted == old(isComponentMounted)
        decreases MaxLoadingAttempts - attempts
      {
        attempts := attempts + 1;
        loadingAttempts := attempts;
      }
      if present[attempts - 1] {
        isSDKLoaded := true;
        sdkError := None;
      } else {
        sdkError := Some(TimeoutMessage);
      }
    }

    /** The two effects of the first render, in order: the prop check,
        then the first readiness check and its follow-ups. The poll's
        result overwrites whatever the prop check recorded: the component
        ends either loaded with no error or with the timeout message,
        whether or not its props were complete. */
    method Start(present: seq<bool>)
      requires |present| >= MaxLoadingAttempts
      modifies this
      ensures (exists j :: 0 <= j < MaxLoadingAttempts && present[j]) ==> isSDKLoaded && sdkError == None
      ensures !(exists j :: 0 <= j < MaxLoadingAttempts && present[j]) ==>
                sdkError == Some(TimeoutMessage) && loadingAttempts == MaxLoadingAttempts
      ensures isComponentMounted == old(isComponentMounted)
    {
      ValidateProps();
      CheckSDK(present);
    }

    /** The mount effect once the library is ready: `failure` is the
        message of the error the library's `mount` throws, `None` when it
        mounts. Does nothing before the library is loaded or while an
        error is shown. */
    method MountFileField(failure: Option<string>)
      modifies this
      ensures !old(isSDKLoaded) || old(sdkError).Some? ==>
                isComponentMounted == old(isComponentMounted) && sdkError == old(sdkError)
      ensures old(isSDKLoaded) && old(sdkError).None? && failure.None? ==>
                isComponentMounted && sdkError == None
      ensures old(isSDKLoaded) && old(sdkError).None? && failure.Some? ==>
                isComponentMounted == old(isComponentMounted)
                && sdkError == Some("Failed to initialize file uploader: " + failure.value)
      ensures isSDKLoaded == old(isSDKLoaded) && loadingAttempts == old(loadingAttempts)
    {
      if !isSDKLoaded || sdkError.Some? {
        return;
      }
      if failure.None? {
        isComponentMounted := true;
        sdkError := None;
      } else {
        sdkError := Some("Failed to initialize file uploader: " + failure.value);
      }
    }

    /** `handleRetry`: back to the loading card with a zero count. */
    method HandleRetry()
      modifies this
      ensures sdkError == None && loadingAttempts == 0 && !isSDKLoaded && !isComponentMounted
      ensures CurrentScreen() == LoadingScreen(0, 0.0)
    {
      sdkError := None;
      loadingAttempts := 0;
      isSDKLoaded := false;
      isComponentMounted := false;
    }

    /** The instance `getFiles`. */
    function GetFiles(answer: SdkAnswer): Fetched
      reads this
    {
      if !isComponentMounted || answer.Absent? then Fetched([], false)
      else match answer
        case Throws => Fetched([], true)
        case Returns(files) => Fetched(ConvertApiToUi(files), false)
    }

    /** The instance `getFiles` returns nothing unless the widget is
        mounted and the library answers with a list, reports an error
        exactly when a mounted widget's library throws, and otherwise
        returns one converted record per library record; once mounted it
        returns what the static `getFiles` returns. */
    lemma GetFilesSpec(answer: SdkAnswer)
      ensures var r := GetFiles(answer);
              && (r.errorReported <==> isComponentMounted && answer.Throws?)
              && (!isComponentMounted || !answer.Returns? || answer.files.NotArray? ==> r.files == [])
              && (isComponentMounted && answer.Returns? && answer.files.Array? ==>
                    |r.files| == |answer.files.items|)
              && (isComponentMounted ==> r.files == GetFilesStatic(answer))
    {
    }
  }
}
