/** The request validators of patient-api/src/validators.js: the event
    payload accepted by the ingestion endpoint and the patient id route
    parameter. Every rejection is an HTTP 400. */
module PatientValidators {
  import opened JsValues

  const AllowedFields: seq<string> := ["patientId", "eventType", "severity", "department", "data", "timestamp"]
  const EventTypes: set<string> := {"admission", "lab_result", "vitals", "discharge"}
  const Severities: set<string> := {"normal", "warning", "critical"}
  const MaxPatientIdLength: nat := 50
  const MaxDepartmentLength: nat := 100
  const MaxTimestampLength: nat := 40
  const MaxStringInDataLength: nat := 500
  const MaxKeyInDataLength: nat := 100
  const MaxDataBytes: nat := 50 * 1024
  /** How far in the future a timestamp may lie, in milliseconds. */
  const FutureToleranceMs: int := 60000

  /** A step of the path reported for an offending string or key. */
  datatype PathStep = Root | Index(i: nat) | Key(k: string)

  /** Why `validateStringLength` rejected a value. */
  datatype StringError = NotNonEmptyString | TooLong(max: nat)

  /** Why a request was rejected. */
  datatype PayloadError =
    | BodyNotObject
    | UnexpectedFields(fields: seq<string>)
    | BadString(field: string, cause: StringError)
    | InvalidEventType
    | InvalidSeverity
    | DataNotObject
    | DataTooLarge
    | StringTooLongAt(path: seq<PathStep>)
    | KeyTooLongAt(path: seq<PathStep>)
    | InvalidTimestamp
    | TimestampInFuture

  function Reject<T>(reason: PayloadError): Result<T, HttpError<PayloadError>> {
    Err(HttpError(400, reason))
  }

  /** `validateStringLength`. */
  function ValidateStringLength(value: Option<Json>, max: nat): (r: Result<(), StringError>)
    ensures r.Ok? <==> StringOk(value, max)
    ensures r == Err(NotNonEmptyString) <==> !(value.Some? && value.value.JStr? && !AllWhitespace(value.value.s))
  {
    if !(value.Some? && value.value.JStr?) then Err(NotNonEmptyString)
    else
      TrimEmptyIffBlank(value.value.s);
      if Trim(value.value.s) == "" then Err(NotNonEmptyString)
      else if JsLength(value.value.s) > max then Err(TooLong(max))
      else Ok(())
  }

  /** The trees `validateNoLongStringsInObject` accepts: every string leaf
      at most 500 code units, every object key at most 100, at any depth;
      other scalars are not looked at. */
  predicate WithinLimits(v: Json) {
    match v
    case JStr(s) => JsLength(s) <= MaxStringInDataLength
    case JArr(items) => forall i :: 0 <= i < |items| ==> WithinLimits(items[i])
    case JObj(fields) =>
      forall i :: 0 <= i < |fields| ==> JsLength(fields[i].0) <= MaxKeyInDataLength && WithinLimits(fields[i].1)
    case _ => true
  }

  /** `validateNoLongStringsInObject(v, path)`: the first offending string
      or key in document order, with its path. */
  function CheckTree(v: Json, path: seq<PathStep>): Result<(), PayloadError>
    decreases v
  {
    match v
    case JStr(s) => if JsLength(s) > MaxStringInDataLength then Err(StringTooLongAt(path)) else Ok(())
    case JArr(items) => CheckItems(items, path, 0)
    case JObj(fields) => CheckEntries(fields, path)
    case _ => Ok(())
  }

  /** The array branch: items from position `from` on. */
  function CheckItems(items: seq<Json>, path: seq<PathStep>, from: nat): Result<(), PayloadError>
    decreases items
  {
    if items == [] then Ok(())
    else
      match CheckTree(items[0], path + [Index(from)])
      case Err(e) => Err(e)
      case Ok(_) => CheckItems(items[1..], path, from + 1)
  }

  /** The object branch: each key's length, then its value. */
  function CheckEntries(fields: seq<(string, Json)>, path: seq<PathStep>): Result<(), PayloadError>
    decreases fields
  {
    if fields == [] then Ok(())
    else if JsLength(fields[0].0) > MaxKeyInDataLength then Err(KeyTooLongAt(path + [Key(fields[0].0)]))
    else
      assert fields[0].1 < fields[0];
      match CheckTree(fields[0].1, path + [Key(fields[0].0)])
      case Err(e) => Err(e)
      case Ok(_) => CheckEntries(fields[1..], path)
  }

  /** The recursive check accepts exactly the trees within the limits, and
      only ever reports a too-long string or key. */
  lemma {:induction false} CheckTreeWithinLimits(v: Json, path: seq<PathStep>)
    ensures CheckTree(v, path).Ok? <==> WithinLimits(v)
    ensures CheckTree(v, path).Err? ==> CheckTree(v, path).error.StringTooLongAt? || CheckTree(v, path).error.KeyTooLongAt?
    decreases v, 1
  {
    match v
    case JArr(items) => CheckItemsWithinLimits(items, path, 0);
    case JObj(fields) => CheckEntriesWithinLimits(fields, path);
    case _ =>
  }

  lemma {:induction false} CheckItemsWithinLimits(items: seq<Json>, path: seq<PathStep>, from: nat)
    ensures CheckItems(items, path, from).Ok? <==> forall i :: 0 <= i < |items| ==> WithinLimits(items[i])
    ensures CheckItems(items, path, from).Err? ==>
      CheckItems(items, path, from).error.StringTooLongAt? || CheckItems(items, path, from).error.KeyTooLongAt?
    decreases items, 0
  {
    if items != [] {
      CheckTreeWithinLimits(items[0], path + [Index(from)]);
      CheckItemsWithinLimits(items[1..], path, from + 1);
      assert forall i :: 1 <= i < |items| ==> items[i] == items[1..][i - 1];
    }
  }

  lemma {:induction false} CheckEntriesWithinLimits(fields: seq<(string, Json)>, path: seq<PathStep>)
    ensures CheckEntries(fields, path).Ok? <==>
      forall i :: 0 <= i < |fields| ==> JsLength(fields[i].0) <= MaxKeyInDataLength && WithinLimits(fields[i].1)
    ensures CheckEntries(fields, path).Err? ==>
      CheckEntries(fields, path).error.StringTooLongAt? || CheckEntries(fields, path).error.KeyTooLongAt?
    decreases fields, 0
  {
    if fields != [] {
      if JsLength(fields[0].0) <= MaxKeyInDataLength {
        assert fields[0].1 < fields[0];
        CheckTreeWithinLimits(fields[0].1, path + [Key(fields[0].0)]);
      }
      CheckEntriesWithinLimits(fields[1..], path);
      assert forall i :: 1 <= i < |fields| ==> fields[i] == fields[1..][i - 1];
    }
  }

  predicate IsDigit(c: char) {
    '0' <= c <= '9'
  }

  /** `\d{n}` at position `at`. */
  predicate DigitsAt(s: string, at: nat, n: nat) {
    at + n <= |s| && forall k :: at <= k < at + n ==> IsDigit(s[k])
  }

  /** `\d{4}-\d{2}-\d{2}T\d{2}:\d{2}:\d{2}` at the start of `s`. */
  predicate DateTimePrefix(s: string) {
    && |s| >= 19
    && DigitsAt(s, 0, 4) && s[4] == '-' && DigitsAt(s, 5, 2) && s[7] == '-' && DigitsAt(s, 8, 2)
    && s[10] == 'T' && DigitsAt(s, 11, 2) && s[13] == ':' && DigitsAt(s, 14, 2) && s[16] == ':' && DigitsAt(s, 17, 2)
  }

  /** `(?:Z|[+-]\d{2}:\d{2})$`. */
  predicate Zone(z: string) {
    z == "Z" || (|z| == 6 && (z[0] == '+' || z[0] == '-') && DigitsAt(z, 1, 2) && z[3] == ':' && DigitsAt(z, 4, 2))
  }

  /** `\.\d{k}` followed by a zone. */
  predicate FractionThenZone(t: string, k: nat) {
    |t| >= k + 1 && t[0] == '.' && DigitsAt(t, 1, k) && Zone(t[k + 1..])
  }

  /** The `ISO_8601_PATTERN` regular expression, anchored at both ends;
      `\d` is an ASCII digit. */
  predicate IsoPattern(s: string) {
    DateTimePrefix(s)
    && (Zone(s[19..]) || FractionThenZone(s[19..], 1) || FractionThenZone(s[19..], 2) || FractionThenZone(s[19..], 3))
  }

  /** A string the pattern accepts is 20 to 29 characters long, so the
      40-character bound checked before it never decides a match. */
  lemma IsoPatternLength(s: string)
    requires IsoPattern(s)
    ensures 20 <= |s| <= 29
  {
  }

  /** The normalized event `validatePatientEventPayload` returns. */
  datatype PatientEvent = PatientEvent(
    patientId: string, eventType: string, severity: string, department: string, data: Json, timestamp: string)

  /** The runtime functions the validator relies on. */
  datatype Runtime = Runtime(parseDate: DateParser, toIso: IsoFormatter, byteSize: ByteSize)

  /** Stages of `validatePatientEventPayload`, each including the ones
      before it. */
  predicate ShapeOk(p: Json) {
    IsObject(p) && Without(Keys(p), AllowedFields) == []
  }

  predicate StringsOk(p: Json) {
    && ShapeOk(p)
    && StringOk(Get(p, "patientId"), MaxPatientIdLength)
    && StringOk(Get(p, "department"), MaxDepartmentLength)
    && StringOk(Get(p, "timestamp"), MaxTimestampLength)
  }

  predicate EnumsOk(p: Json) {
    StringsOk(p) && EventTypeOk(p) && SeverityOk(p)
  }

  predicate DataOk(p: Json, rt: Runtime) {
    && EnumsOk(p)
    && Get(p, "data").Some? && IsObject(Get(p, "data").value)
    && rt.byteSize(Get(p, "data").value) <= MaxDataBytes
    && WithinLimits(Get(p, "data").value)
  }

  predicate TimestampOk(p: Json, rt: Runtime) {
    && DataOk(p, rt)
    && IsoPattern(Get(p, "timestamp").value.s)
    && rt.parseDate(Get(p, "timestamp").value).Some?
  }

  /** A payload the validator accepts at time `now`. */
  predicate ValidPayload(p: Json, now: int, rt: Runtime) {
    TimestampOk(p, rt) && rt.parseDate(Get(p, "timestamp").value).value <= now + FutureToleranceMs
  }

  /** The first two checks: the body is an object and has no key outside
      the allowed six. */
  function CheckShape(p: Json): (r: Result<(), PayloadError>)
    ensures r.Ok? <==> ShapeOk(p)
    ensures r.Err? ==> r.error.BodyNotObject? || r.error.UnexpectedFields?
    ensures r == Err(BodyNotObject) <==> !IsObject(p)
    ensures r.Err? && r.error != BodyNotObject ==>
      IsObject(p) && r.error == UnexpectedFields(Without(Keys(p), AllowedFields))
  {
    if !IsObject(p) then Err(BodyNotObject)
    else
      var unexpected := Without(Keys(p), AllowedFields);
      if |unexpected| > 0 then Err(UnexpectedFields(unexpected)) else Ok(())
  }

  /** `validateStringLength` on patientId, department and timestamp, in
      that order. */
  function CheckStrings(p: Json): (r: Result<(), PayloadError>)
    ensures r.Ok? <==>
      && StringOk(Get(p, "patientId"), MaxPatientIdLength)
      && StringOk(Get(p, "department"), MaxDepartmentLength)
      && StringOk(Get(p, "timestamp"), MaxTimestampLength)
    ensures r.Err? ==> r.error.BadString?
    ensures r.Err? && r.error.field == "patientId" ==>
      ValidateStringLength(Get(p, "patientId"), MaxPatientIdLength) == Err(r.error.cause)
    ensures r.Err? && r.error.field == "department" ==>
      && StringOk(Get(p, "patientId"), MaxPatientIdLength)
      && ValidateStringLength(Get(p, "department"), MaxDepartmentLength) == Err(r.error.cause)
    ensures r.Err? && r.error.field == "timestamp" ==>
      && StringOk(Get(p, "patientId"), MaxPatientIdLength)
      && StringOk(Get(p, "department"), MaxDepartmentLength)
      && ValidateStringLength(Get(p, "timestamp"), MaxTimestampLength) == Err(r.error.cause)
  {
    match ValidateStringLength(Get(p, "patientId"), MaxPatientIdLength)
    case Err(c) => Err(BadString("patientId", c))
    case Ok(_) =>
    match ValidateStringLength(Get(p, "department"), MaxDepartmentLength)
    case Err(c) => Err(BadString("department", c))
    case Ok(_) =>
    match ValidateStringLength(Get(p, "timestamp"), MaxTimestampLength)
    case Err(c) => Err(BadString("timestamp", c))
    case Ok(_) => Ok(())
  }

  predicate EventTypeOk(p: Json) {
    Get(p, "eventType").Some? && Get(p, "eventType").value.JStr? && Get(p, "eventType").value.s in EventTypes
  }

  predicate SeverityOk(p: Json) {
    Get(p, "severity").Some? && Get(p, "severity").value.JStr? && Get(p, "severity").value.s in Severities
  }

  /** Membership of eventType, then severity, in their closed sets. */
  function CheckEnums(p: Json): (r: Result<(), PayloadError>)
    ensures r.Ok? <==> EventTypeOk(p) && SeverityOk(p)
    ensures r.Err? ==> r.error.InvalidEventType? || r.error.InvalidSeverity?
    ensures r == Err(InvalidEventType) <==> !EventTypeOk(p)
    ensures r == Err(InvalidSeverity) <==> EventTypeOk(p) && !SeverityOk(p)
  {
    if !EventTypeOk(p) then Err(InvalidEventType)
    else if !SeverityOk(p) then Err(InvalidSeverity)
    else Ok(())
  }

  /** data: an object, at most 50 KiB serialized, and within the nested
      limits, checked in that order. */
  function CheckData(data: Option<Json>, rt: Runtime): (r: Result<(), PayloadError>)
    ensures r.Ok? <==> data.Some? && IsObject(data.value) && rt.byteSize(data.value) <= MaxDataBytes && WithinLimits(data.value)
    ensures r.Err? ==> r.error.DataNotObject? || r.error.DataTooLarge? || r.error.StringTooLongAt? || r.error.KeyTooLongAt?
    ensures r == Err(DataNotObject) <==> !(data.Some? && IsObject(data.value))
    ensures r == Err(DataTooLarge) <==> data.Some? && IsObject(data.value) && rt.byteSize(data.value) > MaxDataBytes
    ensures r.Err? && (r.error.StringTooLongAt? || r.error.KeyTooLongAt?) <==>
      data.Some? && IsObject(data.value) && rt.byteSize(data.value) <= MaxDataBytes && !WithinLimits(data.value)
  {
    if !(data.Some? && IsObject(data.value)) then Err(DataNotObject)
    else if rt.byteSize(data.value) > MaxDataBytes then Err(DataTooLarge)
    else
      CheckTreeWithinLimits(data.value, [Root]);
      CheckTree(data.value, [Root])
  }

  /** The timestamp matches the pattern, parses, and lies at most a minute
      after `now`; the parsed instant on success. */
  function CheckTimestamp(timestamp: Json, now: int, rt: Runtime): (r: Result<int, PayloadError>)
    requires timestamp.JStr?
    ensures r.Ok? <==> IsoPattern(timestamp.s) && rt.parseDate(timestamp).Some? && rt.parseDate(timestamp).value <= now + FutureToleranceMs
    ensures r.Ok? ==> r.value == rt.parseDate(timestamp).value
    ensures r.Err? ==> r.error.InvalidTimestamp? || r.error.TimestampInFuture?
    ensures r == Err(InvalidTimestamp) <==> !(IsoPattern(timestamp.s) && rt.parseDate(timestamp).Some?)
    ensures r == Err(TimestampInFuture) <==>
      IsoPattern(timestamp.s) && rt.parseDate(timestamp).Some? && rt.parseDate(timestamp).value > now + FutureToleranceMs
  {
    if !IsoPattern(timestamp.s) then Err(InvalidTimestamp)
    else
      match rt.parseDate(timestamp)
      case None => Err(InvalidTimestamp)
      case Some(parsed) => if parsed > now + FutureToleranceMs then Err(TimestampInFuture) else Ok(parsed)
  }

  /** The checks of `validatePatientEventPayload` in source order: the
      first failure, or the parsed timestamp when all pass. */
  function FirstFailure(payload: Json, now: int, rt: Runtime): (r: Result<int, PayloadError>)
    ensures r.Ok? <==> ValidPayload(payload, now, rt)
    ensures r.Ok? ==> r.value == rt.parseDate(Get(payload, "timestamp").value).value
  {
    match CheckShape(payload)
    case Err(e) => Err(e)
    case Ok(_) =>
    match CheckStrings(payload)
    case Err(e) => Err(e)
    case Ok(_) =>
    match CheckEnums(payload)
    case Err(e) => Err(e)
    case Ok(_) =>
    match CheckData(Get(payload, "data"), rt)
    case Err(e) => Err(e)
    case Ok(_) => CheckTimestamp(Get(payload, "timestamp").value, now, rt)
  }

  /** `validatePatientEventPayload(payload)` at time `now`: a 400 naming
      the first failed check, or the normalized event. */
  function ValidatePatientEventPayload(payload: Json, now: int, rt: Runtime): (r: Result<PatientEvent, HttpError<PayloadError>>)
    ensures r.Err? ==> r.error.status == 400 && FirstFailure(payload, now, rt) == Err(r.error.reason)
    ensures r.Ok? <==> ValidPayload(payload, now, rt)
  {
    match FirstFailure(payload, now, rt)
    case Err(e) => Reject(e)
    case Ok(parsed) =>
      Ok(PatientEvent(Trim(Get(payload, "patientId").value.s), Get(payload, "eventType").value.s,
                      Get(payload, "severity").value.s, Trim(Get(payload, "department").value.s),
                      Get(payload, "data").value, rt.toIso(parsed)))
  }

  /** Which stage `FirstFailure` reports: the first one that fails, or the
      timestamp check when all earlier ones pass. */
  lemma FirstFailureStages(payload: Json, now: int, rt: Runtime)
    ensures CheckShape(payload).Err? ==> FirstFailure(payload, now, rt) == Err(CheckShape(payload).error)
    ensures ShapeOk(payload) && CheckStrings(payload).Err? ==> FirstFailure(payload, now, rt) == Err(CheckStrings(payload).error)
    ensures StringsOk(payload) && CheckEnums(payload).Err? ==> FirstFailure(payload, now, rt) == Err(CheckEnums(payload).error)
    ensures EnumsOk(payload) && CheckData(Get(payload, "data"), rt).Err? ==>
      FirstFailure(payload, now, rt) == Err(CheckData(Get(payload, "data"), rt).error)
    ensures DataOk(payload, rt) ==> FirstFailure(payload, now, rt) == CheckTimestamp(Get(payload, "timestamp").value, now, rt)
  {
  }

  /** The body's shape is checked first: a non-object body, then the
      unexpected keys, all of them, in key order. */
  lemma RejectsShapeFirst(payload: Json, now: int, rt: Runtime)
    ensures var r := FirstFailure(payload, now, rt);
      r.Err? && r.error == BodyNotObject <==> !IsObject(payload)
    ensures var r := FirstFailure(payload, now, rt);
      r.Err? && r.error.UnexpectedFields? ==> IsObject(payload) && r.error.fields == Without(Keys(payload), AllowedFields) != []
  {
    FirstFailureStages(payload, now, rt);
    if CheckShape(payload).Err? {
    } else if CheckStrings(payload).Err? {
    } else if CheckEnums(payload).Err? {
    } else if CheckData(Get(payload, "data"), rt).Err? {
    } else {
    }
  }

  /** A bad identifier string is reported only for a well-shaped body,
      and it is the first of patientId, department, timestamp to fail. */
  lemma RejectsStringsAfterShape(payload: Json, now: int, rt: Runtime)
    ensures var r := FirstFailure(payload, now, rt);
      r.Err? && r.error.BadString? ==> ShapeOk(payload) && CheckStrings(payload) == Err(r.error)
  {
    FirstFailureStages(payload, now, rt);
    if CheckShape(payload).Err? {
    } else if CheckStrings(payload).Err? {
    } else if CheckEnums(payload).Err? {
    } else if CheckData(Get(payload, "data"), rt).Err? {
    } else {
    }
  }

  /** An unknown eventType or severity is reported only once the three
      strings passed, eventType first. */
  lemma RejectsEnumsAfterStrings(payload: Json, now: int, rt: Runtime)
    ensures var r := FirstFailure(payload, now, rt);
      r.Err? && r.error == InvalidEventType ==> StringsOk(payload) && !EventTypeOk(payload)
    ensures var r := FirstFailure(payload, now, rt);
      r.Err? && r.error == InvalidSeverity ==> StringsOk(payload) && EventTypeOk(payload) && !SeverityOk(payload)
  {
    FirstFailureStages(payload, now, rt);
    if CheckShape(payload).Err? {
    } else if CheckStrings(payload).Err? {
    } else if CheckEnums(payload).Err? {
    } else if CheckData(Get(payload, "data"), rt).Err? {
    } else {
    }
  }

  /** data is checked once both enums passed: object, then size, then the
      nested limits. */
  lemma RejectsDataAfterEnums(payload: Json, now: int, rt: Runtime)
    ensures var r := FirstFailure(payload, now, rt);
      r.Err? && r.error == DataNotObject ==> EnumsOk(payload) && !(Get(payload, "data").Some? && IsObject(Get(payload, "data").value))
    ensures var r := FirstFailure(payload, now, rt);
      r.Err? && r.error == DataTooLarge ==> EnumsOk(payload) && IsObject(Get(payload, "data").value) && rt.byteSize(Get(payload, "data").value) > MaxDataBytes
  {
    FirstFailureStages(payload, now, rt);
    if CheckShape(payload).Err? {
    } else if CheckStrings(payload).Err? {
    } else if CheckEnums(payload).Err? {
    } else if CheckData(Get(payload, "data"), rt).Err? {
    } else {
    }
  }

  /** A too-long string or key inside data is reported only for an object
      within the size bound. */
  lemma RejectsNestedAfterSize(payload: Json, now: int, rt: Runtime)
    ensures var r := FirstFailure(payload, now, rt);
      r.Err? && (r.error.StringTooLongAt? || r.error.KeyTooLongAt?) ==>
        EnumsOk(payload) && rt.byteSize(Get(payload, "data").value) <= MaxDataBytes && !WithinLimits(Get(payload, "data").value)
  {
    FirstFailureStages(payload, now, rt);
    if CheckShape(payload).Err? {
    } else if CheckStrings(payload).Err? {
    } else if CheckEnums(payload).Err? {
    } else if CheckData(Get(payload, "data"), rt).Err? {
    } else {
    }
  }

  /** The timestamp's pattern, parse and distance from `now` are checked
      last. */
  lemma RejectsTimestampLast(payload: Json, now: int, rt: Runtime)
    ensures var r := FirstFailure(payload, now, rt);
      r.Err? && r.error == InvalidTimestamp ==> DataOk(payload, rt) && !TimestampOk(payload, rt)
    ensures var r := FirstFailure(payload, now, rt);
      r.Err? && r.error == TimestampInFuture ==>
        TimestampOk(payload, rt) && rt.parseDate(Get(payload, "timestamp").value).value > now + FutureToleranceMs
  {
    FirstFailureStages(payload, now, rt);
    if CheckShape(payload).Err? {
    } else if CheckStrings(payload).Err? {
    } else if CheckEnums(payload).Err? {
    } else if CheckData(Get(payload, "data"), rt).Err? {
    } else {
    }
  }

  /** On success the identifiers come back trimmed, still non-blank and
      within their bounds, the enums and data unchanged, and the timestamp
      re-rendered from its parsed instant. */
  lemma AcceptedPayload(payload: Json, now: int, rt: Runtime)
    requires ValidatePatientEventPayload(payload, now, rt).Ok?
    ensures var e := ValidatePatientEventPayload(payload, now, rt).value;
      && e.patientId == Trim(Get(payload, "patientId").value.s)
      && e.patientId != "" && JsLength(e.patientId) <= MaxPatientIdLength
      && e.department == Trim(Get(payload, "department").value.s)
      && e.department != "" && JsLength(e.department) <= MaxDepartmentLength
      && JStr(e.eventType) == Get(payload, "eventType").value && e.eventType in EventTypes
      && JStr(e.severity) == Get(payload, "severity").value && e.severity in Severities
      && Some(e.data) == Get(payload, "data") && IsObject(e.data)
      && e.timestamp == rt.toIso(rt.parseDate(Get(payload, "timestamp").value).value)
  {
    var pid := Get(payload, "patientId").value.s;
    var dept := Get(payload, "department").value.s;
    TrimShortens(pid);
    TrimShortens(dept);
    TrimEmptyIffBlank(pid);
    TrimEmptyIffBlank(dept);
  }

  /** `validatePatientIdParam`: the patient id rule, then the trimmed id. */
  function ValidatePatientIdParam(patientId: Option<Json>): (r: Result<string, HttpError<PayloadError>>)
    ensures r.Ok? <==> StringOk(patientId, MaxPatientIdLength)
    ensures r.Ok? ==> r.value == Trim(patientId.value.s)
    ensures r.Err? ==> r.error.status == 400 && r.error.reason.BadString? && r.error.reason.field == "patientId"
  {
    match ValidateStringLength(patientId, MaxPatientIdLength)
    case Err(c) => Reject(BadString("patientId", c))
    case Ok(_) => Ok(Trim(patientId.value.s))
  }

  /** An accepted id is non-empty, has no whitespace at either end, fits
      the bound, and is its own trimmed form. */
  lemma AcceptedPatientId(patientId: Option<Json>)
    requires ValidatePatientIdParam(patientId).Ok?
    ensures var id := ValidatePatientIdParam(patientId).value;
      && id != "" && !IsJsWhitespace(id[0]) && !IsJsWhitespace(id[|id| - 1])
      && JsLength(id) <= MaxPatientIdLength
      && Trim(id) == id
  {
    var s := patientId.value.s;
    TrimEmptyIffBlank(s);
    TrimShape(s);
    TrimShortens(s);
    TrimIdempotent(s);
  }
}
