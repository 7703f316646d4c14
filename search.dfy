/** The search endpoint of query-service/src/search.js: the query-string
    parser, the Elasticsearch bool query built from its result, and the two
    response formatters. */
module SearchQuery {
  import opened JsValues

  const EventTypes: set<string> := {"admission", "lab_result", "vitals", "discharge"}
  const Severities: set<string> := {"normal", "warning", "critical"}
  const MaxQueryLength: nat := 500
  const MaxDepartmentLength: nat := 100
  const MaxPage: int := 100000
  const MaxLimit: int := 100
  const DefaultPage: int := 1
  const DefaultLimit: int := 20

  /** Why a search request was rejected; `field` names the parameter. */
  datatype SearchError =
    | DuplicateParameter
    | NotNonEmpty(field: string)
    | TooLong(field: string, max: nat)
    | NotInSet(field: string)
    | InvalidDate(field: string)
    | FromAfterTo
    | NotPositiveInteger(field: string)
    | AboveMaximum(field: string, bound: int)

  /** The runtime conversions the parser relies on: `Date.parse`,
      `toISOString` and `Number` on a string. */
  datatype Runtime = Runtime(parseDate: DateParser, toIso: IsoFormatter, toInteger: StringToInteger)

  function Reject<T>(reason: SearchError): Result<T, HttpError<SearchError>> {
    Err(HttpError(400, reason))
  }

  /** A parameter given more than once, which the query-string parser
      delivers as an array. */
  predicate IsDuplicate(value: Option<Json>) {
    value.Some? && value.value.JArr?
  }

  /** `normalizeSingleQueryParam`: an absent or single value passes through
      unchanged, a repeated one is rejected. */
  function NormalizeSingleQueryParam(value: Option<Json>): (r: Result<Option<Json>, SearchError>)
    ensures r.Err? <==> IsDuplicate(value)
    ensures r.Err? ==> r.error == DuplicateParameter
    ensures r.Ok? ==> r.value == value
  {
    if value.None? then Ok(None)
    else if value.value.JArr? then Err(DuplicateParameter)
    else Ok(value)
  }

  /** The eight parameters as read from the query string. */
  datatype RawParams = RawParams(
    q: Option<Json>, eventType: Option<Json>, severity: Option<Json>, department: Option<Json>,
    from: Option<Json>, to: Option<Json>, page: Option<Json>, limit: Option<Json>)

  /** No parameter the parser reads was repeated. */
  predicate NoDuplicates(query: Json) {
    && !IsDuplicate(Get(query, "q")) && !IsDuplicate(Get(query, "eventType"))
    && !IsDuplicate(Get(query, "severity")) && !IsDuplicate(Get(query, "department"))
    && !IsDuplicate(Get(query, "from")) && !IsDuplicate(Get(query, "to"))
    && !IsDuplicate(Get(query, "page")) && !IsDuplicate(Get(query, "limit"))
  }

  /** The `raw` record: every parameter normalized, the first repeated one
      rejecting the request. */
  function NormalizeParams(query: Json): (r: Result<RawParams, SearchError>)
    ensures r.Ok? <==> NoDuplicates(query)
    ensures r.Err? ==> r.error == DuplicateParameter
    ensures r.Ok? ==> r.value == RawParams(
      Get(query, "q"), Get(query, "eventType"), Get(query, "severity"), Get(query, "department"),
      Get(query, "from"), Get(query, "to"), Get(query, "page"), Get(query, "limit"))
  {
    match NormalizeSingleQueryParam(Get(query, "q"))
    case Err(e) => Err(e)
    case Ok(q) =>
    match NormalizeSingleQueryParam(Get(query, "eventType"))
    case Err(e) => Err(e)
    case Ok(eventType) =>
    match NormalizeSingleQueryParam(Get(query, "severity"))
    case Err(e) => Err(e)
    case Ok(severity) =>
    match NormalizeSingleQueryParam(Get(query, "department"))
    case Err(e) => Err(e)
    case Ok(department) =>
    match NormalizeSingleQueryParam(Get(query, "from"))
    case Err(e) => Err(e)
    case Ok(from) =>
    match NormalizeSingleQueryParam(Get(query, "to"))
    case Err(e) => Err(e)
    case Ok(to) =>
    match NormalizeSingleQueryParam(Get(query, "page"))
    case Err(e) => Err(e)
    case Ok(page) =>
    match NormalizeSingleQueryParam(Get(query, "limit"))
    case Err(e) => Err(e)
    case Ok(limit) => Ok(RawParams(q, eventType, severity, department, from, to, page, limit))
  }

  /** An optional free-text parameter (`q`, `department`): absent, or a
      non-blank string of at most `max` code units before trimming; the
      trimmed text is what the parser returns. */
  function CheckText(value: Option<Json>, field: string, max: nat): (r: Result<Option<string>, SearchError>)
    ensures value.None? ==> r == Ok(None)
    ensures value.Some? ==> (r.Ok? <==> StringOk(value, max))
    ensures r.Ok? && value.Some? ==> r.value == Some(Trim(value.value.s))
    ensures r == Err(NotNonEmpty(field)) <==> value.Some? && !(value.value.JStr? && !AllWhitespace(value.value.s))
    ensures r.Err? ==> r.error == NotNonEmpty(field) || r.error == TooLong(field, max)
  {
    if value.None? then Ok(None)
    else if !value.value.JStr? then Err(NotNonEmpty(field))
    else
      TrimEmptyIffBlank(value.value.s);
      if Trim(value.value.s) == "" then Err(NotNonEmpty(field))
      else if JsLength(value.value.s) > max then Err(TooLong(field, max))
      else Ok(Some(Trim(value.value.s)))
  }

  /** An optional enumerated parameter: absent, or a member of `allowed`. */
  function CheckMember(value: Option<Json>, field: string, allowed: set<string>): (r: Result<Option<string>, SearchError>)
    ensures r.Ok? <==> value.None? || (value.value.JStr? && value.value.s in allowed)
    ensures r.Ok? ==> r.value == if value.Some? then Some(value.value.s) else None
    ensures r.Err? ==> r.error == NotInSet(field)
  {
    if value.None? then Ok(None)
    else if value.value.JStr? && value.value.s in allowed then Ok(Some(value.value.s))
    else Err(NotInSet(field))
  }

  /** `validateIsoDateOrThrow`: an absent date stays absent, a parseable one
      is re-rendered in ISO form, anything else is rejected. */
  function ValidateIsoDateOrThrow(value: Option<Json>, field: string, rt: Runtime): (r: Result<Option<string>, SearchError>)
    ensures value.None? ==> r == Ok(None)
    ensures value.Some? ==> (r.Ok? <==> rt.parseDate(value.value).Some?)
    ensures r.Ok? && value.Some? ==> r.value == Some(rt.toIso(rt.parseDate(value.value).value))
    ensures r.Err? ==> r.error == InvalidDate(field)
  {
    if value.None? then Ok(None)
    else
      match rt.parseDate(value.value)
      case None => Err(InvalidDate(field))
      case Some(ms) => Ok(Some(rt.toIso(ms)))
  }

  /** JavaScript truthiness of an optional string. */
  predicate Given(s: Option<string>) {
    s.Some? && s.value != ""
  }

  /** Both bounds given and the first parses to a later instant than the
      second; an unparseable bound compares false, as NaN does. */
  predicate Inverted(from: Option<string>, to: Option<string>, rt: Runtime) {
    && Given(from) && Given(to)
    && rt.parseDate(JStr(from.value)).Some? && rt.parseDate(JStr(to.value)).Some?
    && rt.parseDate(JStr(from.value)).value > rt.parseDate(JStr(to.value)).value
  }

  /** The `from`/`to` ordering check. */
  function CheckDateOrder(from: Option<string>, to: Option<string>, rt: Runtime): (r: Result<(), SearchError>)
    ensures r.Err? <==> Inverted(from, to, rt)
    ensures r.Err? ==> r.error == FromAfterTo
  {
    if Given(from) && Given(to) && rt.parseDate(JStr(from.value)).Some? && rt.parseDate(JStr(to.value)).Some?
       && rt.parseDate(JStr(from.value)).value > rt.parseDate(JStr(to.value)).value
    then Err(FromAfterTo)
    else Ok(())
  }

  /** `parsePositiveInteger`: the default when absent, otherwise `Number(value)`
      when that is an integer of at least 1. */
  function ParsePositiveInteger(value: Option<Json>, field: string, default: int, toInteger: StringToInteger): (r: Result<int, SearchError>)
    ensures value.None? ==> r == Ok(default)
    ensures value.Some? ==> (r.Ok? <==> NumberInteger(value.value, toInteger).Some? && NumberInteger(value.value, toInteger).value >= 1)
    ensures value.Some? && r.Ok? ==> r.value == NumberInteger(value.value, toInteger).value
    ensures r.Err? ==> r.error == NotPositiveInteger(field)
  {
    if value.None? then Ok(default)
    else
      match NumberInteger(value.value, toInteger)
      case None => Err(NotPositiveInteger(field))
      case Some(n) => if n < 1 then Err(NotPositiveInteger(field)) else Ok(n)
  }

  /** A count parameter that, when given, is an integer in 1..max. */
  predicate CountWithin(value: Option<Json>, max: int, toInteger: StringToInteger) {
    value.None? || (NumberInteger(value.value, toInteger).Some? && 1 <= NumberInteger(value.value, toInteger).value <= max)
  }

  /** `page` and `limit`: a positive integer, then the upper bound. */
  function CheckCount(value: Option<Json>, field: string, default: int, max: int, toInteger: StringToInteger): (r: Result<int, SearchError>)
    requires 1 <= default <= max
    ensures r.Ok? <==> CountWithin(value, max, toInteger)
    ensures r.Ok? ==> 1 <= r.value <= max
    ensures r.Ok? ==> r.value == if value.None? then default else NumberInteger(value.value, toInteger).value
    ensures r.Err? ==> r.error == NotPositiveInteger(field) || r.error == AboveMaximum(field, max)
  {
    match ParsePositiveInteger(value, field, default, toInteger)
    case Err(e) => Err(e)
    case Ok(n) => if n > max then Err(AboveMaximum(field, max)) else Ok(n)
  }

  /** The parsed search: trimmed text, validated enums, ISO dates, and the
      page window. */
  datatype SearchParams = SearchParams(
    q: Option<string>, eventType: Option<string>, severity: Option<string>, department: Option<string>,
    from: Option<string>, to: Option<string>, page: int, limit: int)

  /** The ISO form of an optional date parameter, when it parses. */
  function IsoDate(value: Option<Json>, rt: Runtime): Option<string> {
    if value.Some? && rt.parseDate(value.value).Some? then Some(rt.toIso(rt.parseDate(value.value).value)) else None
  }

  predicate OptionalText(value: Option<Json>, max: nat) {
    value.None? || StringOk(value, max)
  }

  predicate OptionalMember(value: Option<Json>, allowed: set<string>) {
    value.None? || (value.value.JStr? && value.value.s in allowed)
  }

  predicate OptionalDate(value: Option<Json>, rt: Runtime) {
    value.None? || rt.parseDate(value.value).Some?
  }

  /** A query string `parseSearchParams` accepts. */
  predicate SearchAccepts(query: Json, rt: Runtime) {
    && NoDuplicates(query)
    && OptionalText(Get(query, "q"), MaxQueryLength)
    && OptionalMember(Get(query, "eventType"), EventTypes)
    && OptionalMember(Get(query, "severity"), Severities)
    && OptionalText(Get(query, "department"), MaxDepartmentLength)
    && OptionalDate(Get(query, "from"), rt)
    && OptionalDate(Get(query, "to"), rt)
    && !Inverted(IsoDate(Get(query, "from"), rt), IsoDate(Get(query, "to"), rt), rt)
    && CountWithin(Get(query, "page"), MaxPage, rt.toInteger)
    && CountWithin(Get(query, "limit"), MaxLimit, rt.toInteger)
  }

  /** The text and enum parameters after their checks. */
  datatype Filters = Filters(q: Option<string>, eventType: Option<string>, severity: Option<string>, department: Option<string>)

  /** The checks on q, eventType, severity and department, in that order. */
  function ParseFilters(raw: RawParams): (r: Result<Filters, SearchError>)
    ensures r.Ok? <==>
      && OptionalText(raw.q, MaxQueryLength)
      && OptionalMember(raw.eventType, EventTypes)
      && OptionalMember(raw.severity, Severities)
      && OptionalText(raw.department, MaxDepartmentLength)
    ensures r.Err? ==> r.error != DuplicateParameter
    ensures r.Ok? ==>
      && r.value.q == (if raw.q.Some? then Some(Trim(raw.q.value.s)) else None)
      && r.value.department == (if raw.department.Some? then Some(Trim(raw.department.value.s)) else None)
      && r.value.eventType == (if raw.eventType.Some? then Some(raw.eventType.value.s) else None)
      && r.value.severity == (if raw.severity.Some? then Some(raw.severity.value.s) else None)
  {
    match CheckText(raw.q, "q", MaxQueryLength)
    case Err(e) => Err(e)
    case Ok(q) =>
    match CheckMember(raw.eventType, "eventType", EventTypes)
    case Err(e) => Err(e)
    case Ok(eventType) =>
    match CheckMember(raw.severity, "severity", Severities)
    case Err(e) => Err(e)
    case Ok(severity) =>
    match CheckText(raw.department, "department", MaxDepartmentLength)
    case Err(e) => Err(e)
    case Ok(department) => Ok(Filters(q, eventType, severity, department))
  }

  /** The date range and the page window after their checks. */
  datatype Window = Window(from: Option<string>, to: Option<string>, page: int, limit: int)

  /** The checks on from, to, their order, page and limit, in that order. */
  function ParseWindow(raw: RawParams, rt: Runtime): (r: Result<Window, SearchError>)
    ensures r.Ok? <==>
      && OptionalDate(raw.from, rt) && OptionalDate(raw.to, rt)
      && !Inverted(IsoDate(raw.from, rt), IsoDate(raw.to, rt), rt)
      && CountWithin(raw.page, MaxPage, rt.toInteger)
      && CountWithin(raw.limit, MaxLimit, rt.toInteger)
    ensures r.Err? ==> r.error != DuplicateParameter
    ensures r.Ok? ==>
      && r.value.from == IsoDate(raw.from, rt)
      && r.value.to == IsoDate(raw.to, rt)
      && 1 <= r.value.page <= MaxPage && (raw.page.None? ==> r.value.page == DefaultPage)
      && 1 <= r.value.limit <= MaxLimit && (raw.limit.None? ==> r.value.limit == DefaultLimit)
  {
    match ValidateIsoDateOrThrow(raw.from, "from", rt)
    case Err(e) => Err(e)
    case Ok(from) =>
    match ValidateIsoDateOrThrow(raw.to, "to", rt)
    case Err(e) => Err(e)
    case Ok(to) =>
    match CheckDateOrder(from, to, rt)
    case Err(e) => Err(e)
    case Ok(_) =>
    match CheckCount(raw.page, "page", DefaultPage, MaxPage, rt.toInteger)
    case Err(e) => Err(e)
    case Ok(page) =>
    match CheckCount(raw.limit, "limit", DefaultLimit, MaxLimit, rt.toInteger)
    case Err(e) => Err(e)
    case Ok(limit) => Ok(Window(from, to, page, limit))
  }

  /** `parseSearchParams(query)`: the checks in source order, the first
      failure rejecting the request with a 400. */
  function ParseSearchParams(query: Json, rt: Runtime): (r: Result<SearchParams, HttpError<SearchError>>)
    ensures r.Err? ==> r.error.status == 400
    ensures r.Ok? <==> SearchAccepts(query, rt)
    ensures r == Reject(DuplicateParameter) <==> !NoDuplicates(query)
    ensures r.Ok? ==>
      && r.value.q == (if Get(query, "q").Some? then Some(Trim(Get(query, "q").value.s)) else None)
      && r.value.department == (if Get(query, "department").Some? then Some(Trim(Get(query, "department").value.s)) else None)
      && r.value.eventType == (if Get(query, "eventType").Some? then Some(Get(query, "eventType").value.s) else None)
      && r.value.severity == (if Get(query, "severity").Some? then Some(Get(query, "severity").value.s) else None)
    ensures r.Ok? ==>
      && r.value.from == IsoDate(Get(query, "from"), rt)
      && r.value.to == IsoDate(Get(query, "to"), rt)
      && 1 <= r.value.page <= MaxPage && (Get(query, "page").None? ==> r.value.page == DefaultPage)
      && 1 <= r.value.limit <= MaxLimit && (Get(query, "limit").None? ==> r.value.limit == DefaultLimit)
  {
    match NormalizeParams(query)
    case Err(e) => Reject(e)
    case Ok(raw) =>
    match ParseFilters(raw)
    case Err(e) => Reject(e)
    case Ok(f) =>
    match ParseWindow(raw, rt)
    case Err(e) => Reject(e)
    case Ok(w) => Ok(SearchParams(f.q, f.eventType, f.severity, f.department, w.from, w.to, w.page, w.limit))
  }

  /** A trimmed accepted text is non-empty and keeps within the bound its
      untrimmed form was checked against. */
  lemma AcceptedTextTrimmed(query: Json, rt: Runtime)
    requires ParseSearchParams(query, rt).Ok?
    ensures var p := ParseSearchParams(query, rt).value;
      && (p.q.Some? ==> p.q.value != "" && JsLength(p.q.value) <= MaxQueryLength)
      && (p.department.Some? ==> p.department.value != "" && JsLength(p.department.value) <= MaxDepartmentLength)
  {
    var q, d := Get(query, "q"), Get(query, "department");
    if q.Some? {
      TrimEmptyIffBlank(q.value.s);
      TrimShortens(q.value.s);
    }
    if d.Some? {
      TrimEmptyIffBlank(d.value.s);
      TrimShortens(d.value.s);
    }
  }

  /** The full-text clause for `q`. */
  function SimpleQuery(q: string): Json {
    JObj([("simple_query_string", JObj([
      ("query", JStr(q)),
      ("fields", JArr([JStr("department^2"), JStr("data.*")])),
      ("default_operator", JStr("and"))]))])
  }

  /** `{ kind: { field: value } }`: a term or match_phrase clause. */
  function FieldClause(kind: string, field: string, value: string): Json {
    JObj([(kind, JObj([(field, JStr(value))]))])
  }

  /** The bounds of the timestamp range: `gte` for from, `lte` for to. */
  function RangeBounds(from: Option<string>, to: Option<string>): seq<(string, Json)> {
    (if Given(from) then [("gte", JStr(from.value))] else []) + (if Given(to) then [("lte", JStr(to.value))] else [])
  }

  function RangeClause(bounds: seq<(string, Json)>): Json {
    JObj([("range", JObj([("timestamp", JObj(bounds))]))])
  }

  function BoolQuery(must: seq<Json>, filter: seq<Json>): Json {
    JObj([("bool", JObj([("must", JArr(must)), ("filter", JArr(filter))]))])
  }

  /** The clauses that must match: the full-text one exactly when q is set. */
  function MustClauses(p: SearchParams): seq<Json> {
    if Given(p.q) then [SimpleQuery(p.q.value)] else []
  }

  /** The filter clauses: each parameter that is set contributes one, in the
      order eventType, severity, department, date range. */
  function FilterClauses(p: SearchParams): seq<Json> {
    (if Given(p.eventType) then [FieldClause("term", "eventType", p.eventType.value)] else [])
    + (if Given(p.severity) then [FieldClause("term", "severity", p.severity.value)] else [])
    + (if Given(p.department) then [FieldClause("match_phrase", "department", p.department.value)] else [])
    + (if Given(p.from) || Given(p.to) then [RangeClause(RangeBounds(p.from, p.to))] else [])
  }

  /** `buildSearchQuery(params)`: pushes the clauses one parameter at a time. */
  method BuildSearchQuery(params: SearchParams) returns (query: Json)
    ensures query == BoolQuery(MustClauses(params), FilterClauses(params))
  {
    var must: seq<Json> := [];
    var filter: seq<Json> := [];
    if Given(params.q) {
      must := must + [SimpleQuery(params.q.value)];
    }
    if Given(params.eventType) {
      filter := filter + [FieldClause("term", "eventType", params.eventType.value)];
    }
    if Given(params.severity) {
      filter := filter + [FieldClause("term", "severity", params.severity.value)];
    }
    if Given(params.department) {
      filter := filter + [FieldClause("match_phrase", "department", params.department.value)];
    }
    if Given(params.from) || Given(params.to) {
      var bounds: seq<(string, Json)> := [];
      if Given(params.from) {
        bounds := bounds + [("gte", JStr(params.from.value))];
      }
      if Given(params.to) {
        bounds := bounds + [("lte", JStr(params.to.value))];
      }
      assert bounds == RangeBounds(params.from, params.to);
      filter := filter + [RangeClause(bounds)];
    }
    assert must == MustClauses(params);
    assert filter == FilterClauses(params);
    query := BoolQuery(must, filter);
  }

  /** The field a filter clause constrains. */
  function Target(clause: Json): string {
    if clause.JObj? && |clause.fields| == 1 && clause.fields[0].1.JObj? && |clause.fields[0].1.fields| >= 1
    then clause.fields[0].1.fields[0].0
    else ""
  }

  /** Position of a target in the filter order. */
  function Rank(target: string): nat {
    if target == "eventType" then 0
    else if target == "severity" then 1
    else if target == "department" then 2
    else 3
  }

  /** The full-text clause is present exactly when q is set, and holds q. */
  lemma MustIffQuery(p: SearchParams)
    ensures |MustClauses(p)| <= 1
    ensures MustClauses(p) != [] <==> Given(p.q)
    ensures MustClauses(p) != [] ==> Get(Get(MustClauses(p)[0], "simple_query_string").value, "query") == Some(JStr(p.q.value))
  {
  }

  lemma TargetOfFieldClause(kind: string, field: string, value: string)
    ensures Target(FieldClause(kind, field, value)) == field
  {
  }

  lemma TargetOfRangeClause(bounds: seq<(string, Json)>)
    ensures Target(RangeClause(bounds)) == "timestamp"
  {
  }

  /** Clauses in strictly increasing filter order. */
  predicate Ascending(f: seq<Json>) {
    forall i, j :: 0 <= i < j < |f| ==> Rank(Target(f[i])) < Rank(Target(f[j]))
  }

  lemma AscendingAppend(a: seq<Json>, b: seq<Json>, k: nat)
    requires Ascending(a) && Ascending(b)
    requires forall x :: x in a ==> Rank(Target(x)) < k
    requires forall y :: y in b ==> Rank(Target(y)) >= k
    ensures Ascending(a + b)
  {
    var f := a + b;
    forall i, j | 0 <= i < j < |f| ensures Rank(Target(f[i])) < Rank(Target(f[j])) {
      if j < |a| {
        assert f[i] == a[i] && f[j] == a[j];
      } else if i >= |a| {
        assert f[i] == b[i - |a|] && f[j] == b[j - |a|];
      } else {
        assert f[i] == a[i] && f[j] == b[j - |a|];
        assert a[i] in a && b[j - |a|] in b;
      }
    }
  }

  /** The clause each set parameter contributes, and the rank of its target. */
  lemma FilterBlocks(p: SearchParams)
    ensures var e := if Given(p.eventType) then [FieldClause("term", "eventType", p.eventType.value)] else [];
      var s := if Given(p.severity) then [FieldClause("term", "severity", p.severity.value)] else [];
      var d := if Given(p.department) then [FieldClause("match_phrase", "department", p.department.value)] else [];
      var r := if Given(p.from) || Given(p.to) then [RangeClause(RangeBounds(p.from, p.to))] else [];
      && FilterClauses(p) == e + s + d + r
      && (forall x :: x in e ==> Target(x) == "eventType")
      && (forall x :: x in s ==> Target(x) == "severity")
      && (forall x :: x in d ==> Target(x) == "department")
      && (forall x :: x in r ==> Target(x) == "timestamp")
  {
    if Given(p.eventType) { TargetOfFieldClause("term", "eventType", p.eventType.value); }
    if Given(p.severity) { TargetOfFieldClause("term", "severity", p.severity.value); }
    if Given(p.department) { TargetOfFieldClause("match_phrase", "department", p.department.value); }
    TargetOfRangeClause(RangeBounds(p.from, p.to));
  }

  /** Filters come in the order eventType, severity, department, range,
      each at most once. */
  lemma FilterOrder(p: SearchParams)
    ensures Ascending(FilterClauses(p))
  {
    FilterBlocks(p);
    var e := if Given(p.eventType) then [FieldClause("term", "eventType", p.eventType.value)] else [];
    var s := if Given(p.severity) then [FieldClause("term", "severity", p.severity.value)] else [];
    var d := if Given(p.department) then [FieldClause("match_phrase", "department", p.department.value)] else [];
    var r := if Given(p.from) || Given(p.to) then [RangeClause(RangeBounds(p.from, p.to))] else [];
    AscendingAppend(e, s, 1);
    AscendingAppend(e + s, d, 2);
    AscendingAppend(e + s + d, r, 3);
  }

  /** The targets of a list of clauses, in order. */
  function Targets(f: seq<Json>): (t: seq<string>)
    ensures |t| == |f|
    ensures forall i :: 0 <= i < |f| ==> t[i] == Target(f[i])
  {
    seq(|f|, i requires 0 <= i < |f| => Target(f[i]))
  }

  /** A filter on each target is present exactly when its parameter is set,
      the range filter when either bound is, in the order eventType,
      severity, department, timestamp. */
  lemma FilterTargets(p: SearchParams)
    ensures Targets(FilterClauses(p)) ==
      (if Given(p.eventType) then ["eventType"] else [])
      + (if Given(p.severity) then ["severity"] else [])
      + (if Given(p.department) then ["department"] else [])
      + (if Given(p.from) || Given(p.to) then ["timestamp"] else [])
  {
    FilterBlocks(p);
  }

  /** The range carries `gte` exactly when from is set and `lte` exactly
      when to is set, with their values. */
  lemma RangeBoundsIff(from: Option<string>, to: Option<string>)
    ensures var b := JObj(RangeBounds(from, to));
      && (Get(b, "gte").Some? <==> Given(from))
      && (Get(b, "lte").Some? <==> Given(to))
      && (Given(from) ==> Get(b, "gte") == Some(JStr(from.value)))
      && (Given(to) ==> Get(b, "lte") == Some(JStr(to.value)))
  {
    var b := RangeBounds(from, to);
    assert "gte" != "lte" by { assert "gte"[0] != "lte"[0]; }
    if Given(from) && Given(to) {
      assert b == [("gte", JStr(from.value)), ("lte", JStr(to.value))];
      assert Lookup(b[1..], "lte") == Some(JStr(to.value));
    } else if Given(from) {
      assert b == [("gte", JStr(from.value))];
      assert Lookup(b[1..], "lte") == None;
    } else if Given(to) {
      assert b == [("lte", JStr(to.value))];
      assert Lookup(b[1..], "gte") == None;
    } else {
      assert b == [];
    }
  }

  /** For an accepted query string, the built query has a full-text clause
      exactly when q was supplied, and a filter for each supplied enum and
      department: the parser's output is always truthy where present. */
  lemma AcceptedQueryClauses(query: Json, rt: Runtime)
    requires ParseSearchParams(query, rt).Ok?
    ensures var p := ParseSearchParams(query, rt).value;
      && (Given(p.q) <==> Get(query, "q").Some?)
      && (Given(p.eventType) <==> Get(query, "eventType").Some?)
      && (Given(p.severity) <==> Get(query, "severity").Some?)
      && (Given(p.department) <==> Get(query, "department").Some?)
  {
    AcceptedTextTrimmed(query, rt);
    assert "" !in EventTypes && "" !in Severities;
  }

  /** The TypeError the formatters would throw on a malformed response: a
      null response, a hit or bucket list that is truthy but not an array,
      or a null entry in it. */
  datatype FormatError = NullResponse | NotAList | NullEntry

  /** `value || fallback`. */
  function OrElse(value: Option<Json>, fallback: Json): Json {
    if Present(value) then value.value else fallback
  }

  /** Optional chaining `j.a?.b?.c`: undefined as soon as a step is missing. */
  function GetPath(j: Json, path: seq<string>): Option<Json>
    decreases |path|
  {
    if path == [] then Some(j)
    else
      match Get(j, path[0])
      case None => None
      case Some(v) => GetPath(v, path[1..])
  }

  /** `esResponse.body || esResponse`. */
  function ResponseBody(es: Json): Json {
    OrElse(Get(es, "body"), es)
  }

  /** `(list || [])`, ready to be mapped: the entries, or the TypeError the
      map would throw. */
  function EntriesOr(list: Option<Json>): (r: Result<seq<Json>, FormatError>)
    ensures !Present(list) ==> r == Ok([])
    ensures Present(list) ==> (r.Ok? <==> list.value.JArr? && forall i :: 0 <= i < |list.value.items| ==> list.value.items[i] != JNull)
    ensures r.Ok? && Present(list) ==> r.value == list.value.items
  {
    if !Present(list) then Ok([])
    else if !list.value.JArr? then Err(NotAList)
    else if exists i :: 0 <= i < |list.value.items| && list.value.items[i] == JNull then Err(NullEntry)
    else Ok(list.value.items)
  }

  /** Sets `key` to `value`: in place when the key is present, else at the end. */
  function Put(fields: seq<(string, Json)>, key: string, value: Json): seq<(string, Json)> {
    if fields == [] then [(key, value)]
    else if fields[0].0 == key then [(key, value)] + fields[1..]
    else [fields[0]] + Put(fields[1..], key, value)
  }

  /** Object spread `{...base, ...extra}`. */
  function Spread(base: seq<(string, Json)>, extra: seq<(string, Json)>): seq<(string, Json)>
    decreases |extra|
  {
    if extra == [] then base else Spread(Put(base, extra[0].0, extra[0].1), extra[1..])
  }

  /** `{ id: hit._id, ...hit._source }`. A missing `_id` leaves `id` out of
      the serialized object, but its slot comes first should the source
      supply an `id`; a `_source` that is not an object adds nothing. */
  function HitRecord(hit: Json): Json {
    var source := if Get(hit, "_source").Some? && Get(hit, "_source").value.JObj? then Get(hit, "_source").value.fields else [];
    var base :=
      if Get(hit, "_id").Some? then [("id", Get(hit, "_id").value)]
      else if "id" in KeysOf(source) then [("id", JNull)]
      else [];
    JObj(Spread(base, source))
  }

  /** `Math.ceil(n / d)` for a positive divisor. */
  function CeilDiv(n: int, d: int): (k: int)
    requires d > 0
    ensures (k - 1) * d < n <= k * d
  {
    var q := (-n) / d;
    assert -n == q * d + (-n) % d;
    -q
  }

  /** `Math.ceil(total / limit)` as it serializes: NaN and the infinities
      of a zero divisor become null. */
  function TotalPages(total: Json, limit: int, toInteger: StringToInteger): (r: Json)
    ensures NumberInteger(total, toInteger).None? || limit == 0 <==> r == JNull
    ensures limit != 0 && NumberInteger(total, toInteger).Some? ==>
      var n := NumberInteger(total, toInteger).value;
      r.JNum? && (limit > 0 ==> (r.n - 1) * limit < n <= r.n * limit)
  {
    match NumberInteger(total, toInteger)
    case None => JNull
    case Some(n) =>
      if limit > 0 then JNum(CeilDiv(n, limit))
      else if limit < 0 then JNum(CeilDiv(-n, -limit))
      else JNull
  }

  datatype Meta = Meta(page: int, limit: int, total: Json, totalPages: Json)

  /** The `{ meta, results }` object `formatSearchResponse` returns. */
  datatype SearchResponse = SearchResponse(meta: Meta, results: seq<Json>)

  /** `formatSearchResponse(esResponse, { page, limit })`. */
  function FormatSearchResponse(es: Json, page: int, limit: int, toInteger: StringToInteger): (r: Result<SearchResponse, FormatError>)
    ensures r.Err? <==> es.JNull? || EntriesOr(GetPath(ResponseBody(es), ["hits", "hits"])).Err?
    ensures r.Ok? ==> r.value.meta.page == page && r.value.meta.limit == limit
    ensures r.Ok? ==> r.value.meta.total == OrElse(GetPath(ResponseBody(es), ["hits", "total", "value"]), JNum(0))
    ensures r.Ok? ==> r.value.meta.totalPages == TotalPages(r.value.meta.total, limit, toInteger)
    ensures r.Ok? ==>
      var hits := EntriesOr(GetPath(ResponseBody(es), ["hits", "hits"])).value;
      |r.value.results| == |hits| && forall i :: 0 <= i < |hits| ==> r.value.results[i] == HitRecord(hits[i])
  {
    if es.JNull? then Err(NullResponse)
    else
      var body := ResponseBody(es);
      var total := OrElse(GetPath(body, ["hits", "total", "value"]), JNum(0));
      match EntriesOr(GetPath(body, ["hits", "hits"]))
      case Err(e) => Err(e)
      case Ok(hits) =>
        Ok(SearchResponse(Meta(page, limit, total, TotalPages(total, limit, toInteger)),
                          seq(|hits|, i requires 0 <= i < |hits| => HitRecord(hits[i]))))
  }

  /** `{ key: bucket.key, count: bucket.doc_count }`; an undefined property
      is left out, as serialization drops it. */
  function BucketRecord(bucket: Json): Json {
    JObj((if Get(bucket, "key").Some? then [("key", Get(bucket, "key").value)] else [])
         + (if Get(bucket, "doc_count").Some? then [("count", Get(bucket, "doc_count").value)] else []))
  }

  /** The buckets of one aggregation, mapped in order. */
  function AggregationBuckets(body: Json, name: string): (r: Result<seq<Json>, FormatError>)
    ensures r.Err? <==> EntriesOr(GetPath(body, ["aggregations", name, "buckets"])).Err?
    ensures !Present(GetPath(body, ["aggregations", name, "buckets"])) ==> r.Ok? && r.value == []
    ensures r.Ok? ==>
      var buckets := EntriesOr(GetPath(body, ["aggregations", name, "buckets"])).value;
      |r.value| == |buckets| && forall i :: 0 <= i < |buckets| ==> r.value[i] == BucketRecord(buckets[i])
  {
    match EntriesOr(GetPath(body, ["aggregations", name, "buckets"]))
    case Err(e) => Err(e)
    case Ok(buckets) => Ok(seq(|buckets|, i requires 0 <= i < |buckets| => BucketRecord(buckets[i])))
  }

  /** The `{ bySeverity, byEventType }` object `formatAggregationResponse` returns. */
  datatype AggregationResponse = AggregationResponse(bySeverity: seq<Json>, byEventType: seq<Json>)

  /** `formatAggregationResponse(esResponse)`. */
  function FormatAggregationResponse(es: Json): (r: Result<AggregationResponse, FormatError>)
    ensures r.Err? <==> es.JNull? || AggregationBuckets(ResponseBody(es), "bySeverity").Err? || AggregationBuckets(ResponseBody(es), "byEventType").Err?
    ensures r.Ok? ==> r.value.bySeverity == AggregationBuckets(ResponseBody(es), "bySeverity").value
    ensures r.Ok? ==> r.value.byEventType == AggregationBuckets(ResponseBody(es), "byEventType").value
  {
    if es.JNull? then Err(NullResponse)
    else
      var body := ResponseBody(es);
      match AggregationBuckets(body, "bySeverity")
      case Err(e) => Err(e)
      case Ok(bySeverity) =>
      match AggregationBuckets(body, "byEventType")
      case Err(e) => Err(e)
      case Ok(byEventType) => Ok(AggregationResponse(bySeverity, byEventType))
  }

  /** Setting a key makes it read back as the new value and leaves every
      other key's value alone. */
  lemma {:induction false} PutLookup(fields: seq<(string, Json)>, key: string, value: Json, k: string)
    ensures Lookup(Put(fields, key, value), k) == if k == key then Some(value) else Lookup(fields, k)
  {
    if fields != [] && fields[0].0 != key {
      PutLookup(fields[1..], key, value, k);
      assert Put(fields, key, value)[1..] == Put(fields[1..], key, value);
    }
  }

  /** No key occurs twice, as in an object `JSON.parse` builds. */
  predicate DistinctKeys(fields: seq<(string, Json)>) {
    forall i, j :: 0 <= i < j < |fields| ==> fields[i].0 != fields[j].0
  }

  /** After a spread, a key of the spread object reads back as its value
      there; any other key keeps its value from the base. */
  lemma {:induction false} SpreadLookup(base: seq<(string, Json)>, extra: seq<(string, Json)>, k: string)
    requires DistinctKeys(extra)
    ensures Lookup(Spread(base, extra), k) == if k in KeysOf(extra) then Lookup(extra, k) else Lookup(base, k)
    decreases |extra|
  {
    if extra != [] {
      var rest := extra[1..];
      assert DistinctKeys(rest) by {
        forall i, j | 0 <= i < j < |rest| ensures rest[i].0 != rest[j].0 {
          assert rest[i] == extra[i + 1] && rest[j] == extra[j + 1];
        }
      }
      SpreadLookup(Put(base, extra[0].0, extra[0].1), rest, k);
      PutLookup(base, extra[0].0, extra[0].1, k);
      assert KeysOf(extra) == [extra[0].0] + KeysOf(rest);
      if k == extra[0].0 {
        assert k !in KeysOf(rest) by {
          forall i | 0 <= i < |rest| ensures KeysOf(rest)[i] != k {
            assert rest[i] == extra[i + 1];
          }
        }
      }
    }
  }

  /** Each result carries the hit's `_id` as `id` unless its source has an
      `id` of its own, and every field of the source, as in the source. */
  lemma HitRecordFields(hit: Json, k: string)
    requires Get(hit, "_source").Some? && Get(hit, "_source").value.JObj?
    requires DistinctKeys(Get(hit, "_source").value.fields)
    ensures var source := Get(hit, "_source").value.fields;
      && (k in KeysOf(source) ==> Get(HitRecord(hit), k) == Lookup(source, k))
      && (k == "id" && "id" !in KeysOf(source) ==> Get(HitRecord(hit), "id") == Get(hit, "_id"))
  {
    var source := Get(hit, "_source").value.fields;
    var base :=
      if Get(hit, "_id").Some? then [("id", Get(hit, "_id").value)]
      else if "id" in KeysOf(source) then [("id", JNull)]
      else [];
    assert HitRecord(hit) == JObj(Spread(base, source));
    SpreadLookup(base, source, k);
  }
}
