// The raw-DSL search endpoint of the query service: the payload check that
// guards it and the response formatter it shares with the plain search.

module DslSearch {
  import opened JsValues
  import SearchQuery

  const MaxLimit: int := 100
  const DefaultPage: int := 1
  const DefaultLimit: int := 20

  /** Why a DSL search payload was rejected. */
  datatype DslError =
    | BodyNotObject
    | DslNotObject
    | QueryNotObject
    | PageNotPositive
    | LimitOutOfRange

  /** The accepted payload: the DSL exactly as sent, and the page window. */
  datatype DslRequest = DslRequest(dsl: Json, page: int, limit: int)

  /** The three object checks, in the order the handler makes them. */
  predicate DslShapeOk(payload: Json) {
    && IsObject(payload)
    && Get(payload, "dsl").Some? && IsObject(Get(payload, "dsl").value)
    && Get(Get(payload, "dsl").value, "query").Some? && IsObject(Get(Get(payload, "dsl").value, "query").value)
  }

  /** `page`: absent, or a number-coercible integer of at least 1; no upper
      bound, unlike the query-string search. */
  predicate PageOk(page: Option<Json>, toInteger: StringToInteger) {
    page.None? || (NumberInteger(page.value, toInteger).Some? && NumberInteger(page.value, toInteger).value >= 1)
  }

  /** `limit`: absent, or a number-coercible integer in 1..100. */
  predicate LimitOk(limit: Option<Json>, toInteger: StringToInteger) {
    limit.None? || (NumberInteger(limit.value, toInteger).Some? && 1 <= NumberInteger(limit.value, toInteger).value <= MaxLimit)
  }

  /** `parseDslPayload(payload)`: each failure is a 400 naming the first
      check that failed. */
  function ParseDslPayload(payload: Json, toInteger: StringToInteger): (r: Result<DslRequest, HttpError<DslError>>)
    ensures r.Err? ==> r.error.status == 400
    ensures r.Ok? <==> DslShapeOk(payload) && PageOk(Get(payload, "page"), toInteger) && LimitOk(Get(payload, "limit"), toInteger)
    ensures r.Err? && r.error.reason == BodyNotObject <==> !IsObject(payload)
    ensures r.Err? && r.error.reason == DslNotObject <==> IsObject(payload) && !(Get(payload, "dsl").Some? && IsObject(Get(payload, "dsl").value))
    ensures r.Err? && r.error.reason == PageNotPositive <==> DslShapeOk(payload) && !PageOk(Get(payload, "page"), toInteger)
    ensures r.Err? && r.error.reason == LimitOutOfRange <==>
      DslShapeOk(payload) && PageOk(Get(payload, "page"), toInteger) && !LimitOk(Get(payload, "limit"), toInteger)
    ensures r.Ok? ==> r.value.dsl == Get(payload, "dsl").value
    ensures r.Ok? ==> r.value.page >= 1 && 1 <= r.value.limit <= MaxLimit
    ensures r.Ok? ==> r.value.page == if Get(payload, "page").None? then DefaultPage else NumberInteger(Get(payload, "page").value, toInteger).value
    ensures r.Ok? ==> r.value.limit == if Get(payload, "limit").None? then DefaultLimit else NumberInteger(Get(payload, "limit").value, toInteger).value
  {
    if !IsObject(payload) then Err(HttpError(400, BodyNotObject))
    else
      var dsl := Get(payload, "dsl");
      if !(dsl.Some? && IsObject(dsl.value)) then Err(HttpError(400, DslNotObject))
      else
        var query := Get(dsl.value, "query");
        if !(query.Some? && IsObject(query.value)) then Err(HttpError(400, QueryNotObject))
        else
          var page := if Get(payload, "page").None? then Some(DefaultPage) else NumberInteger(Get(payload, "page").value, toInteger);
          if page.None? || page.value < 1 then Err(HttpError(400, PageNotPositive))
          else
            var limit := if Get(payload, "limit").None? then Some(DefaultLimit) else NumberInteger(Get(payload, "limit").value, toInteger);
            if limit.None? || limit.value < 1 || limit.value > MaxLimit then Err(HttpError(400, LimitOutOfRange))
            else Ok(DslRequest(dsl.value, page.value, limit.value))
  }

  /** `formatDslSearchResponse(esResponse, page, limit)`: the plain search's
      formatter, with the requested window echoed in `meta`. */
  function FormatDslSearchResponse(es: Json, page: int, limit: int, toInteger: StringToInteger): (r: Result<SearchQuery.SearchResponse, SearchQuery.FormatError>)
    ensures r == SearchQuery.FormatSearchResponse(es, page, limit, toInteger)
    ensures r.Ok? ==> r.value.meta.page == page && r.value.meta.limit == limit
  {
    SearchQuery.FormatSearchResponse(es, page, limit, toInteger)
  }
}
