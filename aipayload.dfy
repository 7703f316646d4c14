// The request check of the AI query service's natural-language search.

module AiSearchPayload {
  import opened JsValues
  import SearchQuery

  /** The only key the payload may carry. */
  const AllowedKeys: seq<string> := ["query"]
  const MaxQueryLength: nat := 500

  /** Why a payload was rejected; every rejection is a 400. */
  datatype AiPayloadError =
    | BodyNotObject
    | UnexpectedFields(unexpectedFields: seq<string>)
    | QueryNotNonEmpty
    | QueryTooLong

  /** The `{ query }` object the validator returns. */
  datatype AiSearchRequest = AiSearchRequest(query: string)

  /** `query` is a string with a non-blank trimmed form of at most 500
      UTF-16 code units; the bound applies after trimming. */
  predicate QueryOk(query: Option<Json>) {
    && query.Some? && query.value.JStr?
    && Trim(query.value.s) != ""
    && JsLength(Trim(query.value.s)) <= MaxQueryLength
  }

  /** `validateAiSearchPayload(payload)`: the trimmed query, or a 400 naming
      the first check that failed. */
  function ValidateAiSearchPayload(payload: Json): (r: Result<AiSearchRequest, HttpError<AiPayloadError>>)
    ensures r.Err? ==> r.error.status == 400
    ensures r.Ok? <==> IsObject(payload) && Without(Keys(payload), AllowedKeys) == [] && QueryOk(Get(payload, "query"))
    ensures r.Ok? ==> r.value.query == Trim(Get(payload, "query").value.s)
    ensures r.Err? && r.error.reason == BodyNotObject <==> !IsObject(payload)
    ensures r.Err? && r.error.reason.UnexpectedFields? <==> IsObject(payload) && Without(Keys(payload), AllowedKeys) != []
    ensures r.Err? && r.error.reason.UnexpectedFields? ==> r.error.reason.unexpectedFields == Without(Keys(payload), AllowedKeys)
    ensures r.Err? && r.error.reason == QueryNotNonEmpty <==>
      && IsObject(payload) && Without(Keys(payload), AllowedKeys) == []
      && !(Get(payload, "query").Some? && Get(payload, "query").value.JStr? && !AllWhitespace(Get(payload, "query").value.s))
  {
    if !IsObject(payload) then Err(HttpError(400, BodyNotObject))
    else
      var unexpected := Without(Keys(payload), AllowedKeys);
      if unexpected != [] then Err(HttpError(400, UnexpectedFields(unexpected)))
      else
        var query := Get(payload, "query");
        if !query.Some? || !query.value.JStr? then Err(HttpError(400, QueryNotNonEmpty))
        else
          TrimEmptyIffBlank(query.value.s);
          var trimmed := Trim(query.value.s);
          if trimmed == "" then Err(HttpError(400, QueryNotNonEmpty))
          else if JsLength(trimmed) > MaxQueryLength then Err(HttpError(400, QueryTooLong))
          else Ok(AiSearchRequest(trimmed))
  }

  /** The validated query is already trimmed: it is non-empty, within the
      bound, and neither starts nor ends with whitespace. */
  lemma AcceptedQueryTrimmed(payload: Json)
    requires ValidateAiSearchPayload(payload).Ok?
    ensures var q := ValidateAiSearchPayload(payload).value.query;
      && q != "" && JsLength(q) <= MaxQueryLength
      && !IsJsWhitespace(q[0]) && !IsJsWhitespace(q[|q| - 1])
      && Trim(q) == q
  {
    var s := Get(payload, "query").value.s;
    TrimShape(s);
    TrimIdempotent(s);
  }

  /** The two services bound the same 500 code units differently: a
      padded query whose trimmed form fits is accepted here, while the
      query-string search, which measures before trimming, refuses it. */
  lemma PaddedQueryBoundsDiffer(q: string)
    requires !AllWhitespace(q)
    requires JsLength(Trim(q)) <= MaxQueryLength < JsLength(q)
    ensures ValidateAiSearchPayload(JObj([("query", JStr(q))])).Ok?
    ensures SearchQuery.CheckText(Some(JStr(q)), "q", SearchQuery.MaxQueryLength).Err?
  {
    var payload := JObj([("query", JStr(q))]);
    assert Keys(payload) == ["query"];
    WithoutMembers(Keys(payload), AllowedKeys);
    TrimEmptyIffBlank(q);
    assert Get(payload, "query") == Some(JStr(q));
  }
}
