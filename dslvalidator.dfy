// The guard the AI query service puts on model-generated Elasticsearch DSL:
// the text must parse to an object with only the supported root keys and a
// query object, and every field it references must be a mapped field or
// lie under `data.`.

module DslValidator {
  import opened JsValues

  /** `ALLOWED_FIELDS` of the index mapping. */
  const AllowedFields: set<string> := {"patientId", "eventType", "severity", "department", "department.keyword", "timestamp"}
  /** The root keys a generated query may use. */
  const RootKeys: seq<string> := ["query", "sort", "aggs", "size", "from"]
  const DataPrefix: string := "data."

  /** Why generated DSL was refused; every refusal is a 422. */
  datatype DslRejection =
    | NotJson
    | NotAnObject
    | UnsupportedRootKeys(disallowedRootKeys: seq<string>)
    | MissingQueryObject
    | DisallowedFields(disallowedFields: seq<string>)

  // ----- the field collector -------------------------------------------

  /** `bucket.add(name)` on a set kept in insertion order. */
  function Add(bucket: seq<string>, name: string): seq<string> {
    if name in bucket then bucket else bucket + [name]
  }

  /** Adds each name in turn. */
  function AddAll(bucket: seq<string>, names: seq<string>): seq<string>
    decreases |names|
  {
    if names == [] then bucket else AddAll(Add(bucket, names[0]), names[1..])
  }

  /** The keys under which an object value names fields by its own keys. */
  predicate IsQueryKey(key: string) {
    key == "term" || key == "match" || key == "match_phrase" || key == "range"
  }

  /** The keys of the object items of a `sort` array, item by item. */
  function SortItemKeys(items: seq<Json>): seq<string> {
    if items == [] then []
    else (if IsObject(items[0]) then Keys(items[0]) else []) + SortItemKeys(items[1..])
  }

  /** The names one entry of an object adds before its value is visited. */
  function EntryNames(key: string, value: Json): seq<string> {
    (if IsObject(value) && IsQueryKey(key) then Keys(value) else [])
    + (if key == "sort" && value.JArr? then SortItemKeys(value.items) else [])
  }

  /** The `field` property of a node, when it is a string. */
  function FieldName(node: Json): Option<string> {
    match Get(node, "field")
    case Some(JStr(f)) => Some(f)
    case _ => None
  }

  /** `collectFieldRefs(node, bucket)`: the bucket after the walk. */
  function Collect(node: Json, bucket: seq<string>): seq<string>
    decreases node, 1
  {
    match node
    case JArr(items) => CollectItems(items, bucket)
    case JObj(fields) =>
      var named := if FieldName(node).Some? then Add(bucket, FieldName(node).value) else bucket;
      CollectEntries(fields, named)
    case _ => bucket
  }

  /** The array branch: every item, in order. */
  function CollectItems(items: seq<Json>, bucket: seq<string>): seq<string>
    decreases items
  {
    if items == [] then bucket else CollectItems(items[1..], Collect(items[0], bucket))
  }

  /** The object branch: for each entry, the names it adds, then its value. */
  function CollectEntries(fields: seq<(string, Json)>, bucket: seq<string>): seq<string>
    decreases fields
  {
    if fields == [] then bucket
    else
      assert fields[0].1 < fields[0];
      CollectEntries(fields[1..], Collect(fields[0].1, AddAll(bucket, EntryNames(fields[0].0, fields[0].1))))
  }

  // ----- the set it collects -------------------------------------------

  /** The field names a DSL tree references, as a set. */
  function FieldRefs(node: Json): set<string>
    decreases node, 1
  {
    match node
    case JArr(items) => ItemsRefs(items)
    case JObj(fields) => (if FieldName(node).Some? then {FieldName(node).value} else {}) + EntriesRefs(fields)
    case _ => {}
  }

  function ItemsRefs(items: seq<Json>): set<string>
    decreases items
  {
    if items == [] then {} else FieldRefs(items[0]) + ItemsRefs(items[1..])
  }

  function EntriesRefs(fields: seq<(string, Json)>): set<string>
    decreases fields
  {
    if fields == [] then {}
    else
      assert fields[0].1 < fields[0];
      Elems(EntryNames(fields[0].0, fields[0].1)) + FieldRefs(fields[0].1) + EntriesRefs(fields[1..])
  }

  function Elems(s: seq<string>): set<string> {
    set x | x in s
  }

  predicate NoDuplicates(s: seq<string>) {
    forall i, j :: 0 <= i < j < |s| ==> s[i] != s[j]
  }

  /** The collector as a set accumulator: it keeps what the bucket held, in
      front, adds exactly the given names, and never adds one twice. */
  lemma {:induction false} AddAllSpec(bucket: seq<string>, names: seq<string>)
    ensures bucket <= AddAll(bucket, names)
    ensures Elems(AddAll(bucket, names)) == Elems(bucket) + Elems(names)
    ensures NoDuplicates(bucket) ==> NoDuplicates(AddAll(bucket, names))
    decreases |names|
  {
    if names != [] {
      var next := Add(bucket, names[0]);
      AddAllSpec(next, names[1..]);
      assert Elems(names) == {names[0]} + Elems(names[1..]);
      assert Elems(next) == Elems(bucket) + {names[0]};
    }
  }

  /** `collectFieldRefs` adds to the bucket exactly the names of
      `FieldRefs`, leaves what was there in place, and adds each name once. */
  lemma {:induction false} CollectSpec(node: Json, bucket: seq<string>)
    ensures bucket <= Collect(node, bucket)
    ensures Elems(Collect(node, bucket)) == Elems(bucket) + FieldRefs(node)
    ensures NoDuplicates(bucket) ==> NoDuplicates(Collect(node, bucket))
    decreases node, 1
  {
    match node
    case JArr(items) => CollectItemsSpec(items, bucket);
    case JObj(fields) =>
      var named := if FieldName(node).Some? then Add(bucket, FieldName(node).value) else bucket;
      if FieldName(node).Some? {
        AddAllSpec(bucket, [FieldName(node).value]);
        assert AddAll(bucket, [FieldName(node).value]) == named by {
          assert [FieldName(node).value][1..] == [];
        }
        assert Elems([FieldName(node).value]) == {FieldName(node).value};
      }
      CollectEntriesSpec(fields, named);
    case _ =>
  }

  lemma {:induction false} CollectItemsSpec(items: seq<Json>, bucket: seq<string>)
    ensures bucket <= CollectItems(items, bucket)
    ensures Elems(CollectItems(items, bucket)) == Elems(bucket) + ItemsRefs(items)
    ensures NoDuplicates(bucket) ==> NoDuplicates(CollectItems(items, bucket))
    decreases items
  {
    if items != [] {
      CollectSpec(items[0], bucket);
      CollectItemsSpec(items[1..], Collect(items[0], bucket));
    }
  }

  lemma {:induction false} CollectEntriesSpec(fields: seq<(string, Json)>, bucket: seq<string>)
    ensures bucket <= CollectEntries(fields, bucket)
    ensures Elems(CollectEntries(fields, bucket)) == Elems(bucket) + EntriesRefs(fields)
    ensures NoDuplicates(bucket) ==> NoDuplicates(CollectEntries(fields, bucket))
    decreases fields
  {
    if fields != [] {
      assert fields[0].1 < fields[0];
      var added := AddAll(bucket, EntryNames(fields[0].0, fields[0].1));
      AddAllSpec(bucket, EntryNames(fields[0].0, fields[0].1));
      CollectSpec(fields[0].1, added);
      CollectEntriesSpec(fields[1..], Collect(fields[0].1, added));
    }
  }

  // ----- the validator --------------------------------------------------

  /** A referenced field the index lets a generated query use. */
  predicate FieldAllowed(field: string) {
    StartsWith(field, DataPrefix) || field in AllowedFields
  }

  /** `Array.from(fields).filter(...)`: the disallowed ones, in order. */
  function Disallowed(fields: seq<string>): (r: seq<string>)
    ensures forall f :: f in r <==> f in fields && !FieldAllowed(f)
    ensures NoDuplicates(fields) ==> NoDuplicates(r)
  {
    if fields == [] then []
    else (if FieldAllowed(fields[0]) then [] else [fields[0]]) + Disallowed(fields[1..])
  }

  /** The collected fields that are not allowed, in collection order: each
      disallowed reference exactly once. */
  function DisallowedRefs(parsed: Json): (r: seq<string>)
    ensures forall f :: f in r <==> f in FieldRefs(parsed) && !FieldAllowed(f)
    ensures NoDuplicates(r)
    ensures r == [] <==> forall f :: f in FieldRefs(parsed) ==> FieldAllowed(f)
  {
    var fields := Collect(parsed, []);
    CollectSpec(parsed, []);
    assert forall f :: f in fields <==> f in FieldRefs(parsed) by {
      forall f ensures f in fields <==> f in FieldRefs(parsed) {
        assert f in fields <==> f in Elems(fields);
      }
    }
    var r := Disallowed(fields);
    assert r != [] ==> r[0] in r;
    r
  }

  /** What the validator accepts: an object with only supported root keys,
      a query object, and no disallowed field reference anywhere. */
  predicate DslAcceptable(parsed: Json) {
    && IsObject(parsed)
    && Without(Keys(parsed), RootKeys) == []
    && Get(parsed, "query").Some? && IsObject(Get(parsed, "query").value)
    && forall f :: f in FieldRefs(parsed) ==> FieldAllowed(f)
  }

  function Reject(reason: DslRejection): Result<Json, HttpError<DslRejection>> {
    Err(HttpError(422, reason))
  }

  /** `parseAndValidateDsl(rawText)`: the parsed value unchanged, or a 422
      naming the first check it failed. */
  function ParseAndValidateDsl(rawText: string, parse: JsonParser): (r: Result<Json, HttpError<DslRejection>>)
    ensures r.Err? ==> r.error.status == 422
    ensures r.Ok? <==> parse(rawText).Ok? && DslAcceptable(parse(rawText).value)
    ensures r.Ok? ==> r.value == parse(rawText).value
    ensures r == Reject(NotJson) <==> parse(rawText).Err?
    ensures r == Reject(NotAnObject) <==> parse(rawText).Ok? && !IsObject(parse(rawText).value)
    ensures r.Err? && r.error.reason.UnsupportedRootKeys? ==>
      && parse(rawText).Ok? && IsObject(parse(rawText).value)
      && r.error.reason.disallowedRootKeys == Without(Keys(parse(rawText).value), RootKeys) != []
    ensures r.Err? && r.error.reason.DisallowedFields? ==>
      var parsed := parse(rawText).value;
      && Without(Keys(parsed), RootKeys) == [] && Get(parsed, "query").Some? && IsObject(Get(parsed, "query").value)
      && r.error.reason.disallowedFields == DisallowedRefs(parsed) != []
  {
    match parse(rawText)
    case Err(_) => Reject(NotJson)
    case Ok(parsed) =>
      if !IsObject(parsed) then Reject(NotAnObject)
      else
        var unsupported := Without(Keys(parsed), RootKeys);
        if unsupported != [] then Reject(UnsupportedRootKeys(unsupported))
        else if !(Get(parsed, "query").Some? && IsObject(Get(parsed, "query").value)) then Reject(MissingQueryObject)
        else
          var disallowed := DisallowedRefs(parsed);
          if disallowed != [] then Reject(DisallowedFields(disallowed))
          else Ok(parsed)
  }

  /** Every entry of an object contributes its names and its value's
      references to the object's references. */
  lemma {:induction false} EntryRefsIncluded(fields: seq<(string, Json)>, i: nat)
    requires i < |fields|
    ensures Elems(EntryNames(fields[i].0, fields[i].1)) <= EntriesRefs(fields)
    ensures FieldRefs(fields[i].1) <= EntriesRefs(fields)
    decreases i
  {
    if i > 0 {
      EntryRefsIncluded(fields[1..], i - 1);
    }
  }

  /** A `term` query on a field outside the mapping is refused, and the
      refusal names that field. */
  lemma UnmappedTermRejected(rawText: string, parse: JsonParser, field: string, value: Json)
    requires !FieldAllowed(field)
    requires parse(rawText) == Ok(JObj([("query", JObj([("term", JObj([(field, value)]))]))]))
    ensures var r := ParseAndValidateDsl(rawText, parse);
      r.Err? && r.error.reason.DisallowedFields? && field in r.error.reason.disallowedFields
  {
    var term := JObj([(field, value)]);
    var query := JObj([("term", term)]);
    var parsed := JObj([("query", query)]);
    assert Keys(term) == [field];
    assert field in Elems(EntryNames("term", term));
    EntryRefsIncluded([("term", term)], 0);
    assert field in FieldRefs(query);
    EntryRefsIncluded([("query", query)], 0);
    assert field in FieldRefs(parsed);
    assert Keys(parsed) == ["query"];
    WithoutMembers(Keys(parsed), RootKeys);
  }
}
