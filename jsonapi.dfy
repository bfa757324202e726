/** The JSONAPI hooks (resourceful/extensions/jsonapi.py): the `post_dump` hook that turns a
    response into a compound document, and the `pre_fetch` hook that filters, sorts and
    paginates the query. The `jsonapiquery` calls are uninterpreted functions. */
module JsonApi {
  import opened Py
  import opened Decorators
  import opened Views

  /** `self.query_options.get(key, True)` used as a condition: an absent option is on. */
  predicate OptionEnabled(options: map<string, Value>, key: string) {
    key !in options || Truthy(options[key])
  }

  /** The collaborators `compound_response` calls, as uninterpreted functions:
      `jsonapi.make_include_fields()` (fields and errors), `jsonapi.make_query_includes(fields)`
      (mappers, selects, schemas), `include(session, model, selects, mappers, ids)`,
      `_remove_null_values`, `jsonapi.make_included_response(response, models, schemas)` and
      `raise_jsonapi_errors(errors)`. The session and the model are fixed per view and left
      implicit. */
  datatype IncludeApi = IncludeApi(
    includeFields: (Value, seq<Value>),
    queryIncludes: Value -> (Value, Value, Value),
    includeModels: (Value, Value, seq<Value>) -> Value,
    removeNullValues: Value -> Value,
    includedResponse: (Value, Value, Value) -> Value,
    raiseErrors: seq<Value> -> Result<Value>)

  /** `[obj.get('id') for obj in wrapper]`: every element must be a dictionary; the first one
      that is not has no `get` and raises. */
  function ListIds(items: seq<Value>): (r: Result<seq<Value>>)
    ensures r.Ok? <==> forall k :: 0 <= k < |items| ==> items[k].Dict?
    ensures r.Ok? ==> |r.value| == |items|
    ensures r.Ok? ==> forall k :: 0 <= k < |items| ==> r.value[k] == Get(items[k].entries, "id")
    ensures r.Raise? ==> r.error == AttributeError("get")
    decreases |items|
  {
    if items == [] then Ok([])
    else if !items[0].Dict? then Raise(AttributeError("get"))
    else
      var rest := ListIds(items[1..]);
      if rest.Raise? then rest else Ok([Get(items[0].entries, "id")] + rest.value)
  }

  /** The ids a response's `data` member names: one for a single resource, one per element
      for a collection, and none at all (the hook gives up) for any other shape. */
  function DataIds(data: Value): Option<Result<seq<Value>>> {
    if data.Dict? then Some(Ok([Get(data.entries, "id")]))
    else if data.List? then Some(ListIds(data.items))
    else None
  }

  /** `CompoundDocumentMixin.compound_response(response)`. */
  function CompoundResponse(options: map<string, Value>, api: IncludeApi, response: Value): Result<Value> {
    if !OptionEnabled(options, "may_include") || !response.Dict? then Ok(response)
    else
      var ids := DataIds(Get(response.entries, "data"));
      if ids.None? then Ok(response)
      else if ids.value.Raise? then Raise(ids.value.error)
      else
        var (fields, errors) := api.includeFields;
        if errors != [] then api.raiseErrors(errors)
        else
          var (mappers, selects, schemas) := api.queryIncludes(fields);
          var models := api.removeNullValues(api.includeModels(selects, mappers, ids.value.value));
          Ok(api.includedResponse(response, models, schemas))
  }

  /** With `may_include` off, for a response that is not a dictionary, and for a `data`
      member that is neither a dictionary nor a list, the response comes back unchanged,
      whatever the collaborators do. */
  lemma CompoundPassThrough(options: map<string, Value>, api: IncludeApi, response: Value)
    requires !OptionEnabled(options, "may_include") || !response.Dict? ||
             (!Get(response.entries, "data").Dict? && !Get(response.entries, "data").List?)
    ensures CompoundResponse(options, api, response) == Ok(response)
  {
  }

  /** A collection element that is not a dictionary stops the hook with the AttributeError of
      its missing `get`, before any include field is computed. */
  lemma CompoundElementWithoutGet(options: map<string, Value>, api: IncludeApi, response: Value, k: nat)
    requires OptionEnabled(options, "may_include") && response.Dict?
    requires Get(response.entries, "data").List?
    requires k < |Get(response.entries, "data").items| && !Get(response.entries, "data").items[k].Dict?
    ensures CompoundResponse(options, api, response) == Raise(AttributeError("get"))
  {
  }

  /** Include-field errors are handed to `raise_jsonapi_errors` and its result is returned;
      the include query is not issued: two collaborator sets that agree on the include fields
      and on `raise_jsonapi_errors` give the same result. */
  lemma CompoundIncludeErrors(options: map<string, Value>, api: IncludeApi, other: IncludeApi, response: Value)
    requires OptionEnabled(options, "may_include") && response.Dict?
    requires var data := Get(response.entries, "data");
             data.Dict? || (data.List? && forall k :: 0 <= k < |data.items| ==> data.items[k].Dict?)
    requires api.includeFields.1 != []
    requires other.includeFields == api.includeFields && other.raiseErrors == api.raiseErrors
    ensures CompoundResponse(options, api, response) == api.raiseErrors(api.includeFields.1)
    ensures CompoundResponse(options, other, response) == CompoundResponse(options, api, response)
  {
  }

  /** For a collection of resources the include query receives their ids in list order (and a
      single resource's id for a single resource), and the included response is returned. */
  lemma CompoundIncludesIds(options: map<string, Value>, api: IncludeApi, response: Value, ids: seq<Value>)
    requires OptionEnabled(options, "may_include") && response.Dict?
    requires api.includeFields.1 == []
    requires var data := Get(response.entries, "data");
             (data.Dict? && ids == [Get(data.entries, "id")]) ||
             (data.List? && |ids| == |data.items| &&
              forall k :: 0 <= k < |data.items| ==> data.items[k].Dict? && ids[k] == Get(data.items[k].entries, "id"))
    ensures var (mappers, selects, schemas) := api.queryIncludes(api.includeFields.0);
            CompoundResponse(options, api, response) ==
              Ok(api.includedResponse(response, api.removeNullValues(api.includeModels(selects, mappers, ids)), schemas))
  {
    var data := Get(response.entries, "data");
    if data.List? {
      var r := ListIds(data.items);
      assert r.Ok?;
      assert r.value == ids;
    }
  }

  /** The collaborators `QueryMixin` calls: `jsonapi.filter`, `jsonapi.sort` and
      `jsonapi.paginate` (each given the query and the errors so far), `raise_jsonapi_errors`,
      and `jsonapi.make_paginated_response(response, url, total)`. */
  datatype QueryApi<!Q> = QueryApi(
    filter: (Q, seq<Value>) -> (Q, seq<Value>),
    sort: (Q, seq<Value>) -> (Q, seq<Value>),
    paginate: (Q, seq<Value>) -> (Q, Value, seq<Value>),
    raiseErrors: seq<Value> -> Result<Q>,
    paginatedResponse: (Value, Value, Value) -> Value)

  /** `filter_query(query, errors)`. */
  function FilterQuery<Q>(options: map<string, Value>, api: QueryApi<Q>, query: Q, errors: seq<Value>): (Q, seq<Value>) {
    if OptionEnabled(options, "may_filter") then api.filter(query, errors) else (query, [])
  }

  /** `sort_query(query, errors)`. */
  function SortQuery<Q>(options: map<string, Value>, api: QueryApi<Q>, query: Q, errors: seq<Value>): (Q, seq<Value>) {
    if OptionEnabled(options, "may_sort") then api.sort(query, errors) else (query, [])
  }

  /** A tuple returned by `paginate_query`: the library's triple, or the bypass's pair. */
  datatype Unpackable<Q> = Pair(query: Q, errs: seq<Value>) | Triple(query: Q, total: Value, errs: seq<Value>)

  /** `paginate_query(query, errors)` as written: the bypass returns a pair. */
  function PaginateQuery<Q>(options: map<string, Value>, api: QueryApi<Q>, query: Q, errors: seq<Value>): Unpackable<Q> {
    if OptionEnabled(options, "may_paginate") then
      var (q, total, errs) := api.paginate(query, errors);
      Triple(q, total, errs)
    else Pair(query, [])
  }

  /** `paginate_query` as evidently intended: the bypass returns the triple `(query, None, [])`
      its caller unpacks. */
  function PaginateQueryCorrected<Q>(options: map<string, Value>, api: QueryApi<Q>, query: Q, errors: seq<Value>): (Q, Value, seq<Value>) {
    if OptionEnabled(options, "may_paginate") then api.paginate(query, errors) else (query, Null, [])
  }

  /** `query, total, errs = ...`: unpacking a pair into three names raises ValueError. */
  function UnpackThree<Q>(t: Unpackable<Q>): Result<(Q, Value, seq<Value>)> {
    if t.Pair? then Raise(ValueError("not enough values to unpack (expected 3, got 2)"))
    else Ok((t.query, t.total, t.errs))
  }

  /** What `apply_jsonapi_args` produces: its result, and the value it stores in
      `self.pagination_total` (None when the hook fails before the assignment). */
  datatype ArgsOutcome<Q> = ArgsOutcome(result: Result<Q>, total: Option<Value>)

  /** Filter, then sort, threading the query and extending the error list. */
  function Prepared<Q>(options: map<string, Value>, api: QueryApi<Q>, query: Q): (Q, seq<Value>) {
    var (q1, e1) := FilterQuery(options, api, query, []);
    var (q2, e2) := SortQuery(options, api, q1, e1);
    (q2, e1 + e2)
  }

  /** The end of `apply_jsonapi_args`: store the total, then raise if any error was collected. */
  function Checked<Q>(api: QueryApi<Q>, query: Q, total: Value, errors: seq<Value>): ArgsOutcome<Q> {
    ArgsOutcome(if errors != [] then api.raiseErrors(errors) else Ok(query), Some(total))
  }

  /** `apply_jsonapi_args(query)` with `paginate_query` as written. */
  function JsonApiArgsAsWritten<Q>(options: map<string, Value>, api: QueryApi<Q>, query: Q): ArgsOutcome<Q> {
    var (q2, errors) := Prepared(options, api, query);
    var unpacked := UnpackThree(PaginateQuery(options, api, q2, errors));
    if unpacked.Raise? then ArgsOutcome(Raise(unpacked.error), None)
    else
      var (q3, total, errs) := unpacked.value;
      Checked(api, q3, total, errors + errs)
  }

  /** `apply_jsonapi_args(query)` with the corrected `paginate_query`. */
  function JsonApiArgs<Q>(options: map<string, Value>, api: QueryApi<Q>, query: Q): ArgsOutcome<Q> {
    var (q2, errors) := Prepared(options, api, query);
    var (q3, total, errs) := PaginateQueryCorrected(options, api, q2, errors);
    Checked(api, q3, total, errors + errs)
  }

  /** With the class default `query_options = {}` every option is on: each step is the
      library call on the query and the errors collected so far. */
  lemma DefaultOptionsCallLibrary<Q>(api: QueryApi<Q>, query: Q, errors: seq<Value>)
    ensures FilterQuery(map[], api, query, errors) == api.filter(query, errors)
    ensures SortQuery(map[], api, query, errors) == api.sort(query, errors)
    ensures var (q, total, errs) := api.paginate(query, errors);
            PaginateQuery(map[], api, query, errors) == Triple(q, total, errs) &&
            PaginateQueryCorrected(map[], api, query, errors) == (q, total, errs)
  {
  }

  /** A step whose option is falsy never calls the library: whatever the collaborators, it
      gives back the query with no errors (as written, paginate gives back a pair). */
  lemma GateOffIgnoresLibrary<Q>(options: map<string, Value>, api: QueryApi<Q>, other: QueryApi<Q>, query: Q, errors: seq<Value>)
    ensures !OptionEnabled(options, "may_filter") ==>
      FilterQuery(options, api, query, errors) == FilterQuery(options, other, query, []) == (query, [])
    ensures !OptionEnabled(options, "may_sort") ==>
      SortQuery(options, api, query, errors) == SortQuery(options, other, query, []) == (query, [])
    ensures !OptionEnabled(options, "may_paginate") ==>
      PaginateQuery(options, api, query, errors) == PaginateQuery(options, other, query, []) == Pair(query, [])
    ensures !OptionEnabled(options, "may_paginate") ==>
      PaginateQueryCorrected(options, api, query, errors) == PaginateQueryCorrected(options, other, query, []) == (query, Null, [])
  {
  }

  /** With every option on: filter, then sort, then paginate, each receiving the previous
      query and the errors collected so far; the total is stored whatever the errors; the
      error list is the concatenation of the three lists; any error is raised, otherwise the
      paginated query is returned. */
  lemma ArgsPipeline<Q>(options: map<string, Value>, api: QueryApi<Q>, query: Q)
    requires OptionEnabled(options, "may_filter") && OptionEnabled(options, "may_sort")
    requires OptionEnabled(options, "may_paginate")
    ensures var (q1, e1) := api.filter(query, []);
            var (q2, e2) := api.sort(q1, e1);
            var (q3, total, e3) := api.paginate(q2, e1 + e2);
            JsonApiArgs(options, api, query) ==
              ArgsOutcome(if e1 + e2 + e3 == [] then Ok(q3) else api.raiseErrors(e1 + e2 + e3), Some(total))
  {
  }

  /** When no step reports an error, `raise_jsonapi_errors` is never consulted: two
      collaborator sets that differ only there give the same outcome, the final query. */
  lemma NoErrorsReturnsQuery<Q>(options: map<string, Value>, api: QueryApi<Q>, other: QueryApi<Q>, query: Q)
    requires other.filter == api.filter && other.sort == api.sort && other.paginate == api.paginate
    requires Prepared(options, api, query).1 == []
    requires PaginateQueryCorrected(options, api, Prepared(options, api, query).0, []).2 == []
    ensures JsonApiArgs(options, api, query).result == Ok(PaginateQueryCorrected(options, api, Prepared(options, api, query).0, []).0)
    ensures JsonApiArgs(options, other, query) == JsonApiArgs(options, api, query)
  {
    assert Prepared(options, other, query) == Prepared(options, api, query);
  }

  /** The stored total is the paginate step's total, whatever errors were collected and
      whatever `raise_jsonapi_errors` does. */
  lemma TotalIgnoresErrors<Q>(options: map<string, Value>, api: QueryApi<Q>, other: QueryApi<Q>, query: Q)
    requires other.filter == api.filter && other.sort == api.sort && other.paginate == api.paginate
    ensures var (q2, errors) := Prepared(options, api, query);
            JsonApiArgs(options, api, query).total == Some(PaginateQueryCorrected(options, api, q2, errors).1)
    ensures JsonApiArgs(options, other, query).total == JsonApiArgs(options, api, query).total
    ensures JsonApiArgsAsWritten(options, other, query).total == JsonApiArgsAsWritten(options, api, query).total
  {
    assert Prepared(options, other, query) == Prepared(options, api, query);
  }

  /** With all three options off the hook returns its query and stores a None total. */
  lemma AllDisabledPassThrough<Q>(options: map<string, Value>, api: QueryApi<Q>, query: Q)
    requires !OptionEnabled(options, "may_filter") && !OptionEnabled(options, "may_sort")
    requires !OptionEnabled(options, "may_paginate")
    ensures JsonApiArgs(options, api, query) == ArgsOutcome(Ok(query), Some(Null))
  {
    GateOffIgnoresLibrary(options, api, api, query, []);
  }

  /** As written, turning `may_paginate` off makes the hook fail whatever the query and the
      other options: the pair cannot be unpacked into three names, and `pagination_total` is
      not assigned. */
  lemma PaginateBypassAlwaysFails<Q>(options: map<string, Value>, api: QueryApi<Q>, query: Q)
    requires !OptionEnabled(options, "may_paginate")
    ensures JsonApiArgsAsWritten(options, api, query) ==
      ArgsOutcome(Raise(ValueError("not enough values to unpack (expected 3, got 2)")), None)
  {
  }

  /** The concrete input of the finding: `query_options = {'may_paginate': False}`. */
  lemma PaginateBypassExample<Q>(api: QueryApi<Q>, query: Q)
    ensures JsonApiArgsAsWritten(map["may_paginate" := Bool(false)], api, query).result.Raise?
    ensures JsonApiArgs(map["may_paginate" := Bool(false), "may_filter" := Bool(false), "may_sort" := Bool(false)], api, query).result == Ok(query)
  {
    PaginateBypassAlwaysFails(map["may_paginate" := Bool(false)], api, query);
    AllDisabledPassThrough(map["may_paginate" := Bool(false), "may_filter" := Bool(false), "may_sort" := Bool(false)], api, query);
  }

  /** When pagination is on, the code as written and the corrected code agree. */
  lemma AsWrittenWhenPaginating<Q>(options: map<string, Value>, api: QueryApi<Q>, query: Q)
    requires OptionEnabled(options, "may_paginate")
    ensures JsonApiArgsAsWritten(options, api, query) == JsonApiArgs(options, api, query)
  {
  }

  /** A view mixing in `QueryMixin`: its options and collaborators, and the
      `pagination_total` attribute, unset until `apply_jsonapi_args` runs. */
  class QueryView<Q> {
    const queryOptions: map<string, Value>
    const api: QueryApi<Q>
    const paginationUrl: Value
    var paginationTotal: Option<Value>

    constructor (queryOptions: map<string, Value>, api: QueryApi<Q>, paginationUrl: Value)
      ensures this.queryOptions == queryOptions && this.api == api && this.paginationUrl == paginationUrl
      ensures paginationTotal == None
    {
      this.queryOptions := queryOptions;
      this.api := api;
      this.paginationUrl := paginationUrl;
      paginationTotal := None;
    }

    /** `apply_jsonapi_args(query)`, as written: extend one error list across the three
        steps, store the total, then raise if any error was collected. With `may_paginate` off
        the unpacking raises ValueError and `pagination_total` keeps its earlier state. */
    method ApplyJsonApiArgs(query: Q) returns (r: Result<Q>)
      modifies this
      ensures r == JsonApiArgsAsWritten(queryOptions, api, query).result
      ensures JsonApiArgsAsWritten(queryOptions, api, query).total.None? ==> paginationTotal == old(paginationTotal)
      ensures JsonApiArgsAsWritten(queryOptions, api, query).total.Some? ==>
        paginationTotal == JsonApiArgsAsWritten(queryOptions, api, query).total
    {
      var errors: seq<Value> := [];
      var (q1, errs1) := FilterQuery(queryOptions, api, query, errors);
      errors := errors + errs1;
      assert errors == errs1;
      var (q2, errs2) := SortQuery(queryOptions, api, q1, errors);
      errors := errors + errs2;
      var unpacked := UnpackThree(PaginateQuery(queryOptions, api, q2, errors));
      if unpacked.Raise? {
        return Raise(unpacked.error);
      }
      var (q3, total, errs3) := unpacked.value;
      errors := errors + errs3;
      paginationTotal := Some(total);
      if errors != [] {
        r := api.raiseErrors(errors);
      } else {
        r := Ok(q3);
      }
    }

    /** `paginate_response(response)`: reading `pagination_total` before
        `apply_jsonapi_args` has assigned it raises AttributeError. */
    method PaginateResponse(response: Value) returns (r: Result<Value>)
      ensures paginationTotal.None? ==> r == Raise(AttributeError("pagination_total"))
      ensures paginationTotal.Some? ==> r == Ok(api.paginatedResponse(response, paginationUrl, paginationTotal.value))
    {
      if paginationTotal.None? {
        return Raise(AttributeError("pagination_total"));
      }
      r := Ok(api.paginatedResponse(response, paginationUrl, paginationTotal.value));
    }
  }

  /** `apply_jsonapi_args` is declared with `@resourceful.pre_fetch(-1)`. */
  function ApplyJsonApiArgsAttribute(fn: nat): Attribute {
    Attribute("apply_jsonapi_args", Some(Tag(StageName(PreFetch), -1)), fn)
  }

  /** `compound_response` and `paginate_response` are declared with `@resourceful.post_dump`. */
  function CompoundResponseAttribute(fn: nat): Attribute {
    Attribute("compound_response", Some(Tag(StageName(PostDump), 0)), fn)
  }

  function PaginateResponseAttribute(fn: nat): Attribute {
    Attribute("paginate_response", Some(Tag(StageName(PostDump), 0)), fn)
  }

  /** Priority -1 puts `apply_jsonapi_args` after every pre_fetch hook of priority 0 or more,
      whatever its name. */
  lemma ApplyRunsAfterDefaultHooks(attrs: seq<Attribute>, i: nat, j: nat)
    requires NamesAscending(attrs)
    requires i < |attrs| && attrs[i] == ApplyJsonApiArgsAttribute(attrs[i].fn)
    requires j < |attrs| && Tagged(attrs[j], "pre_fetch") && attrs[j].tag.value.priority >= 0
    ensures RunsBefore(Processors(ResolveSpec(attrs), "pre_fetch"), HookOf(attrs[j]), HookOf(attrs[i]))
  {
    ResolvedOrder(attrs, "pre_fetch", j, i);
  }

  /** Both post_dump hooks have priority 0, so name order decides: the compound document is
      built before the pagination links are added. */
  lemma CompoundBeforePaginate(attrs: seq<Attribute>, i: nat, j: nat)
    requires NamesAscending(attrs)
    requires i < |attrs| && attrs[i] == CompoundResponseAttribute(attrs[i].fn)
    requires j < |attrs| && attrs[j] == PaginateResponseAttribute(attrs[j].fn)
    ensures RunsBefore(Processors(ResolveSpec(attrs), "post_dump"), HookOf(attrs[i]), HookOf(attrs[j]))
  {
    ResolvedOrder(attrs, "post_dump", i, j);
  }
}
