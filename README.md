# resourceful hook pipeline — a Dafny model

`resourceful` builds REST views out of generic resource operations. A view class declares
*processors*: methods tagged with a lifecycle stage (`pre_fetch`, `post_fetch`, `pre_load`,
`post_load`, `pre_save`, `post_save`, `pre_dump`, `post_dump`) and an integer priority.

- `resolve_processors` collects a class's tagged attributes in `dir()` order, groups them by
  stage, and sorts each stage's list by descending priority.
- `View.interleave(stage, value, **kwargs)` threads one value through that stage's list.
- Around this core sit:
  - the HTTP verb descriptors of the views;
  - the archive and delete special cases;
  - the Flask binding, with its request-local context and URL-rule registration;
  - the JSON:API hooks (compound documents; filter, sort and paginate);
  - the name-to-class registries of serializers and adapters, with their batch helpers.

The project has one module per source file, plus two shared modules:

| module | file | models |
|---|---|---|
| `Py` | py.dfy | Python values, `Option`/`Result` and exceptions, string ordering, successive dict assignment |
| `Decorators` | decorators.dfy | resourceful/decorators.py: function objects as a class with two mutable tag attributes |
| `Views` | views.dfy | resourceful/views.py: `dir()` as a name-sorted attribute list, the resolver (loop + stable sort), the fold, verb descriptors, archive and delete |
| `Flask` | flask.dfy | resourceful/extensions/flask.py: the lazily attached context map, `as_view`, the app's rule list |
| `JsonApi` | jsonapi.dfy | resourceful/extensions/jsonapi.py, with the `jsonapiquery` calls as uninterpreted functions |
| `Registry` | registry.dfy | the metaclass dictionary shared by both registries |
| `Serializers` | serializers.dfy | resourceful/serializer.py |
| `Adaptable` | adaptable.dfy | adaptable/__init__.py |

How the model represents the parts that are not plain logic:

- **Hook bodies are opaque.** They are a parameter `run: (Hook, V, Kwargs) -> Result<V>`.
- **Python's `sorted(..., reverse=True)` is stable.** It is modelled as an insertion sort
  that inserts each hook before the first one whose priority is not greater than its own.
- **Library calls are fields of a record of functions** (`IncludeApi`, `QueryApi`). These
  cover `jsonapiquery`, `include` and `raise_jsonapi_errors`.

Two behaviours of the code a reader might not expect:

- Equal-priority hooks run in ascending attribute-name order, because `dir()` sorts names
  and the sort is stable. They do not run in declaration order.
- A stage name that no attribute carries, including a name outside the eight stages, is not
  an error. It yields an empty list, and `interleave` on it returns its argument.

## Model

| member | source | states |
|---|---|---|
| Decorators.StageNamesDistinct | resourceful/decorators.py:3-40 | the eight stage decorators tag with eight different stage names |
| Decorators.TagFunction | resourceful/decorators.py:55-58 | the very same function object is returned; both tag attributes are overwritten, so the last stage and priority win |
| Decorators.TagProcessor | resourceful/decorators.py:43-52 | a callable is tagged at once with priority 0; any other argument becomes the priority of a returned wrapper that tags nothing yet; any stage name is accepted |
| Decorators.CallWrapper | resourceful/decorators.py:50-51 | the wrapper tags the function it is given with the remembered stage and priority and returns that function |
| Decorators.Decorate | resourceful/decorators.py:3-40 | each stage decorator is `tag_processor` with its own stage name, for both a callable and a priority argument |
| Decorators.PriorityDecoratorScenario | tests/decorators_tests.py:8-15 | `@pre_fetch(-1)` leaves the function tagged `pre_fetch` with priority -1 |
| Decorators.RetagScenario | tests/decorators_tests.py:80-92 | tagging with `'name'` gives priority 0; re-tagging through `tag_processor(10, 'name')` replaces it with 10 |
| Views.ReflectDecorated | resourceful/views.py:11-15 | a function tagged by a stage decorator is read back as an attribute tagged with that stage at priority 0, yielding that function's hook |
| Views.SortDesc | resourceful/views.py:16-18 | the stable descending sort; specified by `SortPermutes`, `SortNonIncreasing`, `SortStable` and `SortTiesByName` |
| Views.SortPermutes | resourceful/views.py:16-18 | the sorted list is a permutation (same multiset) of the stage's hooks |
| Views.SortNonIncreasing | resourceful/views.py:16-18 | priorities never increase along the sorted list |
| Views.SortStable | resourceful/views.py:16-18 | for every priority, the hooks of that priority keep their input order |
| Views.SortTiesByName | resourceful/views.py:11-18 | over a name-sorted input, equal-priority hooks come out in ascending name order |
| Views.Group | resourceful/views.py:11-15 | a stage's hooks in `dir()` order; specified by `GroupMembers`, `NoTagNoGroup`, `GroupTiesByName` and `PrefixStep` |
| Views.GroupMembers | resourceful/views.py:11-15 | a hook is in a stage's group iff some attribute is tagged with that stage and yields it; untagged attributes never appear |
| Views.NoTagNoGroup | resourceful/views.py:11-15 | a stage no attribute carries collects no hooks |
| Views.GroupTiesByName | resourceful/views.py:11-15 | the grouping keeps `dir()`'s ascending name order |
| Views.PrefixStep | resourceful/views.py:11-15 | one more attribute adds its stage to the keys and its hook to the end of that stage's list, and to no other list |
| Views.GroupByStage | resourceful/views.py:10-15 | the append loop builds exactly the stages carried by tagged attributes, each with its group in `dir()` order |
| Views.SortStages | resourceful/views.py:16-18 | the second loop replaces every stage's list by its stable descending sort and keeps the same stages |
| Views.ResolveSpec | resourceful/views.py:9-19 | the resolved table; `ResolveProcessors` computes it, and `ResolvedContents`, `ResolvedOnce`, `ResolvedTies` and `ResolvedOrder` state its properties |
| Views.ResolveProcessors | resourceful/views.py:9-19 | the returned table has as keys exactly the tagged stages, each holding its hooks stably sorted by descending priority |
| Views.ResolveTwice | resourceful/views.py:9-19 | resolving the same class twice gives identical tables; a corollary of `ResolveProcessors` computing `ResolveSpec` |
| Views.ResolvedContents | resourceful/views.py:9-19 | each stage's resolved list is a permutation of its tagged hooks, is non-increasing, and holds a hook iff an attribute tagged with that stage yields it |
| Views.ResolvedOnce | resourceful/views.py:11-15 | with `dir()`'s distinct names, each tagged attribute occurs exactly once in its stage's list |
| Views.ResolvedTies | resourceful/views.py:11-18 | each priority's hooks keep `dir()` order, so ties run in ascending name order |
| Views.ResolvedOrder | resourceful/views.py:9-19 | of two hooks of one stage, the higher priority runs first, and at equal priority the smaller name runs first |
| Views.Fold | resourceful/views.py:28-31 | the left fold of `interleave`; specified by `FoldAppend`, `FoldStep` and `FailureStops`, and computed by `ViewClass.Interleave` |
| Views.FoldAppend | resourceful/views.py:28-31 | folding over two lists in turn equals folding over their concatenation, and a failure in the first list skips the second |
| Views.FoldStep | resourceful/views.py:28-31 | hook k receives the value the hooks before it produced, together with the same kwargs |
| Views.FailureStops | resourceful/views.py:28-31 | a raising hook's exception is the stage's result, and no later hook influences the outcome |
| Views.UntaggedStageIsIdentity | resourceful/views.py:10-31 | a stage without hooks, an unknown name included, resolves to the empty list and returns its argument unchanged |
| Views.WithDefault | resourceful/views.py:10 | reading a missing stage on the defaultdict adds that key with an empty list and changes no stage's hooks |
| Views.Inherited | resourceful/views.py:22-69 | a class attribute is found iff some class in the MRO declares it, and the value is the first such declaration |
| Views.Mro | resourceful/views.py:22-85 | the method resolution order of each view class, ancestors after the class and `DeleteMixin` before `View`; its consequences are `VerbDescriptors` |
| Views.HttpMethod | resourceful/views.py:25-69 | `cls._method` through the MRO; its values are stated by `VerbDescriptors` |
| Views.StatusCode | resourceful/views.py:25-69 | `cls._code` through the MRO; its values are stated by `VerbDescriptors` |
| Views.VerbDescriptors | resourceful/views.py:25-69 | Read GET/200, Create POST/201, Update PUT/202, PartialUpdate PATCH with the inherited 202, Archive and Delete DELETE/204, base View None/None |
| Views.ViewClass.Interleave | resourceful/views.py:28-31 | a keyword named `self`, `name` or `arg` raises TypeError and leaves `processors` as it was; otherwise the result is the fold of the argument through the stage's hooks, the missing stage key is added, and a class on which `as_view` never ran, nor on any of its ancestors, raises AttributeError |
| Views.ViewClass.DeleteSave | resourceful/views.py:88-95 | the `pre_save` hooks run, their result is deleted, and `None` is returned; errors from either step propagate; a class on which `as_view` never ran, nor on any of its ancestors, raises AttributeError and stays unresolved |
| Views.DeleteOutcome | resourceful/views.py:88-95 | the result of a delete: `delete_action` on the fold of the model through `pre_save`; specified by `DeleteSave` and `DeleteIgnoresOtherStages` |
| Views.DeleteIgnoresOtherStages | resourceful/views.py:88-95 | the outcome of a delete depends only on the `pre_save` list, so `post_save` hooks never matter |
| Views.Archived | resourceful/views.py:75-81 | the view's archive column holds its archive value (`is_archived` and True on `ArchiveView` itself); no other field is added or changed |
| Views.ArchiveModel | resourceful/views.py:78-82 | the model is archived in place through the view's column and value, and the very same model is returned |
| Views.ArchiveWithDefaults | resourceful/views.py:72-82 | on `ArchiveView` itself the model gets `is_archived` set to True in place, no other field added or changed |
| Views.ArchiveViewHooks | resourceful/views.py:72-82 | on an `ArchiveView` with no other tagged attribute, `pre_save` is exactly the `archive_model` hook and `post_save` is empty |
| Views.CreateUsersPostLoadOrder | examples/flask_api.py:55-70 | `set_last_name` runs before `set_run_task` at equal priority; `pre_load` holds only `set_first_name` |
| Flask.FlaskResourcefulView.Context | resourceful/extensions/flask.py:28-33 | the first access in a request attaches and returns an empty map; later accesses return the attached one unchanged |
| Flask.FlaskResourcefulView.GetItem | resourceful/extensions/flask.py:44-46 | a set key yields its value; a key never set raises KeyError; the context is not changed |
| Flask.FlaskResourcefulView.SetItem | resourceful/extensions/flask.py:48-50 | the context after the write is the old one with only that key updated |
| Flask.FlaskResourcefulView.Contains | resourceful/extensions/flask.py:52-54 | true iff the key is in this request's context |
| Flask.FlaskResourcefulView.Len | resourceful/extensions/flask.py:56-58 | the number of keys of the context |
| Flask.ContextAfterWrites | resourceful/extensions/flask.py:44-58 | after a sequence of writes, a key is present iff it was written, `len` is the number of distinct keys written, and each key holds its last write |
| Flask.ContextScenario | resourceful/extensions/flask.py:44-58 | overwriting `run_task` keeps the last value; an unset key raises KeyError; contains is true; len is 1 |
| Flask.AsView | resourceful/extensions/flask.py:60-63 | the class's processors are recomputed from its current attributes on every call |
| Flask.EndpointNameExample | resourceful/extensions/flask.py:21 | route `/users` with `['GET']` gives the endpoint `/users['GET']` |
| Flask.EndpointName | resourceful/extensions/flask.py:21 | `'{}{}'.format(route, methods)`; the example is `EndpointNameExample` |
| Flask.RuleFor | resourceful/extensions/flask.py:17-22 | the rule `add_view(route, view, [view._method])` adds: the route, the named view function and the one method |
| Flask.RulesFor | resourceful/extensions/flask.py:14-17 | the rules `add_views` adds; specified by `RulesForContents` and computed by `AddViews` |
| Flask.RulesForContents | resourceful/extensions/flask.py:14-17 | one rule per view, in list order, each restricted to `[view._method]` |
| Flask.FlaskResourceful.InitApp | resourceful/extensions/flask.py:10-12 | the application is stored |
| Flask.FlaskResourceful.AddView | resourceful/extensions/flask.py:19-22 | the view is resolved and exactly one rule with the formatted endpoint is appended; without an app it raises AttributeError after resolving |
| Flask.FlaskResourceful.AddViews | resourceful/extensions/flask.py:14-22 | the app's rules grow by exactly the per-view rules in order, and every view is resolved; without an app only the first view is resolved before AttributeError |
| JsonApi.ListIds | resourceful/extensions/jsonapi.py:49 | collects the ids in list order, one per element; any non-dict element raises AttributeError |
| JsonApi.CompoundPassThrough | resourceful/extensions/jsonapi.py:38-51 | with `may_include` off (on by default), a non-dict response, or a `data` that is neither dict nor list, the response is returned unchanged |
| JsonApi.CompoundElementWithoutGet | resourceful/extensions/jsonapi.py:48-49 | a non-dict element of a `data` list stops the hook with AttributeError |
| JsonApi.CompoundIncludeErrors | resourceful/extensions/jsonapi.py:53-55 | include-field errors return `raise_jsonapi_errors(errors)`; no include query is issued |
| JsonApi.CompoundIncludesIds | resourceful/extensions/jsonapi.py:45-60 | the include query gets `[data.id]` for a single resource, or the elements' ids in order for a list, and the included response is returned |
| JsonApi.CompoundResponse | resourceful/extensions/jsonapi.py:35-60 | the `post_dump` hook; specified by `CompoundPassThrough`, `CompoundElementWithoutGet`, `CompoundIncludeErrors` and `CompoundIncludesIds` |
| JsonApi.FilterQuery | resourceful/extensions/jsonapi.py:71-76 | `filter_query`; specified by `DefaultOptionsCallLibrary` and `GateOffIgnoresLibrary` |
| JsonApi.SortQuery | resourceful/extensions/jsonapi.py:78-83 | `sort_query`; specified by `DefaultOptionsCallLibrary` and `GateOffIgnoresLibrary` |
| JsonApi.PaginateQuery | resourceful/extensions/jsonapi.py:85-90 | `paginate_query` as written, whose bypass is a pair; specified by `GateOffIgnoresLibrary` and `PaginateBypassAlwaysFails` |
| JsonApi.PaginateQueryCorrected | resourceful/extensions/jsonapi.py:85-90 | `paginate_query` with the bypass returning `query, None, []`; specified by `GateOffIgnoresLibrary` |
| JsonApi.JsonApiArgsAsWritten | resourceful/extensions/jsonapi.py:92-107 | `apply_jsonapi_args` as written, computed by `QueryView.ApplyJsonApiArgs`; specified by `PaginateBypassAlwaysFails` and `AsWrittenWhenPaginating` |
| JsonApi.JsonApiArgs | resourceful/extensions/jsonapi.py:92-107 | `apply_jsonapi_args` with the corrected bypass; specified by `ArgsPipeline`, `NoErrorsReturnsQuery`, `TotalIgnoresErrors` and `AllDisabledPassThrough` |
| JsonApi.DefaultOptionsCallLibrary | resourceful/extensions/jsonapi.py:71-90 | with the default empty `query_options` every option is on, so each step is the library call on the query and the errors so far |
| JsonApi.GateOffIgnoresLibrary | resourceful/extensions/jsonapi.py:71-90 | a step whose option is falsy never calls the library: for any collaborators it gives the query with no errors, and paginate as written gives a pair |
| JsonApi.ArgsPipeline | resourceful/extensions/jsonapi.py:92-107 | with every option on: filter, then sort, then paginate, each given the errors so far; the errors are concatenated; the total is stored; any error raises, otherwise the paginated query |
| JsonApi.NoErrorsReturnsQuery | resourceful/extensions/jsonapi.py:105-107 | when no step reports an error the hook returns the final query and never consults `raise_jsonapi_errors` |
| JsonApi.TotalIgnoresErrors | resourceful/extensions/jsonapi.py:100-103 | the stored total is the paginate step's total, whatever errors were collected and whatever `raise_jsonapi_errors` does |
| JsonApi.AllDisabledPassThrough | resourceful/extensions/jsonapi.py:71-107 | with the corrected paginate bypass and every option off, the query comes back unchanged with a None total |
| JsonApi.PaginateBypassAlwaysFails | resourceful/extensions/jsonapi.py:85-100 | as written, `may_paginate` off makes the hook raise ValueError on unpacking, and the total is never assigned |
| JsonApi.PaginateBypassExample | resourceful/extensions/jsonapi.py:90-100 | `{'may_paginate': False}` fails as written; the corrected hook with every option off returns the query |
| JsonApi.AsWrittenWhenPaginating | resourceful/extensions/jsonapi.py:85-100 | with pagination on, the code as written and the corrected code agree |
| JsonApi.QueryView.ApplyJsonApiArgs | resourceful/extensions/jsonapi.py:92-107 | as written: the error list is extended across the three steps and the result is that of the as-written pipeline; with `may_paginate` off the unpacking raises ValueError and `pagination_total` keeps its earlier state, otherwise it holds the paginate step's total |
| JsonApi.QueryView.PaginateResponse | resourceful/extensions/jsonapi.py:109-114 | the paginated response is built from the stored total; before a total is stored, reading it raises AttributeError |
| JsonApi.ApplyRunsAfterDefaultHooks | resourceful/extensions/jsonapi.py:92 | at priority -1, `apply_jsonapi_args` runs after every `pre_fetch` hook of priority 0 or more, whatever their names |
| JsonApi.CompoundBeforePaginate | resourceful/extensions/jsonapi.py:35-36 | both `post_dump` hooks have priority 0, so `compound_response` runs before `paginate_response` by name |
| Registry.Lookup | resourceful/serializer.py:61 | succeeds iff the name is registered, with its class; otherwise KeyError with the name |
| Registry.ClassRegistry.Define | resourceful/serializer.py:8-11 | the new class is stored under its name, replacing only that entry, and returned |
| Registry.ClassRegistry.Get | resourceful/serializer.py:55-61 | a registered name gives its class; an unknown name raises KeyError |
| Registry.RegistryGrows | resourceful/serializer.py:5-11 | after any definitions the keys are the old keys plus the defined names, so nothing is removed |
| Registry.LastDefinitionWins | resourceful/serializer.py:10 | a defined name is found, holding its last definition |
| Registry.OtherNamesUnchanged | resourceful/serializer.py:10 | a name no definition uses is looked up exactly as before, KeyError included |
| Registry.DefineStep | adaptable/__init__.py:17-20 | one `Define` after a sequence of definitions is one more step of successive assignment |
| Serializers.DefineSerializer | resourceful/serializer.py:8-11 | defining a serializer class registers it under its class name |
| Serializers.GetSerializer | resourceful/serializer.py:55-61 | the registered serializer class, or KeyError for an unknown name |
| Serializers.DeserializeAll | resourceful/serializer.py:41-43 | `deserialize` with `many=True`, or TypeError when the schema arguments also hold `self`, `form` or `many`; specified by `BatchManyKeyword` |
| Serializers.SerializeAll | resourceful/serializer.py:50-52 | `serialize` with `many=True`, or TypeError when the schema arguments also hold `self`, `models` or `many`; specified by `BatchManyKeyword` |
| Serializers.BatchManyKeyword | resourceful/serializer.py:41-52 | a schema argument `self` or `form` (for `deserialize_all`), `self` or `models` (for `serialize_all`), or `many` makes the helper raise TypeError for every class; otherwise it forwards the payload and schema arguments with `many=True` |
| Serializers.BatchOnlyUsesMany | resourceful/serializer.py:41-52 | both batch helpers depend only on the class's `many=True` call with the arguments unchanged |
| Serializers.EchoBatch | tests/serializer_tests.py:19-39 | echoing serializers return `('test', True, {'a': 1, 'b': 2})` from both batch helpers |
| Serializers.RegistryScenario | tests/serializer_tests.py:9-17 | `TestSerializer` is found after its definition, and `ABC` raises KeyError |
| Adaptable.DefineAdapter | adaptable/__init__.py:17-20 | defining an adapter class registers it under its class name |
| Adaptable.GetAdapter | adaptable/__init__.py:174-180 | the registered adapter class, or KeyError for an unknown name |
| Adaptable.MapAll | adaptable/__init__.py:71 | succeeds iff every element succeeds, giving a list of the same length with f applied element-wise; otherwise the first failing element's exception |
| Adaptable.DeserializeAll | adaptable/__init__.py:65-71 | same length, i-th element `deserialize(forms[i])`; succeeds iff every form deserializes |
| Adaptable.SerializeAll | adaptable/__init__.py:82-88 | same length, i-th element `serialize(models[i])`; succeeds iff every model serializes |
| Adaptable.FetchSeparatesArguments | adaptable/__init__.py:90-100 | two calls whose kwargs clash alike with `self`/`id` and build the same query, with ids `fetch_one` treats alike, give the same result: the kwargs reach only `make_query` and the id only `fetch_one` |
| Adaptable.Fetch | adaptable/__init__.py:90-100 | TypeError for a `self` or `id` keyword, otherwise `fetch_one(make_query(**kwargs), id)`; specified by `FetchArgumentClash`, `FetchSeparatesArguments` and `FetchQueryFailure` |
| Adaptable.FetchQueryFailure | adaptable/__init__.py:90-100 | a raising `make_query` is the result of `fetch`, and `fetch_one` is not consulted, unless a `self` or `id` keyword raised TypeError first |
| Adaptable.FetchArgumentClash | adaptable/__init__.py:90-100 | a `self` or `id` keyword raises TypeError for every class and id; any other kwargs all go to `make_query` and its query and the id to `fetch_one` |
| Adaptable.RegistryScenario | tests/unit/adapter_tests.py:11-22 | `BaseAdapter` is found after its definition, and `XYZ` raises KeyError |

## Left out

- Flask transport:
  - `add_url_rule` internals, Flask's own `View.as_view`, and duplicate-endpoint errors;
  - `send_response` (`jsonify`/`make_response`).
  The application is a plain list of rules.
- The `request` object is reduced to one optional context map. Isolation between concurrent
  requests cannot be expressed in a sequential model, so one request is modelled.
- The `__dict__` property of `FlaskResourcefulView` is Python object plumbing and is not modelled.
- Flask.EndpointName: method names are rendered as Python's `str(list)` does for plain
  names. Escaping of quotes inside a method name is not modelled.
- Views.ViewClass.Interleave and Views.ViewClass.DeleteSave: `processors` is a cell of the
  one class the view stands for. In Python, `as_view` sets `processors` on the class it is
  called on. A subclass that was never resolved itself reads the nearest resolved ancestor's
  table through attribute lookup. The model does not capture that: such a subclass would
  fold through the ancestor's hooks, missing its own, and the defaultdict insertion would
  land in the ancestor's table, which is shared.
- Reflection mechanics are not modelled:
  - `dir`, `getattr`, `contextlib.suppress`, and bound versus unbound methods.
  - A class is given as its name-sorted attribute list.
  - The metaclass `__new__` is an explicit `Define` call.
- Decorators.TagProcessor: any non-callable argument is taken to be an integer priority.
  A call with some other kind of value is not modelled.
- An attribute with a stage but no priority attribute would make Python's sort raise. The
  model treats such an attribute as untagged.
- Serializers.SerializeAll: a schema argument named like the class method's own first
  parameter (`model` for `serialize`) also makes Python raise TypeError. That parameter name
  belongs to each class, so this case is left to the class's own function.
- The TypeError of a keyword that repeats a parameter does not name the parameter: Python
  names the first such keyword in call order, which a map does not keep.
- Hook side effects on the view, such as writing the context, are not modelled; a hook is
  its result.
- The `jsonapiquery` calls, `include`, `_remove_null_values` and `raise_jsonapi_errors` are
  uninterpreted functions, so their internals are not modelled:
  - they are total functions of their arguments;
  - the model does not capture the library mutating the error list passed to it;
  - `raise_jsonapi_errors` may return a value or raise.
- The session and the model passed to `include` are fixed per view and left implicit.
- adaptable/extensions.py is not part of this model. It sequences library calls whose
  result shapes are not stated.
- SQLAlchemy and marshmallow test fixtures are not part of this model.
- examples/flask_api.py is not part of this model, except `CreateUsersView`'s hook
  declarations, used as a witness.
- Abstract methods that return `None`, and packaging, are not modelled.

## Findings

| source | as written | input that shows it | evidently intended | confidence | as-written member | corrected member |
|---|---|---|---|---|---|---|
| resourceful/extensions/jsonapi.py:90 | with `may_paginate` off, `paginate_query` returns the pair `query, []`, but `apply_jsonapi_args` unpacks three values at line 100, so unpacking raises ValueError and `pagination_total` is never set | `query_options = {'may_paginate': False}` | return `query, None, []`, so that the query passes through with a None total | not executed | JsonApi.PaginateBypassAlwaysFails | JsonApi.AllDisabledPassThrough |
