/** The adapter layer of adaptable/__init__.py: the `Adapter` classes, their registry, the
    element-wise batch helpers and `fetch`. */
module Adaptable {
  import opened Py
  import opened Registry

  /** An `Adapter` class: its name and its `deserialize(form)`, `serialize(model)`,
      `make_query(**kwargs)` and `fetch_one(query, id)` implementations. */
  datatype AdapterClass = AdapterClass(
    name: string,
    deserialize: Value -> Result<Value>,
    serialize: Value -> Result<Value>,
    makeQuery: map<string, Value> -> Result<Value>,
    fetchOne: (Value, Value) -> Result<Value>)

  /** `_AdapterRegistry.__new__`: defining an adapter class registers it under its name. */
  method DefineAdapter(registry: ClassRegistry<AdapterClass>, cls: AdapterClass) returns (r: AdapterClass)
    modifies registry
    ensures r == cls
    ensures registry.entries == old(registry.entries)[cls.name := cls]
  {
    r := registry.Define(cls.name, cls);
  }

  /** `get_adapter(name)`: the registered class, or KeyError for an unknown name. */
  method GetAdapter(registry: ClassRegistry<AdapterClass>, name: string) returns (r: Result<AdapterClass>)
    ensures name in registry.entries ==> r == Ok(registry.entries[name])
    ensures name !in registry.entries ==> r == Raise(KeyError(name))
  {
    r := registry.Get(name);
  }

  /** `[f(x) for x in xs]`: the elements are computed left to right, and the first call that
      raises makes the whole comprehension raise. */
  function MapAll(f: Value -> Result<Value>, xs: seq<Value>): (r: Result<seq<Value>>)
    ensures r.Ok? <==> forall i :: 0 <= i < |xs| ==> f(xs[i]).Ok?
    ensures r.Ok? ==> |r.value| == |xs|
    ensures r.Ok? ==> forall i :: 0 <= i < |xs| ==> r.value[i] == f(xs[i]).value
    ensures r.Raise? ==>
      exists i :: 0 <= i < |xs| && f(xs[i]).Raise? && r.error == f(xs[i]).error &&
        forall j :: 0 <= j < i ==> f(xs[j]).Ok?
    decreases |xs|
  {
    if xs == [] then Ok([])
    else
      var head := f(xs[0]);
      if head.Raise? then Raise(head.error)
      else
        var tail := MapAll(f, xs[1..]);
        if tail.Raise? then
          var k :| 0 <= k < |xs[1..]| && f(xs[1..][k]).Raise? && tail.error == f(xs[1..][k]).error &&
            forall j :: 0 <= j < k ==> f(xs[1..][j]).Ok?;
          assert xs[k + 1] == xs[1..][k];
          assert forall j :: 1 <= j < k + 1 ==> xs[j] == xs[1..][j - 1];
          Raise(tail.error)
        else Ok([head.value] + tail.value)
  }

  /** `deserialize_all(forms)`: one `deserialize` per form, in order. */
  function DeserializeAll(cls: AdapterClass, forms: seq<Value>): (r: Result<seq<Value>>)
    ensures r.Ok? <==> forall i :: 0 <= i < |forms| ==> cls.deserialize(forms[i]).Ok?
    ensures r.Ok? ==> |r.value| == |forms| && forall i :: 0 <= i < |forms| ==> r.value[i] == cls.deserialize(forms[i]).value
  {
    MapAll(cls.deserialize, forms)
  }

  /** `serialize_all(models)`: one `serialize` per model, in order. */
  function SerializeAll(cls: AdapterClass, models: seq<Value>): (r: Result<seq<Value>>)
    ensures r.Ok? <==> forall i :: 0 <= i < |models| ==> cls.serialize(models[i]).Ok?
    ensures r.Ok? ==> |r.value| == |models| && forall i :: 0 <= i < |models| ==> r.value[i] == cls.serialize(models[i]).value
  {
    MapAll(cls.serialize, models)
  }

  /** `fetch(id, **kwargs)`: a keyword named `self` or `id` clashes with the method's own
      parameters; otherwise `fetch_one(make_query(**kwargs), id)`. */
  function Fetch(cls: AdapterClass, id: Value, kwargs: map<string, Value>): Result<Value> {
    if PositionalClash(["self", "id"], kwargs) then Raise(MultipleValues)
    else
      var query := cls.makeQuery(kwargs);
      if query.Raise? then Raise(query.error) else cls.fetchOne(query.value, id)
  }

  /** A keyword argument named `self` or `id` makes `fetch` raise TypeError before
      `make_query` runs, whatever the class and the id; any other keywords all go to
      `make_query`. */
  lemma FetchArgumentClash(cls: AdapterClass, other: AdapterClass, id1: Value, id2: Value, kwargs: map<string, Value>)
    ensures ("self" in kwargs || "id" in kwargs) ==>
      Fetch(cls, id1, kwargs) == Fetch(other, id2, kwargs) == Raise(MultipleValues)
    ensures "self" !in kwargs && "id" !in kwargs ==>
      Fetch(cls, id1, kwargs) ==
        if cls.makeQuery(kwargs).Raise? then Raise(cls.makeQuery(kwargs).error)
        else cls.fetchOne(cls.makeQuery(kwargs).value, id1)
  {
    if "self" in kwargs || "id" in kwargs {
      var p := if "self" in kwargs then "self" else "id";
      assert p in ["self", "id"];
    }
  }

  /** The keyword arguments reach only `make_query` and the id only `fetch_one`: two calls
      whose keywords clash alike with `self`/`id` and build the same query, and whose ids
      `fetch_one` treats alike, give the same result. */
  lemma FetchSeparatesArguments(cls: AdapterClass, id1: Value, id2: Value, kw1: map<string, Value>, kw2: map<string, Value>)
    requires ("self" in kw1 || "id" in kw1) == ("self" in kw2 || "id" in kw2)
    requires cls.makeQuery(kw1) == cls.makeQuery(kw2)
    requires cls.makeQuery(kw1).Ok? ==> cls.fetchOne(cls.makeQuery(kw1).value, id1) == cls.fetchOne(cls.makeQuery(kw1).value, id2)
    ensures Fetch(cls, id1, kw1) == Fetch(cls, id2, kw2)
  {
    FetchArgumentClash(cls, cls, id1, id2, kw1);
    FetchArgumentClash(cls, cls, id1, id2, kw2);
  }

  /** A `make_query` that raises stops `fetch` before `fetch_one` is called, unless the
      keywords already clash with `self`/`id`, which raises TypeError first. */
  lemma FetchQueryFailure(cls: AdapterClass, other: AdapterClass, id: Value, kwargs: map<string, Value>)
    requires cls.makeQuery(kwargs).Raise? && other.makeQuery == cls.makeQuery
    ensures "self" !in kwargs && "id" !in kwargs ==>
      Fetch(cls, id, kwargs) == Fetch(other, id, kwargs) == Raise(cls.makeQuery(kwargs).error)
    ensures ("self" in kwargs || "id" in kwargs) ==>
      Fetch(cls, id, kwargs) == Fetch(other, id, kwargs) == Raise(MultipleValues)
  {
    FetchArgumentClash(cls, other, id, id, kwargs);
  }

  /** Defining `Adapter` and then `BaseAdapter`: the latter is found by name, and the undefined
      name `XYZ` raises KeyError. */
  method RegistryScenario(base: AdapterClass, test: AdapterClass) returns (found: Result<AdapterClass>, missing: Result<AdapterClass>)
    requires base.name == "Adapter" && test.name == "BaseAdapter"
    ensures found == Ok(test)
    ensures missing == Raise(KeyError("XYZ"))
  {
    var registry := new ClassRegistry<AdapterClass>();
    var b := DefineAdapter(registry, base);
    var t := DefineAdapter(registry, test);
    found := GetAdapter(registry, "BaseAdapter");
    missing := GetAdapter(registry, "XYZ");
  }
}
