/** The serialization middleware of resourceful/serializer.py: the `Serializer` classes, their
    registry, and the two batch helpers that forward to `deserialize` / `serialize` with
    `many=True`. */
module Serializers {
  import opened Py
  import opened Registry

  /** The `**schema_args` keyword arguments. */
  type SchemaArgs = map<string, Value>

  /** A `Serializer` class: its name and its `deserialize(form, many, **schema_args)` and
      `serialize(model, many, **schema_args)` implementations. */
  datatype SerializerClass = SerializerClass(
    name: string,
    deserialize: (Value, bool, SchemaArgs) -> Result<Value>,
    serialize: (Value, bool, SchemaArgs) -> Result<Value>)

  /** `_SerializerRegistry.__new__`: defining a serializer class registers it under its name. */
  method DefineSerializer(registry: ClassRegistry<SerializerClass>, cls: SerializerClass) returns (r: SerializerClass)
    modifies registry
    ensures r == cls
    ensures registry.entries == old(registry.entries)[cls.name := cls]
  {
    r := registry.Define(cls.name, cls);
  }

  /** `get_serializer(name)`: the registered class, or KeyError for an unknown name. */
  method GetSerializer(registry: ClassRegistry<SerializerClass>, name: string) returns (r: Result<SerializerClass>)
    ensures name in registry.entries ==> r == Ok(registry.entries[name])
    ensures name !in registry.entries ==> r == Raise(KeyError(name))
  {
    r := registry.Get(name);
  }

  /** A call `f(x, many=True, **schema_args)` whose `schema_args` also hold `many` passes
      that keyword twice, and Python refuses the call before `f` runs. */
  const ManyTwice := TypeError("got multiple values for keyword argument 'many'")

  /** `deserialize_all(form, **schema_args)`: a schema argument named `self` or `form`
      clashes with the method's own parameters; otherwise the inner call passes `many=True`. */
  function DeserializeAll(cls: SerializerClass, form: Value, schemaArgs: SchemaArgs): Result<Value> {
    if PositionalClash(["self", "form"], schemaArgs) then Raise(MultipleValues)
    else if "many" in schemaArgs then Raise(ManyTwice)
    else cls.deserialize(form, true, schemaArgs)
  }

  /** `serialize_all(models, **schema_args)`, with `self` and `models` as its own parameters. */
  function SerializeAll(cls: SerializerClass, models: Value, schemaArgs: SchemaArgs): Result<Value> {
    if PositionalClash(["self", "models"], schemaArgs) then Raise(MultipleValues)
    else if "many" in schemaArgs then Raise(ManyTwice)
    else cls.serialize(models, true, schemaArgs)
  }

  /** A schema argument that names a parameter of the batch helper itself (`self`, `form`,
      `models`) or repeats `many` makes the call raise TypeError, whatever the class; any
      other schema arguments are forwarded with the payload and `many=True`. */
  lemma BatchManyKeyword(cls: SerializerClass, other: SerializerClass, payload: Value, schemaArgs: SchemaArgs)
    ensures ("self" in schemaArgs || "form" in schemaArgs) ==>
      DeserializeAll(cls, payload, schemaArgs) == DeserializeAll(other, payload, schemaArgs) == Raise(MultipleValues)
    ensures ("self" in schemaArgs || "models" in schemaArgs) ==>
      SerializeAll(cls, payload, schemaArgs) == SerializeAll(other, payload, schemaArgs) == Raise(MultipleValues)
    ensures "self" !in schemaArgs && "form" !in schemaArgs && "many" in schemaArgs ==>
      DeserializeAll(cls, payload, schemaArgs) == DeserializeAll(other, payload, schemaArgs) == Raise(ManyTwice)
    ensures "self" !in schemaArgs && "models" !in schemaArgs && "many" in schemaArgs ==>
      SerializeAll(cls, payload, schemaArgs) == SerializeAll(other, payload, schemaArgs) == Raise(ManyTwice)
    ensures "self" !in schemaArgs && "form" !in schemaArgs && "many" !in schemaArgs ==>
      DeserializeAll(cls, payload, schemaArgs) == cls.deserialize(payload, true, schemaArgs)
    ensures "self" !in schemaArgs && "models" !in schemaArgs && "many" !in schemaArgs ==>
      SerializeAll(cls, payload, schemaArgs) == cls.serialize(payload, true, schemaArgs)
  {
    if "self" in schemaArgs || "form" in schemaArgs {
      var p := if "self" in schemaArgs then "self" else "form";
      assert p in ["self", "form"];
    }
    if "self" in schemaArgs || "models" in schemaArgs {
      var p := if "self" in schemaArgs then "self" else "models";
      assert p in ["self", "models"];
    }
  }

  /** The batch helpers are single calls with `many=True` and the arguments unchanged: two
      classes whose `many=True` calls agree on these arguments give the same batch result,
      whatever they do for `many=False`. */
  lemma BatchOnlyUsesMany(a: SerializerClass, b: SerializerClass, payload: Value, schemaArgs: SchemaArgs)
    requires a.deserialize(payload, true, schemaArgs) == b.deserialize(payload, true, schemaArgs)
    requires a.serialize(payload, true, schemaArgs) == b.serialize(payload, true, schemaArgs)
    ensures DeserializeAll(a, payload, schemaArgs) == DeserializeAll(b, payload, schemaArgs)
    ensures SerializeAll(a, payload, schemaArgs) == SerializeAll(b, payload, schemaArgs)
  {
  }

  /** The test serializers' `deserialize` / `serialize`: return `(payload, many, kwargs)`. */
  function Echo(payload: Value, many: bool, schemaArgs: SchemaArgs): Result<Value> {
    Ok(List([payload, Bool(many), Dict(schemaArgs)]))
  }

  /** `TestSerializer().deserialize_all('test', a=1, b=2)` yields `('test', True, {'a': 1,
      'b': 2})`, and likewise for `serialize_all`. */
  lemma EchoBatch()
    ensures var args := map["a" := Int(1), "b" := Int(2)];
            var cls := SerializerClass("TestSerializer", Echo, Echo);
            DeserializeAll(cls, Str("test"), args) == Ok(List([Str("test"), Bool(true), Dict(args)])) &&
            SerializeAll(cls, Str("test"), args) == Ok(List([Str("test"), Bool(true), Dict(args)]))
  {
  }

  /** Defining `Serializer` and then `TestSerializer`: the latter is found by name, and the
      undefined name `ABC` raises KeyError. */
  method RegistryScenario(base: SerializerClass, test: SerializerClass) returns (found: Result<SerializerClass>, missing: Result<SerializerClass>)
    requires base.name == "Serializer" && test.name == "TestSerializer"
    ensures found == Ok(test)
    ensures missing == Raise(KeyError("ABC"))
  {
    var registry := new ClassRegistry<SerializerClass>();
    var b := DefineSerializer(registry, base);
    var t := DefineSerializer(registry, test);
    found := GetSerializer(registry, "TestSerializer");
    missing := GetSerializer(registry, "ABC");
  }
}
