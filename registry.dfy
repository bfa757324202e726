/** The name -> class registry a metaclass keeps (`_SerializerRegistry.serializers` in
    resourceful/serializer.py, `_AdapterRegistry.adapters` in adaptable/__init__.py): a
    dictionary shared by every class the metaclass creates. */
module Registry {
  import opened Py

  /** `registry[name]`: the class registered under `name`, or KeyError. */
  function Lookup<C>(entries: map<string, C>, name: string): (r: Result<C>)
    ensures r.Ok? <==> name in entries
    ensures r.Ok? ==> r.value == entries[name]
    ensures r.Raise? ==> r.error == KeyError(name)
  {
    if name in entries then Ok(entries[name]) else Raise(KeyError(name))
  }

  /** The registry dictionary, shared by all classes of one metaclass. */
  class ClassRegistry<C> {
    var entries: map<string, C>

    constructor ()
      ensures entries == map[]
    {
      entries := map[];
    }

    /** The metaclass `__new__(cls, name, bases, attrs)`: the new class is stored under its
        class name, replacing an earlier class of the same name, and returned. */
    method Define(name: string, cls: C) returns (r: C)
      modifies this
      ensures r == cls
      ensures entries == old(entries)[name := cls]
    {
      entries := entries[name := cls];
      r := cls;
    }

    /** The module-level `get_*(name)`: look the name up in the registry. */
    method Get(name: string) returns (r: Result<C>)
      ensures name in entries ==> r == Ok(entries[name])
      ensures name !in entries ==> r == Raise(KeyError(name))
    {
      r := Lookup(entries, name);
    }
  }

  /** After the class definitions `defs` (name, class), in order: the registry holds exactly
      the earlier names and the defined ones, so nothing is ever removed. */
  lemma RegistryGrows<C>(entries: map<string, C>, defs: seq<(string, C)>)
    ensures Assigned(entries, defs).Keys == entries.Keys + set i | 0 <= i < |defs| :: defs[i].0
    ensures entries.Keys <= Assigned(entries, defs).Keys
  {
    AssignedKeys(entries, defs);
  }

  /** A name defined by `defs` is found, holding its last definition. */
  lemma LastDefinitionWins<C>(entries: map<string, C>, defs: seq<(string, C)>, i: nat)
    requires i < |defs|
    requires forall j :: i < j < |defs| ==> defs[j].0 != defs[i].0
    ensures Lookup(Assigned(entries, defs), defs[i].0) == Ok(defs[i].1)
  {
    AssignedLastWrite(entries, defs, i);
  }

  /** A name no definition uses is looked up exactly as before, a KeyError included. */
  lemma OtherNamesUnchanged<C>(entries: map<string, C>, defs: seq<(string, C)>, name: string)
    requires forall j :: 0 <= j < |defs| ==> defs[j].0 != name
    ensures Lookup(Assigned(entries, defs), name) == Lookup(entries, name)
  {
    AssignedUntouched(entries, defs, name);
  }

  /** `Define` is one step of `Assigned`: the registry after the definitions `defs` and then
      one more class is the earlier registry with that class stored under its name. */
  lemma DefineStep<C>(entries: map<string, C>, defs: seq<(string, C)>, name: string, cls: C)
    ensures Assigned(entries, defs + [(name, cls)]) == Assigned(entries, defs)[name := cls]
  {
    assert (defs + [(name, cls)])[..|defs|] == defs;
  }
}
