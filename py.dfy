/** Python values, exceptions and the few built-in behaviours the rest of the model relies on:
    string ordering (the order `dir()` lists names in) and successive dictionary assignment. */
module Py {

  datatype Option<+T> = None | Some(value: T) {
    function GetOr(default: T): T {
      if Some? then value else default
    }
  }

  /** The exceptions the modelled code raises or lets through. */
  datatype Exception =
    | KeyError(key: string)
    | AttributeError(attribute: string)
    | ValueError(message: string)
    | TypeError(message: string)
    | Raised(name: string)   // any exception raised by code outside the model (a hook, a collaborator)

  /** A Python call either returns a value or raises; a raise carries no partial result. */
  datatype Result<+T> = Ok(value: T) | Raise(error: Exception)

  /** A call that binds the leading parameters `params` positionally and also spreads
      `kwargs` as keywords: a keyword naming one of those parameters is a second value for
      it, and Python raises TypeError before the callee's body runs. */
  predicate PositionalClash<A>(params: seq<string>, kwargs: map<string, A>) {
    exists p :: p in params && p in kwargs
  }

  /** The TypeError of a positional clash; which parameter it names depends on the order of
      the keywords, which a map does not keep. */
  const MultipleValues := TypeError("got multiple values for argument")

  /** JSON-shaped Python values: the responses, options and errors the JSONAPI hooks inspect. */
  datatype Value =
    | Null
    | Bool(b: bool)
    | Int(i: int)
    | Str(s: string)
    | List(items: seq<Value>)
    | Dict(entries: map<string, Value>)

  /** Python truthiness of a value. */
  predicate Truthy(v: Value) {
    match v
    case Null => false
    case Bool(b) => b
    case Int(i) => i != 0
    case Str(s) => s != ""
    case List(xs) => xs != []
    case Dict(m) => m != map[]
  }

  /** `d.get(key)`: the value stored under `key`, or None. */
  function Get(d: map<string, Value>, key: string): (r: Value)
    ensures key !in d ==> r == Null
    ensures key in d ==> r == d[key]
  {
    if key in d then d[key] else Null
  }

  /** `a < b` on Python strings: lexicographic on code points, a proper prefix sorts first. */
  predicate NameLess(a: string, b: string)
    decreases |a|
  {
    if |a| == 0 then |b| > 0
    else if |b| == 0 then false
    else if a[0] == b[0] then NameLess(a[1..], b[1..])
    else a[0] < b[0]
  }

  lemma {:induction false} NameLessIrreflexive(a: string)
    ensures !NameLess(a, a)
    decreases |a|
  {
    if |a| > 0 {
      NameLessIrreflexive(a[1..]);
    }
  }

  lemma {:induction false} NameLessAsymmetric(a: string, b: string)
    requires NameLess(a, b)
    ensures !NameLess(b, a)
    decreases |a|
  {
    if |a| > 0 && |b| > 0 && a[0] == b[0] {
      NameLessAsymmetric(a[1..], b[1..]);
    }
  }

  /** The dictionary after the assignments `m[k] = v` of `writes`, in order. */
  function Assigned<V>(m: map<string, V>, writes: seq<(string, V)>): map<string, V>
    decreases |writes|
  {
    if writes == [] then m
    else
      var last := writes[|writes| - 1];
      Assigned(m, writes[..|writes| - 1])[last.0 := last.1]
  }

  /** The keys of the assigned dictionary are the old keys plus every written key, so nothing
      is ever removed. */
  lemma {:induction false} AssignedKeys<V>(m: map<string, V>, writes: seq<(string, V)>)
    ensures Assigned(m, writes).Keys == m.Keys + set i | 0 <= i < |writes| :: writes[i].0
    decreases |writes|
  {
    if writes != [] {
      var init := writes[..|writes| - 1];
      AssignedKeys(m, init);
      var before := set i | 0 <= i < |init| :: init[i].0;
      var after := set i | 0 <= i < |writes| :: writes[i].0;
      assert after == before + {writes[|writes| - 1].0} by {
        forall k | k in after ensures k in before + {writes[|writes| - 1].0} {
          var i :| 0 <= i < |writes| && writes[i].0 == k;
          if i < |init| {
            assert init[i] == writes[i];
          }
        }
        forall k | k in before ensures k in after {
          var i :| 0 <= i < |init| && init[i].0 == k;
          assert writes[i] == init[i];
        }
      }
    }
  }

  /** The last write of a key wins. */
  lemma {:induction false} AssignedLastWrite<V>(m: map<string, V>, writes: seq<(string, V)>, i: nat)
    requires i < |writes|
    requires forall j :: i < j < |writes| ==> writes[j].0 != writes[i].0
    ensures writes[i].0 in Assigned(m, writes)
    ensures Assigned(m, writes)[writes[i].0] == writes[i].1
    decreases |writes|
  {
    var init := writes[..|writes| - 1];
    if i < |writes| - 1 {
      forall j | i < j < |init| ensures init[j].0 != init[i].0 {
        assert init[j] == writes[j];
      }
      AssignedLastWrite(m, init, i);
      assert init[i] == writes[i];
    }
  }

  /** A key that is never written keeps its old value. */
  lemma {:induction false} AssignedUntouched<V>(m: map<string, V>, writes: seq<(string, V)>, key: string)
    requires forall j :: 0 <= j < |writes| ==> writes[j].0 != key
    ensures (key in Assigned(m, writes)) == (key in m)
    ensures key in m ==> Assigned(m, writes)[key] == m[key]
    decreases |writes|
  {
    if writes != [] {
      var init := writes[..|writes| - 1];
      forall j | 0 <= j < |init| ensures init[j].0 != key {
        assert init[j] == writes[j];
      }
      AssignedUntouched(m, init, key);
    }
  }
}
