/** Hook tagging: the stage decorators, `tag_processor` and `_tag_processor`
    (resourceful/decorators.py). A decorated function is an object whose two tag attributes,
    `__invokation_type__` and `__invokation_priority__`, are written in place. */
module Decorators {
  import opened Py

  /** The (stage name, priority) pair that `_tag_processor` stamps on a function. */
  datatype Tag = Tag(stage: string, priority: int)

  /** The eight lifecycle stages that have a decorator of their own. */
  datatype Stage = PreFetch | PostFetch | PreLoad | PostLoad | PreSave | PostSave | PreDump | PostDump

  /** The stage name each decorator passes to `tag_processor`. */
  function StageName(s: Stage): string {
    match s
    case PreFetch => "pre_fetch"
    case PostFetch => "post_fetch"
    case PreLoad => "pre_load"
    case PostLoad => "post_load"
    case PreSave => "pre_save"
    case PostSave => "post_save"
    case PreDump => "pre_dump"
    case PostDump => "post_dump"
  }

  /** No two decorators tag with the same stage name. */
  lemma StageNamesDistinct(s: Stage, t: Stage)
    ensures StageName(s) == StageName(t) <==> s == t
  {
  }

  /** A Python function object. `id` is its identity; the two tag attributes are absent
      (`None`) until a decorator writes them. */
  class PyFunction {
    const id: nat
    var invokationType: Option<string>
    var invokationPriority: Option<int>

    constructor (id: nat)
      ensures this.id == id
      ensures invokationType == None && invokationPriority == None
    {
      this.id := id;
      invokationType := None;
      invokationPriority := None;
    }

    /** The tag that reflection finds on this function, if it has both attributes. */
    function TagOf(): (t: Option<Tag>)
      reads this
      ensures t.Some? <==> invokationType.Some? && invokationPriority.Some?
      ensures t.Some? ==> t.value == Tag(invokationType.value, invokationPriority.value)
    {
      if invokationType.Some? && invokationPriority.Some?
      then Some(Tag(invokationType.value, invokationPriority.value))
      else None
    }
  }

  /** `_tag_processor(fn, name, priority=0)`: overwrite both tag attributes and return the very
      same function object. Re-tagging therefore keeps only the last stage and priority. */
  method TagFunction(fn: PyFunction, name: string, priority: int := 0) returns (r: PyFunction)
    modifies fn
    ensures r == fn
    ensures fn.invokationType == Some(name) && fn.invokationPriority == Some(priority)
    ensures fn.TagOf() == Some(Tag(name, priority))
  {
    fn.invokationType := Some(name);
    fn.invokationPriority := Some(priority);
    r := fn;
  }

  /** What a decorator may be applied to: a callable, or (`@pre_fetch(-1)`) a priority. */
  datatype DecoratorArg = Callable(fn: PyFunction) | Priority(priority: int)

  /** The closure `wrapper` that `tag_processor` returns for a priority argument: it
      remembers the stage name and the priority. */
  datatype TagWrapper = TagWrapper(name: string, priority: int)

  /** What `tag_processor` returns: the tagged function itself, or a wrapper. */
  datatype Decorated = Function(fn: PyFunction) | Wrapper(wrapper: TagWrapper)

  /** `tag_processor(fn, name)`: a callable is tagged at once with priority 0; any other
      argument is taken as the priority and a wrapper is returned, tagging nothing yet.
      The stage name is not checked. */
  method TagProcessor(arg: DecoratorArg, name: string) returns (d: Decorated)
    modifies if arg.Callable? then {arg.fn} else {}
    ensures arg.Callable? ==> d == Function(arg.fn) && arg.fn.TagOf() == Some(Tag(name, 0))
    ensures arg.Priority? ==> d == Wrapper(TagWrapper(name, arg.priority))
  {
    if arg.Callable? {
      var f := TagFunction(arg.fn, name);
      d := Function(f);
    } else {
      d := Wrapper(TagWrapper(name, arg.priority));
    }
  }

  /** Calling the wrapper on a function: tag it with the remembered name and priority. */
  method CallWrapper(w: TagWrapper, fn: PyFunction) returns (r: PyFunction)
    modifies fn
    ensures r == fn && fn.TagOf() == Some(Tag(w.name, w.priority))
  {
    r := TagFunction(fn, w.name, w.priority);
  }

  /** The stage decorators `pre_fetch` ... `post_dump`: `tag_processor(fn, '<stage>')`. */
  method Decorate(stage: Stage, arg: DecoratorArg) returns (d: Decorated)
    modifies if arg.Callable? then {arg.fn} else {}
    ensures arg.Callable? ==> d == Function(arg.fn) && arg.fn.TagOf() == Some(Tag(StageName(stage), 0))
    ensures arg.Priority? ==> d == Wrapper(TagWrapper(StageName(stage), arg.priority))
  {
    d := TagProcessor(arg, StageName(stage));
  }

  /** `@pre_fetch(-1)` on a function tags it with stage `pre_fetch` and priority -1. */
  method PriorityDecoratorScenario() returns (f: PyFunction)
    ensures f.TagOf() == Some(Tag("pre_fetch", -1))
  {
    f := new PyFunction(0);
    var d := Decorate(PreFetch, Priority(-1));
    f := CallWrapper(d.wrapper, f);
  }

  /** `tag_processor(test, 'name')` and then `tag_processor(10, 'name')(test)`: the first call
      tags with priority 0 and the second replaces it with 10. */
  method RetagScenario() returns (first: Option<Tag>, g: PyFunction)
    ensures first == Some(Tag("name", 0))
    ensures g.TagOf() == Some(Tag("name", 10))
  {
    g := new PyFunction(1);
    var e := TagProcessor(Callable(g), "name");
    first := g.TagOf();
    var w := TagProcessor(Priority(10), "name");
    g := CallWrapper(w.wrapper, g);
  }
}
