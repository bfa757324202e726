/** The Flask binding (resourceful/extensions/flask.py): the request-local context that a view
    exposes as a mapping, `as_view`, and the registration of views as URL rules. */
module Flask {
  import opened Py
  import opened Views

  /** The current request. The context dictionary is attached to it on first use. */
  class Request<V> {
    var resourcefulContext: Option<map<string, V>>

    constructor ()
      ensures resourcefulContext == None
    {
      resourcefulContext := None;
    }
  }

  /** A `FlaskResourcefulView` instance serving one request. */
  class FlaskResourcefulView<V> {
    const request: Request<V>

    constructor (request: Request<V>)
      ensures this.request == request
    {
      this.request := request;
    }

    /** The dictionary `context` yields right now: the one attached to the request, or the
        empty one that the first access attaches. */
    function Current(): map<string, V>
      reads request
    {
      request.resourcefulContext.GetOr(map[])
    }

    /** `self.context`: the first access in a request attaches an empty dictionary; every
        later access returns the one already attached. */
    method Context() returns (m: map<string, V>)
      modifies request
      ensures old(request.resourcefulContext).None? ==> m == map[]
      ensures old(request.resourcefulContext).Some? ==> m == old(request.resourcefulContext).value
      ensures request.resourcefulContext == Some(m)
    {
      if request.resourcefulContext.None? {
        request.resourcefulContext := Some(map[]);
      }
      m := request.resourcefulContext.value;
    }

    /** `self[key]`: the value stored under `key`; a key never set raises KeyError. */
    method GetItem(key: string) returns (r: Result<V>)
      modifies request
      ensures request.resourcefulContext == Some(old(Current()))
      ensures key in old(Current()) ==> r == Ok(old(Current())[key])
      ensures key !in old(Current()) ==> r == Raise(KeyError(key))
    {
      var m := Context();
      if key in m {
        r := Ok(m[key]);
      } else {
        r := Raise(KeyError(key));
      }
    }

    /** `self[key] = value`: store `value` under `key`; every other key keeps its value. */
    method SetItem(key: string, value: V)
      modifies request
      ensures request.resourcefulContext == Some(old(Current())[key := value])
    {
      var m := Context();
      request.resourcefulContext := Some(m[key := value]);
    }

    /** `key in self`. */
    method Contains(key: string) returns (b: bool)
      modifies request
      ensures request.resourcefulContext == Some(old(Current()))
      ensures b <==> key in old(Current())
    {
      var m := Context();
      b := key in m;
    }

    /** `len(self)`: the number of keys in the context. */
    method Len() returns (n: nat)
      modifies request
      ensures request.resourcefulContext == Some(old(Current()))
      ensures n == |old(Current())|
    {
      var m := Context();
      n := |m|;
    }
  }

  /** The context after the assignments `writes`, made in order in a fresh request. */
  function ContextAfter<V>(writes: seq<(string, V)>): map<string, V> {
    Assigned(map[], writes)
  }

  /** Within one request: a key is present iff it was set, `len` counts the distinct keys set,
      and a key holds the value of its last assignment. */
  lemma ContextAfterWrites<V>(writes: seq<(string, V)>, key: string)
    ensures key in ContextAfter(writes) <==> exists i :: 0 <= i < |writes| && writes[i].0 == key
    ensures |ContextAfter(writes)| == |set i | 0 <= i < |writes| :: writes[i].0|
    ensures forall i :: 0 <= i < |writes| && writes[i].0 == key && (forall j :: i < j < |writes| ==> writes[j].0 != key) ==>
      ContextAfter(writes)[key] == writes[i].1
  {
    AssignedKeys(map[], writes);
    var keys := set i | 0 <= i < |writes| :: writes[i].0;
    assert ContextAfter(writes).Keys == keys;
    assert |ContextAfter(writes)| == |ContextAfter(writes).Keys|;
    forall i | 0 <= i < |writes| && writes[i].0 == key && (forall j :: i < j < |writes| ==> writes[j].0 != key)
      ensures ContextAfter(writes)[key] == writes[i].1
    {
      AssignedLastWrite(map[], writes, i);
    }
  }

  /** A request whose hooks set `run_task` and then read it back, check for an unset key and
      count the keys. */
  method ContextScenario<V>(flag: V, other: V) returns (got: Result<V>, missing: Result<V>, has: bool, size: nat)
    ensures got == Ok(other)
    ensures missing == Raise(KeyError("user_id"))
    ensures has
    ensures size == 1
  {
    var request := new Request<V>();
    var view := new FlaskResourcefulView(request);
    view.SetItem("run_task", flag);
    view.SetItem("run_task", other);
    got := view.GetItem("run_task");
    missing := view.GetItem("user_id");
    has := view.Contains("run_task");
    size := view.Len();
  }

  /** What Flask's `View.as_view` returns: a view function carrying its endpoint name. */
  datatype ViewFunction = ViewFunction(name: string, view: ViewClass)

  /** `FlaskResourcefulView.as_view(name)`: re-resolve the class's processors from its current
      attributes, on every call. */
  method AsView(cls: ViewClass, name: string) returns (f: ViewFunction)
    modifies cls
    ensures cls.attributes == old(cls.attributes)
    ensures cls.processors == Some(ResolveSpec(cls.attributes))
    ensures f == ViewFunction(name, cls)
  {
    var table := ResolveProcessors(cls.attributes);
    cls.processors := Some(table);
    f := ViewFunction(name, cls);
  }

  /** A URL rule of the application. */
  datatype Rule = Rule(route: string, viewFunc: ViewFunction, methods: seq<Option<string>>)

  /** The Flask application: its URL rules in registration order. */
  class App {
    var rules: seq<Rule>

    constructor ()
      ensures rules == []
    {
      rules := [];
    }
  }

  /** `str(x)` of one element of a list of method names. */
  function ElementRepr(m: Option<string>): string {
    if m.Some? then "'" + m.value + "'" else "None"
  }

  function JoinRepr(ms: seq<Option<string>>): string
    decreases |ms|
  {
    if ms == [] then ""
    else if |ms| == 1 then ElementRepr(ms[0])
    else ElementRepr(ms[0]) + ", " + JoinRepr(ms[1..])
  }

  /** `'{}{}'.format(route, methods)`: the endpoint name `add_view` gives the view function. */
  function EndpointName(route: string, methods: seq<Option<string>>): string {
    route + "[" + JoinRepr(methods) + "]"
  }

  lemma EndpointNameExample()
    ensures EndpointName("/users", [Some("GET")]) == "/users['GET']"
  {
  }

  /** The rule `add_view(route, view, [view._method])` adds. */
  function RuleFor(route: string, view: ViewClass): Rule {
    Rule(route, ViewFunction(EndpointName(route, [view.httpMethod]), view), [view.httpMethod])
  }

  /** The rules `add_views(route, views)` adds: one per view, in list order, each for the
      view's own method only. */
  function RulesFor(route: string, views: seq<ViewClass>): seq<Rule>
    decreases |views|
  {
    if views == [] then [] else [RuleFor(route, views[0])] + RulesFor(route, views[1..])
  }

  lemma {:induction false} RulesForContents(route: string, views: seq<ViewClass>)
    ensures |RulesFor(route, views)| == |views|
    ensures forall i :: 0 <= i < |views| ==> RulesFor(route, views)[i] == RuleFor(route, views[i])
    decreases |views|
  {
    if views != [] {
      RulesForContents(route, views[1..]);
      forall i | 0 < i < |views| ensures RulesFor(route, views)[i] == RuleFor(route, views[i]) {
        assert views[i] == views[1..][i - 1];
      }
    }
  }

  /** The `FlaskResourceful` extension object; `app` is unset until `init_app`. */
  class FlaskResourceful {
    var app: App?

    constructor ()
      ensures app == null
    {
      app := null;
    }

    method InitApp(app: App)
      modifies this
      ensures this.app == app
    {
      this.app := app;
    }

    /** `add_view(route, view, methods)`: build the view function (which resolves the view's
        processors), then add the rule to the application; without `init_app` the second step
        fails. */
    method AddView(route: string, view: ViewClass, methods: seq<Option<string>>) returns (r: Result<()>)
      modifies (if app == null then {} else {app}), view
      ensures app == old(app)
      ensures view.attributes == old(view.attributes)
      ensures view.Resolved()
      ensures old(app) == null ==> r == Raise(AttributeError("app"))
      ensures old(app) != null ==> r == Ok(())
      ensures old(app) != null ==>
        app.rules == old(app.rules) + [Rule(route, ViewFunction(EndpointName(route, methods), view), methods)]
    {
      var f := AsView(view, EndpointName(route, methods));
      if app == null {
        return Raise(AttributeError("app"));
      }
      app.rules := app.rules + [Rule(route, f, methods)];
      r := Ok(());
    }

    /** `add_views(route, views)`: `add_view(route, view, [view._method])` for each view in
        turn. Without `init_app` the first view is resolved and then the registration fails. */
    method AddViews(route: string, views: seq<ViewClass>) returns (r: Result<()>)
      modifies (if app == null then {} else {app}), set v | v in views
      ensures app == old(app)
      ensures forall j :: 0 <= j < |views| ==> views[j].attributes == old(views[j].attributes)
      ensures old(app) != null ==> r == Ok(())
      ensures old(app) != null ==> app.rules == old(app.rules) + RulesFor(route, views)
      ensures old(app) != null ==> forall j :: 0 <= j < |views| ==> views[j].Resolved()
      ensures old(app) == null ==> r == if views == [] then Ok(()) else Raise(AttributeError("app"))
      ensures old(app) == null && views != [] ==> views[0].Resolved()
      ensures old(app) == null ==> forall v | v in views && v != views[0] :: v.processors == old(v.processors)
    {
      if app == null {
        if views == [] {
          return Ok(());
        }
        r := AddView(route, views[0], [views[0].httpMethod]);
        return;
      }
      var a := app;
      for i := 0 to |views|
        invariant app == a
        invariant forall j :: 0 <= j < |views| ==> views[j].attributes == old(views[j].attributes)
        invariant a.rules == old(a.rules) + RulesFor(route, views[..i])
        invariant forall j :: 0 <= j < i ==> views[j].Resolved()
      {
        var view := views[i];
        var res := AddView(route, view, [view.httpMethod]);
        assert views[..i + 1] == views[..i] + [view];
        RulesForSnoc(route, views[..i], view);
      }
      assert views[..|views|] == views;
      r := Ok(());
    }
  }

  lemma {:induction false} RulesForSnoc(route: string, views: seq<ViewClass>, v: ViewClass)
    ensures RulesFor(route, views + [v]) == RulesFor(route, views) + [RuleFor(route, v)]
    decreases |views|
  {
    if views == [] {
      assert [v][1..] == [];
    } else {
      assert (views + [v])[1..] == views[1..] + [v];
      RulesForSnoc(route, views[1..], v);
    }
  }

}
