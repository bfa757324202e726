/** The hook registry and interleaver, the verb descriptors and the two write-side views
    (resourceful/views.py). */
module Views {
  import opened Py
  import opened Decorators

  /** One entry of `dir(cls)`: the attribute's name, the tag reflection finds on it (if any),
      and the identity of the function it holds. */
  datatype Attribute = Attribute(name: string, tag: Option<Tag>, fn: nat)

  /** A resolved hook: a tagged attribute together with its stage and priority. */
  datatype Hook = Hook(name: string, stage: string, priority: int, fn: nat)

  /** `getattr(cls, name)` on a class attribute holding the function object `f`. */
  function Reflect(name: string, f: PyFunction): (a: Attribute)
    reads f
    ensures a.name == name && a.fn == f.id && a.tag == f.TagOf()
  {
    Attribute(name, f.TagOf(), f.id)
  }

  /** A function decorated with a stage decorator, then read back by `resolve_processors`
      under `name`: the attribute is tagged with that stage at priority 0 and yields the hook
      of that function. */
  method ReflectDecorated(name: string, stage: Stage, f: PyFunction) returns (a: Attribute)
    modifies f
    ensures a.tag == Some(Tag(StageName(stage), 0))
    ensures HookOf(a) == Hook(name, StageName(stage), 0, f.id)
  {
    var d := Decorate(stage, Callable(f));
    a := Reflect(name, f);
  }

  predicate Tagged(a: Attribute, stage: string) {
    a.tag.Some? && a.tag.value.stage == stage
  }

  function HookOf(a: Attribute): (h: Hook)
    requires a.tag.Some?
    ensures h.name == a.name && h.stage == a.tag.value.stage && h.priority == a.tag.value.priority
  {
    Hook(a.name, a.tag.value.stage, a.tag.value.priority, a.fn)
  }

  /** `dir()` lists names sorted and without repetition. */
  predicate NamesAscending(attrs: seq<Attribute>) {
    forall i, j :: 0 <= i < j < |attrs| ==> NameLess(attrs[i].name, attrs[j].name)
  }

  /** The hooks of `stage`, in `dir()` order: what the first loop of `resolve_processors`
      appends to `processors[stage]`. */
  function Group(attrs: seq<Attribute>, stage: string): seq<Hook>
    decreases |attrs|
  {
    if attrs == [] then []
    else
      var last := attrs[|attrs| - 1];
      Group(attrs[..|attrs| - 1], stage) + if Tagged(last, stage) then [HookOf(last)] else []
  }

  /** The stage names carried by tagged attributes: the keys of the resolved table. */
  function Stages(attrs: seq<Attribute>): set<string> {
    set i | 0 <= i < |attrs| && attrs[i].tag.Some? :: attrs[i].tag.value.stage
  }

  // ---------------------------------------------------------------------------------------
  // The sort: `sorted(methods, key=priority, reverse=True)`, which Python keeps stable.

  predicate NonIncreasing(s: seq<Hook>) {
    forall i, j :: 0 <= i < j < |s| ==> s[i].priority >= s[j].priority
  }

  /** The hooks of priority `p`, in the order they appear in `s`. */
  function AtPriority(s: seq<Hook>, p: int): seq<Hook>
    decreases |s|
  {
    if s == [] then [] else (if s[0].priority == p then [s[0]] else []) + AtPriority(s[1..], p)
  }

  /** Within one priority, names appear in ascending order. */
  predicate TiesByName(s: seq<Hook>) {
    forall i, j :: 0 <= i < j < |s| && s[i].priority == s[j].priority ==> NameLess(s[i].name, s[j].name)
  }

  /** Insert `h` just before the first hook whose priority is not greater than its own. */
  function InsertDesc(h: Hook, s: seq<Hook>): seq<Hook>
    decreases |s|
  {
    if s == [] || s[0].priority <= h.priority then [h] + s
    else [s[0]] + InsertDesc(h, s[1..])
  }

  function SortDesc(s: seq<Hook>): seq<Hook>
    decreases |s|
  {
    if s == [] then [] else InsertDesc(s[0], SortDesc(s[1..]))
  }

  lemma {:induction false} InsertPermutes(h: Hook, s: seq<Hook>)
    ensures multiset(InsertDesc(h, s)) == multiset(s) + multiset{h}
    decreases |s|
  {
    if s != [] && s[0].priority > h.priority {
      InsertPermutes(h, s[1..]);
      assert s == [s[0]] + s[1..];
    }
  }

  /** The sort is a permutation of its input. */
  lemma {:induction false} SortPermutes(s: seq<Hook>)
    ensures multiset(SortDesc(s)) == multiset(s)
    decreases |s|
  {
    if s != [] {
      SortPermutes(s[1..]);
      InsertPermutes(s[0], SortDesc(s[1..]));
      assert s == [s[0]] + s[1..];
    }
  }

  lemma {:induction false} InsertNonIncreasing(h: Hook, s: seq<Hook>)
    requires NonIncreasing(s)
    ensures NonIncreasing(InsertDesc(h, s))
    decreases |s|
  {
    if s != [] && s[0].priority > h.priority {
      InsertNonIncreasing(h, s[1..]);
      InsertPermutes(h, s[1..]);
      var r := InsertDesc(h, s);
      forall j | 0 < j < |r| ensures r[0].priority >= r[j].priority {
        var x := r[j];
        assert x in multiset(InsertDesc(h, s[1..]));
        if x != h {
          assert x in s[1..];
        }
      }
    }
  }

  /** The sort puts higher priorities first. */
  lemma {:induction false} SortNonIncreasing(s: seq<Hook>)
    ensures NonIncreasing(SortDesc(s))
    decreases |s|
  {
    if s != [] {
      SortNonIncreasing(s[1..]);
      InsertNonIncreasing(s[0], SortDesc(s[1..]));
    }
  }

  /** `AtPriority` of a sequence with a known first element. */
  lemma AtPriorityCons(x: Hook, t: seq<Hook>, p: int)
    ensures AtPriority([x] + t, p) == (if x.priority == p then [x] else []) + AtPriority(t, p)
  {
    assert ([x] + t)[1..] == t;
  }

  lemma {:induction false} InsertAtPriority(h: Hook, s: seq<Hook>, p: int)
    ensures AtPriority(InsertDesc(h, s), p) == (if h.priority == p then [h] else []) + AtPriority(s, p)
    decreases |s|
  {
    if s == [] || s[0].priority <= h.priority {
      AtPriorityCons(h, s, p);
    } else {
      var rest := InsertDesc(h, s[1..]);
      InsertAtPriority(h, s[1..], p);
      AtPriorityCons(s[0], rest, p);
      assert [s[0]] + s[1..] == s;
      AtPriorityCons(s[0], s[1..], p);
      if h.priority == p {
        // s[0] outranks h, so it is not of priority p
        assert AtPriority(InsertDesc(h, s), p) == [h] + AtPriority(s[1..], p);
      } else {
        assert AtPriority(InsertDesc(h, s), p) == (if s[0].priority == p then [s[0]] else []) + AtPriority(s[1..], p);
      }
    }
  }

  /** Stability: the sort keeps the relative order of hooks of equal priority. */
  lemma {:induction false} SortStable(s: seq<Hook>, p: int)
    ensures AtPriority(SortDesc(s), p) == AtPriority(s, p)
    decreases |s|
  {
    if s != [] {
      SortStable(s[1..], p);
      InsertAtPriority(s[0], SortDesc(s[1..]), p);
    }
  }

  lemma {:induction false} InsertTiesByName(h: Hook, s: seq<Hook>)
    requires TiesByName(s)
    requires forall x | x in s :: NameLess(h.name, x.name)
    ensures TiesByName(InsertDesc(h, s))
    decreases |s|
  {
    if s != [] && s[0].priority > h.priority {
      forall i, j | 0 <= i < j < |s[1..]| && s[1..][i].priority == s[1..][j].priority
        ensures NameLess(s[1..][i].name, s[1..][j].name)
      {
        assert s[1..][i] == s[i + 1] && s[1..][j] == s[j + 1];
      }
      InsertTiesByName(h, s[1..]);
      InsertPermutes(h, s[1..]);
      var r := InsertDesc(h, s);
      forall j | 0 < j < |r| && r[0].priority == r[j].priority ensures NameLess(r[0].name, r[j].name) {
        var x := r[j];
        assert x in multiset(InsertDesc(h, s[1..]));
        if x != h {
          assert x in s[1..];
          var k :| 0 <= k < |s[1..]| && s[1..][k] == x;
          assert s[k + 1] == x;
        }
      }
    }
  }

  /** Over an input listed by ascending name, equal priorities come out in name order. */
  lemma {:induction false} SortTiesByName(s: seq<Hook>)
    requires forall i, j :: 0 <= i < j < |s| ==> NameLess(s[i].name, s[j].name)
    ensures TiesByName(SortDesc(s))
    decreases |s|
  {
    if s != [] {
      var t := s[1..];
      forall i, j | 0 <= i < j < |t| ensures NameLess(t[i].name, t[j].name) {
        assert t[i] == s[i + 1] && t[j] == s[j + 1];
      }
      SortTiesByName(t);
      SortPermutes(t);
      forall x | x in SortDesc(t) ensures NameLess(s[0].name, x.name) {
        assert x in multiset(t);
        var k :| 0 <= k < |t| && t[k] == x;
        assert s[k + 1] == x;
      }
      InsertTiesByName(s[0], SortDesc(t));
    }
  }

  // ---------------------------------------------------------------------------------------
  // Resolution.

  /** The stage table `resolve_processors` returns: every stage some attribute is tagged with,
      mapped to that stage's hooks sorted by descending priority. */
  function ResolveSpec(attrs: seq<Attribute>): map<string, seq<Hook>> {
    map s | s in Stages(attrs) :: SortDesc(Group(attrs, s))
  }

  /** `processors[stage]` on the defaultdict: a stage without hooks yields an empty list. */
  function Processors(table: map<string, seq<Hook>>, stage: string): seq<Hook> {
    if stage in table then table[stage] else []
  }

  lemma {:induction false} GroupMembers(attrs: seq<Attribute>, stage: string, h: Hook)
    ensures h in Group(attrs, stage) <==> exists j :: 0 <= j < |attrs| && Tagged(attrs[j], stage) && HookOf(attrs[j]) == h
    decreases |attrs|
  {
    if attrs != [] {
      var init := attrs[..|attrs| - 1];
      GroupMembers(init, stage, h);
      if exists j :: 0 <= j < |attrs| && Tagged(attrs[j], stage) && HookOf(attrs[j]) == h {
        var j :| 0 <= j < |attrs| && Tagged(attrs[j], stage) && HookOf(attrs[j]) == h;
        if j < |init| {
          assert init[j] == attrs[j];
        }
      }
      if exists j :: 0 <= j < |init| && Tagged(init[j], stage) && HookOf(init[j]) == h {
        var j :| 0 <= j < |init| && Tagged(init[j], stage) && HookOf(init[j]) == h;
        assert attrs[j] == init[j];
      }
    }
  }

  lemma {:induction false} NoTagNoGroup(attrs: seq<Attribute>, stage: string)
    requires stage !in Stages(attrs)
    ensures Group(attrs, stage) == []
    decreases |attrs|
  {
    if attrs != [] {
      var init := attrs[..|attrs| - 1];
      assert Stages(init) <= Stages(attrs) by {
        forall s | s in Stages(init) ensures s in Stages(attrs) {
          var i :| 0 <= i < |init| && init[i].tag.Some? && init[i].tag.value.stage == s;
          assert attrs[i] == init[i];
        }
      }
      NoTagNoGroup(init, stage);
      var k := |attrs| - 1;
      assert !(attrs[k].tag.Some? && attrs[k].tag.value.stage == stage);
    }
  }

  lemma {:induction false} GroupTiesByName(attrs: seq<Attribute>, stage: string)
    requires NamesAscending(attrs)
    ensures forall i, j :: 0 <= i < j < |Group(attrs, stage)| ==>
      NameLess(Group(attrs, stage)[i].name, Group(attrs, stage)[j].name)
    decreases |attrs|
  {
    if attrs != [] {
      var init := attrs[..|attrs| - 1];
      var last := attrs[|attrs| - 1];
      assert NamesAscending(init) by {
        forall i, j | 0 <= i < j < |init| ensures NameLess(init[i].name, init[j].name) {
          assert init[i] == attrs[i] && init[j] == attrs[j];
        }
      }
      GroupTiesByName(init, stage);
      var g := Group(init, stage);
      var r := Group(attrs, stage);
      if Tagged(last, stage) {
        forall i, j | 0 <= i < j < |r| ensures NameLess(r[i].name, r[j].name) {
          if j == |g| {
            GroupMembers(init, stage, r[i]);
            assert r[i] in g;
            var k :| 0 <= k < |init| && Tagged(init[k], stage) && HookOf(init[k]) == r[i];
            assert attrs[k] == init[k];
          } else {
            assert r[i] == g[i] && r[j] == g[j];
          }
        }
      }
    }
  }

  /** One more attribute of the `dir()` listing: its stage joins the keys, its hook the end of
      its stage's group. */
  lemma PrefixStep(attrs: seq<Attribute>, i: nat)
    requires i < |attrs|
    ensures Stages(attrs[..i + 1]) == Stages(attrs[..i]) + (if attrs[i].tag.Some? then {attrs[i].tag.value.stage} else {})
    ensures forall s :: Group(attrs[..i + 1], s) == Group(attrs[..i], s) + if Tagged(attrs[i], s) then [HookOf(attrs[i])] else []
  {
    var pre, post, a := attrs[..i], attrs[..i + 1], attrs[i];
    assert post[..i] == pre && post[i] == a;
    forall s | s in Stages(post) ensures s in Stages(pre) + (if a.tag.Some? then {a.tag.value.stage} else {}) {
      var k :| 0 <= k < |post| && post[k].tag.Some? && post[k].tag.value.stage == s;
      if k < i {
        assert pre[k] == post[k];
      }
    }
    forall s | s in Stages(pre) ensures s in Stages(post) {
      var k :| 0 <= k < |pre| && pre[k].tag.Some? && pre[k].tag.value.stage == s;
      assert post[k] == pre[k];
    }
  }

  /** `resolve_processors(cls)`: one pass over `dir(cls)` appending each tagged attribute to
      its stage's list, then each list replaced by its sorted copy. Untagged attributes are
      skipped (the AttributeError is suppressed); no stage name is rejected. */
  method ResolveProcessors(attrs: seq<Attribute>) returns (table: map<string, seq<Hook>>)
    ensures table == ResolveSpec(attrs)
  {
    var groups := GroupByStage(attrs);
    table := SortStages(groups);
    assert table.Keys == ResolveSpec(attrs).Keys;
  }

  /** The second loop of `resolve_processors`: replace every stage's list by its sorted copy. */
  method SortStages(groups: map<string, seq<Hook>>) returns (table: map<string, seq<Hook>>)
    ensures table.Keys == groups.Keys
    ensures forall s | s in table :: table[s] == SortDesc(groups[s])
  {
    table := groups;
    var todo := groups.Keys;
    while todo != {}
      invariant todo <= groups.Keys && table.Keys == groups.Keys
      invariant forall s | s in table :: table[s] == if s in todo then groups[s] else SortDesc(groups[s])
      decreases todo
    {
      var s :| s in todo;
      table := table[s := SortDesc(table[s])];
      todo := todo - {s};
    }
  }

  /** The first loop of `resolve_processors`: append every tagged attribute, in `dir()` order,
      to the list its stage has in a defaultdict. */
  method GroupByStage(attrs: seq<Attribute>) returns (groups: map<string, seq<Hook>>)
    ensures groups.Keys == Stages(attrs)
    ensures forall s | s in groups :: groups[s] == Group(attrs, s)
  {
    groups := map[];
    for i := 0 to |attrs|
      invariant groups.Keys == Stages(attrs[..i])
      invariant forall s | s in groups :: groups[s] == Group(attrs[..i], s)
    {
      PrefixStep(attrs, i);
      var a := attrs[i];
      if a.tag.Some? {
        var stage := a.tag.value.stage;
        var hooks := if stage in groups then groups[stage] else [];
        if stage !in groups {
          NoTagNoGroup(attrs[..i], stage);
        }
        groups := groups[stage := hooks + [HookOf(a)]];
      }
    }
    assert attrs[..|attrs|] == attrs;
  }

  /** Resolving the same class twice yields identical tables. */
  method ResolveTwice(attrs: seq<Attribute>) returns (first: map<string, seq<Hook>>, second: map<string, seq<Hook>>)
    ensures first == second
  {
    first := ResolveProcessors(attrs);
    second := ResolveProcessors(attrs);
  }

  /** Every tagged attribute appears in its own stage's list and in no other, untagged
      attributes appear nowhere, and each stage list is a permutation of that stage's tagged
      attributes in non-increasing priority order. */
  lemma ResolvedContents(attrs: seq<Attribute>, stage: string)
    ensures multiset(Processors(ResolveSpec(attrs), stage)) == multiset(Group(attrs, stage))
    ensures NonIncreasing(Processors(ResolveSpec(attrs), stage))
    ensures forall h :: h in Processors(ResolveSpec(attrs), stage) <==>
      exists j :: 0 <= j < |attrs| && Tagged(attrs[j], stage) && HookOf(attrs[j]) == h
  {
    if stage in Stages(attrs) {
      SortPermutes(Group(attrs, stage));
      SortNonIncreasing(Group(attrs, stage));
    } else {
      NoTagNoGroup(attrs, stage);
    }
    forall h ensures h in Processors(ResolveSpec(attrs), stage) <==>
      exists j :: 0 <= j < |attrs| && Tagged(attrs[j], stage) && HookOf(attrs[j]) == h
    {
      GroupMembers(attrs, stage, h);
      assert h in Processors(ResolveSpec(attrs), stage) <==> h in multiset(Group(attrs, stage));
    }
  }

  lemma {:induction false} GroupCountsOnce(attrs: seq<Attribute>, stage: string, j: nat)
    requires NamesAscending(attrs)
    requires j < |attrs| && Tagged(attrs[j], stage)
    ensures multiset(Group(attrs, stage))[HookOf(attrs[j])] == 1
    decreases |attrs|
  {
    var init := attrs[..|attrs| - 1];
    var last := attrs[|attrs| - 1];
    assert NamesAscending(init) by {
      forall a, b | 0 <= a < b < |init| ensures NameLess(init[a].name, init[b].name) {
        assert init[a] == attrs[a] && init[b] == attrs[b];
      }
    }
    if j == |attrs| - 1 {
      if HookOf(last) in Group(init, stage) {
        GroupMembers(init, stage, HookOf(last));
        var k :| 0 <= k < |init| && Tagged(init[k], stage) && HookOf(init[k]) == HookOf(last);
        assert attrs[k] == init[k];
        NameLessIrreflexive(last.name);
      }
    } else {
      assert init[j] == attrs[j];
      GroupCountsOnce(init, stage, j);
      if Tagged(last, stage) {
        NameLessIrreflexive(last.name);
        assert HookOf(last) != HookOf(attrs[j]);
      }
    }
  }

  /** With `dir()`'s distinct names, each tagged attribute occurs exactly once in its stage. */
  lemma ResolvedOnce(attrs: seq<Attribute>, stage: string, j: nat)
    requires NamesAscending(attrs)
    requires j < |attrs| && Tagged(attrs[j], stage)
    ensures multiset(Processors(ResolveSpec(attrs), stage))[HookOf(attrs[j])] == 1
  {
    ResolvedContents(attrs, stage);
    GroupCountsOnce(attrs, stage, j);
  }

  /** Stability over `dir()` order: within a stage, the hooks of one priority keep the order
      in which `dir()` lists them, so equal-priority hooks run in alphabetical name order. */
  lemma ResolvedTies(attrs: seq<Attribute>, stage: string)
    requires NamesAscending(attrs)
    ensures forall p :: AtPriority(Processors(ResolveSpec(attrs), stage), p) == AtPriority(Group(attrs, stage), p)
    ensures TiesByName(Processors(ResolveSpec(attrs), stage))
  {
    if stage in Stages(attrs) {
      forall p ensures AtPriority(Processors(ResolveSpec(attrs), stage), p) == AtPriority(Group(attrs, stage), p) {
        SortStable(Group(attrs, stage), p);
      }
      GroupTiesByName(attrs, stage);
      SortTiesByName(Group(attrs, stage));
    } else {
      NoTagNoGroup(attrs, stage);
    }
  }

  /** The hook `x` runs before the hook `y`. */
  predicate RunsBefore(hooks: seq<Hook>, x: Hook, y: Hook) {
    exists a, b :: 0 <= a < b < |hooks| && hooks[a] == x && hooks[b] == y
  }

  /** Two hooks of one stage: the higher priority runs first, and at equal priority the one
      `dir()` lists first (the smaller name) runs first. */
  lemma ResolvedOrder(attrs: seq<Attribute>, stage: string, i: nat, j: nat)
    requires NamesAscending(attrs)
    requires i < |attrs| && j < |attrs| && Tagged(attrs[i], stage) && Tagged(attrs[j], stage)
    requires attrs[i].tag.value.priority > attrs[j].tag.value.priority ||
             (attrs[i].tag.value.priority == attrs[j].tag.value.priority && i < j)
    ensures RunsBefore(Processors(ResolveSpec(attrs), stage), HookOf(attrs[i]), HookOf(attrs[j]))
  {
    var r := Processors(ResolveSpec(attrs), stage);
    var x, y := HookOf(attrs[i]), HookOf(attrs[j]);
    ResolvedContents(attrs, stage);
    ResolvedTies(attrs, stage);
    assert x in r && y in r;
    var a :| 0 <= a < |r| && r[a] == x;
    var b :| 0 <= b < |r| && r[b] == y;
    if i == j {
      assert false;
    }
    if i < j {
      assert NameLess(x.name, y.name);
    } else {
      assert NameLess(y.name, x.name);
    }
    NameLessIrreflexive(x.name);
    if b < a {
      assert r[b].priority >= r[a].priority;
      assert NameLess(y.name, x.name);
      NameLessAsymmetric(y.name, x.name);
      assert false;
    }
    assert a != b;
  }

  // ---------------------------------------------------------------------------------------
  // The interleaver.

  /** Hook bodies are opaque: `run(h, value, kwargs)` is what calling hook `h` returns. */
  type Kwargs<A> = map<string, A>

  /** The value threaded through `hooks` in order, each hook receiving the previous hook's
      result and the same keyword arguments; the first raise ends the fold. */
  function Fold<V, A>(hooks: seq<Hook>, arg: V, kwargs: Kwargs<A>, run: (Hook, V, Kwargs<A>) -> Result<V>): Result<V>
    decreases |hooks|
  {
    if hooks == [] then Ok(arg)
    else
      match run(hooks[0], arg, kwargs)
      case Ok(v) => Fold(hooks[1..], v, kwargs, run)
      case Raise(e) => Raise(e)
  }

  /** Folding over two lists one after the other is folding over their concatenation. */
  lemma {:induction false} FoldAppend<V, A>(xs: seq<Hook>, ys: seq<Hook>, arg: V, kwargs: Kwargs<A>, run: (Hook, V, Kwargs<A>) -> Result<V>)
    ensures Fold(xs + ys, arg, kwargs, run) ==
      if Fold(xs, arg, kwargs, run).Ok? then Fold(ys, Fold(xs, arg, kwargs, run).value, kwargs, run)
      else Fold(xs, arg, kwargs, run)
    decreases |xs|
  {
    if xs != [] {
      assert (xs + ys)[1..] == xs[1..] + ys && (xs + ys)[0] == xs[0];
      var first := run(xs[0], arg, kwargs);
      if first.Ok? {
        FoldAppend(xs[1..], ys, first.value, kwargs, run);
      }
    } else {
      assert xs + ys == ys;
    }
  }

  /** Hook `k` receives the value the hooks before it produced. */
  lemma FoldStep<V, A>(hooks: seq<Hook>, k: nat, arg: V, kwargs: Kwargs<A>, run: (Hook, V, Kwargs<A>) -> Result<V>)
    requires k < |hooks|
    ensures Fold(hooks[..k + 1], arg, kwargs, run) ==
      if Fold(hooks[..k], arg, kwargs, run).Ok? then run(hooks[k], Fold(hooks[..k], arg, kwargs, run).value, kwargs)
      else Fold(hooks[..k], arg, kwargs, run)
  {
    assert hooks[..k + 1] == hooks[..k] + [hooks[k]];
    FoldAppend(hooks[..k], [hooks[k]], arg, kwargs, run);
    var before := Fold(hooks[..k], arg, kwargs, run);
    if before.Ok? {
      var step := run(hooks[k], before.value, kwargs);
      assert Fold([hooks[k]], before.value, kwargs, run) == step by {
        if step.Ok? {
          assert [hooks[k]][1..] == [];
        }
      }
    }
  }

  /** A raising hook ends the stage: its exception is the result, unchanged, and the hooks
      after it can be anything at all. */
  lemma FailureStops<V, A>(hooks: seq<Hook>, other: seq<Hook>, k: nat, arg: V, kwargs: Kwargs<A>, run: (Hook, V, Kwargs<A>) -> Result<V>)
    requires k < |hooks| && k < |other| && hooks[..k + 1] == other[..k + 1]
    requires Fold(hooks[..k], arg, kwargs, run).Ok?
    requires run(hooks[k], Fold(hooks[..k], arg, kwargs, run).value, kwargs).Raise?
    ensures Fold(hooks, arg, kwargs, run) == run(hooks[k], Fold(hooks[..k], arg, kwargs, run).value, kwargs)
    ensures Fold(other, arg, kwargs, run) == Fold(hooks, arg, kwargs, run)
  {
    FoldStep(hooks, k, arg, kwargs, run);
    assert hooks == hooks[..k + 1] + hooks[k + 1..];
    assert other == other[..k + 1] + other[k + 1..];
    FoldAppend(hooks[..k + 1], hooks[k + 1..], arg, kwargs, run);
    FoldAppend(other[..k + 1], other[k + 1..], arg, kwargs, run);
  }

  /** A stage no attribute is tagged with, including a name that is no stage at all, runs no
      hook: interleaving it returns the value unchanged. */
  lemma UntaggedStageIsIdentity<V, A>(attrs: seq<Attribute>, stage: string, arg: V, kwargs: Kwargs<A>, run: (Hook, V, Kwargs<A>) -> Result<V>)
    requires forall i :: 0 <= i < |attrs| ==> !Tagged(attrs[i], stage)
    ensures Processors(ResolveSpec(attrs), stage) == []
    ensures Fold(Processors(ResolveSpec(attrs), stage), arg, kwargs, run) == Ok(arg)
  {
  }

  /** Reading `processors[name]` on a defaultdict inserts an empty list for a missing key. */
  function WithDefault(table: map<string, seq<Hook>>, name: string): (t: map<string, seq<Hook>>)
    ensures name in t && t.Keys == table.Keys + {name}
    ensures forall s :: Processors(t, s) == Processors(table, s)
  {
    if name in table then table else table[name := []]
  }

  // ---------------------------------------------------------------------------------------
  // Verb descriptors: the `_method` / `_code` class attributes and their inheritance.

  datatype ViewKind = View | ReadView | CreateView | UpdateView | PartialUpdateView | DeleteMixin | ArchiveView | DeleteView

  /** The method resolution order of each class (without `object`). */
  function Mro(k: ViewKind): seq<ViewKind> {
    match k
    case View => [View]
    case ReadView => [ReadView, View]
    case CreateView => [CreateView, View]
    case UpdateView => [UpdateView, View]
    case PartialUpdateView => [PartialUpdateView, UpdateView, View]
    case DeleteMixin => [DeleteMixin]
    case ArchiveView => [ArchiveView, DeleteMixin, View]
    case DeleteView => [DeleteView, DeleteMixin, View]
  }

  /** `_method` as declared in a class body (`Some(None)` is `_method = None`). */
  function OwnMethod(k: ViewKind): Option<Option<string>> {
    match k
    case View => Some(None)
    case ReadView => Some(Some("GET"))
    case CreateView => Some(Some("POST"))
    case UpdateView => Some(Some("PUT"))
    case PartialUpdateView => Some(Some("PATCH"))
    case DeleteMixin => Some(Some("DELETE"))
    case _ => None
  }

  /** `_code` as declared in a class body. */
  function OwnCode(k: ViewKind): Option<Option<int>> {
    match k
    case View => Some(None)
    case ReadView => Some(Some(200))
    case CreateView => Some(Some(201))
    case UpdateView => Some(Some(202))
    case DeleteMixin => Some(Some(204))
    case _ => None
  }

  /** Class attribute lookup: the declaration of the first class in the MRO that has one. */
  function Inherited<T>(mro: seq<ViewKind>, own: ViewKind -> Option<T>): (r: Option<T>)
    ensures r.Some? <==> exists i :: 0 <= i < |mro| && own(mro[i]).Some?
    ensures r.Some? ==> exists i :: 0 <= i < |mro| && own(mro[i]) == r && forall j :: 0 <= j < i ==> own(mro[j]).None?
    decreases |mro|
  {
    if mro == [] then None
    else if own(mro[0]).Some? then own(mro[0])
    else
      var r := Inherited(mro[1..], own);
      assert forall i :: 0 < i < |mro| ==> mro[i] == mro[1..][i - 1];
      r
  }

  /** `cls._method`. */
  function HttpMethod(k: ViewKind): Option<string> {
    Inherited(Mro(k), OwnMethod).GetOr(None)
  }

  /** `cls._code`. */
  function StatusCode(k: ViewKind): Option<int> {
    Inherited(Mro(k), OwnCode).GetOr(None)
  }

  /** Read GET/200, Create POST/201, Update PUT/202, PartialUpdate PATCH with the 202 it
      inherits, Archive and Delete DELETE/204 from DeleteMixin. */
  lemma VerbDescriptors()
    ensures HttpMethod(ReadView) == Some("GET") && StatusCode(ReadView) == Some(200)
    ensures HttpMethod(CreateView) == Some("POST") && StatusCode(CreateView) == Some(201)
    ensures HttpMethod(UpdateView) == Some("PUT") && StatusCode(UpdateView) == Some(202)
    ensures HttpMethod(PartialUpdateView) == Some("PATCH") && StatusCode(PartialUpdateView) == Some(202)
    ensures HttpMethod(ArchiveView) == Some("DELETE") && StatusCode(ArchiveView) == Some(204)
    ensures HttpMethod(DeleteView) == Some("DELETE") && StatusCode(DeleteView) == Some(204)
    ensures HttpMethod(View) == None && StatusCode(View) == None
  {
  }

  // ---------------------------------------------------------------------------------------
  // The view classes.

  /** A view class object: its kind (which fixes `_method` and `_code`), its `dir()` listing,
      and the class attribute `processors` (unset until `as_view` resolves it). */
  class ViewClass {
    const kind: ViewKind
    /** `cls._method`, looked up through the class's MRO when the class is defined. */
    const httpMethod: Option<string>
    var attributes: seq<Attribute>
    var processors: Option<map<string, seq<Hook>>>

    constructor (kind: ViewKind, attributes: seq<Attribute>)
      ensures this.kind == kind && this.attributes == attributes && processors == None
      ensures httpMethod == HttpMethod(kind)
    {
      this.kind := kind;
      httpMethod := HttpMethod(kind);
      this.attributes := attributes;
      processors := None;
    }

    /** `processors` holds the table resolved from the current attributes. */
    predicate Resolved()
      reads this
    {
      processors == Some(ResolveSpec(attributes))
    }

    /** `View.interleave(name, arg, **kwargs)`: fold `arg` through the hooks of stage `name`.
        A keyword named `self`, `name` or `arg` clashes with the method's own parameters and
        the call raises TypeError before the body runs. Otherwise, before `processors` is set
        the attribute lookup fails; once it is set, the lookup of a missing stage inserts an
        empty list and the value comes back unchanged. */
    method Interleave<V, A>(name: string, arg: V, kwargs: Kwargs<A>, run: (Hook, V, Kwargs<A>) -> Result<V>) returns (r: Result<V>)
      modifies this
      ensures attributes == old(attributes)
      ensures ("self" in kwargs || "name" in kwargs || "arg" in kwargs) ==>
        processors == old(processors) && r == Raise(MultipleValues)
      ensures "self" !in kwargs && "name" !in kwargs && "arg" !in kwargs && old(processors).None? ==>
        processors == None && r == Raise(AttributeError("processors"))
      ensures "self" !in kwargs && "name" !in kwargs && "arg" !in kwargs && old(processors).Some? ==>
        processors == Some(WithDefault(old(processors).value, name))
      ensures "self" !in kwargs && "name" !in kwargs && "arg" !in kwargs && old(processors).Some? ==>
        r == Fold(Processors(old(processors).value, name), arg, kwargs, run)
    {
      if "self" in kwargs || "name" in kwargs || "arg" in kwargs {
        ghost var p := if "self" in kwargs then "self" else if "name" in kwargs then "name" else "arg";
        assert p in ["self", "name", "arg"];
      }
      if PositionalClash(["self", "name", "arg"], kwargs) {
        return Raise(MultipleValues);
      }
      if processors.None? {
        return Raise(AttributeError("processors"));
      }
      ghost var table := processors.value;
      processors := Some(WithDefault(processors.value, name));
      var hooks := processors.value[name];
      var value := arg;
      for i := 0 to |hooks|
        invariant Fold(hooks, arg, kwargs, run) == Fold(hooks[i..], value, kwargs, run)
      {
        assert hooks[i..][1..] == hooks[i + 1..];
        match run(hooks[i], value, kwargs)
        case Ok(v) =>
          value := v;
        case Raise(e) =>
          return Raise(e);
      }
      r := Ok(value);
    }

    /** `DeleteView.save(model)`: run the `pre_save` hooks, hand their result to
        `delete_action`, and return None. The `post_save` hooks are never run. */
    method DeleteSave<V, A>(model: V, run: (Hook, V, Kwargs<A>) -> Result<V>, deleteAction: V -> Result<()>) returns (r: Result<()>)
      requires kind == DeleteView
      modifies this
      ensures attributes == old(attributes)
      ensures old(processors).None? ==> processors == None && r == Raise(AttributeError("processors"))
      ensures old(processors).Some? ==> processors == Some(WithDefault(old(processors).value, "pre_save"))
      ensures old(processors).Some? ==> r == DeleteOutcome(old(processors).value, model, run, deleteAction)
    {
      var m := Interleave("pre_save", model, map[], run);
      match m
      case Raise(e) =>
        r := Raise(e);
      case Ok(v) =>
        r := deleteAction(v);
    }
  }

  /** What `DeleteView.save` returns: the model after the `pre_save` hooks is deleted, and a
      raise from a hook or from the deletion propagates. */
  function DeleteOutcome<V, A>(table: map<string, seq<Hook>>, model: V, run: (Hook, V, Kwargs<A>) -> Result<V>, deleteAction: V -> Result<()>): Result<()> {
    match Fold(Processors(table, "pre_save"), model, map[], run)
    case Ok(v) => deleteAction(v)
    case Raise(e) => Raise(e)
  }

  /** Deletion never consults the hooks of any stage but `pre_save`: in particular the
      `post_save` hooks have no effect on it at all. */
  lemma DeleteIgnoresOtherStages<V, A>(t1: map<string, seq<Hook>>, t2: map<string, seq<Hook>>, model: V, run: (Hook, V, Kwargs<A>) -> Result<V>, deleteAction: V -> Result<()>)
    requires Processors(t1, "pre_save") == Processors(t2, "pre_save")
    ensures DeleteOutcome(t1, model, run, deleteAction) == DeleteOutcome(t2, model, run, deleteAction)
  {
  }

  /** A model object whose attributes `setattr` writes. */
  class Model {
    var fields: map<string, Value>
    constructor (fields: map<string, Value>)
      ensures this.fields == fields
    {
      this.fields := fields;
    }
  }

  /** `ArchiveView`'s own `_archive_column` and `_archive_value`; a subclass may override
      either class attribute, so `archive_model` takes the view's values as parameters. */
  const ArchiveColumn := "is_archived"
  const ArchiveValue := Bool(true)

  /** The fields of a model archived through `column` and `value`: `column` holds `value`,
      every other field as it was. */
  function Archived(fields: map<string, Value>, column: string, value: Value): (r: map<string, Value>)
    ensures column in r && r[column] == value
    ensures r.Keys == fields.Keys + {column}
    ensures forall k | k in fields && k != column :: r[k] == fields[k]
  {
    fields[column := value]
  }

  /** `ArchiveView.archive_model(model)` on a view whose `_archive_column` is `column` and
      whose `_archive_value` is `value`: set the column in place, return the same model. */
  method ArchiveModel(model: Model, column: string, value: Value) returns (r: Model)
    modifies model
    ensures r == model
    ensures model.fields == Archived(old(model.fields), column, value)
  {
    model.fields := model.fields[column := value];
    r := model;
  }

  /** `archive_model` on `ArchiveView` itself, with its own column and value: the model
      ends up flagged `is_archived = True`, every other field and no field more untouched. */
  method ArchiveWithDefaults(model: Model) returns (r: Model)
    modifies model
    ensures r == model
    ensures "is_archived" in model.fields && model.fields["is_archived"] == Bool(true)
    ensures model.fields.Keys == old(model.fields).Keys + {"is_archived"}
    ensures forall k | k in old(model.fields) && k != "is_archived" :: model.fields[k] == old(model.fields)[k]
  {
    r := ArchiveModel(model, ArchiveColumn, ArchiveValue);
  }

  /** `archive_model` is declared with `@resourceful.pre_save`: stage pre_save, priority 0. */
  function ArchiveModelAttribute(fn: nat): Attribute {
    Attribute("archive_model", Some(Tag("pre_save", 0)), fn)
  }

  /** On a class whose only tagged attribute is `archive_model`, the pre_save stage is that
      one hook and post_save is empty. */
  lemma ArchiveViewHooks(attrs: seq<Attribute>, i: nat)
    requires i < |attrs| && attrs[i].tag.Some? && attrs[i] == ArchiveModelAttribute(attrs[i].fn)
    requires forall j :: 0 <= j < |attrs| && j != i ==> attrs[j].tag.None?
    ensures Processors(ResolveSpec(attrs), "pre_save") == [HookOf(attrs[i])]
    ensures Processors(ResolveSpec(attrs), "post_save") == []
  {
    GroupOfOne(attrs, i, "pre_save");
    assert SortDesc([HookOf(attrs[i])]) == [HookOf(attrs[i])] by {
      assert [HookOf(attrs[i])][1..] == [];
    }
    UntaggedStageIsIdentity(attrs, "post_save", 0, map[], (h: Hook, v: int, kw: Kwargs<int>) => Ok(v));
    assert "pre_save" in Stages(attrs) by {
      assert attrs[i].tag.Some? && attrs[i].tag.value.stage == "pre_save";
    }
  }

  lemma {:induction false} GroupOfOne(attrs: seq<Attribute>, i: nat, stage: string)
    requires i < |attrs| && Tagged(attrs[i], stage)
    requires forall j :: 0 <= j < |attrs| && j != i ==> attrs[j].tag.None?
    ensures Group(attrs, stage) == [HookOf(attrs[i])]
    decreases |attrs|
  {
    var init := attrs[..|attrs| - 1];
    if i == |attrs| - 1 {
      forall j | 0 <= j < |init| ensures init[j].tag.None? {
        assert init[j] == attrs[j];
      }
      NoTagNoGroup(init, stage);
    } else {
      forall j | 0 <= j < |init| && j != i ensures init[j].tag.None? {
        assert init[j] == attrs[j];
      }
      assert init[i] == attrs[i];
      GroupOfOne(init, i, stage);
    }
  }

  /** The tagged attributes of a create view declaring `set_first_name` (pre_load) and
      `set_last_name`, `set_run_task` (post_load), all at the default priority, as `dir()`
      lists them. */
  function CreateUsersAttributes(): seq<Attribute> {
    [Attribute("set_first_name", Some(Tag("pre_load", 0)), 0),
     Attribute("set_last_name", Some(Tag("post_load", 0)), 1),
     Attribute("set_run_task", Some(Tag("post_load", 0)), 2)]
  }

  /** Name order decides between the two post_load hooks: `set_last_name` runs before
      `set_run_task`. */
  lemma CreateUsersPostLoadOrder()
    ensures Processors(ResolveSpec(CreateUsersAttributes()), "post_load") ==
      [Hook("set_last_name", "post_load", 0, 1), Hook("set_run_task", "post_load", 0, 2)]
    ensures Processors(ResolveSpec(CreateUsersAttributes()), "pre_load") == [Hook("set_first_name", "pre_load", 0, 0)]
  {
    var attrs := CreateUsersAttributes();
    var last, run := Hook("set_last_name", "post_load", 0, 1), Hook("set_run_task", "post_load", 0, 2);
    assert attrs[..2][..1] == attrs[..1] && attrs[..1][..0] == [];
    assert Group(attrs[..1], "post_load") == [];
    assert Group(attrs[..2], "post_load") == [last];
    assert Group(attrs, "post_load") == [last, run];
    assert Group(attrs[..1], "pre_load") == [HookOf(attrs[0])];
    assert Group(attrs[..2], "pre_load") == [HookOf(attrs[0])];
    assert Group(attrs, "pre_load") == [HookOf(attrs[0])];
    assert SortDesc([last, run]) == [last, run] by {
      assert [last, run][1..] == [run];
      assert [run][1..] == [];
      assert SortDesc([run]) == [run];
      assert InsertDesc(last, [run]) == [last, run];
    }
    assert SortDesc([HookOf(attrs[0])]) == [HookOf(attrs[0])] by {
      assert [HookOf(attrs[0])][1..] == [];
    }
    assert "post_load" in Stages(attrs) by {
      assert Tagged(attrs[1], "post_load");
    }
    assert "pre_load" in Stages(attrs) by {
      assert Tagged(attrs[0], "pre_load");
    }
  }
}
