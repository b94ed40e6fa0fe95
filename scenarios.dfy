/**
 * The plugin test suite's scenarios, run against the model: each method
 * builds the plugins and the application the scenario describes, drives
 * them through the manager, and states in its postcondition what the
 * scenario asserts.
 */
module Scenarios {
  import opened Common
  import opened Identity
  import opened Extensions
  import opened Services
  import opened Lifecycle
  import opened LifecycleProperties

  /** A plugin with an explicit id and nothing else but the given activator, contributions and services. */
  method NewPlugin(id: string, activator: Option<string>, contributions: seq<Contribution<Item>>, services: seq<ServiceDecl>)
    returns (p: Plugin)
    ensures fresh(p) && p.id == id && p.activator == activator && p.contributions == contributions && p.services == services
    ensures p.startError.None? && p.stopError.None? && p.application.None?
  {
    p := new Plugin(Some(id), None, "Plugin" + id, activator, [], contributions, services, [], None, None);
  }

  /** A plugin whose only attributes are the given `Service(P)` consumers. */
  method NewConsumer(id: string, refs: seq<ServiceRef>) returns (p: Plugin)
    ensures fresh(p) && p.id == id && p.serviceRefs == refs
    ensures p.activator.None? && p.contributions == [] && p.services == []
    ensures p.startError.None? && p.stopError.None? && p.application.None?
  {
    p := new Plugin(Some(id), None, "Plugin" + id, None, [], [], [], refs, None, None);
  }

  /** Plugin A of the extension scenarios: it declares the extension point x and contributes nothing. */
  method NewDeclarer() returns (a: Plugin)
    ensures fresh(a) && a.id == "A" && a.extensionPoints == ["x"] && a.contributions == [] && a.services == []
    ensures a.activator.None? && a.startError.None? && a.stopError.None? && a.application.None?
  {
    a := new Plugin(Some("A"), None, "PluginA", None, ["x"], [], [], [], None, None);
  }

  /** The id policy: the qualified type name, else the name, else the explicit id, which wins over a name. */
  lemma IdPolicy()
    ensures ResolveId(None, None, "enthought.envisage.plugin.Plugin") == "enthought.envisage.plugin.Plugin"
    ensures ResolveId(None, Some("fred"), "enthought.envisage.plugin.Plugin") == "fred"
    ensures ResolveId(Some("wilma"), None, "enthought.envisage.plugin.Plugin") == "wilma"
    ensures ResolveId(Some("wilma"), Some("fred"), "enthought.envisage.plugin.Plugin") == "wilma"
  {
    IdIgnoresLowerPriorities(Some("wilma"), Some("fred"), None, "enthought.envisage.plugin.Plugin", "enthought.envisage.plugin.Plugin");
  }

  /** Starting or stopping one plugin whose hook returns normally. */
  lemma RunOne(phase: Phase, p: Plugin, ctx: Option<ContextId>, reg: Registry)
    requires HookError(phase, p).None?
    ensures RunAll(phase, [p], ctx, reg) == Run(PluginTrace(phase, p, ctx), Effect(phase, p, reg), Pass, 1)
  {
    assert [p][1..] == [];
    assert PluginTrace(phase, p, ctx) + [] == PluginTrace(phase, p, ctx);
  }

  /** Starting or stopping two plugins whose hooks return normally, in list order. */
  lemma RunTwo(phase: Phase, p: Plugin, q: Plugin, ctx: Option<ContextId>, reg: Registry)
    requires HookError(phase, p).None? && HookError(phase, q).None?
    ensures RunAll(phase, [p, q], ctx, reg) ==
            Run(PluginTrace(phase, p, ctx) + PluginTrace(phase, q, ctx), Effect(phase, q, Effect(phase, p, reg)), Pass, 2)
  {
    assert [p, q][1..] == [q];
    RunOne(phase, q, ctx, Effect(phase, p, reg));
  }

  /** A plugin with an activator: starting and stopping the application hands the plugin to the activator both times. */
  method ActivatorScenario() returns (a: Plugin, started: Outcome, stopped: Outcome, log: seq<Entry>)
    ensures started == Pass && stopped == Pass
    ensures Delegated(StartPhase, "NullPluginActivator", a) in log
    ensures Delegated(StopPhase, "NullPluginActivator", a) in log
  {
    a := NewPlugin("A", Some("NullPluginActivator"), [], []);
    var b := NewPlugin("B", None, [], []);
    var m := new PluginManager([a, b]);
    RunTwo(StartPhase, a, b, None, map[]);
    started := m.Start(None);
    ghost var log1 := m.log;
    assert Delegated(StartPhase, "NullPluginActivator", a) in log1 by {
      assert PluginTrace(StartPhase, a, None)[3] == Delegated(StartPhase, "NullPluginActivator", a);
    }
    assert Reverse([a, b]) == [b, a];
    RunTwo(StopPhase, b, a, None, m.services);
    stopped := m.Stop(None);
    log := m.log;
    assert log == log1 + PluginTrace(StopPhase, b, None) + PluginTrace(StopPhase, a, None);
    assert PluginTrace(StopPhase, a, None)[1] == Delegated(StopPhase, "NullPluginActivator", a);
    assert log[|log1| + |PluginTrace(StopPhase, b, None)| + 1] == Delegated(StopPhase, "NullPluginActivator", a);
    assert log1 <= log;
  }

  /** Three services of one plugin are found under their types while it runs, and none of them after it stops. */
  method ServiceScenario() returns (during: seq<Option<Instance>>, after: seq<Option<Instance>>)
    ensures during == [Some("a.foo"), Some("a.bar"), Some("a.baz")]
    ensures after == [None, None, None]
  {
    var ds := [
      ServiceDecl("foo", "Foo", None, "a.foo"),
      ServiceDecl("bar", "Bar", None, "a.bar"),
      ServiceDecl("baz", "Baz", None, "a.baz")];
    var a := NewPlugin("A", None, [], ds);
    var m := new PluginManager([a]);
    RunOne(StartPhase, a, None, map[]);
    var _ := m.Start(None);
    RegisterThenLookup(map[], "A", ds, 0);
    RegisterThenLookup(map[], "A", ds, 1);
    RegisterThenLookup(map[], "A", ds, 2);
    var foo := m.GetService("Foo");
    var bar := m.GetService("Bar");
    var baz := m.GetService("Baz");
    during := [foo, bar, baz];
    assert Reverse([a]) == [a];
    RunOne(StopPhase, a, None, m.services);
    var _ := m.Stop(None);
    StartThenStopClears([a], None, "Foo");
    StartThenStopClears([a], None, "Bar");
    StartThenStopClears([a], None, "Baz");
    foo := m.GetService("Foo");
    bar := m.GetService("Bar");
    baz := m.GetService("Baz");
    after := [foo, bar, baz];
  }

  /** A service declared with `service_protocol=IBar` is found under IBar, not under its type, and is gone after stop. */
  method ProtocolScenario() returns (underProtocol: Option<Instance>, underType: Option<Instance>, after: Option<Instance>)
    ensures underProtocol == Some("a.foo") && underType == None && after == None
  {
    var d := ServiceDecl("foo", "Foo", Some("IBar"), "a.foo");
    var a := NewPlugin("A", None, [], [d]);
    var m := new PluginManager([a]);
    RunOne(StartPhase, a, None, map[]);
    var _ := m.Start(None);
    ProtocolOverride(map[], "A", d);
    underProtocol := m.GetService("IBar");
    underType := m.GetService("Foo");
    assert Reverse([a]) == [a];
    RunOne(StopPhase, a, None, m.services);
    var _ := m.Stop(None);
    StartThenStopClears([a], None, "IBar");
    after := m.GetService("IBar");
  }

  /**
   * Plugin B's `Service(Foo)` attribute reads plugin A's `foo` service while
   * the application runs and None after it stops; assigning to it raises
   * `SystemError` and leaves what it reads unchanged.
   */
  method ServiceConsumerScenario() returns (provided: Instance, seen: Option<Instance>, seenAfter: Option<Instance>,
                                            assignment: Outcome, seenAfterAssignment: Option<Instance>)
    ensures provided == "a.foo" && seen == Some(provided) && seenAfter == None
    ensures assignment == Fail(ServiceNotAssignable("foo")) && seenAfterAssignment == None
  {
    var d := ServiceDecl("foo", "Foo", None, "a.foo");
    var a := NewPlugin("A", None, [], [d]);
    var b := NewConsumer("B", [ServiceRef("foo", "Foo")]);
    provided := a.services[0].instance;
    var m := new PluginManager([a, b]);
    RunTwo(StartPhase, a, b, None, map[]);
    var _ := m.Start(None);
    RegisterThenLookup(map[], "A", [d], 0);
    assert Register(Register(map[], "A", [d]), "B", []) == Register(map[], "A", [d]);
    seen := m.ReadServiceAttribute(b, "foo");
    assert Reverse([a, b]) == [b, a];
    RunTwo(StopPhase, b, a, None, m.services);
    var _ := m.Stop(None);
    StartThenStopClears([a, b], None, "Foo");
    seenAfter := m.ReadServiceAttribute(b, "foo");
    assignment := m.AssignAttribute(b, "foo", "bogus");
    seenAfterAssignment := m.ReadServiceAttribute(b, "foo");
  }

  /**
   * A plugin with two attributes feeding `x` makes reading `x` fail with a
   * `ValueError`, whichever of `extension_point=` and `contributes_to=` tags them.
   */
  method AmbiguityScenario(tagX: Tag, tagY: Tag) returns (r: Result<seq<Item>>)
    ensures r == Err(AmbiguousContribution("x"))
  {
    var a := NewDeclarer();
    var b := NewPlugin("B", None, [
      Contribution("x", tagX, "x", Value([1, 2, 3])),
      Contribution("y", tagY, "x", Value([4, 5, 6]))], []);
    var m := new PluginManager([a, b]);
    SpanAmbiguous(b.contributions, 0, 1, "x");
    assert ContributionsOf([a, b]) == [[], b.contributions];
    r := m.GetExtensions("x");
  }

  /** The exception a contributor's initialiser raises comes out of `get_extensions` unchanged. */
  method ContributorFailureScenario() returns (r: Result<seq<Item>>)
    ensures r == Err(Raised("ZeroDivisionError"))
  {
    var a := NewDeclarer();
    var b := NewPlugin("B", None, [Contribution("x", ExtensionPointTag, "x", Raises("ZeroDivisionError"))], []);
    var m := new PluginManager([a, b]);
    SpanSingle(b.contributions, 0, "x");
    assert ContributionsOf([a, b]) == [[], b.contributions];
    r := m.GetExtensions("x");
  }

  /** A list of two plugins yields the first plugin's span followed by the second's. */
  lemma MergeTwo(cs0: seq<Contribution<Item>>, cs1: seq<Contribution<Item>>, pt: PointId)
    ensures Merge([cs0, cs1], pt) == Then(Span(cs0, pt), Span(cs1, pt))
  {
    assert [cs0, cs1][1..] == [cs1];
    MergeSingle(cs1, pt);
  }

  /** A plugin's single `contributes_to='x'` attribute feeds x alone, and its notification carries the list. */
  lemma OneFeed(c: Contribution<Item>, cache: map<PointId, seq<Item>>, adding: bool)
    requires c.eval.Value?
    ensures Targets([c]) == [c.point]
    ensures Span([c], c.point) == Ok(c.eval.items)
    ensures ChangeNotices(cache, [c], [c.point], adding) ==
            if c.point !in cache then []
            else if adding then [ExtensionsChanged(c.point, c.eval.items, [])]
            else [ExtensionsChanged(c.point, [], c.eval.items)]
  {
    OneTarget(c);
    SpanSingle([c], 0, c.point);
    OneNotice(c, cache, adding);
  }

  lemma OneTarget(c: Contribution<Item>)
    ensures Targets([c]) == [c.point]
  {
    assert [c][..0] == [];
  }

  lemma OneNotice(c: Contribution<Item>, cache: map<PointId, seq<Item>>, adding: bool)
    requires c.eval.Value? && Span([c], c.point) == Ok(c.eval.items)
    ensures ChangeNotices(cache, [c], [c.point], adding) ==
            if c.point !in cache then []
            else if adding then [ExtensionsChanged(c.point, c.eval.items, [])]
            else [ExtensionsChanged(c.point, [], c.eval.items)]
  {
    assert [c.point][..0] == [];
  }

  /** A single `contributes_to` attribute yields exactly its list. */
  method ContributesToScenario() returns (r: Result<seq<Item>>)
    ensures r == Ok([1, 2, 3])
  {
    var a := NewDeclarer();
    var b := NewPlugin("B", None, [Feed([1, 2, 3])], []);
    var m := new PluginManager([a, b]);
    SpanSingle(b.contributions, 0, "x");
    SpanNone(a.contributions, "x");
    assert ContributionsOf([a, b]) == [a.contributions, b.contributions];
    MergeTwo(a.contributions, b.contributions, "x");
    assert [] + [1, 2, 3] == [1, 2, 3];
    r := m.GetExtensions("x");
  }

  function Feed(items: seq<Item>): Contribution<Item>
  {
    Contribution("x", ContributesToTag, "x", Value(items))
  }

  /** Adds a plugin whose one attribute feeds x, after x was read, and reads x again. */
  method AddFeeding(m: PluginManager, p: Plugin, items: seq<Item>) returns (r: Result<seq<Item>>)
    requires m.Valid() && m.cache.Keys == {"x"} && p.contributions == [Feed(items)]
    modifies m
    ensures m.Valid() && m.plugins == old(m.plugins) + [p] && m.cache.Keys == {"x"}
    ensures m.log == old(m.log) + [ExtensionsChanged("x", items, [])]
    ensures m.cache["x"] == old(m.cache)["x"] + items && r == Ok(m.cache["x"])
  {
    OneFeed(Feed(items), m.cache, true);
    m.AddPlugin(p);
    r := m.GetExtensions("x");
  }

  /** Removes a plugin whose one attribute feeds x, after x was read, and reads x again. */
  method RemoveFeeding(m: PluginManager, p: Plugin, items: seq<Item>) returns (r: Result<seq<Item>>)
    requires m.Valid() && m.cache.Keys == {"x"} && p.contributions == [Feed(items)] && p in m.plugins
    modifies m
    ensures m.Valid() && m.cache.Keys == {"x"}
    ensures var k := Position(old(m.plugins), p); m.plugins == old(m.plugins)[..k] + old(m.plugins)[k + 1..]
    ensures m.log == old(m.log) + [ExtensionsChanged("x", [], items)]
    ensures r == Merge(ContributionsOf(m.plugins), "x")
  {
    OneFeed(Feed(items), m.cache, false);
    var _ := m.RemovePlugin(p);
    r := m.GetExtensions("x");
  }

  /**
   * An application started empty, to which plugin A, which declares x, is
   * added and then started; x is read once, and is empty.
   */
  method DeclarerOnly() returns (m: PluginManager, a: Plugin, r: Result<seq<Item>>)
    ensures fresh(m) && fresh(a) && m.Valid() && a.contributions == []
    ensures m.plugins == [a] && m.cache.Keys == {"x"} && m.cache["x"] == []
    ensures m.log == PluginTrace(StartPhase, a, None) && r == Ok([])
  {
    a := NewDeclarer();
    m := new PluginManager([]);
    var _ := m.Start(None);
    m.AddPlugin(a);
    assert Targets(a.contributions) == [];
    assert m.log == [] && m.cache == map[] && m.plugins == [a];
    var _ := m.StartPlugin(None, Some(a), None);
    assert m.log == PluginTrace(StartPhase, a, None);
    MergeSingle(a.contributions, "x");
    SpanNone(a.contributions, "x");
    assert ContributionsOf([a]) == [a.contributions];
    r := m.GetExtensions("x");
  }

  /**
   * The first half of the dynamic scenario: plugin A declares x and is
   * added to the running application and started, x is read, then B and C,
   * each contributing to x, are added.
   */
  method AddScenario() returns (m: PluginManager, a: Plugin, b: Plugin, c: Plugin, values: seq<Result<seq<Item>>>)
    ensures fresh(m) && m.Valid() && a != b && a != c && b != c
    ensures a.contributions == [] && b.contributions == [Feed([1, 2, 3])] && c.contributions == [Feed([4, 5, 6])]
    ensures m.plugins == [a, b, c] && m.cache.Keys == {"x"}
    ensures m.log == PluginTrace(StartPhase, a, None) +
                     [ExtensionsChanged("x", [1, 2, 3], []), ExtensionsChanged("x", [4, 5, 6], [])]
    ensures values == [Ok([]), Ok([1, 2, 3]), Ok([1, 2, 3, 4, 5, 6])]
  {
    var x0;
    m, a, x0 := DeclarerOnly();
    b := NewPlugin("B", None, [Feed([1, 2, 3])], []);
    c := NewPlugin("C", None, [Feed([4, 5, 6])], []);
    var x1 := AddFeeding(m, b, [1, 2, 3]);
    assert [] + [1, 2, 3] == [1, 2, 3];
    assert x1 == Ok([1, 2, 3]) && m.cache["x"] == [1, 2, 3];
    var x2 := AddFeeding(m, c, [4, 5, 6]);
    assert [1, 2, 3] + [4, 5, 6] == [1, 2, 3, 4, 5, 6];
    assert x2 == Ok([1, 2, 3, 4, 5, 6]);
    values := [x0, x1, x2];
  }

  /**
   * Plugins added to and removed from a running application: the point x,
   * once read, follows every change, and each change is announced with
   * exactly the list that came or went.
   */
  method DynamicScenario() returns (values: seq<Result<seq<Item>>>, notices: seq<Entry>)
    ensures values == [Ok([]), Ok([1, 2, 3]), Ok([1, 2, 3, 4, 5, 6]), Ok([4, 5, 6]), Ok([])]
    ensures notices == [ExtensionsChanged("x", [1, 2, 3], []), ExtensionsChanged("x", [4, 5, 6], []),
                        ExtensionsChanged("x", [], [1, 2, 3]), ExtensionsChanged("x", [], [4, 5, 6])]
  {
    var m, a, b, c, added := AddScenario();

    assert Position([a, b, c], b) == 1;
    assert [a, b, c][..1] + [a, b, c][2..] == [a, c];
    var x3 := RemoveFeeding(m, b, [1, 2, 3]);
    assert x3 == Ok([4, 5, 6]) by {
      assert ContributionsOf([a, c]) == [a.contributions, c.contributions];
      MergeTwo(a.contributions, c.contributions, "x");
      SpanNone(a.contributions, "x");
      OneFeed(Feed([4, 5, 6]), map[], false);
      assert [] + [4, 5, 6] == [4, 5, 6];
    }

    assert Position([a, c], c) == 1;
    assert [a, c][..1] + [a, c][2..] == [a];
    var x4 := RemoveFeeding(m, c, [4, 5, 6]);
    assert x4 == Ok([]) by {
      assert ContributionsOf([a]) == [a.contributions];
      MergeSingle(a.contributions, "x");
      SpanNone(a.contributions, "x");
    }

    values := added + [x3, x4];
    notices := m.log[|PluginTrace(StartPhase, a, None)|..];
  }
}
