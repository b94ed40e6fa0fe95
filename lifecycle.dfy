/**
 * The plugin manager: an ordered list of plugins that it starts in
 * registration order and stops in the reverse order, firing the
 * "starting"/"started" and "stopping"/"stopped" events around each
 * plugin's own hook.
 *
 * Everything the manager makes observable is appended to `log`: the
 * attachment of the application context, the forced discovery of the
 * plugin's extension points, the four lifecycle events, the run of each
 * hook, and the "items changed" notifications of extension points. The
 * manager also holds the application's service registry and its cache of
 * extension-point values.
 */
module Lifecycle {
  import opened Common
  import opened Identity
  import opened Extensions
  import opened Services

  /** The application object handed to plugins (`plugin_context`), by name. */
  type ContextId = string

  /** The elements of extension-point lists. */
  type Item = int

  class Plugin {
    const id: string
    const name: Option<string>
    /** The activator object that does the plugin's start/stop work, if it has one. */
    const activator: Option<string>
    /** The extension points the plugin declares. */
    const extensionPoints: seq<PointId>
    /** The plugin's attributes tagged as feeding an extension point, in declaration order. */
    const contributions: seq<Contribution<Item>>
    /** The plugin's attributes flagged as services, in declaration order. */
    const services: seq<ServiceDecl>
    /** The plugin's `Service(P)` attributes, which read the registry. */
    const serviceRefs: seq<ServiceRef>
    /** The exception the plugin's start work raises, if it raises. */
    const startError: Option<string>
    /** The exception the plugin's stop work raises, if it raises. */
    const stopError: Option<string>
    /** `plugin.application`, set by the manager when it starts the plugin. */
    var application: Option<ContextId>

    constructor (explicitId: Option<string>, name: Option<string>, typeName: string, activator: Option<string>,
                 extensionPoints: seq<PointId>, contributions: seq<Contribution<Item>>, services: seq<ServiceDecl>,
                 serviceRefs: seq<ServiceRef>, startError: Option<string>, stopError: Option<string>)
      ensures id == ResolveId(explicitId, name, typeName)
      ensures this.name == name && this.activator == activator && this.extensionPoints == extensionPoints
      ensures this.contributions == contributions && this.services == services && this.serviceRefs == serviceRefs
      ensures this.startError == startError && this.stopError == stopError
      ensures application == None
    {
      this.id := ResolveId(explicitId, name, typeName);
      this.name := name;
      this.activator := activator;
      this.extensionPoints := extensionPoints;
      this.contributions := contributions;
      this.services := services;
      this.serviceRefs := serviceRefs;
      this.startError := startError;
      this.stopError := stopError;
      this.application := None;
    }
  }

  datatype Phase = StartPhase | StopPhase

  /** One observable step, in the order the manager takes it. */
  datatype Entry =
    | Attached(plugin: Plugin, context: Option<ContextId>)
    | Discovered(plugin: Plugin)
    | Starting(plugin: Plugin)
    | Started(plugin: Plugin)
    | Stopping(plugin: Plugin)
    | Stopped(plugin: Plugin)
    /** The plugin's own start or stop hook ran. */
    | Hook(phase: Phase, plugin: Plugin, context: Option<ContextId>)
    /** The plugin's activator was asked to start or stop it. */
    | Delegated(phase: Phase, activator: string, plugin: Plugin)
    /** The "items changed" notification of an extension point already read. */
    | ExtensionsChanged(point: PointId, added: seq<Item>, removed: seq<Item>)

  // ---------------------------------------------------------------------
  // Specification of one plugin's start or stop, and of a whole run
  // ---------------------------------------------------------------------

  function HookError(phase: Phase, p: Plugin): Option<string>
  {
    if phase == StartPhase then p.startError else p.stopError
  }

  /** What `plugin.start`/`plugin.stop` runs: the activator when there is one, else the plugin's own hook. */
  function HookEntry(phase: Phase, p: Plugin, ctx: Option<ContextId>): Entry
  {
    match p.activator
    case Some(a) => Delegated(phase, a, p)
    case None => Hook(phase, p, ctx)
  }

  /** The entries `start_plugin`/`stop_plugin` appends for the plugin `p`. */
  function PluginTrace(phase: Phase, p: Plugin, ctx: Option<ContextId>): seq<Entry>
  {
    var before := if phase == StartPhase then [Attached(p, ctx), Discovered(p), Starting(p)] else [Stopping(p)];
    before + [HookEntry(phase, p, ctx)] + After(phase, p)
  }

  /** The entries after a plugin's hook: "started" or "stopped" when the hook returned, nothing when it raised. */
  function After(phase: Phase, p: Plugin): seq<Entry>
  {
    if HookError(phase, p).Some? then [] else if phase == StartPhase then [Started(p)] else [Stopped(p)]
  }

  /** What a plugin's start or stop does to the service registry when its hook returns normally. */
  function Effect(phase: Phase, p: Plugin, reg: Registry): Registry
  {
    if phase == StartPhase then Register(reg, p.id, p.services) else Unregister(reg, p.id)
  }

  /** The result of starting or stopping plugins: entries appended, final registry, outcome, plugins attempted. */
  datatype Run = Run(trace: seq<Entry>, registry: Registry, outcome: Outcome, attempted: nat)

  function Step(phase: Phase, p: Plugin, ctx: Option<ContextId>, reg: Registry): Run
  {
    match HookError(phase, p)
    case Some(e) => Run(PluginTrace(phase, p, ctx), reg, Fail(Raised(e)), 1)
    case None => Run(PluginTrace(phase, p, ctx), Effect(phase, p, reg), Pass, 1)
  }

  /**
   * Starting (or stopping) the plugins `ps` one after the other. The first
   * hook that raises ends the run with its exception; the plugins already
   * handled stay as they are, since nothing is rolled back.
   */
  function RunAll(phase: Phase, ps: seq<Plugin>, ctx: Option<ContextId>, reg: Registry): Run
    decreases |ps|
  {
    if ps == [] then Run([], reg, Pass, 0)
    else
      var s := Step(phase, ps[0], ctx, reg);
      if s.outcome.Fail? then s
      else
        var rest := RunAll(phase, ps[1..], ctx, s.registry);
        Run(s.trace + rest.trace, rest.registry, rest.outcome, 1 + rest.attempted)
  }

  /**
   * A run passes exactly when every hook returns normally, and then every
   * plugin was attempted; a failed run stops at the first hook that raises,
   * with that hook's exception.
   */
  lemma {:induction false} RunAllOutcome(phase: Phase, ps: seq<Plugin>, ctx: Option<ContextId>, reg: Registry)
    ensures var r := RunAll(phase, ps, ctx, reg);
            r.attempted <= |ps| &&
            (r.outcome.Pass? <==> forall i :: 0 <= i < |ps| ==> HookError(phase, ps[i]).None?) &&
            (r.outcome.Pass? ==> r.attempted == |ps|) &&
            (r.outcome.Fail? ==>
               0 < r.attempted && HookError(phase, ps[r.attempted - 1]).Some? &&
               r.outcome == Fail(Raised(HookError(phase, ps[r.attempted - 1]).value)) &&
               forall i :: 0 <= i < r.attempted - 1 ==> HookError(phase, ps[i]).None?)
    decreases |ps|
  {
    if ps != [] {
      var s := Step(phase, ps[0], ctx, reg);
      if s.outcome.Pass? {
        RunAllOutcome(phase, ps[1..], ctx, s.registry);
        assert forall i :: 1 <= i < |ps| ==> ps[1..][i - 1] == ps[i];
      }
    }
  }

  // ---------------------------------------------------------------------
  // Helpers over the plugin list
  // ---------------------------------------------------------------------

  function Objects(ps: seq<Plugin>): set<Plugin>
  {
    set q | q in ps
  }

  function OptionObjects(plugin: Option<Plugin>): set<Plugin>
  {
    if plugin.Some? then {plugin.value} else {}
  }

  /** The position of the first plugin whose id is `id`, or `|ps|` when there is none. */
  function FirstIndex(ps: seq<Plugin>, id: string): (k: nat)
    ensures k <= |ps|
    ensures forall j :: 0 <= j < k ==> ps[j].id != id
    ensures k < |ps| ==> ps[k].id == id
    decreases |ps|
  {
    if ps == [] then 0
    else if ps[0].id == id then 0
    else
      assert forall j :: 1 <= j < |ps| ==> ps[1..][j - 1] == ps[j];
      1 + FirstIndex(ps[1..], id)
  }

  /** `get_plugin(id)`: the first plugin in list order with that id, or None. */
  function FirstWithId(ps: seq<Plugin>, id: string): (r: Option<Plugin>)
    ensures r.None? <==> forall j :: 0 <= j < |ps| ==> ps[j].id != id
    ensures r.Some? ==> r.value.id == id && r.value in ps
    ensures r.Some? ==> exists k :: 0 <= k < |ps| && ps[k] == r.value && forall j :: 0 <= j < k ==> ps[j].id != id
  {
    var k := FirstIndex(ps, id);
    if k < |ps| then Some(ps[k]) else None
  }

  /** The position of the first occurrence of `p`, or `|ps|` when it is absent. */
  function Position(ps: seq<Plugin>, p: Plugin): (k: nat)
    ensures k <= |ps|
    ensures forall j :: 0 <= j < k ==> ps[j] != p
    ensures k < |ps| ==> ps[k] == p
    decreases |ps|
  {
    if ps == [] then 0
    else if ps[0] == p then 0
    else
      assert forall j :: 1 <= j < |ps| ==> ps[1..][j - 1] == ps[j];
      1 + Position(ps[1..], p)
  }

  /**
   * `plugin or self.get_plugin(id)`: an explicit plugin is used as it is,
   * registered or not; otherwise the id is looked up. No plugin matches an
   * absent id, since every plugin has a string id.
   */
  function Resolve(ps: seq<Plugin>, plugin: Option<Plugin>, id: Option<string>): Option<Plugin>
  {
    if plugin.Some? then plugin
    else if id.Some? then FirstWithId(ps, id.value)
    else None
  }

  function ContributionsOf(ps: seq<Plugin>): (r: seq<seq<Contribution<Item>>>)
    ensures |r| == |ps| && forall i :: 0 <= i < |ps| ==> r[i] == ps[i].contributions
  {
    seq(|ps|, i requires 0 <= i < |ps| => ps[i].contributions)
  }

  /** The "items changed" notification for `pt` when `cache` holds it and the plugin's span there is fine. */
  function NoticeAt(cache: map<PointId, seq<Item>>, cs: seq<Contribution<Item>>, pt: PointId, adding: bool): seq<Entry>
  {
    var span := Span(cs, pt);
    if pt in cache && span.Ok? then
      [if adding then ExtensionsChanged(pt, span.value, []) else ExtensionsChanged(pt, [], span.value)]
    else []
  }

  /** The "items changed" notifications for the points in `ts`, in that order. */
  function ChangeNotices(cache: map<PointId, seq<Item>>, cs: seq<Contribution<Item>>, ts: seq<PointId>, adding: bool): seq<Entry>
    decreases |ts|
  {
    if ts == [] then []
    else ChangeNotices(cache, cs, ts[..|ts| - 1], adding) + NoticeAt(cache, cs, ts[|ts| - 1], adding)
  }

  /** One more step of a notification loop: the log grows by the notice of `ts[i]`. */
  lemma NoticesStep(log0: seq<Entry>, log1: seq<Entry>, cache: map<PointId, seq<Item>>,
                    cs: seq<Contribution<Item>>, ts: seq<PointId>, i: nat, adding: bool)
    requires i < |ts|
    requires log1 == log0 + ChangeNotices(cache, cs, ts[..i], adding)
    ensures log1 + NoticeAt(cache, cs, ts[i], adding) == log0 + ChangeNotices(cache, cs, ts[..i + 1], adding)
  {
    assert ts[..i + 1][..i] == ts[..i];
  }

  lemma ContributionsOfAppend(ps: seq<Plugin>, p: Plugin)
    ensures ContributionsOf(ps + [p]) == ContributionsOf(ps) + [p.contributions]
  {
  }

  lemma ContributionsOfRemove(ps: seq<Plugin>, k: nat)
    requires k < |ps|
    ensures ContributionsOf(ps[..k] + ps[k + 1..]) == ContributionsOf(ps)[..k] + ContributionsOf(ps)[k + 1..]
  {
    var a, b := ContributionsOf(ps[..k] + ps[k + 1..]), ContributionsOf(ps)[..k] + ContributionsOf(ps)[k + 1..];
    assert |a| == |b|;
    forall i | 0 <= i < |a| ensures a[i] == b[i] {
      if i < k {
        assert (ps[..k] + ps[k + 1..])[i] == ps[i];
      } else {
        assert (ps[..k] + ps[k + 1..])[i] == ps[i + 1];
      }
    }
  }

  /**
   * Part-way through a run over `ps` that started from `log0` and `reg0`:
   * after the first `i` plugins the log and registry are `log` and `reg`,
   * and the rest of the run accounts for the remainder of the whole.
   */
  ghost predicate RunSoFar(phase: Phase, ps: seq<Plugin>, ctx: Option<ContextId>, reg0: Registry, log0: seq<Entry>,
                           i: nat, log: seq<Entry>, reg: Registry)
  {
    i <= |ps| &&
    var full, rest := RunAll(phase, ps, ctx, reg0), RunAll(phase, ps[i..], ctx, reg);
    log0 + full.trace == log + rest.trace && full.registry == rest.registry &&
    full.outcome == rest.outcome && full.attempted == i + rest.attempted
  }

  lemma RunAllUnfold(phase: Phase, ps: seq<Plugin>, i: nat, ctx: Option<ContextId>, reg: Registry)
    requires i < |ps|
    ensures var s := Step(phase, ps[i], ctx, reg);
            RunAll(phase, ps[i..], ctx, reg) ==
              if s.outcome.Fail? then s
              else
                var rest := RunAll(phase, ps[i + 1..], ctx, s.registry);
                Run(s.trace + rest.trace, rest.registry, rest.outcome, 1 + rest.attempted)
  {
    assert ps[i..][0] == ps[i] && ps[i..][1..] == ps[i + 1..];
  }

  lemma RunSoFarStart(phase: Phase, ps: seq<Plugin>, ctx: Option<ContextId>, reg0: Registry, log0: seq<Entry>)
    ensures RunSoFar(phase, ps, ctx, reg0, log0, 0, log0, reg0)
  {
    assert ps[0..] == ps;
  }

  /** Once every plugin is through, the log and registry are those of the whole run. */
  lemma RunSoFarEnd(phase: Phase, ps: seq<Plugin>, ctx: Option<ContextId>, reg0: Registry, log0: seq<Entry>,
                    log: seq<Entry>, reg: Registry)
    requires RunSoFar(phase, ps, ctx, reg0, log0, |ps|, log, reg)
    ensures var full := RunAll(phase, ps, ctx, reg0);
            log == log0 + full.trace && reg == full.registry && full.outcome == Pass && full.attempted == |ps|
  {
    assert ps[|ps|..] == [];
  }

  /** When the next plugin's hook returns normally, the run goes on with one plugin more behind it. */
  lemma RunSoFarPass(phase: Phase, ps: seq<Plugin>, ctx: Option<ContextId>, reg0: Registry, log0: seq<Entry>,
                     i: nat, log: seq<Entry>, reg: Registry)
    requires i < |ps| && RunSoFar(phase, ps, ctx, reg0, log0, i, log, reg)
    requires Step(phase, ps[i], ctx, reg).outcome.Pass?
    ensures var s := Step(phase, ps[i], ctx, reg);
            RunSoFar(phase, ps, ctx, reg0, log0, i + 1, log + s.trace, s.registry)
  {
    RunAllUnfold(phase, ps, i, ctx, reg);
    var s := Step(phase, ps[i], ctx, reg);
    var rest := RunAll(phase, ps[i + 1..], ctx, s.registry);
    assert log + (s.trace + rest.trace) == (log + s.trace) + rest.trace;
  }

  /** When the next plugin's hook raises, the run ends there, exactly as the whole run ends. */
  lemma RunSoFarFail(phase: Phase, ps: seq<Plugin>, ctx: Option<ContextId>, reg0: Registry, log0: seq<Entry>,
                     i: nat, log: seq<Entry>, reg: Registry)
    requires i < |ps| && RunSoFar(phase, ps, ctx, reg0, log0, i, log, reg)
    requires Step(phase, ps[i], ctx, reg).outcome.Fail?
    ensures var s := Step(phase, ps[i], ctx, reg);
            var full := RunAll(phase, ps, ctx, reg0);
            log + s.trace == log0 + full.trace && s.registry == full.registry && s.outcome == full.outcome &&
            full.attempted == i + 1
  {
    RunAllUnfold(phase, ps, i, ctx, reg);
  }

  /** Appending a plugin whose span is appended to every cached value that survives keeps the cache consistent. */
  lemma AppendKeepsCache(ps: seq<Plugin>, p: Plugin, cache0: map<PointId, seq<Item>>, cache1: map<PointId, seq<Item>>)
    requires forall pt :: pt in cache0 ==> Merge(ContributionsOf(ps), pt) == Ok(cache0[pt])
    requires forall pt :: pt in cache1 ==>
               pt in cache0 && Span(p.contributions, pt).Ok? && cache1[pt] == cache0[pt] + Span(p.contributions, pt).value
    ensures forall pt :: pt in cache1 ==> Merge(ContributionsOf(ps + [p]), pt) == Ok(cache1[pt])
  {
    ContributionsOfAppend(ps, p);
    forall pt | pt in cache1 ensures Merge(ContributionsOf(ps + [p]), pt) == Ok(cache1[pt]) {
      MergeAppend(ContributionsOf(ps), p.contributions, pt);
    }
  }

  /**
   * Dropping the plugin at `k` from a list whose merge at `pt` succeeds:
   * the remaining plugins still merge, the plugin's own span there is fine,
   * and a point the plugin does not feed keeps its value.
   */
  lemma RemovalKeepsMerge(ps: seq<Plugin>, k: nat, pt: PointId)
    requires k < |ps| && Merge(ContributionsOf(ps), pt).Ok?
    ensures Span(ps[k].contributions, pt).Ok? && Merge(ContributionsOf(ps[..k] + ps[k + 1..]), pt).Ok?
    ensures pt !in Targets(ps[k].contributions) ==>
              Merge(ContributionsOf(ps[..k] + ps[k + 1..]), pt) == Merge(ContributionsOf(ps), pt)
  {
    ContributionsOfRemove(ps, k);
    MergeRemove(ContributionsOf(ps), k, pt);
  }

  /**
   * The cache part-way through `add_plugin`: the points in `done` that were
   * cached have the new plugin's span appended, or are dropped when that
   * span fails; the other cached points are untouched so far.
   */
  ghost function AddedUpTo(cache0: map<PointId, seq<Item>>, cs: seq<Contribution<Item>>, done: seq<PointId>): map<PointId, seq<Item>>
  {
    map pt | pt in cache0 && (pt in done ==> Span(cs, pt).Ok?) ::
      if pt in done then cache0[pt] + Span(cs, pt).value else cache0[pt]
  }

  lemma AddStep(cache0: map<PointId, seq<Item>>, cs: seq<Contribution<Item>>, ts: seq<PointId>, i: nat)
    requires i < |ts| && ts[i] !in ts[..i]
    ensures var c := AddedUpTo(cache0, cs, ts[..i]);
            var pt := ts[i];
            AddedUpTo(cache0, cs, ts[..i + 1]) ==
              if pt !in c then c
              else if Span(cs, pt).Ok? then c[pt := c[pt] + Span(cs, pt).value]
              else c - {pt}
  {
    assert ts[..i + 1] == ts[..i] + [ts[i]];
  }

  /** One step of the appending loop: the point `Targets(cs)[i]`, when cached, gets the span appended and a notice, or is dropped. */
  lemma AppendStep(cache0: map<PointId, seq<Item>>, log0: seq<Entry>, c: map<PointId, seq<Item>>, l: seq<Entry>,
                   cs: seq<Contribution<Item>>, i: nat)
    requires i < |Targets(cs)|
    requires c == AddedUpTo(cache0, cs, Targets(cs)[..i])
    requires l == log0 + ChangeNotices(cache0, cs, Targets(cs)[..i], true)
    ensures var ts, pt := Targets(cs), Targets(cs)[i];
            AddedUpTo(cache0, cs, ts[..i + 1]) ==
              (if pt !in c then c
               else if Span(cs, pt).Ok? then c[pt := c[pt] + Span(cs, pt).value]
               else c - {pt}) &&
            log0 + ChangeNotices(cache0, cs, ts[..i + 1], true) ==
              (if pt in c && Span(cs, pt).Ok? then l + [ExtensionsChanged(pt, Span(cs, pt).value, [])] else l)
  {
    var ts := Targets(cs);
    TargetsFresh(cs, i);
    AddStep(cache0, cs, ts, i);
    NoticesStep(log0, l, cache0, cs, ts, i, true);
  }

  /** Once every target was handled, the cache is the old one with the span appended where it is fine. */
  lemma AddedAll(cache0: map<PointId, seq<Item>>, cs: seq<Contribution<Item>>)
    ensures var c := AddedUpTo(cache0, cs, Targets(cs));
            (forall pt :: pt in c <==> pt in cache0 && Span(cs, pt).Ok?) &&
            (forall pt :: pt in c ==> c[pt] == cache0[pt] + Span(cs, pt).value)
  {
    forall pt | pt !in Targets(cs) ensures Span(cs, pt) == Ok([]) {
      NotTargetedSpanEmpty(cs, pt);
    }
    forall pt | pt in cache0 && pt !in Targets(cs) ensures cache0[pt] + Span(cs, pt).value == cache0[pt] {
      assert cache0[pt] + [] == cache0[pt];
    }
  }

  /**
   * The cache part-way through `remove_plugin`: the cached points in `done`
   * hold the merge of the remaining plugins; the others are untouched so far.
   */
  ghost function RemovedUpTo(cache0: map<PointId, seq<Item>>, css: seq<seq<Contribution<Item>>>, done: seq<PointId>): map<PointId, seq<Item>>
  {
    map pt | pt in cache0 :: if pt in done && Merge(css, pt).Ok? then Merge(css, pt).value else cache0[pt]
  }

  lemma RemoveStep(cache0: map<PointId, seq<Item>>, css: seq<seq<Contribution<Item>>>, ts: seq<PointId>, i: nat)
    requires i < |ts| && ts[i] !in ts[..i]
    requires ts[i] in cache0 ==> Merge(css, ts[i]).Ok?
    ensures var c := RemovedUpTo(cache0, css, ts[..i]);
            var pt := ts[i];
            c.Keys == cache0.Keys &&
            RemovedUpTo(cache0, css, ts[..i + 1]) == if pt in c then c[pt := Merge(css, pt).value] else c
  {
    assert ts[..i + 1] == ts[..i] + [ts[i]];
  }

  /** One step of the recomputation loop: the point `Targets(cs)[i]`, when cached, gets its new merge and a notice. */
  lemma RecomputeStep(cache0: map<PointId, seq<Item>>, log0: seq<Entry>, c: map<PointId, seq<Item>>, l: seq<Entry>,
                      cs: seq<Contribution<Item>>, css: seq<seq<Contribution<Item>>>, i: nat)
    requires forall pt :: pt in cache0 ==> Merge(css, pt).Ok? && Span(cs, pt).Ok?
    requires i < |Targets(cs)|
    requires c == RemovedUpTo(cache0, css, Targets(cs)[..i])
    requires l == log0 + ChangeNotices(cache0, cs, Targets(cs)[..i], false)
    ensures var ts, pt := Targets(cs), Targets(cs)[i];
            RemovedUpTo(cache0, css, ts[..i + 1]) == (if pt in c then c[pt := Merge(css, pt).value] else c) &&
            log0 + ChangeNotices(cache0, cs, ts[..i + 1], false) ==
              (if pt in c then l + [ExtensionsChanged(pt, [], Span(cs, pt).value)] else l)
  {
    var ts := Targets(cs);
    TargetsFresh(cs, i);
    RemoveStep(cache0, css, ts, i);
    NoticesStep(log0, l, cache0, cs, ts, i, false);
  }

  /**
   * Recomputing every cached point the removed plugin fed leaves a cache
   * with the same points, each holding the merge of the remaining plugins.
   */
  lemma RemovedAll(ps: seq<Plugin>, k: nat, cache0: map<PointId, seq<Item>>)
    requires k < |ps| && CacheConsistent(ps, cache0)
    ensures var css := ContributionsOf(ps[..k] + ps[k + 1..]);
            (forall pt :: pt in cache0 ==> Merge(css, pt).Ok? && Span(ps[k].contributions, pt).Ok?) &&
            var c := RemovedUpTo(cache0, css, Targets(ps[k].contributions));
            c.Keys == cache0.Keys && CacheConsistent(ps[..k] + ps[k + 1..], c)
  {
    forall pt | pt in cache0
      ensures Span(ps[k].contributions, pt).Ok? && Merge(ContributionsOf(ps[..k] + ps[k + 1..]), pt).Ok?
      ensures pt !in Targets(ps[k].contributions) ==>
                Merge(ContributionsOf(ps[..k] + ps[k + 1..]), pt) == Ok(cache0[pt])
    {
      RemovalKeepsMerge(ps, k, pt);
    }
  }

  /** Every cached extension-point value is the current merge of the plugins' contributions. */
  ghost predicate CacheConsistent(ps: seq<Plugin>, cache: map<PointId, seq<Item>>)
  {
    forall pt :: pt in cache ==> Merge(ContributionsOf(ps), pt) == Ok(cache[pt])
  }

  // ---------------------------------------------------------------------
  // The manager
  // ---------------------------------------------------------------------

  class PluginManager {
    /** The manager's plugins, in registration order. */
    var plugins: seq<Plugin>
    /** Everything observable the manager has done, oldest first. */
    var log: seq<Entry>
    /** The application's service registry. */
    var services: Registry
    /** Values of the extension points read so far. */
    var cache: map<PointId, seq<Item>>

    /** Every cached extension-point value is the current merge of the plugins' contributions. */
    ghost predicate Valid()
      reads this`plugins, this`cache
    {
      CacheConsistent(plugins, cache)
    }

    constructor (plugins: seq<Plugin>)
      ensures Valid()
      ensures this.plugins == plugins && log == [] && services == map[] && cache == map[]
    {
      this.plugins := plugins;
      log := [];
      services := map[];
      cache := map[];
    }

    /** `get_plugin(id)`: a linear search in which the first match wins. */
    method GetPlugin(id: string) returns (r: Option<Plugin>)
      ensures r == FirstWithId(plugins, id)
    {
      var i := 0;
      while i < |plugins|
        invariant 0 <= i <= |plugins|
        invariant forall j :: 0 <= j < i ==> plugins[j].id != id
      {
        if plugins[i].id == id {
          return Some(plugins[i]);
        }
        i := i + 1;
      }
      return None;
    }

    /**
     * `plugin.start(ctx)` or `plugin.stop(ctx)`: the activator or the
     * plugin's own hook runs; if it returns normally the plugin's services
     * are registered (on start) or unregistered (on stop).
     */
    method RunHook(phase: Phase, p: Plugin, ctx: Option<ContextId>) returns (r: Outcome)
      modifies this`log, this`services
      ensures log == old(log) + [HookEntry(phase, p, ctx)]
      ensures r == Step(phase, p, ctx, old(services)).outcome
      ensures services == Step(phase, p, ctx, old(services)).registry
    {
      log := log + [HookEntry(phase, p, ctx)];
      match HookError(phase, p)
      case Some(e) =>
        r := Fail(Raised(e));
      case None =>
        if phase == StartPhase {
          services := Register(services, p.id, p.services);
        } else {
          services := Unregister(services, p.id);
        }
        r := Pass;
    }

    /**
     * What `start_plugin` does once it has its plugin: attach the context,
     * force the discovery of its extension points, fire "starting", run its
     * start, and fire "started" when that returned normally.
     */
    method Launch(ctx: Option<ContextId>, p: Plugin) returns (r: Outcome)
      modifies this`log, this`services, p`application
      ensures var s := Step(StartPhase, p, ctx, old(services));
              p.application == ctx && log == old(log) + s.trace && services == s.registry && r == s.outcome
    {
      p.application := ctx;
      log := log + [Attached(p, ctx), Discovered(p), Starting(p)];
      r := RunHook(StartPhase, p, ctx);
      if r.Pass? {
        log := log + [Started(p)];
      }
    }

    /** What `stop_plugin` does once it has its plugin: fire "stopping", run its stop, fire "stopped" if it returned. */
    method Halt(ctx: Option<ContextId>, p: Plugin) returns (r: Outcome)
      modifies this`log, this`services
      ensures var s := Step(StopPhase, p, ctx, old(services));
              log == old(log) + s.trace && services == s.registry && r == s.outcome
    {
      log := log + [Stopping(p)];
      r := RunHook(StopPhase, p, ctx);
      if r.Pass? {
        log := log + [Stopped(p)];
      }
    }

    /** `start_plugin(plugin_context, plugin, id)`. */
    method StartPlugin(ctx: Option<ContextId>, plugin: Option<Plugin>, id: Option<string>) returns (r: Outcome)
      modifies this`log, this`services, Objects(plugins)`application, OptionObjects(plugin)`application
      ensures Resolve(plugins, plugin, id).None? ==>
                r == Fail(NoSuchPlugin(id)) && log == old(log) && services == old(services)
      ensures Resolve(plugins, plugin, id).Some? ==>
                var p := Resolve(plugins, plugin, id).value;
                var s := Step(StartPhase, p, ctx, old(services));
                p.application == ctx && log == old(log) + s.trace && services == s.registry && r == s.outcome
      ensures forall q :: q in Objects(plugins) + OptionObjects(plugin) && Some(q) != Resolve(plugins, plugin, id) ==>
                q.application == old(q.application)
    {
      var target := plugin;
      if target.None? && id.Some? {
        target := GetPlugin(id.value);
      }
      if target.None? {
        return Fail(NoSuchPlugin(id));
      }
      r := Launch(ctx, target.value);
    }

    /** `stop_plugin(plugin_context, plugin, id)`. */
    method StopPlugin(ctx: Option<ContextId>, plugin: Option<Plugin>, id: Option<string>) returns (r: Outcome)
      modifies this`log, this`services
      ensures Resolve(plugins, plugin, id).None? ==>
                r == Fail(NoSuchPlugin(id)) && log == old(log) && services == old(services)
      ensures Resolve(plugins, plugin, id).Some? ==>
                var s := Step(StopPhase, Resolve(plugins, plugin, id).value, ctx, old(services));
                log == old(log) + s.trace && services == s.registry && r == s.outcome
    {
      var target := plugin;
      if target.None? && id.Some? {
        target := GetPlugin(id.value);
      }
      if target.None? {
        return Fail(NoSuchPlugin(id));
      }
      r := Halt(ctx, target.value);
    }

    /**
     * `start(plugin_context)`: `start_plugin` on every plugin, in registration
     * order; the first exception ends it and is passed on.
     */
    method Start(ctx: Option<ContextId>) returns (r: Outcome)
      modifies this`log, this`services, plugins`application
      ensures var run := RunAll(StartPhase, plugins, ctx, old(services));
              log == old(log) + run.trace && services == run.registry && r == run.outcome &&
              run.attempted <= |plugins| &&
              forall q :: q in plugins ==> q.application == if q in plugins[..run.attempted] then ctx else old(q.application)
    {
      var ps := plugins;
      ghost var reg0, log0 := services, log;
      r := Pass;
      RunSoFarStart(StartPhase, ps, ctx, reg0, log0);
      var i := 0;
      while i < |ps|
        invariant RunSoFar(StartPhase, ps, ctx, reg0, log0, i, log, services) && r == Pass
        invariant forall q :: q in ps ==> q.application == if q in ps[..i] then ctx else old(q.application)
      {
        var p := ps[i];
        ghost var log1, reg1 := log, services;
        r := Launch(ctx, p);
        assert ps[..i + 1] == ps[..i] + [p];
        if r.Fail? {
          RunSoFarFail(StartPhase, ps, ctx, reg0, log0, i, log1, reg1);
          return;
        }
        RunSoFarPass(StartPhase, ps, ctx, reg0, log0, i, log1, reg1);
        i := i + 1;
      }
      RunSoFarEnd(StartPhase, ps, ctx, reg0, log0, log, services);
    }

    /** `stop_order = self.plugins[:]; stop_order.reverse()`: a copy of the list, reversed in place. */
    method StopOrder() returns (a: array<Plugin>)
      ensures fresh(a) && a[..] == Reverse(plugins)
    {
      var ps := plugins;
      a := new Plugin[|ps|](i requires 0 <= i < |ps| => ps[i]);
      var n := a.Length;
      var i := 0;
      while i < n / 2
        invariant 0 <= i <= n / 2
        invariant forall k :: 0 <= k < i ==> a[k] == ps[n - 1 - k] && a[n - 1 - k] == ps[k]
        invariant forall k :: i <= k < n - i ==> a[k] == ps[k]
      {
        a[i], a[n - 1 - i] := a[n - 1 - i], a[i];
        i := i + 1;
      }
      assert forall k :: 0 <= k < n ==> a[..][k] == ps[n - 1 - k];
      ReversedAt(ps, a[..]);
    }

    /** `stop(plugin_context)`: `stop_plugin` on every plugin of a reversed copy of the list. */
    method Stop(ctx: Option<ContextId>) returns (r: Outcome)
      modifies this`log, this`services
      ensures var run := RunAll(StopPhase, Reverse(plugins), ctx, old(services));
              log == old(log) + run.trace && services == run.registry && r == run.outcome
    {
      var copy := StopOrder();
      var stopOrder := copy[..];
      r := Pass;
      RunSoFarStart(StopPhase, stopOrder, ctx, services, log);
      var i := 0;
      while i < |stopOrder|
        invariant RunSoFar(StopPhase, stopOrder, ctx, old(services), old(log), i, log, services) && r == Pass
      {
        ghost var log1, reg1 := log, services;
        r := Halt(ctx, stopOrder[i]);
        if r.Fail? {
          RunSoFarFail(StopPhase, stopOrder, ctx, old(services), old(log), i, log1, reg1);
          return;
        }
        RunSoFarPass(StopPhase, stopOrder, ctx, old(services), old(log), i, log1, reg1);
        i := i + 1;
      }
      RunSoFarEnd(StopPhase, stopOrder, ctx, old(services), old(log), log, services);
    }

    /** `get_extensions(point)`: the cached value when the point was read before, else the merge, cached on success. */
    method GetExtensions(pt: PointId) returns (r: Result<seq<Item>>)
      requires Valid()
      modifies this`cache
      ensures Valid()
      ensures r == Merge(ContributionsOf(plugins), pt)
      ensures cache == if r.Ok? then old(cache)[pt := r.value] else old(cache)
    {
      if pt in cache {
        r := Ok(cache[pt]);
      } else {
        r := Merge(ContributionsOf(plugins), pt);
        if r.Ok? {
          cache := cache[pt := r.value];
        }
      }
    }

    /**
     * `add_plugin(p)`: appends the plugin without starting it. Every point it
     * feeds that was already read gets the plugin's span appended and an
     * "items changed" notification whose `added` is exactly that span; a
     * point whose new span fails is dropped from the cache, so the error
     * comes back at its next read.
     */
    method AddPlugin(p: Plugin)
      requires Valid()
      modifies this`plugins, this`cache, this`log
      ensures Valid()
      ensures plugins == old(plugins) + [p]
      ensures forall pt :: pt in cache <==> pt in old(cache) && Span(p.contributions, pt).Ok?
      ensures forall pt :: pt in cache ==> cache[pt] == old(cache)[pt] + Span(p.contributions, pt).value
      ensures log == old(log) + ChangeNotices(old(cache), p.contributions, Targets(p.contributions), true)
    {
      plugins := plugins + [p];
      AppendFed(p.contributions);
      AddedAll(old(cache), p.contributions);
      AppendKeepsCache(old(plugins), p, old(cache), cache);
    }

    /**
     * The notification loop of `add_plugin`: every cached point that the
     * added attributes `cs` feed gets their span appended and announced, or
     * is dropped when that span fails.
     */
    method AppendFed(cs: seq<Contribution<Item>>)
      modifies this`cache, this`log
      ensures cache == AddedUpTo(old(cache), cs, Targets(cs))
      ensures log == old(log) + ChangeNotices(old(cache), cs, Targets(cs), true)
    {
      var ts := Targets(cs);
      var i := 0;
      while i < |ts|
        invariant 0 <= i <= |ts|
        invariant cache == AddedUpTo(old(cache), cs, ts[..i])
        invariant log == old(log) + ChangeNotices(old(cache), cs, ts[..i], true)
      {
        var pt := ts[i];
        AppendStep(old(cache), old(log), cache, log, cs, i);
        if pt in cache {
          match Span(cs, pt)
          case Ok(added) =>
            cache := cache[pt := cache[pt] + added];
            log := log + [ExtensionsChanged(pt, added, [])];
          case Err(_) =>
            cache := cache - {pt};
        }
        i := i + 1;
      }
      assert ts[..i] == ts;
    }

    /** The position of the first occurrence of `p`, taken as the plugin removed, or the length when it is absent. */
    method IndexOf(p: Plugin) returns (k: nat)
      ensures k == Position(plugins, p)
      ensures k < |plugins| <==> p in plugins
    {
      k := 0;
      while k < |plugins| && plugins[k] != p
        invariant 0 <= k <= |plugins|
        invariant forall j :: 0 <= j < k ==> plugins[j] != p
      {
        k := k + 1;
      }
    }

    /**
     * The notification loop of `remove_plugin`: every cached point that the
     * removed attributes `cs` fed is recomputed from `css`, and announced.
     */
    method RecomputeFed(cs: seq<Contribution<Item>>, css: seq<seq<Contribution<Item>>>)
      requires forall pt :: pt in cache ==> Merge(css, pt).Ok? && Span(cs, pt).Ok?
      modifies this`cache, this`log
      ensures cache == RemovedUpTo(old(cache), css, Targets(cs))
      ensures log == old(log) + ChangeNotices(old(cache), cs, Targets(cs), false)
    {
      var ts := Targets(cs);
      var i := 0;
      while i < |ts|
        invariant 0 <= i <= |ts|
        invariant cache == RemovedUpTo(old(cache), css, ts[..i])
        invariant log == old(log) + ChangeNotices(old(cache), cs, ts[..i], false)
      {
        var pt := ts[i];
        RecomputeStep(old(cache), old(log), cache, log, cs, css, i);
        if pt in cache {
          cache := cache[pt := Merge(css, pt).value];
          log := log + [ExtensionsChanged(pt, [], Span(cs, pt).value)];
        }
        i := i + 1;
      }
      assert ts[..i] == ts;
    }

    /**
     * `remove_plugin(p)`: removes the first occurrence of the plugin without
     * stopping it, or fails when it is not registered. Every point it fed
     * that was already read is recomputed, with an "items changed"
     * notification whose `removed` is exactly the plugin's span.
     */
    method RemovePlugin(p: Plugin) returns (r: Outcome)
      requires Valid()
      modifies this`plugins, this`cache, this`log
      ensures Valid()
      ensures p !in old(plugins) ==>
                r == Fail(NotRegistered(p.id)) && plugins == old(plugins) && cache == old(cache) && log == old(log)
      ensures p in old(plugins) ==>
                var k := Position(old(plugins), p);
                r == Pass && plugins == old(plugins)[..k] + old(plugins)[k + 1..] &&
                cache.Keys == old(cache).Keys &&
                log == old(log) + ChangeNotices(old(cache), p.contributions, Targets(p.contributions), false)
    {
      var k := IndexOf(p);
      if k == |plugins| {
        return Fail(NotRegistered(p.id));
      }
      var cs := p.contributions;
      var ts := Targets(cs);
      plugins := plugins[..k] + plugins[k + 1..];
      RemovedAll(old(plugins), k, cache);
      RecomputeFed(cs, ContributionsOf(plugins));
      r := Pass;
    }

    /** `get_service(protocol)`: the instance registered under the protocol, or None. */
    method GetService(protocol: Protocol) returns (r: Option<Instance>)
      ensures r == Lookup(services, protocol)
    {
      if protocol in services {
        r := Some(services[protocol].instance);
      } else {
        r := None;
      }
    }

    /** Reading the `Service(P)` attribute of plugin `b`: the instance registered under P right now, or None. */
    method ReadServiceAttribute(b: Plugin, attribute: string) returns (r: Option<Instance>)
      requires RefOf(b.serviceRefs, attribute).Some?
      ensures r == Lookup(services, RefOf(b.serviceRefs, attribute).value)
    {
      var protocol := RefOf(b.serviceRefs, attribute).value;
      r := GetService(protocol);
    }

    /**
     * Assigning to an attribute of plugin `b`: a `Service(P)` attribute
     * refuses with `SystemError`, any other attribute takes the value. The
     * registry, and so what the service attributes read, is left as it was.
     */
    method AssignAttribute(b: Plugin, attribute: string, value: Instance) returns (r: Outcome)
      ensures r.Fail? <==> RefOf(b.serviceRefs, attribute).Some?
      ensures r.Fail? ==> r.error == ServiceNotAssignable(attribute)
    {
      if RefOf(b.serviceRefs, attribute).Some? {
        r := Fail(ServiceNotAssignable(attribute));
      } else {
        r := Pass;
      }
    }
  }

  /** A sequence that holds `s`'s elements back to front is `Reverse(s)`. */
  lemma ReversedAt<X>(s: seq<X>, t: seq<X>)
    requires |t| == |s| && forall k :: 0 <= k < |s| ==> t[k] == s[|s| - 1 - k]
    ensures t == Reverse(s)
  {
  }

  /** The list read back to front: the order `stop` handles the plugins in. */
  function Reverse<X>(s: seq<X>): (r: seq<X>)
    ensures |r| == |s| && forall k :: 0 <= k < |s| ==> r[k] == s[|s| - 1 - k]
    decreases |s|
  {
    if s == [] then [] else [s[|s| - 1]] + Reverse(s[..|s| - 1])
  }
}
