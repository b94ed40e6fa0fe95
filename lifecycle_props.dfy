/**
 * What a start or stop run of the plugin manager makes observable, stated
 * about the specification `RunAll` that `PluginManager.Start` and
 * `PluginManager.Stop` are proved against: the order of the events and
 * hooks, the shape of the trace, and the service registry left behind.
 */
module LifecycleProperties {
  import opened Common
  import opened Extensions
  import opened Services
  import opened Lifecycle

  /** The three kinds of per-plugin step a run reports. */
  datatype Mark = Announced | Hooked | Completed

  /** Whether `e` is the step `m` of `phase`: the "starting"/"stopping" event, the hook, or the "started"/"stopped" event. */
  predicate Marks(m: Mark, phase: Phase, e: Entry)
  {
    match m
    case Announced => if phase == StartPhase then e.Starting? else e.Stopping?
    case Hooked => (e.Hook? || e.Delegated?) && e.phase == phase
    case Completed => if phase == StartPhase then e.Started? else e.Stopped?
  }

  /** The plugins of the entries of `trace` that are step `m` of `phase`, in order. */
  function Marked(m: Mark, phase: Phase, trace: seq<Entry>): seq<Plugin>
    decreases |trace|
  {
    if trace == [] then []
    else (if Marks(m, phase, trace[0]) then [trace[0].plugin] else []) + Marked(m, phase, trace[1..])
  }

  function Other(phase: Phase): Phase
  {
    if phase == StartPhase then StopPhase else StartPhase
  }

  /** How many plugins of a run got through their hook: all attempted on success, all but the last on failure. */
  function Finished(r: Run): nat
  {
    if r.outcome.Pass? || r.attempted == 0 then r.attempted else r.attempted - 1
  }

  /** The entries of the plugins `ps`, one plugin's whole bracket after the other. */
  function Traces(phase: Phase, ps: seq<Plugin>, ctx: Option<ContextId>): seq<Entry>
    decreases |ps|
  {
    if ps == [] then [] else PluginTrace(phase, ps[0], ctx) + Traces(phase, ps[1..], ctx)
  }

  function Ids(ps: seq<Plugin>): set<string>
  {
    set p | p in ps :: p.id
  }

  /** The counting part of `RunAllOutcome`: how many plugins a run attempted. */
  lemma RunAllBounds(phase: Phase, ps: seq<Plugin>, ctx: Option<ContextId>, reg: Registry)
    ensures var r := RunAll(phase, ps, ctx, reg);
            r.attempted <= |ps| && (r.outcome.Pass? ==> r.attempted == |ps|) && (r.outcome.Fail? ==> 0 < r.attempted)
  {
    RunAllOutcome(phase, ps, ctx, reg);
  }

  lemma ConsPrefix<X>(s: seq<X>, n: nat)
    requires n < |s|
    ensures [s[0]] + s[1..][..n] == s[..n + 1]
  {
  }

  // ---------------------------------------------------------------------
  // The order of events and hooks
  // ---------------------------------------------------------------------

  lemma {:induction false} MarkedConcat(m: Mark, phase: Phase, a: seq<Entry>, b: seq<Entry>)
    ensures Marked(m, phase, a + b) == Marked(m, phase, a) + Marked(m, phase, b)
    decreases |a|
  {
    if a == [] {
      assert a + b == b;
    } else {
      ConsConcat(a, b);
      MarkedCons(m, phase, a[0], a[1..] + b);
      MarkedCons(m, phase, a[0], a[1..]);
      MarkedConcat(m, phase, a[1..], b);
    }
  }

  lemma ConsConcat<X>(a: seq<X>, b: seq<X>)
    requires a != []
    ensures a == [a[0]] + a[1..] && a + b == [a[0]] + (a[1..] + b)
  {
  }

  lemma MarkedCons(m: Mark, phase: Phase, e: Entry, rest: seq<Entry>)
    ensures Marked(m, phase, [e] + rest) == (if Marks(m, phase, e) then [e.plugin] else []) + Marked(m, phase, rest)
  {
    assert ([e] + rest)[0] == e && ([e] + rest)[1..] == rest;
  }

  /** The entries after a plugin's hook: its "started"/"stopped" event, unless the hook raised. */
  lemma AfterHookMarks(m: Mark, phase: Phase, q: Phase, p: Plugin, after: seq<Entry>)
    requires after == After(phase, p)
    ensures Marked(m, q, after) == if q == phase && m == Completed && HookError(phase, p).None? then [p] else []
  {
    if after != [] {
      MarkedCons(m, q, after[0], []);
      assert after == [after[0]] + [];
    }
  }

  /** A start trace with its concatenation nested to the right, the form the marks lemmas walk entry by entry. */
  lemma StartTraceShape(p: Plugin, ctx: Option<ContextId>)
    ensures PluginTrace(StartPhase, p, ctx) ==
            [Attached(p, ctx)] + ([Discovered(p)] + ([Starting(p)] + ([HookEntry(StartPhase, p, ctx)] + After(StartPhase, p))))
  {
  }

  /** A stop trace with its concatenation nested to the right. */
  lemma StopTraceShape(p: Plugin, ctx: Option<ContextId>)
    ensures PluginTrace(StopPhase, p, ctx) == [Stopping(p)] + ([HookEntry(StopPhase, p, ctx)] + After(StopPhase, p))
  {
  }

  lemma StartTraceMarks(m: Mark, q: Phase, p: Plugin, ctx: Option<ContextId>)
    ensures Marked(m, q, PluginTrace(StartPhase, p, ctx)) ==
            if q != StartPhase || (m == Completed && HookError(StartPhase, p).Some?) then [] else [p]
  {
    var hook, after := HookEntry(StartPhase, p, ctx), After(StartPhase, p);
    var t2 := [hook] + after;
    var t3 := [Starting(p)] + t2;
    var t4 := [Discovered(p)] + t3;
    AfterHookMarks(m, StartPhase, q, p, after);
    MarkedCons(m, q, hook, after);
    MarkedCons(m, q, Starting(p), t2);
    MarkedCons(m, q, Discovered(p), t3);
    MarkedCons(m, q, Attached(p, ctx), t4);
    StartTraceShape(p, ctx);
  }

  lemma StopTraceMarks(m: Mark, q: Phase, p: Plugin, ctx: Option<ContextId>)
    ensures Marked(m, q, PluginTrace(StopPhase, p, ctx)) ==
            if q != StopPhase || (m == Completed && HookError(StopPhase, p).Some?) then [] else [p]
  {
    var hook, after := HookEntry(StopPhase, p, ctx), After(StopPhase, p);
    AfterHookMarks(m, StopPhase, q, p, after);
    MarkedCons(m, q, hook, after);
    MarkedCons(m, q, Stopping(p), [hook] + after);
    StopTraceShape(p, ctx);
  }

  /**
   * One plugin's start (or stop) announces it once, runs its hook once,
   * and completes it once unless the hook raised; it reports nothing of
   * the other phase.
   */
  lemma PluginTraceMarks(m: Mark, phase: Phase, p: Plugin, ctx: Option<ContextId>)
    ensures Marked(m, phase, PluginTrace(phase, p, ctx)) ==
            if m == Completed && HookError(phase, p).Some? then [] else [p]
    ensures Marked(m, Other(phase), PluginTrace(phase, p, ctx)) == []
  {
    if phase == StartPhase {
      StartTraceMarks(m, phase, p, ctx);
      StartTraceMarks(m, Other(phase), p, ctx);
    } else {
      StopTraceMarks(m, phase, p, ctx);
      StopTraceMarks(m, Other(phase), p, ctx);
    }
  }

  /** How far into the plugin list a run's steps of kind `m` reach. */
  function Reach(m: Mark, r: Run): nat
  {
    if m == Completed then Finished(r) else r.attempted
  }

  /**
   * A run of `phase` over `ps` announces and hooks exactly the attempted
   * plugins, in list order, each once, and completes exactly those whose
   * hook returned.
   */
  lemma {:induction false} RunAllMarks(m: Mark, phase: Phase, ps: seq<Plugin>, ctx: Option<ContextId>, reg: Registry)
    ensures var r := RunAll(phase, ps, ctx, reg);
            Reach(m, r) <= |ps| && Marked(m, phase, r.trace) == ps[..Reach(m, r)]
    decreases |ps|
  {
    if ps != [] {
      var s := Step(phase, ps[0], ctx, reg);
      PluginTraceMarks(m, phase, ps[0], ctx);
      if s.outcome.Pass? {
        RunAllMarks(m, phase, ps[1..], ctx, s.registry);
        MarksStep(m, phase, ps, ctx, reg);
      } else {
        assert ps[..1] == [ps[0]];
      }
    }
  }

  /** The inductive step of `RunAllMarks`: the first plugin's marks, then those of the rest of the run. */
  lemma MarksStep(m: Mark, phase: Phase, ps: seq<Plugin>, ctx: Option<ContextId>, reg: Registry)
    requires ps != [] && Step(phase, ps[0], ctx, reg).outcome.Pass?
    requires var rest := RunAll(phase, ps[1..], ctx, Step(phase, ps[0], ctx, reg).registry);
             Reach(m, rest) <= |ps| - 1 && Marked(m, phase, rest.trace) == ps[1..][..Reach(m, rest)]
    ensures var r := RunAll(phase, ps, ctx, reg);
            Reach(m, r) <= |ps| && Marked(m, phase, r.trace) == ps[..Reach(m, r)]
  {
    var s := Step(phase, ps[0], ctx, reg);
    var rest := RunAll(phase, ps[1..], ctx, s.registry);
    var r := RunAll(phase, ps, ctx, reg);
    assert r == Run(s.trace + rest.trace, rest.registry, rest.outcome, 1 + rest.attempted);
    RunAllBounds(phase, ps[1..], ctx, s.registry);
    var n := Reach(m, rest);
    assert Reach(m, r) == n + 1;
    PluginTraceMarks(m, phase, ps[0], ctx);
    MarkedConcat(m, phase, s.trace, rest.trace);
    calc {
      Marked(m, phase, r.trace);
      Marked(m, phase, s.trace) + Marked(m, phase, rest.trace);
      [ps[0]] + ps[1..][..n];
      { ConsPrefix(ps, n); }
      ps[..n + 1];
    }
  }

  /** A start run fires no stop event and runs no stop hook, and the other way round. */
  lemma {:induction false} RunAllQuiet(m: Mark, phase: Phase, ps: seq<Plugin>, ctx: Option<ContextId>, reg: Registry)
    ensures Marked(m, Other(phase), RunAll(phase, ps, ctx, reg).trace) == []
    decreases |ps|
  {
    if ps != [] {
      var s := Step(phase, ps[0], ctx, reg);
      PluginTraceMarks(m, phase, ps[0], ctx);
      if s.outcome.Pass? {
        var rest := RunAll(phase, ps[1..], ctx, s.registry);
        RunAllQuiet(m, phase, ps[1..], ctx, s.registry);
        MarkedConcat(m, Other(phase), s.trace, rest.trace);
      }
    }
  }

  /**
   * The trace of a run is the full bracket of each attempted plugin, one
   * after the other: a plugin's "starting", hook and "started" all come
   * before the next plugin's first entry.
   */
  lemma {:induction false} RunAllTrace(phase: Phase, ps: seq<Plugin>, ctx: Option<ContextId>, reg: Registry)
    ensures var r := RunAll(phase, ps, ctx, reg);
            r.attempted <= |ps| && r.trace == Traces(phase, ps[..r.attempted], ctx)
    decreases |ps|
  {
    RunAllBounds(phase, ps, ctx, reg);
    if ps != [] {
      var s := Step(phase, ps[0], ctx, reg);
      if s.outcome.Pass? {
        var rest := RunAll(phase, ps[1..], ctx, s.registry);
        RunAllTrace(phase, ps[1..], ctx, s.registry);
        var pre := ps[..1 + rest.attempted];
        assert pre[0] == ps[0] && pre[1..] == ps[1..][..rest.attempted];
      } else {
        var pre := ps[..1];
        assert pre[0] == ps[0] && pre[1..] == [];
        assert s.trace + [] == s.trace;
      }
    }
  }

  /** Every attempted plugin with an activator has its activator called, with itself, in the run's phase. */
  lemma ActivatorDelegated(phase: Phase, ps: seq<Plugin>, ctx: Option<ContextId>, reg: Registry, i: nat)
    requires i < |ps| && ps[i].activator.Some?
    requires i < RunAll(phase, ps, ctx, reg).attempted
    ensures Delegated(phase, ps[i].activator.value, ps[i]) in RunAll(phase, ps, ctx, reg).trace
  {
    var r := RunAll(phase, ps, ctx, reg);
    RunAllTrace(phase, ps, ctx, reg);
    TracesContainHook(phase, ps[..r.attempted], ctx, i);
  }

  lemma {:induction false} TracesContainHook(phase: Phase, ps: seq<Plugin>, ctx: Option<ContextId>, i: nat)
    requires i < |ps|
    ensures HookEntry(phase, ps[i], ctx) in Traces(phase, ps, ctx)
    decreases |ps|
  {
    var t := PluginTrace(phase, ps[0], ctx);
    if i == 0 {
      assert HookEntry(phase, ps[0], ctx) in t;
    } else {
      TracesContainHook(phase, ps[1..], ctx, i - 1);
    }
  }

  /** `stop` announces, runs and completes the plugins in exactly the reverse of the order `start` does. */
  lemma StopMirrorsStart(ps: seq<Plugin>, ctx: Option<ContextId>, reg0: Registry, reg1: Registry)
    requires RunAll(StartPhase, ps, ctx, reg0).outcome.Pass?
    requires RunAll(StopPhase, Reverse(ps), ctx, reg1).outcome.Pass?
    ensures forall m :: Marked(m, StopPhase, RunAll(StopPhase, Reverse(ps), ctx, reg1).trace) ==
                        Reverse(Marked(m, StartPhase, RunAll(StartPhase, ps, ctx, reg0).trace))
  {
    forall m ensures Marked(m, StopPhase, RunAll(StopPhase, Reverse(ps), ctx, reg1).trace) ==
                     Reverse(Marked(m, StartPhase, RunAll(StartPhase, ps, ctx, reg0).trace)) {
      RunAllMarks(m, StartPhase, ps, ctx, reg0);
      RunAllMarks(m, StopPhase, Reverse(ps), ctx, reg1);
      RunAllBounds(StartPhase, ps, ctx, reg0);
      RunAllBounds(StopPhase, Reverse(ps), ctx, reg1);
      assert ps[..|ps|] == ps;
      assert Reverse(ps)[..|ps|] == Reverse(ps);
    }
  }

  // ---------------------------------------------------------------------
  // The service registry across a run
  // ---------------------------------------------------------------------

  lemma IdsCons(ps: seq<Plugin>, n: nat)
    requires n < |ps|
    ensures Ids(ps[..n + 1]) == {ps[0].id} + Ids(ps[1..][..n])
  {
    ConsPrefix(ps, n);
  }

  /**
   * A stop run removes exactly the services of the plugins it stopped: the
   * registry left behind is the old one without the entries those plugins
   * own. A plugin whose stop raised keeps its services.
   */
  lemma {:induction false} StopRegistry(ps: seq<Plugin>, ctx: Option<ContextId>, reg: Registry)
    ensures var r := RunAll(StopPhase, ps, ctx, reg);
            r.attempted <= |ps| && r.registry == RemoveOwners(reg, Ids(ps[..Finished(r)]))
    decreases |ps|
  {
    RunAllBounds(StopPhase, ps, ctx, reg);
    StopUnfold(ps, ctx, reg);
    var r := RunAll(StopPhase, ps, ctx, reg);
    if Finished(r) == 0 {
      assert ps[..0] == [];
      RemoveNoOwners(reg);
    } else {
      var reg1 := Unregister(reg, ps[0].id);
      var n := Finished(RunAll(StopPhase, ps[1..], ctx, reg1));
      StopRegistry(ps[1..], ctx, reg1);
      IdsCons(ps, n);
      RemoveOwnersAfterUnregister(reg, ps[0].id, Ids(ps[1..][..n]));
    }
  }

  /** One step of a stop run: no plugin finished leaves the registry alone, else the first one unregistered and the rest ran. */
  lemma StopUnfold(ps: seq<Plugin>, ctx: Option<ContextId>, reg: Registry)
    ensures var r := RunAll(StopPhase, ps, ctx, reg);
            Finished(r) == 0 ==> r.registry == reg
    ensures var r := RunAll(StopPhase, ps, ctx, reg);
            Finished(r) > 0 ==>
              |ps| > 0 &&
              var rest := RunAll(StopPhase, ps[1..], ctx, Unregister(reg, ps[0].id));
              r.registry == rest.registry && Finished(r) == Finished(rest) + 1
  {
    if ps != [] && HookError(StopPhase, ps[0]).None? {
      RunAllBounds(StopPhase, ps[1..], ctx, Unregister(reg, ps[0].id));
    }
  }

  /**
   * A start run adds entries and keeps every entry it does not replace:
   * each entry afterwards was either there before, unchanged, or is owned
   * by one of the plugins whose start returned.
   */
  lemma {:induction false} StartOwners(ps: seq<Plugin>, ctx: Option<ContextId>, reg: Registry)
    ensures var r := RunAll(StartPhase, ps, ctx, reg);
            r.attempted <= |ps| && reg.Keys <= r.registry.Keys &&
            forall k :: k in r.registry ==> (k in reg && r.registry[k] == reg[k]) || r.registry[k].owner in Ids(ps[..Finished(r)])
    decreases |ps|
  {
    RunAllBounds(StartPhase, ps, ctx, reg);
    var r := RunAll(StartPhase, ps, ctx, reg);
    if Finished(r) > 0 {
      var reg1 := Register(reg, ps[0].id, ps[0].services);
      RegisterEffect(reg, ps[0].id, ps[0].services);
      var rest := RunAll(StartPhase, ps[1..], ctx, reg1);
      StartOwners(ps[1..], ctx, reg1);
      RunAllBounds(StartPhase, ps[1..], ctx, reg1);
      var n := Finished(rest);
      IdsCons(ps, n);
    }
  }

  /**
   * Starting every plugin on an empty registry and then stopping every
   * plugin leaves no service registered: `get_service` answers None for
   * every protocol.
   */
  lemma StartThenStopClears(ps: seq<Plugin>, ctx: Option<ContextId>, protocol: Protocol)
    requires RunAll(StartPhase, ps, ctx, map[]).outcome.Pass?
    requires RunAll(StopPhase, Reverse(ps), ctx, RunAll(StartPhase, ps, ctx, map[]).registry).outcome.Pass?
    ensures RunAll(StopPhase, Reverse(ps), ctx, RunAll(StartPhase, ps, ctx, map[]).registry).registry == map[]
    ensures Lookup(RunAll(StopPhase, Reverse(ps), ctx, RunAll(StartPhase, ps, ctx, map[]).registry).registry, protocol) == None
  {
    var started := RunAll(StartPhase, ps, ctx, map[]);
    StartOwners(ps, ctx, map[]);
    StopRegistry(Reverse(ps), ctx, started.registry);
    RunAllBounds(StopPhase, Reverse(ps), ctx, started.registry);
    assert ps[..|ps|] == ps;
    assert Reverse(ps)[..|ps|] == Reverse(ps);
    assert Ids(Reverse(ps)) == Ids(ps) by {
      forall p | p in ps ensures p in Reverse(ps) {
        var k :| 0 <= k < |ps| && ps[k] == p;
        assert Reverse(ps)[|ps| - 1 - k] == p;
      }
    }
  }

  // ---------------------------------------------------------------------
  // The lifecycle events and their declarations
  // ---------------------------------------------------------------------

  /** The event trait a lifecycle entry is assigned to, by name. */
  function EventName(e: Entry): (r: Option<string>)
    ensures r.Some? <==> e.Starting? || e.Started? || e.Stopping? || e.Stopped?
  {
    match e
    case Starting(_) => Some("plugin_starting")
    case Started(_) => Some("plugin_started")
    case Stopping(_) => Some("plugin_stopping")
    case Stopped(_) => Some("plugin_stopped")
    case _ => None
  }

  /** The event traits the class body declares, in declaration order, as it is written. */
  function DeclarationsAsWritten(): seq<string>
  {
    ["plugin_starting", "plugin_started", "plugin_stopping", "plugin_started"]
  }

  /** The declarations the comments above them describe: one event per lifecycle step. */
  function DeclarationsIntended(): seq<string>
  {
    ["plugin_starting", "plugin_started", "plugin_stopping", "plugin_stopped"]
  }

  /** The entries of `trace` that reach listeners: those assigned to a declared event. */
  function Delivered(decls: seq<string>, trace: seq<Entry>): (r: seq<Entry>)
    ensures forall i :: 0 <= i < |r| ==> r[i] in trace && EventName(r[i]).Some? && EventName(r[i]).value in decls
    ensures forall i :: 0 <= i < |trace| && EventName(trace[i]).Some? && EventName(trace[i]).value in decls ==>
              trace[i] in r
    decreases |trace|
  {
    if trace == [] then []
    else
      var e := trace[0];
      assert forall i :: 1 <= i < |trace| ==> trace[i] == trace[1..][i - 1];
      (if EventName(e).Some? && EventName(e).value in decls then [e] else []) + Delivered(decls, trace[1..])
  }

  /** As written, the assignment in `stop_plugin` targets a name no declaration introduces: "stopped" never reaches a listener. */
  lemma StoppedNeverDelivered(p: Plugin, ctx: Option<ContextId>)
    requires p.stopError.None?
    ensures Stopped(p) in PluginTrace(StopPhase, p, ctx)
    ensures Stopped(p) !in Delivered(DeclarationsAsWritten(), PluginTrace(StopPhase, p, ctx))
  {
    assert PluginTrace(StopPhase, p, ctx)[2] == Stopped(p);
  }

  /** With the intended declarations, a plugin's "stopped" event reaches listeners once its stop returns. */
  lemma StoppedDelivered(p: Plugin, ctx: Option<ContextId>)
    requires p.stopError.None?
    ensures Stopped(p) in Delivered(DeclarationsIntended(), PluginTrace(StopPhase, p, ctx))
  {
    assert PluginTrace(StopPhase, p, ctx)[2] == Stopped(p);
  }

  /** With the intended declarations, every lifecycle event a run fires reaches listeners. */
  lemma EveryEventDelivered(phase: Phase, ps: seq<Plugin>, ctx: Option<ContextId>, reg: Registry, e: Entry)
    requires e in RunAll(phase, ps, ctx, reg).trace && EventName(e).Some?
    ensures e in Delivered(DeclarationsIntended(), RunAll(phase, ps, ctx, reg).trace)
  {
    var trace := RunAll(phase, ps, ctx, reg).trace;
    var i :| 0 <= i < |trace| && trace[i] == e;
    assert EventName(e).value in DeclarationsIntended();
  }
}
