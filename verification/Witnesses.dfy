/**
 A small server, started from boot, in which the two failures of the handlers do happen: a
 first use of a section pool that ends in a null access, and a connection whose module
 counter another connection rewinds.
*/
module Witnesses {
  import opened Options
  import opened Lifecycle
  import opened Reachable
  import opened Runs
  import opened Dispatch
  import opened Phases
  import opened Handling
  import opened Interleaving
  import Registry

  /** Threads, one enabled server, its default pool and a pool "x", of one context each; the
      APR pool of the start is gone, and there are four others.  As after open_logs, the
      contexts were allocated in that APR pool; here they keep their values (see Memory). */
  const StartOps: seq<Op> := [
    DoNewApr, DoNewApr, DoNewApr, DoNewApr, DoNewApr,
    DoStartup(0, 0, None, true), DoStartup(0, 0, Some("x"), true), DoDestroyApr(0)]

  // The four: two connections, a request on the first, and the configuration pool.
  const Here: AprId := 1
  const There: AprId := 2
  const Request: AprId := 3
  const Conf: AprId := 4

  const Dead: Apr := Apr(false, None, [])
  const Fresh: Apr := Apr(true, None, [])

  function Idle(home: PoolId, name: string, interp: InterpId): Ctx {
    Ctx(home, Some(name), Some(interp), false, NoScope.(s := Some(0)), 0)
  }

  const Booted: World := Boot(true, [true]).(aprs := [Fresh, Fresh, Fresh, Fresh, Fresh])
  const One: World := WithNewPool(Booted, 0, 0, "default")
  const Two: World := WithNewPool(One, 0, 0, "x")
  const Up: World := World(
    true, [Idle(0, "default", 0), Idle(1, "x", 1)], [Pool([0], 1, 0), Pool([1], 1, 0)],
    [Interp(Some(0), 0), Interp(Some(1), 0)], [Dead, Fresh, Fresh, Fresh, Fresh],
    [Server(Some(0), true)], map["default" := 0, "x" := 1], true, Some(0))

  lemma BootedSteps()
    ensures Sound(Boot(true, [true])) && IsRun(Boot(true, [true]), StartOps[..5])
    ensures Exec(Boot(true, [true]), StartOps[..5]) == Booted
  {
    BootSound(true, [true]);
    NewAprs(Boot(true, [true]), 5);
    assert StartOps[..5] == seq(5, _ => DoNewApr);
    assert Boot(true, [true]).(aprs := Boot(true, [true]).aprs + seq(5, _ => Fresh)) == Booted;
  }

  lemma {:induction false} NewAprs(w: World, n: nat)
    requires Sound(w)
    ensures IsRun(w, seq(n, _ => DoNewApr)) && Exec(w, seq(n, _ => DoNewApr)) == w.(aprs := w.aprs + seq(n, _ => Fresh))
    decreases n
  {
    if n == 0 {
      assert w.aprs + [] == w.aprs;
    } else {
      NewAprSound(w);
      NewAprs(NewApr(w), n - 1);
      assert seq(n, _ => DoNewApr)[1..] == seq(n - 1, _ => DoNewApr);
      assert (w.aprs + [Fresh]) + seq(n - 1, _ => Fresh) == w.aprs + seq(n, _ => Fresh);
    }
  }

  lemma StepToOne()
    requires Sound(Booted)
    ensures Enabled(Booted, StartOps[5]) && Step(Booted, StartOps[5]) == One && Sound(One)
  {
    hide Startup;
    StepSound(Booted, StartOps[5]);
    FreshStartup(Booted, 0, 0, None);
  }

  lemma StepToTwo()
    requires Sound(One)
    ensures Enabled(One, StartOps[6]) && Step(One, StartOps[6]) == Two && Sound(Two)
  {
    hide Startup;
    StepSound(One, StartOps[6]);
    FreshStartup(One, 0, 0, Some("x"));
  }

  lemma TwoIs()
    ensures Two == Up.(ctxs := [Up.ctxs[0].(locked := true), Up.ctxs[1].(locked := true)],
                       aprs := Up.aprs[0 := Apr(true, Some(1), [0, 1])])
  {
    assert Booted.servers == [Server(None, true)];
    assert One.ctxs == [Up.ctxs[0].(locked := true)] && One.pools == [Pool([0], 1, 0)];
    assert One.interps == [Interp(Some(0), 0)] && One.servers == Up.servers;
    assert One.aprs[0] == Apr(true, Some(0), [0]) by {
      assert Booted.aprs[0] == Fresh && Fresh.cleanups + [0] == [0];
    }
    assert One.aprs == Up.aprs[0 := Apr(true, Some(0), [0])];
    assert Two.ctxs == [Up.ctxs[0].(locked := true), Up.ctxs[1].(locked := true)];
    assert Two.aprs[0] == Apr(true, Some(1), [0, 1]);
    assert Two.aprs == Up.aprs[0 := Apr(true, Some(1), [0, 1])];
    assert Two.pools == Up.pools && Two.interps == Up.interps;
    assert Two.servers == Up.servers && Two.names == Up.names;
  }

  lemma StepToUp()
    requires Sound(Two)
    ensures Enabled(Two, StartOps[7]) && Step(Two, StartOps[7]) == Up && Sound(Up)
  {
    hide ReleaseAll, HomesOk, InterpsOk, BindingsOk, NamesOk, Two;
    TwoIs();
    StepSound(Two, StartOps[7]);
    DestroyAprIs(Two, 0);
    assert DestroyApr(Two, 0).ctxs == Up.ctxs;
  }

  lemma {:induction false} RunsJoin(w: World, xs: seq<Op>, ys: seq<Op>)
    requires Sound(w) && IsRun(w, xs) && IsRun(Exec(w, xs), ys)
    ensures IsRun(w, xs + ys) && Exec(w, xs + ys) == Exec(Exec(w, xs), ys)
    decreases |xs|
  {
    hide Step, Enabled, HomesOk, InterpsOk, BindingsOk, NamesOk;
    if xs == [] {
      assert xs + ys == ys;
    } else {
      StepSound(w, xs[0]);
      RunsJoin(Step(w, xs[0]), xs[1..], ys);
      assert (xs + ys)[0] == xs[0] && (xs + ys)[1..] == xs[1..] + ys;
    }
  }

  lemma RunOfOne(w: World, op: Op)
    requires Sound(w) && Enabled(w, op)
    ensures Sound(Step(w, op)) && IsRun(w, [op]) && Exec(w, [op]) == Step(w, op)
  {
    StepSound(w, op);
  }

  /** The world Up is reached from boot. */
  lemma UpReached()
    ensures Sound(Boot(true, [true])) && IsRun(Boot(true, [true]), StartOps)
    ensures Exec(Boot(true, [true]), StartOps) == Up && Sound(Up)
  {
    hide Step, Enabled, Sound, Boot, Booted, One, Two, Up;
    BootedSteps();
    var w, xs := Boot(true, [true]), StartOps[..5];
    StepToOne();
    RunOfOne(Booted, StartOps[5]);
    RunsJoin(w, xs, [StartOps[5]]);
    StepToTwo();
    RunOfOne(One, StartOps[6]);
    RunsJoin(w, xs + [StartOps[5]], [StartOps[6]]);
    StepToUp();
    RunOfOne(Two, StartOps[7]);
    RunsJoin(w, xs + [StartOps[5]] + [StartOps[6]], [StartOps[7]]);
    assert StartOps == xs + [StartOps[5]] + [StartOps[6]] + [StartOps[7]];
  }

  // ---------------------------------------------------------------- the connection

  /** The first handler of a request on connection Here. */
  function Opened(): World
    requires Linked(Up)
  {
    Setup(Up, 0, Some(Here), Request, true).0
  }

  const Carrier: Ctx := Idle(0, "default", 0).(locked := true, index := -1,
                                                scope := NoScope.(s := Some(0), pool := Some(Request)))

  /** It reserves the only context of the server's pool. */
  lemma OpenedIs()
    requires Sound(Up)
    ensures Setup(Up, 0, Some(Here), Request, true).1 == Some(0)
    ensures Opened() == Up.(ctxs := Up.ctxs[0 := Carrier], aprs := Up.aprs[Here := Apr(true, Some(0), [0])])
  {
    hide HomesOk, InterpsOk, BindingsOk, NamesOk;
    assert Pick(Up, Some(0)) == Some(0);
    assert Fresh.cleanups + [0] == [0];
    var w1 := Bind(Up, Some(Here), 0, true).0;
    assert w1 == Up.(ctxs := Up.ctxs[0 := Up.ctxs[0].(locked := true)], aprs := Up.aprs[Here := Apr(true, Some(0), [0])]);
  }

  lemma OpenedSound()
    ensures Sound(Up) && Sound(Opened())
  {
    hide Setup, Exec, IsRun, HomesOk, InterpsOk, BindingsOk, NamesOk;
    UpReached();
    SetupSound(Up, 0, Some(Here), Request, true);
  }

  /** The connection owns it. */
  lemma OpenedOwns()
    requires Sound(Up)
    ensures Owns(Opened(), Here, 0)
  {
    hide Setup, HomesOk, InterpsOk, BindingsOk, NamesOk;
    OpenedIs();
    assert OnlyKnownTo(Opened(), Here, 0);
  }

  /** A handler of the request, in a section that names a pool for module m. */
  function RequestCall(hook: nat, m: nat, name: string): Call {
    Call(OnRequest(0, false), hook, 0, Some(Here), Request, Conf, map[m := name], map[], (true, true, true))
  }

  /** A registry whose first module for the hook is m; all were added in the default pool. */
  ghost predicate FirstFor(t: Registry.Table, hook: nat, m: nat) {
    && Registry.TableOk(t) && hook < Registry.HOOK_LAST
    && (forall i :: 0 <= i < |t.mods| ==> t.mods[i].pool == 0)
    && Registry.Asked(t.mods, hook) != [] && Registry.Asked(t.mods, hook)[0] == m
  }

  lemma OpenedFits(t: Registry.Table, hook: nat, m: nat, name: string)
    requires Sound(Up) && hook < |t.index| && forall i :: 0 <= i < |t.mods| ==> t.mods[i].pool == 0
    ensures Fits(Opened(), t, RequestCall(hook, m, name)) && AprsAlive(Opened(), RequestCall(hook, m, name))
    ensures Bound(Opened(), Here, 0, -1)
  {
    hide Setup, HomesOk, InterpsOk, BindingsOk, NamesOk;
    OpenedIs();
  }

  lemma FirstCall(t: Registry.Table, hook: nat, m: nat, name: string)
    requires Sound(Up) && FirstFor(t, hook, m)
    ensures Fits(Opened(), t, RequestCall(hook, m, name)) && AprsAlive(Opened(), RequestCall(hook, m, name))
    ensures m < |t.mods| && ModuleAt(t, hook, 0) == Some(m)
    ensures Bound(Opened(), Here, 0, -1)
  {
    hide Setup, Up, HomesOk, InterpsOk, BindingsOk, NamesOk;
    OpenedFits(t, hook, m, name);
    ListedIsAsked(t, hook);
    assert Registry.IndexedFor(t, hook);
  }

  /** The first use of a section pool, on a server whose only context is the carrier, ends in
      a null access: whatever the registry, as soon as some module asked for the hook. */
  lemma FirstUseFaults(t: Registry.Table, hook: nat, m: nat)
    requires FirstFor(t, hook, m)
    ensures Sound(Up) && Sound(Opened()) && Fits(Opened(), t, RequestCall(hook, m, "y"))
    ensures MetaCall(Opened(), t, RequestCall(hook, m, "y")).1 == Fault
  {
    hide Setup, MetaCall;
    OpenedSound();
    OpenedIs();
    FirstCall(t, hook, m, "y");
    CallFaultsIff(Opened(), t, RequestCall(hook, m, "y"), Here, 0, 0, m);
    assert Pick(Opened(), Some(0)) == None;
  }

  // ---------------------------------------------------------------- the other connection

  /** After a first call that swaps into pool "x". */
  const Away: World := Up.(
    ctxs := [Carrier.(index := 0, locked := false),
             Ctx(1, Some("x"), Some(1), true, NoScope.(s := Some(0), r := Some(0)), 0)],
    aprs := [Dead, Apr(true, Some(0), [0]), Fresh, Apr(true, Some(1), [1]), Fresh])

  lemma FirstCallSwaps(t: Registry.Table, hook: nat, m: nat)
    requires Sound(Up) && Sound(Opened()) && FirstFor(t, hook, m)
    ensures Fits(Opened(), t, RequestCall(hook, m, "x"))
    ensures MetaCall(Opened(), t, RequestCall(hook, m, "x")) == (Away, Ran(m, 1, true))
  {
    hide Setup, MetaCall, Hand, HomesOk, InterpsOk, BindingsOk, NamesOk;
    var call := RequestCall(hook, m, "x");
    OpenedIs();
    FirstCall(t, hook, m, "x");
    CallServes(Opened(), t, call, Here, 0, 0, m);
    assert Noted(Opened(), 0, 0, 0).ctxs == Waiting.ctxs;
    assert Noted(Opened(), 0, 0, 0) == Waiting;
    IntendedSelected(Waiting, t, call, m);
    HandToX(call, m);
  }

  const Waiting: World := Up.(ctxs := [Carrier.(index := 0), Up.ctxs[1]],
                              aprs := [Dead, Apr(true, Some(0), [0]), Fresh, Fresh, Fresh])

  lemma TakeX()
    requires Linked(Waiting)
    ensures InitCtx(Waiting, 0, Some(Request), Some(1), true)
            == (Waiting.(ctxs := [Waiting.ctxs[0], Waiting.ctxs[1].(locked := true)], aprs := Away.aprs), Some(1))
  {
    InitCtxAdopts(Waiting, 0, Some(Request), Some(1), true);
    assert Pick(Waiting, Some(1)) == Some(1);
    assert Fresh.cleanups + [1] == [1];
    var w1 := Bind(Waiting, Some(Request), 1, true).0;
    assert w1.ctxs == [Waiting.ctxs[0], Waiting.ctxs[1].(locked := true)];
    assert w1.aprs == Away.aprs;
    assert SetServer(w1, 1, 0).ctxs == w1.ctxs;
  }

  const Moved: World := Away.(ctxs := [Away.ctxs[0], Away.ctxs[1].(scope := NoScope.(s := Some(0)))])

  lemma SwapToX(call: Call)
    requires Linked(Waiting) && call.s == 0 && call.bind == Request && call.oks == (true, true, true)
    ensures Swap(Waiting, 0, Some(1), call) == (Moved, Some(1))
  {
    hide InitCtx;
    TakeX();
    var w1 := CloneCtx(Waiting, 0, Some(1), 0, Request, true).0;
    assert w1.ctxs == [Waiting.ctxs[0], Moved.ctxs[1]];
    assert Release(w1, 0).ctxs == Moved.ctxs;
  }

  lemma HandToX(call: Call, m: nat)
    requires Linked(Waiting) && call.kind == OnRequest(0, false)
    requires call.s == 0 && call.bind == Request && call.oks == (true, true, true)
    ensures Hand(Waiting, 0, Some(1), m, call) == (Away, Ran(m, 1, true))
  {
    hide Swap;
    SwapToX(call);
    FinishFields(Moved, 1, call);
    assert Finish(Moved, 1, call).ctxs == Away.ctxs;
  }

  /** The setup handler of connection There, once the carrier of Here is free again. */
  lemma ThereTakesCarrier()
    requires Sound(Up) && Linked(Away)
    ensures var (w, c) := Setup(Away, 0, Some(There), There, true);
            c == Some(0) && |w.ctxs| == 2 && w.ctxs[1] == Away.ctxs[1] && w.servers == Away.servers
            && w.names == Away.names && w.pools == Away.pools && Bound(w, Here, 0, -1)
            && w.aprs == Away.aprs[There := Apr(true, Some(0), [0])]
  {
    InitCtxAdopts(Away, 0, Some(There), None, true);
    assert Pick(Away, Some(0)) == Some(0);
    assert Fresh.cleanups + [0] == [0];
    InitCtxFrame(Away, 0, Some(There), None, true);
  }

  /** A request on Here makes its first call, which swaps; the connection There is set up;
      the second call on Here runs the first module once more, whatever modules follow. */
  lemma RewindHappens(t: Registry.Table, hook: nat, m: nat)
    requires FirstFor(t, hook, m)
    ensures Sound(Up) && Sound(Opened())
    ensures var call := RequestCall(hook, m, "x");
            && Fits(Opened(), t, call) && MetaCall(Opened(), t, call) == (Away, Ran(m, 1, true))
            && Sound(Away) && Bound(Away, Here, 0, 0)
            && var w := Setup(Away, 0, Some(There), There, true).0;
               && Linked(w) && Fits(w, t, call) && Bound(w, Here, 0, -1)
               && var o := MetaCall(w, t, call).1; o.Ran? && o.mod == m
  {
    hide Setup, MetaCall, HomesOk, InterpsOk, BindingsOk, NamesOk;
    var call := RequestCall(hook, m, "x");
    OpenedSound();
    FirstCall(t, hook, m, "x");
    FirstCallSwaps(t, hook, m);
    MetaCallKeeps(Opened(), t, call);
    SecondCall(t, hook, m);
  }

  lemma SecondCall(t: Registry.Table, hook: nat, m: nat)
    requires Sound(Up) && Sound(Away) && FirstFor(t, hook, m)
    requires m < |t.mods| && hook < |t.index| && ModuleAt(t, hook, 0) == Some(m)
    ensures var (w, call) := (Setup(Away, 0, Some(There), There, true).0, RequestCall(hook, m, "x"));
            && Linked(w) && Fits(w, t, call) && Bound(w, Here, 0, -1)
            && var o := MetaCall(w, t, call).1; o.Ran? && o.mod == m
  {
    hide Setup, MetaCall, HomesOk, InterpsOk, BindingsOk, NamesOk, Registry.TableOk;
    var (w, call) := (Setup(Away, 0, Some(There), There, true).0, RequestCall(hook, m, "x"));
    ThereTakesCarrier();
    SetupSound(Away, 0, Some(There), There, true);
    CallPicksNext(w, t, call, Here, 0, 0);
    CallFaultsIff(w, t, call, Here, 0, 0, m);
    assert Kept(w, Some(Request), Some(1)) == Some(1);
  }
}
