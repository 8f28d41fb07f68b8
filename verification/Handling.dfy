/**
 What meta handlers do to the rest of the life cycle: which pool the HLL code runs in,
 when the swap fails, which locks stay behind, and what a released carrier costs.
*/
module Handling {
  import opened Options
  import opened Lifecycle
  import opened Reachable
  import opened Runs
  import opened Dispatch
  import opened Phases
  import Registry

  // ---------------------------------------------------------------- invariants through a call

  /** Soundness is kept, and lock leaks are kept out if every interpreter starts. */
  ghost predicate Keeps(w: World, w': World, careful: bool) {
    Sound(w') && (careful && NoLeak(w) ==> NoLeak(w'))
  }

  lemma StepKeeps(w: World, op: Op)
    requires Sound(w) && Enabled(w, op) && !op.DoCleanup?
    ensures Keeps(w, Step(w, op), Careful(op))
  {
    StepSound(w, op);
    if Careful(op) && NoLeak(w) {
      StepNoLeak(w, op);
    }
  }

  lemma SelectPoolKeeps(w: World, t: Registry.Table, call: Call, m: nat)
    requires Sound(w) && Fits(w, t, call) && m < |t.mods| && LiveApr(w, Some(call.pconf))
    ensures Keeps(w, SelectPool(w, t, call, m).world, call.oks.1)
  {
    if m in call.section && call.section[m] !in w.names {
      var n := call.section[m];
      StepKeeps(w, DoStartup(call.pconf, call.s, Some(n), call.oks.1));
      StartupLinked(w, call.pconf, call.s, Some(n), call.oks.1);
      var (w1, c) := Startup(w, call.pconf, call.s, Some(n), call.oks.1);
      if c.Some? {
        StepKeeps(w1, DoRelease(c.value));
      }
    }
  }

  lemma SwapKeeps(w: World, c: CtxId, pool: Option<PoolId>, call: Call)
    requires Sound(w) && c < |w.ctxs| && call.s < |w.servers| && Within(pool, |w.pools|)
    requires LiveApr(w, Some(call.bind))
    ensures Keeps(w, Swap(w, c, pool, call).0, call.oks.2)
  {
    StepKeeps(w, DoClone(c, pool, call.s, call.bind, call.oks.2));
    CloneCtxLinked(w, c, pool, call.s, call.bind, call.oks.2);
    StepKeeps(CloneCtx(w, c, pool, call.s, call.bind, call.oks.2).0, DoRelease(c));
  }

  lemma FinishKeeps(w: World, d: CtxId, call: Call)
    requires Sound(w) && d < |w.ctxs|
    ensures Keeps(w, Finish(w, d, call), true)
  {
    var x := w.ctxs[d];
    StepKeeps(w, DoTouch(d, Stamp(x.scope, call), x.index));
    var w1 := SetCtx(w, d, x.(scope := Stamp(x.scope, call)));
    assert w1 == Touch(w, d, Stamp(x.scope, call), x.index);
    StepKeeps(w1, DoRelease(d));
  }

  lemma HandKeeps(w: World, c: CtxId, pool: Option<PoolId>, m: nat, call: Call)
    requires Sound(w) && c < |w.ctxs| && call.s < |w.servers| && Within(pool, |w.pools|)
    requires LiveApr(w, Some(call.bind))
    ensures Keeps(w, Hand(w, c, pool, m, call).0, call.oks.2)
  {
    SwapKeeps(w, c, pool, call);
    SwapLinked(w, c, pool, call);
    var (w1, d) := Swap(w, c, pool, call);
    if d.Some? {
      FinishKeeps(w1, d.value, call);
    }
  }

  /** The APR pools a call needs are alive. */
  predicate AprsAlive(w: World, call: Call) {
    LiveApr(w, call.look) && LiveApr(w, Some(call.bind)) && LiveApr(w, Some(call.pconf))
  }

  lemma PlaceKeeps(w: World, t: Registry.Table, call: Call, c: CtxId, m: nat)
    requires Sound(w) && Fits(w, t, call) && c < |w.ctxs| && m < |t.mods| && AprsAlive(w, call)
    ensures Keeps(w, Place(w, t, call, c, m).0, call.oks.1 && call.oks.2)
  {
    SelectPoolKeeps(w, t, call, m);
    SelectPoolLinked(w, t, call, m);
    SelectPoolCounters(w, t, call, m);
    match SelectPool(w, t, call, m)
    case SelectFault(w1) =>
    case Selected(w1, pool) => HandKeeps(w1, c, pool, m, call);
  }

  lemma ServeKeeps(w: World, t: Registry.Table, call: Call, c: CtxId)
    requires Sound(w) && Fits(w, t, call) && c < |w.ctxs| && AprsAlive(w, call)
    ensures Keeps(w, Serve(w, t, call, c).0, call.oks.1 && call.oks.2)
  {
    hide Place, HomesOk, InterpsOk, BindingsOk, NamesOk, Pending;
    var w1 := Advance(w, t, call.hook, c);
    var x := w.ctxs[c];
    StepKeeps(w, DoTouch(c, x.scope, x.index + 1));
    assert w1 == w || w1 == Touch(w, c, x.scope, x.index + 1);
    AdvanceLinked(w, t, call.hook, c);
    FitsStill(w, w1, t, call);
    match ModuleAt(t, call.hook, w.ctxs[c].index + 1)
    case None =>
    case Some(m) => PlaceKeeps(w1, t, call, c, m);
  }

  lemma AprsStayAlive(w: World, w': World, call: Call)
    requires AprsAlive(w, call) && |w'.aprs| == |w.aprs|
    requires forall a :: 0 <= a < |w.aprs| ==> w'.aprs[a].live == w.aprs[a].live
    ensures AprsAlive(w', call)
  {
  }

  /** Every meta handler call keeps the world sound; and if init_ctx looks into an APR pool
      and every interpreter starts, it leaves no lock that nothing will release. */
  lemma MetaCallKeeps(w: World, t: Registry.Table, call: Call)
    requires Sound(w) && Fits(w, t, call) && AprsAlive(w, call)
    ensures Sound(MetaCall(w, t, call).0)
    ensures NoLeak(w) && call.look.Some? && call.oks == (true, true, true) ==> NoLeak(MetaCall(w, t, call).0)
  {
    hide Serve, InitCtx, HomesOk, InterpsOk, BindingsOk, NamesOk, Pending;
    InitCtxSound(w, call.s, call.look, None, call.oks.0);
    if NoLeak(w) && call.look.Some? && call.oks.0 {
      InitCtxNoLeak(w, call.s, call.look.value, None);
    }
    InitCtxLinked(w, call.s, call.look, None, call.oks.0);
    InitCtxCounters(w, call.s, call.look, None, call.oks.0);
    var (w1, c) := InitCtx(w, call.s, call.look, None, call.oks.0);
    if c.Some? {
      FitsStill(w, w1, t, call);
      AprsStayAlive(w, w1, call);
      ServeKeeps(w1, t, call, c.value);
    }
  }

  /** So does every setup handler. */
  lemma SetupSound(w: World, s: ServerId, look: Option<AprId>, phase: AprId, ok: bool)
    requires Sound(w) && s < |w.servers| && LiveApr(w, look)
    ensures Sound(Setup(w, s, look, phase, ok).0)
  {
    InitCtxLinked(w, s, look, None, ok);
    InitCtxSound(w, s, look, None, ok);
    var (w1, c) := InitCtx(w, s, look, None, ok);
    if c.Some? {
      var x := w1.ctxs[c.value].(index := -1, scope := w1.ctxs[c.value].scope.(pool := Some(phase)));
      SetCtxSound(w1, c.value, x);
      var w2 := Rewind(w1, c.value, phase);
      assert w2 == SetCtx(w1, c.value, x);
      SetCtxSound(w2, c.value, x.(locked := false));
    }
  }

  // ---------------------------------------------------------------- the pool a handler runs in

  /** The pool the most specific scope names: section, then server, then module default.
      None when the section names a pool that does not exist yet. */
  function Intended(w: World, t: Registry.Table, call: Call, m: nat): Option<PoolId>
    requires m < |t.mods|
  {
    if m in call.section then
      if call.section[m] in w.names then Some(w.names[call.section[m]]) else None
    else if m in call.server then Some(call.server[m])
    else Some(t.mods[m].pool)
  }

  lemma IntendedSelected(w: World, t: Registry.Table, call: Call, m: nat)
    requires Linked(w) && Fits(w, t, call) && m < |t.mods| && Intended(w, t, call, m).Some?
    ensures SelectPool(w, t, call, m) == Selected(w, Intended(w, t, call, m))
    ensures Within(Intended(w, t, call, m), |w.pools|)
  {
  }

  /** A handler runs in a context of the pool its most specific scope names, and that
      context carries the request, server, connection and configuration pool fields and
      the counter of the one it was cloned from. */
  lemma RunsInIntendedPool(w: World, t: Registry.Table, call: Call, c: CtxId, m: nat)
    requires Sound(w) && Fits(w, t, call) && c < |w.ctxs| && m < |t.mods| && AprsAlive(w, call)
    requires Intended(w, t, call, m).Some?
    ensures var (w', o) := Place(w, t, call, c, m);
            o.Ran? ==>
              && o.ctx < |w'.ctxs|
              && Some(w'.ctxs[o.ctx].home) == Intended(w, t, call, m)
              && w'.ctxs[o.ctx].index == w.ctxs[c].index
              && (o.ctx != c ==> w'.ctxs[o.ctx].scope.(pool := None) == Stamp(w.ctxs[c].scope, call).(pool := None))
              && (o.ctx == c ==> w'.ctxs[c].scope == Stamp(w.ctxs[c].scope, call))
  {
    IntendedSelected(w, t, call, m);
    HandFields(w, c, Intended(w, t, call, m), m, call);
  }

  lemma SwapFields(w: World, c: CtxId, pool: Option<PoolId>, call: Call)
    requires Sound(w) && c < |w.ctxs| && call.s < |w.servers| && Within(pool, |w.pools|) && pool.Some?
    requires LiveApr(w, Some(call.bind))
    ensures var (w', d) := Swap(w, c, pool, call);
            d.Some? ==>
              && d.value < |w'.ctxs| == |w.ctxs|
              && w'.ctxs[d.value].home == pool.value && w'.ctxs[d.value].index == w.ctxs[c].index
              && (d.value == c <==> w.ctxs[c].home == pool.value) && (d.value == c ==> w' == w)
              && (d.value != c ==>
                    && w'.ctxs[d.value].scope.(pool := None) == w.ctxs[c].scope.(pool := None)
                    && w'.ctxs[c] == w.ctxs[c].(locked := false))
  {
    CloneFields(w, c, pool, call.s, call.bind, call.oks.2);
  }

  lemma HandFields(w: World, c: CtxId, pool: Option<PoolId>, m: nat, call: Call)
    requires Sound(w) && c < |w.ctxs| && call.s < |w.servers| && Within(pool, |w.pools|) && pool.Some?
    requires LiveApr(w, Some(call.bind))
    ensures var (w', o) := Hand(w, c, pool, m, call);
            o.Ran? ==>
              && o.ctx < |w'.ctxs| && c < |w'.ctxs|
              && w'.ctxs[o.ctx].home == pool.value && w'.ctxs[o.ctx].index == w.ctxs[c].index
              && (o.ctx == c <==> w.ctxs[c].home == pool.value)
              && (o.ctx != c ==>
                    && w'.ctxs[o.ctx].scope.(pool := None) == Stamp(w.ctxs[c].scope, call).(pool := None)
                    && w'.ctxs[c] == w.ctxs[c].(locked := false))
              && (o.ctx == c ==> w'.ctxs[c].scope == Stamp(w.ctxs[c].scope, call)
                                 && w'.ctxs[c].locked == (w.ctxs[c].locked && !call.kind.OnChildInit?))
  {
    SwapFields(w, c, pool, call);
    SwapLinked(w, c, pool, call);
    var (w1, d) := Swap(w, c, pool, call);
    if d.Some? {
      FinishFields(w1, d.value, call);
      StampKeepsRest(w1.ctxs[d.value].scope, w.ctxs[c].scope, call);
      assert Hand(w, c, pool, m, call).1.Ran? ==> Hand(w, c, pool, m, call).0 == Finish(w1, d.value, call);
    }
  }

  /** No handler stamps the phase pool. */
  lemma StampKeepsRest(x: Scope, y: Scope, call: Call)
    ensures x.(pool := None) == y.(pool := None) ==> Stamp(x, call).(pool := None) == Stamp(y, call).(pool := None)
  {
  }

  lemma FinishFields(w: World, d: CtxId, call: Call)
    requires d < |w.ctxs|
    ensures Finish(w, d, call)
            == SetCtx(w, d, w.ctxs[d].(scope := Stamp(w.ctxs[d].scope, call),
                                       locked := w.ctxs[d].locked && !call.kind.OnChildInit?))
  {
  }

  lemma CloneFields(w: World, c: CtxId, pool: Option<PoolId>, s: ServerId, p: AprId, ok: bool)
    requires Sound(w) && c < |w.ctxs| && s < |w.servers| && LiveApr(w, Some(p)) && Within(pool, |w.pools|)
    requires pool.Some?
    ensures var (w', d) := CloneCtx(w, c, pool, s, p, ok);
            d.Some? ==>
              && d.value < |w'.ctxs| == |w.ctxs|
              && w'.ctxs[d.value].home == pool.value && w'.ctxs[d.value].index == w.ctxs[c].index
              && (d.value == c <==> w.ctxs[c].home == pool.value) && (d.value == c ==> w' == w)
              && (d.value != c ==>
                    && w'.ctxs[c] == w.ctxs[c]
                    && w'.ctxs[d.value].scope.(pool := None) == w.ctxs[c].scope.(pool := None))
  {
    InitCtxHome(w, s, Some(p), pool, ok);
    InitCtxOthers(w, s, Some(p), pool, ok);
    InitCtxLinked(w, s, Some(p), pool, ok);
  }

  /** init_ctx changes no context but the one it returns or, failing, the one it locked. */
  lemma InitCtxOthers(w: World, s: ServerId, p: Option<AprId>, pool: Option<PoolId>, ok: bool)
    requires Linked(w) && s < |w.servers| && Within(p, |w.aprs|) && Within(pool, |w.pools|)
    ensures var (w', c) := InitCtx(w, s, p, pool, ok);
            |w'.ctxs| == |w.ctxs| &&
            (c.Some? ==> forall d :: 0 <= d < |w.ctxs| && d != c.value ==> w'.ctxs[d] == w.ctxs[d])
  {
    assert Within(w.servers[s].pool, |w.pools|);
    var got := Pick(w, Source(w, s, pool));
    if Kept(w, p, pool).None? && got.Some? {
      AdoptShape(w, s, p, got.value, ok);
    }
  }

  /** The swap faults exactly when the intended pool is another one than the carrier's and
      init_ctx cannot give a context of it. */
  lemma SwapFaultsIff(w: World, t: Registry.Table, call: Call, c: CtxId, m: nat)
    requires Linked(w) && Fits(w, t, call) && c < |w.ctxs| && m < |t.mods|
    requires Intended(w, t, call, m).Some? && w.servers[call.s].enabled
    ensures Within(Intended(w, t, call, m), |w.pools|)
    ensures Place(w, t, call, c, m).1.Fault?
            <==> Intended(w, t, call, m) != Some(w.ctxs[c].home)
                 && Denied(w, call.s, Some(call.bind), Intended(w, t, call, m), call.oks.2)
  {
    IntendedSelected(w, t, call, m);
    InitCtxDeniedIff(w, call.s, Some(call.bind), Intended(w, t, call, m), call.oks.2);
    CloneCtxLinked(w, c, Intended(w, t, call, m), call.s, call.bind, call.oks.2);
    SwapKeepsServers(w, c, Intended(w, t, call, m), call);
  }

  /** What select_ctx_pool does about a section pool that does not exist: it creates it with
      one free context, and then selects nothing. */
  lemma MissingSectionPool(w: World, t: Registry.Table, call: Call, m: nat)
    requires Linked(w) && Fits(w, t, call) && m < |t.mods| && Intended(w, t, call, m).None?
    ensures var sel := SelectPool(w, t, call, m);
            && (sel.Selected? <==> call.oks.1) && (sel.Selected? ==> sel.pool == None)
            && (sel.Selected? ==> Added(w, call.section[m], call.s, call.pconf, sel.world))
  {
    var n := call.section[m];
    StartupUnknown(w, call.pconf, call.s, n, call.oks.1);
    StartupLinked(w, call.pconf, call.s, Some(n), call.oks.1);
  }

  /** w' is w with a pool of one free context added under name n. */
  predicate Added(w: World, n: string, s: ServerId, a: AprId, w': World)
    requires s < |w.servers|
  {
    && w'.threaded == w.threaded && w'.pools == w.pools + [Pool([|w.ctxs|], 1, a)]
    && |w'.ctxs| == |w.ctxs| + 1 && w'.ctxs[..|w.ctxs|] == w.ctxs
    && w'.ctxs[|w.ctxs|].home == |w.pools| && !w'.ctxs[|w.ctxs|].locked && w'.ctxs[|w.ctxs|].interp.Some?
    && w'.names == w.names[n := |w.pools|]
    && |w'.servers| == |w.servers|
    && w'.servers[s] == Server(if w.servers[s].pool.Some? then w.servers[s].pool else Some(|w.pools|),
                               w.servers[s].enabled)
    && |w'.aprs| == |w.aprs| && (a < |w.aprs| ==> w'.aprs[a].current == Some(|w.ctxs|))
    && forall b :: 0 <= b < |w.aprs| && b != a ==> w'.aprs[b] == w.aprs[b]
  }

  lemma StartupUnknown(w: World, a: AprId, s: ServerId, n: string, ok: bool)
    requires Linked(w) && s < |w.servers| && a < |w.aprs| && n !in w.names
    ensures var (w', c) := Startup(w, a, s, Some(n), ok);
            && (c.Some? <==> ok)
            && (c.Some? ==> c.value == |w.ctxs| < |w'.ctxs| && Added(w, n, s, a, Release(w', |w.ctxs|)))
  {
    StartupPoolShape(w, a, s, Some(n));
    StartupPoolLinked(w, a, s, Some(n));
    var w1 := StartupPool(w, a, s, Some(n)).0;
    FreshPoolPick(w1, |w.pools|, |w.ctxs|);
    KeptIsOld(w, w1, a, |w.pools|);
    AdoptShape(w1, s, Some(a), |w.ctxs|, ok);
    var (w2, c) := Startup(w, a, s, Some(n), ok);
    if c.Some? {
      assert Release(w2, |w.ctxs|).ctxs[..|w.ctxs|] == w.ctxs;
    }
  }

  /** A pool of one free context gives that context. */
  lemma FreshPoolPick(w: World, p: PoolId, c: CtxId)
    requires Linked(w) && p < |w.pools| && w.pools[p].elts == [c] && w.pools[p].nelts == 1 && c < |w.ctxs| && !w.ctxs[c].locked
    ensures Pick(w, Some(p)) == Some(c)
  {
  }

  /** With the section pool missing, the handler runs where the request's APR pool or the
      server leads, which is the new pool only in two corners. */
  lemma MissingPoolMissed(w: World, t: Registry.Table, call: Call, c: CtxId, m: nat)
    requires Sound(w) && Fits(w, t, call) && c < |w.ctxs| && m < |t.mods| && AprsAlive(w, call)
    requires Intended(w, t, call, m).None? && w.servers[call.s].enabled
    ensures var (w', o) := Place(w, t, call, c, m);
            o.Ran? ==> o.ctx < |w'.ctxs| && (w'.ctxs[o.ctx].home == |w.pools| <==> LeadsToNewPool(w, call))
  {
    MissingSectionPool(w, t, call, m);
    SelectPoolKeeps(w, t, call, m);
    SelectPoolLinked(w, t, call, m);
    match SelectPool(w, t, call, m)
    case SelectFault(w1) =>
    case Selected(w1, pool) =>
      assert AprLinked(w, w.aprs[call.bind]);
      assert Within(w.servers[call.s].pool, |w.pools|);
      HandHomeless(w1, c, m, call);
      if call.bind != call.pconf && w.aprs[call.bind].current.Some? {
        var d := w.aprs[call.bind].current.value;
        assert CtxLinked(w, w.ctxs[d]);
        assert w1.ctxs[..|w.ctxs|][d] == w.ctxs[d];
      }
  }

  /** The clone looks in the APR pool the section pool was just created on, or the request is
      bound to nothing and the server had no pool of its own. */
  predicate LeadsToNewPool(w: World, call: Call)
    requires call.bind < |w.aprs| && call.s < |w.servers|
  {
    call.bind == call.pconf || (w.aprs[call.bind].current.None? && w.servers[call.s].pool.None?)
  }

  lemma SwapHomeless(w: World, c: CtxId, call: Call)
    requires Sound(w) && c < |w.ctxs| && call.s < |w.servers| && LiveApr(w, Some(call.bind))
    ensures var (w', d) := Swap(w, c, None, call);
            && |w'.ctxs| == |w.ctxs|
            && (d.Some? ==>
                  && d.value < |w.ctxs| && w'.ctxs[d.value].home == w.ctxs[d.value].home
                  && if w.aprs[call.bind].current.Some? then d == w.aprs[call.bind].current
                     else Some(w.ctxs[d.value].home) == w.servers[call.s].pool)
            && (d.None? <==> Denied(w, call.s, Some(call.bind), None, call.oks.2))
  {
    hide Denied, HomesOk, InterpsOk, NamesOk;
    InitCtxHome(w, call.s, Some(call.bind), None, call.oks.2);
    InitCtxDeniedIff(w, call.s, Some(call.bind), None, call.oks.2);
    CloneCtxLinked(w, c, None, call.s, call.bind, call.oks.2);
  }

  /** A swap into no particular pool. */
  lemma HandHomeless(w: World, c: CtxId, m: nat, call: Call)
    requires Sound(w) && c < |w.ctxs| && call.s < |w.servers| && LiveApr(w, Some(call.bind))
    requires w.servers[call.s].enabled
    ensures var (w', o) := Hand(w, c, None, m, call);
            && (o.Ran? ==>
                  && o.ctx < |w.ctxs| == |w'.ctxs| && w'.ctxs[o.ctx].home == w.ctxs[o.ctx].home
                  && if w.aprs[call.bind].current.Some? then Some(o.ctx) == w.aprs[call.bind].current
                     else Some(w.ctxs[o.ctx].home) == w.servers[call.s].pool)
            && (o.Fault? <==> Denied(w, call.s, Some(call.bind), None, call.oks.2))
  {
    hide Denied;
    SwapHomeless(w, c, call);
    SwapLinked(w, c, None, call);
    SwapKeepsServers(w, c, None, call);
    var (w1, d) := Swap(w, c, None, call);
    if d.Some? {
      FinishFields(w1, d.value, call);
    }
  }

  /** Pool isolation, exactly.  When a handler call runs module m, it runs in the pool its
      most specific scope names if and only if that pool existed before the call, or one of
      the corners leads it to the pool just made. */
  lemma IsolationIff(w: World, t: Registry.Table, call: Call, a: AprId, c: CtxId, k: int, m: nat)
    requires Sound(w) && Fits(w, t, call) && AprsAlive(w, call)
    requires call.look == Some(a) && w.servers[call.s].enabled
    requires Bound(w, a, c, k - 1) && ModuleAt(t, call.hook, k) == Some(m)
    ensures var (w', o) := MetaCall(w, t, call);
            o.Ran? ==>
              var pool := Intended(w, t, call, m);
              && o.mod == m && o.ctx < |w'.ctxs|
              && (w'.ctxs[o.ctx].home == (if pool.Some? then pool.value else |w.pools|)
                  <==> pool.Some? || LeadsToNewPool(w, call))
  {
    hide Place;
    CallServes(w, t, call, a, c, k, m);
    var w1 := Noted(w, c, call.s, k);
    SetCtxSound(w, c, w1.ctxs[c]);
    PlaceRuns(w1, t, call, c, m);
    if Intended(w, t, call, m).Some? {
      RunsInIntendedPool(w1, t, call, c, m);
    } else {
      MissingPoolMissed(w1, t, call, c, m);
    }
  }

  lemma PlaceRuns(w: World, t: Registry.Table, call: Call, c: CtxId, m: nat)
    requires Linked(w) && Fits(w, t, call) && c < |w.ctxs| && m < |t.mods|
    ensures var o := Place(w, t, call, c, m).1; o.Ran? ==> o.mod == m
  {
    SelectPoolLinked(w, t, call, m);
  }

  // ---------------------------------------------------------------- when a call faults

  /** After the startup of a missing section pool the clone looks for a context in vain: the
      request's APR pool is bound to none, and the server's own pool has none to give. */
  predicate Stranded(w: World, t: Registry.Table, call: Call)
    requires Linked(w) && Fits(w, t, call)
  {
    call.bind != call.pconf && w.servers[call.s].pool.Some? && Denied(w, call.s, Some(call.bind), None, call.oks.2)
  }

  lemma PlaceFaultsIff(w: World, t: Registry.Table, call: Call, c: CtxId, m: nat)
    requires Sound(w) && Fits(w, t, call) && c < |w.ctxs| && m < |t.mods| && AprsAlive(w, call)
    requires w.servers[call.s].enabled && Intended(w, t, call, m).None?
    ensures Place(w, t, call, c, m).1.Fault? <==> !call.oks.1 || Stranded(w, t, call)
  {
    hide Denied;
    MissingSectionPool(w, t, call, m);
    SelectPoolKeeps(w, t, call, m);
    SelectPoolLinked(w, t, call, m);
    match SelectPool(w, t, call, m)
    case SelectFault(w1) =>
    case Selected(w1, pool) =>
      AddedDenies(w, call.section[m], call, w1);
      HandHomeless(w1, c, m, call);
  }

  /** What the clone finds once the section pool has been added. */
  lemma AddedDenies(w: World, n: string, call: Call, w': World)
    requires Linked(w) && Linked(w') && call.s < |w.servers| && call.bind < |w.aprs| && call.pconf < |w.aprs|
    requires Added(w, n, call.s, call.pconf, w')
    ensures Denied(w', call.s, Some(call.bind), None, call.oks.2)
            <==> call.bind != call.pconf && w.servers[call.s].pool.Some?
                 && Denied(w, call.s, Some(call.bind), None, call.oks.2)
  {
    assert Within(w.servers[call.s].pool, |w.pools|);
    assert AprLinked(w, w.aprs[call.bind]);
    if w.servers[call.s].pool.None? {
      FreshPoolPick(w', |w.pools|, |w.ctxs|);
    } else {
      var p := w.servers[call.s].pool.value;
      assert forall d :: 0 <= d < |w.ctxs| ==> w'.ctxs[d] == w'.ctxs[..|w.ctxs|][d];
      PickAgain(w, w', p);
    }
  }

  /** Whether init_ctx is denied a context does not depend on who asked a context last and
      on where its counter stands. */
  lemma NotedDenied(w: World, c: CtxId, k: int, s: ServerId, p: AprId, pool: Option<PoolId>, ok: bool)
    requires Linked(w) && c < |w.ctxs| && Linked(Noted(w, c, s, k))
    requires s < |w.servers| && p < |w.aprs| && Within(pool, |w.pools|)
    ensures Denied(Noted(w, c, s, k), s, Some(p), pool, ok) == Denied(w, s, Some(p), pool, ok)
  {
    var source := Source(w, s, pool);
    if source.Some? {
      PickAgain(w, Noted(w, c, s, k), source.value);
    }
  }

  /** When a call ends in a null access, exactly.  If the pool the scope names exists: the
      carrier is of another pool and init_ctx is denied a context of the named one.  If it
      does not: its interpreter does not start, or the clone is stranded. */
  lemma CallFaultsIff(w: World, t: Registry.Table, call: Call, a: AprId, c: CtxId, k: int, m: nat)
    requires Sound(w) && Fits(w, t, call) && AprsAlive(w, call)
    requires call.look == Some(a) && w.servers[call.s].enabled
    requires Bound(w, a, c, k - 1) && ModuleAt(t, call.hook, k) == Some(m)
    ensures Within(Intended(w, t, call, m), |w.pools|)
    ensures MetaCall(w, t, call).1.Fault? <==> Faults(w, t, call, c, m)
  {
    hide Denied, Place;
    CallServes(w, t, call, a, c, k, m);
    var w1 := Noted(w, c, call.s, k);
    SetCtxSound(w, c, w1.ctxs[c]);
    var pool := Intended(w, t, call, m);
    if pool.Some? {
      IntendedSelected(w, t, call, m);
      NotedDenied(w, c, k, call.s, call.bind, pool, call.oks.2);
      SwapFaultsIff(w1, t, call, c, m);
    } else {
      NotedDenied(w, c, k, call.s, call.bind, None, call.oks.2);
      PlaceFaultsIff(w1, t, call, c, m);
    }
  }

  predicate Faults(w: World, t: Registry.Table, call: Call, c: CtxId, m: nat)
    requires Linked(w) && Fits(w, t, call) && c < |w.ctxs| && m < |t.mods|
  {
    var pool := Intended(w, t, call, m);
    if pool.Some? then
      pool != Some(w.ctxs[c].home)
      && (IntendedSelected(w, t, call, m); Denied(w, call.s, Some(call.bind), pool, call.oks.2))
    else !call.oks.1 || Stranded(w, t, call)
  }

  /** In a whole phase, call i runs the i-th module of the list or accesses a null context,
      and which of the two is settled by the world it finds. */
  lemma PhaseFaultsIff(w: World, t: Registry.Table, hook: nat, a: AprId, turns: seq<Turn>, c: CtxId, list: seq<nat>,
                       i: nat)
    requires hook < |t.index| && forall j :: 0 <= j < |list| ==> ModuleAt(t, hook, j) == Some(list[j])
    requires IsPhase(w, t, hook, a, turns) && Bound(w, a, c, -1) && i < |turns| <= |list|
    requires Sound(turns[i].before) && AprsAlive(turns[i].before, turns[i].call)
    ensures var (x, o) := (turns[i].before, turns[i].outcome);
            && Counter(x, a) == Some(i - 1) && Fits(x, t, turns[i].call) && list[i] < |t.mods|
            && (o.Fault? <==> Faults(x, t, turns[i].call, x.aprs[a].current.value, list[i]))
            && (!o.Fault? <==> o.Ran? && o.mod == list[i])
  {
    hide MetaCall, Faults;
    var ci := CounterAt(w, t, hook, a, turns, c, list, i);
    assert IsTurn(t, hook, a, turns[i]);
    CallPicksNext(turns[i].before, t, turns[i].call, a, ci, i);
    CallFaultsIff(turns[i].before, t, turns[i].call, a, ci, i, list[i]);
  }

  // ---------------------------------------------------------------- the carrier's lock

  /** After a request handler the connection is still bound to the context it started with,
      but that context stays reserved only if no swap took place: the code releases the old
      context of every swap although the connection keeps finding it. */
  lemma CarrierStaysReservedIff(w: World, t: Registry.Table, call: Call, a: AprId, c: CtxId, k: int, m: nat)
    requires Sound(w) && Fits(w, t, call) && AprsAlive(w, call)
    requires call.look == Some(a) && a != call.pconf && a != call.bind && w.servers[call.s].enabled
    requires Bound(w, a, c, k - 1) && ModuleAt(t, call.hook, k) == Some(m) && w.ctxs[c].locked
    requires call.kind.OnRequest? && Intended(w, t, call, m).Some?
    ensures var (w', o) := MetaCall(w, t, call);
            o.Ran? ==>
              && Bound(w', a, c, k)
              && (w'.ctxs[c].locked <==> Intended(w, t, call, m) == Some(w.ctxs[c].home))
  {
    CallPicksNext(w, t, call, a, c, k);
    CallServes(w, t, call, a, c, k, m);
    var w1 := Noted(w, c, call.s, k);
    SetCtxSound(w, c, w1.ctxs[c]);
    IntendedSelected(w1, t, call, m);
    HandFields(w1, c, Intended(w1, t, call, m), m, call);
  }
}
