/**
 Theorems over whole runs of the life cycle: any sequence of startups, reservations,
 clones, releases, field updates, APR pool births and deaths, and teardowns.
*/
module Runs {
  import opened Options
  import opened Lifecycle
  import opened Reachable

  datatype Op =
    | DoStartup(p: AprId, s: ServerId, name: Option<string>, ok: bool)
    | DoInit(s: ServerId, from: Option<AprId>, pool: Option<PoolId>, ok: bool)
    | DoClone(cur: CtxId, pool: Option<PoolId>, s: ServerId, p: AprId, ok: bool)
    | DoRelease(c: CtxId)
    | DoTouch(c: CtxId, scope: Scope, index: int)
    | DoNewApr
    | DoDestroyApr(a: AprId)
    | DoCleanup(s: ServerId, order: seq<PoolId>)

  /** What each caller owes: objects that exist, APR pools that are alive, and a hash
      iteration that visits the registered pools. */
  ghost predicate Enabled(w: World, op: Op) {
    match op
    case DoStartup(p, s, name, ok) => s < |w.servers| && LiveApr(w, Some(p))
    case DoInit(s, p, pool, ok) => s < |w.servers| && LiveApr(w, p) && Within(pool, |w.pools|)
    case DoClone(cur, pool, s, p, ok) =>
      cur < |w.ctxs| && s < |w.servers| && LiveApr(w, Some(p)) && Within(pool, |w.pools|)
    case DoRelease(c) => c < |w.ctxs|
    case DoTouch(c, scope, index) => c < |w.ctxs|
    case DoNewApr => true
    case DoDestroyApr(a) => a < |w.aprs| && w.aprs[a].live
    case DoCleanup(s, order) => s < |w.servers| && Lists(order, w)
  }

  function Touch(w: World, c: CtxId, scope: Scope, index: int): World
    requires c < |w.ctxs|
  {
    SetCtx(w, c, w.ctxs[c].(scope := scope, index := index))
  }

  ghost function Step(w: World, op: Op): World
    requires Linked(w) && Enabled(w, op)
  {
    match op
    case DoStartup(p, s, name, ok) => Startup(w, p, s, name, ok).0
    case DoInit(s, p, pool, ok) => InitCtx(w, s, p, pool, ok).0
    case DoClone(cur, pool, s, p, ok) => CloneCtx(w, cur, pool, s, p, ok).0
    case DoRelease(c) => Release(w, c)
    case DoTouch(c, scope, index) => Touch(w, c, scope, index)
    case DoNewApr => NewApr(w)
    case DoDestroyApr(a) => DestroyApr(w, a)
    case DoCleanup(s, order) => Cleanup(w, s, order)
  }

  lemma StepSound(w: World, op: Op)
    requires Sound(w) && Enabled(w, op)
    ensures Sound(Step(w, op))
  {
    match op
    case DoStartup(p, s, name, ok) => StartupSound(w, p, s, name, ok);
    case DoInit(s, p, pool, ok) => InitCtxSound(w, s, p, pool, ok);
    case DoClone(cur, pool, s, p, ok) => CloneCtxSound(w, cur, pool, s, p, ok);
    case DoRelease(c) => SetCtxSound(w, c, w.ctxs[c].(locked := false));
    case DoTouch(c, scope, index) => SetCtxSound(w, c, w.ctxs[c].(scope := scope, index := index));
    case DoNewApr => NewAprSound(w);
    case DoDestroyApr(a) => DestroyAprSound(w, a);
    case DoCleanup(s, order) => CleanupSound(w, s, order);
  }

  ghost predicate IsRun(w: World, ops: seq<Op>)
    requires Sound(w)
    decreases |ops|
  {
    ops == [] || (Enabled(w, ops[0]) && (StepSound(w, ops[0]); IsRun(Step(w, ops[0]), ops[1..])))
  }

  ghost function Exec(w: World, ops: seq<Op>): (w': World)
    requires Sound(w) && IsRun(w, ops)
    ensures Sound(w')
    decreases |ops|
  {
    if ops == [] then w
    else
      StepSound(w, ops[0]);
      Exec(Step(w, ops[0]), ops[1..])
  }

  // ---------------------------------------------------------------- interpreters

  /** In every reachable state the interpreters alive and the contexts that have one
      correspond one to one, through get_interp_ctx and ctx->interp. */
  lemma InterpreterBijection(threaded: bool, servers: seq<bool>, ops: seq<Op>)
    requires (BootSound(threaded, servers); IsRun(Boot(threaded, servers), ops))
    ensures (BootSound(threaded, servers);
             var w := Exec(Boot(threaded, servers), ops);
             && (forall c :: 0 <= c < |w.ctxs| && w.ctxs[c].interp.Some? ==>
                   var i := w.ctxs[c].interp.value;
                   i < |w.interps| && w.interps[i].ctx == Some(c) && w.interps[i].destroyed == 0)
             && (forall c, d :: 0 <= c < d < |w.ctxs| ==>
                   w.ctxs[c].interp.None? || w.ctxs[c].interp != w.ctxs[d].interp)
             && (forall i :: 0 <= i < |w.interps| && w.interps[i].destroyed == 0 ==>
                   && w.interps[i].ctx.Some? && w.interps[i].ctx.value < |w.ctxs|
                   && w.ctxs[w.interps[i].ctx.value].interp == Some(i))
             && (forall i :: 0 <= i < |w.interps| ==> w.interps[i].destroyed <= 1))
  {
    BootSound(threaded, servers);
    var w := Exec(Boot(threaded, servers), ops);
    forall c | 0 <= c < |w.ctxs|
      ensures Runs(w, c, w.ctxs[c].interp)
    {
    }
    forall i | 0 <= i < |w.interps|
      ensures Serves(w, i, w.interps[i])
    {
    }
  }

  /** What one operation may do to interpreters: none is replaced, and a new one appears
      only for a context that had none. */
  ghost predicate InterpsOnlyGrow(w: World, w': World) {
    && |w.ctxs| <= |w'.ctxs| && |w.interps| <= |w'.interps|
    && w.interps == w'.interps[..|w.interps|]
    && (forall c :: 0 <= c < |w.ctxs| && w.ctxs[c].interp.Some? ==> w'.ctxs[c].interp == w.ctxs[c].interp)
    && (forall i :: |w.interps| <= i < |w'.interps| ==>
          w'.interps[i].ctx.Some? && w'.interps[i].destroyed == 0 &&
          (w'.interps[i].ctx.value < |w.ctxs| ==> w.ctxs[w'.interps[i].ctx.value].interp.None?))
  }

  lemma AdoptGrows(w: World, s: ServerId, p: Option<AprId>, c: CtxId, ok: bool)
    requires c < |w.ctxs| && Within(p, |w.aprs|)
    ensures InterpsOnlyGrow(w, Adopt(w, s, p, c, ok).0)
  {
  }

  lemma InitCtxGrows(w: World, s: ServerId, p: Option<AprId>, pool: Option<PoolId>, ok: bool)
    requires Linked(w) && s < |w.servers| && Within(p, |w.aprs|) && Within(pool, |w.pools|)
    ensures InterpsOnlyGrow(w, InitCtx(w, s, p, pool, ok).0)
  {
    InitCtxAdopts(w, s, p, pool, ok);
    var got := Pick(w, Source(w, s, pool));
    if got.Some? {
      AdoptGrows(w, s, p, got.value, ok);
    }
  }

  lemma StartupGrows(w: World, p: AprId, s: ServerId, name: Option<string>, ok: bool)
    requires Linked(w) && s < |w.servers| && p < |w.aprs|
    ensures InterpsOnlyGrow(w, Startup(w, p, s, name, ok).0)
  {
    StartupPoolLinked(w, p, s, name);
    StartupPoolShape(w, p, s, name);
    var (w1, pool) := StartupPool(w, p, s, name);
    InitCtxGrows(w1, s, Some(p), Some(pool), ok);
  }

  lemma CloneGrows(w: World, cur: CtxId, pool: Option<PoolId>, s: ServerId, p: AprId, ok: bool)
    requires Linked(w) && cur < |w.ctxs| && s < |w.servers| && p < |w.aprs| && Within(pool, |w.pools|)
    ensures InterpsOnlyGrow(w, CloneCtx(w, cur, pool, s, p, ok).0)
  {
    InitCtxGrows(w, s, Some(p), pool, ok);
    InitCtxShape(w, s, Some(p), pool, ok);
  }

  lemma StepGrows(w: World, op: Op)
    requires Sound(w) && Enabled(w, op) && !op.DoCleanup?
    ensures InterpsOnlyGrow(w, Step(w, op))
  {
    match op
    case DoStartup(p, s, name, ok) => StartupGrows(w, p, s, name, ok);
    case DoInit(s, p, pool, ok) => InitCtxGrows(w, s, p, pool, ok);
    case DoClone(cur, pool, s, p, ok) => CloneGrows(w, cur, pool, s, p, ok);
    case DoDestroyApr(a) => DestroyAprIs(w, a);
    case _ =>
  }

  /** Interpreter i, made since w, is not for context c. */
  predicate NotFor(w: World, w': World, i: InterpId, c: CtxId) {
    |w.interps| <= i < |w'.interps| ==> w'.interps[i].ctx != Some(c)
  }

  /** Without teardown, a context that has an interpreter keeps that one for good, and no
      other interpreter is ever made for it. */
  lemma {:induction false} InterpreterKeptUntilTeardown(w: World, ops: seq<Op>, c: CtxId)
    requires Sound(w) && IsRun(w, ops) && forall k :: 0 <= k < |ops| ==> !ops[k].DoCleanup?
    requires c < |w.ctxs| && w.ctxs[c].interp.Some?
    ensures c < |Exec(w, ops).ctxs| && Exec(w, ops).ctxs[c].interp == w.ctxs[c].interp
    ensures |w.interps| <= |Exec(w, ops).interps| && w.interps == Exec(w, ops).interps[..|w.interps|]
    ensures forall i :: 0 <= i < |Exec(w, ops).interps| ==> NotFor(w, Exec(w, ops), i, c)
    decreases |ops|
  {
    if ops != [] {
      StepSound(w, ops[0]);
      StepGrows(w, ops[0]);
      var w1, w' := Step(w, ops[0]), Exec(w, ops);
      InterpreterKeptUntilTeardown(w1, ops[1..], c);
      forall i | |w.interps| <= i < |w'.interps|
        ensures NotFor(w, w', i, c)
      {
        assert NotFor(w1, w', i, c);
        assert i < |w1.interps| ==> w'.interps[i] == w'.interps[..|w1.interps|][i];
      }
      assert w'.interps[..|w.interps|] == w'.interps[..|w1.interps|][..|w.interps|];
    }
  }

  lemma {:induction false} RunStartsAlive(w: World, ops: seq<Op>)
    requires Sound(w) && IsRun(w, ops) && forall k :: 0 <= k < |ops| ==> !ops[k].DoCleanup?
    ensures |w.interps| <= |Exec(w, ops).interps| && w.interps == Exec(w, ops).interps[..|w.interps|]
    ensures forall i :: |w.interps| <= i < |Exec(w, ops).interps| ==> Exec(w, ops).interps[i].destroyed == 0
    decreases |ops|
  {
    if ops != [] {
      StepSound(w, ops[0]);
      StepGrows(w, ops[0]);
      RunStartsAlive(Step(w, ops[0]), ops[1..]);
      var w1, w' := Step(w, ops[0]), Exec(w, ops);
      assert w'.interps[..|w.interps|] == w'.interps[..|w1.interps|][..|w.interps|];
      assert forall i :: 0 <= i < |w1.interps| ==> w'.interps[i] == w'.interps[..|w1.interps|][i];
    }
  }

  /** A context that starts without an interpreter gets at most one: of any two interpreters
      made over a run without teardown, not both are for it. */
  lemma AtMostOneInterpreter(w: World, ops: seq<Op>, c: CtxId, i: InterpId, j: InterpId)
    requires Sound(w) && IsRun(w, ops) && forall k :: 0 <= k < |ops| ==> !ops[k].DoCleanup?
    requires |w.interps| <= i < j < |Exec(w, ops).interps|
    ensures Exec(w, ops).interps[i].ctx != Some(c) || Exec(w, ops).interps[j].ctx != Some(c)
  {
    RunStartsAlive(w, ops);
    var w' := Exec(w, ops);
    assert Serves(w', i, w'.interps[i]) && Serves(w', j, w'.interps[j]);
  }

  // ---------------------------------------------------------------- lock leaks

  /** An APR pool alive has a cleanup pending that will unlock c. */
  ghost predicate Pending(w: World, c: CtxId) {
    exists a :: 0 <= a < |w.aprs| && w.aprs[a].live && c in w.aprs[a].cleanups
  }

  ghost predicate NoLeak(w: World) {
    forall c :: 0 <= c < |w.ctxs| && w.ctxs[c].locked ==> Pending(w, c)
  }

  lemma PendingStays(w: World, w': World, c: CtxId)
    requires Pending(w, c) && |w.aprs| <= |w'.aprs|
    requires forall a :: 0 <= a < |w.aprs| && w.aprs[a].live ==>
               w'.aprs[a].live && w.aprs[a].cleanups <= w'.aprs[a].cleanups
    ensures Pending(w', c)
  {
    var a :| 0 <= a < |w.aprs| && w.aprs[a].live && c in w.aprs[a].cleanups;
    assert w'.aprs[a].live && c in w'.aprs[a].cleanups;
  }

  /** Whether init_ctx gets as far as locking a context. */
  predicate Reserves(w: World, s: ServerId, p: Option<AprId>, pool: Option<PoolId>)
    requires Linked(w) && s < |w.servers| && Within(p, |w.aprs|) && Within(pool, |w.pools|)
  {
    assert Within(w.servers[s].pool, |w.pools|);
    Kept(w, p, pool).None? && Pick(w, Source(w, s, pool)).Some?
  }

  lemma AdoptLeak(w: World, s: ServerId, p: Option<AprId>, c: CtxId, ok: bool)
    requires Sound(w) && NoLeak(w) && c < |w.ctxs| && LiveApr(w, p)
    ensures NoLeak(Adopt(w, s, p, c, ok).0)
            <==> Pending(w, c) || (p.Some? && (ok || w.ctxs[c].interp.Some?))
  {
    AdoptShape(w, s, p, c, ok);
    var w' := Adopt(w, s, p, c, ok).0;
    if p.Some? && (ok || w.ctxs[c].interp.Some?) {
      assert c in w'.aprs[p.value].cleanups;
      assert Pending(w', c);
    } else {
      assert Pending(w', c) <==> Pending(w, c);
    }
    forall d | 0 <= d < |w'.ctxs| && w'.ctxs[d].locked && d != c
      ensures Pending(w', d)
    {
      assert w.ctxs[d].locked;
      PendingStays(w, w', d);
    }
  }

  /** init_ctx leaks a lock exactly when it reserves a context that no APR pool will
      release: no APR pool was given, or the interpreter did not start. */
  lemma InitCtxLeaksIff(w: World, s: ServerId, p: Option<AprId>, pool: Option<PoolId>, ok: bool)
    requires Sound(w) && NoLeak(w) && s < |w.servers| && LiveApr(w, p) && Within(pool, |w.pools|)
    ensures NoLeak(InitCtx(w, s, p, pool, ok).0)
            <==> (Reserves(w, s, p, pool) ==>
                    var c := Pick(w, Source(w, s, pool)).value;
                    Pending(w, c) || (p.Some? && (ok || w.ctxs[c].interp.Some?)))
  {
    var w' := InitCtx(w, s, p, pool, ok).0;
    var kept := Kept(w, p, pool);
    assert Within(w.servers[s].pool, |w.pools|);
    if kept.None? && Pick(w, Source(w, s, pool)).Some? {
      AdoptLeak(w, s, p, Pick(w, Source(w, s, pool)).value, ok);
    } else {
      SameLocksAndAprs(w, w');
    }
  }

  lemma SameLocksAndAprs(w: World, w': World)
    requires NoLeak(w) && w'.aprs == w.aprs && |w.ctxs| == |w'.ctxs|
    requires forall c :: 0 <= c < |w.ctxs| ==> w'.ctxs[c].locked ==> w.ctxs[c].locked
    ensures NoLeak(w')
  {
    forall c | 0 <= c < |w'.ctxs| && w'.ctxs[c].locked
      ensures Pending(w', c)
    {
      assert Pending(w, c);
    }
  }

  /** The discipline of the request path: reservations name an APR pool, interpreters start. */
  predicate Careful(op: Op) {
    match op
    case DoStartup(_, _, _, ok) => ok
    case DoInit(_, p, _, ok) => p.Some? && ok
    case DoClone(_, _, _, _, ok) => ok
    case _ => true
  }

  lemma InitCtxNoLeak(w: World, s: ServerId, p: AprId, pool: Option<PoolId>)
    requires Sound(w) && NoLeak(w) && s < |w.servers| && LiveApr(w, Some(p)) && Within(pool, |w.pools|)
    ensures NoLeak(InitCtx(w, s, Some(p), pool, true).0)
  {
    InitCtxLeaksIff(w, s, Some(p), pool, true);
  }

  lemma StartupPoolNoLeak(w: World, p: AprId, s: ServerId, name: Option<string>)
    requires Sound(w) && NoLeak(w) && p < |w.aprs| && s < |w.servers|
    ensures NoLeak(StartupPool(w, p, s, name).0)
  {
    StartupPoolLinked(w, p, s, name);
    StartupPoolShape(w, p, s, name);
    var w' := StartupPool(w, p, s, name).0;
    forall c | 0 <= c < |w'.ctxs| && w'.ctxs[c].locked
      ensures Pending(w', c)
    {
      assert w'.ctxs[c] == w.ctxs[c];
      assert Pending(w, c);
    }
  }

  lemma {:induction false} PoolDestroyLocks(w: World, p: PoolId)
    requires Linked(w) && p < |w.pools|
    ensures var w' := PoolDestroy(w, p);
            && |w'.ctxs| == |w.ctxs| && w'.aprs == w.aprs
            && forall c :: 0 <= c < |w.ctxs| ==> w'.ctxs[c].locked == w.ctxs[c].locked
    decreases w.pools[p].nelts
  {
    if w.pools[p].nelts > 0 {
      PopCtxLinked(w, p);
      PoolDestroyLocks(PopCtx(w, p), p);
    }
  }

  lemma {:induction false} DestroyPoolsLocks(w: World, ps: seq<PoolId>)
    requires Linked(w) && forall k :: 0 <= k < |ps| ==> ps[k] < |w.pools|
    ensures var w' := DestroyPools(w, ps);
            && |w'.ctxs| == |w.ctxs| && w'.aprs == w.aprs
            && forall c :: 0 <= c < |w.ctxs| ==> w'.ctxs[c].locked == w.ctxs[c].locked
    decreases |ps|
  {
    if ps != [] {
      PoolDestroyLocks(w, ps[0]);
      DestroyPoolsLocks(PoolDestroy(w, ps[0]), ps[1..]);
    }
  }

  lemma DestroyAprNoLeak(w: World, a: AprId)
    requires Sound(w) && NoLeak(w) && a < |w.aprs|
    ensures NoLeak(DestroyApr(w, a))
  {
    DestroyAprIs(w, a);
    var w' := DestroyApr(w, a);
    forall c | 0 <= c < |w'.ctxs| && w'.ctxs[c].locked
      ensures Pending(w', c)
    {
      assert w.ctxs[c].locked && Pending(w, c);
      var b :| 0 <= b < |w.aprs| && w.aprs[b].live && c in w.aprs[b].cleanups;
      assert w'.aprs[b] == w.aprs[b];
    }
  }

  lemma StepNoLeak(w: World, op: Op)
    requires Sound(w) && NoLeak(w) && Enabled(w, op) && Careful(op)
    ensures NoLeak(Step(w, op))
  {
    match op
    case DoStartup(p, s, name, ok) =>
      StartupPoolLinked(w, p, s, name);
      StartupPoolSound(w, p, s, name);
      StartupPoolNoLeak(w, p, s, name);
      var (w1, pool) := StartupPool(w, p, s, name);
      InitCtxNoLeak(w1, s, p, Some(pool));
      var w2 := InitCtx(w1, s, Some(p), Some(pool), true).0;
      SameLocksAndAprs(w2, Startup(w, p, s, name, true).0);
    case DoInit(s, p, pool, ok) => InitCtxNoLeak(w, s, p.value, pool);
    case DoClone(cur, pool, s, p, ok) =>
      InitCtxNoLeak(w, s, p, pool);
      InitCtxShape(w, s, Some(p), pool, ok);
      SameLocksAndAprs(InitCtx(w, s, Some(p), pool, true).0,
                       if pool == Some(w.ctxs[cur].home) then InitCtx(w, s, Some(p), pool, true).0 else Step(w, op));
    case DoRelease(c) => SameLocksAndAprs(w, Step(w, op));
    case DoTouch(c, scope, index) => SameLocksAndAprs(w, Step(w, op));
    case DoNewApr =>
      forall c | 0 <= c < |w.ctxs| && w.ctxs[c].locked
        ensures Pending(NewApr(w), c)
      {
        PendingStays(w, NewApr(w), c);
      }
    case DoDestroyApr(a) => DestroyAprNoLeak(w, a);
    case DoCleanup(s, order) =>
      DestroyPoolsLocks(w, order);
      SameLocksAndAprs(w, Cleanup(w, s, order));
  }

  lemma {:induction false} RunNoLeak(w: World, ops: seq<Op>)
    requires Sound(w) && NoLeak(w) && IsRun(w, ops) && forall k :: 0 <= k < |ops| ==> Careful(ops[k])
    ensures NoLeak(Exec(w, ops))
    decreases |ops|
  {
    if ops != [] {
      StepSound(w, ops[0]);
      StepNoLeak(w, ops[0]);
      RunNoLeak(Step(w, ops[0]), ops[1..]);
    }
  }

  /** No lock leak: after any careful run from boot, a locked context is still going to be
      released, even if its userdata key was overwritten since; and once every APR pool is
      gone, every context is unlocked. */
  lemma LocksEndWithTheirAprPools(threaded: bool, servers: seq<bool>, ops: seq<Op>)
    requires (BootSound(threaded, servers); IsRun(Boot(threaded, servers), ops))
    requires forall k :: 0 <= k < |ops| ==> Careful(ops[k])
    ensures (BootSound(threaded, servers);
             var w := Exec(Boot(threaded, servers), ops);
             && (forall c :: 0 <= c < |w.ctxs| && w.ctxs[c].locked ==> Pending(w, c))
             && ((forall a :: 0 <= a < |w.aprs| ==> !w.aprs[a].live) ==>
                   forall c :: 0 <= c < |w.ctxs| ==> !w.ctxs[c].locked))
  {
    BootSound(threaded, servers);
    RunNoLeak(Boot(threaded, servers), ops);
  }

  // ---------------------------------------------------------------- teardown

  /** Context c is still in pool p. */
  predicate InPool(w: World, p: PoolId, c: CtxId)
    requires p < |w.pools| && w.pools[p].nelts <= |w.pools[p].elts|
  {
    c in w.pools[p].elts[..w.pools[p].nelts]
  }

  /** Interpreter i is alive and its context still in pool p. */
  predicate Owned(w: World, p: PoolId, i: InterpId)
    requires p < |w.pools| && w.pools[p].nelts <= |w.pools[p].elts| && i < |w.interps|
  {
    w.interps[i].destroyed == 0 && w.interps[i].ctx.Some? && InPool(w, p, w.interps[i].ctx.value)
  }

  /** Interpreter x, destroyed once more if `hit`. */
  function Hit(x: Interp, hit: bool): Interp {
    x.(destroyed := x.destroyed + if hit then 1 else 0)
  }

  lemma PopCtxOwned(w: World, p: PoolId, i: InterpId)
    requires Sound(w) && p < |w.pools| && w.pools[p].nelts > 0 && i < |w.interps|
    requires PoolLinked(w, w.pools[p])
    ensures var w1 := PopCtx(w, p);
            && |w1.interps| == |w.interps|
            && w1.pools == w.pools[p := w.pools[p].(nelts := w.pools[p].nelts - 1)]
            && var popped := w.ctxs[Popped(w, p)].interp == Some(i);
               && w1.interps[i] == Hit(w.interps[i], popped)
               && (popped ==> Owned(w, p, i) && !Owned(w1, p, i))
               && (!popped ==> (Owned(w, p, i) <==> Owned(w1, p, i)))
  {
    var n := w.pools[p].nelts - 1;
    var c := Popped(w, p);
    var w1 := PopCtx(w, p);
    assert Runs(w, c, w.ctxs[c].interp) && Serves(w, i, w.interps[i]);
    assert w.pools[p].elts[..n + 1] == w.pools[p].elts[..n] + [c];
    assert |w1.interps| == |w.interps|;
    assert w1.interps[i] == Hit(w.interps[i], w.ctxs[c].interp == Some(i));
  }

  /** Destroying a pool destroys what the pool owns, once, and empties it. */
  lemma {:induction false} PoolDestroyHits(w: World, p: PoolId)
    requires Sound(w) && p < |w.pools| && PoolLinked(w, w.pools[p])
    ensures var w' := PoolDestroy(w, p);
            && |w'.interps| == |w.interps|
            && w'.pools == w.pools[p := w.pools[p].(nelts := 0)]
            && forall i :: 0 <= i < |w.interps| ==> w'.interps[i] == Hit(w.interps[i], Owned(w, p, i))
    decreases w.pools[p].nelts
  {
    if w.pools[p].nelts > 0 {
      PopCtxSound(w, p);
      var w1 := PopCtx(w, p);
      forall i | 0 <= i < |w.interps|
        ensures |w1.interps| == |w.interps|
        ensures Hit(w1.interps[i], Owned(w1, p, i)) == Hit(w.interps[i], Owned(w, p, i))
      {
        PopCtxOwned(w, p, i);
      }
      PopCtxPools(w, p);
      PoolDestroyHits(w1, p);
    }
  }

  lemma PopCtxPools(w: World, p: PoolId)
    requires Linked(w) && p < |w.pools| && w.pools[p].nelts > 0
    ensures PopCtx(w, p).pools == w.pools[p := w.pools[p].(nelts := w.pools[p].nelts - 1)]
    ensures |PopCtx(w, p).interps| == |w.interps|
  {
    PopCtxLinked(w, p);
  }

  /** Interpreter i is alive and its context is in one of the pools ps. */
  ghost predicate Registered(w: World, ps: seq<PoolId>, i: InterpId)
    requires Linked(w) && (forall k :: 0 <= k < |ps| ==> ps[k] < |w.pools|) && i < |w.interps|
  {
    exists k :: 0 <= k < |ps| && PoolLinked(w, w.pools[ps[k]]) && Owned(w, ps[k], i)
  }

  /** Pools that are still full own what they owned; the emptied one owns nothing. */
  lemma OwnedAfter(w: World, p: PoolId, q: PoolId, i: InterpId)
    requires Sound(w) && p < |w.pools| && q < |w.pools| && i < |w.interps|
    requires PoolLinked(w, w.pools[p]) && PoolLinked(w, w.pools[q])
    ensures var w' := PoolDestroy(w, p);
            && i < |w'.interps| && w'.pools[q].nelts <= |w'.pools[q].elts|
            && (Owned(w', q, i) <==> Owned(w, q, i) && !Owned(w, p, i))
  {
    PoolDestroyHits(w, p);
    if q != p && Owned(w, q, i) && Owned(w, p, i) {
      var c := w.interps[i].ctx.value;
      InPoolHome(w, p, c);
      InPoolHome(w, q, c);
    }
  }

  lemma InPoolHome(w: World, p: PoolId, c: CtxId)
    requires Sound(w) && p < |w.pools| && PoolLinked(w, w.pools[p]) && InPool(w, p, c)
    ensures c < |w.ctxs| && w.ctxs[c].home == p
  {
    var k :| 0 <= k < w.pools[p].nelts && w.pools[p].elts[k] == c;
    assert Sits(w, p, k);
  }

  lemma RegisteredAfter(w: World, ps: seq<PoolId>, i: InterpId)
    requires Sound(w) && ps != [] && (forall k :: 0 <= k < |ps| ==> ps[k] < |w.pools|) && i < |w.interps|
    requires PoolLinked(w, w.pools[ps[0]])
    ensures var w1 := PoolDestroy(w, ps[0]);
            && i < |w1.interps|
            && (Registered(w, ps, i) <==> Owned(w, ps[0], i) || Registered(w1, ps[1..], i))
            && !(Owned(w, ps[0], i) && Registered(w1, ps[1..], i))
  {
    var w1 := PoolDestroy(w, ps[0]);
    PoolDestroyHits(w, ps[0]);
    forall k | 0 <= k < |ps|
      ensures PoolLinked(w, w.pools[ps[k]]) && PoolLinked(w1, w1.pools[ps[k]])
      ensures Owned(w1, ps[k], i) <==> Owned(w, ps[k], i) && !Owned(w, ps[0], i)
    {
      assert PoolLinked(w, w.pools[ps[k]]) && PoolLinked(w1, w1.pools[ps[k]]);
      OwnedAfter(w, ps[0], ps[k], i);
    }
    assert forall k :: 0 <= k < |ps[1..]| ==> ps[1..][k] == ps[k + 1];
    if Registered(w, ps, i) && !Owned(w, ps[0], i) {
      var k :| 0 <= k < |ps| && Owned(w, ps[k], i);
      assert ps[1..][k - 1] == ps[k];
    }
  }

  lemma {:induction false} DestroyPoolsHits(w: World, ps: seq<PoolId>, i: InterpId)
    requires Sound(w) && (forall k :: 0 <= k < |ps| ==> ps[k] < |w.pools|) && i < |w.interps|
    ensures var w' := DestroyPools(w, ps);
            i < |w'.interps| && w'.interps[i] == Hit(w.interps[i], Registered(w, ps, i))
    decreases |ps|
  {
    if ps != [] {
      assert PoolLinked(w, w.pools[ps[0]]);
      var w1 := PoolDestroy(w, ps[0]);
      PoolDestroySound(w, ps[0]);
      PoolDestroyHits(w, ps[0]);
      RegisteredAfter(w, ps, i);
      DestroyPoolsHits(w1, ps[1..], i);
    }
  }

  lemma {:induction false} DestroyPoolsEmpties(w: World, ps: seq<PoolId>)
    requires Sound(w) && forall k :: 0 <= k < |ps| ==> ps[k] < |w.pools|
    ensures |DestroyPools(w, ps).pools| == |w.pools|
    ensures forall p :: 0 <= p < |w.pools| ==>
              DestroyPools(w, ps).pools[p] == if p in ps then w.pools[p].(nelts := 0) else w.pools[p]
    decreases |ps|
  {
    if ps != [] {
      assert PoolLinked(w, w.pools[ps[0]]);
      PoolDestroySound(w, ps[0]);
      PoolDestroyHits(w, ps[0]);
      DestroyPoolsEmpties(PoolDestroy(w, ps[0]), ps[1..]);
    }
  }

  /** mp_ctx_pool_destroy_all, in whatever order the hash is walked, destroys each living
      interpreter of the registered pools, and no other one; and the one it destroys had
      never been destroyed before. */
  lemma TeardownDestroysOnce(w: World, order: seq<PoolId>, i: InterpId)
    requires Sound(w) && Lists(order, w) && i < |w.interps|
    ensures i < |DestroyPools(w, order).interps|
    ensures DestroyPools(w, order).interps[i].destroyed
            == if Registered(w, order, i) then 1 else w.interps[i].destroyed
  {
    DestroyPoolsHits(w, order, i);
  }

  /** Afterwards every registered pool is empty and every other pool is as it was. */
  lemma TeardownEmptiesPools(w: World, order: seq<PoolId>, p: PoolId)
    requires Sound(w) && Lists(order, w) && p < |w.pools|
    ensures p < |DestroyPools(w, order).pools|
    ensures DestroyPools(w, order).pools[p]
            == if p in w.names.Values then w.pools[p].(nelts := 0) else w.pools[p]
  {
    DestroyPoolsEmpties(w, order);
    if p in w.names.Values {
      var n :| n in w.names && w.names[n] == p;
      assert p in order;
    }
  }

  /** Registered means: in the pool of some name. */
  lemma RegisteredByName(w: World, order: seq<PoolId>, i: InterpId)
    requires Sound(w) && Lists(order, w) && i < |w.interps|
    ensures Registered(w, order, i)
            <==> exists n :: n in w.names && PoolLinked(w, w.pools[w.names[n]]) && Owned(w, w.names[n], i)
  {
    if Registered(w, order, i) {
      var k :| 0 <= k < |order| && PoolLinked(w, w.pools[order[k]]) && Owned(w, order[k], i);
      var n :| n in w.names && w.names[n] == order[k];
    }
    if n :| n in w.names && PoolLinked(w, w.pools[w.names[n]]) && Owned(w, w.names[n], i) {
      var k :| 0 <= k < |order| && order[k] == w.names[n];
    }
  }

  // ---------------------------------------------------------------- pool names

  lemma SitsAtHome(w: World, p: PoolId, c: CtxId)
    requires Sound(w) && p < |w.pools| && c in w.pools[p].elts
    ensures c < |w.ctxs| && w.ctxs[c].home == p
  {
    var k :| 0 <= k < |w.pools[p].elts| && w.pools[p].elts[k] == c;
    assert Sits(w, p, k);
  }

  /** In every reachable state a registered name leads to a pool that carries it, so
      distinct names lead to distinct pools, and those share no context. */
  lemma NamesSeparatePools(threaded: bool, servers: seq<bool>, ops: seq<Op>, a: string, b: string)
    requires (BootSound(threaded, servers); IsRun(Boot(threaded, servers), ops))
    requires (BootSound(threaded, servers);
              var w := Exec(Boot(threaded, servers), ops); a in w.names && b in w.names && a != b)
    ensures (BootSound(threaded, servers);
             var w := Exec(Boot(threaded, servers), ops);
             && PoolName(w, w.names[a]) == Some(a)
             && w.names[a] != w.names[b]
             && forall c :: c in w.pools[w.names[a]].elts ==> c !in w.pools[w.names[b]].elts)
  {
    BootSound(threaded, servers);
    var w := Exec(Boot(threaded, servers), ops);
    var p, q := w.names[a], w.names[b];
    forall c | c in w.pools[p].elts
      ensures c !in w.pools[q].elts
    {
      SitsAtHome(w, p, c);
      if c in w.pools[q].elts {
        SitsAtHome(w, q, c);
      }
    }
  }

  /** The context init_ctx returns is in the requested pool; with none requested, it is the
      one bound to p, or else one of the server's pool. */
  lemma InitCtxHome(w: World, s: ServerId, p: Option<AprId>, pool: Option<PoolId>, ok: bool)
    requires Sound(w) && s < |w.servers| && LiveApr(w, p) && Within(pool, |w.pools|)
    ensures var (w', c) := InitCtx(w, s, p, pool, ok);
            c.Some? ==>
              && c.value < |w.ctxs| == |w'.ctxs|
              && w'.ctxs[c.value].home == w.ctxs[c.value].home
              && (pool.Some? ==> w.ctxs[c.value].home == pool.value)
              && (pool.None? ==> if p.Some? && w.aprs[p.value].current.Some?
                                 then c == w.aprs[p.value].current
                                 else Some(w.ctxs[c.value].home) == w.servers[s].pool)
              && (p.Some? ==> w'.aprs[p.value].current == c)
  {
    if Kept(w, p, pool).None? {
      assert Within(w.servers[s].pool, |w.pools|);
      var src := Source(w, s, pool);
      var got := Pick(w, src);
      if got.Some? {
        SitsAtHome(w, src.value, got.value);
        AdoptShape(w, s, p, got.value, ok);
      }
    }
  }

  /** init_ctx comes back empty-handed exactly when it keeps no context and the pool has
      none to give, or the interpreter does not start. */
  predicate Denied(w: World, s: ServerId, p: Option<AprId>, pool: Option<PoolId>, ok: bool)
    requires Linked(w) && s < |w.servers| && Within(p, |w.aprs|) && Within(pool, |w.pools|)
  {
    assert Within(w.servers[s].pool, |w.pools|);
    var got := Pick(w, Source(w, s, pool));
    Kept(w, p, pool).None? && (got.None? || (w.ctxs[got.value].interp.None? && !ok))
  }

  lemma InitCtxDeniedIff(w: World, s: ServerId, p: Option<AprId>, pool: Option<PoolId>, ok: bool)
    requires Linked(w) && s < |w.servers| && Within(p, |w.aprs|) && Within(pool, |w.pools|)
    ensures InitCtx(w, s, p, pool, ok).1.None? <==> Denied(w, s, p, pool, ok)
  {
    assert Within(w.servers[s].pool, |w.pools|);
    var got := Pick(w, Source(w, s, pool));
    if Kept(w, p, pool).None? && got.Some? {
      AdoptShape(w, s, p, got.value, ok);
    }
  }

  /** Once started, modparrot_startup with a registered name creates no pool and no name;
      what it gives is a context of the pool of that name. */
  lemma RepeatedStartup(w: World, p: AprId, s: ServerId, n: string, ok: bool)
    requires Sound(w) && w.started && n in w.names && s < |w.servers| && LiveApr(w, Some(p))
    ensures var (w', c) := Startup(w, p, s, Some(n), ok);
            && w'.pools == w.pools && w'.names == w.names && |w'.ctxs| == |w.ctxs|
            && (c.Some? ==> c.value < |w.ctxs| && w'.ctxs[c.value].home == w.names[n])
            && (c.None? <==> Denied(w, s, Some(p), Some(w.names[n]), ok))
  {
    InitCtxLinked(w, s, Some(p), Some(w.names[n]), ok);
    InitCtxHome(w, s, Some(p), Some(w.names[n]), ok);
    InitCtxDeniedIff(w, s, Some(p), Some(w.names[n]), ok);
    InitCtxFrame(w, s, Some(p), Some(w.names[n]), ok);
  }
}
