/**
 Where pools and contexts live, and what is left after modparrot_cleanup.  A pool and its
 contexts are allocated in the APR pool passed to modparrot_startup and go with it, while
 the name table and the server configurations keep pointing at them.
*/
module Memory {
  import opened Options
  import opened Lifecycle
  import opened Reachable
  import opened Runs

  // ---------------------------------------------------------------- allocation

  /** The memory of pool p, and of its contexts, has not been freed. */
  predicate Allocated(w: World, p: PoolId)
    requires Linked(w) && p < |w.pools|
  {
    assert PoolLinked(w, w.pools[p]);
    w.aprs[w.pools[p].owner].live
  }

  /** No operation but its own destruction ends an APR pool, and pools stay where they are. */
  ghost predicate PlacesKept(w: World, w': World, dead: Option<AprId>) {
    && |w.aprs| <= |w'.aprs| && |w.pools| <= |w'.pools| && |w.servers| == |w'.servers|
    && (forall a :: 0 <= a < |w.aprs| ==> w'.aprs[a].live == (w.aprs[a].live && dead != Some(a)))
    && (forall p :: 0 <= p < |w.pools| ==> w'.pools[p].owner == w.pools[p].owner)
  }

  lemma InitCtxPlaces(w: World, s: ServerId, p: Option<AprId>, pool: Option<PoolId>, ok: bool)
    requires Linked(w) && s < |w.servers| && Within(p, |w.aprs|) && Within(pool, |w.pools|)
    ensures var w' := InitCtx(w, s, p, pool, ok).0;
            PlacesKept(w, w', None) && w'.servers == w.servers && w'.pools == w.pools
  {
    InitCtxFrame(w, s, p, pool, ok);
    InitCtxAdopts(w, s, p, pool, ok);
    var got := Pick(w, Source(w, s, pool));
    if got.Some? {
      AdoptShape(w, s, p, got.value, ok);
    }
  }

  lemma {:induction false} PoolDestroyOwners(w: World, p: PoolId)
    requires Linked(w) && p < |w.pools|
    ensures forall q :: 0 <= q < |w.pools| ==> PoolDestroy(w, p).pools[q].owner == w.pools[q].owner
    decreases w.pools[p].nelts
  {
    if w.pools[p].nelts > 0 {
      PopCtxLinked(w, p);
      PopCtxPools(w, p);
      PoolDestroyOwners(PopCtx(w, p), p);
    }
  }

  lemma {:induction false} DestroyPoolsOwners(w: World, ps: seq<PoolId>)
    requires Linked(w) && forall k :: 0 <= k < |ps| ==> ps[k] < |w.pools|
    ensures forall q :: 0 <= q < |w.pools| ==> DestroyPools(w, ps).pools[q].owner == w.pools[q].owner
    decreases |ps|
  {
    if ps != [] {
      PoolDestroyOwners(w, ps[0]);
      DestroyPoolsOwners(PoolDestroy(w, ps[0]), ps[1..]);
    }
  }

  function Ended(op: Op): Option<AprId> {
    if op.DoDestroyApr? then Some(op.a) else None
  }

  ghost predicate ServersKeepPools(w: World, w': World) {
    |w.servers| == |w'.servers| && forall s :: 0 <= s < |w.servers| && w.servers[s].pool.Some? ==>
                                     w'.servers[s].pool == w.servers[s].pool
  }

  lemma StartupPlaces(w: World, p: AprId, s: ServerId, name: Option<string>, ok: bool)
    requires Linked(w) && p < |w.aprs| && s < |w.servers|
    ensures var w' := Startup(w, p, s, name, ok).0; PlacesKept(w, w', None) && ServersKeepPools(w, w')
  {
    StartupPoolLinked(w, p, s, name);
    StartupPoolShape(w, p, s, name);
    var (w1, pool) := StartupPool(w, p, s, name);
    InitCtxPlaces(w1, s, Some(p), Some(pool), ok);
  }

  lemma CleanupPlaces(w: World, s: ServerId, order: seq<PoolId>)
    requires Linked(w) && s < |w.servers| && forall k :: 0 <= k < |order| ==> order[k] < |w.pools|
    ensures PlacesKept(w, Cleanup(w, s, order), None)
  {
    DestroyPoolsFrame(w, order);
    DestroyPoolsOwners(w, order);
  }

  /** A server that has a pool keeps it through every operation but a cleanup. */
  lemma StepPlaces(w: World, op: Op)
    requires Sound(w) && Enabled(w, op)
    ensures PlacesKept(w, Step(w, op), Ended(op))
    ensures !op.DoCleanup? ==> ServersKeepPools(w, Step(w, op))
  {
    match op
    case DoStartup(p, s, name, ok) => StartupPlaces(w, p, s, name, ok);
    case DoInit(s, p, pool, ok) => InitCtxPlaces(w, s, p, pool, ok);
    case DoClone(cur, pool, s, p, ok) =>
      InitCtxPlaces(w, s, Some(p), pool, ok);
      InitCtxShape(w, s, Some(p), pool, ok);
    case DoDestroyApr(a) => DestroyAprIs(w, a);
    case DoCleanup(s, order) => CleanupPlaces(w, s, order);
    case _ =>
  }

  /** The memory of a pool is there at the end of a run if and only if it was at the start
      and no operation destroyed the APR pool it was allocated in. */
  lemma {:induction false} AllocatedIff(w: World, ops: seq<Op>, p: PoolId)
    requires Sound(w) && IsRun(w, ops) && p < |w.pools|
    ensures p < |Exec(w, ops).pools| && Exec(w, ops).pools[p].owner == w.pools[p].owner
    ensures Allocated(Exec(w, ops), p)
            <==> Allocated(w, p) && forall k :: 0 <= k < |ops| ==> ops[k] != DoDestroyApr(w.pools[p].owner)
    decreases |ops|
  {
    assert PoolLinked(w, w.pools[p]);
    if ops != [] {
      StepSound(w, ops[0]);
      StepPlaces(w, ops[0]);
      AllocatedIff(Step(w, ops[0]), ops[1..], p);
      assert forall k :: 0 < k < |ops| ==> ops[k] == ops[1..][k - 1];
    }
  }

  lemma {:induction false} ServerKeepsPool(w: World, ops: seq<Op>, s: ServerId)
    requires Sound(w) && IsRun(w, ops) && forall k :: 0 <= k < |ops| ==> !ops[k].DoCleanup?
    requires s < |w.servers| && w.servers[s].pool.Some?
    ensures s < |Exec(w, ops).servers| && Exec(w, ops).servers[s].pool == w.servers[s].pool
    decreases |ops|
  {
    if ops != [] {
      StepSound(w, ops[0]);
      StepPlaces(w, ops[0]);
      ServerKeepsPool(Step(w, ops[0]), ops[1..], s);
    }
  }

  /** The contexts a server gives to connections.  Let modparrot_startup create the pool of
      server s in APR pool p, as open_logs does with ptemp.  However things go on, short of a
      cleanup, each context init_ctx then gives to a connection that was bound to none is in
      allocated memory if and only if p has not been destroyed meanwhile. */
  lemma ServedFromLiveMemoryIff(w: World, p: AprId, s: ServerId, name: Option<string>, ops: seq<Op>, a: AprId, ok: bool)
    requires Sound(w) && !w.started && s < |w.servers| && w.servers[s].pool.None? && LiveApr(w, Some(p))
    requires (StartupSound(w, p, s, name, true); IsRun(Startup(w, p, s, name, true).0, ops))
    requires forall k :: 0 <= k < |ops| ==> !ops[k].DoCleanup?
    requires (StartupSound(w, p, s, name, true);
              var w' := Exec(Startup(w, p, s, name, true).0, ops);
              LiveApr(w', Some(a)) && w'.aprs[a].current.None? && s < |w'.servers|)
    ensures (StartupSound(w, p, s, name, true);
             var w' := Exec(Startup(w, p, s, name, true).0, ops);
             var c := InitCtx(w', s, Some(a), None, ok).1;
             c.Some? ==> c.value < |w'.ctxs| && w'.ctxs[c.value].home < |w'.pools|
                         && (Allocated(w', w'.ctxs[c.value].home)
                             <==> forall k :: 0 <= k < |ops| ==> ops[k] != DoDestroyApr(p)))
  {
    StartupSound(w, p, s, name, true);
    StartupPoolLinked(w, p, s, name);
    StartupPoolShape(w, p, s, name);
    var (w0, q) := StartupPool(w, p, s, name);
    InitCtxPlaces(w0, s, Some(p), Some(q), true);
    var w1 := Startup(w, p, s, name, true).0;
    assert w1.pools[q] == Pool([|w.ctxs|], 1, p) && w1.servers[s].pool == Some(q) && Allocated(w1, q);
    var w' := Exec(w1, ops);
    ServerKeepsPool(w1, ops, s);
    AllocatedIff(w1, ops, q);
    InitCtxHome(w', s, Some(a), None, ok);
    var c := InitCtx(w', s, Some(a), None, ok).1;
    if c.Some? {
      assert CtxLinked(w', w'.ctxs[c.value]);
    }
  }

  // ---------------------------------------------------------------- after a cleanup

  /** What a cleanup for server s leaves behind: the name table, the base server, APR pools
      and other servers as they were, and every context with its lock, scope and counter. */
  lemma CleanupLeaves(w: World, s: ServerId, order: seq<PoolId>)
    requires Linked(w) && s < |w.servers| && Lists(order, w)
    ensures var w' := Cleanup(w, s, order);
            && w'.names == w.names && w'.base == w.base && w'.aprs == w.aprs && w'.threaded == w.threaded
            && !w'.started && |w'.servers| == |w.servers| && w'.servers[s] == Server(None, w.servers[s].enabled)
            && (forall v :: 0 <= v < |w.servers| && v != s ==> w'.servers[v] == w.servers[v])
            && |w'.ctxs| == |w.ctxs|
            && forall c :: 0 <= c < |w.ctxs| ==> w'.ctxs[c].(interp := None) == w.ctxs[c].(interp := None)
  {
    DestroyPoolsFrame(w, order);
    DestroyPoolsCtxs(w, order);
  }

  lemma {:induction false} PoolDestroyCtxs(w: World, p: PoolId)
    requires Linked(w) && p < |w.pools|
    ensures var w' := PoolDestroy(w, p);
            && |w'.ctxs| == |w.ctxs|
            && forall c :: 0 <= c < |w.ctxs| ==> w'.ctxs[c].(interp := None) == w.ctxs[c].(interp := None)
    decreases w.pools[p].nelts
  {
    if w.pools[p].nelts > 0 {
      PopCtxLinked(w, p);
      PoolDestroyCtxs(PopCtx(w, p), p);
    }
  }

  lemma {:induction false} DestroyPoolsCtxs(w: World, ps: seq<PoolId>)
    requires Linked(w) && forall k :: 0 <= k < |ps| ==> ps[k] < |w.pools|
    ensures var w' := DestroyPools(w, ps);
            && |w'.ctxs| == |w.ctxs|
            && forall c :: 0 <= c < |w.ctxs| ==> w'.ctxs[c].(interp := None) == w.ctxs[c].(interp := None)
    decreases |ps|
  {
    if ps != [] {
      PoolDestroyCtxs(w, ps[0]);
      DestroyPoolsCtxs(PoolDestroy(w, ps[0]), ps[1..]);
    }
  }

  /** After modparrot_cleanup the next startup is a first one: it makes server s the base
      server and creates, in p, a pool with one context and a new interpreter, even under a
      name that is still in the table. */
  lemma RestartIsFresh(w: World, s: ServerId, order: seq<PoolId>, p: AprId, name: Option<string>)
    requires Sound(w) && s < |w.servers| && Lists(order, w) && LiveApr(w, Some(p))
    ensures (CleanupSound(w, s, order);
             DestroyPoolsFrame(w, order);
             var (w', c) := Startup(Cleanup(w, s, order), p, s, name, true);
             && c == Some(|w.ctxs|) && |w'.ctxs| == |w.ctxs| + 1 && w'.ctxs[|w.ctxs|].home == |w.pools|
             && |w'.pools| == |w.pools| + 1 && w'.pools[|w.pools|] == Pool([|w.ctxs|], 1, p)
             && w'.ctxs[|w.ctxs|].interp == Some(|w.interps|) && |w'.interps| == |w.interps| + 1
             && w'.interps[|w.interps|] == Interp(c, 0)
             && w'.started && w'.base == Some(s) && w'.servers[s].pool == Some(|w.pools|)
             && w'.names == w.names[NameOr(name) := |w.pools|])
  {
    CleanupSound(w, s, order);
    DestroyPoolsFrame(w, order);
    DestroyPoolsSizes(w, order);
    FreshStartup(Cleanup(w, s, order), p, s, name);
  }

  lemma {:induction false} PoolDestroySizes(w: World, p: PoolId)
    requires Linked(w) && p < |w.pools|
    ensures |PoolDestroy(w, p).interps| == |w.interps|
    decreases w.pools[p].nelts
  {
    if w.pools[p].nelts > 0 {
      PopCtxLinked(w, p);
      PopCtxPools(w, p);
      PoolDestroySizes(PopCtx(w, p), p);
    }
  }

  lemma {:induction false} DestroyPoolsSizes(w: World, ps: seq<PoolId>)
    requires Linked(w) && forall k :: 0 <= k < |ps| ==> ps[k] < |w.pools|
    ensures |DestroyPools(w, ps).interps| == |w.interps|
    decreases |ps|
  {
    if ps != [] {
      PoolDestroySizes(w, ps[0]);
      DestroyPoolsSizes(PoolDestroy(w, ps[0]), ps[1..]);
    }
  }

  /** A second cleanup, for whichever server and in whatever order, destroys nothing more. */
  lemma SecondCleanupDestroysNothing(w: World, s: ServerId, order: seq<PoolId>, v: ServerId, order': seq<PoolId>)
    requires Sound(w) && s < |w.servers| && v < |w.servers| && Lists(order, w) && Lists(order', w)
    ensures (CleanupSound(w, s, order);
             DestroyPoolsFrame(w, order);
             Cleanup(Cleanup(w, s, order), v, order').interps == Cleanup(w, s, order).interps)
  {
    CleanupSound(w, s, order);
    DestroyPoolsFrame(w, order);
    var w1 := Cleanup(w, s, order);
    DestroyPoolsEmpties(w, order);
    forall k | 0 <= k < |order'|
      ensures w1.pools[order'[k]].nelts == 0
    {
      assert order'[k] in w.names.Values;
      var n :| n in w.names && w.names[n] == order'[k];
      assert order'[k] in order;
    }
    EmptyPoolsStay(w1, order');
  }

  lemma {:induction false} EmptyPoolsStay(w: World, ps: seq<PoolId>)
    requires Linked(w) && forall k :: 0 <= k < |ps| ==> ps[k] < |w.pools| && w.pools[ps[k]].nelts == 0
    ensures DestroyPools(w, ps) == w
    decreases |ps|
  {
    if ps != [] {
      assert PoolDestroy(w, ps[0]) == w;
      EmptyPoolsStay(w, ps[1..]);
    }
  }
}
