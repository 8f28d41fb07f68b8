/**
 What holds in every reachable World: pools, interpreters, bindings and pool names agree
 with each other; a context locked by init_ctx is always going to be unlocked; teardown
 destroys every registered interpreter exactly once.
*/
module Reachable {
  import opened Options
  import opened Lifecycle

  // ---------------------------------------------------------------- the invariant

  /** Every context sits in exactly one slot of one pool, the pool it points back to. */
  ghost predicate HomesOk(w: World)
    requires Linked(w)
  {
    && (forall p, i :: 0 <= p < |w.pools| && 0 <= i < |w.pools[p].elts| ==> Sits(w, p, i))
    && (forall p, i, j :: 0 <= p < |w.pools| && 0 <= i < j < |w.pools[p].elts| ==>
          w.pools[p].elts[i] != w.pools[p].elts[j])
    && (forall c :: 0 <= c < |w.ctxs| ==> Placed(w, w.ctxs[c].home, c))
  }

  ghost predicate Sits(w: World, p: PoolId, i: nat)
    requires p < |w.pools| && i < |w.pools[p].elts|
  {
    w.pools[p].elts[i] < |w.ctxs| && w.ctxs[w.pools[p].elts[i]].home == p
  }

  ghost predicate Placed(w: World, p: PoolId, c: CtxId) {
    p < |w.pools| && c in w.pools[p].elts
  }

  /** get_interp_ctx(ctx.interp) == ctx, and back, for every interpreter still alive. */
  ghost predicate InterpsOk(w: World) {
    && (forall c :: 0 <= c < |w.ctxs| ==> Runs(w, c, w.ctxs[c].interp))
    && (forall i :: 0 <= i < |w.interps| ==> Serves(w, i, w.interps[i]))
  }

  ghost predicate Runs(w: World, c: CtxId, i: Option<InterpId>) {
    i.Some? ==> i.value < |w.interps| && w.interps[i.value] == Interp(Some(c), 0)
  }

  ghost predicate Serves(w: World, i: InterpId, x: Interp) {
    && x.destroyed <= 1
    && (x.destroyed == 0 ==> x.ctx.Some? && x.ctx.value < |w.ctxs| && w.ctxs[x.ctx.value].interp == Some(i))
  }

  /** A bound context always has a cleanup pending on the same APR pool. */
  ghost predicate BindingsOk(w: World) {
    forall a :: 0 <= a < |w.aprs| ==> BindingOk(w.aprs[a])
  }

  ghost predicate BindingOk(x: Apr) {
    && (x.current.Some? ==> x.live && x.current.value in x.cleanups)
    && (!x.live ==> x.cleanups == [])
  }

  /** Looking up a name gives a pool whose stored name is that name. */
  ghost predicate NamesOk(w: World)
    requires Linked(w)
  {
    forall n :: n in w.names ==> w.names[n] < |w.pools| && PoolName(w, w.names[n]) == Some(n)
  }

  ghost predicate Sound(w: World) {
    Linked(w) && HomesOk(w) && InterpsOk(w) && BindingsOk(w) && NamesOk(w)
  }

  /** The world after start: nothing but servers without pools. */
  function Boot(threaded: bool, servers: seq<bool>): World {
    World(threaded, [], [], [], [], seq(|servers|, i requires 0 <= i < |servers| => Server(None, servers[i])),
          map[], false, None)
  }

  lemma BootSound(threaded: bool, servers: seq<bool>)
    ensures Sound(Boot(threaded, servers))
  {
  }

  // ---------------------------------------------------------------- small steps keep it

  /** x may stand where y stands: same pool, same name, same interpreter. */
  predicate SamePlace(x: Ctx, y: Ctx) {
    x.home == y.home && x.name == y.name && x.interp == y.interp
  }

  lemma SetCtxSound(w: World, c: CtxId, x: Ctx)
    requires Sound(w) && c < |w.ctxs| && SamePlace(x, w.ctxs[c])
    ensures Sound(SetCtx(w, c, x))
  {
    assert CtxLinked(w, w.ctxs[c]);
    SetCtxLinked(w, c, x);
    SameLayout(w, SetCtx(w, c, x));
  }

  /** Homes and names stay right while no context changes pool or name. */
  lemma HomesKept(w: World, w': World)
    requires Linked(w) && HomesOk(w) && NamesOk(w) && Linked(w')
    requires |w'.ctxs| == |w.ctxs| && |w'.pools| == |w.pools| && w'.names == w.names
    requires forall c :: 0 <= c < |w.ctxs| ==>
               w'.ctxs[c].home == w.ctxs[c].home && w'.ctxs[c].name == w.ctxs[c].name
    requires forall p :: 0 <= p < |w.pools| ==> w'.pools[p].elts == w.pools[p].elts
    ensures HomesOk(w') && NamesOk(w')
  {
    forall p, i | 0 <= p < |w'.pools| && 0 <= i < |w'.pools[p].elts|
      ensures Sits(w', p, i)
    {
      assert Sits(w, p, i);
    }
    forall c | 0 <= c < |w'.ctxs|
      ensures Placed(w', w'.ctxs[c].home, c)
    {
      assert Placed(w, w.ctxs[c].home, c);
    }
  }

  /** Soundness of w' follows from w when places, pools, interpreters, names and bindings are the same. */
  lemma SameLayout(w: World, w': World)
    requires Sound(w) && Linked(w')
    requires |w'.ctxs| == |w.ctxs| && forall c :: 0 <= c < |w.ctxs| ==> SamePlace(w'.ctxs[c], w.ctxs[c])
    requires w'.pools == w.pools && w'.interps == w.interps && w'.names == w.names
    requires BindingsOk(w')
    ensures Sound(w')
  {
    HomesKept(w, w');
    forall c | 0 <= c < |w'.ctxs|
      ensures Runs(w', c, w'.ctxs[c].interp)
    {
      assert Runs(w, c, w.ctxs[c].interp);
    }
    forall i | 0 <= i < |w'.interps|
      ensures Serves(w', i, w'.interps[i])
    {
      assert Serves(w, i, w.interps[i]);
    }
  }

  lemma StartInterpSound(w: World, c: CtxId)
    requires Sound(w) && c < |w.ctxs| && w.ctxs[c].interp.None?
    ensures Sound(StartInterp(w, c))
  {
    var w' := StartInterp(w, c);
    StartInterpLinked(w, c);
    HomesKept(w, w');
    forall d | 0 <= d < |w'.ctxs|
      ensures Runs(w', d, w'.ctxs[d].interp)
    {
      assert Runs(w, d, w.ctxs[d].interp);
    }
    forall i | 0 <= i < |w'.interps|
      ensures Serves(w', i, w'.interps[i])
    {
      if i < |w.interps| {
        assert Serves(w, i, w.interps[i]);
      }
    }
  }

  lemma SetCurrentSound(w: World, a: AprId, c: CtxId)
    requires Sound(w) && a < |w.aprs| && w.aprs[a].live && c < |w.ctxs|
    ensures Sound(SetCurrent(w, a, c))
  {
    SetCurrentLinked(w, a, c);
    SameLayout(w, SetCurrent(w, a, c));
  }

  predicate LiveApr(w: World, p: Option<AprId>) {
    p.Some? ==> p.value < |w.aprs| && w.aprs[p.value].live
  }

  lemma AdoptSound(w: World, s: ServerId, p: Option<AprId>, c: CtxId, ok: bool)
    requires Sound(w) && c < |w.ctxs| && LiveApr(w, p)
    ensures Sound(Adopt(w, s, p, c, ok).0)
  {
    SetCtxSound(w, c, w.ctxs[c].(locked := true));
    var w1 := Lock(w, c);
    if !(w1.ctxs[c].interp.None? && !ok) {
      var w2 := if w1.ctxs[c].interp.None? then StartInterp(w1, c) else w1;
      if w1.ctxs[c].interp.None? {
        StartInterpSound(w1, c);
      }
      var w3 := if p.Some? then SetCurrent(w2, p.value, c) else w2;
      if p.Some? {
        SetCurrentSound(w2, p.value, c);
      }
      SetCtxSound(w3, c, w3.ctxs[c].(scope := w3.ctxs[c].scope.(s := Some(s))));
    }
  }

  lemma InitCtxSound(w: World, s: ServerId, p: Option<AprId>, pool: Option<PoolId>, ok: bool)
    requires Sound(w) && s < |w.servers| && LiveApr(w, p) && Within(pool, |w.pools|)
    ensures Sound(InitCtx(w, s, p, pool, ok).0)
  {
    var kept := Kept(w, p, pool);
    if kept.Some? {
      SetCtxSound(w, kept.value, w.ctxs[kept.value].(scope := w.ctxs[kept.value].scope.(s := Some(s))));
    } else {
      assert Within(w.servers[s].pool, |w.pools|);
      var got := Pick(w, Source(w, s, pool));
      if got.Some? {
        AdoptSound(w, s, p, got.value, ok);
      }
    }
  }

  lemma CloneCtxSound(w: World, cur: CtxId, pool: Option<PoolId>, s: ServerId, p: AprId, ok: bool)
    requires Sound(w) && cur < |w.ctxs| && s < |w.servers| && LiveApr(w, Some(p)) && Within(pool, |w.pools|)
    ensures Sound(CloneCtx(w, cur, pool, s, p, ok).0)
  {
    InitCtxSound(w, s, Some(p), pool, ok);
    InitCtxShape(w, s, Some(p), pool, ok);
    if pool != Some(w.ctxs[cur].home) {
      var (w', c) := InitCtx(w, s, Some(p), pool, ok);
      if c.Some? {
        SetCtxSound(w', c.value, CopyState(w'.ctxs[cur], w'.ctxs[c.value]));
      }
    }
  }

  /** A fresh pool under a fresh or re-used name. */
  lemma NewNamedPoolSound(w: World, p: AprId, name: string)
    requires Sound(w) && p < |w.aprs|
    ensures Sound(NewNamedPool(w, p, name))
  {
    NewNamedPoolLinked(w, p, name);
    var w' := NewNamedPool(w, p, name);
    forall q, i | 0 <= q < |w'.pools| && 0 <= i < |w'.pools[q].elts|
      ensures Sits(w', q, i)
    {
      if q < |w.pools| {
        assert Sits(w, q, i);
      }
    }
    forall c | 0 <= c < |w'.ctxs|
      ensures Placed(w', w'.ctxs[c].home, c) && Runs(w', c, w'.ctxs[c].interp)
    {
      if c < |w.ctxs| {
        assert Placed(w, w.ctxs[c].home, c) && Runs(w, c, w.ctxs[c].interp);
      } else {
        assert w'.pools[|w.pools|].elts[0] == c;
      }
    }
    forall i | 0 <= i < |w'.interps|
      ensures Serves(w', i, w'.interps[i])
    {
      assert Serves(w, i, w.interps[i]);
    }
    forall n | n in w'.names
      ensures w'.names[n] < |w'.pools| && PoolName(w', w'.names[n]) == Some(n)
    {
      if n != name {
        assert Sits(w, w.names[n], 0);
      }
    }
  }

  lemma BaseSound(w: World, w': World)
    requires Sound(w) && w' == w.(base := w'.base, started := w'.started)
    ensures Sound(w')
  {
    BaseLinked(w, w');
    SameLayout(w, w');
  }

  lemma OfferPoolSound(w: World, s: ServerId, p: PoolId)
    requires Sound(w) && s < |w.servers| && p < |w.pools|
    ensures Sound(OfferPool(w, s, p))
  {
    OfferPoolLinked(w, s, p);
    SameLayout(w, OfferPool(w, s, p));
  }

  lemma StartupPoolSound(w: World, p: AprId, s: ServerId, name: Option<string>)
    requires Sound(w) && p < |w.aprs| && s < |w.servers|
    ensures Sound(StartupPool(w, p, s, name).0)
  {
    var n, w0 := NameOr(name), NoteBase(w, s);
    BaseSound(w, w0);
    if LookupPool(w0, n).None? {
      NewNamedPoolSound(w0, p, n);
      NewNamedPoolLinked(w0, p, n);
      OfferPoolSound(NewNamedPool(w0, p, n), s, |w.pools|);
    }
  }

  lemma StartupSound(w: World, p: AprId, s: ServerId, name: Option<string>, ok: bool)
    requires Sound(w) && s < |w.servers| && LiveApr(w, Some(p))
    ensures Sound(Startup(w, p, s, name, ok).0)
  {
    StartupPoolLinked(w, p, s, name);
    StartupPoolSound(w, p, s, name);
    var (w1, pool) := StartupPool(w, p, s, name);
    InitCtxSound(w1, s, Some(p), Some(pool), ok);
    var (w2, c) := InitCtx(w1, s, Some(p), Some(pool), ok);
    BaseSound(w2, w2.(started := w2.started || c.Some?));
  }

  lemma DestroyAprSound(w: World, a: AprId)
    requires Sound(w) && a < |w.aprs|
    ensures Sound(DestroyApr(w, a))
  {
    DestroyAprIs(w, a);
    SameLayout(w, DestroyApr(w, a));
  }

  lemma NewAprSound(w: World)
    requires Sound(w)
    ensures Sound(NewApr(w))
  {
    var w' := NewApr(w);
    assert Linked(w') by {
      assert forall p :: 0 <= p < |w.pools| ==> PoolLinked(w', w'.pools[p]);
    }
    SameLayout(w, w');
  }

  /** The context the next pop takes off pool p. */
  function Popped(w: World, p: PoolId): (c: CtxId)
    requires Linked(w) && p < |w.pools| && w.pools[p].nelts > 0
    ensures c < |w.ctxs|
  {
    assert PoolLinked(w, w.pools[p]);
    w.pools[p].elts[w.pools[p].nelts - 1]
  }

  lemma PopCtxInterps(w: World, p: PoolId)
    requires Sound(w) && p < |w.pools| && w.pools[p].nelts > 0
    ensures InterpsOk(PopCtx(w, p))
  {
    var w' := PopCtx(w, p);
    var c := Popped(w, p);
    assert Runs(w, c, w.ctxs[c].interp);
    forall d | 0 <= d < |w'.ctxs|
      ensures Runs(w', d, w'.ctxs[d].interp)
    {
      assert Runs(w, d, w.ctxs[d].interp);
    }
    forall i | 0 <= i < |w'.interps|
      ensures Serves(w', i, w'.interps[i])
    {
      assert Serves(w, i, w.interps[i]);
    }
  }

  lemma PopCtxSound(w: World, p: PoolId)
    requires Sound(w) && p < |w.pools| && w.pools[p].nelts > 0
    ensures Sound(PopCtx(w, p))
  {
    PopCtxLinked(w, p);
    PopCtxInterps(w, p);
    var w' := PopCtx(w, p);
    assert w'.aprs == w.aprs && w'.names == w.names;
    HomesKept(w, w');
  }

  lemma {:induction false} PoolDestroySound(w: World, p: PoolId)
    requires Sound(w) && p < |w.pools|
    ensures Sound(PoolDestroy(w, p))
    decreases w.pools[p].nelts
  {
    if w.pools[p].nelts > 0 {
      PopCtxSound(w, p);
      PoolDestroySound(PopCtx(w, p), p);
    }
  }

  lemma {:induction false} DestroyPoolsSound(w: World, ps: seq<PoolId>)
    requires Sound(w) && forall k :: 0 <= k < |ps| ==> ps[k] < |w.pools|
    ensures Sound(DestroyPools(w, ps))
    decreases |ps|
  {
    if ps != [] {
      PoolDestroySound(w, ps[0]);
      DestroyPoolsSound(PoolDestroy(w, ps[0]), ps[1..]);
    }
  }

  lemma CleanupSound(w: World, s: ServerId, ps: seq<PoolId>)
    requires Sound(w) && s < |w.servers| && forall k :: 0 <= k < |ps| ==> ps[k] < |w.pools|
    ensures Sound(Cleanup(w, s, ps))
  {
    DestroyPoolsFrame(w, ps);
    DestroyPoolsSound(w, ps);
    var w1, w' := DestroyPools(w, ps), Cleanup(w, s, ps);
    assert Linked(w') by {
      assert forall p :: 0 <= p < |w1.pools| ==> PoolLinked(w', w'.pools[p]);
    }
    SameLayout(w1, w');
  }
}
