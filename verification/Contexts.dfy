/**
 context.c and the context functions of mod_parrot.c on objects.  Contexts, pools,
 interpreters and APR pools are changed in place; `view` is the World they make up, and
 every method computes the Lifecycle function of its name on it.
*/
module Contexts {
  import opened Options
  import Life = Lifecycle

  const ANY := -1 // MP_CTX_ANY

  /** A Parrot interpreter: its _modparrot::__context global. */
  class Interp {
    ghost const id: nat
    var context: Context?
    var destroyed: nat

    constructor (ghost id: nat)
      ensures this.id == id && context == null && destroyed == 0
    {
      this.id, context, destroyed := id, null, 0;
    }

    ghost function Val(): Life.Interp
      reads this
    {
      Life.Interp(CtxId(context), destroyed)
    }
  }

  /** apr_array_header_t of context pointers; `owner` is the APR pool it is allocated in. */
  class CtxPool {
    ghost const id: nat
    const owner: AprPool
    var elts: seq<Context>
    var nelts: nat

    constructor (ghost id: nat, owner: AprPool)
      ensures this.id == id && this.owner == owner && elts == [] && nelts == 0
    {
      this.id, this.owner, elts, nelts := id, owner, [], 0;
    }

    ghost function Val(): Life.Pool
      reads this
    {
      Life.Pool(Ids(elts), nelts, owner.id)
    }
  }

  /** struct modparrot_context; requests and connections are opaque handles. */
  class Context {
    ghost const id: nat
    var ctxPool: CtxPool
    var ctxPoolName: Option<string>
    var interp: Interp?
    var locked: bool
    var r: Option<nat>
    var s: ServerRec?
    var pool: AprPool?
    var pconf: AprPool?
    var plog: AprPool?
    var ptemp: AprPool?
    var pchild: AprPool?
    var c: Option<nat>
    var csd: Option<nat>
    var moduleIndex: int

    constructor (ghost id: nat, ctxPool: CtxPool)
      ensures this.id == id && this.ctxPool == ctxPool && interp == null
      ensures Val() == Life.Ctx(ctxPool.id, None, None, false, Life.NoScope, 0)
    {
      this.id, this.ctxPool, ctxPoolName, interp, locked, moduleIndex := id, ctxPool, None, null, false, 0;
      r, s, pool, pconf, plog, ptemp, pchild, c, csd := None, null, null, null, null, null, null, None, None;
    }

    method CopyCall(from: Context)
      modifies `r, `s, `c, `csd, `moduleIndex
      ensures r == old(from.r) && s == old(from.s) && c == old(from.c) && csd == old(from.csd)
      ensures moduleIndex == old(from.moduleIndex)
    {
      r := from.r;
      s := from.s;
      c := from.c;
      csd := from.csd;
      moduleIndex := from.moduleIndex;
    }

    method CopyPools(from: Context)
      modifies `pconf, `plog, `ptemp, `pchild
      ensures pconf == old(from.pconf) && plog == old(from.plog) && ptemp == old(from.ptemp)
      ensures pchild == old(from.pchild)
    {
      pconf := from.pconf;
      plog := from.plog;
      ptemp := from.ptemp;
      pchild := from.pchild;
    }

    /** The assignments of clone_ctx_state. */
    method CopyFrom(from: Context)
      modifies `r, `s, `pconf, `plog, `ptemp, `pchild, `c, `csd, `moduleIndex
      ensures Val() == Life.CopyState(old(from.Val()), old(Val()))
    {
      CopyCall(from);
      CopyPools(from);
    }

    ghost function Scope(): Life.Scope
      reads this
    {
      Life.Scope(r, ServerId(s), AprId(pool), AprId(pconf), AprId(plog), AprId(ptemp), AprId(pchild), c, csd)
    }

    ghost function Val(): Life.Ctx
      reads this
    {
      Life.Ctx(ctxPool.id, ctxPoolName, InterpId(interp), locked, Scope(), moduleIndex)
    }
  }

  /** apr_pool_t: the userdata under MP_KEY_CTX and the cleanups setting it has registered. */
  class AprPool {
    ghost const id: nat
    var live: bool
    var userdata: Context?
    var cleanups: seq<Context>

    constructor (ghost id: nat)
      ensures this.id == id && Val() == Life.Apr(true, None, [])
    {
      this.id, live, userdata, cleanups := id, true, null, [];
    }

    /** apr_pool_userdata_set: the key is overwritten, the cleanup comes on top of the others. */
    method SetUserdata(ctx: Context)
      modifies `userdata, `cleanups
      ensures userdata == ctx && cleanups == old(cleanups) + [ctx]
      ensures Val() == old(Val()).(current := Some(ctx.id), cleanups := old(Val()).cleanups + [ctx.id])
    {
      IdsSnoc(cleanups, ctx);
      userdata := ctx;
      cleanups := cleanups + [ctx];
    }

    ghost function Val(): Life.Apr
      reads this
    {
      Life.Apr(live, CtxId(userdata), Ids(cleanups))
    }
  }

  /** server_rec with its mod_parrot configuration. */
  class ServerRec {
    ghost const id: nat
    const enabled: bool
    var ctxPool: CtxPool?

    constructor (ghost id: nat, enabled: bool)
      ensures this.id == id && Val() == Life.Server(None, enabled)
    {
      this.id, this.enabled, ctxPool := id, enabled, null;
    }

    ghost function Val(): Life.Server
      reads this
    {
      Life.Server(PoolId(ctxPool), enabled)
    }
  }

  ghost function CtxId(c: Context?): Option<nat> {
    if c == null then None else Some(c.id)
  }

  ghost function PoolId(p: CtxPool?): Option<nat> {
    if p == null then None else Some(p.id)
  }

  ghost function InterpId(x: Interp?): Option<nat> {
    if x == null then None else Some(x.id)
  }

  ghost function AprId(a: AprPool?): Option<nat> {
    if a == null then None else Some(a.id)
  }

  ghost function ServerId(s: ServerRec?): Option<nat> {
    if s == null then None else Some(s.id)
  }

  ghost function Ids(cs: seq<Context>): (ids: seq<nat>)
    ensures |ids| == |cs| && forall i :: 0 <= i < |cs| ==> ids[i] == cs[i].id
  {
    seq(|cs|, i requires 0 <= i < |cs| => cs[i].id)
  }

  /** A pool keeps at least one slot, and nelts counts slots. */
  ghost predicate Shaped(w: Life.World) {
    forall p :: 0 <= p < |w.pools| ==> 1 <= |w.pools[p].elts| && w.pools[p].nelts <= |w.pools[p].elts|
  }

  lemma IdsSnoc(cs: seq<Context>, c: Context)
    ensures Ids(cs + [c]) == Ids(cs) + [c.id]
  {
  }

  ghost predicate PoolAt(w: Life.World, pool: Option<nat>, index: int) {
    Life.Within(pool, |w.pools|) && (pool.Some? ==> index == ANY || 0 <= index < |w.pools[pool.value].elts|)
  }

  /** The context reserve_ctx(pool, index) picks, if any. */
  ghost function PickAt(w: Life.World, pool: Option<nat>, index: int): (got: Option<nat>)
    requires Life.Linked(w) && PoolAt(w, pool, index)
    ensures got.Some? ==> pool.Some? && got.value < |w.ctxs| && got.value in w.pools[pool.value].elts
  {
    if pool.None? || !w.threaded || index == ANY then Life.Pick(w, pool)
    else
      assert Life.PoolLinked(w, w.pools[pool.value]);
      var c := w.pools[pool.value].elts[index];
      if w.ctxs[c].locked then None else Some(c)
  }

  /** One turn of the loop of mp_ctx_pool_init. */
  ghost function PushCtx(w: Life.World, p: nat): Life.World
    requires p < |w.pools|
  {
    w.(ctxs := w.ctxs + [Life.Ctx(p, None, None, false, Life.NoScope, 0)],
       pools := w.pools[p := Life.Pool(w.pools[p].elts + [|w.ctxs|], w.pools[p].nelts + 1, w.pools[p].owner)])
  }

  lemma PoolInitNone(w: Life.World, owner: nat)
    ensures Life.PoolInit(w, 0, owner) == w.(pools := w.pools + [Life.Pool([], 0, owner)])
  {
    assert Life.PoolInit(w, 0, owner).ctxs == w.ctxs;
    assert Life.PoolInit(w, 0, owner).pools[|w.pools|].elts == [];
  }

  lemma PushCtxIs(w: Life.World, i: nat, owner: nat)
    ensures PushCtx(Life.PoolInit(w, i, owner), |w.pools|) == Life.PoolInit(w, i + 1, owner)
  {
    var w1, w2, p := Life.PoolInit(w, i, owner), Life.PoolInit(w, i + 1, owner), |w.pools|;
    var w3 := PushCtx(w1, p);
    assert w3.pools[p].elts == w2.pools[p].elts;
    assert w3.pools == w2.pools;
    assert w3.ctxs == w2.ctxs;
  }

  /** order lists registered pools, and those of all names but the ones to do. */
  ghost predicate Visited(order: seq<nat>, todo: set<string>, w: Life.World) {
    && todo <= w.names.Keys
    && (forall k :: 0 <= k < |order| ==> order[k] < |w.pools| && order[k] in w.names.Values)
    && (forall n :: n in w.names && n !in todo ==> w.names[n] in order)
  }

  lemma VisitNext(order: seq<nat>, todo: set<string>, w: Life.World, name: string)
    requires Life.Linked(w) && Visited(order, todo, w) && name in todo
    ensures Visited(order + [w.names[name]], todo - {name}, w)
  {
  }

  lemma {:induction false} PoolDestroyNames(w: Life.World, p: nat)
    requires Life.Linked(w) && p < |w.pools|
    ensures Life.PoolDestroy(w, p).names == w.names
    decreases w.pools[p].nelts
  {
    if w.pools[p].nelts > 0 {
      Life.PopCtxLinked(w, p);
      PoolDestroyNames(Life.PopCtx(w, p), p);
    }
  }

  lemma {:induction false} DestroyPoolsSnoc(w: Life.World, ps: seq<nat>, p: nat)
    requires Life.Linked(w) && (forall k :: 0 <= k < |ps| ==> ps[k] < |w.pools|) && p < |w.pools|
    ensures Life.DestroyPools(w, ps + [p]) == Life.PoolDestroy(Life.DestroyPools(w, ps), p)
    decreases |ps|
  {
    if ps == [] {
      assert Life.DestroyPools(Life.PoolDestroy(w, p), []) == Life.PoolDestroy(w, p);
    } else {
      assert (ps + [p])[1..] == ps[1..] + [p];
      DestroyPoolsSnoc(Life.PoolDestroy(w, ps[0]), ps[1..], p);
    }
  }

  /** mp_globals, and (ghost) every object allocated so far, each at its own id, together
      with the World they make up. */
  class ModParrot {
    const threaded: bool // MPM_IS_THREADED
    var ctxPoolHash: map<string, CtxPool>
    var isStarted: bool
    var baseServer: ServerRec?

    ghost var ctxs: seq<Context>
    ghost var pools: seq<CtxPool>
    ghost var interps: seq<Interp>
    ghost var aprs: seq<AprPool>
    ghost var servers: seq<ServerRec>
    ghost var view: Life.World

    /** modparrot_init_globals, before Apache has made any server. */
    constructor (threaded: bool)
      ensures Valid() && this.threaded == threaded
      ensures view == Life.World(threaded, [], [], [], [], [], map[], false, None)
    {
      this.threaded, ctxPoolHash, isStarted, baseServer := threaded, map[], false, null;
      ctxs, pools, interps, aprs, servers := [], [], [], [], [];
      view := Life.World(threaded, [], [], [], [], [], map[], false, None);
    }

    ghost predicate HasCtx(c: Context) reads this { c.id < |ctxs| && ctxs[c.id] == c }
    ghost predicate HasPool(p: CtxPool) reads this { p.id < |pools| && pools[p.id] == p }
    ghost predicate HasInterp(x: Interp) reads this { x.id < |interps| && interps[x.id] == x }
    ghost predicate HasApr(a: AprPool) reads this { a.id < |aprs| && aprs[a.id] == a }
    ghost predicate HasServer(s: ServerRec) reads this { s.id < |servers| && servers[s.id] == s }

    ghost predicate CtxIs(c: Context, v: Life.Ctx)
      reads this, c
    {
      c.Val() == v && HasPool(c.ctxPool) && (c.interp != null ==> HasInterp(c.interp))
    }

    ghost predicate PoolIs(p: CtxPool, v: Life.Pool)
      reads this, p
    {
      p.Val() == v && HasApr(p.owner) && forall i :: 0 <= i < |p.elts| ==> HasCtx(p.elts[i])
    }

    ghost predicate InterpIs(x: Interp, v: Life.Interp)
      reads this, x
    {
      x.Val() == v && (x.context != null ==> HasCtx(x.context))
    }

    ghost predicate AprIs(a: AprPool, v: Life.Apr)
      reads this, a
    {
      a.Val() == v && (a.userdata != null ==> HasCtx(a.userdata))
      && forall i :: 0 <= i < |a.cleanups| ==> HasCtx(a.cleanups[i])
    }

    ghost predicate ServerIs(s: ServerRec, v: Life.Server)
      reads this, s
    {
      s.Val() == v && (s.ctxPool != null ==> HasPool(s.ctxPool))
    }

    /** Every object sits at its own id. */
    ghost predicate Numbered()
      reads this
    {
      && |view.ctxs| == |ctxs| && (forall i :: 0 <= i < |ctxs| ==> ctxs[i].id == i)
      && |view.pools| == |pools| && (forall i :: 0 <= i < |pools| ==> pools[i].id == i)
      && |view.interps| == |interps| && (forall i :: 0 <= i < |interps| ==> interps[i].id == i)
      && |view.aprs| == |aprs| && (forall i :: 0 <= i < |aprs| ==> aprs[i].id == i)
      && |view.servers| == |servers| && (forall i :: 0 <= i < |servers| ==> servers[i].id == i)
    }

    ghost predicate Globals()
      reads this
    {
      && view.threaded == threaded && view.started == isStarted && view.base == ServerId(baseServer)
      && view.names.Keys == ctxPoolHash.Keys
      && forall n :: n in view.names ==> HasPool(ctxPoolHash[n]) && view.names[n] == ctxPoolHash[n].id
    }

    /** view is what the objects hold, and their pointers stay among the allocated objects. */
    ghost predicate Tied()
      reads this, ctxs, pools, interps, aprs, servers
    {
      && Numbered() && Globals()
      && (forall i {:trigger CtxIs(ctxs[i], view.ctxs[i])} ::
            0 <= i < |ctxs| ==> CtxIs(ctxs[i], view.ctxs[i]))
      && (forall i {:trigger PoolIs(pools[i], view.pools[i])} ::
            0 <= i < |pools| ==> PoolIs(pools[i], view.pools[i]))
      && (forall i {:trigger InterpIs(interps[i], view.interps[i])} ::
            0 <= i < |interps| ==> InterpIs(interps[i], view.interps[i]))
      && (forall i {:trigger AprIs(aprs[i], view.aprs[i])} ::
            0 <= i < |aprs| ==> AprIs(aprs[i], view.aprs[i]))
      && (forall i {:trigger ServerIs(servers[i], view.servers[i])} ::
            0 <= i < |servers| ==> ServerIs(servers[i], view.servers[i]))
    }

    ghost predicate Valid()
      reads this, ctxs, pools, interps, aprs, servers
    {
      Tied() && Shaped(view)
    }

    lemma ValidLinked()
      requires Valid()
      ensures Life.Linked(view)
    {
      assert forall i :: 0 <= i < |ctxs| ==> CtxIs(ctxs[i], view.ctxs[i]);
      assert forall i :: 0 <= i < |pools| ==> PoolIs(pools[i], view.pools[i]);
      assert forall i :: 0 <= i < |interps| ==> InterpIs(interps[i], view.interps[i]);
      assert forall i :: 0 <= i < |aprs| ==> AprIs(aprs[i], view.aprs[i]);
      assert forall i :: 0 <= i < |servers| ==> ServerIs(servers[i], view.servers[i]);
    }

    /** view, known to be linked. */
    ghost function View(): (w: Life.World)
      requires Valid()
      reads this, ctxs, pools, interps, aprs, servers
      ensures w == view && Life.Linked(w)
    {
      ValidLinked();
      view
    }

    /** No allocated object is dropped, and only new contexts, pools and interpreters are added. */
    twostate predicate Extends()
      reads this
    {
      && old(ctxs) <= ctxs && old(pools) <= pools && old(interps) <= interps
      && (forall i :: |old(ctxs)| <= i < |ctxs| ==> fresh(ctxs[i]))
      && (forall i :: |old(pools)| <= i < |pools| ==> fresh(pools[i]))
      && (forall i :: |old(interps)| <= i < |interps| ==> fresh(interps[i]))
      && aprs == old(aprs) && servers == old(servers)
    }

    // ---------------------------------------------------------------- one object at a time

    twostate predicate OnlyCtxs(o: object)
      reads this, ctxs
    {
      ctxs == old(ctxs) && forall i :: 0 <= i < |ctxs| && ctxs[i] != o ==> unchanged(ctxs[i])
    }

    twostate predicate OnlyPools(o: object)
      reads this, pools
    {
      pools == old(pools) && forall i :: 0 <= i < |pools| && pools[i] != o ==> unchanged(pools[i])
    }

    twostate predicate OnlyInterps(o: object)
      reads this, interps
    {
      interps == old(interps) && forall i :: 0 <= i < |interps| && interps[i] != o ==> unchanged(interps[i])
    }

    twostate predicate OnlyAprs(o: object)
      reads this, aprs
    {
      aprs == old(aprs) && forall i :: 0 <= i < |aprs| && aprs[i] != o ==> unchanged(aprs[i])
    }

    twostate predicate OnlyServers(o: object)
      reads this, servers
    {
      servers == old(servers) && forall i :: 0 <= i < |servers| && servers[i] != o ==> unchanged(servers[i])
    }

    /** Of all objects only o is changed. */
    twostate predicate Only(o: object)
      reads this, ctxs, pools, interps, aprs, servers
    {
      && OnlyCtxs(o) && OnlyPools(o) && OnlyInterps(o) && OnlyAprs(o) && OnlyServers(o)
      && ctxPoolHash == old(ctxPoolHash) && isStarted == old(isStarted) && baseServer == old(baseServer)
    }

    twostate lemma OthersHold(o: object)
      requires old(Tied()) && Only(o)
      ensures forall i :: 0 <= i < |ctxs| && ctxs[i] != o ==> CtxIs(ctxs[i], old(view).ctxs[i])
      ensures forall i :: 0 <= i < |pools| && pools[i] != o ==> PoolIs(pools[i], old(view).pools[i])
      ensures forall i :: 0 <= i < |interps| && interps[i] != o ==> InterpIs(interps[i], old(view).interps[i])
      ensures forall i :: 0 <= i < |aprs| && aprs[i] != o ==> AprIs(aprs[i], old(view).aprs[i])
      ensures forall i :: 0 <= i < |servers| && servers[i] != o ==> ServerIs(servers[i], old(view).servers[i])
    {
      forall i | 0 <= i < |ctxs| && ctxs[i] != o ensures CtxIs(ctxs[i], old(view).ctxs[i]) {
        assert old(CtxIs(ctxs[i], view.ctxs[i]));
      }
      forall i | 0 <= i < |pools| && pools[i] != o ensures PoolIs(pools[i], old(view).pools[i]) {
        assert old(PoolIs(pools[i], view.pools[i]));
      }
      forall i | 0 <= i < |interps| && interps[i] != o ensures InterpIs(interps[i], old(view).interps[i]) {
        assert old(InterpIs(interps[i], view.interps[i]));
      }
      forall i | 0 <= i < |aprs| && aprs[i] != o ensures AprIs(aprs[i], old(view).aprs[i]) {
        assert old(AprIs(aprs[i], view.aprs[i]));
      }
      forall i | 0 <= i < |servers| && servers[i] != o ensures ServerIs(servers[i], old(view).servers[i]) {
        assert old(ServerIs(servers[i], view.servers[i]));
      }
    }

    /** view follows a change of one context. */
    twostate lemma CtxTied(c: Context)
      requires old(Tied()) && HasCtx(c) && Only(c) && CtxIs(c, c.Val())
      requires view == Life.SetCtx(old(view), c.id, c.Val())
      ensures Tied()
    {
      OthersHold(c);
    }

    /** view follows a change of one APR pool. */
    twostate lemma AprTied(a: AprPool)
      requires old(Tied()) && HasApr(a) && Only(a) && AprIs(a, a.Val())
      requires view == old(view).(aprs := old(view).aprs[a.id := a.Val()])
      ensures Tied()
    {
      OthersHold(a);
    }

    /** view follows a change of one context pool. */
    twostate lemma PoolTied(p: CtxPool)
      requires old(Tied()) && HasPool(p) && Only(p) && PoolIs(p, p.Val())
      requires view == old(view).(pools := old(view).pools[p.id := p.Val()])
      ensures Tied()
    {
      OthersHold(p);
    }

    /** view follows a change of one interpreter. */
    twostate lemma InterpTied(x: Interp)
      requires old(Tied()) && HasInterp(x) && Only(x) && InterpIs(x, x.Val())
      requires view == old(view).(interps := old(view).interps[x.id := x.Val()])
      ensures Tied()
    {
      OthersHold(x);
    }

    /** view follows a change of one server. */
    twostate lemma ServerTied(s: ServerRec)
      requires old(Tied()) && HasServer(s) && Only(s) && ServerIs(s, s.Val())
      requires view == old(view).(servers := old(view).servers[s.id := s.Val()])
      ensures Tied()
    {
      OthersHold(s);
    }

    /** The old objects are where and what they were; new ones may follow them. */
    twostate predicate Grown()
      reads this, ctxs, pools, interps, aprs, servers
    {
      && old(ctxs) <= ctxs && old(pools) <= pools && old(interps) <= interps
      && old(aprs) <= aprs && old(servers) <= servers
      && unchanged(old(ctxs)) && unchanged(old(pools)) && unchanged(old(interps))
      && unchanged(old(aprs)) && unchanged(old(servers))
    }

    twostate lemma OldOnesHold()
      requires old(Tied()) && Grown()
      ensures forall i :: 0 <= i < |old(ctxs)| ==> CtxIs(ctxs[i], old(view).ctxs[i])
      ensures forall i :: 0 <= i < |old(pools)| ==> PoolIs(pools[i], old(view).pools[i])
      ensures forall i :: 0 <= i < |old(interps)| ==> InterpIs(interps[i], old(view).interps[i])
      ensures forall i :: 0 <= i < |old(aprs)| ==> AprIs(aprs[i], old(view).aprs[i])
      ensures forall i :: 0 <= i < |old(servers)| ==> ServerIs(servers[i], old(view).servers[i])
    {
      forall i | 0 <= i < |old(ctxs)| ensures CtxIs(ctxs[i], old(view).ctxs[i]) {
        assert old(CtxIs(ctxs[i], view.ctxs[i]));
      }
      forall i | 0 <= i < |old(pools)| ensures PoolIs(pools[i], old(view).pools[i]) {
        assert old(PoolIs(pools[i], view.pools[i]));
      }
      forall i | 0 <= i < |old(interps)| ensures InterpIs(interps[i], old(view).interps[i]) {
        assert old(InterpIs(interps[i], view.interps[i]));
      }
      forall i | 0 <= i < |old(aprs)| ensures AprIs(aprs[i], old(view).aprs[i]) {
        assert old(AprIs(aprs[i], view.aprs[i]));
      }
      forall i | 0 <= i < |old(servers)| ensures ServerIs(servers[i], old(view).servers[i]) {
        assert old(ServerIs(servers[i], view.servers[i]));
      }
    }

    /** view follows the birth of an interpreter. */
    twostate lemma InterpAdded(new x: Interp)
      requires old(Tied()) && Grown() && ctxs == old(ctxs) && pools == old(pools) && aprs == old(aprs)
      requires servers == old(servers) && interps == old(interps) + [x] && x.id == |old(interps)|
      requires ctxPoolHash == old(ctxPoolHash) && isStarted == old(isStarted) && baseServer == old(baseServer)
      requires x.context == null && x.destroyed == 0
      requires view == old(view).(interps := old(view).interps + [Life.Interp(None, 0)])
      ensures Tied()
    {
      OldOnesHold();
    }

    /** MODPARROT_CTX_LOCK */
    method LockCtx(ctx: Context)
      requires Valid() && HasCtx(ctx)
      modifies ctx`locked, this`view
      ensures Valid() && view == Life.Lock(old(view), ctx.id)
    {
      assert CtxIs(ctx, view.ctxs[ctx.id]);
      ctx.locked := true;
      view := Life.Lock(view, ctx.id);
      CtxTied(ctx);
    }

    /** release_ctx */
    method ReleaseCtx(ctx: Context)
      requires Valid() && HasCtx(ctx)
      modifies ctx`locked, this`view
      ensures Valid() && view == Life.Release(old(view), ctx.id)
    {
      assert CtxIs(ctx, view.ctxs[ctx.id]);
      ctx.locked := false;
      view := Life.Release(view, ctx.id);
      CtxTied(ctx);
    }

    method SetServer(ctx: Context, s: ServerRec)
      requires Valid() && HasCtx(ctx) && HasServer(s)
      modifies ctx`s, this`view
      ensures Valid() && view == Life.SetServer(old(view), ctx.id, s.id)
    {
      assert CtxIs(ctx, view.ctxs[ctx.id]);
      ctx.s := s;
      view := Life.SetServer(view, ctx.id, s.id);
      CtxTied(ctx);
    }

    /** modparrot_get_current_ctx */
    method GetCurrentCtx(p: AprPool) returns (ctx: Context?)
      requires Valid() && HasApr(p)
      ensures ctx == p.userdata && (ctx != null ==> HasCtx(ctx)) && CtxId(ctx) == view.aprs[p.id].current
    {
      assert AprIs(p, view.aprs[p.id]);
      return p.userdata;
    }

    /** modparrot_set_current_ctx */
    method SetCurrentCtx(p: AprPool, ctx: Context)
      requires Valid() && HasApr(p) && HasCtx(ctx)
      modifies p, this`view
      ensures Valid() && view == Life.SetCurrent(old(view), p.id, ctx.id)
    {
      assert AprIs(p, view.aprs[p.id]);
      p.SetUserdata(ctx);
      assert AprIs(p, p.Val());
      view := Life.SetCurrent(view, p.id, ctx.id);
      AprTied(p);
    }

    /** modparrot_init_interpreter */
    method NewInterp() returns (x: Interp)
      requires Valid()
      modifies this`interps, this`view
      ensures Valid() && Extends() && fresh(x) && HasInterp(x) && interps == old(interps) + [x]
      ensures view == old(view).(interps := old(view).interps + [Life.Interp(None, 0)])
    {
      x := new Interp(|interps|);
      interps := interps + [x];
      view := view.(interps := view.interps + [Life.Interp(None, 0)]);
      InterpAdded(x);
    }

    /** Parrot_store_global_s on _modparrot::__context. */
    method StoreGlobal(x: Interp, ctx: Context)
      requires Valid() && HasInterp(x) && HasCtx(ctx)
      modifies x`context, this`view
      ensures Valid()
      ensures view == old(view).(interps := old(view).interps[x.id := x.Val()]) && x.context == ctx
    {
      x.context := ctx;
      view := view.(interps := view.interps[x.id := x.Val()]);
      InterpTied(x);
    }

    method SetInterp(ctx: Context, x: Interp)
      requires Valid() && HasInterp(x) && HasCtx(ctx)
      modifies ctx`interp, this`view
      ensures Valid()
      ensures view == old(view).(ctxs := old(view).ctxs[ctx.id := ctx.Val()]) && ctx.interp == x
    {
      assert CtxIs(ctx, view.ctxs[ctx.id]);
      ctx.interp := x;
      view := view.(ctxs := view.ctxs[ctx.id := ctx.Val()]);
      CtxTied(ctx);
    }

    /** set_interp_ctx: the interpreter's global, and the context's interpreter. */
    method SetInterpCtx(x: Interp, ctx: Context)
      requires Valid() && HasInterp(x) && HasCtx(ctx)
      modifies x`context, ctx`interp, this`view
      ensures Valid() && x.context == ctx && ctx.interp == x
      ensures var w := old(view);
              view == w.(interps := w.interps[x.id := w.interps[x.id].(ctx := Some(ctx.id))],
                         ctxs := w.ctxs[ctx.id := w.ctxs[ctx.id].(interp := Some(x.id))])
    {
      assert InterpIs(x, view.interps[x.id]) && CtxIs(ctx, view.ctxs[ctx.id]);
      StoreGlobal(x, ctx);
      SetInterp(ctx, x);
    }

    /** get_interp_ctx */
    method GetInterpCtx(x: Interp) returns (ctx: Context?)
      requires Valid() && HasInterp(x)
      ensures ctx == x.context && (ctx != null ==> HasCtx(ctx)) && CtxId(ctx) == view.interps[x.id].ctx
    {
      assert InterpIs(x, view.interps[x.id]);
      ctx := x.context;
    }

    /** modparrot_init; null when the interpreter does not start. */
    method Init(ctx: Context, ok: bool) returns (x: Interp?)
      requires Valid() && HasCtx(ctx)
      modifies this`interps, this`view, ctx`interp
      ensures Valid() && Extends() && (x != null <==> ok) && (ok ==> fresh(x) && ctx.interp == x)
      ensures interps == if x != null then old(interps) + [x] else old(interps)
      ensures view == if ok then Life.StartInterp(old(view), ctx.id) else old(view)
    {
      if !ok {
        return null;
      }
      var y := NewInterp();
      SetInterpCtx(y, ctx);
      x := y;
    }

    /** Apache makes an APR pool. */
    method NewApr() returns (a: AprPool)
      requires Valid()
      modifies this`aprs, this`view
      ensures Valid() && fresh(a) && HasApr(a) && aprs == old(aprs) + [a] && view == Life.NewApr(old(view))
    {
      a := new AprPool(|aprs|);
      aprs := aprs + [a];
      view := Life.NewApr(view);
      OldOnesHold();
    }

    /** Apache makes a server. */
    method NewServer(enabled: bool) returns (s: ServerRec)
      requires Valid()
      modifies this`servers, this`view
      ensures Valid() && fresh(s) && HasServer(s) && servers == old(servers) + [s]
      ensures view == old(view).(servers := old(view).servers + [Life.Server(None, enabled)])
    {
      s := new ServerRec(|servers|, enabled);
      servers := servers + [s];
      view := view.(servers := view.servers + [Life.Server(None, enabled)]);
      OldOnesHold();
    }

    // ---------------------------------------------------------------- reservation

    /** reserve_ctx */
    method ReserveCtx(pool: CtxPool?, index: int) returns (ctx: Context?)
      requires Valid() && (pool != null ==> HasPool(pool) && (index == ANY || 0 <= index < |pool.elts|))
      modifies ctxs`locked, this`view
      ensures Valid() && (ctx != null ==> HasCtx(ctx))
      ensures PoolAt(old(View()), PoolId(pool), index) && CtxId(ctx) == PickAt(old(View()), PoolId(pool), index)
      ensures view == if ctx == null then old(view) else Life.Lock(old(view), ctx.id)
      ensures pool == null ==> ctx == null
      ensures pool != null && !threaded ==> |pool.elts| > 0 && ctx == pool.elts[0]
      ensures pool != null && threaded && index != ANY ==>
                ctx == if old(pool.elts[index].locked) then null else pool.elts[index]
      ensures pool != null && threaded && index == ANY && ctx == null ==>
                forall i :: 0 <= i < pool.nelts && i < |pool.elts| ==> old(pool.elts[i].locked)
      ensures pool != null && threaded && index == ANY && ctx != null ==>
                exists j :: 0 <= j < pool.nelts && j < |pool.elts| && ctx == pool.elts[j] && !old(pool.elts[j].locked)
                            && forall i :: 0 <= i < j ==> old(pool.elts[i].locked)
    {
      ghost var w := View();
      ctx := null;
      if pool == null {
        return;
      }
      assert PoolIs(pool, w.pools[pool.id]) && Life.PoolLinked(w, w.pools[pool.id]);
      if threaded {
        if index == ANY {
          var i := 0;
          while i < pool.nelts
            invariant 0 <= i <= pool.nelts
            invariant ctx == null && view == w && Valid()
            invariant forall k :: 0 <= k < i ==> old(pool.elts[k].locked)
            invariant forall k :: 0 <= k < |ctxs| ==> ctxs[k].locked == old(ctxs[k].locked)
            invariant Life.Scan(w, w.pools[pool.id], 0) == Life.Scan(w, w.pools[pool.id], i)
          {
            var c := pool.elts[i];
            assert HasCtx(c) && CtxIs(c, w.ctxs[c.id]);
            if !c.locked {
              LockCtx(c);
              ctx := c;
              break;
            }
            i := i + 1;
          }
        } else {
          var c := pool.elts[index];
          assert HasCtx(c) && CtxIs(c, w.ctxs[c.id]);
          if !c.locked {
            LockCtx(c);
            ctx := c;
          }
        }
      } else {
        ctx := pool.elts[0];
        assert HasCtx(ctx);
        LockCtx(ctx);
      }
    }

    /** The context bound to p, unless it is of another pool than the one asked for. */
    method KeptCtx(p: AprPool?, pool: CtxPool?) returns (ctx: Context?)
      requires Valid() && (p != null ==> HasApr(p)) && (pool != null ==> HasPool(pool))
      ensures CtxId(ctx) == Life.Kept(View(), AprId(p), PoolId(pool)) && (ctx != null ==> HasCtx(ctx))
    {
      ctx := null;
      if p != null {
        ctx := GetCurrentCtx(p);
      }
      if ctx != null && pool != null {
        assert CtxIs(ctx, view.ctxs[ctx.id]);
        if ctx.ctxPool != pool {
          ctx := null;
        }
      }
    }

    /** Start an interpreter if the context has none, and bind the context to p. */
    method BindCtx(ctx: Context, p: AprPool?, ok: bool) returns (bound: bool)
      requires Valid() && HasCtx(ctx) && (p != null ==> HasApr(p))
      modifies this`interps, this`view, ctx`interp, p
      ensures Valid() && Extends()
      ensures bound <==> old(view).ctxs[ctx.id].interp.Some? || ok
      ensures var w := old(view);
              var w1 := if w.ctxs[ctx.id].interp.None? then Life.StartInterp(w, ctx.id) else w;
              view == if !bound then w else if p == null then w1 else Life.SetCurrent(w1, p.id, ctx.id)
    {
      assert CtxIs(ctx, view.ctxs[ctx.id]);
      if ctx.interp == null {
        var x := Init(ctx, ok);
        if x == null {
          return false;
        }
      }
      if p != null {
        SetCurrentCtx(p, ctx);
      }
      bound := true;
    }

    /** Reserve a context of the pool, start its interpreter if need be, bind it to p. */
    method TakeCtx(pool: CtxPool?, p: AprPool?, ok: bool) returns (ctx: Context?)
      requires Valid() && (p != null ==> HasApr(p)) && (pool != null ==> HasPool(pool))
      modifies this`interps, this`view, ctxs, p
      ensures Valid() && Extends() && (ctx != null ==> HasCtx(ctx))
      ensures var got := Life.Pick(old(View()), PoolId(pool));
              (view, ctx != null) == if got.None? then (old(view), false) else Life.Bind(old(view), AprId(p), got.value, ok)
      ensures ctx != null ==> CtxId(ctx) == Life.Pick(old(View()), PoolId(pool))
    {
      ctx := ReserveCtx(pool, ANY);
      if ctx != null {
        assert ctx in ctxs;
        var bound := BindCtx(ctx, p, ok);
        if !bound {
          return null;
        }
      }
    }

    /** The server is remembered in the context, if there is one. */
    method NoteServer(ctx: Context?, s: ServerRec)
      requires Valid() && HasServer(s) && (ctx != null ==> HasCtx(ctx))
      modifies this`view, ctx
      ensures Valid() && view == Life.NoteServer(old(view), CtxId(ctx), s.id)
    {
      if ctx != null {
        SetServer(ctx, s);
      }
    }

    /** The reservation of init_ctx, when p has no context to keep. */
    method FindCtx(s: ServerRec, p: AprPool?, pool: CtxPool?, ok: bool) returns (ctx: Context?)
      requires Valid() && HasServer(s) && (p != null ==> HasApr(p)) && (pool != null ==> HasPool(pool))
      modifies this`interps, this`view, ctxs, p
      ensures Valid() && Extends() && (ctx != null ==> HasCtx(ctx))
      ensures (view, CtxId(ctx)) == Life.Find(old(View()), s.id, AprId(p), PoolId(pool), ok)
    {
      ctx := KeptCtx(p, pool);
      if ctx == null {
        assert ServerIs(s, view.servers[s.id]);
        ctx := TakeCtx(if pool != null then pool else s.ctxPool, p, ok);
      }
    }

    /** init_ctx; `ok` says whether an interpreter it has to start does start. */
    method InitCtx(s: ServerRec, p: AprPool?, pool: CtxPool?, ok: bool) returns (ctx: Context?)
      requires Valid() && HasServer(s) && (p != null ==> HasApr(p)) && (pool != null ==> HasPool(pool))
      modifies this`interps, this`view, ctxs, p
      ensures Valid() && Extends() && (ctx != null ==> HasCtx(ctx))
      ensures (view, CtxId(ctx)) == Life.InitCtx(old(View()), s.id, AprId(p), PoolId(pool), ok)
    {
      ghost var w := View();
      ctx := FindCtx(s, p, pool, ok);
      assert ctx != null ==> ctx in ctxs;
      NoteServer(ctx, s);
    }

    // ---------------------------------------------------------------- pools

    /** apr_array_make */
    method NewPool(owner: AprPool) returns (pool: CtxPool)
      requires Tied() && HasApr(owner)
      modifies this`pools, this`view
      ensures Tied() && Extends() && ctxs == old(ctxs) && fresh(pool) && HasPool(pool) && pools == old(pools) + [pool]
      ensures pool.id == |old(pools)| && pool.elts == []
      ensures view == old(view).(pools := old(view).pools + [Life.Pool([], 0, owner.id)])
    {
      pool := new CtxPool(|pools|, owner);
      pools := pools + [pool];
      view := view.(pools := view.pools + [Life.Pool([], 0, owner.id)]);
      assert PoolIs(pool, Life.Pool([], 0, owner.id));
      OldOnesHold();
    }

    /** apr_pcalloc of a context that points back to its pool. */
    method NewContext(pool: CtxPool) returns (ctx: Context)
      requires Tied() && HasPool(pool)
      modifies this`ctxs, this`view
      ensures Tied() && Extends() && fresh(ctx) && HasCtx(ctx) && ctxs == old(ctxs) + [ctx] && pools == old(pools)
      ensures view == old(view).(ctxs := old(view).ctxs + [Life.Ctx(pool.id, None, None, false, Life.NoScope, 0)])
    {
      ctx := new Context(|ctxs|, pool);
      ctxs := ctxs + [ctx];
      view := view.(ctxs := view.ctxs + [Life.Ctx(pool.id, None, None, false, Life.NoScope, 0)]);
      OldOnesHold();
    }

    /** apr_array_push */
    method Push(pool: CtxPool, ctx: Context)
      requires Tied() && HasPool(pool) && HasCtx(ctx)
      modifies this`view, pool
      ensures Tied() && pool.elts == old(pool.elts) + [ctx]
      ensures view == old(view).(pools := old(view).pools[pool.id := pool.Val()])
      ensures pool.Val() == Life.Pool(old(pool.Val().elts) + [ctx.id], old(pool.nelts) + 1, pool.owner.id)
    {
      assert PoolIs(pool, view.pools[pool.id]);
      IdsSnoc(pool.elts, ctx);
      pool.elts, pool.nelts := pool.elts + [ctx], pool.nelts + 1;
      assert PoolIs(pool, pool.Val());
      view := view.(pools := view.pools[pool.id := pool.Val()]);
      PoolTied(pool);
    }

    method AddContext(pool: CtxPool)
      requires Tied() && HasPool(pool)
      modifies this`ctxs, this`view, pool
      ensures Tied() && Extends() && pools == old(pools) && |ctxs| == |old(ctxs)| + 1
      ensures pool.elts == old(pool.elts) + [ctxs[|old(ctxs)|]] && view == PushCtx(old(view), pool.id)
    {
      assert PoolIs(pool, view.pools[pool.id]);
      var ctx := NewContext(pool);
      Push(pool, ctx);
    }

    /** mp_ctx_pool_init.  A pool of no contexts is one the naming functions must not get. */
    method PoolInit(owner: AprPool, num: nat) returns (pool: CtxPool)
      requires Valid() && HasApr(owner)
      modifies this`ctxs, this`pools, this`view
      ensures Tied() && (num > 0 ==> Valid()) && Extends() && fresh(pool) && HasPool(pool)
      ensures |pool.elts| == num && forall i :: 0 <= i < num ==> fresh(pool.elts[i])
      ensures view == Life.PoolInit(old(view), num, owner.id) && pool.id == |old(pools)|
    {
      pool := NewPool(owner);
      var i := 0;
      PoolInitNone(old(view), owner.id);
      while i < num
        invariant i <= num && Tied() && Extends() && HasPool(pool) && pool.id == |old(pools)|
        invariant view == Life.PoolInit(old(view), i, owner.id)
        invariant |pool.elts| == i && forall k :: 0 <= k < i ==> fresh(pool.elts[k])
      {
        PushCtxIs(old(view), i, owner.id);
        AddContext(pool);
        i := i + 1;
      }
    }

    /** apr_hash_set on ctx_pool_hash. */
    method StorePool(name: string, pool: CtxPool)
      requires Valid() && HasPool(pool)
      modifies this`ctxPoolHash, this`view
      ensures Valid() && view == old(view).(names := old(view).names[name := pool.id])
    {
      ctxPoolHash := ctxPoolHash[name := pool];
      view := view.(names := view.names[name := pool.id]);
      OldOnesHold();
    }

    method SetName(ctx: Context, name: string)
      requires Valid() && HasCtx(ctx)
      modifies ctx`ctxPoolName, this`view
      ensures Valid() && view == Life.SetCtx(old(view), ctx.id, old(view).ctxs[ctx.id].(name := Some(name)))
    {
      assert CtxIs(ctx, view.ctxs[ctx.id]);
      ctx.ctxPoolName := Some(name);
      view := Life.SetCtx(view, ctx.id, view.ctxs[ctx.id].(name := Some(name)));
      CtxTied(ctx);
    }

    /** modparrot_set_named_ctx_pool */
    method SetNamedCtxPool(name: string, pool: CtxPool)
      requires Valid() && HasPool(pool) && |pool.elts| > 0
      modifies this`ctxPoolHash, this`view, pool.elts[0]
      ensures Valid() && view == Life.SetNamed(old(View()), name, pool.id)
    {
      ghost var w := View();
      assert PoolIs(pool, w.pools[pool.id]);
      StorePool(name, pool);
      SetName(pool.elts[0], name);
    }

    /** modparrot_get_named_ctx_pool */
    method GetNamedCtxPool(name: string) returns (pool: CtxPool?)
      requires Valid()
      ensures PoolId(pool) == if name in view.names then Some(view.names[name]) else None
      ensures pool != null ==> HasPool(pool)
    {
      pool := if name in ctxPoolHash then ctxPoolHash[name] else null;
    }

    /** modparrot_get_ctx_pool_name */
    method GetCtxPoolName(pool: CtxPool) returns (name: Option<string>)
      requires Valid() && HasPool(pool)
      ensures name == Life.PoolName(View(), pool.id)
    {
      ghost var w := View();
      assert PoolIs(pool, w.pools[pool.id]);
      var first := pool.elts[0];
      assert HasCtx(first) && CtxIs(first, w.ctxs[first.id]);
      name := first.ctxPoolName;
    }

    /** A server without a context pool takes the given one. */
    method OfferPool(s: ServerRec, pool: CtxPool)
      requires Valid() && HasServer(s) && HasPool(pool)
      modifies this`view, s
      ensures Valid() && view == Life.OfferPool(old(view), s.id, pool.id)
    {
      assert ServerIs(s, view.servers[s.id]);
      if s.ctxPool == null {
        s.ctxPool := pool;
        view := view.(servers := view.servers[s.id := s.Val()]);
        ServerTied(s);
      }
    }

    /** Before the first start, every server asking is the base server. */
    method NoteBase(s: ServerRec)
      requires Valid() && HasServer(s)
      modifies this`baseServer, this`view
      ensures Valid() && view == Life.NoteBase(old(view), s.id)
    {
      if !isStarted {
        baseServer := s;
        view := view.(base := Some(s.id));
        OldOnesHold();
      }
    }

    method SetStarted(started: bool)
      requires Valid()
      modifies this`isStarted, this`view
      ensures Valid() && view == old(view).(started := started)
    {
      isStarted := started;
      view := view.(started := started);
      OldOnesHold();
    }

    /** The first context found marks the end of the start. */
    method NoteStarted(ctx: Context?)
      requires Valid()
      modifies this`isStarted, this`view
      ensures Valid() && view == old(view).(started := old(view).started || ctx != null)
    {
      SetStarted(isStarted || ctx != null);
    }

    /** A fresh pool of one context under the given name. */
    method NewNamedPool(p: AprPool, name: string) returns (pool: CtxPool)
      requires Valid() && HasApr(p)
      modifies this`ctxs, this`pools, this`ctxPoolHash, this`view
      ensures Valid() && Extends() && HasPool(pool) && pool.id == |old(pools)|
      ensures view == Life.NewNamedPool(old(View()), p.id, name)
    {
      pool := PoolInit(p, 1);
      SetNamedCtxPool(name, pool);
    }

    /** The pool creation of modparrot_startup, when the lookup found none. */
    method EnsurePool(p: AprPool, s: ServerRec, name: string, found: CtxPool?) returns (pool: CtxPool)
      requires Valid() && HasApr(p) && HasServer(s) && (found != null ==> HasPool(found))
      modifies this`ctxs, this`pools, this`ctxPoolHash, this`view, s
      ensures Valid() && Extends() && HasPool(pool)
      ensures (view, pool.id) == Life.EnsurePool(old(View()), p.id, s.id, name, PoolId(found))
    {
      if found != null {
        return found;
      }
      pool := NewNamedPool(p, name);
      OfferPool(s, pool);
    }

    /** The pool already registered under the name, once the first start is over. */
    method LookupPool(name: string) returns (pool: CtxPool?)
      requires Valid()
      ensures PoolId(pool) == Life.LookupPool(view, name) && (pool != null ==> HasPool(pool))
    {
      pool := null;
      if isStarted {
        pool := GetNamedCtxPool(name);
      }
    }

    /** modparrot_startup before it calls init_ctx. */
    method FindPool(p: AprPool, s: ServerRec, poolName: Option<string>) returns (pool: CtxPool)
      requires Valid() && HasApr(p) && HasServer(s)
      modifies this`ctxs, this`pools, this`ctxPoolHash, this`baseServer, this`view, s
      ensures Valid() && Extends() && HasPool(pool)
      ensures (view, pool.id) == Life.StartupPool(old(View()), p.id, s.id, poolName)
    {
      assert |view.pools| == |pools|;
      ghost var w := View();
      NoteBase(s);
      var name := if poolName.Some? then poolName.value else "default";
      var found := LookupPool(name);
      pool := EnsurePool(p, s, name, found);
    }

    /** modparrot_startup */
    method Startup(p: AprPool, s: ServerRec, poolName: Option<string>, ok: bool) returns (ctx: Context?)
      requires Valid() && HasServer(s) && HasApr(p)
      modifies this`ctxs, this`pools, this`interps, this`ctxPoolHash, this`isStarted, this`baseServer, this`view
      modifies ctxs, p, s
      ensures Valid() && Extends() && (ctx != null ==> HasCtx(ctx))
      ensures (view, CtxId(ctx)) == Life.Startup(old(View()), p.id, s.id, poolName, ok)
    {
      hide Life.StartupPool, Life.InitCtx;
      ghost var w := View();
      var pool := FindPool(p, s, poolName);
      ctx := InitCtx(s, p, pool, ok);
      NoteStarted(ctx);
      Life.StartupPoolLinked(w, p.id, s.id, poolName);
    }

    method CopyState(from: Context, to: Context)
      requires Valid() && HasCtx(from) && HasCtx(to)
      modifies to, this`view
      ensures Valid()
      ensures var w := old(view);
              view == Life.SetCtx(w, to.id, Life.CopyState(w.ctxs[from.id], w.ctxs[to.id]))
    {
      hide Life.CopyState, PoolIs, InterpIs, AprIs, ServerIs;
      assert CtxIs(from, view.ctxs[from.id]) && CtxIs(to, view.ctxs[to.id]);
      to.CopyFrom(from);
      view := Life.SetCtx(view, to.id, to.Val());
      CtxTied(to);
    }

    /** CopyState, if there is a context to copy to. */
    method CopyInto(from: Context, to: Context?)
      requires Valid() && HasCtx(from) && (to != null ==> HasCtx(to))
      modifies to, this`view
      ensures Valid() && view == Life.CopyTo(old(view), from.id, CtxId(to))
    {
      if to != null {
        CopyState(from, to);
      }
    }

    /** clone_ctx_state from where it grabs a context of the requested pool. */
    method CloneFrom(cur: Context, pool: CtxPool?, s: ServerRec, p: AprPool, ok: bool) returns (ctx: Context?)
      requires Valid() && HasCtx(cur) && HasServer(s) && HasApr(p) && (pool != null ==> HasPool(pool))
      modifies this`interps, this`view, ctxs, p
      ensures Valid() && Extends() && (ctx != null ==> HasCtx(ctx))
      ensures var (w, c) := Life.InitCtx(old(View()), s.id, Some(p.id), PoolId(pool), ok);
              CtxId(ctx) == c && |w.ctxs| == |ctxs| && view == Life.CopyTo(w, cur.id, c)
    {
      ctx := InitCtx(s, p, pool, ok);
      assert ctx != null ==> ctx in ctxs;
      CopyInto(cur, ctx);
    }

    /** clone_ctx_state */
    method CloneCtx(cur: Context, pool: CtxPool?, s: ServerRec, p: AprPool, ok: bool) returns (ctx: Context?)
      requires Valid() && HasCtx(cur) && HasServer(s) && HasApr(p) && (pool != null ==> HasPool(pool))
      modifies this`interps, this`view, ctxs, p
      ensures Valid() && Extends() && (ctx != null ==> HasCtx(ctx))
      ensures (view, CtxId(ctx)) == Life.CloneCtx(old(View()), cur.id, PoolId(pool), s.id, p.id, ok)
    {
      ghost var w := View();
      assert CtxIs(cur, w.ctxs[cur.id]);
      if cur.ctxPool == pool {
        return cur;
      }
      ctx := CloneFrom(cur, pool, s, p, ok);
    }

    // ---------------------------------------------------------------- teardown

    /** modparrot_ctx_cleanup, as far as the lock goes. */
    method CtxCleanup(ctx: Context)
      requires Valid() && HasCtx(ctx)
      modifies ctx`locked, this`view
      ensures Valid() && view == Life.Release(old(view), ctx.id)
    {
      ReleaseCtx(ctx);
    }

    /** apr_pool_destroy: the cleanups run last registered first. */
    method DestroyApr(a: AprPool)
      requires Valid() && HasApr(a)
      modifies a, ctxs`locked, this`view
      ensures Valid() && view == Life.DestroyApr(old(View()), a.id)
    {
      ghost var w := View();
      assert AprIs(a, w.aprs[a.id]) && Life.AprLinked(w, w.aprs[a.id]);
      ghost var cs := w.aprs[a.id].cleanups;
      var k := |a.cleanups|;
      assert cs[..k] == cs;
      while k > 0
        invariant 0 <= k <= |a.cleanups| == |cs| && a.cleanups == old(a.cleanups) && Valid()
        invariant |view.ctxs| == |w.ctxs| && view.aprs == w.aprs
        invariant Life.ReleaseAll(view, cs[..k]) == Life.ReleaseAll(w, cs)
      {
        k := k - 1;
        assert AprIs(a, view.aprs[a.id]);
        assert cs[..k + 1][..k] == cs[..k];
        CtxCleanup(a.cleanups[k]);
      }
      KillApr(a);
    }

    method KillApr(a: AprPool)
      requires Valid() && HasApr(a)
      modifies a, this`view
      ensures Valid() && view == old(view).(aprs := old(view).aprs[a.id := Life.Apr(false, None, [])])
    {
      a.live, a.userdata, a.cleanups := false, null, [];
      assert Ids(a.cleanups) == [];
      view := view.(aprs := view.aprs[a.id := Life.Apr(false, None, [])]);
      AprTied(a);
    }

    /** apr_array_pop, on an array that is not empty. */
    method Pop(pool: CtxPool) returns (ctx: Context)
      requires Valid() && HasPool(pool) && pool.nelts > 0
      modifies pool`nelts, this`view
      ensures Valid() && HasCtx(ctx) && pool.nelts == old(pool.nelts) - 1 < |pool.elts| && ctx == pool.elts[pool.nelts]
      ensures old(view).pools[pool.id].nelts > 0 && view == Life.PopSlot(old(view), pool.id)
    {
      assert PoolIs(pool, view.pools[pool.id]);
      pool.nelts := pool.nelts - 1;
      ctx := pool.elts[pool.nelts];
      assert PoolIs(pool, pool.Val());
      view := Life.PopSlot(view, pool.id);
      PoolTied(pool);
    }

    /** modparrot_destroy_interpreter */
    method DestroyInterp(x: Interp)
      requires Valid() && HasInterp(x)
      modifies x`destroyed, this`view
      ensures Valid() && view == old(view).(interps := old(view).interps[x.id := x.Val()])
      ensures x.Val() == Life.Interp(old(view).interps[x.id].ctx, old(view).interps[x.id].destroyed + 1)
    {
      assert InterpIs(x, view.interps[x.id]);
      x.destroyed := x.destroyed + 1;
      view := view.(interps := view.interps[x.id := x.Val()]);
      InterpTied(x);
    }

    method ClearInterp(ctx: Context)
      requires Valid() && HasCtx(ctx)
      modifies ctx`interp, this`view
      ensures Valid() && view == Life.SetCtx(old(view), ctx.id, old(view).ctxs[ctx.id].(interp := None))
    {
      assert CtxIs(ctx, view.ctxs[ctx.id]);
      ctx.interp := null;
      view := Life.SetCtx(view, ctx.id, view.ctxs[ctx.id].(interp := None));
      CtxTied(ctx);
    }

    /** Destroy the interpreter of a context, if it has one. */
    method DropInterp(ctx: Context)
      requires Valid() && HasCtx(ctx)
      modifies interps`destroyed, ctx`interp, this`view
      ensures Valid() && view == Life.DropInterp(old(View()), ctx.id)
    {
      assert CtxIs(ctx, view.ctxs[ctx.id]);
      if ctx.interp != null {
        DestroyInterp(ctx.interp);
        ClearInterp(ctx);
      }
    }

    /** One turn of the loop of mp_ctx_pool_destroy. */
    method PopCtx(pool: CtxPool)
      requires Valid() && HasPool(pool) && pool.nelts > 0
      modifies pool`nelts, interps`destroyed, ctxs`interp, this`view
      ensures Valid() && old(view).pools[pool.id].nelts > 0 && view == Life.PopCtx(old(View()), pool.id)
      ensures pool.nelts == old(pool.nelts) - 1
    {
      assert PoolIs(pool, view.pools[pool.id]);
      ghost var w := View();
      var ctx := Pop(pool);
      assert ctx in ctxs;
      DropInterp(ctx);
      Life.PopSlotLinked(w, pool.id);
    }

    /** mp_ctx_pool_destroy */
    method PoolDestroy(pool: CtxPool?)
      requires Valid() && (pool != null ==> HasPool(pool))
      modifies pool, interps`destroyed, ctxs`interp, this`view
      ensures Valid() && view == if pool == null then old(view) else Life.PoolDestroy(old(View()), pool.id)
    {
      if pool == null {
        return;
      }
      ghost var w := View();
      assert PoolIs(pool, view.pools[pool.id]);
      while pool.nelts > 0
        invariant Valid() && |view.pools| == |w.pools| && view.pools[pool.id].nelts == pool.nelts
        invariant Life.Linked(view) && Life.PoolDestroy(view, pool.id) == Life.PoolDestroy(w, pool.id)
        decreases pool.nelts
      {
        PopCtx(pool);
        ValidLinked();
        assert PoolIs(pool, view.pools[pool.id]);
      }
    }

    method DestroyNamed(name: string)
      requires Valid() && name in ctxPoolHash
      modifies pools, interps`destroyed, ctxs`interp, this`view
      ensures Valid() && name in old(view).names && view == Life.PoolDestroy(old(View()), old(view).names[name])
      ensures view.names == old(view).names && |view.pools| == |old(view).pools|
    {
      var pool := ctxPoolHash[name];
      assert name in view.names && HasPool(pool) && pool in pools;
      PoolDestroyNames(View(), pool.id);
      PoolDestroy(pool);
    }

    /** mp_ctx_pool_destroy_all.  The hash table is walked in an order of its own; `order`
        reports it. */
    method DestroyAll() returns (ghost order: seq<nat>)
      requires Valid()
      modifies pools, interps`destroyed, ctxs`interp, this`view
      ensures Valid() && Life.Lists(order, old(view)) && view == Life.DestroyPools(old(View()), order)
    {
      ghost var w := View();
      var todo := ctxPoolHash.Keys;
      order := [];
      while todo != {}
        invariant Valid() && view.names == w.names
        invariant Visited(order, todo, w) && view == Life.DestroyPools(w, order)
        decreases todo
      {
        var name :| name in todo;
        VisitNext(order, todo, w, name);
        DestroyPoolsSnoc(w, order, w.names[name]);
        DestroyNamed(name);
        order := order + [w.names[name]];
        todo := todo - {name};
      }
    }

    /** modparrot_cleanup for server s, without its loop over the modules. */
    method Cleanup(s: ServerRec) returns (ghost order: seq<nat>)
      requires Valid() && HasServer(s)
      modifies pools, interps`destroyed, ctxs`interp, this`view, this`isStarted, s`ctxPool
      ensures Valid() && Life.Lists(order, old(view)) && view == Life.Cleanup(old(View()), s.id, order)
    {
      ghost var w := View();
      order := DestroyAll();
      Life.DestroyPoolsFrame(w, order);
      ClearPool(s);
    }

    method ClearPool(s: ServerRec)
      requires Valid() && HasServer(s)
      modifies this`view, this`isStarted, s`ctxPool
      ensures Valid()
      ensures var w := old(view);
              view == w.(servers := w.servers[s.id := w.servers[s.id].(pool := None)], started := false)
    {
      assert ServerIs(s, view.servers[s.id]);
      ClearServerPool(s);
      SetStarted(false);
    }

    method ClearServerPool(s: ServerRec)
      requires Valid() && HasServer(s)
      modifies this`view, s`ctxPool
      ensures Valid()
      ensures view == old(view).(servers := old(view).servers[s.id := old(view).servers[s.id].(pool := None)])
    {
      assert ServerIs(s, view.servers[s.id]);
      s.ctxPool := null;
      view := view.(servers := view.servers[s.id := s.Val()]);
      ServerTied(s);
    }
  }
}
