/**
 The life cycle of contexts as pure operations on a value.

 A World is what the C program keeps in memory: contexts, context pools, interpreters,
 APR pools and the table of named context pools, each addressed by its position in the
 order of allocation.  Every function below is one C function; Contexts.dfy runs the same
 operations on objects and proves that they compute these functions.
*/
module Lifecycle {
  import opened Options

  type CtxId = nat
  type PoolId = nat
  type InterpId = nat
  type AprId = nat
  type ServerId = nat

  /** The Apache objects a context points to; each one opaque. */
  datatype Scope = Scope(
    r: Option<nat>, s: Option<ServerId>, pool: Option<AprId>,
    pconf: Option<AprId>, plog: Option<AprId>, ptemp: Option<AprId>, pchild: Option<AprId>,
    c: Option<nat>, csd: Option<nat>)

  const NoScope := Scope(None, None, None, None, None, None, None, None, None)

  /** struct modparrot_context; `index` is its module_index. */
  datatype Ctx = Ctx(home: PoolId, name: Option<string>, interp: Option<InterpId>, locked: bool,
                     scope: Scope, index: int)

  /** apr_array_header_t of contexts: popping lowers nelts and leaves the slots alone.
      `owner` is the APR pool the array and its contexts were allocated in. */
  datatype Pool = Pool(elts: seq<CtxId>, nelts: nat, owner: AprId)

  /** An interpreter: the context stored in its __context global, and how often
      modparrot_destroy_interpreter was called on it. */
  datatype Interp = Interp(ctx: Option<CtxId>, destroyed: nat)

  /** apr_pool_t: its userdata under MP_KEY_CTX, and the cleanups registered by setting it. */
  datatype Apr = Apr(live: bool, current: Option<CtxId>, cleanups: seq<CtxId>)

  datatype Server = Server(pool: Option<PoolId>, enabled: bool)

  datatype World = World(
    threaded: bool,
    ctxs: seq<Ctx>, pools: seq<Pool>, interps: seq<Interp>, aprs: seq<Apr>, servers: seq<Server>,
    names: map<string, PoolId>, started: bool, base: Option<ServerId>)

  /** Every reference leads somewhere. */
  ghost predicate Linked(w: World) {
    && (forall p :: 0 <= p < |w.pools| ==> PoolLinked(w, w.pools[p]))
    && (forall c :: 0 <= c < |w.ctxs| ==> CtxLinked(w, w.ctxs[c]))
    && (forall a :: 0 <= a < |w.aprs| ==> AprLinked(w, w.aprs[a]))
    && (forall i :: 0 <= i < |w.interps| ==> Within(w.interps[i].ctx, |w.ctxs|))
    && (forall s :: 0 <= s < |w.servers| ==> Within(w.servers[s].pool, |w.pools|))
    && (forall n :: n in w.names ==> w.names[n] < |w.pools|)
  }

  predicate Within(x: Option<nat>, n: nat) {
    x.Some? ==> x.value < n
  }

  ghost predicate PoolLinked(w: World, p: Pool) {
    1 <= |p.elts| && p.nelts <= |p.elts| && p.owner < |w.aprs| && forall i :: 0 <= i < |p.elts| ==> p.elts[i] < |w.ctxs|
  }

  predicate CtxLinked(w: World, c: Ctx) {
    c.home < |w.pools| && Within(c.interp, |w.interps|)
  }

  ghost predicate AprLinked(w: World, a: Apr) {
    Within(a.current, |w.ctxs|) && forall i :: 0 <= i < |a.cleanups| ==> a.cleanups[i] < |w.ctxs|
  }

  // ---------------------------------------------------------------- small steps

  function SetCtx(w: World, c: CtxId, x: Ctx): World
    requires c < |w.ctxs|
  {
    w.(ctxs := w.ctxs[c := x])
  }

  function Lock(w: World, c: CtxId): World
    requires c < |w.ctxs|
  {
    SetCtx(w, c, w.ctxs[c].(locked := true))
  }

  /** release_ctx */
  function Release(w: World, c: CtxId): World
    requires c < |w.ctxs|
  {
    SetCtx(w, c, w.ctxs[c].(locked := false))
  }

  /** modparrot_set_current_ctx: APR overwrites the key and registers a cleanup each time. */
  function SetCurrent(w: World, a: AprId, c: CtxId): World
    requires a < |w.aprs|
  {
    w.(aprs := w.aprs[a := w.aprs[a].(current := Some(c), cleanups := w.aprs[a].cleanups + [c])])
  }

  /** modparrot_init: a fresh interpreter whose __context global is the context, and back. */
  function StartInterp(w: World, c: CtxId): World
    requires c < |w.ctxs|
  {
    w.(interps := w.interps + [Interp(Some(c), 0)],
       ctxs := w.ctxs[c := w.ctxs[c].(interp := Some(|w.interps|))])
  }

  /** mp_ctx_pool_init */
  function PoolInit(w: World, num: nat, owner: AprId): World {
    w.(ctxs := w.ctxs + seq(num, _ => Ctx(|w.pools|, None, None, false, NoScope, 0)),
       pools := w.pools + [Pool(seq(num, i => |w.ctxs| + i), num, owner)])
  }

  /** modparrot_set_named_ctx_pool: the name is kept in the pool's first context. */
  function SetNamed(w: World, name: string, p: PoolId): World
    requires Linked(w) && p < |w.pools|
  {
    assert PoolLinked(w, w.pools[p]);
    var first := w.pools[p].elts[0];
    SetCtx(w, first, w.ctxs[first].(name := Some(name))).(names := w.names[name := p])
  }

  /** modparrot_get_ctx_pool_name */
  function PoolName(w: World, p: PoolId): Option<string>
    requires Linked(w) && p < |w.pools|
  {
    assert PoolLinked(w, w.pools[p]);
    w.ctxs[w.pools[p].elts[0]].name
  }

  function NewApr(w: World): World {
    w.(aprs := w.aprs + [Apr(true, None, [])])
  }

  // ---------------------------------------------------------------- reservation

  /** The scan of reserve_ctx(pool, MP_CTX_ANY), from slot i on. */
  function Scan(w: World, p: Pool, i: nat): (got: Option<CtxId>)
    requires PoolLinked(w, p) && i <= p.nelts
    ensures got.Some? ==> got.value < |w.ctxs| && got.value in p.elts && !w.ctxs[got.value].locked
    decreases p.nelts - i
  {
    if i == p.nelts then None
    else if !w.ctxs[p.elts[i]].locked then Some(p.elts[i])
    else Scan(w, p, i + 1)
  }

  /** The scan gives the first context that is not locked, or none when all are. */
  lemma {:induction false} ScanFirst(w: World, p: Pool, i: nat)
    requires PoolLinked(w, p) && i <= p.nelts
    ensures var got := Scan(w, p, i);
            && (got.Some? <==> exists j :: i <= j < p.nelts && !w.ctxs[p.elts[j]].locked)
            && (got.Some? ==> exists j :: i <= j < p.nelts && p.elts[j] == got.value && !w.ctxs[got.value].locked
                                          && forall l :: i <= l < j ==> w.ctxs[p.elts[l]].locked)
    decreases p.nelts - i
  {
    if i < p.nelts && w.ctxs[p.elts[i]].locked {
      ScanFirst(w, p, i + 1);
    }
  }

  /** The scan goes by the lock bits of the pool's contexts and nothing else. */
  lemma {:induction false} ScanAgain(w: World, w': World, p: Pool, i: nat)
    requires PoolLinked(w, p) && PoolLinked(w', p) && i <= p.nelts
    requires forall j :: 0 <= j < p.nelts ==> w'.ctxs[p.elts[j]].locked == w.ctxs[p.elts[j]].locked
    ensures Scan(w', p, i) == Scan(w, p, i)
    decreases p.nelts - i
  {
    if i < p.nelts {
      ScanAgain(w, w', p, i + 1);
    }
  }

  /** Which context reserve_ctx(pool, MP_CTX_ANY) picks.  Without threads it is always the
      first one, locked or not. */
  function Pick(w: World, pool: Option<PoolId>): (got: Option<CtxId>)
    requires Linked(w) && Within(pool, |w.pools|)
    ensures got.Some? ==> pool.Some? && got.value < |w.ctxs| && got.value in w.pools[pool.value].elts
    ensures got.Some? && w.threaded ==> !w.ctxs[got.value].locked
  {
    if pool.None? then None
    else
      assert PoolLinked(w, w.pools[pool.value]);
      if w.threaded then Scan(w, w.pools[pool.value], 0)
      else Some(w.pools[pool.value].elts[0])
  }

  lemma PickAgain(w: World, w': World, p: PoolId)
    requires Linked(w) && Linked(w') && w'.threaded == w.threaded
    requires p < |w.pools| <= |w'.pools| && w'.pools[p] == w.pools[p] && |w.ctxs| <= |w'.ctxs|
    requires forall d :: d in w.pools[p].elts && d < |w.ctxs| ==> w'.ctxs[d].locked == w.ctxs[d].locked
    ensures Pick(w', Some(p)) == Pick(w, Some(p))
  {
    assert PoolLinked(w, w.pools[p]) && PoolLinked(w', w'.pools[p]);
    if w.threaded {
      ScanAgain(w, w', w.pools[p], 0);
    }
  }

  /** The context init_ctx keeps: the one bound to p, unless it is of another pool. */
  function Kept(w: World, p: Option<AprId>, pool: Option<PoolId>): (kept: Option<CtxId>)
    requires Linked(w) && Within(p, |w.aprs|)
    ensures kept.Some? ==> p.Some? && kept.value < |w.ctxs| && w.aprs[p.value].current == kept
    ensures kept.Some? && pool.Some? ==> w.ctxs[kept.value].home == pool.value
    ensures kept.None? && p.Some? && w.aprs[p.value].current.Some? ==>
              var c := w.aprs[p.value].current.value;
              c < |w.ctxs| && pool.Some? && w.ctxs[c].home != pool.value
  {
    if p.None? then None
    else
      assert AprLinked(w, w.aprs[p.value]);
      var cur := w.aprs[p.value].current;
      if cur.Some? && pool.Some? && w.ctxs[cur.value].home != pool.value then None else cur
  }

  /** The pool init_ctx reserves from. */
  function Source(w: World, s: ServerId, pool: Option<PoolId>): (source: Option<PoolId>)
    requires Linked(w) && s < |w.servers| && Within(pool, |w.pools|)
    ensures Within(source, |w.pools|)
  {
    assert Within(w.servers[s].pool, |w.pools|);
    if pool.Some? then pool else w.servers[s].pool
  }

  function SetServer(w: World, c: CtxId, s: ServerId): World
    requires c < |w.ctxs|
  {
    SetCtx(w, c, w.ctxs[c].(scope := w.ctxs[c].scope.(s := Some(s))))
  }

  /** What init_ctx does with context c once reserve_ctx has picked it: lock it, start an
      interpreter if it has none, and bind it to p.  `ok` says whether a new interpreter
      starts; when it does not, the code returns with the context locked and unbound. */
  function Bind(w: World, p: Option<AprId>, c: CtxId, ok: bool): (World, bool)
    requires c < |w.ctxs| && Within(p, |w.aprs|)
  {
    var w1 := Lock(w, c);
    if w.ctxs[c].interp.None? && !ok then (w1, false)
    else
      var w2 := if w.ctxs[c].interp.None? then StartInterp(w1, c) else w1;
      (if p.Some? then SetCurrent(w2, p.value, c) else w2, true)
  }

  /** init_ctx up to where it notes the server: the context kept or reserved. */
  function Find(w: World, s: ServerId, p: Option<AprId>, pool: Option<PoolId>, ok: bool)
    : (r: (World, Option<CtxId>))
    requires Linked(w) && s < |w.servers| && Within(p, |w.aprs|) && Within(pool, |w.pools|)
    ensures Within(r.1, |r.0.ctxs|)
  {
    var kept, got := Kept(w, p, pool), Pick(w, Source(w, s, pool));
    if kept.Some? then (w, kept)
    else if got.None? then (w, None)
    else
      var (w1, bound) := Bind(w, p, got.value, ok);
      (w1, if bound then got else None)
  }

  function NoteServer(w: World, c: Option<CtxId>, s: ServerId): World
    requires Within(c, |w.ctxs|)
  {
    if c.None? then w else SetServer(w, c.value, s)
  }

  /** init_ctx */
  function InitCtx(w: World, s: ServerId, p: Option<AprId>, pool: Option<PoolId>, ok: bool)
    : (World, Option<CtxId>)
    requires Linked(w) && s < |w.servers| && Within(p, |w.aprs|) && Within(pool, |w.pools|)
  {
    var (w1, c) := Find(w, s, p, pool, ok);
    (NoteServer(w1, c, s), c)
  }

  /** The part of init_ctx that concerns a reserved context c. */
  function Adopt(w: World, s: ServerId, p: Option<AprId>, c: CtxId, ok: bool): (World, Option<CtxId>)
    requires c < |w.ctxs| && Within(p, |w.aprs|)
  {
    var (w1, bound) := Bind(w, p, c, ok);
    (if bound then SetServer(w1, c, s) else w1, if bound then Some(c) else None)
  }

  /** The fields clone_ctx_state copies: everything but the phase pool. */
  function CopyState(from: Ctx, to: Ctx): Ctx {
    to.(scope := from.scope.(pool := to.scope.pool), index := from.index)
  }

  function CopyTo(w: World, from: CtxId, to: Option<CtxId>): World
    requires from < |w.ctxs| && Within(to, |w.ctxs|)
  {
    if to.None? then w else SetCtx(w, to.value, CopyState(w.ctxs[from], w.ctxs[to.value]))
  }

  /** clone_ctx_state */
  function CloneCtx(w: World, cur: CtxId, pool: Option<PoolId>, s: ServerId, p: AprId, ok: bool)
    : (World, Option<CtxId>)
    requires Linked(w) && cur < |w.ctxs| && s < |w.servers| && p < |w.aprs| && Within(pool, |w.pools|)
  {
    if pool == Some(w.ctxs[cur].home) then (w, Some(cur))
    else
      InitCtxShape(w, s, Some(p), pool, ok);
      var (w', c) := InitCtx(w, s, Some(p), pool, ok);
      (CopyTo(w', cur, c), c)
  }

  /** A fresh pool of one context under the given name, allocated in APR pool p. */
  function NewNamedPool(w: World, p: AprId, name: string): World
    requires Linked(w) && p < |w.aprs|
  {
    PoolInitLinked(w, 1, p);
    SetNamed(PoolInit(w, 1, p), name, |w.pools|)
  }

  /** A server without a context pool takes the given one as its own. */
  function OfferPool(w: World, s: ServerId, p: PoolId): World
    requires s < |w.servers|
  {
    if w.servers[s].pool.None? then w.(servers := w.servers[s := w.servers[s].(pool := Some(p))]) else w
  }

  /** Before the first start, every server asking is the base server. */
  function NoteBase(w: World, s: ServerId): World {
    if w.started then w else w.(base := Some(s))
  }

  /** The pool registered under the name, once the first start is over. */
  function LookupPool(w: World, name: string): Option<PoolId> {
    if w.started && name in w.names then Some(w.names[name]) else None
  }

  /** The pool creation of modparrot_startup, when the lookup found none. */
  function EnsurePool(w: World, p: AprId, s: ServerId, name: string, found: Option<PoolId>): (World, PoolId)
    requires Linked(w) && p < |w.aprs| && s < |w.servers|
  {
    if found.Some? then (w, found.value)
    else (OfferPool(NewNamedPool(w, p, name), s, |w.pools|), |w.pools|)
  }

  function NameOr(name: Option<string>): string {
    if name.Some? then name.value else "default"
  }

  /** modparrot_startup before it calls init_ctx: the world and the pool it settles on. */
  function StartupPool(w: World, p: AprId, s: ServerId, name: Option<string>): (World, PoolId)
    requires Linked(w) && p < |w.aprs| && s < |w.servers|
  {
    var w0 := NoteBase(w, s);
    BaseLinked(w, w0);
    EnsurePool(w0, p, s, NameOr(name), LookupPool(w0, NameOr(name)))
  }

  /** modparrot_startup */
  function Startup(w: World, p: AprId, s: ServerId, name: Option<string>, ok: bool): (World, Option<CtxId>)
    requires Linked(w) && s < |w.servers| && p < |w.aprs|
  {
    StartupPoolLinked(w, p, s, name);
    var (w1, pool) := StartupPool(w, p, s, name);
    var (w2, c) := InitCtx(w1, s, Some(p), Some(pool), ok);
    (w2.(started := w2.started || c.Some?), c)
  }

  // ---------------------------------------------------------------- teardown

  /** The cleanups of an APR pool run in reverse order of registration. */
  function ReleaseAll(w: World, cs: seq<CtxId>): World
    requires forall i :: 0 <= i < |cs| ==> cs[i] < |w.ctxs|
    decreases |cs|
  {
    if cs == [] then w else ReleaseAll(Release(w, cs[|cs| - 1]), cs[..|cs| - 1])
  }

  /** apr_pool_destroy, as far as contexts can tell. */
  function DestroyApr(w: World, a: AprId): World
    requires Linked(w) && a < |w.aprs|
  {
    assert AprLinked(w, w.aprs[a]);
    ReleaseAll(w, w.aprs[a].cleanups).(aprs := w.aprs[a := Apr(false, None, [])])
  }

  /** apr_array_pop */
  function PopSlot(w: World, p: PoolId): World
    requires p < |w.pools| && w.pools[p].nelts > 0
  {
    w.(pools := w.pools[p := w.pools[p].(nelts := w.pools[p].nelts - 1)])
  }

  /** Destroy the interpreter of a context, if it has one. */
  function DropInterp(w: World, c: CtxId): World
    requires Linked(w) && c < |w.ctxs|
  {
    assert CtxLinked(w, w.ctxs[c]);
    match w.ctxs[c].interp
    case None => w
    case Some(i) =>
      SetCtx(w, c, w.ctxs[c].(interp := None))
      .(interps := w.interps[i := w.interps[i].(destroyed := w.interps[i].destroyed + 1)])
  }

  lemma PopSlotLinked(w: World, p: PoolId)
    requires Linked(w) && p < |w.pools| && w.pools[p].nelts > 0
    ensures Linked(PopSlot(w, p)) && PoolLinked(w, w.pools[p])
  {
    assert PoolLinked(w, w.pools[p]);
  }

  /** One turn of the loop of mp_ctx_pool_destroy: pop a context, destroy its interpreter. */
  function PopCtx(w: World, p: PoolId): World
    requires Linked(w) && p < |w.pools| && w.pools[p].nelts > 0
  {
    PopSlotLinked(w, p);
    DropInterp(PopSlot(w, p), w.pools[p].elts[w.pools[p].nelts - 1])
  }

  lemma PopCtxLinked(w: World, p: PoolId)
    requires Linked(w) && p < |w.pools| && w.pools[p].nelts > 0
    ensures Linked(PopCtx(w, p))
  {
    var w' := PopCtx(w, p);
    assert |w'.ctxs| == |w.ctxs| && |w'.pools| == |w.pools| && |w'.interps| == |w.interps|;
  }

  /** mp_ctx_pool_destroy */
  function PoolDestroy(w: World, p: PoolId): (w': World)
    requires Linked(w) && p < |w.pools|
    ensures Linked(w') && |w'.pools| == |w.pools|
    decreases w.pools[p].nelts
  {
    if w.pools[p].nelts == 0 then w
    else
      PopCtxLinked(w, p);
      PoolDestroy(PopCtx(w, p), p)
  }

  /** order visits every registered pool, and only those. */
  ghost predicate Lists(order: seq<PoolId>, w: World) {
    && (forall k :: 0 <= k < |order| ==> order[k] < |w.pools| && order[k] in w.names.Values)
    && (forall n :: n in w.names ==> w.names[n] in order)
  }

  /** mp_ctx_pool_destroy_all, visiting the registered pools in the given order. */
  function DestroyPools(w: World, ps: seq<PoolId>): (w': World)
    requires Linked(w) && forall k :: 0 <= k < |ps| ==> ps[k] < |w.pools|
    ensures Linked(w') && |w'.pools| == |w.pools|
    decreases |ps|
  {
    if ps == [] then w else DestroyPools(PoolDestroy(w, ps[0]), ps[1..])
  }

  lemma {:induction false} PoolDestroyFrame(w: World, p: PoolId)
    requires Linked(w) && p < |w.pools|
    ensures var w' := PoolDestroy(w, p);
            && w' == w.(ctxs := w'.ctxs, pools := w'.pools, interps := w'.interps) && |w'.ctxs| == |w.ctxs|
    decreases w.pools[p].nelts
  {
    if w.pools[p].nelts > 0 {
      PopCtxLinked(w, p);
      PoolDestroyFrame(PopCtx(w, p), p);
    }
  }

  /** Teardown touches contexts, pools and interpreters only. */
  lemma {:induction false} DestroyPoolsFrame(w: World, ps: seq<PoolId>)
    requires Linked(w) && forall k :: 0 <= k < |ps| ==> ps[k] < |w.pools|
    ensures var w' := DestroyPools(w, ps);
            && w' == w.(ctxs := w'.ctxs, pools := w'.pools, interps := w'.interps) && |w'.ctxs| == |w.ctxs|
    decreases |ps|
  {
    if ps != [] {
      PoolDestroyFrame(w, ps[0]);
      DestroyPoolsFrame(PoolDestroy(w, ps[0]), ps[1..]);
    }
  }

  /** modparrot_cleanup for server s, without its loop over the modules. */
  function Cleanup(w: World, s: ServerId, ps: seq<PoolId>): World
    requires Linked(w) && s < |w.servers| && forall k :: 0 <= k < |ps| ==> ps[k] < |w.pools|
  {
    DestroyPoolsFrame(w, ps);
    var w1 := DestroyPools(w, ps);
    w1.(servers := w1.servers[s := w1.servers[s].(pool := None)], started := false)
  }

  // ---------------------------------------------------------------- links are kept

  /** w' has at least the objects of w. */
  predicate Grows(w: World, w': World) {
    && |w.ctxs| <= |w'.ctxs| && |w.pools| <= |w'.pools| && |w.interps| <= |w'.interps|
    && |w.aprs| == |w'.aprs| && |w.servers| == |w'.servers| && w.threaded == w'.threaded
  }

  lemma PoolInitLinked(w: World, num: nat, owner: AprId)
    requires Linked(w) && num >= 1 && owner < |w.aprs|
    ensures Linked(PoolInit(w, num, owner)) && Grows(w, PoolInit(w, num, owner))
  {
    var w' := PoolInit(w, num, owner);
  }

  lemma SetCtxLinked(w: World, c: CtxId, x: Ctx)
    requires Linked(w) && c < |w.ctxs| && CtxLinked(w, x)
    ensures Linked(SetCtx(w, c, x)) && Grows(w, SetCtx(w, c, x))
  {
    var w' := SetCtx(w, c, x);
  }

  lemma SetNamedLinked(w: World, name: string, p: PoolId)
    requires Linked(w) && p < |w.pools|
    ensures Linked(SetNamed(w, name, p)) && Grows(w, SetNamed(w, name, p))
  {
    assert PoolLinked(w, w.pools[p]);
    var first := w.pools[p].elts[0];
    SetCtxLinked(w, first, w.ctxs[first].(name := Some(name)));
    var w1 := SetCtx(w, first, w.ctxs[first].(name := Some(name)));
    var w' := SetNamed(w, name, p);
  }

  lemma NewNamedPoolLinked(w: World, p: AprId, name: string)
    requires Linked(w) && p < |w.aprs|
    ensures Linked(NewNamedPool(w, p, name)) && Grows(w, NewNamedPool(w, p, name))
    ensures NewNamedPool(w, p, name)
            == w.(ctxs := w.ctxs + [Ctx(|w.pools|, Some(name), None, false, NoScope, 0)],
                  pools := w.pools + [Pool([|w.ctxs|], 1, p)],
                  names := w.names[name := |w.pools|])
  {
    PoolInitLinked(w, 1, p);
    SetNamedLinked(PoolInit(w, 1, p), name, |w.pools|);
    var w' := NewNamedPool(w, p, name);
    assert w'.ctxs == w.ctxs + [Ctx(|w.pools|, Some(name), None, false, NoScope, 0)];
    assert w'.pools[|w.pools|].elts == [|w.ctxs|];
  }

  lemma OfferPoolLinked(w: World, s: ServerId, p: PoolId)
    requires Linked(w) && s < |w.servers| && p < |w.pools|
    ensures Linked(OfferPool(w, s, p)) && Grows(w, OfferPool(w, s, p))
  {
  }

  lemma StartupPoolLinked(w: World, p: AprId, s: ServerId, name: Option<string>)
    requires Linked(w) && p < |w.aprs| && s < |w.servers|
    ensures var (w', q) := StartupPool(w, p, s, name);
            Linked(w') && Grows(w, w') && q < |w'.pools| && w'.aprs == w.aprs
  {
    var n, w0 := NameOr(name), NoteBase(w, s);
    BaseLinked(w, w0);
    if LookupPool(w0, n).None? {
      NewNamedPoolLinked(w0, p, n);
      OfferPoolLinked(NewNamedPool(w0, p, n), s, |w.pools|);
    }
  }

  /** What settling on a pool changes, and what it leaves alone: at most one pool of one
      free context is added, allocated in p, and becomes the pool of a server without one. */
  lemma StartupPoolShape(w: World, p: AprId, s: ServerId, name: Option<string>)
    requires Linked(w) && p < |w.aprs| && s < |w.servers|
    ensures var (w', q) := StartupPool(w, p, s, name);
            && w'.interps == w.interps && w'.aprs == w.aprs && w'.threaded == w.threaded && w'.started == w.started
            && |w'.servers| == |w.servers|
            && (forall v :: 0 <= v < |w.servers| ==> w'.servers[v].enabled == w.servers[v].enabled)
            && (forall v :: 0 <= v < |w.servers| && v != s ==> w'.servers[v] == w.servers[v])
            && if w.started && NameOr(name) in w.names then q == w.names[NameOr(name)] && w' == w
               else && q == |w.pools|
                    && w'.ctxs == w.ctxs + [Ctx(|w.pools|, Some(NameOr(name)), None, false, NoScope, 0)]
                    && w'.pools == w.pools + [Pool([|w.ctxs|], 1, p)]
                    && w'.names == w.names[NameOr(name) := |w.pools|]
                    && w'.servers[s].pool == if w.servers[s].pool.Some? then w.servers[s].pool else Some(|w.pools|)
  {
    var n, w0 := NameOr(name), NoteBase(w, s);
    BaseLinked(w, w0);
    NewNamedPoolLinked(w0, p, n);
  }

  /** Links do not depend on the started flag, the base server or the thread model. */
  lemma BaseLinked(w: World, w': World)
    requires Linked(w) && w' == w.(base := w'.base, started := w'.started)
    ensures Linked(w') && Grows(w, w')
  {
  }

  lemma StartInterpLinked(w: World, c: CtxId)
    requires Linked(w) && c < |w.ctxs|
    ensures Linked(StartInterp(w, c)) && Grows(w, StartInterp(w, c))
  {
    var w' := StartInterp(w, c);
  }

  lemma SetCurrentLinked(w: World, a: AprId, c: CtxId)
    requires Linked(w) && a < |w.aprs| && c < |w.ctxs|
    ensures Linked(SetCurrent(w, a, c)) && Grows(w, SetCurrent(w, a, c))
  {
    var w' := SetCurrent(w, a, c);
  }

  lemma BindLinked(w: World, p: Option<AprId>, c: CtxId, ok: bool)
    requires Linked(w) && c < |w.ctxs| && Within(p, |w.aprs|)
    ensures var w' := Bind(w, p, c, ok).0;
            Linked(w') && Grows(w, w') && |w'.ctxs| == |w.ctxs| && w'.pools == w.pools
  {
    assert CtxLinked(w, w.ctxs[c]);
    SetCtxLinked(w, c, w.ctxs[c].(locked := true));
    var w1 := Lock(w, c);
    StartInterpLinked(w1, c);
    var w2 := if w.ctxs[c].interp.None? then StartInterp(w1, c) else w1;
    if p.Some? {
      SetCurrentLinked(w2, p.value, c);
    }
  }

  lemma AdoptLinked(w: World, s: ServerId, p: Option<AprId>, c: CtxId, ok: bool)
    requires Linked(w) && c < |w.ctxs| && Within(p, |w.aprs|)
    ensures var (w', _) := Adopt(w, s, p, c, ok);
            Linked(w') && Grows(w, w') && |w'.ctxs| == |w.ctxs| && w'.pools == w.pools
  {
    BindLinked(w, p, c, ok);
    var w1 := Bind(w, p, c, ok).0;
    assert CtxLinked(w1, w1.ctxs[c]);
    SetCtxLinked(w1, c, w1.ctxs[c].(scope := w1.ctxs[c].scope.(s := Some(s))));
  }

  /** What taking context c over changes, and what it leaves alone. */
  lemma AdoptShape(w: World, s: ServerId, p: Option<AprId>, c: CtxId, ok: bool)
    requires c < |w.ctxs| && Within(p, |w.aprs|)
    ensures var (w', r) := Adopt(w, s, p, c, ok);
            && w' == w.(ctxs := w'.ctxs, interps := w'.interps, aprs := w'.aprs)
            && |w'.ctxs| == |w.ctxs| && w'.ctxs[c].locked && w'.ctxs[c].home == w.ctxs[c].home
            && w'.ctxs[c].index == w.ctxs[c].index
            && (forall d :: 0 <= d < |w.ctxs| && d != c ==> w'.ctxs[d] == w.ctxs[d])
            && (r.Some? <==> ok || w.ctxs[c].interp.Some?) && (r.Some? ==> r == Some(c))
            && w'.aprs == if p.Some? && r.Some?
                          then w.aprs[p.value := w.aprs[p.value].(current := Some(c),
                                                                  cleanups := w.aprs[p.value].cleanups + [c])]
                          else w.aprs
  {
  }

  /** init_ctx touches contexts, interpreters and APR pools only. */
  lemma InitCtxFrame(w: World, s: ServerId, p: Option<AprId>, pool: Option<PoolId>, ok: bool)
    requires Linked(w) && s < |w.servers| && Within(p, |w.aprs|) && Within(pool, |w.pools|)
    ensures var w' := InitCtx(w, s, p, pool, ok).0;
            w' == w.(ctxs := w'.ctxs, interps := w'.interps, aprs := w'.aprs)
  {
    assert Within(w.servers[s].pool, |w.pools|);
    var got := Pick(w, Source(w, s, pool));
    if Kept(w, p, pool).None? && got.Some? {
      AdoptShape(w, s, p, got.value, ok);
    }
  }

  /** When init_ctx keeps no context, what it does is what it does to the one it reserves. */
  lemma InitCtxAdopts(w: World, s: ServerId, p: Option<AprId>, pool: Option<PoolId>, ok: bool)
    requires Linked(w) && s < |w.servers| && Within(p, |w.aprs|) && Within(pool, |w.pools|)
    ensures var kept, got := Kept(w, p, pool), Pick(w, Source(w, s, pool));
            InitCtx(w, s, p, pool, ok)
            == if kept.Some? then (SetServer(w, kept.value, s), kept)
               else if got.None? then (w, None)
               else Adopt(w, s, p, got.value, ok)
  {
  }

  lemma InitCtxLinked(w: World, s: ServerId, p: Option<AprId>, pool: Option<PoolId>, ok: bool)
    requires Linked(w) && s < |w.servers| && Within(p, |w.aprs|) && Within(pool, |w.pools|)
    ensures var (w', c) := InitCtx(w, s, p, pool, ok);
            && Linked(w') && Grows(w, w') && Within(c, |w'.ctxs|)
            && |w'.ctxs| == |w.ctxs| && w'.pools == w.pools
  {
    InitCtxAdopts(w, s, p, pool, ok);
    var kept, got := Kept(w, p, pool), Pick(w, Source(w, s, pool));
    if kept.Some? {
      assert CtxLinked(w, w.ctxs[kept.value]);
      SetCtxLinked(w, kept.value, w.ctxs[kept.value].(scope := w.ctxs[kept.value].scope.(s := Some(s))));
    } else if got.Some? {
      AdoptLinked(w, s, p, got.value, ok);
    }
  }

  lemma InitCtxShape(w: World, s: ServerId, p: Option<AprId>, pool: Option<PoolId>, ok: bool)
    requires Linked(w) && s < |w.servers| && Within(p, |w.aprs|) && Within(pool, |w.pools|)
    ensures var (w', c) := InitCtx(w, s, p, pool, ok);
            Within(c, |w'.ctxs|) && |w'.ctxs| == |w.ctxs|
  {
    InitCtxLinked(w, s, p, pool, ok);
  }

  lemma CloneCtxLinked(w: World, cur: CtxId, pool: Option<PoolId>, s: ServerId, p: AprId, ok: bool)
    requires Linked(w) && cur < |w.ctxs| && s < |w.servers| && p < |w.aprs| && Within(pool, |w.pools|)
    ensures var (w', c) := CloneCtx(w, cur, pool, s, p, ok);
            && Linked(w') && Grows(w, w') && Within(c, |w'.ctxs|)
            && |w'.ctxs| == |w.ctxs| && w'.pools == w.pools
  {
    InitCtxLinked(w, s, Some(p), pool, ok);
    if pool != Some(w.ctxs[cur].home) {
      var (w', c) := InitCtx(w, s, Some(p), pool, ok);
      if c.Some? {
        assert CtxLinked(w', w'.ctxs[c.value]);
        SetCtxLinked(w', c.value, CopyState(w'.ctxs[cur], w'.ctxs[c.value]));
      }
    }
  }

  /** No APR pool is bound to a context of a pool created since. */
  lemma KeptIsOld(w: World, w1: World, a: AprId, p: PoolId)
    requires Linked(w) && Linked(w1) && a < |w.aprs| && w1.aprs == w.aprs && p == |w.pools| < |w1.pools|
    requires |w.ctxs| <= |w1.ctxs| && forall d :: 0 <= d < |w.ctxs| ==> w1.ctxs[d] == w.ctxs[d]
    ensures Kept(w1, Some(a), Some(p)).None?
  {
    assert AprLinked(w, w.aprs[a]);
    if w.aprs[a].current.Some? {
      assert CtxLinked(w, w.ctxs[w.aprs[a].current.value]);
    }
  }

  /** The world after a first start under a name: one more pool of one locked context with
      an interpreter of its own, to which p is bound. */
  function WithNewPool(w: World, p: AprId, s: ServerId, n: string): World
    requires p < |w.aprs| && s < |w.servers|
  {
    var c := |w.ctxs|;
    OfferPool(w, s, |w.pools|).(
      ctxs := w.ctxs + [Ctx(|w.pools|, Some(n), Some(|w.interps|), true, NoScope.(s := Some(s)), 0)],
      pools := w.pools + [Pool([c], 1, p)],
      interps := w.interps + [Interp(Some(c), 0)],
      aprs := w.aprs[p := w.aprs[p].(current := Some(c), cleanups := w.aprs[p].cleanups + [c])],
      names := w.names[n := |w.pools|],
      started := true,
      base := if w.started then w.base else Some(s))
  }

  lemma FreshStartup(w: World, p: AprId, s: ServerId, name: Option<string>)
    requires Linked(w) && p < |w.aprs| && s < |w.servers| && (w.started ==> NameOr(name) !in w.names)
    ensures Startup(w, p, s, name, true) == (WithNewPool(w, p, s, NameOr(name)), Some(|w.ctxs|))
  {
    StartupPoolLinked(w, p, s, name);
    StartupPoolShape(w, p, s, name);
    var ((w1, q), c) := (StartupPool(w, p, s, name), |w.ctxs|);
    assert PoolLinked(w1, w1.pools[q]);
    KeptIsOld(w, w1, p, q);
    InitCtxAdopts(w1, s, Some(p), Some(q), true);
    assert Pick(w1, Some(q)) == Some(c);
    var w2 := Adopt(w1, s, Some(p), c, true).0;
    assert w2.ctxs == WithNewPool(w, p, s, NameOr(name)).ctxs;
    assert w1.servers == WithNewPool(w, p, s, NameOr(name)).servers;
  }

  lemma StartupLinked(w: World, p: AprId, s: ServerId, name: Option<string>, ok: bool)
    requires Linked(w) && s < |w.servers| && p < |w.aprs|
    ensures var (w', c) := Startup(w, p, s, name, ok); Linked(w') && Grows(w, w') && Within(c, |w'.ctxs|)
  {
    StartupPoolLinked(w, p, s, name);
    var (w1, pool) := StartupPool(w, p, s, name);
    InitCtxLinked(w1, s, Some(p), Some(pool), ok);
    var (w2, c) := InitCtx(w1, s, Some(p), Some(pool), ok);
    BaseLinked(w2, w2.(started := w2.started || c.Some?));
  }

  lemma {:induction false} ReleaseAllLinked(w: World, cs: seq<CtxId>)
    requires Linked(w) && forall i :: 0 <= i < |cs| ==> cs[i] < |w.ctxs|
    ensures Linked(ReleaseAll(w, cs)) && Grows(w, ReleaseAll(w, cs))
    ensures ReleaseAll(w, cs) == w.(ctxs := ReleaseAll(w, cs).ctxs)
    ensures |ReleaseAll(w, cs).ctxs| == |w.ctxs|
    ensures forall c :: 0 <= c < |w.ctxs| ==>
              ReleaseAll(w, cs).ctxs[c] == if c in cs then w.ctxs[c].(locked := false) else w.ctxs[c]
    decreases |cs|
  {
    if cs != [] {
      var k := |cs| - 1;
      assert CtxLinked(w, w.ctxs[cs[k]]);
      SetCtxLinked(w, cs[k], w.ctxs[cs[k]].(locked := false));
      ReleaseAllLinked(Release(w, cs[k]), cs[..k]);
      assert cs == cs[..k] + [cs[k]];
    }
  }

  /** Destroying an APR pool unlocks exactly the contexts with a cleanup pending on it. */
  lemma DestroyAprIs(w: World, a: AprId)
    requires Linked(w) && a < |w.aprs|
    ensures var w' := DestroyApr(w, a);
            && Linked(w') && Grows(w, w') && |w'.ctxs| == |w.ctxs|
            && w' == w.(ctxs := w'.ctxs, aprs := w.aprs[a := Apr(false, None, [])])
            && forall c :: 0 <= c < |w.ctxs| ==>
                 w'.ctxs[c] == if c in w.aprs[a].cleanups then w.ctxs[c].(locked := false) else w.ctxs[c]
  {
    assert AprLinked(w, w.aprs[a]);
    ReleaseAllLinked(w, w.aprs[a].cleanups);
    var w1 := ReleaseAll(w, w.aprs[a].cleanups);
    var w' := DestroyApr(w, a);
  }
}
