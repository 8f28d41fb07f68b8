/**
 What init_ctx and the meta handlers come to, told in terms of the program's own data: which
 context is given, how a call ends, which pool it runs in, and what the HLL code finds in
 its context.
*/
module Serving {
  import opened Options
  import opened Lifecycle
  import opened Reachable
  import opened Runs
  import opened Dispatch
  import opened Phases
  import opened Handling
  import Registry

  // ---------------------------------------------------------------- the context init_ctx gives

  /** p is bound to c, and c is of the pool asked for. */
  predicate Suits(w: World, p: Option<AprId>, pool: Option<PoolId>, c: CtxId) {
    && p.Some? && p.value < |w.aprs| && c < |w.ctxs| && w.aprs[p.value].current == Some(c)
    && (pool.Some? ==> w.ctxs[c].home == pool.value)
  }

  /** x is locked and returned; or locked and not returned, as its interpreter does not start. */
  predicate Gives(w: World, w': World, c: Option<CtxId>, x: CtxId, ok: bool) {
    && x < |w.ctxs| && x < |w'.ctxs| && w'.ctxs[x].locked
    && c == if ok || w.ctxs[x].interp.Some? then Some(x) else None
  }

  /** A bound context of the right pool is given as it is, locked or not; only the server is
      noted in it. */
  lemma InitCtxGivesBound(w: World, s: ServerId, p: Option<AprId>, pool: Option<PoolId>, ok: bool, c: CtxId)
    requires Linked(w) && s < |w.servers| && Within(p, |w.aprs|) && Within(pool, |w.pools|) && Suits(w, p, pool, c)
    ensures InitCtx(w, s, p, pool, ok)
            == (w.(ctxs := w.ctxs[c := w.ctxs[c].(scope := w.ctxs[c].scope.(s := Some(s)))]), Some(c))
  {
    InitCtxAdopts(w, s, p, pool, ok);
  }

  /** Slot j is in use and nobody holds its context. */
  predicate Unheld(w: World, slots: Pool, j: nat) {
    j < slots.nelts && j < |slots.elts| && slots.elts[j] < |w.ctxs| && !w.ctxs[slots.elts[j]].locked
  }

  predicate FirstUnheld(w: World, slots: Pool, j: nat) {
    Unheld(w, slots, j) && forall l :: 0 <= l < j ==> !Unheld(w, slots, l)
  }

  /** Otherwise the pool asked for, or else the server's, gives one: without threads its first
      context, whoever holds it; with threads the first that nobody holds.  Nothing is given,
      and nothing changes, if there is no such pool or context. */
  lemma InitCtxGivesReserved(w: World, s: ServerId, p: Option<AprId>, pool: Option<PoolId>, ok: bool)
    requires Linked(w) && s < |w.servers| && Within(p, |w.aprs|) && Within(pool, |w.pools|)
    requires forall c :: !Suits(w, p, pool, c)
    ensures var ((w', c), from) := (InitCtx(w, s, p, pool, ok), if pool.Some? then pool else w.servers[s].pool);
            && Within(from, |w.pools|)
            && (from.None? ==> w' == w && c == None)
            && (from.Some? ==>
                  var slots := w.pools[from.value];
                  && (!w.threaded ==> |slots.elts| > 0 && Gives(w, w', c, slots.elts[0], ok))
                  && (w.threaded ==>
                        || (w' == w && c == None && forall j: nat :: !Unheld(w, slots, j))
                        || exists j: nat :: FirstUnheld(w, slots, j) && Gives(w, w', c, slots.elts[j], ok)))
  {
    assert Within(w.servers[s].pool, |w.pools|);
    InitCtxAdopts(w, s, p, pool, ok);
    KeptSuits(w, p, pool);
    var from := Source(w, s, pool);
    if from.Some? {
      var (slots, got) := (w.pools[from.value], Pick(w, from));
      assert PoolLinked(w, slots);
      if got.Some? {
        AdoptShape(w, s, p, got.value, ok);
      }
      if w.threaded {
        ScanFindsUnheld(w, slots);
      }
    }
  }

  lemma ScanFindsUnheld(w: World, slots: Pool)
    requires PoolLinked(w, slots)
    ensures match Scan(w, slots, 0)
            case None => forall j: nat :: !Unheld(w, slots, j)
            case Some(x) => exists j: nat :: FirstUnheld(w, slots, j) && slots.elts[j] == x
  {
    ScanFirst(w, slots, 0);
    var got := Scan(w, slots, 0);
    if got.Some? {
      var j :| 0 <= j < slots.nelts && slots.elts[j] == got.value && forall l :: 0 <= l < j ==> w.ctxs[slots.elts[l]].locked;
      assert FirstUnheld(w, slots, j);
    }
  }

  lemma KeptSuits(w: World, p: Option<AprId>, pool: Option<PoolId>)
    requires Linked(w) && Within(p, |w.aprs|) && Within(pool, |w.pools|)
    ensures Kept(w, p, pool).None? <==> forall c :: !Suits(w, p, pool, c)
  {
    var kept := Kept(w, p, pool);
    if kept.Some? {
      assert Suits(w, p, pool, kept.value);
    }
  }

  /** Without threads init_ctx comes back empty-handed only for want of any pool, or of an
      interpreter: a context in use is no obstacle. */
  lemma PreforkNeverDenied(w: World, s: ServerId, p: Option<AprId>, pool: Option<PoolId>, ok: bool)
    requires Linked(w) && s < |w.servers| && Within(p, |w.aprs|) && Within(pool, |w.pools|)
    requires !w.threaded && ok && (pool.Some? || w.servers[s].pool.Some?)
    ensures InitCtx(w, s, p, pool, ok).1.Some?
  {
    if c :| Suits(w, p, pool, c) {
      InitCtxGivesBound(w, s, p, pool, ok, c);
    } else {
      InitCtxGivesReserved(w, s, p, pool, ok);
    }
  }

  /** A first start under a name whose interpreter does not start: the pool stays, under its
      name and as the server's own if that had none, with its context locked for good; the
      program does not count as started. */
  lemma FailedStartup(w: World, p: AprId, s: ServerId, name: Option<string>)
    requires Linked(w) && p < |w.aprs| && s < |w.servers| && (w.started ==> NameOr(name) !in w.names)
    ensures var ((w', c), n) := (Startup(w, p, s, name, false), NameOr(name));
            && c == None && w'.started == w.started && w'.aprs == w.aprs && w'.interps == w.interps
            && w'.ctxs == w.ctxs + [Ctx(|w.pools|, Some(n), None, true, NoScope, 0)]
            && w'.pools == w.pools + [Pool([|w.ctxs|], 1, p)] && w'.names == w.names[n := |w.pools|]
            && w'.threaded == w.threaded && |w'.servers| == |w.servers|
            && w'.servers[s].pool == if w.servers[s].pool.Some? then w.servers[s].pool else Some(|w.pools|)
  {
    StartupPoolLinked(w, p, s, name);
    StartupPoolShape(w, p, s, name);
    var ((w1, q), c) := (StartupPool(w, p, s, name), |w.ctxs|);
    assert PoolLinked(w1, w1.pools[q]);
    KeptIsOld(w, w1, p, q);
    InitCtxAdopts(w1, s, Some(p), Some(q), false);
    assert Pick(w1, Some(q)) == Some(c);
    assert w1.ctxs[c := w1.ctxs[c].(locked := true)] == w.ctxs + [w1.ctxs[c].(locked := true)];
  }

  /** Trying again later works except in a threaded server that had been started before: there
      the name leads to the lost context, and every further start under it fails. */
  lemma RetryWorksIff(w: World, p: AprId, s: ServerId, name: Option<string>, q: AprId, v: ServerId)
    requires Linked(w) && p < |w.aprs| && s < |w.servers| && q < |w.aprs| && v < |w.servers|
    requires w.started ==> NameOr(name) !in w.names
    ensures (StartupLinked(w, p, s, name, false);
             Startup(Startup(w, p, s, name, false).0, q, v, name, true).1.Some? <==> !w.threaded || !w.started)
  {
    hide Startup;
    StartupLinked(w, p, s, name, false);
    FailedStartup(w, p, s, name);
    var w1 := Startup(w, p, s, name, false).0;
    if w.started {
      KeptIsOld(w, w1, q, |w.pools|);
      LostPool(w1, q, v, name, |w.ctxs|);
    } else {
      FreshStartup(w1, q, v, name);
    }
  }

  lemma LostPool(w: World, p: AprId, s: ServerId, name: Option<string>, c: CtxId)
    requires Linked(w) && p < |w.aprs| && s < |w.servers| && w.started && NameOr(name) in w.names && c < |w.ctxs|
    requires var q := w.names[NameOr(name)];
             q < |w.pools| && Kept(w, Some(p), Some(q)).None? && w.pools[q].elts == [c] && w.pools[q].nelts == 1
    requires w.ctxs[c].locked
    ensures Startup(w, p, s, name, true).1.Some? <==> !w.threaded
  {
    InitCtxDeniedIff(w, s, Some(p), Some(w.names[NameOr(name)]), true);
  }

  // ---------------------------------------------------------------- how a call ends

  /** In the context it gives, init_ctx notes the server and leaves all else of the scope and
      the counter alone. */
  lemma InitCtxNotes(w: World, s: ServerId, p: Option<AprId>, pool: Option<PoolId>, ok: bool)
    requires Linked(w) && s < |w.servers| && Within(p, |w.aprs|) && Within(pool, |w.pools|)
    ensures var (w', c) := InitCtx(w, s, p, pool, ok);
            c.Some? ==> c.value < |w.ctxs| == |w'.ctxs|
                        && w'.ctxs[c.value].scope == w.ctxs[c.value].scope.(s := Some(s))
                        && w'.ctxs[c.value].index == w.ctxs[c.value].index
  {
    InitCtxAdopts(w, s, p, pool, ok);
  }

  lemma InitCtxLeavesScopes(w: World, s: ServerId, p: Option<AprId>, pool: Option<PoolId>, ok: bool)
    requires Linked(w) && s < |w.servers| && Within(p, |w.aprs|) && Within(pool, |w.pools|)
    ensures var (w', c) := InitCtx(w, s, p, pool, ok);
            |w'.ctxs| == |w.ctxs| && forall d :: 0 <= d < |w.ctxs| && c != Some(d) ==> w'.ctxs[d].scope == w.ctxs[d].scope
  {
    InitCtxAdopts(w, s, p, pool, ok);
  }

  /** The world a call that was given context c selects its pool in. */
  function Arrival(w: World, call: Call, c: CtxId): World
    requires Linked(w) && call.s < |w.servers| && Within(call.look, |w.aprs|) && c < |w.ctxs|
  {
    InitCtxShape(w, call.s, call.look, None, call.oks.0);
    var w1 := InitCtx(w, call.s, call.look, None, call.oks.0).0;
    SetCtx(w1, c, w1.ctxs[c].(index := w1.ctxs[c].index + 1))
  }

  lemma ServeArrives(w: World, t: Registry.Table, call: Call, c: CtxId)
    requires Linked(w) && Fits(w, t, call) && c < |w.ctxs|
    ensures var m := ModuleAt(t, call.hook, w.ctxs[c].index + 1);
            && (m.None? ==> Serve(w, t, call, c).1.BadIndex?)
            && (m.Some? ==>
                  var w1 := SetCtx(w, c, w.ctxs[c].(index := w.ctxs[c].index + 1));
                  Linked(w1) && Fits(w1, t, call) && Grows(w, w1) && Serve(w, t, call, c) == Place(w1, t, call, c, m.value))
  {
    hide Place;
    AdvanceLinked(w, t, call.hook, c);
    FitsStill(w, Advance(w, t, call.hook, c), t, call);
  }

  lemma Arrives(w: World, t: Registry.Table, call: Call, c: CtxId)
    requires Linked(w) && Fits(w, t, call) && InitCtx(w, call.s, call.look, None, call.oks.0).1 == Some(c)
    requires w.servers[call.s].enabled || call.kind.OnOpenLogs?
    ensures c < |w.ctxs|
    ensures var m := ModuleAt(t, call.hook, w.ctxs[c].index + 1);
            && (m.None? ==> MetaCall(w, t, call).1.BadIndex?)
            && (m.Some? ==>
                  var w1 := Arrival(w, call, c);
                  Linked(w1) && Fits(w1, t, call) && Grows(w, w1) && MetaCall(w, t, call) == Place(w1, t, call, c, m.value))
  {
    hide InitCtx, Serve, Place;
    InitCtxLinked(w, call.s, call.look, None, call.oks.0);
    InitCtxFrame(w, call.s, call.look, None, call.oks.0);
    InitCtxNotes(w, call.s, call.look, None, call.oks.0);
    var w0 := InitCtx(w, call.s, call.look, None, call.oks.0).0;
    FitsStill(w, w0, t, call);
    ServeArrives(w0, t, call, c);
  }

  /** The first checks of a meta handler.  It answers ServerError exactly when init_ctx gives
      nothing.  On a disabled server every other handler than open_logs then declines, with
      nothing changed but what init_ctx changed: no counter moves and no HLL code runs. */
  lemma DisabledServerDeclines(w: World, t: Registry.Table, call: Call)
    requires Linked(w) && Fits(w, t, call) && !w.servers[call.s].enabled && !call.kind.OnOpenLogs?
    ensures var (w', o) := MetaCall(w, t, call);
            && w' == InitCtx(w, call.s, call.look, None, call.oks.0).0
            && o == (if Denied(w, call.s, call.look, None, call.oks.0) then ServerError else Declined)
            && CountersKept(w, w', call.look)
  {
    hide InitCtx, Denied;
    InitCtxDeniedIff(w, call.s, call.look, None, call.oks.0);
    InitCtxFrame(w, call.s, call.look, None, call.oks.0);
    InitCtxCounters(w, call.s, call.look, None, call.oks.0);
  }

  lemma PlaceEnds(w: World, t: Registry.Table, call: Call, c: CtxId, m: nat)
    requires Linked(w) && Fits(w, t, call) && c < |w.ctxs| && m < |t.mods|
    requires w.servers[call.s].enabled || call.kind.OnOpenLogs?
    ensures var o := Place(w, t, call, c, m).1;
            && (o.Declined? <==> !w.servers[call.s].enabled && (Intended(w, t, call, m).Some? || call.oks.1))
            && (o.Ran? ==> w.servers[call.s].enabled && o.mod == m)
            && (o.Declined? || o.Ran? || o.Fault?)
  {
    hide Swap, Startup;
    SelectPoolLinked(w, t, call, m);
    SelectPoolServers(w, t, call, m);
    if Intended(w, t, call, m).None? {
      MissingSectionPool(w, t, call, m);
    } else {
      IntendedSelected(w, t, call, m);
    }
    match SelectPool(w, t, call, m)
    case SelectFault(w1) =>
    case Selected(w1, pool) =>
      SwapLinked(w1, c, pool, call);
      SwapKeepsServers(w1, c, pool, call);
  }

  /** How any call on any server ends, by the first check that applies: no context, a server
      not enabled, no k-th module.  open_logs alone looks at the server after the swap, so it
      can read out of range or fault there first.  What runs is the k-th module, and it runs
      on enabled servers only. */
  lemma OutcomeIff(w: World, t: Registry.Table, call: Call)
    requires Linked(w) && Fits(w, t, call)
    ensures var (c, o, on) := (InitCtx(w, call.s, call.look, None, call.oks.0).1, MetaCall(w, t, call).1,
                               w.servers[call.s].enabled);
            && (o.ServerError? <==> c.None?) && (c.None? <==> Denied(w, call.s, call.look, None, call.oks.0))
            && (o.Ran? ==> on)
            && (c.Some? ==>
                  && c.value < |w.ctxs|
                  && var m := ModuleAt(t, call.hook, w.ctxs[c.value].index + 1);
                     && (o.BadIndex? <==> m.None? && (on || call.kind.OnOpenLogs?))
                     && (o.Declined? <==>
                           !on && (call.kind.OnOpenLogs? ==>
                                     m.Some? && (Intended(w, t, call, m.value).Some? || call.oks.1)))
                     && (o.Ran? ==> m == Some(o.mod)))
  {
    hide InitCtx, MetaCall, Denied, Place;
    InitCtxDeniedIff(w, call.s, call.look, None, call.oks.0);
    InitCtxFrame(w, call.s, call.look, None, call.oks.0);
    InitCtxNotes(w, call.s, call.look, None, call.oks.0);
    var (on, c) := (w.servers[call.s].enabled, InitCtx(w, call.s, call.look, None, call.oks.0).1);
    if c.None? {
      EmptyHanded(w, t, call);
    } else if !on && !call.kind.OnOpenLogs? {
      DisabledServerDeclines(w, t, call);
    } else {
      Arrives(w, t, call, c.value);
      match ModuleAt(t, call.hook, w.ctxs[c.value].index + 1)
      case None =>
      case Some(m) => PlaceEnds(Arrival(w, call, c.value), t, call, c.value, m);
    }
  }

  lemma EmptyHanded(w: World, t: Registry.Table, call: Call)
    requires Linked(w) && Fits(w, t, call) && InitCtx(w, call.s, call.look, None, call.oks.0).1.None?
    ensures MetaCall(w, t, call) == (InitCtx(w, call.s, call.look, None, call.oks.0).0, ServerError)
  {
    hide InitCtx;
    InitCtxLinked(w, call.s, call.look, None, call.oks.0);
  }

  // ---------------------------------------------------------------- how a phase begins

  /** A setup handler notes the server and the phase's pool in the context it is given,
      rewinds the counter, and touches no other counter or scope; only child_init gives the
      context back. */
  lemma SetupNotes(w: World, s: ServerId, look: Option<AprId>, phase: AprId, ok: bool)
    requires Linked(w) && s < |w.servers| && Within(look, |w.aprs|)
    ensures var (w', c) := Setup(w, s, look, phase, ok);
            && |w'.ctxs| == |w.ctxs| && c == InitCtx(w, s, look, None, ok).1
            && (forall d :: 0 <= d < |w.ctxs| && c != Some(d) ==>
                  w'.ctxs[d].scope == w.ctxs[d].scope && w'.ctxs[d].index == w.ctxs[d].index)
            && (c.Some? ==>
                  && c.value < |w.ctxs| && w'.ctxs[c.value].index == -1
                  && w'.ctxs[c.value].scope == w.ctxs[c.value].scope.(s := Some(s), pool := Some(phase))
                  && w'.ctxs[c.value].locked
                     == (look.Some? && InitCtx(w, s, look, None, ok).0.ctxs[c.value].locked))
  {
    hide InitCtx;
    InitCtxLinked(w, s, look, None, ok);
    InitCtxNotes(w, s, look, None, ok);
    InitCtxCounters(w, s, look, None, ok);
    InitCtxLeavesScopes(w, s, look, None, ok);
  }

  /** The first open_logs handler on an enabled server: the world of a first start, but with
      pconf as configuration pool and phase pool, and the counter rewound. */
  lemma OpenLogsNotes(w: World, s: ServerId, ptemp: AprId, pconf: AprId)
    requires Linked(w) && s < |w.servers| && ptemp < |w.aprs| && (w.started ==> "default" !in w.names)
    ensures var (w', c) := OpenLogsSetup(w, s, ptemp, pconf, true);
            var first := WithNewPool(w, ptemp, s, "default");
            && c == Some(|w.ctxs|)
            && w' == first.(ctxs := w.ctxs + [Ctx(|w.pools|, Some("default"), Some(|w.interps|), true,
                                                  NoScope.(s := Some(s), pconf := Some(pconf), pool := Some(pconf)), -1)])
  {
    hide Startup;
    StartupLinked(w, ptemp, s, None, true);
    FreshStartup(w, ptemp, s, None);
    var (w', c) := OpenLogsSetup(w, s, ptemp, pconf, true);
    var first := WithNewPool(w, ptemp, s, "default");
    assert w'.ctxs == first.ctxs[|w.ctxs| := w'.ctxs[|w.ctxs|]];
  }

  // ---------------------------------------------------------------- without threads

  lemma PreforkSwap(w: World, c: CtxId, pool: Option<PoolId>, call: Call)
    requires Linked(w) && c < |w.ctxs| && call.s < |w.servers| && call.bind < |w.aprs| && Within(pool, |w.pools|)
    requires !w.threaded && call.oks.2 && (pool.Some? || w.servers[call.s].pool.Some?)
    ensures Swap(w, c, pool, call).1.Some?
  {
    hide InitCtx;
    PreforkNeverDenied(w, call.s, Some(call.bind), pool, call.oks.2);
    CloneCtxLinked(w, c, pool, call.s, call.bind, call.oks.2);
  }

  lemma PreforkPlace(w: World, t: Registry.Table, call: Call, c: CtxId, m: nat)
    requires Linked(w) && Fits(w, t, call) && c < |w.ctxs| && m < |t.mods|
    requires !w.threaded && call.oks.1 && call.oks.2
    ensures !Place(w, t, call, c, m).1.Fault?
  {
    hide Swap, Startup;
    SelectPoolLinked(w, t, call, m);
    if Intended(w, t, call, m).None? {
      MissingSectionPool(w, t, call, m);
    } else {
      IntendedSelected(w, t, call, m);
    }
    match SelectPool(w, t, call, m)
    case SelectFault(w1) =>
    case Selected(w1, pool) =>
      SwapLinked(w1, c, pool, call);
      PreforkSwap(w1, c, pool, call);
  }

  /** Without threads no call of any kind, on any server, for any scope, uses a null context
      as long as interpreters start: the contexts a request, its subrequests and its internal
      redirects want may all be in use. */
  lemma PreforkNeverFaults(w: World, t: Registry.Table, call: Call)
    requires Linked(w) && Fits(w, t, call) && !w.threaded && call.oks.1 && call.oks.2
    ensures !MetaCall(w, t, call).1.Fault?
  {
    hide InitCtx, MetaCall, Place;
    InitCtxFrame(w, call.s, call.look, None, call.oks.0);
    InitCtxNotes(w, call.s, call.look, None, call.oks.0);
    var (on, c) := (w.servers[call.s].enabled, InitCtx(w, call.s, call.look, None, call.oks.0).1);
    if c.None? {
      EmptyHanded(w, t, call);
    } else if !on && !call.kind.OnOpenLogs? {
      DisabledServerDeclines(w, t, call);
    } else {
      Arrives(w, t, call, c.value);
      match ModuleAt(t, call.hook, w.ctxs[c.value].index + 1)
      case None =>
      case Some(m) => PreforkPlace(Arrival(w, call, c.value), t, call, c.value, m);
    }
  }

  // ---------------------------------------------------------------- where a handler runs, and what it finds

  /** The section decides, then the server, then the module: the pool module o.mod runs in,
      for every kind of call that runs, when the section's pool exists. */
  lemma MostSpecificScopeWins(w: World, t: Registry.Table, call: Call)
    requires Sound(w) && Fits(w, t, call) && AprsAlive(w, call)
    ensures var (w', o) := MetaCall(w, t, call);
            o.Ran? ==>
              && o.mod < |t.mods| && o.ctx < |w'.ctxs|
              && var home := w'.ctxs[o.ctx].home;
                 && (o.mod in call.section && call.section[o.mod] in w.names ==> home == w.names[call.section[o.mod]])
                 && (o.mod !in call.section && o.mod in call.server ==> home == call.server[o.mod])
                 && (o.mod !in call.section && o.mod !in call.server ==> home == t.mods[o.mod].pool)
  {
    hide InitCtx, MetaCall, Place, Denied, HomesOk, InterpsOk, BindingsOk, NamesOk;
    OutcomeIff(w, t, call);
    HandlerFinds(w, t, call);
    var (w', o) := MetaCall(w, t, call);
    if o.Ran? {
      var c := InitCtx(w, call.s, call.look, None, call.oks.0).1.value;
      Arrives(w, t, call, c);
      ArrivalSound(w, t, call, c);
      if Intended(w, t, call, o.mod).Some? {
        RunsInIntendedPool(Arrival(w, call, c), t, call, c, o.mod);
      }
    }
  }

  lemma ArrivalSound(w: World, t: Registry.Table, call: Call, c: CtxId)
    requires Sound(w) && Fits(w, t, call) && AprsAlive(w, call) && c < |w.ctxs|
    ensures var w1 := Arrival(w, call, c); Sound(w1) && AprsAlive(w1, call) && w1.names == w.names
  {
    hide HomesOk, InterpsOk, BindingsOk, NamesOk;
    InitCtxSound(w, call.s, call.look, None, call.oks.0);
    InitCtxFrame(w, call.s, call.look, None, call.oks.0);
    InitCtxCounters(w, call.s, call.look, None, call.oks.0);
    var w0 := InitCtx(w, call.s, call.look, None, call.oks.0).0;
    SetCtxSound(w0, c, w0.ctxs[c].(index := w0.ctxs[c].index + 1));
  }

  /** x is y but for the server, which is s, and the phase pool. */
  predicate Carries(x: Scope, y: Scope, s: ServerId) {
    && x.s == Some(s)
    && (x.r, x.c, x.csd) == (y.r, y.c, y.csd)
    && (x.pconf, x.plog, x.ptemp, x.pchild) == (y.pconf, y.plog, y.ptemp, y.pchild)
  }

  lemma SwapCarriesScope(w: World, c: CtxId, pool: Option<PoolId>, call: Call)
    requires Linked(w) && c < |w.ctxs| && call.s < |w.servers| && call.bind < |w.aprs| && Within(pool, |w.pools|)
    requires w.ctxs[c].scope.s == Some(call.s)
    ensures var (w', d) := Swap(w, c, pool, call);
            d.Some? ==> d.value < |w.ctxs| == |w'.ctxs|
                        && Carries(w'.ctxs[d.value].scope, w.ctxs[c].scope, call.s)
                        && w'.ctxs[d.value].scope.pool == w.ctxs[d.value].scope.pool
  {
    hide InitCtx;
    InitCtxLinked(w, call.s, Some(call.bind), pool, call.oks.2);
    InitCtxNotes(w, call.s, Some(call.bind), pool, call.oks.2);
    InitCtxLeavesScopes(w, call.s, Some(call.bind), pool, call.oks.2);
    CloneCtxLinked(w, c, pool, call.s, call.bind, call.oks.2);
  }

  /** What the handler finds in scope x, when y was that of the context it was called on: the
      objects Apache passed, each in its own field, and for the rest what y had. */
  predicate Finds(x: Scope, y: Scope, call: Call) {
    var k := call.kind;
    && x.s == Some(call.s)
    && x.r == (if k.OnRequest? then Some(k.r) else y.r)
    && x.c == (if k.OnPreConnection? then Some(k.c) else if k.OnProcessConnection? then Some(k.c) else y.c)
    && x.csd == (if k.OnPreConnection? then Some(k.csd) else y.csd)
    && x.pconf == (if k.OnPostConfig? || k.OnOpenLogs? then Some(k.pconf) else y.pconf)
    && x.plog == (if k.OnPostConfig? || k.OnOpenLogs? then Some(k.plog) else y.plog)
    && x.ptemp == (if k.OnPostConfig? || k.OnOpenLogs? then Some(k.ptemp) else y.ptemp)
    && x.pchild == (if k.OnChildInit? then Some(k.pchild) else y.pchild)
  }

  lemma HandFinds(w: World, c: CtxId, pool: Option<PoolId>, m: nat, call: Call)
    requires Linked(w) && c < |w.ctxs| && call.s < |w.servers| && call.bind < |w.aprs| && Within(pool, |w.pools|)
    requires w.ctxs[c].scope.s == Some(call.s)
    ensures var (w', o) := Hand(w, c, pool, m, call);
            o.Ran? ==> o.ctx < |w.ctxs| == |w'.ctxs| && Finds(w'.ctxs[o.ctx].scope, w.ctxs[c].scope, call)
                       && w'.ctxs[o.ctx].scope.pool == w.ctxs[o.ctx].scope.pool
                       && (o.called <==> !(call.kind.OnRequest? && call.kind.headerOnly))
  {
    hide Swap;
    SwapLinked(w, c, pool, call);
    SwapCarriesScope(w, c, pool, call);
    var (w1, d) := Swap(w, c, pool, call);
    if d.Some? {
      FinishFields(w1, d.value, call);
    }
  }

  /** A handler that runs finds what Apache passed to the call in its context, swapped or not,
      next to what the context had that init_ctx gave for the call; HLL code is called for
      it unless only the header of a request was asked for. */
  lemma HandlerFinds(w: World, t: Registry.Table, call: Call)
    requires Linked(w) && Fits(w, t, call)
    ensures var (c, (w', o)) := (InitCtx(w, call.s, call.look, None, call.oks.0).1, MetaCall(w, t, call));
            o.Ran? ==> c.Some? && c.value < |w.ctxs| && o.ctx < |w'.ctxs|
                       && Finds(w'.ctxs[o.ctx].scope, w.ctxs[c.value].scope, call)
                       && (o.ctx < |w.ctxs| ==> w'.ctxs[o.ctx].scope.pool == w.ctxs[o.ctx].scope.pool)
                       && (o.called <==> !(call.kind.OnRequest? && call.kind.headerOnly))
  {
    hide InitCtx, MetaCall, Place, Denied;
    OutcomeIff(w, t, call);
    if MetaCall(w, t, call).1.Ran? {
      var c := InitCtx(w, call.s, call.look, None, call.oks.0).1.value;
      Arrives(w, t, call, c);
      InitCtxNotes(w, call.s, call.look, None, call.oks.0);
      InitCtxLeavesScopes(w, call.s, call.look, None, call.oks.0);
      PlaceFinds(Arrival(w, call, c), t, call, c, MetaCall(w, t, call).1.mod);
    }
  }

  lemma PlaceFinds(w: World, t: Registry.Table, call: Call, c: CtxId, m: nat)
    requires Linked(w) && Fits(w, t, call) && c < |w.ctxs| && m < |t.mods| && w.ctxs[c].scope.s == Some(call.s)
    ensures var (w', o) := Place(w, t, call, c, m);
            o.Ran? ==> o.ctx < |w'.ctxs| && Finds(w'.ctxs[o.ctx].scope, w.ctxs[c].scope, call)
                       && (o.ctx < |w.ctxs| ==> w'.ctxs[o.ctx].scope.pool == w.ctxs[o.ctx].scope.pool)
                       && (o.called <==> !(call.kind.OnRequest? && call.kind.headerOnly))
  {
    hide Hand, Startup;
    SelectPoolLinked(w, t, call, m);
    if Intended(w, t, call, m).None? {
      MissingSectionPool(w, t, call, m);
    } else {
      IntendedSelected(w, t, call, m);
    }
    match SelectPool(w, t, call, m)
    case SelectFault(w1) =>
    case Selected(w1, pool) =>
      assert forall d :: 0 <= d < |w.ctxs| ==> w1.ctxs[..|w.ctxs|][d] == w1.ctxs[d];
      assert forall d :: 0 <= d < |w.ctxs| ==> w1.ctxs[d] == w.ctxs[d];
      HandFinds(w1, c, pool, m, call);
  }
}
