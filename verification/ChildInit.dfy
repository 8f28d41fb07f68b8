/**
 The child_init phase binds nothing to an APR pool: every handler reserves a context of the
 server's pool afresh and releases it again, and the counter survives only because each
 reservation picks the same context.
*/
module ChildInit {
  import opened Options
  import opened Lifecycle
  import opened Reachable
  import opened Runs
  import opened Dispatch
  import opened Phases
  import opened Handling
  import Registry

  /** The next reservation from server s's pool picks c, whose counter stands at k. */
  predicate Ready(w: World, s: ServerId, c: CtxId, k: int)
    requires Linked(w) && s < |w.servers|
  {
    assert Within(w.servers[s].pool, |w.pools|);
    Pick(w, w.servers[s].pool) == Some(c) && w.ctxs[c].index == k
  }

  /** w' differs from w in context c, and in contexts that are not in pool p; c is free. */
  ghost predicate OnlyFreed(w: World, w': World, p: Option<PoolId>, c: CtxId) {
    && w'.threaded == w.threaded && w'.pools == w.pools && w'.servers == w.servers
    && |w'.ctxs| == |w.ctxs| && c < |w.ctxs| && !w'.ctxs[c].locked
    && forall x :: 0 <= x < |w.ctxs| && x != c && Some(w.ctxs[x].home) == p ==> w'.ctxs[x].locked == w.ctxs[x].locked
  }

  lemma ReadyAgain(w: World, w': World, s: ServerId, c: CtxId)
    requires Sound(w) && Linked(w') && s < |w.servers| && c < |w.ctxs| && Ready(w, s, c, w.ctxs[c].index)
    requires OnlyFreed(w, w', w.servers[s].pool, c)
    ensures Ready(w', s, c, w'.ctxs[c].index)
  {
    var p := w.servers[s].pool.value;
    assert PoolLinked(w, w.pools[p]);
    if w.threaded {
      forall d | d in w.pools[p].elts
        ensures w'.ctxs[d].locked == w.ctxs[d].locked
      {
        SitsAtHome(w, p, d);
      }
      PickAgain(w, w', p);
    }
  }

  /** The child_init setup handler rewinds the counter of the context the first call will find. */
  lemma SetupReady(w: World, s: ServerId, phase: AprId, ok: bool, c: CtxId)
    requires Sound(w) && s < |w.servers| && c < |w.ctxs| && Ready(w, s, c, w.ctxs[c].index)
    requires ok || w.ctxs[c].interp.Some?
    ensures var (w', d) := Setup(w, s, None, phase, ok);
            d == Some(c) && Sound(w') && s < |w'.servers| && Ready(w', s, c, -1)
  {
    AdoptSound(w, s, None, c, ok);
    AdoptShape(w, s, None, c, ok);
    assert Within(w.servers[s].pool, |w.pools|);
    var w1 := Adopt(w, s, None, c, ok).0;
    var x := w1.ctxs[c].(index := -1, scope := w1.ctxs[c].scope.(pool := Some(phase)), locked := false);
    SetCtxSound(w1, c, x);
    var w' := SetCtx(w1, c, x);
    var w2 := SetCtx(w1, c, x.(locked := true));
    assert Release(w2, c).ctxs == w'.ctxs;
    assert Setup(w, s, None, phase, ok) == (Release(w2, c), Some(c));
    ReadyAgain(w, w', s, c);
  }

  /** A child_init call on module default and server pools. */
  ghost predicate IsChildCall(w: World, t: Registry.Table, call: Call) {
    && Fits(w, t, call) && AprsAlive(w, call) && call.kind.OnChildInit? && call.look == None && call.section == map[]
    && w.servers[call.s].enabled && call.oks == (true, true, true)
  }

  /** The world in which the call selects its pool. */
  function Taken(w: World, s: ServerId, c: CtxId, k: int): World
    requires c < |w.ctxs|
  {
    var w1 := Adopt(w, s, None, c, true).0;
    SetCtx(w1, c, w1.ctxs[c].(index := k))
  }

  lemma TakenShape(w: World, s: ServerId, c: CtxId, k: int)
    requires Sound(w) && c < |w.ctxs| && s < |w.servers|
    ensures var w' := Taken(w, s, c, k);
            && Sound(w') && Grows(w, w') && w'.aprs == w.aprs && w'.pools == w.pools && w'.servers == w.servers
            && |w'.ctxs| == |w.ctxs| && w'.ctxs[c].index == k && w'.ctxs[c].home == w.ctxs[c].home
            && forall x :: 0 <= x < |w.ctxs| && x != c ==> w'.ctxs[x] == w.ctxs[x]
  {
    AdoptSound(w, s, None, c, true);
    AdoptShape(w, s, None, c, true);
    AdoptLinked(w, s, None, c, true);
    var w1 := Adopt(w, s, None, c, true).0;
    SetCtxSound(w1, c, w1.ctxs[c].(index := k));
  }

  lemma ChildServes(w: World, t: Registry.Table, call: Call, c: CtxId, k: int, m: nat)
    requires Sound(w) && IsChildCall(w, t, call) && Ready(w, call.s, c, k - 1)
    requires ModuleAt(t, call.hook, k) == Some(m)
    ensures var w' := Taken(w, call.s, c, k);
            Sound(w') && Fits(w', t, call) && MetaCall(w, t, call) == Place(w', t, call, c, m)
  {
    TakenShape(w, call.s, c, k);
    var w1 := Adopt(w, call.s, None, c, true).0;
    AdoptShape(w, call.s, None, c, true);
    AdoptLinked(w, call.s, None, c, true);
    assert InitCtx(w, call.s, None, None, true) == (w1, Some(c));
    FitsStill(w, w1, t, call);
    AdvanceLinked(w1, t, call.hook, c);
    FitsStill(w1, Advance(w1, t, call.hook, c), t, call);
    assert Advance(w1, t, call.hook, c) == Taken(w, call.s, c, k);
    assert Serve(w1, t, call, c) == Place(Taken(w, call.s, c, k), t, call, c, m);
  }

  /** A child_init swap and its end: both contexts are released, the carrier keeps its
      counter, and what else changes is outside the carrier's pool. */
  lemma HandFrees(w: World, c: CtxId, p: PoolId, m: nat, call: Call)
    requires Sound(w) && c < |w.ctxs| && call.s < |w.servers| && p < |w.pools| && LiveApr(w, Some(call.bind))
    requires call.kind.OnChildInit?
    ensures var (w', o) := Hand(w, c, Some(p), m, call);
            && (o.Fault? || (o.Ran? && o.mod == m))
            && (o.Ran? ==>
                  && OnlyFreed(w, w', Some(w.ctxs[c].home), c) && w'.ctxs[c].index == w.ctxs[c].index
                  && o.ctx < |w'.ctxs| && !w'.ctxs[o.ctx].locked
                  && (forall x :: 0 <= x < |w.ctxs| && x != c && x != o.ctx ==> w'.ctxs[x] == w.ctxs[x])
                  && CleanupsGrow(w, w'))
  {
    SwapFrees(w, c, p, call);
    SwapLinked(w, c, Some(p), call);
    var (w1, d) := Swap(w, c, Some(p), call);
    if d.Some? {
      FinishFields(w1, d.value, call);
      FinishFrees(w, w1, c, d.value, p, Finish(w1, d.value, call));
    }
  }

  /** The swap turned w into w1 and context c into d, of pool p. */
  ghost predicate Swapped(w: World, w1: World, c: CtxId, d: CtxId, p: PoolId) {
    && c < |w.ctxs| == |w1.ctxs| && d < |w.ctxs|
    && w1.threaded == w.threaded && w1.pools == w.pools && w1.servers == w.servers && CleanupsGrow(w, w1)
    && (forall x :: 0 <= x < |w.ctxs| && x != c && x != d ==> w1.ctxs[x] == w.ctxs[x])
    && w1.ctxs[d].home == w.ctxs[d].home == p
    && (d == c ==> w1 == w)
    && (d != c ==> w.ctxs[c].home != p && w1.ctxs[c] == w.ctxs[c].(locked := false))
  }

  lemma FinishFrees(w: World, w1: World, c: CtxId, d: CtxId, p: PoolId, w': World)
    requires Swapped(w, w1, c, d, p)
    requires d < |w'.ctxs| && w' == SetCtx(w1, d, w1.ctxs[d].(scope := w'.ctxs[d].scope, locked := false))
    ensures OnlyFreed(w, w', Some(w.ctxs[c].home), c) && CleanupsGrow(w, w')
    ensures w'.ctxs[c].index == w.ctxs[c].index && !w'.ctxs[d].locked
    ensures forall x :: 0 <= x < |w.ctxs| && x != c && x != d ==> w'.ctxs[x] == w.ctxs[x]
  {
  }

  predicate CleanupsGrow(w: World, w': World) {
    && |w.aprs| == |w'.aprs|
    && forall a :: 0 <= a < |w.aprs| ==>
         w'.aprs[a].live == w.aprs[a].live && w.aprs[a].cleanups <= w'.aprs[a].cleanups
  }

  lemma SwapFrees(w: World, c: CtxId, p: PoolId, call: Call)
    requires Sound(w) && c < |w.ctxs| && call.s < |w.servers| && p < |w.pools| && LiveApr(w, Some(call.bind))
    ensures var (w', d) := Swap(w, c, Some(p), call); d.Some? ==> Swapped(w, w', c, d.value, p)
  {
    CloneOthers(w, c, p, call.s, call.bind, call.oks.2);
    CloneFields(w, c, Some(p), call.s, call.bind, call.oks.2);
    CloneHome(w, c, p, call.s, call.bind, call.oks.2);
  }

  lemma CloneHome(w: World, c: CtxId, p: PoolId, s: ServerId, a: AprId, ok: bool)
    requires Sound(w) && c < |w.ctxs| && s < |w.servers| && p < |w.pools| && LiveApr(w, Some(a))
    ensures var (w', d) := CloneCtx(w, c, Some(p), s, a, ok);
            d.Some? ==> d.value < |w.ctxs| && w.ctxs[d.value].home == p
  {
    InitCtxHome(w, s, Some(a), Some(p), ok);
  }

  lemma CloneOthers(w: World, c: CtxId, p: PoolId, s: ServerId, a: AprId, ok: bool)
    requires Sound(w) && c < |w.ctxs| && s < |w.servers| && p < |w.pools| && LiveApr(w, Some(a))
    ensures var (w', d) := CloneCtx(w, c, Some(p), s, a, ok);
            && CleanupsGrow(w, w') && w'.threaded == w.threaded && w'.pools == w.pools && w'.servers == w.servers
            && |w'.ctxs| == |w.ctxs|
            && (d.Some? ==> forall x :: 0 <= x < |w.ctxs| && x != d.value ==> w'.ctxs[x] == w.ctxs[x])
  {
    InitCtxOthers(w, s, Some(a), Some(p), ok);
    InitCtxFrame(w, s, Some(a), Some(p), ok);
    InitCtxShape(w, s, Some(a), Some(p), ok);
    InitCtxCleanups(w, s, Some(a), Some(p), ok);
  }

  lemma InitCtxCleanups(w: World, s: ServerId, p: Option<AprId>, pool: Option<PoolId>, ok: bool)
    requires Linked(w) && s < |w.servers| && Within(p, |w.aprs|) && Within(pool, |w.pools|)
    ensures CleanupsGrow(w, InitCtx(w, s, p, pool, ok).0)
  {
    InitCtxAdopts(w, s, p, pool, ok);
    var got := Pick(w, Source(w, s, pool));
    if got.Some? {
      AdoptShape(w, s, p, got.value, ok);
    }
  }

  /** The call that would reserve a context with its counter at k - 1 runs module k of the
      list, and the next call will reserve the same context, with its counter at k. */
  lemma ChildCallPicksNext(w: World, t: Registry.Table, call: Call, c: CtxId, k: int, m: nat)
    requires Sound(w) && IsChildCall(w, t, call) && Ready(w, call.s, c, k - 1)
    requires ModuleAt(t, call.hook, k) == Some(m)
    ensures var (w', o) := MetaCall(w, t, call);
            && (o.Fault? || (o.Ran? && o.mod == m))
            && (o.Ran? ==> call.s < |w'.servers| && Linked(w') && Ready(w', call.s, c, k))
  {
    ChildServes(w, t, call, c, k, m);
    TakenShape(w, call.s, c, k);
    var w1 := Taken(w, call.s, c, k);
    IntendedSelected(w1, t, call, m);
    HandFrees(w1, c, Intended(w1, t, call, m).value, m, call);
    var (w', o) := MetaCall(w, t, call);
    if o.Ran? {
      assert Within(w.servers[call.s].pool, |w.pools|);
      SitsAtHome(w, w.servers[call.s].pool.value, c);
      ReadyAgain(w, w', call.s, c);
    }
  }

  /** It ends in a null access exactly when module k's pool is another one than the server's
      and init_ctx, with the carrier taken, is denied a context of it. */
  lemma ChildCallFaultsIff(w: World, t: Registry.Table, call: Call, c: CtxId, k: int, m: nat)
    requires Sound(w) && IsChildCall(w, t, call) && Ready(w, call.s, c, k - 1)
    requires ModuleAt(t, call.hook, k) == Some(m)
    ensures (TakenShape(w, call.s, c, k);
             var (pool, w1) := (Intended(w, t, call, m), Taken(w, call.s, c, k));
             && pool.Some? && pool.value < |w.pools|
             && (MetaCall(w, t, call).1.Fault?
                 <==> pool != w.servers[call.s].pool && Denied(w1, call.s, Some(call.bind), pool, true)))
  {
    hide Denied;
    ChildServes(w, t, call, c, k, m);
    TakenShape(w, call.s, c, k);
    SwapFaultsIff(Taken(w, call.s, c, k), t, call, c, m);
    assert Within(w.servers[call.s].pool, |w.pools|);
    SitsAtHome(w, w.servers[call.s].pool.value, c);
  }

  // ---------------------------------------------------------------- the whole phase

  /** Between two child_init calls anything may happen that leaves locks, counters, pools and
      servers alone; child processes are single-threaded while they start. */
  predicate ChildResumes(w: World, w': World) {
    && w'.threaded == w.threaded && w'.pools == w.pools && w'.servers == w.servers && |w'.ctxs| == |w.ctxs|
    && forall x :: 0 <= x < |w.ctxs| ==> w'.ctxs[x].locked == w.ctxs[x].locked && w'.ctxs[x].index == w.ctxs[x].index
  }

  ghost predicate IsChildTurn(t: Registry.Table, hook: nat, s: ServerId, x: Turn) {
    && Sound(x.before) && IsChildCall(x.before, t, x.call) && x.call.hook == hook && x.call.s == s
    && MetaCall(x.before, t, x.call) == (x.after, x.outcome)
  }

  ghost predicate IsChildPhase(w: World, t: Registry.Table, hook: nat, s: ServerId, turns: seq<Turn>) {
    && (forall i {:trigger IsChildTurn(t, hook, s, turns[i])} :: 0 <= i < |turns| ==> IsChildTurn(t, hook, s, turns[i]))
    && (forall i {:trigger Before(w, turns, i)} :: 0 <= i < |turns| ==>
          ChildResumes(Before(w, turns, i), turns[i].before))
    && (forall i :: 0 <= i < |turns| - 1 ==> !turns[i].outcome.Fault?)
  }

  /** Ready, in a world of its own. */
  ghost predicate ReadyAt(w: World, s: ServerId, c: CtxId, k: int) {
    Linked(w) && s < |w.servers| && Ready(w, s, c, k)
  }

  lemma ReadyResumes(w: World, t: Registry.Table, hook: nat, s: ServerId, x: Turn, c: CtxId, k: int)
    requires ReadyAt(w, s, c, k) && ChildResumes(w, x.before) && IsChildTurn(t, hook, s, x)
    ensures ReadyAt(x.before, s, c, k)
  {
    PickAgain(w, x.before, w.servers[s].pool.value);
  }

  lemma ChildTurnPicks(t: Registry.Table, hook: nat, s: ServerId, x: Turn, c: CtxId, k: int, list: seq<nat>)
    requires IsChildTurn(t, hook, s, x) && ReadyAt(x.before, s, c, k - 1)
    requires 0 <= k < |list| && hook < |t.index| && ModuleAt(t, hook, k) == Some(list[k])
    ensures Picked(list, x.outcome, k) && (!x.outcome.Fault? ==> ReadyAt(x.after, s, c, k))
  {
    ChildCallPicksNext(x.before, t, x.call, c, k, list[k]);
  }

  /** By induction over the calls: call k would reserve c, with its counter at k - 1. */
  lemma {:induction false} ChildCounterAt(w: World, t: Registry.Table, hook: nat, s: ServerId, turns: seq<Turn>, c: CtxId,
                                          list: seq<nat>, k: nat)
    requires hook < |t.index| && forall j :: 0 <= j < |list| ==> ModuleAt(t, hook, j) == Some(list[j])
    requires ReadyAt(w, s, c, -1)
    requires IsChildPhase(w, t, hook, s, turns) && k < |turns| <= |list|
    ensures IsChildTurn(t, hook, s, turns[k]) && ReadyAt(turns[k].before, s, c, k - 1)
  {
    hide IsChildTurn, ReadyAt, ChildResumes, ModuleAt;
    var b := Before(w, turns, k);
    assert IsChildTurn(t, hook, s, turns[k]) && ChildResumes(b, turns[k].before);
    if k > 0 {
      ChildCounterAt(w, t, hook, s, turns, c, list, k - 1);
      ChildTurnPicks(t, hook, s, turns[k - 1], c, k - 1, list);
    }
    ReadyResumes(b, t, hook, s, turns[k], c, k - 1);
  }

  /** The child_init phase runs, one after the other and in add order, the modules that
      asked for it, although no APR pool remembers the context the counter is in. */
  lemma ChildPhaseInOrder(adds: seq<Registry.AddCall>, w: World, s: ServerId, phase: AprId, ok: bool, c: CtxId,
                          turns: seq<Turn>)
    requires (Registry.EmptyTableOk(); Registry.AddAll(Registry.EmptyTable(), adds).Some?)
    requires Sound(w) && s < |w.servers| && c < |w.ctxs| && Ready(w, s, c, w.ctxs[c].index)
    requires ok || w.ctxs[c].interp.Some?
    requires (Registry.EmptyTableOk();
              var t := Registry.AddAll(Registry.EmptyTable(), adds).value;
              IsChildPhase(Setup(w, s, None, phase, ok).0, t, Registry.CHILD_INIT, s, turns)
              && |turns| <= Registry.Count(t.apache, Registry.CHILD_INIT))
    ensures (Registry.EmptyTableOk();
             var t := Registry.AddAll(Registry.EmptyTable(), adds).value;
             var asked := Registry.Asked(t.mods, Registry.CHILD_INIT);
             && |turns| <= |asked|
             && (forall i :: 0 <= i < |turns| ==> ModuleAt(t, Registry.CHILD_INIT, i) == Some(asked[i]))
             && (forall i :: 0 <= i < |turns| ==> Picked(asked, turns[i].outcome, i))
             && |asked| == |Registry.Asking(adds, Registry.CHILD_INIT)|
             && forall i :: 0 <= i < |turns| && turns[i].outcome.Ran? ==>
                  turns[i].outcome.mod < |t.mods|
                  && t.mods[turns[i].outcome.mod].name == Registry.Asking(adds, Registry.CHILD_INIT)[i])
  {
    Registry.EmptyTableOk();
    Registry.AskedAreAsking(adds, Registry.CHILD_INIT);
    var (t, hook) := (Registry.AddAll(Registry.EmptyTable(), adds).value, Registry.CHILD_INIT);
    assert Registry.IndexedFor(t, hook);
    ListedIsAsked(t, hook);
    SetupReady(w, s, phase, ok, c);
    var (w1, asked) := (Setup(w, s, None, phase, ok).0, Registry.Asked(t.mods, hook));
    forall i | 0 <= i < |turns|
      ensures Picked(asked, turns[i].outcome, i)
    {
      ChildCounterAt(w1, t, hook, s, turns, c, asked, i);
      ChildTurnPicks(t, hook, s, turns[i], c, i, asked);
    }
  }

  // ---------------------------------------------------------------- locks

  /** An enabled server leaves no lock behind after a child_init call. */
  lemma ChildCallNoLeak(w: World, t: Registry.Table, call: Call, c: CtxId, k: int, m: nat)
    requires Sound(w) && NoLeak(w) && IsChildCall(w, t, call) && Ready(w, call.s, c, k - 1)
    requires ModuleAt(t, call.hook, k) == Some(m)
    ensures var (w', o) := MetaCall(w, t, call); o.Ran? ==> NoLeak(w')
  {
    ChildServes(w, t, call, c, k, m);
    TakenShape(w, call.s, c, k);
    var w1 := Taken(w, call.s, c, k);
    IntendedSelected(w1, t, call, m);
    HandFrees(w1, c, Intended(w1, t, call, m).value, m, call);
    var (w', o) := MetaCall(w, t, call);
    if o.Ran? {
      forall x | 0 <= x < |w'.ctxs| && w'.ctxs[x].locked
        ensures Pending(w', x)
      {
        assert w'.ctxs[x] == w1.ctxs[x] == w.ctxs[x];
        PendingStays(w, w', x);
      }
    }
  }

  /** A disabled server returns from child_init without releasing what it reserved: the call
      leaks unless some APR pool happens to have a cleanup pending for that context. */
  lemma DisabledChildCallLeaksIff(w: World, t: Registry.Table, call: Call, c: CtxId)
    requires Sound(w) && NoLeak(w) && Fits(w, t, call) && call.kind.OnChildInit? && call.look == None
    requires !w.servers[call.s].enabled && c < |w.ctxs| && Ready(w, call.s, c, w.ctxs[c].index)
    requires call.oks.0 || w.ctxs[c].interp.Some?
    ensures MetaCall(w, t, call).1 == Declined
    ensures NoLeak(MetaCall(w, t, call).0) <==> Pending(w, c)
  {
    InitCtxLeaksIff(w, call.s, None, None, call.oks.0);
    AdoptShape(w, call.s, None, c, call.oks.0);
  }
}
