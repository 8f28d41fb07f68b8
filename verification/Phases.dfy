/**
 The counter-and-index scheme refines "call the modules that asked for this hook, in the
 order they were added": for whole phases, with contexts swapped from call to call.
*/
module Phases {
  import opened Options
  import opened Lifecycle
  import opened Dispatch
  import Registry

  // ---------------------------------------------------------------- what keeps the counter

  /** APR pool a is bound to context c, whose counter stands at k. */
  predicate Bound(w: World, a: AprId, c: CtxId, k: int) {
    a < |w.aprs| && c < |w.ctxs| && w.aprs[a].current == Some(c) && w.ctxs[c].index == k
  }

  /** No counter moves, no APR pool dies and none but p is rebound. */
  predicate CountersKept(w: World, w': World, p: Option<AprId>) {
    && |w.ctxs| <= |w'.ctxs| && |w.aprs| == |w'.aprs|
    && (forall c :: 0 <= c < |w.ctxs| ==> w'.ctxs[c].index == w.ctxs[c].index)
    && (forall a :: 0 <= a < |w.aprs| ==> w'.aprs[a].live == w.aprs[a].live)
    && (forall a :: 0 <= a < |w.aprs| && p != Some(a) ==> w'.aprs[a] == w.aprs[a])
  }

  lemma InitCtxCounters(w: World, s: ServerId, p: Option<AprId>, pool: Option<PoolId>, ok: bool)
    requires Linked(w) && s < |w.servers| && Within(p, |w.aprs|) && Within(pool, |w.pools|)
    ensures var (w', c) := InitCtx(w, s, p, pool, ok);
            && CountersKept(w, w', p) && |w'.ctxs| == |w.ctxs| && Within(c, |w.ctxs|)
            && (c.Some? && p.Some? ==> w'.aprs[p.value].current == c)
  {
    InitCtxAdopts(w, s, p, pool, ok);
    var got := Pick(w, Source(w, s, pool));
    if got.Some? {
      AdoptShape(w, s, p, got.value, ok);
    }
  }

  lemma StartupCounters(w: World, p: AprId, s: ServerId, name: Option<string>, ok: bool)
    requires Linked(w) && s < |w.servers| && p < |w.aprs|
    ensures CountersKept(w, Startup(w, p, s, name, ok).0, Some(p))
  {
    StartupPoolLinked(w, p, s, name);
    var (w1, pool) := StartupPool(w, p, s, name);
    InitCtxCounters(w1, s, Some(p), Some(pool), ok);
    StartupPoolShape(w, p, s, name);
  }

  lemma ReleaseCounters(w: World, w1: World, c: CtxId, p: Option<AprId>)
    requires CountersKept(w, w1, p) && c < |w1.ctxs|
    ensures CountersKept(w, Release(w1, c), p)
  {
  }

  lemma SelectPoolCounters(w: World, t: Registry.Table, call: Call, m: nat)
    requires Linked(w) && Fits(w, t, call) && m < |t.mods|
    ensures CountersKept(w, SelectPool(w, t, call, m).world, Some(call.pconf))
  {
    if m in call.section && call.section[m] !in w.names {
      var n := call.section[m];
      StartupLinked(w, call.pconf, call.s, Some(n), call.oks.1);
      StartupCounters(w, call.pconf, call.s, Some(n), call.oks.1);
      var (w1, c) := Startup(w, call.pconf, call.s, Some(n), call.oks.1);
      if c.Some? {
        ReleaseCounters(w, w1, c.value, Some(call.pconf));
      }
    }
  }

  /** A clone takes the counter along; the context it was cloned from keeps its own. */
  lemma CloneCounters(w: World, c: CtxId, pool: Option<PoolId>, s: ServerId, p: AprId, ok: bool)
    requires Linked(w) && c < |w.ctxs| && s < |w.servers| && p < |w.aprs| && Within(pool, |w.pools|)
    ensures var (w', d) := CloneCtx(w, c, pool, s, p, ok);
            && |w'.ctxs| == |w.ctxs| && |w'.aprs| == |w.aprs|
            && (forall a :: 0 <= a < |w.aprs| && a != p ==> w'.aprs[a] == w.aprs[a])
            && w'.ctxs[c].index == w.ctxs[c].index
            && (d.Some? ==>
                  && d.value < |w.ctxs| && w'.ctxs[d.value].index == w.ctxs[c].index
                  && (w'.aprs[p].current == d || (d == Some(c) && w' == w)))
  {
    InitCtxCounters(w, s, Some(p), pool, ok);
  }

  // ---------------------------------------------------------------- one call

  lemma SwapCarries(w: World, c: CtxId, pool: Option<PoolId>, call: Call, a: AprId, k: int)
    requires Linked(w) && c < |w.ctxs| && call.s < |w.servers| && call.bind < |w.aprs| && Within(pool, |w.pools|)
    requires Bound(w, a, c, k)
    ensures var (w', d) := Swap(w, c, pool, call);
            d.Some? ==> d.value < |w'.ctxs| && w'.ctxs[d.value].index == k
                        && Bound(w', a, if a == call.bind then d.value else c, k)
  {
    CloneCounters(w, c, pool, call.s, call.bind, call.oks.2);
  }

  lemma ConcludeCarries(w: World, d: Option<CtxId>, m: nat, call: Call, a: AprId, c: CtxId, k: int)
    requires Within(d, |w.ctxs|) && call.s < |w.servers| && w.servers[call.s].enabled
    requires d.Some? ==> w.ctxs[d.value].index == k && Bound(w, a, c, k)
    ensures var (w', o) := Conclude(w, d, m, call);
            && (o.Fault? || (o.Ran? && o.mod == m && d == Some(o.ctx)))
            && (o.Ran? ==> o.ctx < |w'.ctxs| && w'.ctxs[o.ctx].index == k && Bound(w', a, c, k))
  {
  }

  lemma SwapKeepsServers(w: World, c: CtxId, pool: Option<PoolId>, call: Call)
    requires Linked(w) && c < |w.ctxs| && call.s < |w.servers| && call.bind < |w.aprs| && Within(pool, |w.pools|)
    ensures Swap(w, c, pool, call).0.servers == w.servers
  {
    InitCtxFrame(w, call.s, Some(call.bind), pool, call.oks.2);
    CloneCtxLinked(w, c, pool, call.s, call.bind, call.oks.2);
  }

  /** Whichever way the swap goes, the context the next call will find carries counter k. */
  lemma HandCarries(w: World, c: CtxId, pool: Option<PoolId>, m: nat, call: Call, a: AprId, k: int)
    requires Linked(w) && c < |w.ctxs| && call.s < |w.servers| && call.bind < |w.aprs| && Within(pool, |w.pools|)
    requires Bound(w, a, c, k) && w.servers[call.s].enabled
    ensures var (w', o) := Hand(w, c, pool, m, call);
            && (o.Fault? || (o.Ran? && o.mod == m))
            && (o.Ran? ==> o.ctx < |w'.ctxs| && w'.ctxs[o.ctx].index == k
                           && Bound(w', a, if a == call.bind then o.ctx else c, k))
  {
    SwapLinked(w, c, pool, call);
    SwapKeepsServers(w, c, pool, call);
    SwapCarries(w, c, pool, call, a, k);
    var (w1, d) := Swap(w, c, pool, call);
    ConcludeCarries(w1, d, m, call, a, if a == call.bind && d.Some? then d.value else c, k);
  }

  lemma PlaceCarries(w: World, t: Registry.Table, call: Call, c: CtxId, m: nat, a: AprId, k: int)
    requires Linked(w) && Fits(w, t, call) && c < |w.ctxs| && m < |t.mods|
    requires Bound(w, a, c, k) && w.servers[call.s].enabled && a != call.pconf
    ensures var (w', o) := Place(w, t, call, c, m);
            && (o.Fault? || (o.Ran? && o.mod == m))
            && (o.Ran? ==> o.ctx < |w'.ctxs| && w'.ctxs[o.ctx].index == k
                           && Bound(w', a, if a == call.bind then o.ctx else c, k))
  {
    SelectPoolLinked(w, t, call, m);
    SelectPoolCounters(w, t, call, m);
    SelectPoolServers(w, t, call, m);
    match SelectPool(w, t, call, m)
    case SelectFault(w1) =>
    case Selected(w1, pool) => HandCarries(w1, c, pool, m, call, a, k);
  }

  lemma SelectPoolServers(w: World, t: Registry.Table, call: Call, m: nat)
    requires Linked(w) && Fits(w, t, call) && m < |t.mods|
    ensures var w' := SelectPool(w, t, call, m).world;
            |w'.servers| == |w.servers|
            && forall s :: 0 <= s < |w.servers| ==> w'.servers[s].enabled == w.servers[s].enabled
  {
    if m in call.section && call.section[m] !in w.names {
      var n := call.section[m];
      StartupLinked(w, call.pconf, call.s, Some(n), call.oks.1);
      StartupPoolLinked(w, call.pconf, call.s, Some(n));
      var (w1, pool) := StartupPool(w, call.pconf, call.s, Some(n));
      StartupPoolShape(w, call.pconf, call.s, Some(n));
      InitCtxFrame(w1, call.s, Some(call.pconf), Some(pool), call.oks.1);
    }
  }

  /** handler_modules[h] as a plain list. */
  function Listed(t: Registry.Table, hook: nat): seq<nat>
    requires hook < |t.index|
  {
    Registry.OrEmpty(t.index[hook])
  }

  lemma ListedIsAsked(t: Registry.Table, hook: nat)
    requires Registry.TableOk(t) && hook < Registry.HOOK_LAST
    ensures Listed(t, hook) == Registry.Asked(t.mods, hook)
    ensures forall k :: 0 <= k < |Listed(t, hook)| ==> ModuleAt(t, hook, k) == Some(Registry.Asked(t.mods, hook)[k])
  {
    assert Registry.IndexedFor(t, hook);
  }

  /** The world in which a call selects its pool: the carrier's server is noted and its
      counter advanced to k. */
  function Noted(w: World, c: CtxId, s: ServerId, k: int): World
    requires c < |w.ctxs|
  {
    SetCtx(w, c, w.ctxs[c].(scope := w.ctxs[c].scope.(s := Some(s)), index := k))
  }

  /** A call that finds carrier c, with its counter at k - 1, serves module k of the list. */
  lemma CallServes(w: World, t: Registry.Table, call: Call, a: AprId, c: CtxId, k: int, m: nat)
    requires Linked(w) && Fits(w, t, call)
    requires call.look == Some(a) && w.servers[call.s].enabled
    requires Bound(w, a, c, k - 1) && ModuleAt(t, call.hook, k) == Some(m)
    ensures var w' := Noted(w, c, call.s, k);
            Linked(w') && Grows(w, w') && Fits(w', t, call) && MetaCall(w, t, call) == Place(w', t, call, c, m)
  {
    var w1 := SetServer(w, c, call.s);
    assert AprLinked(w, w.aprs[a]);
    assert InitCtx(w, call.s, call.look, None, call.oks.0) == (w1, Some(c));
    InitCtxLinked(w, call.s, call.look, None, call.oks.0);
    FitsStill(w, w1, t, call);
    AdvanceLinked(w1, t, call.hook, c);
    var w2 := Advance(w1, t, call.hook, c);
    FitsStill(w1, w2, t, call);
    assert w2 == Noted(w, c, call.s, k);
    assert Serve(w1, t, call, c) == Place(w2, t, call, c, m);
  }

  /** The call that finds the counter at k - 1 reads handler_modules at k, and the read fails
      exactly when the list has no k-th entry.  Otherwise that module runs, or a null context
      is accessed; and k is left for the next call to find: in the same context, in a clone
      bound to another APR pool, or in a clone that took its place. */
  lemma CallPicksNext(w: World, t: Registry.Table, call: Call, a: AprId, c: CtxId, k: int)
    requires Linked(w) && Fits(w, t, call)
    requires call.look == Some(a) && a != call.pconf && w.servers[call.s].enabled
    requires Bound(w, a, c, k - 1)
    ensures var ((w', o), m) := (MetaCall(w, t, call), ModuleAt(t, call.hook, k));
            && (o.BadIndex? <==> m.None?)
            && (o.BadIndex? ==> Bound(w', a, c, if t.index[call.hook].None? then k - 1 else k))
            && (m.Some? ==> o.Fault? || (o.Ran? && o.mod == m.value))
            && (o.Ran? ==> o.ctx < |w'.ctxs| && w'.ctxs[o.ctx].index == k
                           && Bound(w', a, if a == call.bind then o.ctx else c, k))
  {
    hide Place;
    match ModuleAt(t, call.hook, k)
    case Some(m) =>
      CallServes(w, t, call, a, c, k, m);
      PlaceCarries(Noted(w, c, call.s, k), t, call, c, m, a, k);
    case None =>
      assert AprLinked(w, w.aprs[a]);
      assert InitCtx(w, call.s, call.look, None, call.oks.0) == (SetServer(w, c, call.s), Some(c));
  }

  // ---------------------------------------------------------------- whole phases

  datatype Turn = Turn(before: World, call: Call, after: World, outcome: Outcome)

  /** Between two calls of a phase anything may happen that leaves alone which context the
      connection is bound to and where its counter stands. */
  predicate Resumes(w: World, w': World, a: AprId) {
    && a < |w.aprs| && a < |w'.aprs| && w'.aprs[a].current == w.aprs[a].current
    && (w.aprs[a].current.Some? ==>
          var c := w.aprs[a].current.value;
          c < |w.ctxs| && c < |w'.ctxs| && w'.ctxs[c].index == w.ctxs[c].index)
  }

  /** One call for the hook, made by Apache on the connection bound to a. */
  ghost predicate IsTurn(t: Registry.Table, hook: nat, a: AprId, x: Turn) {
    && Linked(x.before) && Fits(x.before, t, x.call)
    && x.call.hook == hook && x.call.look == Some(a) && x.call.pconf != a
    && x.before.servers[x.call.s].enabled
    && MetaCall(x.before, t, x.call) == (x.after, x.outcome)
  }

  /** The world turn i resumes from. */
  function Before(w: World, turns: seq<Turn>, i: nat): World
    requires i <= |turns|
  {
    if i == 0 then w else turns[i - 1].after
  }

  /** The calls of a phase, one after the other; a fault is the last thing that happens. */
  ghost predicate IsPhase(w: World, t: Registry.Table, hook: nat, a: AprId, turns: seq<Turn>) {
    && (forall i {:trigger IsTurn(t, hook, a, turns[i])} :: 0 <= i < |turns| ==> IsTurn(t, hook, a, turns[i]))
    && (forall i {:trigger Before(w, turns, i)} :: 0 <= i < |turns| ==>
          Resumes(Before(w, turns, i), turns[i].before, a))
    && (forall i :: 0 <= i < |turns| - 1 ==> !turns[i].outcome.Fault?)
  }

  /** Outcome o came from the k-th module of the list, unless a null context was accessed. */
  predicate Picked(list: seq<nat>, o: Outcome, k: nat) {
    o.Fault? || (o.Ran? && k < |list| && o.mod == list[k])
  }

  lemma TurnPicks(t: Registry.Table, hook: nat, a: AprId, x: Turn, c: CtxId, k: nat, list: seq<nat>)
    returns (c': CtxId)
    requires IsTurn(t, hook, a, x) && Bound(x.before, a, c, k - 1)
    requires k < |list| && ModuleAt(t, hook, k) == Some(list[k])
    ensures Picked(list, x.outcome, k)
    ensures x.outcome.Ran? ==> Bound(x.after, a, c', k)
  {
    CallPicksNext(x.before, t, x.call, a, c, k);
    c' := if x.outcome.Ran? && a == x.call.bind then x.outcome.ctx else c;
  }

  /** By induction over the turns: turn k finds the counter at k - 1. */
  lemma {:induction false} CounterAt(w: World, t: Registry.Table, hook: nat, a: AprId, turns: seq<Turn>, c: CtxId,
                                     list: seq<nat>, k: nat) returns (ck: CtxId)
    requires hook < |t.index| && forall j :: 0 <= j < |list| ==> ModuleAt(t, hook, j) == Some(list[j])
    requires IsPhase(w, t, hook, a, turns) && Bound(w, a, c, -1)
    requires k < |turns| <= |list|
    ensures Bound(turns[k].before, a, ck, k - 1)
  {
    var b := Before(w, turns, k);
    if k == 0 {
      ck := c;
    } else {
      var c0 := CounterAt(w, t, hook, a, turns, c, list, k - 1);
      assert IsTurn(t, hook, a, turns[k - 1]);
      ck := TurnPicks(t, hook, a, turns[k - 1], c0, k - 1, list);
    }
    assert Resumes(b, turns[k].before, a);
  }

  /** The counter of the context a is bound to. */
  function Counter(w: World, a: AprId): Option<int> {
    if a < |w.aprs| && w.aprs[a].current.Some? && w.aprs[a].current.value < |w.ctxs|
    then Some(w.ctxs[w.aprs[a].current.value].index) else None
  }

  lemma PhasePicks(w: World, t: Registry.Table, hook: nat, a: AprId, turns: seq<Turn>, c: CtxId, list: seq<nat>)
    requires hook < |t.index| && forall j :: 0 <= j < |list| ==> ModuleAt(t, hook, j) == Some(list[j])
    requires IsPhase(w, t, hook, a, turns) && Bound(w, a, c, -1) && |turns| <= |list|
    ensures forall k :: 0 <= k < |turns| ==> Counter(turns[k].before, a) == Some(k - 1)
    ensures forall k :: 0 <= k < |turns| ==> Picked(list, turns[k].outcome, k)
  {
    forall k | 0 <= k < |turns|
      ensures Counter(turns[k].before, a) == Some(k - 1) && Picked(list, turns[k].outcome, k)
    {
      var ck := CounterAt(w, t, hook, a, turns, c, list, k);
      assert IsTurn(t, hook, a, turns[k]);
      var _ := TurnPicks(t, hook, a, turns[k], ck, k, list);
    }
  }

  /** What comes before the calls of a phase: the setup handler, which for open_logs is a
      startup.  a is the APR pool the meta handlers will look in. */
  function PhaseSetup(w: World, hook: nat, s: ServerId, a: AprId, phase: AprId, ok: bool): (World, Option<CtxId>)
    requires Linked(w) && s < |w.servers| && a < |w.aprs|
  {
    if hook == Registry.OPEN_LOGS then OpenLogsSetup(w, s, a, phase, ok) else Setup(w, s, Some(a), phase, ok)
  }

  lemma SetupBinds(w: World, hook: nat, s: ServerId, a: AprId, phase: AprId, ok: bool)
    requires Linked(w) && s < |w.servers| && a < |w.aprs|
    ensures var (w', c) := PhaseSetup(w, hook, s, a, phase, ok); c.Some? ==> Bound(w', a, c.value, -1)
  {
    if hook == Registry.OPEN_LOGS {
      StartupPoolLinked(w, a, s, None);
      var (w1, pool) := StartupPool(w, a, s, None);
      InitCtxCounters(w1, s, Some(a), Some(pool), ok);
    } else {
      InitCtxCounters(w, s, Some(a), None, ok);
    }
  }

  /** Dispatch refinement.  Take any registry built by modparrot_add_module calls and any
      APR pool.  After the setup handler, the i-th meta handler call for a hook finds the
      counter at i - 1, reads handler_modules in range, and runs the i-th module, in add
      order, that asked for the hook, for as many calls as Apache has registrations; asking
      is having the hook, or MP_HOOK_ALL in front, in the list of the first call with a name;
      swapping contexts from call to call does not disturb the order. */
  lemma DispatchInAddOrder(adds: seq<Registry.AddCall>, hook: nat, w: World, s: ServerId, a: AprId, phase: AprId,
                           ok: bool, turns: seq<Turn>)
    requires hook < Registry.HOOK_LAST && !Registry.IsFilter(hook)
    requires (Registry.EmptyTableOk(); Registry.AddAll(Registry.EmptyTable(), adds).Some?)
    requires Linked(w) && s < |w.servers| && a < |w.aprs|
    requires PhaseSetup(w, hook, s, a, phase, ok).1.Some?
    requires (Registry.EmptyTableOk();
              var t := Registry.AddAll(Registry.EmptyTable(), adds).value;
              IsPhase(PhaseSetup(w, hook, s, a, phase, ok).0, t, hook, a, turns)
              && |turns| <= Registry.Count(t.apache, hook))
    ensures (Registry.EmptyTableOk();
             var t := Registry.AddAll(Registry.EmptyTable(), adds).value;
             var asked := Registry.Asked(t.mods, hook);
             && |turns| <= |asked|
             && (forall i :: 0 <= i < |turns| ==> Counter(turns[i].before, a) == Some(i - 1))
             && (forall i :: 0 <= i < |turns| ==> ModuleAt(t, hook, i) == Some(asked[i]))
             && (forall i :: 0 <= i < |turns| ==> Picked(asked, turns[i].outcome, i))
             && |asked| == |Registry.Asking(adds, hook)|
             && forall i :: 0 <= i < |turns| && turns[i].outcome.Ran? ==>
                  turns[i].outcome.mod < |t.mods| && t.mods[turns[i].outcome.mod].name == Registry.Asking(adds, hook)[i])
  {
    Registry.EmptyTableOk();
    Registry.AskedAreAsking(adds, hook);
    var t := Registry.AddAll(Registry.EmptyTable(), adds).value;
    assert Registry.IndexedFor(t, hook);
    SetupBinds(w, hook, s, a, phase, ok);
    var (w1, c) := PhaseSetup(w, hook, s, a, phase, ok);
    ListedIsAsked(t, hook);
    PhasePicks(w1, t, hook, a, turns, c.value, Registry.Asked(t.mods, hook));
  }

  // ---------------------------------------------------------------- a phase inside a phase

  /** A setup handler that finds a context bound takes that one and rewinds it. */
  lemma SetupFinds(w: World, s: ServerId, a: AprId, phase: AprId, ok: bool, c: CtxId, k: int)
    requires Linked(w) && s < |w.servers| && Bound(w, a, c, k)
    ensures var x := w.ctxs[c];
            Setup(w, s, Some(a), phase, ok)
            == (SetCtx(w, c, x.(index := -1, scope := x.scope.(s := Some(s), pool := Some(phase)))), Some(c))
  {
    assert AprLinked(w, w.aprs[a]);
    var w1 := SetServer(w, c, s);
    assert InitCtx(w, s, Some(a), None, ok) == (w1, Some(c));
    assert Rewind(w1, c, phase).ctxs
        == w.ctxs[c := w.ctxs[c].(index := -1, scope := w.ctxs[c].scope.(s := Some(s), pool := Some(phase)))];
  }

  /** A subrequest runs its phases on the connection's own context.  Whatever the counter k
      of the outer phase was, after a nested phase of n calls it stands at n - 1: the outer
      phase goes on where it was if and only if the nested one made k + 1 calls. */
  lemma NestedPhaseShifts(w: World, t: Registry.Table, hook: nat, s: ServerId, a: AprId, phase: AprId, ok: bool,
                          turns: seq<Turn>, c: CtxId, k: int, list: seq<nat>)
    requires Linked(w) && s < |w.servers| && Bound(w, a, c, k)
    requires hook < |t.index| && forall j :: 0 <= j < |list| ==> ModuleAt(t, hook, j) == Some(list[j])
    requires IsPhase(Setup(w, s, Some(a), phase, ok).0, t, hook, a, turns) && |turns| <= |list|
    requires forall i :: 0 <= i < |turns| ==> !turns[i].outcome.Fault?
    ensures var w' := Before(Setup(w, s, Some(a), phase, ok).0, turns, |turns|);
            Counter(w', a) == Some(|turns| - 1) && (Counter(w', a) == Counter(w, a) <==> |turns| == k + 1)
  {
    var w1 := Setup(w, s, Some(a), phase, ok).0;
    SetupFinds(w, s, a, phase, ok, c, k);
    if turns != [] {
      var n := |turns| - 1;
      var cn := CounterAt(w1, t, hook, a, turns, c, list, n);
      assert IsTurn(t, hook, a, turns[n]);
      var _ := TurnPicks(t, hook, a, turns[n], cn, n, list);
    }
  }
}
