/**
 Connections side by side.  When does the setup handler of another connection disturb the
 module counter of this one, and what keeps every connection in add order no matter what
 the others do meanwhile: a context that is locked and that no other APR pool knows.
*/
module Interleaving {
  import opened Options
  import opened Lifecycle
  import opened Reachable
  import opened Runs
  import opened Dispatch
  import opened Phases
  import opened Handling
  import Registry

  // ---------------------------------------------------------------- one setup of another connection

  /** The setup handler looking in b ends up with context c: b is bound to it, or to none
      and it is the next one of the server's pool. */
  predicate Claims(w: World, s: ServerId, b: AprId, c: CtxId, ok: bool)
    requires Linked(w) && s < |w.servers| && b < |w.aprs| && c < |w.ctxs|
  {
    assert Within(w.servers[s].pool, |w.pools|);
    if w.aprs[b].current.Some? then w.aprs[b].current == Some(c)
    else Pick(w, w.servers[s].pool) == Some(c) && (ok || w.ctxs[c].interp.Some?)
  }

  lemma SetupClaims(w: World, s: ServerId, b: AprId, phase: AprId, ok: bool, c: CtxId)
    requires Linked(w) && s < |w.servers| && b < |w.aprs| && c < |w.ctxs|
    ensures Setup(w, s, Some(b), phase, ok).1 == Some(c) <==> Claims(w, s, b, c, ok)
  {
    assert Within(w.servers[s].pool, |w.pools|);
    InitCtxAdopts(w, s, Some(b), None, ok);
    var got := Pick(w, w.servers[s].pool);
    if got.Some? {
      AdoptShape(w, s, Some(b), got.value, ok);
    }
  }

  /** What a setup handler changes of counters and bindings. */
  lemma SetupShape(w: World, s: ServerId, look: Option<AprId>, phase: AprId, ok: bool)
    requires Linked(w) && s < |w.servers| && Within(look, |w.aprs|)
    ensures var (w', d) := Setup(w, s, look, phase, ok);
            && |w'.ctxs| == |w.ctxs| && |w'.aprs| == |w.aprs| && Within(d, |w.ctxs|)
            && (forall x :: 0 <= x < |w.ctxs| ==>
                  w'.ctxs[x].index == if d == Some(x) then -1 else w.ctxs[x].index)
            && (forall x :: 0 <= x < |w.aprs| && look != Some(x) ==> w'.aprs[x] == w.aprs[x])
  {
    InitCtxCounters(w, s, look, None, ok);
  }

  /** Another connection's setup handler leaves alone which context this connection is bound
      to and where its counter stands, unless it claims that very context while the counter
      is under way. */
  lemma SetupResumesIff(w: World, s: ServerId, b: AprId, phase: AprId, ok: bool, a: AprId, c: CtxId, k: int)
    requires Linked(w) && s < |w.servers| && b < |w.aprs| && b != a && Bound(w, a, c, k)
    ensures Resumes(w, Setup(w, s, Some(b), phase, ok).0, a) <==> k == -1 || !Claims(w, s, b, c, ok)
  {
    SetupClaims(w, s, b, phase, ok, c);
    SetupShape(w, s, Some(b), phase, ok);
  }

  /** What that does to a phase under way: the next call on a goes on with the next module if
      the setup did not claim its context, and with the first one if it did. */
  lemma OtherSetupDecides(w: World, t: Registry.Table, call: Call, s: ServerId, b: AprId, phase: AprId, ok: bool,
                          a: AprId, c: CtxId, k: int)
    requires Linked(w) && s < |w.servers| && b < |w.aprs| && b != a && Bound(w, a, c, k)
    requires Fits(w, t, call) && call.look == Some(a) && a != call.pconf
    requires w.servers[call.s].enabled
    ensures var w' := Setup(w, s, Some(b), phase, ok).0;
            && Linked(w') && Fits(w', t, call)
            && var (m, o) := (ModuleAt(t, call.hook, if Claims(w, s, b, c, ok) then 0 else k + 1), MetaCall(w', t, call).1);
               (o.BadIndex? <==> m.None?) && (m.Some? ==> o.Fault? || (o.Ran? && o.mod == m.value))
  {
    hide MetaCall;
    var w' := Setup(w, s, Some(b), phase, ok).0;
    SetupClaims(w, s, b, phase, ok, c);
    SetupShape(w, s, Some(b), phase, ok);
    SetupLinked(w, s, Some(b), phase, ok);
    InitCtxFrame(w, s, Some(b), None, ok);
    FitsStill(w, w', t, call);
    CallPicksNext(w', t, call, a, c, if Claims(w, s, b, c, ok) then 0 else k + 1);
  }

  // ---------------------------------------------------------------- a context of one's own

  /** No APR pool but a is bound to c or will release it. */
  ghost predicate OnlyKnownTo(w: World, a: AprId, c: CtxId) {
    forall x :: 0 <= x < |w.aprs| && x != a ==> w.aprs[x].current != Some(c) && c !in w.aprs[x].cleanups
  }

  /** In a threaded server a is bound to c, which is locked and which no other APR pool knows. */
  ghost predicate Owns(w: World, a: AprId, c: CtxId) {
    && w.threaded && a < |w.aprs| && c < |w.ctxs| && w.aprs[a].current == Some(c) && w.ctxs[c].locked
    && OnlyKnownTo(w, a, c)
  }

  /** a still owns c, and c is in its old pool with its old counter. */
  ghost predicate Spares(w: World, w': World, a: AprId, c: CtxId) {
    && Owns(w', a, c) && c < |w.ctxs|
    && w'.ctxs[c].index == w.ctxs[c].index && w'.ctxs[c].home == w.ctxs[c].home
  }

  lemma InitCtxSpares(w: World, s: ServerId, p: Option<AprId>, pool: Option<PoolId>, ok: bool, a: AprId, c: CtxId)
    requires Linked(w) && s < |w.servers| && Within(p, |w.aprs|) && Within(pool, |w.pools|)
    requires Owns(w, a, c) && p != Some(a)
    ensures var (w', d) := InitCtx(w, s, p, pool, ok); Spares(w, w', a, c) && d != Some(c)
  {
    InitCtxFrame(w, s, p, pool, ok);
    InitCtxAdopts(w, s, p, pool, ok);
    var got := Pick(w, Source(w, s, pool));
    if got.Some? {
      AdoptShape(w, s, p, got.value, ok);
    }
  }

  lemma StartupSpares(w: World, p: AprId, s: ServerId, name: Option<string>, ok: bool, a: AprId, c: CtxId)
    requires Linked(w) && s < |w.servers| && p < |w.aprs| && Owns(w, a, c) && p != a
    ensures var (w', d) := Startup(w, p, s, name, ok); Spares(w, w', a, c) && d != Some(c)
  {
    StartupPoolLinked(w, p, s, name);
    StartupPoolShape(w, p, s, name);
    var (w1, pool) := StartupPool(w, p, s, name);
    InitCtxSpares(w1, s, Some(p), Some(pool), ok, a, c);
  }

  lemma CloneSpares(w: World, cur: CtxId, pool: Option<PoolId>, s: ServerId, p: AprId, ok: bool, a: AprId, c: CtxId)
    requires Linked(w) && cur < |w.ctxs| && s < |w.servers| && p < |w.aprs| && Within(pool, |w.pools|)
    requires Owns(w, a, c) && p != a
    ensures var (w', d) := CloneCtx(w, cur, pool, s, p, ok); Spares(w, w', a, c) && (d == Some(c) ==> cur == c)
  {
    InitCtxSpares(w, s, Some(p), pool, ok, a, c);
    InitCtxShape(w, s, Some(p), pool, ok);
  }

  // ---------------------------------------------------------------- what other connections do

  lemma SelectPoolSpares(w: World, t: Registry.Table, call: Call, m: nat, a: AprId, c: CtxId)
    requires Linked(w) && Fits(w, t, call) && m < |t.mods| && Owns(w, a, c) && call.pconf != a
    ensures Spares(w, SelectPool(w, t, call, m).world, a, c)
  {
    if m in call.section && call.section[m] !in w.names {
      var n := call.section[m];
      StartupLinked(w, call.pconf, call.s, Some(n), call.oks.1);
      StartupSpares(w, call.pconf, call.s, Some(n), call.oks.1, a, c);
    }
  }

  lemma HandSpares(w: World, d: CtxId, pool: Option<PoolId>, m: nat, call: Call, a: AprId, c: CtxId)
    requires Linked(w) && d < |w.ctxs| && call.s < |w.servers| && call.bind < |w.aprs| && Within(pool, |w.pools|)
    requires Owns(w, a, c) && call.bind != a && d != c
    ensures Spares(w, Hand(w, d, pool, m, call).0, a, c)
  {
    hide CloneCtx;
    CloneSpares(w, d, pool, call.s, call.bind, call.oks.2, a, c);
    CloneCtxLinked(w, d, pool, call.s, call.bind, call.oks.2);
    SwapLinked(w, d, pool, call);
    var (w1, e) := Swap(w, d, pool, call);
    if e.Some? {
      FinishFields(w1, e.value, call);
    }
  }

  lemma PlaceSpares(w: World, t: Registry.Table, call: Call, d: CtxId, m: nat, a: AprId, c: CtxId)
    requires Linked(w) && Fits(w, t, call) && d < |w.ctxs| && m < |t.mods|
    requires Owns(w, a, c) && call.bind != a && call.pconf != a && d != c
    ensures Spares(w, Place(w, t, call, d, m).0, a, c)
  {
    hide Hand;
    SelectPoolSpares(w, t, call, m, a, c);
    SelectPoolLinked(w, t, call, m);
    match SelectPool(w, t, call, m)
    case SelectFault(w1) =>
    case Selected(w1, pool) => HandSpares(w1, d, pool, m, call, a, c);
  }

  lemma ServeSpares(w: World, t: Registry.Table, call: Call, d: CtxId, a: AprId, c: CtxId)
    requires Linked(w) && Fits(w, t, call) && d < |w.ctxs|
    requires Owns(w, a, c) && call.bind != a && call.pconf != a && d != c
    ensures Spares(w, Serve(w, t, call, d).0, a, c)
  {
    hide Place;
    AdvanceLinked(w, t, call.hook, d);
    var w1 := Advance(w, t, call.hook, d);
    FitsStill(w, w1, t, call);
    match ModuleAt(t, call.hook, w.ctxs[d].index + 1)
    case None =>
    case Some(m) => PlaceSpares(w1, t, call, d, m, a, c);
  }

  /** A meta handler call that looks elsewhere and binds and starts pools elsewhere, whatever
      context it uses, swaps to or faults on. */
  lemma CallSpares(w: World, t: Registry.Table, call: Call, a: AprId, c: CtxId)
    requires Linked(w) && Fits(w, t, call) && Owns(w, a, c)
    requires call.look != Some(a) && call.bind != a && call.pconf != a
    ensures Spares(w, MetaCall(w, t, call).0, a, c)
  {
    hide Serve;
    InitCtxSpares(w, call.s, call.look, None, call.oks.0, a, c);
    InitCtxLinked(w, call.s, call.look, None, call.oks.0);
    var (w1, d) := InitCtx(w, call.s, call.look, None, call.oks.0);
    FitsStill(w, w1, t, call);
    if d.Some? {
      ServeSpares(w1, t, call, d.value, a, c);
    }
  }

  lemma SetupSpares(w: World, s: ServerId, look: Option<AprId>, phase: AprId, ok: bool, a: AprId, c: CtxId)
    requires Linked(w) && s < |w.servers| && Within(look, |w.aprs|) && Owns(w, a, c) && look != Some(a)
    ensures Spares(w, Setup(w, s, look, phase, ok).0, a, c)
  {
    InitCtxSpares(w, s, look, None, ok, a, c);
    InitCtxLinked(w, s, look, None, ok);
  }

  /** Operations of the life cycle that stay away from APR pool a and context c. */
  predicate Elsewhere(op: Op, a: AprId, c: CtxId) {
    match op
    case DoStartup(p, _, _, _) => p != a
    case DoInit(_, p, _, _) => p != Some(a)
    case DoClone(_, _, _, p, _) => p != a
    case DoRelease(d) => d != c
    case DoTouch(d, _, _) => d != c
    case DoNewApr => true
    case DoDestroyApr(b) => b != a
    case DoCleanup(_, _) => false
  }

  lemma StepSpares(w: World, op: Op, a: AprId, c: CtxId)
    requires Linked(w) && Enabled(w, op) && Elsewhere(op, a, c) && Owns(w, a, c)
    ensures Spares(w, Step(w, op), a, c)
  {
    match op
    case DoStartup(p, s, name, ok) => StartupSpares(w, p, s, name, ok, a, c);
    case DoInit(s, p, pool, ok) => InitCtxSpares(w, s, p, pool, ok, a, c);
    case DoClone(cur, pool, s, p, ok) => CloneSpares(w, cur, pool, s, p, ok, a, c);
    case DoDestroyApr(b) => DestroyAprIs(w, b);
    case _ =>
  }

  // ---------------------------------------------------------------- what the connection does itself

  /** The call needs no swap: the module it is for uses the pool c is in. */
  predicate StaysHome(w: World, t: Registry.Table, call: Call, c: CtxId)
    requires call.hook < |t.index| && c < |w.ctxs|
  {
    var m := ModuleAt(t, call.hook, w.ctxs[c].index + 1);
    m.Some? ==> Intended(w, t, call, m.value) == Some(w.ctxs[c].home)
  }

  /** A call without a swap always runs its module, in c, and leaves c owned. */
  lemma OwnCall(w: World, t: Registry.Table, call: Call, a: AprId, c: CtxId, m: nat)
    requires Linked(w) && Fits(w, t, call) && Owns(w, a, c) && StaysHome(w, t, call, c)
    requires call.look == Some(a) && !call.kind.OnChildInit? && w.servers[call.s].enabled
    requires ModuleAt(t, call.hook, w.ctxs[c].index + 1) == Some(m)
    ensures var (w', o) := MetaCall(w, t, call);
            && o.Ran? && o.mod == m && o.ctx == c
            && Owns(w', a, c) && w'.ctxs[c].index == w.ctxs[c].index + 1 && w'.ctxs[c].home == w.ctxs[c].home
  {
    hide Serve;
    var k := w.ctxs[c].index + 1;
    CallServes(w, t, call, a, c, k, m);
    var w1 := Noted(w, c, call.s, k);
    IntendedSelected(w1, t, call, m);
    FinishFields(w1, c, call);
    assert Swap(w1, c, Some(w.ctxs[c].home), call) == (w1, Some(c));
  }

  /** A request call that runs leaves the connection its context if and only if it needed no
      swap. */
  lemma OwnershipKeptIff(w: World, t: Registry.Table, call: Call, a: AprId, c: CtxId, m: nat)
    requires Sound(w) && Fits(w, t, call) && AprsAlive(w, call) && Owns(w, a, c) && w.servers[call.s].enabled
    requires call.look == Some(a) && a != call.pconf && a != call.bind && call.kind.OnRequest?
    requires ModuleAt(t, call.hook, w.ctxs[c].index + 1) == Some(m) && Intended(w, t, call, m).Some?
    ensures var (w', o) := MetaCall(w, t, call);
            o.Ran? ==> (Owns(w', a, c) <==> StaysHome(w, t, call, c))
  {
    hide MetaCall;
    CarrierStaysReservedIff(w, t, call, a, c, w.ctxs[c].index + 1, m);
    if StaysHome(w, t, call, c) {
      OwnCall(w, t, call, a, c, m);
    }
  }

  lemma OwnSetup(w: World, s: ServerId, a: AprId, phase: AprId, ok: bool, c: CtxId)
    requires Linked(w) && s < |w.servers| && Owns(w, a, c)
    ensures var w' := Setup(w, s, Some(a), phase, ok).0;
            Owns(w', a, c) && w'.ctxs[c].index == -1 && w'.ctxs[c].home == w.ctxs[c].home
  {
    SetupFinds(w, s, a, phase, ok, c, w.ctxs[c].index);
  }

  /** A new connection owns the context its first setup handler reserves if and only if no
      other APR pool still knows that context. */
  lemma NewConnectionOwnsIff(w: World, s: ServerId, a: AprId, phase: AprId, ok: bool)
    requires Linked(w) && w.threaded && s < |w.servers| && a < |w.aprs| && w.aprs[a].current.None?
    ensures var (w', c) := Setup(w, s, Some(a), phase, ok);
            c.Some? ==> c.value < |w'.ctxs| && w'.ctxs[c.value].index == -1
                        && (Owns(w', a, c.value) <==> OnlyKnownTo(w, a, c.value))
  {
    SetupShape(w, s, Some(a), phase, ok);
    var (w', c) := Setup(w, s, Some(a), phase, ok);
    InitCtxFrame(w, s, Some(a), None, ok);
    InitCtxAdopts(w, s, Some(a), None, ok);
    assert Within(w.servers[s].pool, |w.pools|);
    var got := Pick(w, w.servers[s].pool);
    if got.Some? {
      AdoptShape(w, s, Some(a), got.value, ok);
    }
    if c.Some? {
      assert OnlyKnownTo(w', a, c.value) <==> OnlyKnownTo(w, a, c.value);
    }
  }

  // ---------------------------------------------------------------- any number of connections

  /** What happens in the process while the connection of a is open. */
  datatype Act =
    | OwnPhase(s: ServerId, phase: AprId, ok: bool) // a setup handler for a
    | OwnModule(call: Call) // a meta handler for a
    | OwnHandler(scope: Scope) // HLL code on a's context
    | OtherPhase(s: ServerId, look: Option<AprId>, phase: AprId, ok: bool)
    | OtherModule(call: Call)
    | Between(op: Op) // what Parrot, Apache and the start of the server do

  /** What each act needs: the connection's own calls need no swap; everything else uses
      other APR pools and leaves context c to the handlers it was given to. */
  ghost predicate Allowed(w: World, t: Registry.Table, a: AprId, c: CtxId, act: Act)
    requires Sound(w)
  {
    match act
    case OwnPhase(s, phase, ok) => s < |w.servers| && LiveApr(w, Some(a))
    case OwnModule(call) =>
      && Fits(w, t, call) && AprsAlive(w, call) && call.look == Some(a) && !call.kind.OnChildInit?
      && w.servers[call.s].enabled && c < |w.ctxs| && StaysHome(w, t, call, c)
    case OwnHandler(scope) => c < |w.ctxs|
    case OtherPhase(s, look, phase, ok) => s < |w.servers| && LiveApr(w, look) && look != Some(a)
    case OtherModule(call) =>
      && Fits(w, t, call) && AprsAlive(w, call)
      && call.look != Some(a) && call.bind != a && call.pconf != a
    case Between(op) => Enabled(w, op) && Elsewhere(op, a, c)
  }

  ghost function Perform(w: World, t: Registry.Table, a: AprId, c: CtxId, act: Act): (w': World)
    requires Sound(w) && Allowed(w, t, a, c, act)
    ensures Sound(w')
  {
    match act
    case OwnPhase(s, phase, ok) => SetupSound(w, s, Some(a), phase, ok); Setup(w, s, Some(a), phase, ok).0
    case OwnModule(call) => MetaCallKeeps(w, t, call); MetaCall(w, t, call).0
    case OwnHandler(scope) =>
      SetCtxSound(w, c, w.ctxs[c].(scope := scope));
      SetCtx(w, c, w.ctxs[c].(scope := scope))
    case OtherPhase(s, look, phase, ok) => SetupSound(w, s, look, phase, ok); Setup(w, s, look, phase, ok).0
    case OtherModule(call) => MetaCallKeeps(w, t, call); MetaCall(w, t, call).0
    case Between(op) => StepSound(w, op); Step(w, op)
  }

  ghost predicate IsTrace(w: World, t: Registry.Table, a: AprId, c: CtxId, acts: seq<Act>)
    requires Sound(w)
    decreases |acts|
  {
    acts == [] || (Allowed(w, t, a, c, acts[0]) && IsTrace(Perform(w, t, a, c, acts[0]), t, a, c, acts[1..]))
  }

  /** How the connection's own calls end. */
  ghost function Answers(w: World, t: Registry.Table, a: AprId, c: CtxId, acts: seq<Act>): seq<Outcome>
    requires Sound(w) && IsTrace(w, t, a, c, acts)
    decreases |acts|
  {
    if acts == [] then []
    else
      (if acts[0].OwnModule? then [MetaCall(w, t, acts[0].call).1] else [])
      + Answers(Perform(w, t, a, c, acts[0]), t, a, c, acts[1..])
  }

  /** Which modules they are for, from the connection's own acts alone: the j-th call after a
      setup handler is for the j-th module of its hook.  k calls were made before. */
  function Due(t: Registry.Table, acts: seq<Act>, k: nat): seq<Option<nat>>
    decreases |acts|
  {
    if acts == [] then []
    else
      match acts[0]
      case OwnPhase(_, _, _) => Due(t, acts[1..], 0)
      case OwnModule(call) =>
        [if call.hook < |t.index| then ModuleAt(t, call.hook, k) else None] + Due(t, acts[1..], k + 1)
      case _ => Due(t, acts[1..], k)
  }

  lemma OtherSpares(w: World, t: Registry.Table, a: AprId, c: CtxId, act: Act)
    requires Sound(w) && Allowed(w, t, a, c, act) && Owns(w, a, c) && !act.OwnPhase? && !act.OwnModule?
    ensures Spares(w, Perform(w, t, a, c, act), a, c)
  {
    match act
    case OwnHandler(_) =>
    case OtherPhase(s, look, phase, ok) => SetupSpares(w, s, look, phase, ok, a, c);
    case OtherModule(call) => CallSpares(w, t, call, a, c);
    case Between(op) => StepSpares(w, op, a, c);
  }

  /** a owns c, and k calls were made since the last setup handler. */
  ghost predicate Stands(w: World, a: AprId, c: CtxId, k: nat) {
    Owns(w, a, c) && w.ctxs[c].index == k - 1
  }

  function NextCount(act: Act, k: nat): nat {
    if act.OwnPhase? then 0 else if act.OwnModule? then k + 1 else k
  }

  lemma ActServes(w: World, t: Registry.Table, a: AprId, c: CtxId, act: Act, k: nat)
    requires Sound(w) && Allowed(w, t, a, c, act) && Stands(w, a, c, k)
    requires act.OwnModule? ==> act.call.hook < |t.index| && ModuleAt(t, act.call.hook, k).Some?
    ensures Stands(Perform(w, t, a, c, act), a, c, NextCount(act, k))
    ensures act.OwnModule? ==> By(MetaCall(w, t, act.call).1, ModuleAt(t, act.call.hook, k).value, c)
  {
    match act
    case OwnPhase(s, phase, ok) => OwnSetup(w, s, a, phase, ok, c);
    case OwnModule(call) => OwnCall(w, t, call, a, c, ModuleAt(t, call.hook, k).value);
    case _ => OtherSpares(w, t, a, c, act);
  }

  /** Each answer is that of a call that ran the module due, in context c. */
  predicate Matches(answers: seq<Outcome>, due: seq<Option<nat>>, c: CtxId) {
    |answers| == |due| && forall i :: 0 <= i < |due| ==> due[i].Some? && By(answers[i], due[i].value, c)
  }

  predicate AllDue(due: seq<Option<nat>>) {
    forall i :: 0 <= i < |due| ==> due[i].Some?
  }

  lemma AllDueTail(m: Option<nat>, rest: seq<Option<nat>>)
    requires AllDue([m] + rest)
    ensures m.Some? && AllDue(rest)
  {
    assert ([m] + rest)[0] == m && forall i :: 0 <= i < |rest| ==> ([m] + rest)[i + 1] == rest[i];
  }

  lemma MatchesNext(o: Outcome, answers: seq<Outcome>, m: Option<nat>, due: seq<Option<nat>>, c: CtxId)
    requires m.Some? && By(o, m.value, c) && Matches(answers, due, c)
    ensures Matches([o] + answers, [m] + due, c)
  {
  }

  /** A connection that owns its context, whose calls need no swap, is served in add order
      from its first call to its last, over any number of phases and hooks: no call faults,
      and which module each one runs depends on the connection's own acts alone, however
      many other connections set up, call, swap, fault, start pools or end in between. */
  lemma {:induction false} ServedInOrder(w: World, t: Registry.Table, a: AprId, c: CtxId, acts: seq<Act>, k: nat)
    requires Sound(w) && IsTrace(w, t, a, c, acts) && Stands(w, a, c, k) && AllDue(Due(t, acts, k))
    ensures Matches(Answers(w, t, a, c, acts), Due(t, acts, k), c)
    decreases |acts|
  {
    if acts != [] {
      hide Perform, Stands, Sound, MetaCall, Allowed, ModuleAt, AllDue, Matches;
      var act, j := acts[0], NextCount(acts[0], k);
      var w1 := Perform(w, t, a, c, act);
      if act.OwnModule? {
        var m := if act.call.hook < |t.index| then ModuleAt(t, act.call.hook, k) else None;
        AllDueTail(m, Due(t, acts[1..], j));
        ActServes(w, t, a, c, act, k);
        ServedInOrder(w1, t, a, c, acts[1..], j);
        MatchesNext(MetaCall(w, t, act.call).1, Answers(w1, t, a, c, acts[1..]), m, Due(t, acts[1..], j), c);
      } else {
        ActServes(w, t, a, c, act, k);
        assert Due(t, acts, k) == Due(t, acts[1..], j);
        ServedInOrder(w1, t, a, c, acts[1..], j);
        assert Answers(w, t, a, c, acts) == Answers(w1, t, a, c, acts[1..]);
      }
    }
  }

  /** The outcome of a call that ran module m in context c. */
  predicate By(o: Outcome, m: nat, c: CtxId) {
    o.Ran? && o.mod == m && o.ctx == c
  }

  /** The same, from the connection's first setup handler on and for a registry built by
      modparrot_add_module: no other APR pool may know the context it is given, and then
      call j of a phase runs the j-th module, in the order of those calls, that asked for the
      hook in the list its call passed. */
  lemma ConnectionServedInOrder(adds: seq<Registry.AddCall>, w: World, s: ServerId, a: AprId, phase: AprId, ok: bool,
                                acts: seq<Act>)
    requires (Registry.EmptyTableOk(); Registry.AddAll(Registry.EmptyTable(), adds).Some?)
    requires Sound(w) && w.threaded && s < |w.servers| && LiveApr(w, Some(a)) && w.aprs[a].current.None?
    requires var c := Setup(w, s, Some(a), phase, ok).1;
             c.Some? && OnlyKnownTo(w, a, c.value)
    requires (SetupSound(w, s, Some(a), phase, ok);
              Registry.EmptyTableOk();
              var t := Registry.AddAll(Registry.EmptyTable(), adds).value;
              var (w', c) := Setup(w, s, Some(a), phase, ok);
              IsTrace(w', t, a, c.value, acts))
    requires InRange(adds, acts, 0)
    ensures (SetupSound(w, s, Some(a), phase, ok);
             Registry.EmptyTableOk();
             var t := Registry.AddAll(Registry.EmptyTable(), adds).value;
             var (w', c) := Setup(w, s, Some(a), phase, ok);
             AllBy(t, Answers(w', t, a, c.value, acts), AskingInTurn(adds, acts, 0), c.value))
  {
    hide Setup, HomesOk, InterpsOk, NamesOk, Registry.TableOk, Matches, AllDue, AllBy;
    Registry.EmptyTableOk();
    SetupSound(w, s, Some(a), phase, ok);
    NewConnectionOwnsIff(w, s, a, phase, ok);
    var t := Registry.AddAll(Registry.EmptyTable(), adds).value;
    var (w', c) := Setup(w, s, Some(a), phase, ok);
    DueIsAsking(adds, t, acts, 0);
    ServedInOrder(w', t, a, c.value, acts, 0);
    MatchesNames(t, Answers(w', t, a, c.value, acts), Due(t, acts, 0), AskingInTurn(adds, acts, 0), c.value);
  }

  /** Answer i is that of a call that ran the module named so, in context c. */
  predicate AllBy(t: Registry.Table, answers: seq<Outcome>, names: seq<string>, c: CtxId) {
    && |answers| == |names|
    && forall i :: 0 <= i < |names| ==>
         answers[i].Ran? && answers[i].ctx == c && answers[i].mod < |t.mods| && t.mods[answers[i].mod].name == names[i]
  }

  /** The connection makes no more calls for a hook, after a setup handler, than there are
      modules that asked for it, one for each of Apache's registrations. */
  predicate InRange(adds: seq<Registry.AddCall>, acts: seq<Act>, k: nat)
    decreases |acts|
  {
    acts == [] ||
    match acts[0]
    case OwnPhase(_, _, _) => InRange(adds, acts[1..], 0)
    case OwnModule(call) =>
      call.hook < Registry.HOOK_LAST && k < |Registry.Asking(adds, call.hook)| && InRange(adds, acts[1..], k + 1)
    case _ => InRange(adds, acts[1..], k)
  }

  /** The names of the modules that the connection's calls are for. */
  function AskingInTurn(adds: seq<Registry.AddCall>, acts: seq<Act>, k: nat): seq<string>
    requires InRange(adds, acts, k)
    decreases |acts|
  {
    if acts == [] then []
    else
      match acts[0]
      case OwnPhase(_, _, _) => AskingInTurn(adds, acts[1..], 0)
      case OwnModule(call) => [Registry.Asking(adds, call.hook)[k]] + AskingInTurn(adds, acts[1..], k + 1)
      case _ => AskingInTurn(adds, acts[1..], k)
  }

  /** The modules due, by position and by name. */
  predicate DueNamed(t: Registry.Table, due: seq<Option<nat>>, names: seq<string>) {
    && |due| == |names|
    && forall i :: 0 <= i < |due| ==> due[i].Some? && due[i].value < |t.mods| && t.mods[due[i].value].name == names[i]
  }

  lemma DueNamedNext(t: Registry.Table, m: nat, due: seq<Option<nat>>, name: string, names: seq<string>)
    requires m < |t.mods| && t.mods[m].name == name && DueNamed(t, due, names)
    ensures DueNamed(t, [Some(m)] + due, [name] + names)
  {
  }

  lemma HookDue(adds: seq<Registry.AddCall>, t: Registry.Table, hook: nat, k: nat)
    requires (Registry.EmptyTableOk(); Registry.AddAll(Registry.EmptyTable(), adds) == Some(t))
    requires hook < Registry.HOOK_LAST && k < |Registry.Asking(adds, hook)|
    ensures hook < |t.index|
    ensures var m := ModuleAt(t, hook, k); m.Some? && m.value < |t.mods| && t.mods[m.value].name == Registry.Asking(adds, hook)[k]
  {
    Registry.EmptyTableOk();
    Registry.AskedAreAsking(adds, hook);
    ListedIsAsked(t, hook);
  }

  lemma {:induction false} DueIsAsking(adds: seq<Registry.AddCall>, t: Registry.Table, acts: seq<Act>, k: nat)
    requires (Registry.EmptyTableOk(); Registry.AddAll(Registry.EmptyTable(), adds) == Some(t)) && InRange(adds, acts, k)
    ensures DueNamed(t, Due(t, acts, k), AskingInTurn(adds, acts, k)) && AllDue(Due(t, acts, k))
    decreases |acts|
  {
    if acts != [] {
      hide DueNamed;
      match acts[0]
      case OwnPhase(_, _, _) => DueIsAsking(adds, t, acts[1..], 0);
      case OwnModule(call) =>
        HookDue(adds, t, call.hook, k);
        DueIsAsking(adds, t, acts[1..], k + 1);
        DueNamedNext(t, ModuleAt(t, call.hook, k).value, Due(t, acts[1..], k + 1),
                     Registry.Asking(adds, call.hook)[k], AskingInTurn(adds, acts[1..], k + 1));
      case _ => DueIsAsking(adds, t, acts[1..], k);
    }
  }

  lemma MatchesNames(t: Registry.Table, answers: seq<Outcome>, due: seq<Option<nat>>, names: seq<string>, c: CtxId)
    requires Matches(answers, due, c) && DueNamed(t, due, names)
    ensures AllBy(t, answers, names, c)
  {
  }
}
