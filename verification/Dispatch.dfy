/**
 Hook dispatch as pure operations.  All HLL modules share one C callback per hook; which
 module a call is for is recovered from the module_index of the context found through an
 APR pool, and from handler_modules.
*/
module Dispatch {
  import opened Options
  import opened Lifecycle
  import Registry

  /** What differs between the meta handlers. */
  datatype Kind =
    | OnRequest(r: nat, headerOnly: bool)
    | OnPreConnection(c: nat, csd: nat)
    | OnProcessConnection(c: nat)
    | OnPostConfig(pconf: AprId, plog: AprId, ptemp: AprId)
    | OnChildInit(pchild: AprId)
    | OnOpenLogs(pconf: AprId, plog: AprId, ptemp: AprId)

  /** One call of a meta handler.  `look` is the APR pool init_ctx looks for a context in,
      `bind` the one a clone is bound to; `section` and `server` are the pools configured
      for each module in the section and in the server; `oks` says which of the
      interpreters the call may have to start do start. */
  datatype Call = Call(
    kind: Kind, hook: nat, s: ServerId, look: Option<AprId>, bind: AprId, pconf: AprId,
    section: map<nat, string>, server: map<nat, PoolId>, oks: (bool, bool, bool))

  /** How a call ends.  BadIndex: NEXT_HANDLER_MODULE gives NULL or reads past an array.
      Fault: a null context is accessed, after a startup or a clone that failed. */
  datatype Outcome = ServerError | Declined | BadIndex | Fault | Ran(mod: nat, ctx: CtxId, called: bool)

  /** Every id in the call and in the registry means something in w. */
  ghost predicate Fits(w: World, t: Registry.Table, call: Call) {
    && call.hook < |t.index| && call.s < |w.servers|
    && Within(call.look, |w.aprs|) && call.bind < |w.aprs| && call.pconf < |w.aprs|
    && (forall m :: 0 <= m < |t.mods| ==> t.mods[m].pool < |w.pools|)
    && (forall m :: m in call.server ==> call.server[m] < |w.pools|)
  }

  /** NEXT_HANDLER_MODULE, once the counter has been advanced to k. */
  function ModuleAt(t: Registry.Table, hook: nat, k: int): Option<nat>
    requires hook < |t.index|
  {
    if t.index[hook].None? then None
    else
      var list := t.index[hook].value;
      if 0 <= k < |list| && list[k] < |t.mods| then Some(list[k]) else None
  }

  /** The increment in NEXT_HANDLER_MODULE happens only if the hook has an index at all. */
  function Advance(w: World, t: Registry.Table, hook: nat, c: CtxId): World
    requires hook < |t.index| && c < |w.ctxs|
  {
    if t.index[hook].None? then w else SetCtx(w, c, w.ctxs[c].(index := w.ctxs[c].index + 1))
  }

  datatype Selection = Selected(world: World, pool: Option<PoolId>) | SelectFault(world: World)

  /** release_ctx, if there is a context. */
  function Free(w: World, c: Option<CtxId>): World
    requires Within(c, |w.ctxs|)
  {
    if c.None? then w else Release(w, c.value)
  }

  /** The startup of a section pool nobody has made yet; its context is given back.  The
      second result says that there was none to give back. */
  function StartSection(w: World, pconf: AprId, s: ServerId, name: string, ok: bool): (World, bool)
    requires Linked(w) && pconf < |w.aprs| && s < |w.servers|
  {
    StartupLinked(w, pconf, s, Some(name), ok);
    var (w1, c) := Startup(w, pconf, s, Some(name), ok);
    (Free(w1, c), c.None?)
  }

  /** A section pool looked up by name.  One that does not exist yet is created, but the
      code then returns the NULL it looked up before. */
  function SectionPool(w: World, pconf: AprId, s: ServerId, name: string, ok: bool): Selection
    requires Linked(w) && pconf < |w.aprs| && s < |w.servers|
  {
    if name in w.names then Selected(w, Some(w.names[name]))
    else
      var (w1, fault) := StartSection(w, pconf, s, name, ok);
      if fault then SelectFault(w1) else Selected(w1, None)
  }

  /** select_ctx_pool for module m. */
  function SelectPool(w: World, t: Registry.Table, call: Call, m: nat): Selection
    requires Linked(w) && Fits(w, t, call) && m < |t.mods|
  {
    if m in call.section then SectionPool(w, call.pconf, call.s, call.section[m], call.oks.1)
    else if m in call.server then Selected(w, Some(call.server[m]))
    else Selected(w, Some(t.mods[m].pool))
  }

  lemma SelectPoolLinked(w: World, t: Registry.Table, call: Call, m: nat)
    requires Linked(w) && Fits(w, t, call) && m < |t.mods|
    ensures var sel := SelectPool(w, t, call, m);
            && Linked(sel.world) && Grows(w, sel.world)
            && (sel.Selected? ==> Within(sel.pool, |sel.world.pools|))
  {
    if m in call.section && call.section[m] !in w.names {
      var n := call.section[m];
      StartupLinked(w, call.pconf, call.s, Some(n), call.oks.1);
      var (w1, c) := Startup(w, call.pconf, call.s, Some(n), call.oks.1);
      if c.Some? {
        assert CtxLinked(w1, w1.ctxs[c.value]);
        SetCtxLinked(w1, c.value, w1.ctxs[c.value].(locked := false));
      }
    }
  }

  /** The fields a meta handler sets on the context it hands to the HLL. */
  function Stamp(x: Scope, call: Call): Scope {
    match call.kind
    case OnRequest(r, _) => x.(r := Some(r))
    case OnPreConnection(c, csd) => x.(c := Some(c), csd := Some(csd))
    case OnProcessConnection(c) => x.(c := Some(c))
    case OnPostConfig(pconf, plog, ptemp) =>
      x.(pconf := Some(pconf), plog := Some(plog), ptemp := Some(ptemp), s := Some(call.s))
    case OnChildInit(p) => x.(pchild := Some(p), s := Some(call.s))
    case OnOpenLogs(pconf, plog, ptemp) =>
      x.(pconf := Some(pconf), plog := Some(plog), ptemp := Some(ptemp), s := Some(call.s))
  }

  /** The context swap of a meta handler: clone into the selected pool, release the old one. */
  function Swap(w: World, c: CtxId, pool: Option<PoolId>, call: Call): (World, Option<CtxId>)
    requires Linked(w) && c < |w.ctxs| && call.s < |w.servers| && call.bind < |w.aprs| && Within(pool, |w.pools|)
  {
    CloneCtxLinked(w, c, pool, call.s, call.bind, call.oks.2);
    var (w1, d) := CloneCtx(w, c, pool, call.s, call.bind, call.oks.2);
    (Free(w1, if d == Some(c) then None else Some(c)), d)
  }

  /** The end of a meta handler on context d. */
  function Finish(w: World, d: CtxId, call: Call): World
    requires d < |w.ctxs|
  {
    var w1 := SetCtx(w, d, w.ctxs[d].(scope := Stamp(w.ctxs[d].scope, call)));
    if call.kind.OnChildInit? then Release(w1, d) else w1
  }

  /** The rest of a meta handler, on the context the swap left it with. */
  function Conclude(w: World, d: Option<CtxId>, m: nat, call: Call): (World, Outcome)
    requires Within(d, |w.ctxs|) && call.s < |w.servers|
  {
    if call.kind.OnOpenLogs? && !w.servers[call.s].enabled then (w, Declined)
    else if d.None? then (w, Fault)
    else (Finish(w, d.value, call), Ran(m, d.value, !(call.kind.OnRequest? && call.kind.headerOnly)))
  }

  /** A meta handler from the context swap on, for module m. */
  function Hand(w: World, c: CtxId, pool: Option<PoolId>, m: nat, call: Call): (r: (World, Outcome))
    requires Linked(w) && c < |w.ctxs| && call.s < |w.servers| && call.bind < |w.aprs| && Within(pool, |w.pools|)
    ensures Linked(r.0) && Grows(w, r.0)
  {
    SwapLinked(w, c, pool, call);
    var (w1, d) := Swap(w, c, pool, call);
    ConcludeLinked(w1, d, m, call);
    Conclude(w1, d, m, call)
  }

  /** A meta handler once the pool is selected. */
  function HandTo(sel: Selection, c: CtxId, m: nat, call: Call): (r: (World, Outcome))
    requires Linked(sel.world) && c < |sel.world.ctxs| && call.s < |sel.world.servers| && call.bind < |sel.world.aprs|
    requires sel.Selected? ==> Within(sel.pool, |sel.world.pools|)
    ensures Linked(r.0) && Grows(sel.world, r.0)
  {
    match sel
    case SelectFault(w1) => (w1, Fault)
    case Selected(w1, pool) => Hand(w1, c, pool, m, call)
  }

  /** A meta handler from the pool selection on. */
  function Place(w: World, t: Registry.Table, call: Call, c: CtxId, m: nat): (r: (World, Outcome))
    requires Linked(w) && Fits(w, t, call) && c < |w.ctxs| && m < |t.mods|
    ensures Linked(r.0) && Grows(w, r.0)
  {
    SelectPoolLinked(w, t, call, m);
    HandTo(SelectPool(w, t, call, m), c, m, call)
  }

  /** A meta handler once NEXT_HANDLER_MODULE is evaluated. */
  function Proceed(w: World, t: Registry.Table, call: Call, c: CtxId, m: Option<nat>): (r: (World, Outcome))
    requires Linked(w) && Fits(w, t, call) && c < |w.ctxs| && Within(m, |t.mods|)
    ensures Linked(r.0) && Grows(w, r.0)
  {
    if m.None? then (w, BadIndex) else Place(w, t, call, c, m.value)
  }

  /** Everything a meta handler does after init_ctx gave it context c. */
  function Serve(w: World, t: Registry.Table, call: Call, c: CtxId): (r: (World, Outcome))
    requires Linked(w) && Fits(w, t, call) && c < |w.ctxs|
    ensures Linked(r.0) && Grows(w, r.0)
  {
    AdvanceLinked(w, t, call.hook, c);
    var w1 := Advance(w, t, call.hook, c);
    FitsStill(w, w1, t, call);
    Proceed(w1, t, call, c, ModuleAt(t, call.hook, w.ctxs[c].index + 1))
  }

  /** The enabled check (open_logs makes it later), and the rest of a meta handler. */
  function Admit(w: World, t: Registry.Table, call: Call, c: Option<CtxId>): (r: (World, Outcome))
    requires Linked(w) && Fits(w, t, call) && Within(c, |w.ctxs|)
    ensures Linked(r.0) && Grows(w, r.0)
  {
    if c.None? then (w, ServerError)
    else if !call.kind.OnOpenLogs? && !w.servers[call.s].enabled then (w, Declined)
    else Serve(w, t, call, c.value)
  }

  /** A meta handler. */
  function MetaCall(w: World, t: Registry.Table, call: Call): (r: (World, Outcome))
    requires Linked(w) && Fits(w, t, call)
    ensures Linked(r.0) && Grows(w, r.0)
  {
    InitCtxLinked(w, call.s, call.look, None, call.oks.0);
    var (w1, c) := InitCtx(w, call.s, call.look, None, call.oks.0);
    FitsStill(w, w1, t, call);
    Admit(w1, t, call, c)
  }

  function Rewind(w: World, c: CtxId, phase: AprId): World
    requires c < |w.ctxs|
  {
    var x := w.ctxs[c];
    SetCtx(w, c, x.(index := -1, scope := x.scope.(pool := Some(phase))))
  }

  /** The first handler of a phase: find the context, rewind its counter, note the pool.
      Only child_init looks in no APR pool and releases the context. */
  function Setup(w: World, s: ServerId, look: Option<AprId>, phase: AprId, ok: bool): (World, Option<CtxId>)
    requires Linked(w) && s < |w.servers| && Within(look, |w.aprs|)
  {
    InitCtxLinked(w, s, look, None, ok);
    var (w1, c) := InitCtx(w, s, look, None, ok);
    if c.None? then (w1, None)
    else
      var w2 := Rewind(w1, c.value, phase);
      (if look.None? then Release(w2, c.value) else w2, c)
  }

  /** The first handler of open_logs on an enabled main server: modparrot_startup with
      ptemp takes the place of init_ctx. */
  function OpenLogsSetup(w: World, s: ServerId, ptemp: AprId, pconf: AprId, ok: bool): (World, Option<CtxId>)
    requires Linked(w) && s < |w.servers| && ptemp < |w.aprs|
  {
    StartupLinked(w, ptemp, s, None, ok);
    var (w1, c) := Startup(w, ptemp, s, None, ok);
    if c.None? then (w1, None)
    else
      var x := w1.ctxs[c.value];
      var w2 := SetCtx(w1, c.value, x.(scope := x.scope.(pconf := Some(pconf))));
      (Rewind(w2, c.value, pconf), c)
  }

  // ---------------------------------------------------------------- links are kept

  lemma FitsStill(w: World, w': World, t: Registry.Table, call: Call)
    requires Fits(w, t, call) && Grows(w, w')
    ensures Fits(w', t, call)
  {
  }

  lemma SetupLinked(w: World, s: ServerId, look: Option<AprId>, phase: AprId, ok: bool)
    requires Linked(w) && s < |w.servers| && Within(look, |w.aprs|)
    ensures Linked(Setup(w, s, look, phase, ok).0) && Grows(w, Setup(w, s, look, phase, ok).0)
  {
    InitCtxLinked(w, s, look, None, ok);
    var (w1, c) := InitCtx(w, s, look, None, ok);
    if c.Some? {
      var x := w1.ctxs[c.value].(index := -1, scope := w1.ctxs[c.value].scope.(pool := Some(phase)));
      assert CtxLinked(w1, w1.ctxs[c.value]);
      SetCtxLinked(w1, c.value, x);
      assert CtxLinked(SetCtx(w1, c.value, x), x.(locked := false));
      SetCtxLinked(SetCtx(w1, c.value, x), c.value, x.(locked := false));
    }
  }

  lemma AdvanceLinked(w: World, t: Registry.Table, hook: nat, c: CtxId)
    requires Linked(w) && hook < |t.index| && c < |w.ctxs|
    ensures Linked(Advance(w, t, hook, c)) && Grows(w, Advance(w, t, hook, c))
  {
    assert CtxLinked(w, w.ctxs[c]);
    SetCtxLinked(w, c, w.ctxs[c].(index := w.ctxs[c].index + 1));
  }

  lemma SwapLinked(w: World, c: CtxId, pool: Option<PoolId>, call: Call)
    requires Linked(w) && c < |w.ctxs| && call.s < |w.servers| && call.bind < |w.aprs| && Within(pool, |w.pools|)
    ensures var (w', d) := Swap(w, c, pool, call); Linked(w') && Grows(w, w') && Within(d, |w'.ctxs|)
  {
    CloneCtxLinked(w, c, pool, call.s, call.bind, call.oks.2);
    var (w1, d) := CloneCtx(w, c, pool, call.s, call.bind, call.oks.2);
    assert CtxLinked(w1, w1.ctxs[c]);
    SetCtxLinked(w1, c, w1.ctxs[c].(locked := false));
  }

  lemma ConcludeLinked(w: World, d: Option<CtxId>, m: nat, call: Call)
    requires Linked(w) && Within(d, |w.ctxs|) && call.s < |w.servers|
    ensures Linked(Conclude(w, d, m, call).0) && Grows(w, Conclude(w, d, m, call).0)
  {
    if d.Some? {
      FinishLinked(w, d.value, call);
    }
  }

  lemma FinishLinked(w: World, d: CtxId, call: Call)
    requires Linked(w) && d < |w.ctxs|
    ensures Linked(Finish(w, d, call)) && Grows(w, Finish(w, d, call))
  {
    assert CtxLinked(w, w.ctxs[d]);
    SetCtxLinked(w, d, w.ctxs[d].(scope := Stamp(w.ctxs[d].scope, call)));
    var w1 := SetCtx(w, d, w.ctxs[d].(scope := Stamp(w.ctxs[d].scope, call)));
    assert CtxLinked(w1, w1.ctxs[d]);
    SetCtxLinked(w1, d, w1.ctxs[d].(locked := false));
  }
}
