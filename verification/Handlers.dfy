/**
 The phase handlers and meta handlers of mod_parrot.c on objects, in the heap of Contexts.
 Each method computes the Dispatch function of its part on the World the objects make up.
*/
module Handlers {
  import opened Options
  import opened Contexts
  import Life = Lifecycle
  import Dispatch
  import Registry

  /** What Apache passes to a meta handler; requests and connections are opaque handles. */
  datatype Kind =
    | OnRequest(r: nat, headerOnly: bool)
    | OnPreConnection(c: nat, csd: nat)
    | OnProcessConnection(c: nat)
    | OnPostConfig(pconf: AprPool, plog: AprPool, ptemp: AprPool)
    | OnChildInit(pchild: AprPool)
    | OnOpenLogs(pconf: AprPool, plog: AprPool, ptemp: AprPool)

  /** One call of a meta handler, as Dispatch.Call but with the objects themselves. */
  datatype Event = Event(
    kind: Kind, hook: nat, s: ServerRec, look: AprPool?, bind: AprPool, pconf: AprPool,
    section: map<nat, string>, server: map<nat, CtxPool>, oks: (bool, bool, bool))

  ghost function KindVal(k: Kind): Dispatch.Kind {
    match k
    case OnRequest(r, headerOnly) => Dispatch.OnRequest(r, headerOnly)
    case OnPreConnection(c, csd) => Dispatch.OnPreConnection(c, csd)
    case OnProcessConnection(c) => Dispatch.OnProcessConnection(c)
    case OnPostConfig(pconf, plog, ptemp) => Dispatch.OnPostConfig(pconf.id, plog.id, ptemp.id)
    case OnChildInit(p) => Dispatch.OnChildInit(p.id)
    case OnOpenLogs(pconf, plog, ptemp) => Dispatch.OnOpenLogs(pconf.id, plog.id, ptemp.id)
  }

  ghost function ServerPools(server: map<nat, CtxPool>): map<nat, nat> {
    map m | m in server :: server[m].id
  }

  ghost function CallVal(e: Event): Dispatch.Call {
    Dispatch.Call(KindVal(e.kind), e.hook, e.s.id, AprId(e.look), e.bind.id, e.pconf.id,
                  e.section, ServerPools(e.server), e.oks)
  }

  /** What select_ctx_pool returns, if it returns. */
  datatype Picked = Pool(pool: CtxPool?) | Fault

  ghost function PickedVal(p: Picked, w: Life.World): Dispatch.Selection {
    match p
    case Pool(pool) => Dispatch.Selected(w, PoolId(pool))
    case Fault => Dispatch.SelectFault(w)
  }

  /** How a meta handler ends, as Dispatch.Outcome. */
  datatype Outcome = ServerError | Declined | OutOfRange | Faulted | Ran(mod: nat, ctx: Context, called: bool)

  ghost function OutcomeVal(o: Outcome): Dispatch.Outcome {
    match o
    case ServerError => Dispatch.ServerError
    case Declined => Dispatch.Declined
    case OutOfRange => Dispatch.BadIndex
    case Faulted => Dispatch.Fault
    case Ran(m, ctx, called) => Dispatch.Ran(m, ctx.id, called)
  }

  class Handlers {
    const g: ModParrot
    const table: Registry.Table // module_array and handler_modules
    const modulePools: seq<CtxPool> // the ctx_pool of each module's info record

    constructor (g: ModParrot, table: Registry.Table, modulePools: seq<CtxPool>)
      ensures this.g == g && this.table == table && this.modulePools == modulePools
    {
      this.g, this.table, this.modulePools := g, table, modulePools;
    }

    ghost predicate Valid()
      reads g, g.ctxs, g.pools, g.interps, g.aprs, g.servers
    {
      && g.Valid() && |modulePools| == |table.mods|
      && forall m :: 0 <= m < |modulePools| ==> g.HasPool(modulePools[m]) && modulePools[m].id == table.mods[m].pool
    }

    ghost predicate Knows(e: Event)
      reads g
    {
      && e.hook < |table.index| && g.HasServer(e.s) && (e.look != null ==> g.HasApr(e.look))
      && g.HasApr(e.bind) && g.HasApr(e.pconf) && forall m :: m in e.server ==> g.HasPool(e.server[m])
    }

    lemma KnownFits(e: Event)
      requires Valid() && Knows(e)
      ensures Life.Linked(g.view) && Dispatch.Fits(g.view, table, CallVal(e))
    {
      g.ValidLinked();
    }

    // ---------------------------------------------------------------- first handlers of a phase

    method Rewind(ctx: Context, phase: AprPool)
      requires g.Valid() && g.HasCtx(ctx)
      modifies g`view, ctx
      ensures g.Valid() && g.view == Dispatch.Rewind(old(g.view), ctx.id, phase.id)
    {
      assert g.CtxIs(ctx, g.view.ctxs[ctx.id]);
      ctx.moduleIndex := -1;
      ctx.pool := phase;
      g.view := Life.SetCtx(g.view, ctx.id, ctx.Val());
      g.CtxTied(ctx);
    }

    /** The rest of a phase's first handler.  Only child_init looks in no APR pool and
        releases the context. */
    method Settle(ctx: Context, look: AprPool?, phase: AprPool)
      requires g.Valid() && g.HasCtx(ctx)
      modifies g`view, ctx
      ensures g.Valid()
      ensures var w := Dispatch.Rewind(old(g.view), ctx.id, phase.id);
              g.view == if look == null then Life.Release(w, ctx.id) else w
    {
      Rewind(ctx, phase);
      if look == null {
        g.ReleaseCtx(ctx);
      }
    }

    /** The first handler of a phase (request, pre_connection, process_connection,
        post_config, child_init): find the context, rewind its counter, note the pool. */
    method Setup(s: ServerRec, look: AprPool?, phase: AprPool, ok: bool) returns (ctx: Context?)
      requires g.Valid() && g.HasServer(s) && (look != null ==> g.HasApr(look))
      modifies g`interps, g`view, g.ctxs, look
      ensures g.Valid() && g.Extends()
      ensures (g.view, CtxId(ctx)) == Dispatch.Setup(old(g.View()), s.id, AprId(look), phase.id, ok)
    {
      ctx := g.InitCtx(s, look, null, ok);
      if ctx == null {
        return;
      }
      assert ctx in g.ctxs;
      Settle(ctx, look, phase);
    }

    method NotePconf(ctx: Context, pconf: AprPool)
      requires g.Valid() && g.HasCtx(ctx)
      modifies g`view, ctx`pconf
      ensures g.Valid()
      ensures var x := old(g.view).ctxs[ctx.id];
              g.view == Life.SetCtx(old(g.view), ctx.id, x.(scope := x.scope.(pconf := Some(pconf.id))))
    {
      assert g.CtxIs(ctx, g.view.ctxs[ctx.id]);
      ctx.pconf := pconf;
      g.view := Life.SetCtx(g.view, ctx.id, ctx.Val());
      g.CtxTied(ctx);
    }

    /** The first handler of open_logs on an enabled main server, up to where it loads files. */
    method OpenLogsSetup(s: ServerRec, ptemp: AprPool, pconf: AprPool, ok: bool) returns (ctx: Context?)
      requires g.Valid() && g.HasServer(s) && g.HasApr(ptemp)
      modifies g, g.ctxs, ptemp, s
      ensures g.Valid() && g.Extends()
      ensures (g.view, CtxId(ctx)) == Dispatch.OpenLogsSetup(old(g.View()), s.id, ptemp.id, pconf.id, ok)
    {
      hide Life.Startup, Dispatch.Rewind;
      ctx := g.Startup(ptemp, s, None, ok);
      if ctx == null {
        return;
      }
      assert ctx in g.ctxs;
      NotePconf(ctx, pconf);
      Rewind(ctx, pconf);
    }

    // ---------------------------------------------------------------- meta handlers

    /** NEXT_HANDLER_MODULE; None where the C code reads a null or foreign pointer. */
    method NextHandlerModule(ctx: Context, hook: nat) returns (m: Option<nat>)
      requires g.Valid() && g.HasCtx(ctx) && hook < |table.index|
      modifies ctx`moduleIndex, g`view
      ensures g.Valid() && g.view == Dispatch.Advance(old(g.view), table, hook, ctx.id)
      ensures m == Dispatch.ModuleAt(table, hook, old(g.view).ctxs[ctx.id].index + 1)
    {
      if table.index[hook].None? {
        return None;
      }
      assert g.CtxIs(ctx, g.view.ctxs[ctx.id]);
      var list := table.index[hook].value;
      ctx.moduleIndex := ctx.moduleIndex + 1;
      g.view := Life.SetCtx(g.view, ctx.id, ctx.Val());
      g.CtxTied(ctx);
      var k := ctx.moduleIndex;
      m := if 0 <= k < |list| && list[k] < |table.mods| then Some(list[k]) else None;
    }

    method Free(ctx: Context?)
      requires g.Valid() && (ctx != null ==> g.HasCtx(ctx))
      modifies g`view, ctx
      ensures g.Valid() && g.view == Dispatch.Free(old(g.view), CtxId(ctx))
    {
      if ctx != null {
        g.ReleaseCtx(ctx);
      }
    }

    /** The startup of a section pool nobody has made yet; its context is given back. */
    method StartSection(e: Event, name: string) returns (fault: bool)
      requires Valid() && Knows(e)
      modifies g, g.ctxs, e.pconf, e.s
      ensures g.Valid() && g.Extends()
      ensures (g.view, fault) == Dispatch.StartSection(old(g.View()), e.pconf.id, e.s.id, name, e.oks.1)
    {
      hide Life.Startup;
      ghost var w := g.View();
      var ctx := g.Startup(e.pconf, e.s, Some(name), e.oks.1);
      assert ctx != null ==> ctx in g.ctxs;
      Free(ctx);
      fault := ctx == null;
    }

    /** A section pool looked up by name; when there is none it is created, but the NULL of
        the lookup is what the C function returns. */
    method SectionPool(e: Event, name: string) returns (picked: Picked)
      requires Valid() && Knows(e)
      modifies g, g.ctxs, e.pconf, e.s
      ensures g.Valid() && g.Extends() && (picked.Pool? && picked.pool != null ==> g.HasPool(picked.pool))
      ensures PickedVal(picked, g.view) == Dispatch.SectionPool(old(g.View()), e.pconf.id, e.s.id, name, e.oks.1)
    {
      var pool := g.GetNamedCtxPool(name);
      if pool != null {
        return Pool(pool);
      }
      var fault := StartSection(e, name);
      picked := if fault then Fault else Pool(null);
    }

    /** select_ctx_pool */
    method SelectCtxPool(e: Event, m: nat) returns (picked: Picked)
      requires Valid() && Knows(e) && m < |table.mods|
      modifies g, g.ctxs, e.pconf, e.s
      ensures Valid() && g.Extends() && (picked.Pool? && picked.pool != null ==> g.HasPool(picked.pool))
      ensures PickedVal(picked, g.view) == old(Selection(e, m))
    {
      KnownFits(e);
      if m in e.section {
        picked := SectionPool(e, e.section[m]);
      } else {
        picked := Pool(if m in e.server then e.server[m] else modulePools[m]);
      }
    }

    ghost function Selection(e: Event, m: nat): Dispatch.Selection
      requires Valid() && Knows(e) && m < |table.mods|
      reads g, g.ctxs, g.pools, g.interps, g.aprs, g.servers
    {
      KnownFits(e);
      Dispatch.SelectPool(g.view, table, CallVal(e), m)
    }

    /** The context swap: clone into the selected pool, release the old context. */
    method Swap(ctx: Context, pool: CtxPool?, e: Event) returns (d: Context?)
      requires g.Valid() && g.HasCtx(ctx) && Knows(e) && (pool != null ==> g.HasPool(pool))
      modifies g`interps, g`view, g.ctxs, e.bind
      ensures g.Valid() && g.Extends() && (d != null ==> g.HasCtx(d))
      ensures (g.view, CtxId(d)) == Dispatch.Swap(old(g.View()), ctx.id, PoolId(pool), CallVal(e))
    {
      hide Life.CloneCtx;
      ghost var w := g.View();
      d := g.CloneCtx(ctx, pool, e.s, e.bind, e.oks.2);
      assert ctx in g.ctxs;
      Free(if d != ctx then ctx else null);
    }

    method Stamp(d: Context, e: Event)
      requires g.Valid() && g.HasCtx(d) && g.HasServer(e.s)
      modifies g`view, d
      ensures g.Valid()
      ensures var x := old(g.view).ctxs[d.id];
              g.view == Life.SetCtx(old(g.view), d.id, x.(scope := Dispatch.Stamp(x.scope, CallVal(e))))
    {
      assert g.CtxIs(d, g.view.ctxs[d.id]);
      StampFields(d, e);
      g.view := Life.SetCtx(g.view, d.id, d.Val());
      g.CtxTied(d);
    }

    /** The fields a meta handler sets on the context it hands to the HLL. */
    static method StampFields(d: Context, e: Event)
      modifies d`r, d`c, d`csd, d`pconf, d`plog, d`ptemp, d`pchild, d`s
      ensures d.Val() == old(d.Val()).(scope := Dispatch.Stamp(old(d.Scope()), CallVal(e)))
    {
      match e.kind
      case OnRequest(r, _) =>
        d.r := Some(r);
      case OnPreConnection(c, csd) =>
        d.c := Some(c);
        d.csd := Some(csd);
      case OnProcessConnection(c) =>
        d.c := Some(c);
      case OnPostConfig(pconf, plog, ptemp) => StampConfig(d, e.s, pconf, plog, ptemp);
      case OnChildInit(p) =>
        d.pchild := p;
        d.s := e.s;
      case OnOpenLogs(pconf, plog, ptemp) => StampConfig(d, e.s, pconf, plog, ptemp);
    }

    static method StampConfig(d: Context, s: ServerRec, pconf: AprPool, plog: AprPool, ptemp: AprPool)
      modifies d`pconf, d`plog, d`ptemp, d`s
      ensures d.pconf == pconf && d.plog == plog && d.ptemp == ptemp && d.s == s
    {
      d.pconf, d.plog, d.ptemp := pconf, plog, ptemp;
      d.s := s;
    }

    /** The end of a meta handler on context d. */
    method Finish(d: Context, e: Event)
      requires g.Valid() && g.HasCtx(d) && g.HasServer(e.s)
      modifies g`view, d
      ensures g.Valid() && g.view == Dispatch.Finish(old(g.view), d.id, CallVal(e))
    {
      Stamp(d, e);
      if e.kind.OnChildInit? {
        g.ReleaseCtx(d);
      }
    }

    /** The rest of a meta handler, on the context the swap left it with. */
    method Conclude(d: Context?, m: nat, e: Event) returns (o: Outcome)
      requires g.Valid() && (d != null ==> g.HasCtx(d)) && g.HasServer(e.s)
      modifies g`view, d
      ensures g.Valid()
      ensures (g.view, OutcomeVal(o)) == Dispatch.Conclude(old(g.view), CtxId(d), m, CallVal(e))
    {
      assert g.ServerIs(e.s, g.view.servers[e.s.id]);
      if e.kind.OnOpenLogs? && !e.s.enabled {
        return Declined;
      }
      if d == null {
        return Faulted;
      }
      Finish(d, e);
      o := Ran(m, d, !(e.kind.OnRequest? && e.kind.headerOnly));
    }

    /** A meta handler from the context swap on, for module m. */
    method Hand(ctx: Context, pool: CtxPool?, m: nat, e: Event) returns (o: Outcome)
      requires g.Valid() && g.HasCtx(ctx) && Knows(e) && (pool != null ==> g.HasPool(pool))
      modifies g`interps, g`view, g.ctxs, e.bind
      ensures g.Valid() && g.Extends()
      ensures (g.view, OutcomeVal(o)) == Dispatch.Hand(old(g.View()), ctx.id, PoolId(pool), m, CallVal(e))
    {
      hide Dispatch.Swap, Dispatch.Conclude;
      ghost var w := g.View();
      var d := Swap(ctx, pool, e);
      assert d != null ==> d in g.ctxs;
      o := Conclude(d, m, e);
    }

    /** A meta handler once the pool is selected. */
    method HandTo(picked: Picked, ctx: Context, m: nat, e: Event) returns (o: Outcome)
      requires g.Valid() && g.HasCtx(ctx) && Knows(e)
      requires picked.Pool? && picked.pool != null ==> g.HasPool(picked.pool)
      modifies g`interps, g`view, g.ctxs, e.bind
      ensures g.Valid() && g.Extends()
      ensures (g.view, OutcomeVal(o)) == Dispatch.HandTo(PickedVal(picked, old(g.View())), ctx.id, m, CallVal(e))
    {
      if picked.Fault? {
        return Faulted;
      }
      o := Hand(ctx, picked.pool, m, e);
    }

    ghost function Placement(e: Event, ctx: Context, m: nat): (Life.World, Dispatch.Outcome)
      requires Valid() && g.HasCtx(ctx) && Knows(e) && m < |table.mods|
      reads g, g.ctxs, g.pools, g.interps, g.aprs, g.servers
    {
      KnownFits(e);
      Dispatch.Place(g.view, table, CallVal(e), ctx.id, m)
    }

    /** A meta handler from the pool selection on. */
    method Place(e: Event, ctx: Context, m: nat) returns (o: Outcome)
      requires Valid() && g.HasCtx(ctx) && Knows(e) && m < |table.mods|
      modifies g, g.ctxs, e.bind, e.pconf, e.s
      ensures Valid() && g.Extends()
      ensures (g.view, OutcomeVal(o)) == old(Placement(e, ctx, m))
    {
      hide Dispatch.SelectPool, Dispatch.Hand;
      var picked := SelectCtxPool(e, m);
      o := HandTo(picked, ctx, m, e);
    }

    ghost function Proceeded(m: Option<nat>, e: Event, ctx: Context): (Life.World, Dispatch.Outcome)
      requires Valid() && g.HasCtx(ctx) && Knows(e) && (m.Some? ==> m.value < |table.mods|)
      reads g, g.ctxs, g.pools, g.interps, g.aprs, g.servers
    {
      KnownFits(e);
      Dispatch.Proceed(g.view, table, CallVal(e), ctx.id, m)
    }

    /** A meta handler once NEXT_HANDLER_MODULE is evaluated. */
    method Proceed(m: Option<nat>, e: Event, ctx: Context) returns (o: Outcome)
      requires Valid() && g.HasCtx(ctx) && Knows(e) && (m.Some? ==> m.value < |table.mods|)
      modifies g, g.ctxs, e.bind, e.pconf, e.s
      ensures Valid() && g.Extends()
      ensures (g.view, OutcomeVal(o)) == old(Proceeded(m, e, ctx))
    {
      if m.None? {
        return OutOfRange;
      }
      o := Place(e, ctx, m.value);
    }

    ghost function Served(e: Event, ctx: Context): (Life.World, Dispatch.Outcome)
      requires Valid() && g.HasCtx(ctx) && Knows(e)
      reads g, g.ctxs, g.pools, g.interps, g.aprs, g.servers
    {
      KnownFits(e);
      Dispatch.Serve(g.view, table, CallVal(e), ctx.id)
    }

    /** What a meta handler does once it has a context: the next module, then its turn. */
    method Serve(e: Event, ctx: Context) returns (o: Outcome)
      requires Valid() && g.HasCtx(ctx) && Knows(e)
      modifies g, g.ctxs, e.bind, e.pconf, e.s
      ensures Valid() && g.Extends()
      ensures (g.view, OutcomeVal(o)) == old(Served(e, ctx))
    {
      hide Dispatch.Place;
      assert ctx in g.ctxs;
      var m := NextHandlerModule(ctx, e.hook);
      o := Proceed(m, e, ctx);
    }

    ghost function Admitted(e: Event, ctx: Context?): (Life.World, Dispatch.Outcome)
      requires Valid() && (ctx != null ==> g.HasCtx(ctx)) && Knows(e)
      reads g, g.ctxs, g.pools, g.interps, g.aprs, g.servers
    {
      KnownFits(e);
      Dispatch.Admit(g.view, table, CallVal(e), CtxId(ctx))
    }

    /** The enabled check, and the rest of the handler. */
    method Admit(e: Event, ctx: Context?) returns (o: Outcome)
      requires Valid() && (ctx != null ==> g.HasCtx(ctx)) && Knows(e)
      modifies g, g.ctxs, e.bind, e.pconf, e.s
      ensures Valid() && g.Extends()
      ensures (g.view, OutcomeVal(o)) == old(Admitted(e, ctx))
    {
      hide Dispatch.Serve;
      assert g.ServerIs(e.s, g.view.servers[e.s.id]);
      if ctx == null {
        return ServerError;
      }
      if !e.kind.OnOpenLogs? && !e.s.enabled {
        return Declined;
      }
      o := Serve(e, ctx);
    }

    ghost function Answer(e: Event): (Life.World, Dispatch.Outcome)
      requires Valid() && Knows(e)
      reads g, g.ctxs, g.pools, g.interps, g.aprs, g.servers
    {
      KnownFits(e);
      Dispatch.MetaCall(g.view, table, CallVal(e))
    }

    /** A meta handler does to the objects what Dispatch.MetaCall does to the World they make up. */
    method MetaHandler(e: Event) returns (o: Outcome)
      requires Valid() && Knows(e)
      modifies g, g.ctxs, e.look, e.bind, e.pconf, e.s
      ensures Valid() && g.Extends()
      ensures (g.view, OutcomeVal(o)) == old(Answer(e))
    {
      hide Dispatch.Admit, Life.InitCtx;
      var ctx := g.InitCtx(e.s, e.look, null, e.oks.0);
      o := Admit(e, ctx);
    }
  }
}
