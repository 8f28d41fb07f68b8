/**
 The lock protocol of a context pool in a threaded server: reserve_ctx scans the
 pool's lock bits under the pool mutex, release_ctx clears a bit WITHOUT the mutex.

 Every memory access is one atomic step, so any number of threads may interleave
 between the test of a bit and its setting.  `held` is the ghost side of the model:
 the contexts a thread owns, counted from the moment it sets the bit.
*/
module LockProtocol {
  import opened Options

  type Tid = nat

  /** The index argument of reserve_ctx: MP_CTX_ANY, or one particular context. */
  datatype Want = Any | At(index: nat)

  /** Where a thread is inside reserve_ctx.  `entry` is a history variable: the lock
      bits at the instant the mutex was taken. */
  datatype Pc =
    | Outside
    | Test(want: Want, i: nat, entry: seq<bool>)
    | Set(want: Want, i: nat, entry: seq<bool>)
    | Unlock(want: Want, got: Option<nat>, entry: seq<bool>)

  datatype Thread = Thread(pc: Pc, held: set<nat>)

  datatype State = State(locked: seq<bool>, mutex: Option<Tid>, threads: seq<Thread>)

  datatype Event =
    | Enter(t: Tid, want: Want)
    | TestBit(t: Tid)
    | SetBit(t: Tid)
    | Leave(t: Tid)
    | Release(t: Tid, c: nat)

  /** n free contexts, m threads, nobody in reserve_ctx. */
  function Init(n: nat, m: nat): State {
    State(seq(n, _ => false), None, seq(m, _ => Thread(Outside, {})))
  }

  /** Any thread outside reserve_ctx may call release_ctx on any context: nothing in the
      code checks that it is the holder. */
  predicate Enabled(s: State, e: Event) {
    e.t < |s.threads| &&
    match e
    case Enter(t, want) =>
      s.threads[t].pc.Outside? && s.mutex == None && (want.At? ==> want.index < |s.locked|)
    case TestBit(t) =>
      s.threads[t].pc.Test? && (s.threads[t].pc.want.At? ==> s.threads[t].pc.i < |s.locked|)
    case SetBit(t) => s.threads[t].pc.Set? && s.threads[t].pc.i < |s.locked|
    case Leave(t) => s.threads[t].pc.Unlock?
    case Release(t, c) => s.threads[t].pc.Outside? && c < |s.locked|
  }

  function Goto(s: State, t: Tid, pc: Pc): State
    requires t < |s.threads|
  {
    s.(threads := s.threads[t := s.threads[t].(pc := pc)])
  }

  function Apply(s: State, e: Event): State
    requires Enabled(s, e)
  {
    var pc := s.threads[e.t].pc;
    match e
    case Enter(t, want) =>
      Goto(s, t, Test(want, if want.Any? then 0 else want.index, s.locked)).(mutex := Some(t))
    case TestBit(t) =>
      if pc.i >= |s.locked| then Goto(s, t, Unlock(pc.want, None, pc.entry))
      else if !s.locked[pc.i] then Goto(s, t, Set(pc.want, pc.i, pc.entry))
      else if pc.want.Any? then Goto(s, t, Test(pc.want, pc.i + 1, pc.entry))
      else Goto(s, t, Unlock(pc.want, None, pc.entry))
    case SetBit(t) =>
      State(s.locked[pc.i := true], s.mutex,
            s.threads[t := Thread(Unlock(pc.want, Some(pc.i), pc.entry), s.threads[t].held + {pc.i})])
    case Leave(t) => Goto(s, t, Outside).(mutex := None)
    case Release(t, c) =>
      s.(locked := s.locked[c := false],
         threads := s.threads[t := s.threads[t].(held := s.threads[t].held - {c})])
  }

  /** The discipline the callers keep: release only what you reserved. */
  predicate ByHolder(s: State, e: Event)
    requires Enabled(s, e)
  {
    e.Release? ==> e.c in s.threads[e.t].held
  }

  /** A run from s: every event enabled, every release made by the holder. */
  predicate IsRun(s: State, es: seq<Event>)
    decreases |es|
  {
    es == [] || (Enabled(s, es[0]) && ByHolder(s, es[0]) && IsRun(Apply(s, es[0]), es[1..]))
  }

  function Exec(s: State, es: seq<Event>): State
    requires IsRun(s, es)
    decreases |es|
  {
    if es == [] then s else Exec(Apply(s, es[0]), es[1..])
  }

  // ---------------------------------------------------------------- invariant

  /** The mutex is held exactly by the thread that is inside reserve_ctx. */
  ghost predicate MutexOk(s: State) {
    && (s.mutex.Some? ==> s.mutex.value < |s.threads| && !s.threads[s.mutex.value].pc.Outside?)
    && (forall t :: 0 <= t < |s.threads| && !s.threads[t].pc.Outside? ==> s.mutex == Some(t))
  }

  /** Locked contexts correspond one to one to (thread, context) holdings. */
  ghost predicate Exclusive(s: State) {
    && (forall t, c {:trigger c in s.threads[t].held} ::
          0 <= t < |s.threads| && c in s.threads[t].held ==> c < |s.locked| && s.locked[c])
    && (forall t, u :: 0 <= t < |s.threads| && 0 <= u < |s.threads| && t != u ==>
          s.threads[t].held !! s.threads[u].held)
    && (forall c :: 0 <= c < |s.locked| && s.locked[c] ==>
          exists t :: 0 <= t < |s.threads| && c in s.threads[t].held)
  }

  /** While `entry` was taken under the mutex, the locked set has only shrunk. */
  ghost predicate Shrunk(locked: seq<bool>, entry: seq<bool>, but: Option<nat>) {
    && |entry| == |locked|
    && forall j :: 0 <= j < |locked| && locked[j] && but != Some(j) ==> entry[j]
  }

  ghost predicate AllLocked(bits: seq<bool>, upTo: nat) {
    upTo <= |bits| && forall j :: 0 <= j < upTo ==> bits[j]
  }

  /** What the thread inside reserve_ctx knows about the instant it took the mutex. */
  ghost predicate PcOk(s: State, th: Thread) {
    match th.pc
    case Outside => true
    case Test(want, i, entry) =>
      && Shrunk(s.locked, entry, None)
      && (want.Any? ==> AllLocked(entry, i))
      && (want.At? ==> i == want.index < |s.locked|)
    case Set(want, i, entry) =>
      && Shrunk(s.locked, entry, None)
      && i < |s.locked| && !s.locked[i]
      && (want.Any? ==> AllLocked(entry, i))
      && (want.At? ==> i == want.index)
    case Unlock(want, got, entry) =>
      && Shrunk(s.locked, entry, got)
      && (want.Any? && got.None? ==> AllLocked(entry, |entry|))
      && (want.At? && got.None? ==> want.index < |entry| && entry[want.index])
      && (got.Some? ==> got.value in th.held)
      && (want.Any? && got.Some? ==> AllLocked(entry, got.value))
      && (want.At? && got.Some? ==> got.value == want.index)
  }

  ghost predicate Inv(s: State) {
    && MutexOk(s)
    && Exclusive(s)
    && forall t :: 0 <= t < |s.threads| ==> PcOk(s, s.threads[t])
  }

  lemma InitInv(n: nat, m: nat)
    ensures Inv(Init(n, m))
  {
  }

  lemma StepKeepsMutex(s: State, e: Event)
    requires MutexOk(s) && Enabled(s, e)
    ensures MutexOk(Apply(s, e))
  {
  }

  /** s' differs from s at most in where thread t stands. */
  ghost predicate OnlyMoves(s: State, s': State, t: Tid) {
    && t < |s.threads| == |s'.threads|
    && s'.locked == s.locked
    && s'.threads == s.threads[t := Thread(s'.threads[t].pc, s.threads[t].held)]
  }

  lemma MoveKeepsExclusive(s: State, s': State, t: Tid)
    requires Exclusive(s) && OnlyMoves(s, s', t)
    ensures Exclusive(s')
  {
    assert forall u :: 0 <= u < |s.threads| ==> s'.threads[u].held == s.threads[u].held;
    forall c | 0 <= c < |s'.locked| && s'.locked[c]
      ensures exists u :: 0 <= u < |s'.threads| && c in s'.threads[u].held
    {
      var u :| 0 <= u < |s.threads| && c in s.threads[u].held;
      assert c in s'.threads[u].held;
    }
  }

  lemma TakeKeepsExclusive(s: State, s': State, t: Tid, i: nat)
    requires Exclusive(s) && t < |s.threads| && i < |s.locked| && !s.locked[i]
    requires s'.locked == s.locked[i := true]
    requires |s'.threads| == |s.threads|
    requires s'.threads == s.threads[t := Thread(s'.threads[t].pc, s.threads[t].held + {i})]
    ensures Exclusive(s')
  {
    forall c | 0 <= c < |s'.locked| && s'.locked[c]
      ensures exists u :: 0 <= u < |s'.threads| && c in s'.threads[u].held
    {
      if c == i {
        assert c in s'.threads[t].held;
      } else {
        var u :| 0 <= u < |s.threads| && c in s.threads[u].held;
        assert c in s'.threads[u].held;
      }
    }
  }

  lemma DropKeepsExclusive(s: State, s': State, t: Tid, c: nat)
    requires Exclusive(s) && t < |s.threads| && c in s.threads[t].held && c < |s.locked|
    requires s'.locked == s.locked[c := false]
    requires |s'.threads| == |s.threads|
    requires s'.threads == s.threads[t := Thread(s'.threads[t].pc, s.threads[t].held - {c})]
    ensures Exclusive(s')
  {
    forall d | 0 <= d < |s'.locked| && s'.locked[d]
      ensures exists u :: 0 <= u < |s'.threads| && d in s'.threads[u].held
    {
      var u :| 0 <= u < |s.threads| && d in s.threads[u].held;
      assert d in s'.threads[u].held;
    }
  }

  lemma StepKeepsExclusive(s: State, e: Event)
    requires Inv(s) && Enabled(s, e) && ByHolder(s, e)
    ensures Exclusive(Apply(s, e))
  {
    var s' := Apply(s, e);
    match e
    case SetBit(t) =>
      assert PcOk(s, s.threads[t]);
      TakeKeepsExclusive(s, s', t, s.threads[t].pc.i);
    case Release(t, c) => DropKeepsExclusive(s, s', t, c);
    case _ => MoveKeepsExclusive(s, s', e.t);
  }

  /** The acting thread keeps what it knows. */
  lemma StepKeepsOwnPc(s: State, e: Event)
    requires Inv(s) && Enabled(s, e) && ByHolder(s, e)
    ensures PcOk(Apply(s, e), Apply(s, e).threads[e.t])
  {
    assert PcOk(s, s.threads[e.t]);
  }

  /** Releases, the only steps others can take meanwhile, only shrink the locked set. */
  lemma ReleaseKeepsOtherPc(s: State, s': State, th: Thread, c: nat)
    requires PcOk(s, th) && c < |s.locked| && s'.locked == s.locked[c := false]
    ensures PcOk(s', th)
  {
  }

  lemma StepKeepsOtherPc(s: State, e: Event, t: Tid)
    requires Inv(s) && Enabled(s, e) && t < |s.threads| && t != e.t
    ensures PcOk(Apply(s, e), Apply(s, e).threads[t])
  {
    assert PcOk(s, s.threads[t]);
    if e.Release? {
      ReleaseKeepsOtherPc(s, Apply(s, e), s.threads[t], e.c);
    } else {
      assert MutexOk(s);
      assert s.threads[t].pc.Outside?;
    }
  }

  lemma StepKeepsPc(s: State, e: Event)
    requires Inv(s) && Enabled(s, e) && ByHolder(s, e)
    ensures forall t :: 0 <= t < |s.threads| ==> PcOk(Apply(s, e), Apply(s, e).threads[t])
  {
    forall t | 0 <= t < |s.threads|
      ensures PcOk(Apply(s, e), Apply(s, e).threads[t])
    {
      if t == e.t {
        StepKeepsOwnPc(s, e);
      } else {
        StepKeepsOtherPc(s, e, t);
      }
    }
  }

  lemma StepKeepsInv(s: State, e: Event)
    requires Inv(s) && Enabled(s, e) && ByHolder(s, e)
    ensures Inv(Apply(s, e))
  {
    StepKeepsMutex(s, e);
    StepKeepsExclusive(s, e);
    StepKeepsPc(s, e);
  }

  lemma {:induction false} RunKeepsInv(s: State, es: seq<Event>)
    requires Inv(s) && IsRun(s, es)
    ensures Inv(Exec(s, es))
    decreases |es|
  {
    if es == [] {
    } else {
      StepKeepsInv(s, es[0]);
      RunKeepsInv(Apply(s, es[0]), es[1..]);
    }
  }

  // ---------------------------------------------------------------- main results

  /** No two threads ever hold the same context, and the lock bits say exactly which
      contexts are held, in every state of every run. */
  lemma MutualExclusion(n: nat, m: nat, es: seq<Event>)
    requires IsRun(Init(n, m), es)
    ensures var s := Exec(Init(n, m), es);
            && (forall t, u, c ::
                  0 <= t < |s.threads| && 0 <= u < |s.threads| && c in s.threads[t].held && c in s.threads[u].held
                  ==> t == u)
            && (forall c :: 0 <= c < |s.locked| ==>
                  (s.locked[c] <==> exists t :: 0 <= t < |s.threads| && c in s.threads[t].held))
  {
    InitInv(n, m);
    RunKeepsInv(Init(n, m), es);
  }

  /** reserve_ctx(pool, MP_CTX_ANY) returns NULL only if every context was locked at the
      instant the scan took the mutex, whatever was released meanwhile; and when it
      returns context c, every context below c was locked at that instant. */
  lemma AnyResultExplained(n: nat, m: nat, es: seq<Event>, t: Tid)
    requires IsRun(Init(n, m), es)
    requires t < |Exec(Init(n, m), es).threads|
    requires var pc := Exec(Init(n, m), es).threads[t].pc; pc.Unlock? && pc.want.Any?
    ensures var s := Exec(Init(n, m), es);
            var pc := s.threads[t].pc;
            && |pc.entry| == |s.locked|
            && (pc.got.None? ==> forall j :: 0 <= j < |pc.entry| ==> pc.entry[j])
            && (pc.got.Some? ==>
                  && pc.got.value < |s.locked| && s.locked[pc.got.value]
                  && pc.got.value in s.threads[t].held
                  && forall j :: 0 <= j < pc.got.value ==> pc.entry[j])
  {
    InitInv(n, m);
    RunKeepsInv(Init(n, m), es);
    var s := Exec(Init(n, m), es);
    assert PcOk(s, s.threads[t]);
    if s.threads[t].pc.got.Some? {
      assert s.threads[t].pc.got.value in s.threads[t].held;
    }
  }

  // ---------------------------------------------------------------- availability

  /** A thread asks for a context only while it holds none. */
  predicate Frugal(s: State, e: Event)
    requires Enabled(s, e)
  {
    e.Enter? ==> s.threads[e.t].held == {}
  }

  predicate IsFrugalRun(s: State, es: seq<Event>)
    decreases |es|
  {
    es == [] || (Enabled(s, es[0]) && ByHolder(s, es[0]) && Frugal(s, es[0])
                 && IsFrugalRun(Apply(s, es[0]), es[1..]))
  }

  ghost predicate FrugalThread(s: State, th: Thread) {
    && |th.held| <= 1
    && (th.pc.Test? || th.pc.Set? ==> th.held == {})
    && (!th.pc.Outside? ==> |th.pc.entry| == |s.locked| && false in th.pc.entry)
  }

  ghost predicate FrugalInv(s: State) {
    forall t :: 0 <= t < |s.threads| ==> FrugalThread(s, s.threads[t])
  }

  /** The contexts held by the first k threads. */
  ghost function HeldBy(threads: seq<Thread>, k: nat): set<nat>
    requires k <= |threads|
  {
    if k == 0 then {} else HeldBy(threads, k - 1) + threads[k - 1].held
  }

  lemma {:induction false} HeldByHas(threads: seq<Thread>, k: nat, t: nat, c: nat)
    requires t < k <= |threads| && c in threads[t].held
    ensures c in HeldBy(threads, k)
  {
    if t < k - 1 {
      HeldByHas(threads, k - 1, t, c);
    }
  }

  /** If thread `idle` holds nothing and nobody holds two, k threads hold fewer than k. */
  lemma {:induction false} HeldByBound(threads: seq<Thread>, k: nat, idle: nat)
    requires k <= |threads| && idle < |threads| && threads[idle].held == {}
    requires forall t :: 0 <= t < k ==> |threads[t].held| <= 1
    ensures |HeldBy(threads, k)| <= if idle < k then k - 1 else k
  {
    if k > 0 {
      HeldByBound(threads, k - 1, idle);
      UnionBound(HeldBy(threads, k - 1), threads[k - 1].held);
    }
  }

  lemma UnionBound(a: set<nat>, b: set<nat>)
    ensures |a + b| <= |a| + |b|
  {
    assert a + b == a + (b - a);
    assert |b - a| <= |b| by {
      assert b == (b - a) + (b * a);
    }
  }

  lemma {:induction false} InitialSegmentSize(n: nat, x: set<nat>)
    requires forall c :: 0 <= c < n ==> c in x
    ensures n <= |x|
  {
    if n > 0 {
      InitialSegmentSize(n - 1, x - {n - 1});
    }
  }

  /** The counting argument: with no more threads than contexts, a thread that holds
      nothing finds a free context whenever it takes the mutex. */
  lemma IdleThreadSeesFreeContext(s: State, t: Tid)
    requires Inv(s) && FrugalInv(s) && t < |s.threads| <= |s.locked|
    requires s.threads[t].held == {}
    ensures false in s.locked
  {
    if forall c :: 0 <= c < |s.locked| ==> s.locked[c] {
      forall c | 0 <= c < |s.locked|
        ensures c in HeldBy(s.threads, |s.threads|)
      {
        assert s.locked[c];
        var u :| 0 <= u < |s.threads| && c in s.threads[u].held;
        HeldByHas(s.threads, |s.threads|, u, c);
      }
      assert forall u :: 0 <= u < |s.threads| ==> FrugalThread(s, s.threads[u]) && |s.threads[u].held| <= 1;
      HeldByBound(s.threads, |s.threads|, t);
      InitialSegmentSize(|s.locked|, HeldBy(s.threads, |s.threads|));
      assert false;
    }
  }

  lemma StepKeepsFrugal(s: State, e: Event)
    requires Inv(s) && FrugalInv(s) && |s.threads| <= |s.locked|
    requires Enabled(s, e) && ByHolder(s, e) && Frugal(s, e)
    ensures FrugalInv(Apply(s, e))
  {
    var s' := Apply(s, e);
    var th := s.threads[e.t];
    assert FrugalThread(s, th);
    if e.Enter? {
      IdleThreadSeesFreeContext(s, e.t);
    }
    if e.Release? {
      assert th.held == (th.held - {e.c}) + {e.c};
    }
    assert FrugalThread(s', s'.threads[e.t]);
    forall t | 0 <= t < |s.threads| && t != e.t
      ensures FrugalThread(s', s'.threads[t])
    {
      assert FrugalThread(s, s.threads[t]);
    }
  }

  lemma {:induction false} FrugalRunKeeps(s: State, es: seq<Event>)
    requires Inv(s) && FrugalInv(s) && |s.threads| <= |s.locked|
    requires IsFrugalRun(s, es)
    ensures IsRun(s, es) && Inv(Exec(s, es)) && FrugalInv(Exec(s, es))
    decreases |es|
  {
    if es == [] {
    } else {
      StepKeepsInv(s, es[0]);
      StepKeepsFrugal(s, es[0]);
      FrugalRunKeeps(Apply(s, es[0]), es[1..]);
    }
  }

  /** With at most as many threads as contexts, and every thread holding at most one
      context, no reserve_ctx(pool, MP_CTX_ANY) ever returns NULL. */
  lemma ReserveNeverFails(n: nat, m: nat, es: seq<Event>, t: Tid)
    requires m <= n && t < m
    requires IsFrugalRun(Init(n, m), es)
    ensures IsRun(Init(n, m), es)
    ensures var s := Exec(Init(n, m), es);
            && |s.threads| == m
            && !(s.threads[t].pc.Unlock? && s.threads[t].pc.want.Any? && s.threads[t].pc.got.None?)
  {
    InitInv(n, m);
    FrugalRunKeeps(Init(n, m), es);
    ExecKeepsThreadCount(Init(n, m), es);
    var s := Exec(Init(n, m), es);
    assert PcOk(s, s.threads[t]);
  }

  lemma {:induction false} ExecKeepsThreadCount(s: State, es: seq<Event>)
    requires IsRun(s, es)
    ensures |Exec(s, es).threads| == |s.threads| && |Exec(s, es).locked| == |s.locked|
    decreases |es|
  {
    if es != [] {
      ExecKeepsThreadCount(Apply(s, es[0]), es[1..]);
    }
  }
}
