/**
 The edges of the lock protocol: how far the availability result reaches, how long a
 scan can take, which atomic operation a whole reserve_ctx amounts to, and what is lost
 when release_ctx is called by a thread that is not the holder.
*/
module LockLimits {
  import opened Options
  import opened LockProtocol

  // ---------------------------------------------------------------- solo scans

  /** The lowest free index from i on; the number of contexts when there is none. */
  function FirstFree(locked: seq<bool>, i: nat): (f: nat)
    requires i <= |locked|
    ensures i <= f <= |locked|
    ensures forall j :: i <= j < f ==> locked[j]
    ensures f < |locked| ==> !locked[f]
    decreases |locked| - i
  {
    if i == |locked| || !locked[i] then i else FirstFree(locked, i + 1)
  }

  lemma {:induction false} FirstFreeIs(locked: seq<bool>, i: nat, k: nat)
    requires i <= k <= |locked| && (k < |locked| ==> !locked[k])
    requires forall j :: i <= j < k ==> locked[j]
    ensures FirstFree(locked, i) == k
    decreases k - i
  {
    if i < k {
      FirstFreeIs(locked, i + 1, k);
    }
  }

  lemma {:induction false} FrugalIsRun(s: State, es: seq<Event>)
    requires IsFrugalRun(s, es)
    ensures IsRun(s, es)
    decreases |es|
  {
    if es != [] {
      FrugalIsRun(Apply(s, es[0]), es[1..]);
    }
  }

  /** es is a frugal run from s that ends in s'. */
  ghost predicate Leads(s: State, es: seq<Event>, s': State) {
    IsFrugalRun(s, es) && (FrugalIsRun(s, es); Exec(s, es) == s')
  }

  lemma {:induction false} LeadsOn(s: State, a: seq<Event>, s': State, b: seq<Event>, s'': State)
    requires Leads(s, a, s') && Leads(s', b, s'')
    ensures Leads(s, a + b, s'')
    decreases |a|
  {
    FrugalIsRun(s, a);
    if a == [] {
      assert a + b == b;
    } else {
      FrugalIsRun(Apply(s, a[0]), a[1..]);
      LeadsOn(Apply(s, a[0]), a[1..], s', b, s'');
      assert (a + b)[1..] == a[1..] + b;
      FrugalIsRun(s, a + b);
    }
  }

  lemma LeadsByOne(s: State, e: Event)
    requires Enabled(s, e) && ByHolder(s, e) && Frugal(s, e)
    ensures Leads(s, [e], Apply(s, e))
  {
    assert [e][1..] == [];
    FrugalIsRun(s, [e]);
    assert Exec(Apply(s, e), []) == Apply(s, e);
  }

  /** k tests in a row by the thread inside, all of them of locked bits. */
  lemma {:induction false} ScanLocked(s: State, t: Tid, k: nat) returns (es: seq<Event>)
    requires t < |s.threads|
    requires var pc := s.threads[t].pc; pc.Test? && pc.want.Any? && pc.i + k <= |s.locked|
    requires forall j :: s.threads[t].pc.i <= j < s.threads[t].pc.i + k ==> s.locked[j]
    ensures var pc := s.threads[t].pc; Leads(s, es, Goto(s, t, Test(Any, pc.i + k, pc.entry)))
    decreases k
  {
    var pc := s.threads[t].pc;
    if k == 0 {
      es := [];
      assert Goto(s, t, Test(Any, pc.i, pc.entry)) == s;
    } else {
      LeadsByOne(s, TestBit(t));
      var s1 := Apply(s, TestBit(t));
      var rest := ScanLocked(s1, t, k - 1);
      es := [TestBit(t)] + rest;
      var s2 := Goto(s, t, Test(Any, pc.i + k, pc.entry));
      assert Goto(s1, t, Test(Any, pc.i + k, pc.entry)) == s2;
      LeadsOn(s, [TestBit(t)], s1, rest, s2);
    }
  }

  /** The scan of a thread that runs alone stops at the lowest free context. */
  lemma SoloScan(s: State, t: Tid) returns (es: seq<Event>)
    requires t < |s.threads| && s.threads[t].pc.Outside? && s.mutex == None && s.threads[t].held == {}
    ensures var f := FirstFree(s.locked, 0);
            Leads(s, es, Goto(s, t, if f < |s.locked| then Set(Any, f, s.locked)
                                    else Unlock(Any, None, s.locked)).(mutex := Some(t)))
  {
    var f := FirstFree(s.locked, 0);
    LeadsByOne(s, Enter(t, Any));
    var s1 := Apply(s, Enter(t, Any));
    var scan := ScanLocked(s1, t, f);
    var s2 := Goto(s1, t, Test(Any, f, s.locked));
    LeadsByOne(s2, TestBit(t));
    var s3 := Apply(s2, TestBit(t));
    LeadsOn(s, [Enter(t, Any)], s1, scan, s2);
    LeadsOn(s, [Enter(t, Any)] + scan, s2, [TestBit(t)], s3);
    es := [Enter(t, Any)] + scan + [TestBit(t)];
    assert s3 == Goto(s, t, if f < |s.locked| then Set(Any, f, s.locked)
                            else Unlock(Any, None, s.locked)).(mutex := Some(t));
  }

  /** Run without interference, reserve_ctx(pool, MP_CTX_ANY) is one atomic operation:
      it locks the lowest free context and nothing else. */
  lemma SoloReserve(s: State, t: Tid) returns (es: seq<Event>)
    requires t < |s.threads| && s.threads[t].pc.Outside? && s.mutex == None && s.threads[t].held == {}
    requires FirstFree(s.locked, 0) < |s.locked|
    ensures var f := FirstFree(s.locked, 0);
            Leads(s, es, State(s.locked[f := true], None, s.threads[t := Thread(Outside, {f})]))
  {
    var f := FirstFree(s.locked, 0);
    var scan := SoloScan(s, t);
    var s1 := Goto(s, t, Set(Any, f, s.locked)).(mutex := Some(t));
    LeadsByOne(s1, SetBit(t));
    var s2 := Apply(s1, SetBit(t));
    LeadsByOne(s2, Leave(t));
    var s3 := Apply(s2, Leave(t));
    LeadsOn(s, scan, s1, [SetBit(t)], s2);
    LeadsOn(s, scan + [SetBit(t)], s2, [Leave(t)], s3);
    es := scan + [SetBit(t)] + [Leave(t)];
    assert {} + {f} == {f};
    assert s3 == State(s.locked[f := true], None, s.threads[t := Thread(Outside, {f})]);
  }

  // ---------------------------------------------------------------- sharpness

  /** The first k of m threads each hold the context of their own number. */
  ghost function Taken(n: nat, m: nat, k: nat): State
    requires k <= n && k <= m
  {
    State(seq(n, i => i < k), None, seq(m, (t: nat) => Thread(Outside, if t < k then {t} else {})))
  }

  lemma {:induction false} ReachTaken(n: nat, m: nat, k: nat) returns (es: seq<Event>)
    requires k <= n && k <= m
    ensures Leads(Init(n, m), es, Taken(n, m, k))
  {
    if k == 0 {
      es := [];
      assert Init(n, m) == Taken(n, m, 0);
    } else {
      var before := ReachTaken(n, m, k - 1);
      var s := Taken(n, m, k - 1);
      FirstFreeIs(s.locked, 0, k - 1);
      var last := SoloReserve(s, k - 1);
      assert State(s.locked[k - 1 := true], None, s.threads[k - 1 := Thread(Outside, {k - 1})]) == Taken(n, m, k);
      LeadsOn(Init(n, m), before, s, last, Taken(n, m, k));
      es := before + last;
    }
  }

  /** Some frugal run brings some reserve_ctx(pool, MP_CTX_ANY) to return NULL. */
  ghost predicate CanFail(n: nat, m: nat) {
    exists es, s, t :: Leads(Init(n, m), es, s) && FailsAt(s, t)
  }

  ghost predicate FailsAt(s: State, t: Tid) {
    t < |s.threads| && s.threads[t].pc.Unlock? && s.threads[t].pc.want.Any? && s.threads[t].pc.got.None?
  }

  /** Availability, exactly: threads that hold at most one context each can starve a
      reservation of a pool of n contexts if and only if there are more than n of them. */
  lemma FailureNeedsMoreThreadsThanContexts(n: nat, m: nat)
    ensures CanFail(n, m) <==> n < m
  {
    if n < m {
      var es := ReachTaken(n, m, n);
      var s := Taken(n, m, n);
      FirstFreeIs(s.locked, 0, n);
      var scan := SoloScan(s, n);
      var s' := Goto(s, n, Unlock(Any, None, s.locked)).(mutex := Some(n));
      LeadsOn(Init(n, m), es, s, scan, s');
      assert FailsAt(s', n);
    } else if CanFail(n, m) {
      var es, s, t :| Leads(Init(n, m), es, s) && FailsAt(s, t);
      FrugalIsRun(Init(n, m), es);
      ExecKeepsThreadCount(Init(n, m), es);
      ReserveNeverFails(n, m, es, t);
      assert false;
    }
  }

  // ---------------------------------------------------------------- progress

  /** How many steps the thread still has to take before it drops the mutex. */
  function StepsLeft(s: State, th: Thread): int {
    match th.pc
    case Outside => 0
    case Test(want, i, _) => if want.Any? then |s.locked| - i + 3 else 3
    case Set(_, _, _) => 2
    case Unlock(_, _, _) => 1
  }

  /** Every own step brings the thread that holds the mutex closer to dropping it, and no
      step of another thread, releases included, sets it back. */
  lemma ScanMakesProgress(s: State, e: Event, t: Tid)
    requires Inv(s) && Enabled(s, e) && t < |s.threads| && !s.threads[t].pc.Outside?
    ensures var s' := Apply(s, e);
            && 0 < StepsLeft(s, s.threads[t]) <= |s.locked| + 3
            && (e.t == t ==> StepsLeft(s', s'.threads[t]) < StepsLeft(s, s.threads[t]))
            && (e.t != t ==> StepsLeft(s', s'.threads[t]) == StepsLeft(s, s.threads[t]))
  {
    assert PcOk(s, s.threads[t]);
  }

  // ---------------------------------------------------------------- atomicity

  /** The thread that holds context c. */
  ghost function HolderOf(s: State, c: nat): (t: Tid)
    requires Exclusive(s) && c < |s.locked| && s.locked[c]
    ensures t < |s.threads| && c in s.threads[t].held
  {
    var t :| 0 <= t < |s.threads| && c in s.threads[t].held; t
  }

  /** The holder of each locked context. */
  ghost function Holder(s: State): map<nat, Tid>
    requires Exclusive(s)
  {
    map c: nat | c < |s.locked| && s.locked[c] :: HolderOf(s, c)
  }

  lemma HolderIs(s: State, t: Tid, c: nat)
    requires Exclusive(s) && t < |s.threads| && c in s.threads[t].held
    ensures c in Holder(s) && Holder(s)[c] == t
  {
    assert c < |s.locked| && s.locked[c];
    assert c in s.threads[HolderOf(s, c)].held;
  }

  lemma HoldersAre(s: State, h: map<nat, Tid>)
    requires Exclusive(s)
    requires forall c :: c in h <==> 0 <= c < |s.locked| && s.locked[c]
    requires forall c :: c in h ==> h[c] < |s.threads| && c in s.threads[h[c]].held
    ensures Holder(s) == h
  {
    forall c | c in h
      ensures Holder(s)[c] == h[c]
    {
      HolderIs(s, h[c], c);
    }
  }

  lemma HoldersHold(s: State)
    requires Exclusive(s)
    ensures forall c :: c in Holder(s) ==> Holder(s)[c] < |s.threads| && c in s.threads[Holder(s)[c]].held
  {
  }

  lemma Takes(s: State, s': State, t: Tid, i: nat)
    requires Exclusive(s) && Exclusive(s') && t < |s.threads| && i < |s.locked| && !s.locked[i]
    requires s'.locked == s.locked[i := true]
    requires |s'.threads| == |s.threads| && i in s'.threads[t].held
    requires forall u :: 0 <= u < |s.threads| ==> s.threads[u].held <= s'.threads[u].held
    ensures i !in Holder(s) && Holder(s') == Holder(s)[i := t]
  {
    HoldersHold(s);
    HoldersAre(s', Holder(s)[i := t]);
  }

  lemma Drops(s: State, s': State, t: Tid, c: nat)
    requires Exclusive(s) && Exclusive(s') && t < |s.threads| && c in s.threads[t].held
    requires c < |s.locked| && s'.locked == s.locked[c := false]
    requires |s'.threads| == |s.threads|
    requires forall u :: 0 <= u < |s.threads| ==> s.threads[u].held - {c} <= s'.threads[u].held
    ensures c in Holder(s) && Holder(s)[c] == t && Holder(s') == Holder(s) - {c}
  {
    HoldersHold(s);
    HolderIs(s, t, c);
    HoldersAre(s', Holder(s) - {c});
  }

  lemma Keeps(s: State, s': State)
    requires Exclusive(s) && Exclusive(s') && s'.locked == s.locked && |s'.threads| == |s.threads|
    requires forall u :: 0 <= u < |s.threads| ==> s.threads[u].held <= s'.threads[u].held
    ensures Holder(s') == Holder(s)
  {
    HoldersHold(s);
    HoldersAre(s', Holder(s));
  }

  /** Seen through the holders, each step of the split test-and-set protocol either
      changes nothing, or gives a context nobody holds to the acting thread, or takes
      away a context the acting thread holds: the steps of an atomic pool. */
  lemma StepsRefineAtomicPool(s: State, e: Event)
    requires Inv(s) && Enabled(s, e) && ByHolder(s, e)
    ensures Inv(Apply(s, e))
    ensures e.SetBit? ==>
              var i := s.threads[e.t].pc.i;
              i !in Holder(s) && Holder(Apply(s, e)) == Holder(s)[i := e.t]
    ensures e.Release? ==>
              && e.c in Holder(s) && Holder(s)[e.c] == e.t
              && Holder(Apply(s, e)) == Holder(s) - {e.c}
    ensures !e.SetBit? && !e.Release? ==> Holder(Apply(s, e)) == Holder(s)
  {
    StepKeepsInv(s, e);
    var s' := Apply(s, e);
    match e
    case SetBit(t) =>
      assert PcOk(s, s.threads[t]);
      Takes(s, s', t, s.threads[t].pc.i);
    case Release(t, c) => Drops(s, s', t, c);
    case _ => Keeps(s, s');
  }

  // ---------------------------------------------------------------- release by a stranger

  /** What release_ctx by thread t, on any context c, does to the correspondence between
      lock bits and holders: it survives if and only if nobody else holds c. */
  lemma ReleaseKeepsExclusionIff(s: State, t: Tid, c: nat)
    requires Inv(s) && Enabled(s, Release(t, c))
    ensures Exclusive(Apply(s, Release(t, c)))
            <==> forall u :: 0 <= u < |s.threads| && c in s.threads[u].held ==> u == t
  {
    var s' := Apply(s, Release(t, c));
    if u :| 0 <= u < |s.threads| && c in s.threads[u].held && u != t {
      assert c in s'.threads[u].held && !s'.locked[c];
    } else {
      forall d | 0 <= d < |s'.locked| && s'.locked[d]
        ensures exists u :: 0 <= u < |s'.threads| && d in s'.threads[u].held
      {
        assert s.locked[d];
        var u :| 0 <= u < |s.threads| && d in s.threads[u].held;
        assert d in s'.threads[u].held;
      }
    }
  }

  /** Whenever a thread releases a context that another thread holds, an idle third
      thread can reserve that context while the holder still has it. */
  lemma StrangerReleaseAllowsDoubleHolding(s: State, t: Tid, c: nat, u: Tid, v: Tid) returns (es: seq<Event>)
    requires Inv(s) && Enabled(s, Release(t, c)) && s.mutex == None
    requires u < |s.threads| && c in s.threads[u].held && u != t
    requires v < |s.threads| && v != u && s.threads[v].held == {}
    requires forall j :: 0 <= j < c ==> s.locked[j]
    ensures exists s' :: Leads(Apply(s, Release(t, c)), es, s')
                         && |s'.threads| == |s.threads|
                         && c in s'.threads[u].held && c in s'.threads[v].held
  {
    var s1 := Apply(s, Release(t, c));
    assert s.threads[v].pc.Outside?;
    FirstFreeIs(s1.locked, 0, c);
    es := SoloReserve(s1, v);
    var s2 := State(s1.locked[c := true], None, s1.threads[v := Thread(Outside, {c})]);
    assert Leads(s1, es, s2);
    assert c in s2.threads[u].held && c in s2.threads[v].held;
  }
}
