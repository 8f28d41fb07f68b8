/**
 modparrot_add_module on objects: module_array, module_hash, the handler index and
 Apache's chain of modules are changed in place.  View() ties them to Registry.
*/
module Modules {
  import opened Options
  import opened Registry

  /** Apache's module structure, with the part of modparrot_module_info that matters here.
      `id` is its position in module_array. */
  class Module {
    const id: nat
    const name: string
    const hooks: seq<bool>
    const pool: nat
    var next: Module?

    constructor (id: nat, name: string, hooks: seq<bool>, pool: nat)
      ensures this.id == id && this.name == name && this.hooks == hooks && this.pool == pool
    {
      this.id, this.name, this.hooks, this.pool := id, name, hooks, pool;
      next := null;
    }

    function Val(): Mod {
      Mod(name, hooks, pool)
    }
  }

  function Reverse<T>(s: seq<T>): seq<T> {
    if s == [] then [] else Reverse(s[1..]) + [s[0]]
  }

  /** The chain with m put right behind `anchor`; unchanged if the anchor is not in it. */
  ghost function InsertAfter<T>(chain: seq<T>, anchor: T, m: T): seq<T>
    decreases |chain|
  {
    if chain == [] then []
    else if chain[0] == anchor then [anchor, m] + chain[1..]
    else [chain[0]] + InsertAfter(chain[1..], anchor, m)
  }

  /** The chain with a block put right behind the anchor. */
  ghost function Spliced<T>(chain: seq<T>, anchor: T, block: seq<T>): seq<T>
    decreases |chain|
  {
    if chain == [] then []
    else if chain[0] == anchor then [anchor] + block + chain[1..]
    else [chain[0]] + Spliced(chain[1..], anchor, block)
  }

  ghost predicate Distinct<T>(s: seq<T>) {
    forall i, j :: 0 <= i < j < |s| ==> s[i] != s[j]
  }

  lemma {:induction false} SplicedNothing<T>(chain: seq<T>, anchor: T)
    ensures Spliced(chain, anchor, []) == chain
    decreases |chain|
  {
    if chain != [] {
      SplicedNothing(chain[1..], anchor);
    }
  }

  lemma {:induction false} InsertIntoSpliced<T>(chain: seq<T>, anchor: T, block: seq<T>, m: T)
    ensures InsertAfter(Spliced(chain, anchor, block), anchor, m) == Spliced(chain, anchor, [m] + block)
    decreases |chain|
  {
    if chain != [] {
      if chain[0] == anchor {
        assert ([anchor] + block + chain[1..])[1..] == block + chain[1..];
        assert [anchor, m] + (block + chain[1..]) == [anchor] + ([m] + block) + chain[1..];
      } else {
        assert ([chain[0]] + Spliced(chain[1..], anchor, block))[1..] == Spliced(chain[1..], anchor, block);
        InsertIntoSpliced(chain[1..], anchor, block, m);
      }
    }
  }

  lemma {:induction false} InsertAfterFinds<T>(chain: seq<T>, anchor: T, m: T, k: nat)
    requires k < |chain| && chain[k] == anchor && forall i :: 0 <= i < k ==> chain[i] != anchor
    ensures InsertAfter(chain, anchor, m) == chain[..k + 1] + [m] + chain[k + 1..]
    decreases k
  {
    if k == 0 {
      assert [anchor, m] + chain[1..] == chain[..1] + [m] + chain[1..];
    } else {
      InsertAfterFinds(chain[1..], anchor, m, k - 1);
      assert [chain[0]] + (chain[1..][..k] + [m] + chain[1..][k..]) == chain[..k + 1] + [m] + chain[k + 1..];
    }
  }

  lemma {:induction false} InsertAfterMisses<T>(chain: seq<T>, anchor: T, m: T)
    requires anchor !in chain
    ensures InsertAfter(chain, anchor, m) == chain
    decreases |chain|
  {
    if chain != [] {
      InsertAfterMisses(chain[1..], anchor, m);
    }
  }

  /** Insertions one by one. */
  ghost function InsertAll<T>(chain: seq<T>, anchor: T, ms: seq<T>): seq<T>
    decreases |ms|
  {
    if ms == [] then chain
    else InsertAfter(InsertAll(chain, anchor, ms[..|ms| - 1]), anchor, ms[|ms| - 1])
  }

  lemma {:induction false} ReverseSnoc<T>(s: seq<T>, x: T)
    ensures Reverse(s + [x]) == [x] + Reverse(s)
    decreases |s|
  {
    if s == [] {
      assert (s + [x])[1..] == [];
    } else {
      assert (s + [x])[1..] == s[1..] + [x];
      ReverseSnoc(s[1..], x);
    }
  }

  /** After any number of insertions the modules sit right behind the anchor, in reverse
      order of addition, and the rest of the chain is as it was. */
  lemma {:induction false} InsertionsReverse<T>(chain: seq<T>, anchor: T, ms: seq<T>)
    ensures InsertAll(chain, anchor, ms) == Spliced(chain, anchor, Reverse(ms))
    decreases |ms|
  {
    if ms == [] {
      SplicedNothing(chain, anchor);
    } else {
      var n := |ms| - 1;
      InsertionsReverse(chain, anchor, ms[..n]);
      InsertIntoSpliced(chain, anchor, Reverse(ms[..n]), ms[n]);
      ReverseSnoc(ms[..n], ms[n]);
      assert ms[..n] + [ms[n]] == ms;
    }
  }

  function Vals(ms: seq<Module>): seq<Mod> {
    seq(|ms|, i requires 0 <= i < |ms| => ms[i].Val())
  }

  function At(chain: seq<Module>, k: nat): Module? {
    if k < |chain| then chain[k] else null
  }

  function After(chain: seq<Module>, i: nat): Module? {
    At(chain, i + 1)
  }

  /** Successors in a chain with m linked in behind position k. */
  lemma LinkedIn(chain: seq<Module>, k: nat, m: Module)
    requires k < |chain| && Distinct(chain) && m !in chain
    ensures var chain' := chain[..k + 1] + [m] + chain[k + 1..];
            && Distinct(chain') && |chain'| == |chain| + 1 && chain'[0] == chain[0]
            && chain'[k] == chain[k] && After(chain', k) == m
            && chain'[k + 1] == m && After(chain', k + 1) == After(chain, k)
            && (forall i :: 0 <= i < k ==> chain'[i] == chain[i] && After(chain', i) == After(chain, i))
            && (forall i :: k + 1 < i < |chain'| ==> chain'[i] == chain[i - 1] && After(chain', i) == After(chain, i - 1))
  {
  }

  datatype Outcome = Exited | Known | Fresh

  class ModuleTable {
    var moduleHash: map<string, Module>
    var moduleArray: seq<Module>
    var handlerModules: seq<Option<seq<nat>>>
    var hookCursor: nat       // the static counter of register_meta_hooks
    var apacheHooks: seq<nat> // the ap_hook_* registrations made
    var top: Module?          // ap_top_module
    const parrot: Module      // parrot_module
    ghost var chain: seq<Module> // the modules reached from top, in order
    ghost const base: seq<Module> // the chain before any HLL module

    /** modparrot_init_globals, with Apache's chain as it stands. */
    constructor (parrot: Module, top: Module?, ghost chain: seq<Module>)
      requires Distinct(chain) && top == At(chain, 0)
      requires forall i :: 0 <= i < |chain| ==> chain[i].next == After(chain, i)
      ensures Valid() && View() == EmptyTable() && this.chain == chain && this.parrot == parrot
    {
      moduleHash, moduleArray, hookCursor, apacheHooks := map[], [], 0, [];
      handlerModules := seq(HOOK_LAST, _ => None);
      this.parrot, this.top, this.chain, this.base := parrot, top, chain, chain;
      new;
      SplicedNothing(chain, parrot);
      EmptyTableOk();
      assert View() == EmptyTable();
    }

    ghost function Mods(): seq<Mod>
      reads this`moduleArray
    {
      Vals(moduleArray)
    }

    ghost function ByName(): (names: map<string, nat>)
      reads this`moduleHash
    {
      map n | n in moduleHash :: moduleHash[n].id
    }

    ghost function View(): Table
      reads this`moduleArray, this`moduleHash, this`handlerModules, this`hookCursor, this`apacheHooks
    {
      Table(Mods(), ByName(), handlerModules, hookCursor, apacheHooks)
    }

    /** The chain is finite and acyclic, and next pointers follow it. */
    ghost predicate Chained()
      reads this, chain
    {
      && Distinct(chain)
      && top == At(chain, 0)
      && forall i :: 0 <= i < |chain| ==> chain[i].next == After(chain, i)
    }

    /** The HLL modules follow parrot_module in reverse order of addition. */
    ghost predicate Arranged()
      reads this, chain
    {
      && (forall i :: 0 <= i < |moduleArray| ==> moduleArray[i].id == i)
      && (forall n :: n in moduleHash ==> moduleHash[n] in moduleArray)
      && Chained()
      && chain == Spliced(base, parrot, Reverse(moduleArray))
    }

    ghost predicate Valid()
      reads this, chain
    {
      TableOk(View()) && Arranged()
    }

    /** modparrot_insert_module: walk the chain to parrot_module and link m in behind it. */
    method InsertModule(m: Module)
      requires Chained() && m !in chain
      modifies this`chain, chain, m
      ensures Chained() && chain == InsertAfter(old(chain), parrot, m)
    {
      var p := top;
      ghost var k := 0;
      while p != null
        invariant k <= |chain| && p == At(chain, k)
        invariant forall i :: 0 <= i < k ==> chain[i] != parrot
        invariant Chained() && chain == old(chain)
        decreases |chain| - k
      {
        if p == parrot {
          InsertAfterFinds(chain, parrot, m, k);
          LinkedIn(chain, k, m);
          var next := p.next;
          p.next := m;
          m.next := next;
          chain := chain[..k + 1] + [m] + chain[k + 1..];
          return;
        }
        p := p.next;
        k := k + 1;
      }
      InsertAfterMisses(chain, parrot, m);
    }

    /** The hook loop of modparrot_add_module; None where the code exits. */
    method PopulateHooks(values: seq<int>) returns (flags: Option<seq<bool>>)
      ensures flags == HookFlags(values)
      ensures flags.None? <==> Rejected(values)
      ensures flags.Some? ==>
                && |flags.value| == HOOK_LAST
                && forall h :: 0 <= h < HOOK_LAST ==>
                     (flags.value[h] <==> (|values| > 0 && values[0] == HOOK_ALL) || h in values)
    {
      HookFlagsMeaning(values);
      var hooks := seq(HOOK_LAST, _ => false);
      if |values| > 0 && values[0] == HOOK_ALL {
        for i := 0 to HOOK_LAST
          invariant |hooks| == HOOK_LAST && forall h :: 0 <= h < i ==> hooks[h]
        {
          hooks := hooks[i := true];
        }
        assert hooks == HookFlags(values).value;
        return Some(hooks);
      }
      for i := 0 to |values|
        invariant |hooks| == HOOK_LAST && forall j :: 0 <= j < i ==> 0 <= values[j] < HOOK_LAST
        invariant forall h :: 0 <= h < HOOK_LAST ==> (hooks[h] <==> h in values[..i])
      {
        if values[i] < 0 || values[i] >= HOOK_LAST {
          return None;
        }
        hooks := hooks[values[i] := true];
        assert values[..i + 1] == values[..i] + [values[i]];
      }
      assert values[..|values|] == values;
      assert hooks == HookFlags(values).value;
      return Some(hooks);
    }

    /** register_meta_hooks: index the module at the static counter under each hook it asked for. */
    method RegisterMetaHooks()
      requires hookCursor < |moduleArray| && |moduleArray[hookCursor].hooks| == HOOK_LAST == |handlerModules|
      modifies this`handlerModules, this`hookCursor, this`apacheHooks
      ensures View() == RegisterHooks(old(View()))
    {
      var m := moduleArray[hookCursor];
      assert View().mods[hookCursor] == m.Val();
      ghost var index0, apache0 := handlerModules, apacheHooks;
      for i := 0 to HOOK_LAST
        invariant hookCursor == old(hookCursor) && |handlerModules| == HOOK_LAST
        invariant handlerModules == Indexed(index0, m.hooks, hookCursor, i)
        invariant apacheHooks == apache0 + Registrations(m.hooks, i)
      {
        if m.hooks[i] {
          var list := if handlerModules[i].None? then [] else handlerModules[i].value;
          handlerModules := handlerModules[i := Some(list + [hookCursor])];
          if i != INPUT_FILTER && i != OUTPUT_FILTER {
            apacheHooks := apacheHooks + [i];
          }
        }
        assert handlerModules == Indexed(index0, m.hooks, hookCursor, i + 1);
      }
      hookCursor := hookCursor + 1;
    }

    /** Pushing the module and hashing its name. */
    method Enter(name: string, hooks: seq<bool>, pool: nat) returns (m: Module)
      requires name !in moduleHash
      modifies this`moduleArray, this`moduleHash
      ensures fresh(m) && m.id == |old(moduleArray)| && m.Val() == Mod(name, hooks, pool)
      ensures moduleArray == old(moduleArray) + [m] && moduleHash == old(moduleHash)[name := m]
      ensures View() == old(View()).(mods := old(Mods()) + [m.Val()], byName := old(ByName())[name := |old(moduleArray)|])
    {
      m := new Module(|moduleArray|, name, hooks, pool);
      ghost var mods0, names0 := Mods(), ByName();
      moduleArray := moduleArray + [m];
      moduleHash := moduleHash[name := m];
      assert Mods() == mods0 + [m.Val()];
      assert ByName() == names0[name := m.id];
    }

    /** The end of modparrot_add_module: enter the module, link it in, have Apache call
        register_meta_hooks. */
    method AddFresh(name: string, hooks: seq<bool>, pool: nat) returns (m: Module)
      requires Arranged() && name !in moduleHash
      requires hookCursor == |moduleArray| && |hooks| == HOOK_LAST == |handlerModules|
      modifies this, chain
      ensures Arranged() && fresh(m) && m.id == |old(moduleArray)|
      ensures moduleArray == old(moduleArray) + [m] && moduleHash == old(moduleHash)[name := m]
      ensures chain == InsertAfter(old(chain), parrot, m)
      ensures var t := old(View());
              View() == RegisterHooks(t.(mods := t.mods + [Mod(name, hooks, pool)],
                                         byName := t.byName[name := |t.mods|]))
    {
      m := Enter(name, hooks, pool);
      ghost var t1 := View();
      assert Chained();
      InsertModule(m);
      assert View() == t1;
      assert chain == Spliced(base, parrot, Reverse(moduleArray)) by {
        InsertIntoSpliced(base, parrot, Reverse(old(moduleArray)), m);
        ReverseSnoc(old(moduleArray), m);
      }
      assert Arranged();
      RegisterMetaHooks();
    }

    /** modparrot_add_module.  A name already added returns its module and changes nothing;
        a bad hook list exits before anything is registered. */
    method AddModule(name: string, values: seq<int>, pool: nat) returns (o: Outcome, m: Module?)
      requires Valid()
      modifies this, chain
      ensures Valid()
      ensures match Add(old(View()), name, values, pool)
              case Added(t, id) => !o.Exited? && m != null && View() == t && m.id == id && m in moduleArray
              case _ => o.Exited? && View() == old(View())
      ensures o.Known? <==> name in old(moduleHash)
      ensures !o.Fresh? ==> moduleArray == old(moduleArray) && moduleHash == old(moduleHash) && chain == old(chain)
      ensures o.Fresh? ==> moduleArray == old(moduleArray) + [m] && fresh(m) && moduleHash == old(moduleHash)[name := m]
      ensures o.Fresh? ==> m != null && chain == InsertAfter<Module>(old(chain), parrot, m)
    {
      AddKeepsTable(View(), name, values, pool);
      if name in moduleHash {
        return Known, moduleHash[name];
      }
      var flags := PopulateHooks(values);
      if flags.None? {
        return Exited, null;
      }
      o := Fresh;
      m := AddFresh(name, flags.value, pool);
    }
  }
}
