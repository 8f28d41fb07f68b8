/**
 The registry of HLL modules.  All of them share one Apache callback per hook, so the
 registry also keeps, per hook, the positions of the modules that asked for it.
*/
module Registry {
  import opened Options

  // enum modparrot_hooks: two start-up hooks, the filter hooks, and the end of the enumeration
  const OPEN_LOGS: nat := 0
  const CHILD_INIT: nat := 2
  const INPUT_FILTER: nat := 8
  const OUTPUT_FILTER: nat := 14
  const HOOK_LAST: nat := 18
  const HOOK_ALL: nat := 19

  /** A module as registered: its name, hooks[] and the pool of the adding context. */
  datatype Mod = Mod(name: string, hooks: seq<bool>, pool: nat)

  /** module_array, module_hash (as positions), handler_modules, the static counter of
      register_meta_hooks, and the hooks registered with Apache, in order. */
  datatype Table = Table(mods: seq<Mod>, byName: map<string, nat>, index: seq<Option<seq<nat>>>,
                         cursor: nat, apache: seq<nat>)

  /** modparrot_init_globals on a freshly loaded image. */
  function EmptyTable(): Table {
    Table([], map[], seq(HOOK_LAST, _ => None), 0, [])
  }

  // ---------------------------------------------------------------- adding a module

  /** The hooks[] a hook list stands for; None when the code exits over an invalid value. */
  function HookFlags(values: seq<int>): Option<seq<bool>> {
    if |values| > 0 && values[0] == HOOK_ALL then Some(seq(HOOK_LAST, _ => true))
    else if forall i :: 0 <= i < |values| ==> 0 <= values[i] < HOOK_LAST then
      Some(seq(HOOK_LAST, (h: int) => h in values))
    else None
  }

  predicate IsFilter(h: nat) {
    h == INPUT_FILTER || h == OUTPUT_FILTER
  }

  function OrEmpty(x: Option<seq<nat>>): seq<nat> {
    if x.Some? then x.value else []
  }

  /** handler_modules after the module at position m has been indexed for the first n hooks. */
  function Indexed(index: seq<Option<seq<nat>>>, hooks: seq<bool>, m: nat, n: nat): seq<Option<seq<nat>>>
    requires n <= |index| && n <= |hooks|
  {
    seq(|index|, h requires 0 <= h < |index| =>
      if h < n && hooks[h] then Some(OrEmpty(index[h]) + [m]) else index[h])
  }

  /** The switch of register_meta_hooks: filter hooks have no case. */
  function Registration(hooks: seq<bool>, h: nat): seq<nat>
    requires h < |hooks|
  {
    if hooks[h] && !IsFilter(h) then [h] else []
  }

  /** The Apache registrations made for the first n hooks of a module. */
  function Registrations(hooks: seq<bool>, n: nat): seq<nat>
    requires n <= |hooks|
  {
    if n == 0 then [] else Registrations(hooks, n - 1) + Registration(hooks, n - 1)
  }

  datatype AddResult = Exit | OutOfRange | Added(table: Table, id: nat)

  /** register_meta_hooks, called by Apache once per added module.  It finds out which
      module that is from its static counter alone. */
  function RegisterHooks(t: Table): Table
    requires t.cursor < |t.mods| && |t.mods[t.cursor].hooks| == HOOK_LAST == |t.index|
  {
    var hooks := t.mods[t.cursor].hooks;
    t.(index := Indexed(t.index, hooks, t.cursor, HOOK_LAST), cursor := t.cursor + 1,
       apache := t.apache + Registrations(hooks, HOOK_LAST))
  }

  /** modparrot_add_module */
  function Add(t: Table, name: string, values: seq<int>, pool: nat): AddResult
    requires |t.index| == HOOK_LAST && forall i :: 0 <= i < |t.mods| ==> |t.mods[i].hooks| == HOOK_LAST
  {
    if name in t.byName then Added(t, t.byName[name])
    else
      match HookFlags(values)
      case None => Exit
      case Some(hooks) =>
        var t1 := t.(mods := t.mods + [Mod(name, hooks, pool)], byName := t.byName[name := |t.mods|]);
        if t1.cursor < |t1.mods| then Added(RegisterHooks(t1), |t.mods|) else OutOfRange
  }

  // ---------------------------------------------------------------- what the table means

  /** The positions of the modules that asked for hook h, in add order. */
  function Asked(mods: seq<Mod>, h: nat): (ps: seq<nat>)
    requires forall i :: 0 <= i < |mods| ==> h < |mods[i].hooks|
    ensures forall k :: 0 <= k < |ps| ==> ps[k] < |mods| && mods[ps[k]].hooks[h]
    ensures forall j, k :: 0 <= j < k < |ps| ==> ps[j] < ps[k]
    ensures forall i :: 0 <= i < |mods| && mods[i].hooks[h] ==> i in ps
  {
    if mods == [] then []
    else
      var n := |mods| - 1;
      Asked(mods[..n], h) + if mods[n].hooks[h] then [n] else []
  }

  /** How often h was registered. */
  function Count(hs: seq<nat>, h: nat): nat {
    if hs == [] then 0 else Count(hs[..|hs| - 1], h) + if hs[|hs| - 1] == h then 1 else 0
  }

  ghost predicate HooksOk(t: Table) {
    |t.index| == HOOK_LAST && forall i :: 0 <= i < |t.mods| ==> |t.mods[i].hooks| == HOOK_LAST
  }

  /** handler_modules[h] is exactly the list of the modules that asked for h. */
  ghost predicate IndexOk(t: Table)
    requires HooksOk(t)
  {
    forall h :: 0 <= h < HOOK_LAST ==> IndexedFor(t, h)
  }

  ghost predicate IndexedFor(t: Table, h: nat)
    requires HooksOk(t) && h < HOOK_LAST
  {
    && t.index[h] == (if Asked(t.mods, h) == [] then None else Some(Asked(t.mods, h)))
    && Count(t.apache, h) == if IsFilter(h) then 0 else |Asked(t.mods, h)|
  }

  /** module_hash and module_array describe the same modules, under distinct names. */
  ghost predicate NamesOk(t: Table) {
    && (forall n :: n in t.byName ==> t.byName[n] < |t.mods| && t.mods[t.byName[n]].name == n)
    && (forall i :: 0 <= i < |t.mods| ==> t.mods[i].name in t.byName && t.byName[t.mods[i].name] == i)
  }

  ghost predicate TableOk(t: Table) {
    HooksOk(t) && IndexOk(t) && NamesOk(t) && t.cursor == |t.mods|
  }

  lemma EmptyTableOk()
    ensures TableOk(EmptyTable())
  {
  }

  lemma {:induction false} CountAppend(a: seq<nat>, b: seq<nat>, h: nat)
    ensures Count(a + b, h) == Count(a, h) + Count(b, h)
  {
    if b == [] {
      assert a + b == a;
    } else {
      var n := |b| - 1;
      assert (a + b)[..|a + b| - 1] == a + b[..n];
      CountAppend(a, b[..n], h);
    }
  }

  lemma {:induction false} RegistrationCount(hooks: seq<bool>, n: nat, h: nat)
    requires n <= |hooks|
    ensures Count(Registrations(hooks, n), h) == if h < n && hooks[h] && !IsFilter(h) then 1 else 0
  {
    if n > 0 {
      RegistrationCount(hooks, n - 1, h);
      CountAppend(Registrations(hooks, n - 1), Registration(hooks, n - 1), h);
      CountOne(n - 1, h);
    }
  }

  lemma CountOne(x: nat, h: nat)
    ensures Count([x], h) == if x == h then 1 else 0
  {
    assert [x][..0] == [];
  }

  lemma AskedAppend(mods: seq<Mod>, m: Mod, h: nat)
    requires forall i :: 0 <= i < |mods| ==> h < |mods[i].hooks|
    requires h < |m.hooks|
    ensures Asked(mods + [m], h) == if m.hooks[h] then Asked(mods, h) + [|mods|] else Asked(mods, h)
  {
    assert (mods + [m])[..|mods|] == mods;
  }

  /** A fresh module goes to the end of the list of every hook it asked for, and Apache
      hears of it once per hook. */
  lemma AddFreshIndexes(t: Table, m: Mod, h: nat)
    requires HooksOk(t) && h < HOOK_LAST && IndexedFor(t, h) && t.cursor == |t.mods| && |m.hooks| == HOOK_LAST
    ensures var t1 := t.(mods := t.mods + [m], byName := t.byName[m.name := |t.mods|]);
            var t' := RegisterHooks(t1);
            HooksOk(t') && IndexedFor(t', h)
  {
    AskedAppend(t.mods, m, h);
    RegistrationCount(m.hooks, HOOK_LAST, h);
    CountAppend(t.apache, Registrations(m.hooks, HOOK_LAST), h);
  }

  lemma AddKeepsTable(t: Table, name: string, values: seq<int>, pool: nat)
    requires TableOk(t)
    ensures var r := Add(t, name, values, pool);
            && !r.OutOfRange?
            && (r.Exit? <==> name !in t.byName && HookFlags(values).None?)
            && (r.Added? ==> TableOk(r.table) && r.id < |r.table.mods| && r.table.mods[r.id].name == name)
            && (r.Added? && name in t.byName ==> r.table == t)
            && (r.Added? && name !in t.byName ==>
                  r.table.mods == t.mods + [Mod(name, HookFlags(values).value, pool)])
  {
    if name !in t.byName && HookFlags(values).Some? {
      var m := Mod(name, HookFlags(values).value, pool);
      var t' := Add(t, name, values, pool).table;
      forall h | 0 <= h < HOOK_LAST
        ensures HooksOk(t') && IndexedFor(t', h)
      {
        AddFreshIndexes(t, m, h);
      }
    }
  }

  // ---------------------------------------------------------------- whole runs

  datatype AddCall = AddCall(name: string, values: seq<int>, pool: nat)

  /** The table after a series of calls; None once the program has exited. */
  function AddAll(t: Table, calls: seq<AddCall>): (r: Option<Table>)
    requires TableOk(t)
    ensures r.Some? ==> TableOk(r.value)
    decreases |calls|
  {
    if calls == [] then Some(t)
    else
      AddKeepsTable(t, calls[0].name, calls[0].values, calls[0].pool);
      match Add(t, calls[0].name, calls[0].values, calls[0].pool)
      case Added(t', _) => AddAll(t', calls[1..])
      case _ => None
  }

  /** After any sequence of modparrot_add_module calls that did not exit, handler_modules[h]
      lists, strictly increasing, exactly the modules whose hooks[h] is set; Apache got as
      many registrations for h as that list is long; and the static counter of
      register_meta_hooks equals the length of module_array. */
  lemma HandlerIndexMeaning(calls: seq<AddCall>, h: nat)
    requires h < HOOK_LAST && (EmptyTableOk(); AddAll(EmptyTable(), calls).Some?)
    ensures (EmptyTableOk();
             var t := AddAll(EmptyTable(), calls).value;
             var list := OrEmpty(t.index[h]);
             && t.cursor == |t.mods|
             && (forall i :: i in list <==> 0 <= i < |t.mods| && |t.mods[i].hooks| > h && t.mods[i].hooks[h])
             && (forall j, k :: 0 <= j < k < |list| ==> list[j] < list[k])
             && (!IsFilter(h) ==> Count(t.apache, h) == |list|))
  {
    EmptyTableOk();
    var t := AddAll(EmptyTable(), calls).value;
    assert IndexedFor(t, h);
    assert OrEmpty(t.index[h]) == Asked(t.mods, h);
  }

  /** module_hash and module_array agree after any mix of fresh and repeated names. */
  lemma {:induction false} NamesAgree(calls: seq<AddCall>, name: string)
    requires (EmptyTableOk(); AddAll(EmptyTable(), calls).Some?)
    ensures (EmptyTableOk();
             var t := AddAll(EmptyTable(), calls).value;
             && (name in t.byName <==> exists i :: 0 <= i < |calls| && calls[i].name == name)
             && (name in t.byName ==> t.byName[name] < |t.mods| && t.mods[t.byName[name]].name == name)
             && (forall i, j :: 0 <= i < j < |t.mods| ==> t.mods[i].name != t.mods[j].name))
  {
    EmptyTableOk();
    NamesAreThoseCalled(EmptyTable(), calls, name);
  }

  lemma {:induction false} NamesAreThoseCalled(t: Table, calls: seq<AddCall>, name: string)
    requires TableOk(t) && AddAll(t, calls).Some?
    ensures name in AddAll(t, calls).value.byName
            <==> name in t.byName || exists i :: 0 <= i < |calls| && calls[i].name == name
    decreases |calls|
  {
    if calls != [] {
      AddKeepsTable(t, calls[0].name, calls[0].values, calls[0].pool);
      var t' := Add(t, calls[0].name, calls[0].values, calls[0].pool).table;
      NamesAreThoseCalled(t', calls[1..], name);
      assert forall i :: 0 <= i < |calls[1..]| ==> calls[1..][i] == calls[i + 1];
      if i :| 0 <= i < |calls| && calls[i].name == name {
        assert i > 0 ==> calls[1..][i - 1].name == name;
      }
    }
  }

  // ---------------------------------------------------------------- in terms of the calls

  /** What the hook loop makes of a list: an exit over a value that is no hook, unless the
      list begins with MP_HOOK_ALL; else the hooks listed, or all of them. */
  lemma HookFlagsMeaning(values: seq<int>)
    ensures HookFlags(values).None?
            <==> !(|values| > 0 && values[0] == HOOK_ALL)
                 && exists i :: 0 <= i < |values| && (values[i] < 0 || values[i] >= HOOK_LAST)
    ensures HookFlags(values).Some? ==>
              && |HookFlags(values).value| == HOOK_LAST
              && forall h :: 0 <= h < HOOK_LAST ==>
                   (HookFlags(values).value[h] <==> (|values| > 0 && values[0] == HOOK_ALL) || h in values)
  {
  }

  /** Call k is the first one with its name. */
  predicate First(calls: seq<AddCall>, k: nat) {
    k < |calls| && forall j :: 0 <= j < k ==> calls[j].name != calls[k].name
  }

  lemma {:induction false} AddAllSnoc(t: Table, calls: seq<AddCall>, c: AddCall)
    requires TableOk(t)
    ensures AddAll(t, calls + [c])
            == match AddAll(t, calls)
               case None => None
               case Some(t1) => match Add(t1, c.name, c.values, c.pool) case Added(t2, _) => Some(t2) case _ => None
    decreases |calls|
  {
    if calls == [] {
      assert [] + [c] == [c];
      AddKeepsTable(t, c.name, c.values, c.pool);
      assert [c][1..] == [];
    } else {
      AddKeepsTable(t, calls[0].name, calls[0].values, calls[0].pool);
      assert (calls + [c])[1..] == calls[1..] + [c] && (calls + [c])[0] == calls[0];
      match Add(t, calls[0].name, calls[0].values, calls[0].pool)
      case Added(t1, _) => AddAllSnoc(t1, calls[1..], c);
      case _ =>
    }
  }

  /** The table before the last of some calls, and what that one does. */
  lemma {:induction false} LastCall(calls: seq<AddCall>)
    requires calls != [] && (EmptyTableOk(); AddAll(EmptyTable(), calls).Some?)
    ensures (EmptyTableOk(); AddAll(EmptyTable(), calls[..|calls| - 1]).Some?)
    ensures (EmptyTableOk();
             var (c, n) := (calls[|calls| - 1], |calls| - 1);
             var (t1, t) := (AddAll(EmptyTable(), calls[..n]).value, AddAll(EmptyTable(), calls).value);
             && (c.name in t1.byName <==> !First(calls, n))
             && (c.name in t1.byName ==> t == t1)
             && (c.name !in t1.byName ==>
                   && HookFlags(c.values).Some?
                   && t.mods == t1.mods + [Mod(c.name, HookFlags(c.values).value, c.pool)]
                   && t.byName == t1.byName[c.name := |t1.mods|]))
  {
    EmptyTableOk();
    var (c, n) := (calls[|calls| - 1], |calls| - 1);
    assert calls == calls[..n] + [c];
    AddAllSnoc(EmptyTable(), calls[..n], c);
    var t1 := AddAll(EmptyTable(), calls[..n]).value;
    AddKeepsTable(t1, c.name, c.values, c.pool);
    NamesAgree(calls[..n], c.name);
  }

  lemma {:induction false} CallsDecideFlags(calls: seq<AddCall>, k: nat, h: nat)
    requires First(calls, k) && h < HOOK_LAST && (EmptyTableOk(); AddAll(EmptyTable(), calls).Some?)
    ensures (EmptyTableOk();
             var (t, values) := (AddAll(EmptyTable(), calls).value, calls[k].values);
             && calls[k].name in t.byName
             && var i := t.byName[calls[k].name];
                && i < |t.mods| && t.mods[i].name == calls[k].name && t.mods[i].pool == calls[k].pool
                && |t.mods[i].hooks| == HOOK_LAST
                && (t.mods[i].hooks[h] <==> (|values| > 0 && values[0] == HOOK_ALL) || h in values))
    decreases |calls|
  {
    hide HookFlags, TableOk, AddAll;
    EmptyTableOk();
    LastCall(calls);
    var n := |calls| - 1;
    HookFlagsMeaning(calls[k].values);
    if k < n {
      CallsDecideFlags(calls[..n], k, h);
    }
  }

  /** The registry, read off the calls.  The first call with a name adds the module of that
      name, with the pool passed; and handler_modules[h] has it if and only if the list
      passed begins with MP_HOOK_ALL or has h in it.  Later calls with the name do nothing. */
  lemma CallsDecideHooks(calls: seq<AddCall>, k: nat, h: nat)
    requires First(calls, k) && h < HOOK_LAST && (EmptyTableOk(); AddAll(EmptyTable(), calls).Some?)
    ensures (EmptyTableOk();
             var (t, values) := (AddAll(EmptyTable(), calls).value, calls[k].values);
             && calls[k].name in t.byName
             && var i := t.byName[calls[k].name];
                && i < |t.mods| && t.mods[i].name == calls[k].name && t.mods[i].pool == calls[k].pool
                && (i in OrEmpty(t.index[h]) <==> (|values| > 0 && values[0] == HOOK_ALL) || h in values))
  {
    EmptyTableOk();
    CallsDecideFlags(calls, k, h);
    HandlerIndexMeaning(calls, h);
  }

  /** The program exits if and only if the first call with some name passes a list that does
      not begin with MP_HOOK_ALL and has a value in it that is no hook. */
  lemma {:induction false} CallsExitIff(calls: seq<AddCall>)
    ensures (EmptyTableOk();
             AddAll(EmptyTable(), calls).None? <==> exists k :: 0 <= k < |calls| && First(calls, k) && Rejected(calls[k].values))
    decreases |calls|
  {
    hide TableOk, Rejected;
    EmptyTableOk();
    if calls != [] {
      var (c, n) := (calls[|calls| - 1], |calls| - 1);
      assert calls == calls[..n] + [c];
      CallsExitIff(calls[..n]);
      AddAllSnoc(EmptyTable(), calls[..n], c);
      assert forall k :: 0 <= k < n ==> (First(calls, k) <==> First(calls[..n], k));
      if AddAll(EmptyTable(), calls[..n]).Some? {
        AddKeepsTable(AddAll(EmptyTable(), calls[..n]).value, c.name, c.values, c.pool);
        NamesAgree(calls[..n], c.name);
        RejectedIff(c.values);
      } else {
        var k :| 0 <= k < n && First(calls[..n], k) && Rejected(calls[..n][k].values);
        assert First(calls, k) && Rejected(calls[k].values);
      }
    }
  }

  lemma RejectedIff(values: seq<int>)
    ensures HookFlags(values).None? <==> Rejected(values)
  {
    HookFlagsMeaning(values);
  }

  predicate Rejected(values: seq<int>) {
    && !(|values| > 0 && values[0] == HOOK_ALL)
    && exists i :: 0 <= i < |values| && (values[i] < 0 || values[i] >= HOOK_LAST)
  }

  /** The names of the modules that hook h is for, in the order of the calls that added them. */
  function Asking(calls: seq<AddCall>, h: nat): seq<string> {
    if calls == [] then []
    else
      var (c, n) := (calls[|calls| - 1], |calls| - 1);
      Asking(calls[..n], h)
      + if First(calls, n) && ((|c.values| > 0 && c.values[0] == HOOK_ALL) || h in c.values) then [c.name] else []
  }

  /** The names of the modules that asked for h are these. */
  ghost predicate Named(mods: seq<Mod>, h: nat, names: seq<string>)
    requires forall i :: 0 <= i < |mods| ==> h < |mods[i].hooks|
  {
    |Asked(mods, h)| == |names| && forall i :: 0 <= i < |names| ==> mods[Asked(mods, h)[i]].name == names[i]
  }

  lemma NamedAppend(mods: seq<Mod>, h: nat, names: seq<string>, m: Mod)
    requires forall i :: 0 <= i < |mods| ==> h < |mods[i].hooks|
    requires h < |m.hooks| && Named(mods, h, names)
    ensures Named(mods + [m], h, names + if m.hooks[h] then [m.name] else [])
  {
    AskedAppend(mods, m, h);
  }

  lemma {:induction false} AskedAreAsking(calls: seq<AddCall>, h: nat)
    requires h < HOOK_LAST && (EmptyTableOk(); AddAll(EmptyTable(), calls).Some?)
    ensures (EmptyTableOk(); Named(AddAll(EmptyTable(), calls).value.mods, h, Asking(calls, h)))
    decreases |calls|
  {
    hide Named, Asked;
    EmptyTableOk();
    if calls == [] {
      NoneAsked(h);
    } else {
      var (c, n) := (calls[|calls| - 1], |calls| - 1);
      LastCall(calls);
      AskedAreAsking(calls[..n], h);
      var t1 := AddAll(EmptyTable(), calls[..n]).value;
      assert Asking(calls[..n], h) + [] == Asking(calls[..n], h);
      if First(calls, n) {
        HookFlagsMeaning(c.values);
        NamedAppend(t1.mods, h, Asking(calls[..n], h), Mod(c.name, HookFlags(c.values).value, c.pool));
      }
    }
  }

  lemma NoneAsked(h: nat)
    ensures Named([], h, [])
  {
  }

  // ---------------------------------------------------------------- restart in one image

  /** modparrot_init_globals empties the tables, and Apache forgets its hooks, but the
      static counter of register_meta_hooks stays what it was. */
  function Reinit(t: Table): Table {
    EmptyTable().(cursor := t.cursor)
  }

  /** If the image is not loaded anew, the next fresh module is indexed by a read past the
      end of module_array if and only if a module had been added before. */
  lemma ReinitInOneImage(t: Table, name: string, values: seq<int>, pool: nat)
    requires TableOk(t) && HookFlags(values).Some?
    ensures Add(Reinit(t), name, values, pool).OutOfRange? <==> t.mods != []
  {
  }
}
