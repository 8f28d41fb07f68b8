/**
 The option algebra of ParrotOptions and the merge of server configurations, from
 modparrot_config.c.  SrvConfig is changed in place; Cfg is its value.  A flags word is
 the set of the option bits it has set: the code only ever combines whole options.
*/
module ServerConfig {
  import opened Options
  import opened Texts

  /** MP_OPT_ENABLE, MP_OPT_PARENT and MP_OPT_TRACE_INIT. */
  datatype Opt = Enable | Parent | TraceInit

  type Flags = set<Opt>

  /** The value of a modparrot_srv_config; -1 is "unspecified" for traceFlags. */
  datatype Cfg = Cfg(
    ctxPool: Option<nat>, initPath: Option<string>, traceFlags: int,
    enable: Flags, disable: Flags, option: Flags,
    includePath: Option<string>, libPath: Option<string>, dynextPath: Option<string>,
    soPath: Option<string>, preload: seq<string>)

  /** create_modparrot_srv_config; soPath is only set on some platforms. */
  function Fresh(soPath: Option<string>): Cfg {
    Cfg(None, None, -1, {}, {}, {Enable}, None, None, None, soPath, [])
  }

  // ---------------------------------------------------------------- ParrotOptions

  /** !strncasecmp(s, name, |name|): s begins with the name, in any case. */
  predicate Begins(s: string, name: string) {
    |s| >= |name| && LowerAll(s[..|name|]) == LowerAll(name)
  }

  function OptionNamed(name: string): Option<Opt> {
    if Begins(name, "Parent") then Some(Parent)
    else if Begins(name, "Enable") then Some(Enable)
    else if Begins(name, "TraceInit") then Some(TraceInit)
    else None
  }

  datatype Argument = Plus(o: Opt) | Minus(o: Opt) | UnknownOption(name: string) | MissingModifier

  /** What an argument of ParrotOptions asks for. */
  function Meaning(arg: string): Argument {
    if arg == "" || (arg[0] != '+' && arg[0] != '-') then MissingModifier
    else
      match OptionNamed(arg[1..])
      case None => UnknownOption(arg[1..])
      case Some(o) => if arg[0] == '+' then Plus(o) else Minus(o)
  }

  /** modparrot_recalc_options */
  function Recalc(c: Cfg): Cfg {
    c.(option := (c.option + c.enable) - c.disable)
  }

  /** modparrot_cmd_options on the value: a rejected argument changes nothing. */
  function Apply(c: Cfg, arg: string): Cfg {
    match Meaning(arg)
    case Plus(o) => Recalc(c.(enable := c.enable + {o}))
    case Minus(o) => Recalc(c.(disable := c.disable + {o}))
    case _ => c
  }

  function ApplyAll(c: Cfg, args: seq<string>): Cfg
    decreases |args|
  {
    if args == [] then c else ApplyAll(Apply(c, args[0]), args[1..])
  }

  // ---------------------------------------------------------------- the text of an argument

  /** s begins with the name of the option, each letter in either case. */
  predicate Spells(s: string, o: Opt) {
    match o
    case Parent => InAnyCase(s, "parent", "PARENT")
    case Enable => InAnyCase(s, "enable", "ENABLE")
    case TraceInit => InAnyCase(s, "traceinit", "TRACEINIT")
  }

  lemma BeginsIff(s: string)
    ensures Begins(s, "Parent") <==> Spells(s, Parent)
    ensures Begins(s, "Enable") <==> Spells(s, Enable)
    ensures Begins(s, "TraceInit") <==> Spells(s, TraceInit)
  {
    hide Begins, InAnyCase;
    BeginsWord(s, "Parent", "parent", "PARENT");
    BeginsWord(s, "Enable", "enable", "ENABLE");
    BeginsWord(s, "TraceInit", "traceinit", "TRACEINIT");
  }

  lemma BeginsWord(s: string, name: string, lower: string, upper: string)
    requires |name| == |lower| == |upper|
    requires forall i :: 0 <= i < |lower| ==> 'a' <= lower[i] <= 'z' && upper[i] == (lower[i] as int - 32) as char
    requires forall i :: 0 <= i < |lower| ==> name[i] == lower[i] || name[i] == upper[i]
    ensures Begins(s, name) <==> InAnyCase(s, lower, upper)
  {
    if |s| >= |name| {
      SameButCase(s[..|name|], name, lower, upper);
    }
  }

  /** No text spells two options. */
  lemma SpellsOne(s: string, o: Opt, o': Opt)
    requires Spells(s, o) && Spells(s, o')
    ensures o == o'
  {
    assert s[0] in {"pP"[0], "pP"[1], "eE"[0], "eE"[1], "tT"[0], "tT"[1]};
  }

  lemma NamedIff(s: string)
    ensures OptionNamed(s).Some? <==> exists o :: Spells(s, o)
  {
    BeginsIff(s);
    if o :| Spells(s, o) {
      match o case _ =>
    }
  }

  /** The argument is the sign and text that spells the option. */
  predicate Asks(arg: string, sign: char, o: Opt) {
    arg != "" && arg[0] == sign && Spells(arg[1..], o)
  }

  lemma MeaningIs(arg: string, o: Opt)
    ensures Meaning(arg) == Plus(o) <==> Asks(arg, '+', o)
    ensures Meaning(arg) == Minus(o) <==> Asks(arg, '-', o)
  {
    if arg != "" {
      BeginsIff(arg[1..]);
      if Spells(arg[1..], o) && OptionNamed(arg[1..]).Some? {
        SpellsOne(arg[1..], o, OptionNamed(arg[1..]).value);
      }
    }
  }

  /** What one argument does: '+' and an option's name in any case mark it as enabled, '-' and
      the name as disabled, the bits following; any other text changes nothing. */
  lemma ArgumentText(c: Cfg, arg: string, o: Opt)
    ensures Asks(arg, '+', o) ==>
              Apply(c, arg) == c.(enable := c.enable + {o}, option := (c.option + c.enable + {o}) - c.disable)
    ensures Asks(arg, '-', o) ==>
              Apply(c, arg) == c.(disable := c.disable + {o}, option := (c.option + c.enable) - c.disable - {o})
    ensures (forall x :: !Asks(arg, '+', x) && !Asks(arg, '-', x)) ==> Apply(c, arg) == c
  {
    MeaningIs(arg, o);
    assert c.option + (c.enable + {o}) == c.option + c.enable + {o};
    assert (c.option + c.enable) - (c.disable + {o}) == (c.option + c.enable) - c.disable - {o};
    if Meaning(arg).Plus? || Meaning(arg).Minus? {
      MeaningIs(arg, Meaning(arg).o);
    }
  }

  lemma ErrorText(arg: string)
    ensures (exists o :: Asks(arg, '+', o) || Asks(arg, '-', o)) <==> Meaning(arg).Plus? || Meaning(arg).Minus?
  {
    if o :| Asks(arg, '+', o) || Asks(arg, '-', o) {
      MeaningIs(arg, o);
    }
    if Meaning(arg).Plus? || Meaning(arg).Minus? {
      MeaningIs(arg, Meaning(arg).o);
    }
  }

  predicate Asked(args: seq<string>, sign: char, o: Opt) {
    exists i :: 0 <= i < |args| && Asks(args[i], sign, o)
  }

  lemma AskedFirst(args: seq<string>, sign: char, o: Opt)
    requires args != []
    ensures Asked(args, sign, o) <==> Asks(args[0], sign, o) || Asked(args[1..], sign, o)
  {
    if Asked(args[1..], sign, o) {
      var i :| 0 <= i < |args[1..]| && Asks(args[1..][i], sign, o);
      assert Asks(args[i + 1], sign, o);
    }
    if i :| 0 <= i < |args| && Asks(args[i], sign, o) && i > 0 {
      assert Asks(args[1..][i - 1], sign, o);
    }
  }

  // ---------------------------------------------------------------- any number of arguments

  /** The option bits follow from the default and what was switched so far. */
  predicate Settled(c: Cfg) {
    c.option == ({Enable} + c.enable) - c.disable
  }

  lemma {:induction false} ApplyAllSettles(c: Cfg, args: seq<string>)
    requires Settled(c)
    ensures var c' := ApplyAll(c, args);
            && Settled(c') && c' == c.(enable := c'.enable, disable := c'.disable, option := c'.option)
            && (forall o :: o in c'.enable <==> o in c.enable || Asked(args, '+', o))
            && (forall o :: o in c'.disable <==> o in c.disable || Asked(args, '-', o))
    decreases |args|
  {
    if args != [] {
      var c1 := Apply(c, args[0]);
      assert Settled(c1);
      ApplyAllSettles(c1, args[1..]);
      forall o ensures Asked(args, '+', o) <==> Meaning(args[0]) == Plus(o) || Asked(args[1..], '+', o) {
        AskedFirst(args, '+', o);
        MeaningIs(args[0], o);
      }
      forall o ensures Asked(args, '-', o) <==> Meaning(args[0]) == Minus(o) || Asked(args[1..], '-', o) {
        AskedFirst(args, '-', o);
        MeaningIs(args[0], o);
      }
    }
  }

  /** After any directives on a fresh config an option is on if and only if it is Enable or
      some argument asked for it, and no argument asked to clear it: minus always wins. */
  lemma OptionOnIff(soPath: Option<string>, args: seq<string>, o: Opt)
    ensures o in ApplyAll(Fresh(soPath), args).option
            <==> (o == Enable || Asked(args, '+', o)) && !Asked(args, '-', o)
  {
    ApplyAllSettles(Fresh(soPath), args);
  }

  /** Order, repetition and rejected arguments make no difference. */
  lemma OnlyTheRequestsMatter(soPath: Option<string>, args: seq<string>, args': seq<string>)
    requires forall o :: (Asked(args, '+', o) <==> Asked(args', '+', o)) && (Asked(args, '-', o) <==> Asked(args', '-', o))
    ensures ApplyAll(Fresh(soPath), args) == ApplyAll(Fresh(soPath), args')
  {
    ApplyAllSettles(Fresh(soPath), args);
    ApplyAllSettles(Fresh(soPath), args');
    var c, c' := ApplyAll(Fresh(soPath), args), ApplyAll(Fresh(soPath), args');
    forall o ensures (o in c.enable <==> o in c'.enable) && (o in c.disable <==> o in c'.disable) {
      assert Asked(args, '+', o) <==> Asked(args', '+', o);
      assert Asked(args, '-', o) <==> Asked(args', '-', o);
    }
    assert c.enable == c'.enable && c.disable == c'.disable;
  }

  // ---------------------------------------------------------------- merge

  /** merge_modparrot_srv_config: the merged config.  Both inputs are recalculated first;
      the context pool and the path of the shared object are not carried over. */
  function Merge(base: Cfg, vhost: Cfg): Cfg {
    Merged(Recalc(base), Recalc(vhost))
  }

  function Merged(b: Cfg, n: Cfg): Cfg {
    var initPath := if n.initPath.Some? then n.initPath else b.initPath;
    if Parent in n.option then
      Cfg(None, initPath, n.traceFlags, {}, {}, n.option, n.includePath, n.libPath, n.dynextPath, None, n.preload)
    else
      Cfg(None, initPath, if n.traceFlags != -1 then n.traceFlags else b.traceFlags,
          {}, {}, (b.option + n.enable) - n.disable,
          if n.includePath.Some? then n.includePath else b.includePath,
          if n.libPath.Some? then n.libPath else b.libPath,
          if n.dynextPath.Some? then n.dynextPath else b.dynextPath,
          None, b.preload + n.preload)
  }

  /** Merging virtual hosts one after the other; each merge leaves the base recalculated. */
  function MergeInTurn(base: Cfg, vhosts: seq<Cfg>): (merged: seq<Cfg>)
    ensures |merged| == |vhosts|
    decreases |vhosts|
  {
    if vhosts == [] then [] else [Merge(base, vhosts[0])] + MergeInTurn(Recalc(base), vhosts[1..])
  }

  /** Recalculating is a no-op exactly when no enabled or disabled bit is outstanding. */
  lemma RecalcNoopIff(c: Cfg)
    ensures Recalc(c) == c <==> c.enable - c.disable <= c.option && c.option !! c.disable
    ensures Recalc(Recalc(c)) == Recalc(c)
  {
    assert Recalc(c) == c <==> (c.option + c.enable) - c.disable == c.option;
    if (c.option + c.enable) - c.disable == c.option {
      assert forall o :: o in c.enable - c.disable ==> o in (c.option + c.enable) - c.disable;
    }
  }

  /** It is one on every config that directives reach, so for those merging changes neither input. */
  lemma DirectivesNeedNoRecalc(soPath: Option<string>, args: seq<string>)
    ensures Recalc(ApplyAll(Fresh(soPath), args)) == ApplyAll(Fresh(soPath), args)
  {
    ApplyAllSettles(Fresh(soPath), args);
    RecalcNoopIff(ApplyAll(Fresh(soPath), args));
  }

  /** Whatever was merged before, a virtual host gets what it would get alone: the order of
      the virtual hosts does not matter, for configs of any kind. */
  lemma {:induction false} MergeOrderIrrelevant(base: Cfg, vhosts: seq<Cfg>, k: nat)
    requires k < |vhosts|
    ensures MergeInTurn(base, vhosts)[k] == Merge(base, vhosts[k])
    decreases |vhosts|
  {
    if k > 0 {
      MergeOrderIrrelevant(Recalc(base), vhosts[1..], k - 1);
      RecalcNoopIff(base);
      assert Merge(Recalc(base), vhosts[k]) == Merge(base, vhosts[k]);
    }
  }

  /** Without Parent each option is vhost-minus, else vhost-plus, else the base's. */
  lemma MergedOption(base: Cfg, vhost: Cfg, o: Opt)
    requires Parent !in Recalc(vhost).option
    ensures o in Merge(base, vhost).option
            <==> o !in vhost.disable && (o in vhost.enable || o in Recalc(base).option)
  {
  }

  /** With Parent nothing but the init path can come from the base. */
  lemma ParentKeepsBaseOut(base: Cfg, base': Cfg, vhost: Cfg)
    requires Parent in Recalc(vhost).option
    ensures Merge(base, vhost) == Merge(base', vhost).(initPath := Merge(base, vhost).initPath)
    ensures vhost.initPath.Some? ==> Merge(base, vhost) == Merge(base', vhost)
    ensures Merge(base, vhost).option == Recalc(vhost).option && Merge(base, vhost).preload == vhost.preload
  {
  }

  /** The merged config is settled: no bit is outstanding, so that another merge on top of it
      takes its options as they are; and it has no context pool and no shared object of its own. */
  lemma MergedIsSettled(base: Cfg, vhost: Cfg)
    ensures var m := Merge(base, vhost);
            m.enable == {} && m.disable == {} && Recalc(m) == m && m.ctxPool == None && m.soPath == None
  {
    var m := Merge(base, vhost);
    assert Recalc(m).option == m.option;
  }

  /** The options of a virtual host, from the directives of the server and its own. */
  lemma OptionsOfVhost(soPath: Option<string>, baseArgs: seq<string>, args: seq<string>, o: Opt)
    ensures o in Merge(ApplyAll(Fresh(soPath), baseArgs), ApplyAll(Fresh(soPath), args)).option
            <==> if Asked(args, '+', Parent) && !Asked(args, '-', Parent)
                 then (o == Enable || Asked(args, '+', o)) && !Asked(args, '-', o)
                 else && !Asked(args, '-', o)
                      && (Asked(args, '+', o) || ((o == Enable || Asked(baseArgs, '+', o)) && !Asked(baseArgs, '-', o)))
  {
    var base, vhost := ApplyAll(Fresh(soPath), baseArgs), ApplyAll(Fresh(soPath), args);
    ApplyAllSettles(Fresh(soPath), baseArgs);
    ApplyAllSettles(Fresh(soPath), args);
    DirectivesNeedNoRecalc(soPath, baseArgs);
    DirectivesNeedNoRecalc(soPath, args);
    OptionOnIff(soPath, baseArgs, o);
    OptionOnIff(soPath, args, o);
    OptionOnIff(soPath, args, Parent);
  }

  // ---------------------------------------------------------------- what a virtual host inherits

  /** The directives that end up in a server's configuration. */
  datatype Directive =
    | ParrotTrace(flags: int)
    | ParrotLoad(path: string)
    | ParrotInit(path: string)
    | ParrotIncludePath(path: string)
    | ParrotLibPath(path: string)
    | ParrotDynextPath(path: string)
    | ParrotOptions(arg: string)

  function Configure(c: Cfg, d: Directive): Cfg {
    match d
    case ParrotTrace(flags) => c.(traceFlags := flags)
    case ParrotLoad(path) => c.(preload := c.preload + [path])
    case ParrotInit(path) => c.(initPath := Some(path))
    case ParrotIncludePath(path) => c.(includePath := Some(path))
    case ParrotLibPath(path) => c.(libPath := Some(path))
    case ParrotDynextPath(path) => c.(dynextPath := Some(path))
    case ParrotOptions(arg) => Apply(c, arg)
  }

  function ConfigureAll(c: Cfg, ds: seq<Directive>): Cfg
    decreases |ds|
  {
    if ds == [] then c else ConfigureAll(Configure(c, ds[0]), ds[1..])
  }

  /** d and e are directives of one kind. */
  predicate SameKind(d: Directive, e: Directive) {
    || (d.ParrotTrace? && e.ParrotTrace?) || (d.ParrotLoad? && e.ParrotLoad?) || (d.ParrotInit? && e.ParrotInit?)
    || (d.ParrotIncludePath? && e.ParrotIncludePath?) || (d.ParrotLibPath? && e.ParrotLibPath?)
    || (d.ParrotDynextPath? && e.ParrotDynextPath?) || (d.ParrotOptions? && e.ParrotOptions?)
  }

  /** c has what directive d sets. */
  predicate Has(c: Cfg, d: Directive) {
    match d
    case ParrotTrace(flags) => c.traceFlags == flags
    case ParrotLoad(path) => |c.preload| > 0 && c.preload[|c.preload| - 1] == path
    case ParrotInit(path) => c.initPath == Some(path)
    case ParrotIncludePath(path) => c.includePath == Some(path)
    case ParrotLibPath(path) => c.libPath == Some(path)
    case ParrotDynextPath(path) => c.dynextPath == Some(path)
    case ParrotOptions(arg) => true
  }

  /** The last directive of each kind is the one in effect; files to load keep their order. */
  lemma {:induction false} LastOneCounts(c: Cfg, ds: seq<Directive>, k: nat)
    requires k < |ds| && forall j :: k < j < |ds| ==> !SameKind(ds[k], ds[j])
    ensures Has(ConfigureAll(c, ds), ds[k])
    decreases |ds|
  {
    if k > 0 {
      LastOneCounts(Configure(c, ds[0]), ds[1..], k - 1);
    } else {
      StillHas(Configure(c, ds[0]), ds[1..], ds[0]);
    }
  }

  lemma {:induction false} StillHas(c: Cfg, ds: seq<Directive>, d: Directive)
    requires Has(c, d) && forall j :: 0 <= j < |ds| ==> !SameKind(d, ds[j])
    ensures Has(ConfigureAll(c, ds), d)
    decreases |ds|
  {
    if ds != [] {
      StillHas(Configure(c, ds[0]), ds[1..], d);
    }
  }

  predicate Traces(ds: seq<Directive>) {
    exists i :: 0 <= i < |ds| && ds[i].ParrotTrace?
  }

  function Over(x: Option<string>, y: Option<string>): Option<string> {
    if x.Some? then x else y
  }

  /** r is c but for what directives make of a fresh config, v. */
  predicate Overlays(r: Cfg, c: Cfg, v: Cfg, ds: seq<Directive>) {
    && r.initPath == Over(v.initPath, c.initPath) && r.includePath == Over(v.includePath, c.includePath)
    && r.libPath == Over(v.libPath, c.libPath) && r.dynextPath == Over(v.dynextPath, c.dynextPath)
    && r.preload == c.preload + v.preload
    && r.traceFlags == if Traces(ds) then v.traceFlags else c.traceFlags
  }

  lemma {:induction false} DirectivesOverlay(c: Cfg, soPath: Option<string>, ds: seq<Directive>)
    ensures Overlays(ConfigureAll(c, ds), c, ConfigureAll(Fresh(soPath), ds), ds)
    ensures !Traces(ds) ==> ConfigureAll(Fresh(soPath), ds).traceFlags == -1
    decreases |ds|
  {
    if ds == [] {
      assert c.preload + [] == c.preload;
    } else {
      var c1, v1, rest := Configure(c, ds[0]), Configure(Fresh(soPath), ds[0]), ConfigureAll(Fresh(soPath), ds[1..]);
      DirectivesOverlay(c1, soPath, ds[1..]);
      DirectivesOverlay(v1, soPath, ds[1..]);
      TracesFirst(ds);
      FirstOverlays(c, soPath, ds[0]);
      assert c1.preload + rest.preload == c.preload + (v1.preload + rest.preload);
    }
  }

  lemma FirstOverlays(c: Cfg, soPath: Option<string>, d: Directive)
    ensures Overlays(Configure(c, d), c, Configure(Fresh(soPath), d), [d])
  {
    assert c.preload + [] == c.preload;
    assert [d][0] == d;
  }

  lemma TracesFirst(ds: seq<Directive>)
    requires ds != []
    ensures Traces(ds) <==> ds[0].ParrotTrace? || Traces(ds[1..])
  {
    if Traces(ds[1..]) {
      var i :| 0 <= i < |ds[1..]| && ds[1..][i].ParrotTrace?;
      assert ds[i + 1].ParrotTrace?;
    }
    if i :| 0 <= i < |ds| && ds[i].ParrotTrace? && i > 0 {
      assert ds[1..][i - 1].ParrotTrace?;
    }
  }

  lemma {:induction false} ConfigureInTurn(c: Cfg, ds: seq<Directive>, ds': seq<Directive>)
    ensures ConfigureAll(c, ds + ds') == ConfigureAll(ConfigureAll(c, ds), ds')
    decreases |ds|
  {
    if ds == [] {
      assert ds + ds' == ds';
    } else {
      assert (ds + ds')[0] == ds[0] && (ds + ds')[1..] == ds[1..] + ds';
      ConfigureInTurn(Configure(c, ds[0]), ds[1..], ds');
    }
  }

  /** What merging means.  Options aside, a virtual host without Parent is configured as if
      the server's directives stood before its own: paths as set last, files to load in that
      order.  The trace flags are too, unless the virtual host sets them to -1, the mark for
      "unspecified", over a server that has others.  With Parent the same holds of the init
      path, and everything else is as if the server had no directives. */
  lemma MergeMeansInheriting(soPath: Option<string>, baseDs: seq<Directive>, ds: seq<Directive>)
    ensures var (b, v) := (ConfigureAll(Fresh(soPath), baseDs), ConfigureAll(Fresh(soPath), ds));
            var (m, both) := (Merge(b, v), ConfigureAll(Fresh(soPath), baseDs + ds));
            && m.initPath == both.initPath
            && (Parent !in Recalc(v).option ==>
                  && m.includePath == both.includePath && m.libPath == both.libPath && m.dynextPath == both.dynextPath
                  && m.preload == both.preload
                  && (m.traceFlags == both.traceFlags <==> !(Traces(ds) && v.traceFlags == -1 && b.traceFlags != -1)))
            && (Parent in Recalc(v).option ==>
                  && m.includePath == v.includePath && m.libPath == v.libPath && m.dynextPath == v.dynextPath
                  && m.preload == v.preload && m.traceFlags == v.traceFlags)
  {
    ConfigureInTurn(Fresh(soPath), baseDs, ds);
    DirectivesOverlay(ConfigureAll(Fresh(soPath), baseDs), soPath, ds);
  }

  // ---------------------------------------------------------------- in place

  class SrvConfig {
    var ctxPool: Option<nat>
    var initPath: Option<string>
    var traceFlags: int
    var enable: Flags
    var disable: Flags
    var option: Flags
    var includePath: Option<string>
    var libPath: Option<string>
    var dynextPath: Option<string>
    var soPath: Option<string>
    var preload: seq<string>

    /** create_modparrot_srv_config */
    constructor (soPath: Option<string>)
      ensures Val() == Fresh(soPath)
    {
      ctxPool, traceFlags := None, -1;
      enable, disable, option := {}, {}, {Enable};
      initPath, preload, includePath, libPath, dynextPath := None, [], None, None, None;
      this.soPath := soPath;
    }

    function Val(): Cfg
      reads this
    {
      Cfg(ctxPool, initPath, traceFlags, enable, disable, option, includePath, libPath, dynextPath, soPath, preload)
    }

    /** modparrot_cmd_trace, load, init, include_path, lib_path, dynext_path; flags is what atoi
        makes of the argument. */
    method Command(d: Directive)
      modifies `traceFlags, `preload, `initPath, `includePath, `libPath, `dynextPath, `enable, `disable, `option
      ensures Val() == Configure(old(Val()), d)
    {
      match d
      case ParrotTrace(flags) => traceFlags := flags;
      case ParrotLoad(path) => preload := preload + [path];
      case ParrotInit(path) => initPath := Some(path);
      case ParrotIncludePath(path) => includePath := Some(path);
      case ParrotLibPath(path) => libPath := Some(path);
      case ParrotDynextPath(path) => dynextPath := Some(path);
      case ParrotOptions(arg) =>
        var _ := CmdOptions(arg);
    }

    /** modparrot_recalc_options */
    method RecalcOptions()
      modifies `option
      ensures Val() == Recalc(old(Val()))
    {
      option := option + enable;
      option := option - disable;
    }

    /** modparrot_set_option */
    method SetOption(name: string, plus: bool) returns (known: bool)
      modifies `enable, `disable, `option
      ensures known <==> OptionNamed(name).Some?
      ensures known <==> exists o :: Spells(name, o)
      ensures Val() == match OptionNamed(name)
                       case None => old(Val())
                       case Some(o) => if plus then Recalc(old(Val()).(enable := old(enable) + {o}))
                                       else Recalc(old(Val()).(disable := old(disable) + {o}))
    {
      NamedIff(name);
      var bit: Flags;
      if Begins(name, "Parent") {
        bit := {Parent};
      } else if Begins(name, "Enable") {
        bit := {Enable};
      } else if Begins(name, "TraceInit") {
        bit := {TraceInit};
      } else {
        return false;
      }
      if plus {
        enable := enable + bit;
      } else {
        disable := disable + bit;
      }
      RecalcOptions();
      known := true;
    }

    /** modparrot_cmd_options */
    method CmdOptions(arg: string) returns (errmsg: Option<string>)
      modifies `enable, `disable, `option
      ensures Val() == Apply(old(Val()), arg)
      ensures errmsg.None? <==> exists o :: Asks(arg, '+', o) || Asks(arg, '-', o)
      ensures errmsg.Some? ==>
                errmsg.value == if arg != "" && (arg[0] == '+' || arg[0] == '-') then "unknown option '" + arg[1..] + "'"
                                else "missing +/- modifier for option '" + arg + "'"
    {
      hide Asks, Spells, OptionNamed;
      ErrorText(arg);
      if arg == "" || (arg[0] != '+' && arg[0] != '-') {
        return Some("missing +/- modifier for option '" + arg + "'");
      }
      var name := arg[1..];
      var known := SetOption(name, arg[0] == '+');
      errmsg := if known then None else Some("unknown option '" + name + "'");
    }

    /** The option merge, once both inputs are recalculated. */
    method TakeOptions(base: SrvConfig, vhost: SrvConfig)
      requires this != base && this != vhost
      modifies `option
      ensures option == if Parent in vhost.option then vhost.option
                        else (base.option + vhost.enable) - vhost.disable
    {
      if Parent in vhost.option {
        option := vhost.option;
      } else {
        option := base.option;
        option := option + vhost.enable;
        option := option - vhost.disable;
      }
    }

    /** The rest of the merge when the virtual host has Parent on. */
    method TakeOwn(vhost: SrvConfig)
      requires this != vhost
      modifies `traceFlags, `preload, `includePath, `libPath, `dynextPath
      ensures Val() == old(Val()).(traceFlags := vhost.traceFlags, preload := vhost.preload,
                                   includePath := vhost.includePath, libPath := vhost.libPath,
                                   dynextPath := vhost.dynextPath)
    {
      traceFlags := vhost.traceFlags;
      preload := vhost.preload;
      includePath := vhost.includePath;
      libPath := vhost.libPath;
      dynextPath := vhost.dynextPath;
    }

    /** The rest of the merge when it has not: override the scalars, concatenate the list. */
    method TakeBoth(base: SrvConfig, vhost: SrvConfig)
      requires this != base && this != vhost
      modifies `traceFlags, `preload, `includePath, `libPath, `dynextPath
      ensures Val() == old(Val()).(
                         traceFlags := if vhost.traceFlags != -1 then vhost.traceFlags else base.traceFlags,
                         preload := base.preload + vhost.preload,
                         includePath := if vhost.includePath.Some? then vhost.includePath else base.includePath,
                         libPath := if vhost.libPath.Some? then vhost.libPath else base.libPath,
                         dynextPath := if vhost.dynextPath.Some? then vhost.dynextPath else base.dynextPath)
    {
      includePath := if vhost.includePath.Some? then vhost.includePath else base.includePath;
      libPath := if vhost.libPath.Some? then vhost.libPath else base.libPath;
      dynextPath := if vhost.dynextPath.Some? then vhost.dynextPath else base.dynextPath;
      traceFlags := if vhost.traceFlags != -1 then vhost.traceFlags else base.traceFlags;
      preload := base.preload;
      preload := preload + vhost.preload;
    }

    /** merge_modparrot_srv_config; base and vhost come out recalculated. */
    static method MergeConfigs(base: SrvConfig, vhost: SrvConfig) returns (merged: SrvConfig)
      modifies base`option, vhost`option
      ensures fresh(merged) && merged.Val() == Merge(old(base.Val()), old(vhost.Val()))
      ensures base.Val() == Recalc(old(base.Val())) && vhost.Val() == Recalc(old(vhost.Val()))
    {
      RecalcNoopIff(base.Val());
      base.RecalcOptions();
      vhost.RecalcOptions();
      merged := Combine(base, vhost);
    }

    static method Combine(base: SrvConfig, vhost: SrvConfig) returns (merged: SrvConfig)
      ensures fresh(merged) && merged.Val() == Merged(base.Val(), vhost.Val())
    {
      merged := new SrvConfig(None);
      merged.TakeOptions(base, vhost);
      merged.initPath := if vhost.initPath.Some? then vhost.initPath else base.initPath;
      if Parent in vhost.option {
        merged.TakeOwn(vhost);
      } else {
        merged.TakeBoth(base, vhost);
      }
    }
  }
}
