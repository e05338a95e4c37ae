/**
 * The part of the dependency-injection library the container relies on:
 * modules of named providers, the root injector built once at boot, the
 * per-call child injectors, and the lookup rule they follow. The library
 * itself is not part of this model; its lookup rule is stated here as an
 * assumption (a name resolves from the child's own module first and
 * otherwise from its parent, but only when it is one of the inherited names).
 */
module Injection {
  import opened Values

  /** A di `Module`: name to provider. Registering a name again replaces it. */
  type Module = map<string, Provider>

  /** The reserved name under which a call's outcome is offered to postconditions. */
  const OutcomeName: string := "$outcome"

  /** An injector: the root built from the boot modules, or a child made by
      `createChild([module], inherited)` on a parent. */
  datatype Injector =
    | Root(providers: Module)
    | Child(parent: Injector, local: Module, inherited: set<string>)

  /** The names an injector can resolve under the assumed lookup rule. */
  function VisibleNames(inj: Injector): set<string> {
    match inj
    case Root(m) => m.Keys
    case Child(parent, local, inherited) => local.Keys + (inherited * VisibleNames(parent))
  }

  /** Looks `name` up: own module first, then the parent for inherited names only. */
  function Resolve(inj: Injector, name: string): (p: Option<Provider>)
    ensures p.Some? <==> name in VisibleNames(inj)
    ensures inj.Child? && name in inj.local ==> p == Some(inj.local[name])
    ensures inj.Child? && name !in inj.local && name !in inj.inherited ==> p == None
  {
    match inj
    case Root(m) => if name in m then Some(m[name]) else None
    case Child(parent, local, inherited) =>
      if name in local then Some(local[name])
      else if name in inherited then Resolve(parent, name)
      else None
  }

  /** `m` is the boot module of context `ctx` for plugin names `names`: one
      provider per plugin name and no other, each the classification of the
      context value under that name. */
  ghost predicate IsBootModule(m: Module, names: set<string>, ctx: Context) {
    && m.Keys == names
    && forall k :: k in m ==> m[k] == Classify(ContextValue(ctx, k))
  }

  /** `m` holds exactly the entries of `args`, each as a value provider. */
  ghost predicate IsArgsModule(m: Module, args: map<string, Val>) {
    && m.Keys == args.Keys
    && forall k :: k in m ==> m[k] == Value(args[k])
  }

  /** The venue of preconditions and main: a child of `root` whose own module is
      the call's arguments and which inherits `names`. */
  ghost predicate IsCallVenue(v: Injector, root: Injector, args: map<string, Val>, names: set<string>) {
    && v.Child?
    && v.parent == root
    && v.inherited == names
    && IsArgsModule(v.local, args)
  }

  /** The venue of postconditions: like the call venue, with `$outcome` bound to
      `outcome` on top of the arguments. */
  ghost predicate IsOutcomeVenue(v: Injector, root: Injector, args: map<string, Val>,
                                 names: set<string>, outcome: Val) {
    && v.Child?
    && v.parent == root
    && v.inherited == names
    && v.local.Keys == args.Keys + {OutcomeName}
    && v.local[OutcomeName] == Value(outcome)
    && forall k :: k in args && k != OutcomeName ==> v.local[k] == Value(args[k])
  }

  /** The boot-time loop: every key of the plugin configuration becomes a
      factory provider when the context value under it is a function and a
      value provider otherwise. Context entries outside the configuration get
      no provider; configuration keys missing from the context get the value
      provider of `undefined`. */
  method BuildRootModule(config: map<string, Val>, ctx: Context) returns (m: Module)
    ensures m.Keys == config.Keys
    ensures forall k :: k in m ==> m[k] == Classify(ContextValue(ctx, k))
  {
    m := map[];
    var pending := config.Keys;
    while pending != {}
      invariant pending <= config.Keys
      invariant m.Keys == config.Keys - pending
      invariant forall k :: k in m ==> m[k] == Classify(ContextValue(ctx, k))
      decreases pending
    {
      var pName :| pName in pending;
      if IsFunction(ContextValue(ctx, pName)) {
        m := m[pName := Factory(ContextValue(ctx, pName))];
      } else {
        m := m[pName := Value(ContextValue(ctx, pName))];
      }
      pending := pending - {pName};
    }
  }

  /** The per-call loop: every argument becomes a value provider of the call's
      own module. */
  method BuildArgsModule(args: map<string, Val>) returns (m: Module)
    ensures m.Keys == args.Keys
    ensures forall k :: k in m ==> m[k] == Value(args[k])
  {
    m := map[];
    var pending := args.Keys;
    while pending != {}
      invariant pending <= args.Keys
      invariant m.Keys == args.Keys - pending
      invariant forall k :: k in m ==> m[k] == Value(args[k])
      decreases pending
    {
      var arg :| arg in pending;
      m := m[arg := Value(args[arg])];
      pending := pending - {arg};
    }
  }

  /** After a boot the root resolves exactly the plugin names, each to the
      classification of its context value; a name bound only in the context
      does not resolve. */
  lemma RootResolvesPlugins(m: Module, names: set<string>, ctx: Context, x: string)
    requires IsBootModule(m, names, ctx)
    ensures Resolve(Root(m), x).Some? <==> x in names
    ensures x in names ==> Resolve(Root(m), x) == Some(Classify(ContextValue(ctx, x)))
  {
  }

  /** In a call venue an argument resolves to its own value, a plugin name that
      no argument shadows resolves as in the root, and every other name does
      not resolve. */
  lemma CallVenueLookup(v: Injector, root: Injector, args: map<string, Val>,
                        names: set<string>, x: string)
    requires IsCallVenue(v, root, args, names)
    ensures x in args ==> Resolve(v, x) == Some(Value(args[x]))
    ensures x !in args && x in names ==> Resolve(v, x) == Resolve(root, x)
    ensures x !in args && x !in names ==> Resolve(v, x) == None
  {
  }

  /** In the postconditions venue `$outcome` resolves to the outcome (even when
      an argument had that name), and every other name resolves as it does in
      the call venue of the same arguments. */
  lemma OutcomeVenueLookup(v: Injector, w: Injector, root: Injector, args: map<string, Val>,
                           names: set<string>, outcome: Val, x: string)
    requires IsOutcomeVenue(v, root, args, names, outcome)
    requires IsCallVenue(w, root, args, names)
    ensures Resolve(v, OutcomeName) == Some(Value(outcome))
    ensures x != OutcomeName ==> Resolve(v, x) == Resolve(w, x)
  {
  }

  /** Two calls on the same root with different arguments: each resolves its
      own arguments to its own values, and a name bound only by the other call
      (and not a plugin name) is invisible to it. */
  lemma CallsAreIsolated(v1: Injector, v2: Injector, root: Injector,
                         args1: map<string, Val>, args2: map<string, Val>,
                         names: set<string>, x: string)
    requires IsCallVenue(v1, root, args1, names)
    requires IsCallVenue(v2, root, args2, names)
    ensures x in args1 ==> Resolve(v1, x) == Some(Value(args1[x]))
    ensures x in args2 ==> Resolve(v2, x) == Some(Value(args2[x]))
    ensures x in args2 && x !in args1 && x !in names ==> Resolve(v1, x) == None
    ensures x !in args1 && x !in args2 ==> Resolve(v1, x) == Resolve(v2, x)
  {
  }

  /** Anything a child of the booted root resolves that is not one of its own
      bindings is a boot provider: it carries the context value of that plugin
      unchanged, as a factory exactly when that value is a function. */
  lemma InheritedFromBoot(v: Injector, m: Module, names: set<string>,
                          ctx: Context, x: string)
    requires IsBootModule(m, names, ctx)
    requires v.Child? && v.parent == Root(m)
    requires Resolve(v, x).Some?
    requires x !in v.local
    ensures x in names && x in v.inherited
    ensures Resolve(v, x).value.carried == ContextValue(ctx, x)
    ensures Resolve(v, x).value.Factory? <==> IsFunction(ContextValue(ctx, x))
  {
  }
}
