/**
 * The container: it collects plugin configuration, boots it into a root
 * injector once, and runs each call's preconditions, main and postconditions
 * on injectors scoped to that call.
 */
module Lifecycle {
  import opened Values
  import opened Injection

  /** Plugin name to plugin specification, as handed to the plugin resolver. */
  type Config = map<string, Val>

  /** How the plugin resolver's race against the boot timer settles. */
  datatype Boot = Resolved(context: Context) | Failed(reason: Val) | TimedOut

  /** The message of the error the boot fails with when the timer wins. */
  const BootTimeoutMessage: string :=
    "The context failed to boot in a timely fashion. Check your plugins and box connectivity"

  /** A lifecycle hook invoked through an injector, which supplies its
      dependencies; it settles with a value or an error. */
  type Hook = Injector -> Result<Val>

  /** The program the container runs: its hooks and whether the optional
      phases are present. `configure` receives the container and may change
      its plugin configuration; here it is the change it makes. */
  datatype Program = Program(
    configure: Config -> Config,
    setup: Hook,
    teardown: Hook,
    preconditions: Hook,
    main: Hook,
    postconditions: Hook,
    hasPreconditions: bool,
    hasPostconditions: bool)

  /** The phases of one call, and a record of one hook invocation and the
      injector it ran on. */
  datatype Phase = Preconditions | Main | Postconditions
  datatype Invocation = Invocation(phase: Phase, venue: Injector)

  /** Preconditions are present and fail on `venue`. */
  predicate PreconditionsFail(p: Program, venue: Injector) {
    p.hasPreconditions && p.preconditions(venue).Failure?
  }

  /** Where main stands in a call's record of invocations. */
  function MainAt(p: Program): nat {
    if p.hasPreconditions then 1 else 0
  }

  class Container {
    const program: Program
    var pluginConfig: Config
    var context: Option<Context>
    var injector: Option<Injector>

    /** A context is held exactly when a root injector is, and that root
        injector's module classifies the context's values. */
    ghost predicate Valid()
      reads this
    {
      && (context.None? <==> injector.None?)
      && (injector.Some? ==>
            && injector.value.Root?
            && IsBootModule(injector.value.providers, injector.value.providers.Keys, context.value))
    }

    /** A new container has no plugins, no context and no injector. */
    constructor (program: Program)
      ensures Valid()
      ensures this.program == program
      ensures pluginConfig == map[] && context == None && injector == None
    {
      this.program := program;
      pluginConfig := map[];
      context := None;
      injector := None;
    }

    /** Registers `impl` under `name`, replacing an earlier entry of that name
        and leaving every other entry as it was. */
    method AddPlugin(name: string, impl: Val)
      requires Valid()
      modifies this`pluginConfig
      ensures Valid()
      ensures pluginConfig.Keys == old(pluginConfig).Keys + {name}
      ensures name in pluginConfig && pluginConfig[name] == impl
      ensures forall k :: k in old(pluginConfig) && k != name ==> pluginConfig[k] == old(pluginConfig)[k]
    {
      pluginConfig := pluginConfig[name := impl];
    }

    /** Boots the container. `configure` runs first, against the container;
        the now-final configuration is resolved; on success the context is
        stored, the root injector is built from it with one provider per
        configured plugin, and `setup` runs on that injector, its result being
        the result of the boot. A boot that times out or fails leaves the
        context and the injector as they were. Calling it again is not guarded
        against. */
    method Init(wire: Config -> Boot) returns (r: Result<Val>)
      requires Valid()
      modifies this`pluginConfig, this`context, this`injector
      ensures Valid()
      ensures pluginConfig == program.configure(old(pluginConfig))
      ensures wire(pluginConfig).TimedOut? ==>
                && r == Failure(Timeout(BootTimeoutMessage))
                && context == old(context) && injector == old(injector)
      ensures wire(pluginConfig).Failed? ==>
                && r == Failure(Rejected(wire(pluginConfig).reason))
                && context == old(context) && injector == old(injector)
      ensures wire(pluginConfig).Resolved? ==>
                && context == Some(wire(pluginConfig).context)
                && injector.Some? && injector.value.Root?
                && IsBootModule(injector.value.providers, pluginConfig.Keys, context.value)
                && r == program.setup(injector.value)
    {
      pluginConfig := program.configure(pluginConfig);
      var boot := wire(pluginConfig);
      match boot
      case TimedOut =>
        r := Failure(Timeout(BootTimeoutMessage));
      case Failed(reason) =>
        r := Failure(Rejected(reason));
      case Resolved(ctx) =>
        context := Some(ctx);
        var bootModule := BuildRootModule(pluginConfig, ctx);
        injector := Some(Root(bootModule));
        r := program.setup(Root(bootModule));
    }

    /** Tears the boot context down through `destroyContext`, the context's own
        teardown. Without a context it returns nothing and does nothing. It
        changes no field: the context and the injector stay in place. */
    method Destroy(destroyContext: Context -> Result<Val>) returns (r: Option<Result<Val>>)
      ensures context.None? <==> r.None?
      ensures context.Some? ==> r == Some(destroyContext(context.value))
    {
      if context.None? {
        return None;
      }
      r := Some(destroyContext(context.value));
    }

    /** Runs one call. The call's arguments become a module of value
        providers on a child of the root injector that inherits the plugin
        names; preconditions (when present) and then main run on it. A failure
        of preconditions ends the call with that failure before main runs; a
        failure of main ends it before postconditions. After main, `$outcome`
        is bound to main's result on top of the arguments, and postconditions
        (when present) run on a second, fresh child of the root built from that
        module; if they fail the call fails with their error and the outcome
        is withheld, otherwise the call returns main's outcome. `trace` records
        which hooks ran, in order, and on which injector. Without a root
        injector the call fails reading `createChild` from `null`. */
    method Execute(args: map<string, Val>) returns (r: Result<Val>, trace: seq<Invocation>)
      ensures injector.None? ==> r == Failure(NullDereference("createChild")) && trace == []
      ensures injector.Some? ==>
                |trace| >= 1 && IsCallVenue(trace[0].venue, injector.value, args, pluginConfig.Keys)
      // preconditions run first exactly when present, and at most once
      ensures injector.Some? ==> (trace[0].phase == Preconditions <==> program.hasPreconditions)
      ensures forall i :: 0 < i < |trace| ==> trace[i].phase != Preconditions
      // their failure is the call's failure, and nothing runs after them
      ensures injector.Some? && PreconditionsFail(program, trace[0].venue) ==>
                && trace == [trace[0]]
                && r == Failure(program.preconditions(trace[0].venue).error)
      // otherwise main runs once, on the same injector
      ensures injector.Some? && !PreconditionsFail(program, trace[0].venue) ==>
                && |trace| > MainAt(program)
                && trace[MainAt(program)] == Invocation(Main, trace[0].venue)
      ensures forall i :: 0 <= i < |trace| && trace[i].phase == Main ==> i == MainAt(program)
      // a failing main is the call's failure, and postconditions do not run
      ensures injector.Some? && !PreconditionsFail(program, trace[0].venue)
              && program.main(trace[0].venue).Failure? ==>
                && |trace| == MainAt(program) + 1
                && r == Failure(program.main(trace[0].venue).error)
      // after a successful main: postconditions exactly when present, on the
      // venue that offers `$outcome`; their failure withholds the outcome
      ensures injector.Some? && !PreconditionsFail(program, trace[0].venue)
              && program.main(trace[0].venue).Success? ==>
                var outcome := program.main(trace[0].venue).value;
                var at := MainAt(program) + 1;
                if program.hasPostconditions then
                  && |trace| == at + 1
                  && trace[at].phase == Postconditions
                  && IsOutcomeVenue(trace[at].venue, injector.value, args, pluginConfig.Keys, outcome)
                  && r == (if program.postconditions(trace[at].venue).Failure?
                           then Failure(program.postconditions(trace[at].venue).error)
                           else Success(outcome))
                else
                  |trace| == at && r == Success(outcome)
      // on a booted container, whatever a call's injectors take from the root
      // is a plugin's context value, as a factory exactly for functions
      ensures Valid() && context.Some? ==>
                forall i, x :: 0 <= i < |trace| && trace[i].venue.Child? && x !in trace[i].venue.local
                               && Resolve(trace[i].venue, x).Some? ==>
                  && Resolve(trace[i].venue, x).value.carried == ContextValue(context.value, x)
                  && (Resolve(trace[i].venue, x).value.Factory? <==> IsFunction(ContextValue(context.value, x)))
      // a successful call returns exactly main's outcome
      ensures r.Success? ==>
                && injector.Some? && |trace| > MainAt(program)
                && r == program.main(trace[MainAt(program)].venue)
    {
      if injector.None? {
        return Failure(NullDereference("createChild")), [];
      }
      var root := injector.value;
      var callModule := BuildArgsModule(args);
      var executionVenue := Child(root, callModule, pluginConfig.Keys);
      trace := [];
      if program.hasPreconditions {
        trace := trace + [Invocation(Preconditions, executionVenue)];
        var pre := program.preconditions(executionVenue);
        if pre.Failure? {
          return Failure(pre.error), trace;
        }
      }
      trace := trace + [Invocation(Main, executionVenue)];
      var main := program.main(executionVenue);
      if main.Failure? {
        return Failure(main.error), trace;
      }
      var outcome := main.value;
      callModule := callModule[OutcomeName := Value(outcome)];
      if program.hasPostconditions {
        var postVenue := Child(root, callModule, pluginConfig.Keys);
        trace := trace + [Invocation(Postconditions, postVenue)];
        var post := program.postconditions(postVenue);
        if post.Failure? {
          return Failure(post.error), trace;
        }
      }
      r := Success(outcome);
    }
  }
}
