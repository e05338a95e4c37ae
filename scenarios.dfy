/**
 * Clients of the container that use only the contracts: a boot followed by
 * calls whose outcome follows from the lookup rule and the call sequencing.
 */
module Scenarios {
  import opened Values
  import opened Injection
  import opened Lifecycle

  /** A main hook that adds its dependencies `a` and `b`. */
  function AddAB(inj: Injector): Result<Val> {
    match (Resolve(inj, "a"), Resolve(inj, "b"))
    case (Some(Value(Num(x))), Some(Value(Num(y)))) => Success(Num(x + y))
    case _ => Failure(Rejected(Str("unresolved")))
  }

  /** A postconditions hook that accepts only the outcome 3. */
  function OutcomeIsThree(inj: Injector): Result<Val> {
    if Resolve(inj, OutcomeName) == Some(Value(Num(3))) then Success(Undefined)
    else Failure(Rejected(Str("bad outcome")))
  }

  /** A preconditions hook that always fails. */
  function Refuse(inj: Injector): Result<Val> {
    Failure(Rejected(Str("refused")))
  }

  function Succeed(inj: Injector): Result<Val> {
    Success(Undefined)
  }

  /** Boots a container with one plugin and runs `main = a + b` on the
      arguments a = 1, b = 2: postconditions see `$outcome = 3`, so the call
      returns 3. With failing preconditions the same call fails with their
      error and main never runs. */
  method SumOfArguments() returns (sum: Result<Val>, refused: Result<Val>, refusedTrace: seq<Invocation>)
    ensures sum == Success(Num(3))
    ensures refused == Failure(Rejected(Str("refused")))
    ensures forall i :: 0 <= i < |refusedTrace| ==> refusedTrace[i].phase != Main
  {
    var program := Program((c: Config) => c, Succeed, Succeed, Succeed, AddAB, OutcomeIsThree, false, true);
    var container := new Container(program);
    container.AddPlugin("clock", Func("clock"));
    var boot := container.Init((c: Config) => Resolved(map["clock" := Func("now")]));
    var args := map["a" := Num(1), "b" := Num(2)];
    var trace;
    sum, trace := container.Execute(args);
    CallVenueLookup(trace[0].venue, container.injector.value, args, container.pluginConfig.Keys, "a");
    CallVenueLookup(trace[0].venue, container.injector.value, args, container.pluginConfig.Keys, "b");
    assert AddAB(trace[0].venue) == Success(Num(3));
    OutcomeVenueLookup(trace[1].venue, trace[0].venue, container.injector.value, args,
                       container.pluginConfig.Keys, Num(3), OutcomeName);

    var guarded := new Container(Program((c: Config) => c, Succeed, Succeed, Refuse, AddAB, OutcomeIsThree, true, true));
    boot := guarded.Init((c: Config) => Resolved(map[]));
    refused, refusedTrace := guarded.Execute(args);
  }
}
