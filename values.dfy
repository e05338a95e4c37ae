/**
 * JavaScript values as the container sees them, the errors a boot or a call
 * can fail with, and the two kinds of provider a plugin value becomes.
 */
module Values {

  /** A JavaScript value. Only the distinction "is it a Function?" matters to
      the container; the other shapes are kept so that inputs can be written. */
  datatype Val =
    | Undefined
    | Null
    | Bool(b: bool)
    | Num(n: int)
    | Str(s: string)
    | Func(name: string)   // anything for which `instanceof Function` holds
    | Obj(id: nat)         // any other object, by identity

  /** `v instanceof Function` */
  predicate IsFunction(v: Val) {
    v.Func?
  }

  /** Why a boot, a hook or a call failed. */
  datatype Error =
    | Rejected(reason: Val)           // a collaborator threw or its promise rejected with `reason`
    | Timeout(message: string)        // the boot timer fired before the plugins resolved
    | NullDereference(field: string)  // a TypeError: a property was read from `null`

  /** The settled state of a promise. */
  datatype Result<T> = Success(value: T) | Failure(error: Error)

  datatype Option<T> = None | Some(value: T)

  /** The resolved boot context: plugin name to resolved instance. */
  type Context = map<string, Val>

  /** `context[name]`: a missing property reads as `undefined`. */
  function ContextValue(ctx: Context, name: string): Val {
    if name in ctx then ctx[name] else Undefined
  }

  /** A binding in a di module: `module.factory(name, fn)` or `module.value(name, v)`.
      Both carry the value they were registered with. */
  datatype Provider = Factory(carried: Val) | Value(carried: Val)

  /** The classification applied to every plugin at boot: a function becomes a
      factory provider, anything else a value provider, and the provider carries
      the context value unchanged. */
  function Classify(v: Val): (p: Provider)
    ensures p.Factory? <==> IsFunction(v)
    ensures p.Value? <==> !IsFunction(v)
    ensures p.carried == v
  {
    if v.Func? then Factory(v) else Value(v)
  }
}
