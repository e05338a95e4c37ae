# Container lifecycle orchestrator, modelled in Dafny

This project models the `Container` of `src/container.js`. It is the runtime that
collects named plugins, boots them into a root dependency-injection injector, and
then runs each call's lifecycle on an injector scoped to that call:
preconditions, then main, then postconditions.

- `values.dfy` (module `Values`) holds the JavaScript values the container handles.
  It also holds the errors a boot or a call can fail with, the two provider kinds
  (`Factory`, `Value`), and `Classify`, the boot-time rule that picks a provider
  kind by `instanceof Function`.
- `injection.dfy` (module `Injection`) covers what the container needs from the
  `di` library:
  - modules as name-to-provider maps;
  - the root injector and child injectors;
  - the child lookup rule;
  - the two loops that fill modules (`BuildRootModule` for `init`, `BuildArgsModule` for `execute`).

  The lookup rule is an assumption, because the library is not part of this model:
  a child resolves a name from its own module first. Otherwise it asks its parent,
  but only when the name is one of its inherited names.
- `container.dfy` (module `Lifecycle`) holds the class `Container` with its fields
  `pluginConfig`, `context` and `injector`, and the operations `AddPlugin`, `Init`,
  `Destroy` and `Execute`.
  - `Execute` returns the call's result together with a record of which hooks ran,
    in order, and on which injector. That record is how the model observes
    "main is never invoked".
- `scenarios.dfy` (module `Scenarios`) is a client that uses only the contracts.
  It boots a container and runs `main = a + b` on `{a: 1, b: 2}`. The result is 3,
  and a postconditions hook that reads `$outcome` sees 3. With failing
  preconditions the same call fails with their error, and main never runs.

External collaborators are parameters:
- Plugin resolution (`wire` raced against the boot timer) is a function from the
  final configuration to `Resolved(context)`, `Failed(reason)` or `TimedOut`.
- The program's hooks are total functions from an injector to a settled result.
- `configure` is the change it makes to the plugin configuration.
- The context's own teardown is a parameter of `Destroy`.
- Promises are modelled as sequential results.

The model follows the code as written:
- `destroy` does not clear the context or the injector, and it is not made idempotent.
- `init` has no guard against a second call.
- Boot errors are passed through as they are: the timeout error carries the source's
  message, and a resolver rejection carries its reason. There are no separate
  `BootTimeout`, `BootFailure` or `PreconditionFailed` error types.
- The names a call inherits are `Object.keys(pluginConfig)` read at call time.
  Plugins added after `init` are inherited by name, but they get no root provider.
- A configured plugin that is missing from the resolved context becomes the value
  provider of `undefined`.
- `execute` on a container that never booted fails because it reads
  `createChild` from `null`.

## Model

| member | source | states |
|---|---|---|
| Values.Classify | src/container.js:39-43 | a plugin value becomes a factory provider exactly when it is a function and a value provider otherwise, and the provider carries the value unchanged |
| Injection.Resolve | src/container.js:91-93 | under the assumed child rule, a name resolves exactly when it is visible: own bindings shadow the parent, and a name neither bound locally nor inherited does not resolve |
| Injection.BuildRootModule | src/container.js:35-45 | the boot loop yields exactly one provider per configured plugin name and no other, each the classification of the context value under that name |
| Injection.BuildArgsModule | src/container.js:75-84 | the call loop yields exactly the entries of the arguments, each as a value provider |
| Injection.RootResolvesPlugins | src/container.js:38-47 | the booted root resolves exactly the plugin names, each to the classification of its context value; context-only names do not resolve |
| Injection.CallVenueLookup | src/container.js:91-93 | in the call's child injector an argument resolves to its own value, an unshadowed plugin name resolves as in the root, and any other name does not resolve |
| Injection.OutcomeVenueLookup | src/container.js:104-111 | in the postconditions injector `$outcome` resolves to main's outcome, even over an argument of that name, and every other name resolves as in the call's first injector |
| Injection.CallsAreIsolated | src/container.js:75-93 | two calls on the same root each resolve their own arguments to their own values, and a non-plugin name bound only by one call is unresolvable in the other |
| Injection.InheritedFromBoot | src/container.js:38-44 | whatever a child of the booted root resolves from its parent is a plugin name, carries that plugin's context value unchanged, and is a factory exactly when that value is a function |
| Lifecycle.Container.constructor | src/container.js:10-15 | a new container has an empty plugin configuration and no context or injector |
| Lifecycle.Container.AddPlugin | src/container.js:17-19 | the configuration gains `name` mapped to `impl`, replacing an earlier entry, and every other entry is unchanged |
| Lifecycle.Container.Init | src/container.js:21-59 | configure runs first and its configuration is what gets resolved; a timeout or a rejection fails the boot with that error and leaves the context and injector as they were; on success the context is stored, the root has one classified provider per plugin name, and the result is setup's result on that root |
| Lifecycle.Container.Destroy | src/container.js:61-67 | without a context it returns nothing; otherwise it returns the context's own teardown; no field changes |
| Lifecycle.Container.Execute | src/container.js:73-117 | preconditions run first exactly when present, on a child holding exactly the arguments and inheriting the plugin names; their failure is the call's failure and main never runs; main runs once on the same child; its failure skips postconditions; postconditions run exactly when present, on a fresh child that also binds `$outcome`; the call returns main's outcome unless postconditions fail, and then it returns their error; on a booted container whatever a call's injectors take from the root carries that plugin's context value, as a factory exactly for functions |
| Scenarios.SumOfArguments | src/container.js:96-114 | with main adding `a` and `b`, the call on `{a: 1, b: 2}` returns 3 with postconditions reading `$outcome`; with failing preconditions the call fails with their error and main is not invoked |

## Left out

- Plugin resolution by `wire` and the bluebird timer race (src/container.js:26-30). They are an external asynchronous library and a clock; their settled result is an input, and the timeout number itself does not appear.
- The internals of the `di` library: `Injector`, `Module`, `createChild`, and the memoization of factory instances. The child lookup rule is stated as an assumption, and factories are never invoked in the model. So "a plugin factory runs at most once" is not modelled.
- `annotation.parse` and the `$inject` decoration of the hooks (src/container.js:50-54). They are reflection over function source text. Hooks receive the injector itself, so unresolved dependencies and the `teardown` hook play no part.
- `Program` and its construction from `nodeModule`. The program is a constructor parameter. `hasPreconditions` and `hasPostconditions` are fixed booleans, and `setup` does not receive the program as `this`.
- `log` (src/container.js:69-71): console output.
- Interleaving of pending promises: between separate `execute` calls, and between `init` and anything else. `init` sets `context` (src/container.js:32) and only one promise step later `injector` (src/container.js:47); the model's `Init` does both in one step, so a call or a `destroy` that observes the context without the injector is not modelled. Each call is likewise one sequential step.
- A `configure` hook or a loop step that throws synchronously. These are total functions here.
- JavaScript property lookup through prototypes.
  - `for…in` and `context[pName]` can also see inherited properties.
  - The model reads only own entries.
