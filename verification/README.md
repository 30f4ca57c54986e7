# php-deferrable, modelled in Dafny

php-deferrable brings Go-style `defer` to PHP. A callback registered with
`defer` is pushed onto a *defer context*, a LIFO stack of `DeferCallback`
objects. The context is drained when the enclosing scope ends:

- `Defer::createContext()` gives a context that a function keeps in a local
  variable. It is drained by the context's destructor.
- `deferrable(...)` (src/Functions.php) and
  `Deferrable::makeContextManipulator(...)` (src/Deferrable.php) give
  *deferrable scopes*: a function run at once, or a generated subclass whose
  methods drain in a `finally` block. The drain follows a failure policy:
  - **CONTINUABLE**: run every callback, collecting failures.
  - **BAILABLE**: stop at the first failure.

This project models that core and proves its behaviour.

- `common.dfy`, `php.dfy`: `Option`/`Result`, and the slice of PHP the engine
  relies on. Variables are heap cells, so by-reference arguments can alias
  them. Throwables are classified the way the engine's `catch` clauses see
  them: `RuntimeException`, "always bails", or ordinary.
- `callbacks.dfy`: closures as small effect scripts with by-reference and
  by-value parameters and `use` captures, and `DeferCallback` with `factory`
  and `__invoke`.
- `contexts.dfy`: `DeferContext` (construct, `defer`, `pop`, `__destruct`)
  and `Defer::createContext`. Against it stands an independent reference run,
  `InvokeAll`, which invokes every callback regardless of failures. The
  destructor is proved to be exactly the reference run cut after its first
  failure.
- `consuming.dfy`: `consume($scopeType)` with the CONTINUABLE and BAILABLE
  policies, proved against the same reference run.
- `bodies.dfy`: the body of a wrapped function or method. Its `defer`
  statements push onto the scope's context. Also a function holding its own
  `Defer::createContext()`.
- `global_registry.dfy`: the `$GLOBALS` registry of src/Functions.php,
  covering:
  - `createDeferContext`, `consumeDefers`, `defer`;
  - `deferrableFunction` and `deferrable`;
  - the wrapping method the generated subclass contains.
- `class_registry.dfy`: the static registry of src/Deferrable.php:
  - `getCurrentContext`, `createDeferContext`, `removeContext`, `defer`,
    `consumeDefers`;
  - the function and method wrappers;
  - the `makeContextManipulator` dispatch.
- `root_scopes.dfy`, `namespaced_scopes.dfy`: the two families of scope
  classes.
- `scenarios.dfy`: the behaviours the repository's test suites fix, one lemma
  per test, with echoed output as a trace of strings.

Object identity matters here: the registry, the wrapper and the body share
one context object. So contexts live in a `Store` keyed by identity, and
`new DeferContext` allocates a fresh key.

Where the source and its documentation differ, the model follows the source:

- **`pop` on an empty stack.** It throws `SplStack`'s `RuntimeException`,
  which `__destruct` swallows. The documentation describes an "empty"
  signal instead.
- **`consume` is not shown.** `DeferContext` has no `consume` method in the
  source. The behaviour the tests fix is:
  - BAILABLE lets the first failure escape unwrapped;
  - CONTINUABLE merges several ordinary failures into a
    `MergedDeferException`;
  - a failure implementing `DeferBailableExceptionInterface` escapes
    unwrapped under either policy.

  One more choice is the model's own, and no test observes it: when a
  failure escapes, the callbacks below it are discarded unrun and the
  context is left empty.
- **`consume()` without a policy.** src/Functions.php calls `consume()` with
  no scope type. The model takes this to mean CONTINUABLE, which is what
  tests 11 and 13 of tests/DeferDeferrableClassTest.php need.
- **`Defer::createContext()` takes no argument.** PHP drops the BAILABLE
  argument that `doSomething4` passes. As a result:
  - `doSomething4` and `doSomething5` of tests/DeferCreateContextClassTest.php
    both surface the `TestingContextException` deferred last;
  - the `MergedDeferException` that test 6 expects does not occur
    (`Scenarios.CreateContextFailures`).
- **The `PHPDeferrable\Scopes` classes cannot be declared as written.**
  `Scopes\AbstractDeferrableScope` implements
  `Contracts\DeferrableScopeInterface`, which declares a public
  `__construct(string)` and a static `factory`
  (src/Contracts/DeferrableScopeInterface.php:7-9). The class's constructor
  is protected and takes two parameters, and neither `Scopes\DeferBailableScope`
  nor `Scopes\DeferContinuableScope` declares `factory`, so PHP stops with a
  fatal error when either class is loaded. Their `getScopeType` also names
  `DeferrableScopeType` without a `use`, which resolves to a class of the
  `Scopes` namespace that does not exist. The `NamespacedScopes` module
  therefore models the method bodies of these classes as if they could be
  declared.
- **The BAILABLE method scope.** Test 10 of tests/DeferDeferrableClassTest.php
  passes a `Scopes\DeferBailableScope` built from a class path to
  `deferrable`. As written it dies when that class is loaded, as above; and
  were it loaded, src/Functions.php would reflect the scope object itself.
  The model states that test against the BAILABLE method scope of
  src/Deferrable.php (`Scenarios.BailableScopeStopsAtFirstFailure`).
- **Forwarded `defer` arguments.** Both registries spread the arguments of
  `defer` into `DeferContext::defer`, which declares only the callback and
  so drops them (see Findings). The scopes and scenarios below push through
  the corrected forwarding, which binds the callback to those arguments;
  `GlobalRegistry.DeferAsWritten` and `ClassRegistry.DeferAsWritten` keep
  the code as written.
- **Nested calls.** A deferrable call made while another runs resets the
  current name on its way out. The outer call's exit then drains the
  anonymous context, so the outer call's earlier defers stay pending. What
  happens to them depends on the nested call's name:
  - Under the same name (a method calling itself, or `deferrableFunction`
    inside `deferrableFunction`), the nested call replaces the outer
    call's entry. The pending defers run when the outer method returns
    and its local `$deferContext` is destroyed: `__destruct` invokes them,
    without the scope's drain policy
    (`GlobalRegistry.NestedCallSkipsOuterDrain`).
  - Under another name, the outer name stays bound to the outer context,
    which the definitions keep alive. Its defers run only when a later
    call under the outer name replaces that entry
    (`GlobalRegistry.NestedCallOtherNameKeepsOuterEntry`).
- **A class path given to `makeContextManipulator`.** The source builds its
  scope with a `factory` that no shown class declares. The model keeps that
  as-written branch beside the intended one (see Findings).

## Model

| member | source | states |
|---|---|---|
| `Callbacks.Factory` | src/DeferCallback.php:22-36 | the factory builds the callback the constructor would: the given closure bound to exactly the given argument cells |
| `Callbacks.Invoke` | src/DeferCallback.php:38-41 | invoking calls the stored closure with the stored arguments; too few arguments raise `ArgumentCountError`; output only grows |
| `Callbacks.ThrowPropagates` | src/DeferCallback.php:38-41 | nothing inside a call catches: a body that reaches `throw ex` raises exactly `ex` |
| `Callbacks.ByValueCallKeepsHeap` | src/DeferCallback.php:32-41 | a closure taking every parameter by value and capturing nothing by reference leaves every caller variable unchanged, whatever it assigns |
| `Callbacks.ByRefAssignmentVisible` | src/DeferCallback.php:32-41 | an assignment to a by-reference parameter changes the caller's variable, visible after the call |
| `Contexts.Construct` | src/DeferContext.php:8-11 | the context adopts the given stack, or starts empty when given `null` |
| `Contexts.CreateContext` | src/Defer.php:11-16 | `createContext` yields a context with an empty stack |
| `Contexts.Pop` | src/DeferContext.php:13-16 | `pop` fails exactly on the empty stack, with `RuntimeException`; otherwise deferring the popped callback onto the rest gives back the context |
| `Contexts.PopUndoesDefer` | src/DeferContext.php:29-33 | `defer` pushes on top: the next `pop` returns that callback and the context as it was |
| `Contexts.DeferAll` | src/DeferContext.php:29-33 | deferring callbacks one by one leaves them stacked in reverse registration order on top of what was there |
| `Contexts.DeferForwardingAsWritten` | src/DeferContext.php:29-33 | as written, `defer` keeps only the closure: what is pushed carries no arguments, whatever the caller forwarded |
| `Contexts.DeferForwarding` | src/Functions.php:162-181 | the forwarding the registries rely on: the pushed callback is the closure bound to the forwarded variables |
| `Contexts.Destruct` | src/DeferContext.php:18-27 | the destructor never lets a `RuntimeException` escape, and output only grows |
| `Contexts.DestructLeavesUnrun` | src/DeferContext.php:18-27 | after the drain, exactly the callbacks past the reference run's first failure are left on the stack |
| `Contexts.DestructEscapes` | src/DeferContext.php:18-27 | what escapes the destructor is the reference run's first failure if it is not a `RuntimeException`, and nothing otherwise |
| `Contexts.DestructMemory` | src/DeferContext.php:18-27 | the drain's variables and output are those of the reference run stopped after its first failure |
| `Contexts.DestructRunsLifoPrefix` | src/DeferContext.php:18-27 | the destructor equals the reference run cut after its first failure: leftover stack, memory, output and escaping throwable |
| `Contexts.DestructLoop` | src/DeferContext.php:18-27 | the destructor's `while` loop, written as a loop, computes the same result as the recursive definition |
| `Contexts.DestructReversesRegistration` | src/DeferContext.php:18-33 | LIFO: echoing callbacks deferred in some order echo in exactly the reverse order, and the context ends empty with nothing escaping |
| `Consuming.Consume` | src/Deferrable.php:164-169 | a drain that ends quietly leaves the context empty, and output only grows |
| `Consuming.Surfaced` | src/Deferrable.php:121-134 | after the `finally` drain, a quiet drain keeps the body's result; a drain failure replaces it by that throwable or by a `MergedDeferException` |
| `Consuming.BailableSurfacesFirstFailure` | tests/DeferDeferrableClassTest.php:290-304 | BAILABLE runs callbacks top first up to the first failure, which escapes unwrapped; memory and output are those of the reference run cut there; with no failure every callback runs and the stack ends empty |
| `Consuming.ContinuableBails` | tests/DeferDeferrableClassTest.php:339-353 | under CONTINUABLE, a failure that always bails escapes unwrapped, after every callback above it ran and before any below it runs |
| `Consuming.ContinuableCompletes` | tests/DeferDeferrableClassTest.php:306-318 | under CONTINUABLE with no failure that always bails, every callback runs; no failure ends quietly; two or more ordinary failures end in a merged exception |
| `Consuming.ContinuableMergesOrdinaryFailures` | tests/DeferDeferrableClassTest.php:306-353 | both CONTINUABLE cases at once, for any stack |
| `GlobalRegistry.Init` | src/Functions.php:9-15 | at load time no name is current, there are no definitions, and the anonymous context exists and is empty |
| `GlobalRegistry.CreateDeferContext` | src/Functions.php:24-34 | with no truthy current name, the anonymous context; otherwise a new empty context registered under the name, with every other name's entry kept |
| `GlobalRegistry.EnterTargetsFreshContext` | src/Functions.php:24-34 | after entering under a truthy name, both `defer` and `consumeDefers` resolve to the fresh empty context just created |
| `GlobalRegistry.DeferTarget` | src/Functions.php:162-181 | `defer` targets the anonymous context when no name is current, else the current name's entry, which may be missing |
| `GlobalRegistry.Defer` | src/Functions.php:162-181 | corrected forwarding: `defer` fails with a call on `null` exactly when the current name has no context; otherwise it pushes the callback bound to its arguments onto the target and leaves the current name, the definitions and the anonymous context as they were |
| `GlobalRegistry.DeferAsWritten` | src/Functions.php:162-181 | as written: the same failure and target, but the pushed callback carries none of the arguments |
| `GlobalRegistry.DeferAsWrittenDropsArguments` | src/Functions.php:170-180 | as written, `defer` with arguments is the corrected `defer` with none |
| `GlobalRegistry.ConsumeTarget` | src/Functions.php:43-56 | `consumeDefers` drains the current name's entry, falling back to the anonymous context |
| `GlobalRegistry.ConsumeDefers` | src/Functions.php:43-56 | the drain changes no context other than the one `ConsumeTarget` picks, and no registry field |
| `GlobalRegistry.ConsumeIgnoresContextArgument` | src/Functions.php:43-56 | the `$context` argument of `consumeDefers` makes no difference to the result |
| `GlobalRegistry.Enter` | src/Functions.php:139-141 | entering makes the given name current |
| `GlobalRegistry.ExitAsWritten` | src/Functions.php:143-145 | as written, a name is still current after leaving only if the drain threw |
| `GlobalRegistry.Exit` | src/Functions.php:143-145 | leaving resets the current name on every path; a result other than the body's is a throwable |
| `GlobalRegistry.ExitsDifferOnlyInName` | src/Functions.php:143-145 | the exit as written and the corrected one drain alike and differ only in the current name, which the former keeps exactly when a truthy name was current and the drain threw |
| `GlobalRegistry.Wrapped` | src/Functions.php:139-148 | after a wrapped call no name is current and `defer` targets the anonymous context again; the body's output is kept; a changed result is a throwable |
| `GlobalRegistry.WrappedKeepsOtherContexts` | src/Functions.php:139-148 | a wrapped call leaves every context that existed before it unchanged, and binds its name to a context that did not exist before |
| `GlobalRegistry.WrappedDrainsOwnContext` | src/Functions.php:139-148 | a wrapped call runs its body against a fresh empty context and then drains exactly what the body deferred there, surfacing the drain's failure |
| `GlobalRegistry.WrappedAsWritten` | src/Functions.php:139-148 | as written, a name left current after the call is the call's own, and only after a throwable |
| `GlobalRegistry.DeferrableFunction` | src/Functions.php:63-74 | corrected: `deferrableFunction` leaves no name current on any path and keeps the body's output |
| `GlobalRegistry.DeferrableFunctionAsWritten` | src/Functions.php:63-74 | as written: "anonymous@function" stays current after the call only if it raised, since the reset follows the drain in the same `finally` |
| `GlobalRegistry.MethodScopeName` | src/Functions.php:139-140 | the name a generated method sets, built from the temporary subclass's own `__CLASS__` and `__METHOD__`, is truthy, so every method call gets its own context |
| `GlobalRegistry.MethodCall` | src/Functions.php:139-148 | corrected: a generated method leaves no name current on any path and keeps the body's output |
| `GlobalRegistry.MethodCallAsWritten` | src/Functions.php:139-148 | as written: the method's own name stays current after the call only if it raised |
| `GlobalRegistry.Deferrable` | src/Functions.php:85-89 | `deferrable` runs a callable at once through the corrected `deferrableFunction`: the body runs against a fresh empty context, that context is drained with CONTINUABLE, the drain's failure replaces the result, and afterwards no name is current and the anonymous context is the same; a class path yields a wrapping subclass of it |
| `GlobalRegistry.NestedCallSkipsOuterDrain` | src/Functions.php:139-148 | a nested call under the same name replaces the outer call's context; the outer call then drains the anonymous context, its earlier defer is still pending, and the destructor of the outer method's `$deferContext` invokes it and empties the context |
| `GlobalRegistry.NestedCallOtherNameKeepsOuterEntry` | src/Functions.php:24-34 | a nested call under another name leaves the outer name bound to the outer context; the outer exit drains the anonymous context, and the outer callback stays pending in that still-registered context |
| `GlobalRegistry.FailedDrainLeavesNameCurrent` | src/Functions.php:143-145 | as written, a throwing drain leaves the finished scope's name current, so a later top-level `defer` misses the anonymous context; with the corrected exit it does not |
| `GlobalRegistry.FunctionFailedDrainLeavesNameCurrent` | src/Functions.php:69-72 | as written, `deferrableFunction` whose drain throws a bailable throwable leaves "anonymous@function" current; the corrected one resets it |
| `ClassRegistry.GetCurrentContext` | src/Deferrable.php:149-156 | the current context when one is set, else the anonymous context, created once on first use and reused after |
| `ClassRegistry.AnonymousIsShared` | src/Deferrable.php:149-156 | with nothing current, every call yields the same anonymous context object |
| `ClassRegistry.CreateDeferContext` | src/Deferrable.php:141-144 | `createDeferContext` never creates a context other than the anonymous one |
| `ClassRegistry.RemoveContext` | src/Deferrable.php:174-177 | `removeContext` clears the current slot and nothing else |
| `ClassRegistry.Defer` | src/Deferrable.php:185-194 | corrected forwarding: `defer` pushes the callback bound to its arguments onto the context `getCurrentContext` yields (the anonymous one when nothing is current) and leaves the current slot alone |
| `ClassRegistry.DeferAsWritten` | src/Deferrable.php:185-194 | as written, the pushed callback carries no arguments |
| `ClassRegistry.NothingBecomesCurrent` | src/Deferrable.php:141-177 | no operation of the registry ever sets a current context; `createDeferContext` always yields the anonymous one |
| `ClassRegistry.BodyDefersLandOnScopeContext` | src/Deferrable.php:141-156 | a `defer` in the body lands on the context its call registered |
| `ClassRegistry.Wrapped` | src/Deferrable.php:93-101 | a wrapped call keeps the body's output; a changed result is a throwable; a call that starts with nothing current ends with nothing current |
| `ClassRegistry.FunctionCall` | src/Deferrable.php:121-134 | the function path drains with BAILABLE; a changed result is a throwable |
| `ClassRegistry.MethodCall` | src/Deferrable.php:93-101 | a generated method drains with its scope's policy; a changed result is a throwable |
| `ClassRegistry.WrappedStaysQuiet` | src/Deferrable.php:93-101 | a call that starts with nothing pending, the first call of a process included, runs its body against an empty context, drains exactly that with its policy, and ends with nothing pending, given that the drain discards what an escaping failure leaves unrun |
| `ClassRegistry.InitialIsQuiet` | src/Deferrable.php:149-156 | a process starts with nothing current and no anonymous context yet, which counts as quiet |
| `ClassRegistry.MakeContextManipulator` | src/Deferrable.php:26-43 | a callable runs through the function path; a class path becomes a CONTINUABLE scope; only objects implementing the root scope interface are accepted, with their class name and policy; anything else raises "Passed parameter is invalid" |
| `ClassRegistry.MakeContextManipulatorAsWritten` | src/Deferrable.php:33-36 | as written, a class path raises an `Error` for the undefined `DeferrableContinuableScope::factory`; the other targets behave as in the corrected dispatch |
| `ClassRegistry.ClassPathNeedsFactory` | src/Deferrable.php:33-36 | a class path yields a CONTINUABLE scope of that path only in the corrected dispatch; as written it raises the `Error` |
| `ClassRegistry.ShownScopeObjectsRejected` | src/Deferrable.php:37-43 | no scope class in the repository passes the dispatch's `instanceof` check |
| `RootScopes.Construct` | src/AbstractDeferrableScope.php:9-17 | `getClassName` returns the target the scope was built with |
| `RootScopes.GetScopeType` | src/AbstractDeferrableScope.php:19-24 | a scope without a policy throws "Scope type is not defined"; continuable classes report CONTINUABLE and bailable ones BAILABLE, in both directions |
| `NamespacedScopes.ConstructAsWritten` | src/Scopes/AbstractDeferrableScope.php:16-20 | method body, class taken as declarable: as written, the constructor stores the target but leaves `$type` null |
| `NamespacedScopes.Construct` | src/Scopes/AbstractDeferrableScope.php:16-20 | method body, class taken as declarable: the intended constructor stores both the target and `$type` |
| `NamespacedScopes.GetClassName` | src/Scopes/AbstractDeferrableScope.php:40-43 | method body, class taken as declarable: a class path is returned; a callable target fails the `string` return type |
| `NamespacedScopes.FromClassPathAsWritten` | src/Scopes/AbstractDeferrableScope.php:26-29 | method body, class taken as declarable: as written, a scope built from a class path is neither a class scope nor a function scope |
| `NamespacedScopes.FromCallableAsWritten` | src/Scopes/AbstractDeferrableScope.php:35-38 | method body, class taken as declarable: as written, a scope built from a callable is neither a class scope nor a function scope |
| `NamespacedScopes.FromClassPath` | src/Scopes/AbstractDeferrableScope.php:26-29 | method body, class taken as declarable: a scope built from a class path names it and is a class scope, not a function scope |
| `NamespacedScopes.FromCallable` | src/Scopes/AbstractDeferrableScope.php:35-38 | method body, class taken as declarable: a scope built from a callable is a function scope, not a class scope |
| `NamespacedScopes.NeverBoth` | src/Scopes/AbstractDeferrableScope.php:47-55 | method body, class taken as declarable: no scope is both a class scope and a function scope |
| `NamespacedScopes.GetScopeType` | src/Scopes/DeferBailableScope.php:7-10 | method body, class taken as declarable: BAILABLE exactly for `DeferBailableScope`, CONTINUABLE exactly for `DeferContinuableScope` |
| `Scenarios.LocalScopeEchoes` | tests/DeferCreateContextFunctionTest.php:79-101 | a function holding its own context prints its own text first, then the deferred texts in reverse order of deferral |
| `Scenarios.CreateContextTwoFunctions` | tests/DeferCreateContextFunctionTest.php:9-37 | two functions in a row each run their deferred echo as they return |
| `Scenarios.CreateContextTwoDefers` | tests/DeferCreateContextFunctionTest.php:79-101 | two callbacks deferred on one context run last-in, first-out |
| `Scenarios.CreateContextTwoMethods` | tests/DeferCreateContextClassTest.php:97-109 | `doSomething1` then `doSomething2` print "One! Three! Two! Wanwan! NyanNyan!" |
| `Scenarios.LocalScopeTopFailureEscapes` | tests/DeferCreateContextClassTest.php:55-92 | of two throwing callbacks, the later-deferred one runs first and its throwable, unless a `RuntimeException`, replaces the return value |
| `Scenarios.CreateContextFailures` | tests/DeferCreateContextClassTest.php:148-167 | `doSomething5` surfaces `TestingContextException`, and `doSomething6` surfaces `BailableTestingContextException` |
| `Scenarios.WrappedEchoes` | tests/DeferDeferrableFunctionTest.php:72-91 | a wrapped call prints its own text, then the deferred texts in reverse order, and leaves no name current |
| `Scenarios.DeferrableTwoFunctions` | tests/DeferDeferrableFunctionTest.php:11-34 | two deferrable functions in a row each drain their own deferred echo |
| `Scenarios.DeferrableTwoDefers` | tests/DeferDeferrableFunctionTest.php:72-91 | two `defer`s in one deferrable function run last-in, first-out |
| `Scenarios.DeferrableTwoMethods` | tests/DeferDeferrableClassTest.php:148-163 | two methods of the generated subclass print "One! Three! Two! Wanwan! NyanNyan!" |
| `Scenarios.SetDeferReturn` | tests/DeferDeferrableClassTest.php:60-68 | with the corrected forwarding, a method that sets a variable, defers one closure and returns the variable returns the value read before the drain, with the drain's effects visible after |
| `Scenarios.ReturnValueTakenBeforeDrain` | tests/DeferDeferrableClassTest.php:225-237 | with the corrected forwarding, `doSomething6` returns "Test", while the deferred setter has changed the variable to "Test2" by the end of the call |
| `Scenarios.SetThenDeferTwo` | tests/DeferDeferrableClassTest.php:70-105 | with the corrected forwarding, of two deferred closures that complete, the later-deferred one runs first, and the method returns `null` |
| `Scenarios.DeferredArgumentsByReference` | tests/DeferDeferrableClassTest.php:239-254 | with the corrected forwarding, `doSomething7` prints "Test2": a by-reference deferred argument sees the setter's assignment |
| `Scenarios.CapturedByReference` | tests/DeferDeferrableClassTest.php:256-271 | `doSomething8` prints "Test2": a `use (&$message)` capture sees the setter's assignment |
| `Scenarios.DeferredArgumentsByValue` | tests/DeferDeferrableClassTest.php:273-288 | with the corrected forwarding, `doSomething9` prints "Test": the by-value setter changes only its own copy |
| `Scenarios.ReturnValueSurvivesDrain` | tests/DeferDeferrableFunctionTest.php:93-106 | an empty deferred closure leaves the function's return value alone |
| `Scenarios.ContinuableMergesThree` | tests/DeferDeferrableClassTest.php:306-318 | `doSomething10` under the default policy surfaces a `MergedDeferException` |
| `Scenarios.BailableEscapesUnwrapped` | tests/DeferDeferrableClassTest.php:339-353 | `doSomething12` surfaces the `BailableTestingException` unwrapped |
| `Scenarios.BailableScopeStopsAtFirstFailure` | tests/DeferDeferrableClassTest.php:290-304 | `doSomething10` in a BAILABLE scope surfaces the `TestingException` deferred last, from any quiet registry, including one whose anonymous context does not exist yet |
| `Scenarios.ForwardedArgumentsDropped` | src/DeferContext.php:29-33 | as written, a deferred `&$message` setter raises `ArgumentCountError` when drained; with its argument bound it assigns the caller's variable |

## Left out

- The generation of the wrapping subclass is left out: reflection over the
  methods, the modifier and return-type strings, the `final` check, `eval`,
  and the temporary class counter. A generated method is modelled by what
  its body does: enter, run the parent method, then drain and reset in
  `finally`.
- `DeferrableInterface::isDeferrable` is left out. It is a marker of the
  generated class.
- `ClassRegistry.WrappedStaysQuiet`: "ends with nothing pending" holds
  because the modelled drain discards the callbacks an escaping failure
  leaves unrun. That discard is an assumption, since `consume` is not part
  of this model's source. If `consume` left them on the shared anonymous
  context, the next wrapped call would drain them.
- `Consuming.ContinuableCompletes`: says nothing of exactly one ordinary
  failure under CONTINUABLE. The tests do not fix whether it escapes as
  itself or merged; the drain's body wraps it as merged.
- `Consuming.Surfaced`: the message of `MergedDeferException` and the
  throwables it carries are not modelled, only its class.
- `Contexts.Destruct`: when the destructor runs is taken as the end of the
  function that holds the context. PHP's reference counting and garbage
  collection are not modelled.
- The `DeferCallback` constructor captures `...$arguments` by reference.
  The model always binds argument cells; a by-value parameter copies the
  cell when the call binds it.
- File handles (`fopen`/`fclose` in `doSomething4` and in function test 6)
  are left out. `doSomething11`'s `echo $a . $b` is left out too: string
  concatenation is not among the modelled effects.
- `Scenarios.SetDeferReturn`: holds with the corrected forwarding of
  `defer` arguments. As written, the deferred closure is called without
  its argument.
- `Scenarios.ReturnValueTakenBeforeDrain`: holds with the corrected
  forwarding. As written, `doSomething6`'s deferred setter gets no argument
  and its drain raises `ArgumentCountError` (`Scenarios.ForwardedArgumentsDropped`).
- `Scenarios.SetThenDeferTwo`: holds with the corrected forwarding. As
  written, both deferred closures are called without their arguments.
- `Scenarios.DeferredArgumentsByReference`: holds with the corrected
  forwarding. As written, `doSomething7`'s setter gets no argument and
  raises `ArgumentCountError` instead of the output "Test2".
- `Scenarios.DeferredArgumentsByValue`: holds with the corrected
  forwarding. As written, `doSomething9`'s closures get no argument and
  raise `ArgumentCountError`.
- The bodies of wrapped calls (`Bodies.RunBody`) push through the corrected
  forwarding only; the as-written push is modelled for the `defer` of each
  registry, not inside bodies.
- Output is a sequence of echoed strings; output buffering is not modelled.
- Values other than strings, type juggling, and `declare(strict_types)`
  beyond the `string` return type of `getClassName` are left out.

## Findings

| source | as written | input that shows it | evidently intended | confidence | as-written member | corrected member |
|---|---|---|---|---|---|---|
| src/DeferContext.php:29-33 | `defer(callable $callback)` declares only the closure, so the `...$arguments` that both registries forward are discarded | `defer(function (&$message) { $message = 'Test2'; }, $message)` followed by a drain: the closure is called with no argument and raises `ArgumentCountError` (`Scenarios.ForwardedArgumentsDropped`) | the closure is bound to the forwarded variables, as `DeferCallback::factory` does | not executed | `Contexts.DeferForwardingAsWritten` | `Contexts.DeferForwarding` |
| src/Functions.php:143-145 | the generated method resets `current` after `consumeDefers` in the same `finally`, so a throwing drain skips the reset | a method whose one deferred closure throws a bailable exception: afterwards its name is still current and a top-level `defer` lands on its finished context (`GlobalRegistry.FailedDrainLeavesNameCurrent`) | the name is reset on every path | not executed | `GlobalRegistry.ExitAsWritten` | `GlobalRegistry.Exit` |
| src/Scopes/AbstractDeferrableScope.php:19 | `$this->type;` reads the property instead of assigning it | `DeferBailableScope::fromClassPath('X')->isClass()` is false, and so is `isFunction()` of a scope built from a callable, once the class can be declared at all (the interface clash above stops it from loading as written) | `$this->type = $type;` | not executed | `NamespacedScopes.FromClassPathAsWritten` | `NamespacedScopes.FromClassPath` |
| src/Deferrable.php:33-36 | a class path is wrapped through `DeferrableContinuableScope::factory`, which neither that class nor the root `AbstractDeferrableScope` declares | `Deferrable::makeContextManipulator('SomeClass')`: PHP raises "Call to undefined method" (`ClassRegistry.ClassPathNeedsFactory`) | a CONTINUABLE scope of the path, as `new DeferrableContinuableScope($targetClass)` builds | not executed | `ClassRegistry.MakeContextManipulatorAsWritten` | `ClassRegistry.MakeContextManipulator` |
| src/Functions.php:69-72 | `deferrableFunction` resets `current` after `consumeDefers` in the same `finally`, so a throwing drain skips the reset | a function whose one deferred closure throws a bailable exception, passed to `deferrable`: afterwards "anonymous@function" is still current (`GlobalRegistry.FunctionFailedDrainLeavesNameCurrent`) | the name is reset on every path | not executed | `GlobalRegistry.DeferrableFunctionAsWritten` | `GlobalRegistry.DeferrableFunction` |
