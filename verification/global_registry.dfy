/**
 * The globals revision of the context registry, src/Functions.php: a
 * current scope name, a map from scope names to contexts, and an anonymous
 * context for `defer` calls made outside any deferrable scope, all kept in
 * `$GLOBALS['__temp_defers__']`. The generation of wrapping subclasses is
 * not modelled; a wrapped call is enter (set the name, create a context),
 * run the body, drain and reset the name in `finally`.
 */
module GlobalRegistry {
  import opened Common
  import opened Php
  import opened Callbacks
  import opened Contexts
  import opened Consuming
  import opened Bodies

  /** The entries `current`, `definitions` and `anonymous` of the globals array. */
  datatype Globals = Globals(
    current: Option<string>,
    definitions: Option<map<string, CtxId>>,
    anonymous: CtxId,
    store: Store)

  predicate Valid(g: Globals) {
    && StoreValid(g.store)
    && g.anonymous in g.store.contexts
    && (g.definitions.Some? ==> forall n :: n in g.definitions.value ==>
          Truthy(Some(n)) && g.definitions.value[n] in g.store.contexts)
  }

  /** PHP truthiness of a scope name: `null`, "" and "0" are false. */
  predicate Truthy(name: Option<string>) {
    name.Some? && name.value != "" && name.value != "0"
  }

  /** `$definitions[$name]`, where `$definitions` may still be `null`. */
  function Lookup(definitions: Option<map<string, CtxId>>, name: string): Option<CtxId> {
    if definitions.Some? && name in definitions.value then Some(definitions.value[name]) else None
  }

  /**
   * The file's top-level code: nothing current, no definitions, and an
   * anonymous context made by `createDeferContext()` with nothing current.
   */
  function Init(): (g: Globals)
    ensures Valid(g)
    ensures g.current == None && g.definitions == None
    ensures g.store.contexts == map[g.anonymous := DeferContext([])]
  {
    var (st, id) := Alloc(Store(map[], 0), Construct(None));
    Globals(None, None, id, st)
  }

  /**
   * `createDeferContext`: with no current name, the existing anonymous
   * context; otherwise a fresh empty context installed under the current
   * name, replacing any earlier one.
   */
  function CreateDeferContext(g: Globals): (r: (Globals, CtxId))
    requires Valid(g)
    ensures Valid(r.0)
    ensures !Truthy(g.current) ==> r == (g, g.anonymous)
    ensures Truthy(g.current) ==>
              && r.1 !in g.store.contexts
              && r.0.store.contexts == g.store.contexts[r.1 := DeferContext([])]
              && Lookup(r.0.definitions, g.current.value) == Some(r.1)
              && r.0.current == g.current && r.0.anonymous == g.anonymous
              && (forall n :: n != g.current.value ==> Lookup(r.0.definitions, n) == Lookup(g.definitions, n))
  {
    if !Truthy(g.current) then (g, g.anonymous)
    else
      var (st, id) := Alloc(g.store, Construct(None));
      var defs := if g.definitions.Some? then g.definitions.value else map[];
      (g.(definitions := Some(defs[g.current.value := id]), store := st), id)
  }

  /**
   * Where `defer` pushes: the anonymous context when no name is current,
   * otherwise `definitions[current]`, which may be missing (`null`).
   */
  function DeferTarget(g: Globals): (r: Option<CtxId>)
    requires Valid(g)
    ensures r.Some? ==> r.value in g.store.contexts
    ensures !Truthy(g.current) ==> r == Some(g.anonymous)
    ensures Truthy(g.current) ==> r == Lookup(g.definitions, g.current.value)
  {
    if !Truthy(g.current) then Some(g.anonymous) else Lookup(g.definitions, g.current.value)
  }

  /**
   * `defer`: pushes onto the target context; a current name without a
   * context is a method call on `null`.
   */
  function Defer(g: Globals, callback: Closure, args: seq<Cell>): (r: Result<Globals, Throwable>)
    requires Valid(g)
    ensures r.Err? <==> DeferTarget(g).None?
    ensures r.Err? ==> r.error == CallOnNull
    ensures r.Ok? ==>
              && Valid(r.value)
              && r.value.current == g.current && r.value.definitions == g.definitions
              && r.value.anonymous == g.anonymous
              && var id := DeferTarget(g).value;
                 Pop(r.value.store.contexts[id]) == Ok(Popped(DeferCallback(callback, args), g.store.contexts[id]))
  {
    match DeferTarget(g)
    case None => Err(CallOnNull)
    case Some(id) => Ok(g.(store := Put(g.store, id, DeferForwarding(g.store.contexts[id], callback, args))))
  }

  /**
   * `defer` as written: the arguments are spread into
   * `DeferContext::defer`, which declares only the callback, so the pushed
   * callback carries none of them.
   */
  function DeferAsWritten(g: Globals, callback: Closure, args: seq<Cell>): (r: Result<Globals, Throwable>)
    requires Valid(g)
    ensures r.Err? <==> DeferTarget(g).None?
    ensures r.Err? ==> r.error == CallOnNull
    ensures r.Ok? ==>
              && Valid(r.value)
              && r.value.current == g.current && r.value.definitions == g.definitions
              && r.value.anonymous == g.anonymous
              && var id := DeferTarget(g).value;
                 Pop(r.value.store.contexts[id]) == Ok(Popped(DeferCallback(callback, []), g.store.contexts[id]))
  {
    match DeferTarget(g)
    case None => Err(CallOnNull)
    case Some(id) => Ok(g.(store := Put(g.store, id, DeferForwardingAsWritten(g.store.contexts[id], callback, args))))
  }

  /** As written, `defer` with arguments is `defer` without them. */
  lemma DeferAsWrittenDropsArguments(g: Globals, callback: Closure, args: seq<Cell>)
    requires Valid(g)
    ensures DeferAsWritten(g, callback, args) == Defer(g, callback, [])
  {
  }

  /**
   * The context `consumeDefers` drains: `definitions[current]`, else the
   * anonymous context. A `null` name is the array key "".
   */
  function ConsumeTarget(g: Globals): (id: CtxId)
    requires Valid(g)
    ensures id in g.store.contexts
    ensures Lookup(g.definitions, g.current.GetOr("")).None? ==> id == g.anonymous
  {
    Lookup(g.definitions, g.current.GetOr("")).GetOr(g.anonymous)
  }

  datatype Drain = Drain(g: Globals, heap: Heap, out: seq<string>, outcome: Outcome)

  /**
   * `consumeDefers($context, ...)`: ignores `$context` and drains the
   * context `ConsumeTarget` picks. `consume()` is called without a scope
   * type; it is taken to drain as CONTINUABLE.
   */
  function ConsumeDefers(g: Globals, context: CtxId, heap: Heap, out: seq<string>): (r: Drain)
    requires Valid(g)
    ensures Valid(r.g)
    ensures r.g.current == g.current && r.g.definitions == g.definitions && r.g.anonymous == g.anonymous
    ensures out <= r.out
    ensures forall id :: id in g.store.contexts && id != ConsumeTarget(g) ==>
              id in r.g.store.contexts && r.g.store.contexts[id] == g.store.contexts[id]
  {
    var id := ConsumeTarget(g);
    var c := Consume(g.store.contexts[id], CONTINUABLE, heap, out);
    Drain(g.(store := Put(g.store, id, c.ctx)), c.heap, c.out, c.outcome)
  }

  /** The `$context` argument of `consumeDefers` makes no difference. */
  lemma ConsumeIgnoresContextArgument(g: Globals, c1: CtxId, c2: CtxId, heap: Heap, out: seq<string>)
    requires Valid(g)
    ensures ConsumeDefers(g, c1, heap, out) == ConsumeDefers(g, c2, heap, out)
  {
  }

  /** Entering a scope: set the current name, then `createDeferContext`. */
  function Enter(g: Globals, name: string): (r: (Globals, CtxId))
    requires Valid(g)
    ensures Valid(r.0) && r.1 in r.0.store.contexts
    ensures r.0.current == Some(name)
  {
    CreateDeferContext(g.(current := Some(name)))
  }

  /**
   * Entering under a truthy name creates a fresh empty context that both
   * `defer` and `consumeDefers` then resolve to.
   */
  lemma EnterTargetsFreshContext(g: Globals, name: string)
    requires Valid(g) && Truthy(Some(name))
    ensures var (g1, id) := Enter(g, name);
            && id !in g.store.contexts
            && g1.store.contexts[id] == DeferContext([])
            && DeferTarget(g1) == Some(id)
            && ConsumeTarget(g1) == id
  {
  }

  /**
   * Leaving a scope as written: `consumeDefers`, then the current name is
   * reset, but only if the drain did not throw.
   */
  function ExitAsWritten(g: Globals, context: CtxId, heap: Heap, out: seq<string>, body: Completion): (r: CallResult)
    requires Valid(g)
    ensures Valid(r.g)
    ensures r.g.current.Some? ==> r.g.current == g.current && r.completion.Raised?
    ensures r.completion != body ==> r.completion.Raised?
  {
    var d := ConsumeDefers(g, context, heap, out);
    var g' := if d.outcome == Done then d.g.(current := None) else d.g;
    CallResult(g', d.heap, d.out, Surfaced(d.outcome, body))
  }

  /** Leaving a scope as intended: the current name is reset on every path. */
  function Exit(g: Globals, context: CtxId, heap: Heap, out: seq<string>, body: Completion): (r: CallResult)
    requires Valid(g)
    ensures Valid(r.g)
    ensures r.g.current.None?
    ensures r.g.anonymous == g.anonymous && r.g.definitions == g.definitions
    ensures r.completion != body ==> r.completion.Raised?
  {
    var d := ConsumeDefers(g, context, heap, out);
    CallResult(d.g.(current := None), d.heap, d.out, Surfaced(d.outcome, body))
  }

  /**
   * The two exits drain alike and differ only in the current name, which
   * the exit as written keeps exactly when the drain threw.
   */
  lemma ExitsDifferOnlyInName(g: Globals, context: CtxId, heap: Heap, out: seq<string>, body: Completion)
    requires Valid(g)
    ensures var a := ExitAsWritten(g, context, heap, out, body);
            var b := Exit(g, context, heap, out, body);
            && a.heap == b.heap && a.out == b.out && a.completion == b.completion
            && a.g == b.g.(current := a.g.current)
            && (a.g.current == None <==> g.current == None || ConsumeDefers(g, context, heap, out).outcome == Done)
  {
  }

  datatype CallResult = CallResult(g: Globals, heap: Heap, out: seq<string>, completion: Completion)

  /** The body of a call made under `name`, run against the context it entered with. */
  function BodyOf(g: Globals, name: string, body: Body, heap: Heap, out: seq<string>): BodyRun
    requires Valid(g)
  {
    var (g1, id) := Enter(g, name);
    RunBody(Machine(body.frame, heap, out), body.stmts, g1.store.contexts[id])
  }

  /**
   * A wrapped call under `name`: enter, run the body with its `defer`s
   * landing on the entered context, then exit. Afterwards no name is
   * current, whether the body or the drain threw or not.
   */
  function Wrapped(g: Globals, name: string, body: Body, heap: Heap, out: seq<string>): (r: CallResult)
    requires Valid(g)
    ensures Valid(r.g)
    ensures r.g.current.None?
    ensures r.g.anonymous == g.anonymous
    ensures DeferTarget(r.g) == Some(g.anonymous)
    ensures BodyOf(g, name, body, heap, out).out <= r.out
    ensures r.completion != BodyOf(g, name, body, heap, out).completion ==> r.completion.Raised?
  {
    var (g1, id) := Enter(g, name);
    var b := RunBody(Machine(body.frame, heap, out), body.stmts, g1.store.contexts[id]);
    Exit(g1.(store := Put(g1.store, id, b.ctx)), id, b.heap, b.out, b.completion)
  }

  /**
   * A wrapped call under a truthy name leaves every context that existed
   * before it as it was, and leaves the name defined, bound to a context
   * that did not exist before.
   */
  lemma WrappedKeepsOtherContexts(g: Globals, name: string, body: Body, heap: Heap, out: seq<string>)
    requires Valid(g) && Truthy(Some(name))
    ensures var r := Wrapped(g, name, body, heap, out);
            && (forall id :: id in g.store.contexts ==>
                  id in r.g.store.contexts && r.g.store.contexts[id] == g.store.contexts[id])
            && Lookup(r.g.definitions, name).Some?
            && Lookup(r.g.definitions, name).value !in g.store.contexts
  {
  }

  /**
   * A wrapped call under a truthy name runs its body against a fresh empty
   * context and then drains exactly what the body deferred there, with the
   * CONTINUABLE policy; the drain's throwable, if any, is what the call
   * surfaces.
   */
  lemma WrappedDrainsOwnContext(g: Globals, name: string, body: Body, heap: Heap, out: seq<string>)
    requires Valid(g) && Truthy(Some(name))
    ensures BodyOf(g, name, body, heap, out) == RunBody(Machine(body.frame, heap, out), body.stmts, DeferContext([]))
    ensures var r := Wrapped(g, name, body, heap, out);
            var b := BodyOf(g, name, body, heap, out);
            var c := Consume(b.ctx, CONTINUABLE, b.heap, b.out);
            && r.heap == c.heap && r.out == c.out
            && r.completion == Surfaced(c.outcome, b.completion)
  {
    var (g1, id) := Enter(g, name);
    EnterTargetsFreshContext(g, name);
    var b := RunBody(Machine(body.frame, heap, out), body.stmts, g1.store.contexts[id]);
    var g2 := g1.(store := Put(g1.store, id, b.ctx));
    assert ConsumeTarget(g2) == id;
  }

  /** The same call with the exit as written. */
  function WrappedAsWritten(g: Globals, name: string, body: Body, heap: Heap, out: seq<string>): (r: CallResult)
    requires Valid(g)
    ensures Valid(r.g)
    ensures r.g.current.Some? ==> r.g.current == Some(name) && r.completion.Raised?
    ensures BodyOf(g, name, body, heap, out).out <= r.out
    ensures r.completion != BodyOf(g, name, body, heap, out).completion ==> r.completion.Raised?
  {
    var (g1, id) := Enter(g, name);
    var b := RunBody(Machine(body.frame, heap, out), body.stmts, g1.store.contexts[id]);
    ExitAsWritten(g1.(store := Put(g1.store, id, b.ctx)), id, b.heap, b.out, b.completion)
  }

  const FunctionScopeName: string := "anonymous@function"

  lemma FunctionScopeNameTruthy()
    ensures Truthy(Some(FunctionScopeName))
  {
    assert FunctionScopeName[0] == 'a';
  }

  /**
   * `deferrableFunction` as written: its `finally` drains and then resets
   * the name, so a throwing drain leaves "anonymous@function" current.
   */
  function DeferrableFunctionAsWritten(g: Globals, body: Body, heap: Heap, out: seq<string>): (r: CallResult)
    requires Valid(g)
    ensures Valid(r.g)
    ensures r.g.current.Some? ==> r.g.current == Some(FunctionScopeName) && r.completion.Raised?
    ensures BodyOf(g, FunctionScopeName, body, heap, out).out <= r.out
  {
    WrappedAsWritten(g, FunctionScopeName, body, heap, out)
  }

  /**
   * `deferrableFunction` as intended: a wrapped call under the fixed name
   * "anonymous@function", with the name reset on every path.
   */
  function DeferrableFunction(g: Globals, body: Body, heap: Heap, out: seq<string>): (r: CallResult)
    requires Valid(g)
    ensures Valid(r.g) && r.g.current.None?
    ensures BodyOf(g, FunctionScopeName, body, heap, out).out <= r.out
  {
    Wrapped(g, FunctionScopeName, body, heap, out)
  }

  /**
   * The name a generated method sets: `__CLASS__ . '::' . __METHOD__`.
   * Both magic constants are evaluated inside the generated subclass, so
   * `generatedClass` is the temporary class `__defer__anonymous_N`, not
   * the wrapped parent, and `__METHOD__` already reads "Class::method".
   */
  function MethodScopeName(generatedClass: string, methodName: string): (n: string)
    ensures Truthy(Some(n))
  {
    var n := generatedClass + "::" + generatedClass + "::" + methodName;
    assert n[|generatedClass|] == ':';
    n
  }

  /**
   * A call of a method of the generated subclass, as written: a throwing
   * drain leaves the method's name current.
   */
  function MethodCallAsWritten(g: Globals, generatedClass: string, methodName: string, body: Body, heap: Heap, out: seq<string>): (r: CallResult)
    requires Valid(g)
    ensures Valid(r.g)
    ensures r.g.current.Some? ==> r.g.current == Some(MethodScopeName(generatedClass, methodName)) && r.completion.Raised?
    ensures BodyOf(g, MethodScopeName(generatedClass, methodName), body, heap, out).out <= r.out
  {
    WrappedAsWritten(g, MethodScopeName(generatedClass, methodName), body, heap, out)
  }

  /** A call of a method of the generated subclass, with the name reset on every path. */
  function MethodCall(g: Globals, generatedClass: string, methodName: string, body: Body, heap: Heap, out: seq<string>): (r: CallResult)
    requires Valid(g)
    ensures Valid(r.g) && r.g.current.None?
    ensures BodyOf(g, MethodScopeName(generatedClass, methodName), body, heap, out).out <= r.out
  {
    Wrapped(g, MethodScopeName(generatedClass, methodName), body, heap, out)
  }

  /** The argument of `deferrable`: a callable, or a class path to wrap. */
  datatype Target = FunctionTarget(fn: Body) | ClassTarget(path: string)

  datatype Deferred = FunctionRan(result: CallResult) | Subclass(parent: string)

  /** `deferrable`: a callable runs through `deferrableFunction` at once; a class path is wrapped. */
  function Deferrable(g: Globals, target: Target, heap: Heap, out: seq<string>): (r: Deferred)
    requires Valid(g)
    ensures target.FunctionTarget? ==> r == FunctionRan(DeferrableFunction(g, target.fn, heap, out))
    ensures target.FunctionTarget? ==>
              var b := RunBody(Machine(target.fn.frame, heap, out), target.fn.stmts, DeferContext([]));
              var c := Consume(b.ctx, CONTINUABLE, b.heap, b.out);
              && r.result.g.current.None?
              && r.result.g.anonymous == g.anonymous
              && r.result.heap == c.heap && r.result.out == c.out
              && r.result.completion == Surfaced(c.outcome, b.completion)
    ensures target.ClassTarget? ==> r == Subclass(target.path)
  {
    match target
    case FunctionTarget(fn) =>
      FunctionScopeNameTruthy();
      WrappedDrainsOwnContext(g, FunctionScopeName, fn, heap, out);
      FunctionRan(DeferrableFunction(g, fn, heap, out))
    case ClassTarget(path) => Subclass(path)
  }

  /**
   * Nesting: a deferrable call made while another runs under the same name
   * replaces the outer call's context in the definitions and resets the
   * name on its way out. The outer call's exit then drains the anonymous
   * context instead, so a callback the outer call deferred before the
   * nested call is still pending afterwards. It runs only when the outer
   * method returns and its local `$deferContext` is destroyed: the
   * destructor invokes it, without the scope's drain policy.
   */
  lemma NestedCallSkipsOuterDrain(g: Globals, name: string, cb: Closure, args: seq<Cell>,
                                  inner: Body, heap: Heap, out: seq<string>, body: Completion)
    requires Valid(g) && Truthy(Some(name))
    ensures var (g1, a) := Enter(g, name);
            && Defer(g1, cb, args).Ok?
            && var g2 := Defer(g1, cb, args).value;
               var r := Wrapped(g2, name, inner, heap, out);
               && ConsumeTarget(r.g) == g.anonymous != a
               && Lookup(r.g.definitions, name) != Some(a)
               && var e := Exit(r.g, a, r.heap, r.out, body);
                  && a in e.g.store.contexts
                  && Pop(e.g.store.contexts[a]) == Ok(Popped(DeferCallback(cb, args), DeferContext([])))
                  && var d := Destruct(e.g.store.contexts[a], e.heap, e.out);
                     var s := Invoke(DeferCallback(cb, args), e.heap, e.out);
                     d.heap == s.heap && d.out == s.out && d.ctx == DeferContext([])
  {
    var (g1, a) := Enter(g, name);
    EnterTargetsFreshContext(g, name);
    var g2 := Defer(g1, cb, args).value;
    var r := Wrapped(g2, name, inner, heap, out);
    assert Lookup(r.g.definitions, "").None?;
    var e := Exit(r.g, a, r.heap, r.out, body);
    assert e.g.store.contexts[a] == r.g.store.contexts[a] == g2.store.contexts[a];
    DestructSingle(e.g.store.contexts[a], DeferCallback(cb, args), e.heap, e.out);
  }

  /**
   * Nesting under another name: the nested call registers its own context
   * and leaves the outer name bound to the outer context. The outer call's
   * exit still drains the anonymous context, since the nested call reset
   * the name; the outer callback stays pending in a context the
   * definitions keep alive, until a later call under the outer name
   * replaces that entry.
   */
  lemma NestedCallOtherNameKeepsOuterEntry(g: Globals, outer: string, inner: string, cb: Closure, args: seq<Cell>,
                                           innerBody: Body, heap: Heap, out: seq<string>, body: Completion)
    requires Valid(g) && Truthy(Some(outer)) && Truthy(Some(inner)) && outer != inner
    ensures var (g1, a) := Enter(g, outer);
            && Defer(g1, cb, args).Ok?
            && var g2 := Defer(g1, cb, args).value;
               var r := Wrapped(g2, inner, innerBody, heap, out);
               && ConsumeTarget(r.g) == g.anonymous != a
               && Lookup(r.g.definitions, outer) == Some(a)
               && var e := Exit(r.g, a, r.heap, r.out, body);
                  && Lookup(e.g.definitions, outer) == Some(a)
                  && Pop(e.g.store.contexts[a]) == Ok(Popped(DeferCallback(cb, args), DeferContext([])))
  {
    var (g1, a) := Enter(g, outer);
    EnterTargetsFreshContext(g, outer);
    var g2 := Defer(g1, cb, args).value;
    var r := Wrapped(g2, inner, innerBody, heap, out);
    assert Lookup(r.g.definitions, "").None?;
    var e := Exit(r.g, a, r.heap, r.out, body);
    assert e.g.store.contexts[a] == r.g.store.contexts[a] == g2.store.contexts[a];
  }

  /** The destructor of a context holding one callback invokes it and empties the stack. */
  lemma DestructSingle(ctx: DeferContext, cb: DeferCallback, heap: Heap, out: seq<string>)
    requires Pop(ctx) == Ok(Popped(cb, DeferContext([])))
    ensures var d := Destruct(ctx, heap, out);
            var s := Invoke(cb, heap, out);
            d.heap == s.heap && d.out == s.out && d.ctx == DeferContext([])
  {
    var s := Invoke(cb, heap, out);
    if s.completion.Normal? {
      assert Pop(DeferContext([])).Err?;
    }
  }

  /**
   * As written, `deferrableFunction` keeps its name current after a
   * throwing drain, while the intended one resets it.
   */
  lemma FunctionFailedDrainLeavesNameCurrent(g: Globals, ex: Throwable, heap: Heap, out: seq<string>)
    requires Valid(g) && ex.kind == Bailable
    ensures var r := DeferrableFunctionAsWritten(g, Body([], [DeferCall(Thrower(ex), [])]), heap, out);
            r.completion == Raised(ex) && r.g.current == Some(FunctionScopeName)
    ensures var r := DeferrableFunction(g, Body([], [DeferCall(Thrower(ex), [])]), heap, out);
            r.completion == Raised(ex) && r.g.current.None?
  {
    assert FunctionScopeName[0] == 'a';
    FailedDrainLeavesNameCurrent(g, FunctionScopeName, ex, heap, out);
  }

  /**
   * As written, a scope whose drain throws leaves its name current: the
   * body below defers one callback that throws a bailable throwable, the
   * call surfaces that throwable, and afterwards a top-level `defer` goes
   * to the finished scope's context instead of the anonymous one.
   */
  lemma FailedDrainLeavesNameCurrent(g: Globals, name: string, ex: Throwable, heap: Heap, out: seq<string>)
    requires Valid(g) && Truthy(Some(name)) && ex.kind == Bailable
    ensures var r := WrappedAsWritten(g, name, Body([], [DeferCall(Thrower(ex), [])]), heap, out);
            && r.completion == Raised(ex)
            && r.g.current == Some(name)
            && DeferTarget(r.g).Some? && DeferTarget(r.g) != Some(g.anonymous)
    ensures var r := Wrapped(g, name, Body([], [DeferCall(Thrower(ex), [])]), heap, out);
            && r.completion == Raised(ex)
            && r.g.current.None?
            && DeferTarget(r.g) == Some(g.anonymous)
  {
    var stmts := [DeferCall(Thrower(ex), [])];
    var (g1, id) := Enter(g, name);
    EnterTargetsFreshContext(g, name);
    var b := RunBody(Machine([], heap, out), stmts, g1.store.contexts[id]);
    assert stmts[1..] == [];
    var ctx' := DeferForwarding(DeferContext([]), Thrower(ex), []);
    assert b == RunBody(Machine([], heap, out), [], ctx');
    assert ctx'.stack == [DeferCallback(Thrower(ex), [])];
    assert b.ctx.stack == [DeferCallback(Thrower(ex), [])];
    ThrowerRaises(ex, heap, out);
    var g2 := g1.(store := Put(g1.store, id, b.ctx));
    assert ConsumeTarget(g2) == id;
    var c := Consume(b.ctx, CONTINUABLE, b.heap, b.out);
    assert c.outcome == Thrown(ex);
    assert ConsumeDefers(g2, id, b.heap, b.out).outcome == Thrown(ex);
  }
}
