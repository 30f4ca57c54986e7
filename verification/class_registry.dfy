/**
 * The class revision of the context registry, src/Deferrable.php: a static
 * current-context slot, a lazily created anonymous fallback context, the
 * scope wrappers that drain at the end of a call, and the
 * `makeContextManipulator` dispatch. The generation of the wrapping
 * subclass itself is not modelled; a wrapped call is enter, run the body,
 * drain and clear in `finally`, exit.
 */
module ClassRegistry {
  import opened Common
  import opened Php
  import opened Callbacks
  import opened Contexts
  import opened Consuming
  import opened Bodies
  import RootScopes
  import NamespacedScopes

  /** `Deferrable::$currentContext` and the static `$anonymousContext` of `getCurrentContext`. */
  datatype Registry = Registry(current: Option<CtxId>, anonymous: Option<CtxId>, store: Store)

  predicate Valid(reg: Registry) {
    && StoreValid(reg.store)
    && (reg.current.Some? ==> reg.current.value in reg.store.contexts)
    && (reg.anonymous.Some? ==> reg.anonymous.value in reg.store.contexts)
  }

  /** Before any call: no current context, no anonymous context yet. */
  const Initial: Registry := Registry(None, None, Store(map[], 0))

  /**
   * Between calls: nothing current, and the anonymous context either does
   * not exist yet or has nothing pending.
   */
  predicate Quiet(reg: Registry) {
    && Valid(reg)
    && reg.current.None?
    && (reg.anonymous.None? || reg.store.contexts[reg.anonymous.value].stack == [])
  }

  /** A process starts quiet. */
  lemma InitialIsQuiet()
    ensures Quiet(Initial) && Initial.anonymous.None?
  {
  }

  /**
   * `getCurrentContext`: the current context when one is set, otherwise the
   * anonymous context, created on first use.
   */
  function GetCurrentContext(reg: Registry): (r: (Registry, CtxId))
    requires Valid(reg)
    ensures Valid(r.0) && r.1 in r.0.store.contexts
    ensures r.0.current == reg.current
    ensures r.0.anonymous.Some?
    ensures reg.current.Some? ==> r.1 == reg.current.value
    ensures reg.current.None? ==> r.1 == r.0.anonymous.value
    ensures reg.anonymous.Some? ==> r.0 == reg
    ensures reg.anonymous.None? ==> r.0.store.contexts == reg.store.contexts[r.0.anonymous.value := DeferContext([])]
    ensures reg.anonymous.None? ==> r.0.anonymous.value !in reg.store.contexts
  {
    var reg1 :=
      if reg.anonymous.Some? then reg
      else
        var (st, id) := Alloc(reg.store, Construct(None));
        reg.(anonymous := Some(id), store := st);
    (reg1, reg.current.GetOr(reg1.anonymous.value))
  }

  /** With nothing current, every call yields the same anonymous context object. */
  lemma AnonymousIsShared(reg: Registry)
    requires Valid(reg) && reg.current.None?
    ensures var (reg1, id) := GetCurrentContext(reg);
            GetCurrentContext(reg1) == (reg1, id)
  {
  }

  /**
   * `createDeferContext`: `getCurrentContext() ?? new DeferContext()`. As
   * `getCurrentContext` never yields `null`, no context other than the
   * anonymous one is ever created here.
   */
  function CreateDeferContext(reg: Registry): (r: (Registry, CtxId))
    requires Valid(reg)
    ensures Valid(r.0) && r.1 in r.0.store.contexts
    ensures r.0.current == reg.current
    ensures r.0.anonymous.Some?
    ensures r.1 in reg.store.contexts || Some(r.1) == r.0.anonymous
    ensures r.0.store.contexts.Keys <= reg.store.contexts.Keys + {r.0.anonymous.value}
  {
    GetCurrentContext(reg)
  }

  /** `removeContext`: clears the current slot and nothing else. */
  function RemoveContext(reg: Registry): (r: Registry)
    requires Valid(reg)
    ensures Valid(r)
    ensures r.current.None?
    ensures r.anonymous == reg.anonymous && r.store == reg.store
  {
    reg.(current := None)
  }

  /**
   * `Deferrable::defer`: pushes onto the context `getCurrentContext` yields.
   * With nothing current, that is the anonymous context.
   */
  function Defer(reg: Registry, callback: Closure, args: seq<Cell>): (r: Registry)
    requires Valid(reg)
    ensures Valid(r)
    ensures r.current == reg.current && r.anonymous.Some?
    ensures var (reg1, id) := GetCurrentContext(reg);
            && r.store.contexts.Keys == reg1.store.contexts.Keys
            && Pop(r.store.contexts[id]) == Ok(Popped(DeferCallback(callback, args), reg1.store.contexts[id]))
    ensures reg.current.None? ==> Pop(r.store.contexts[r.anonymous.value]).Ok?
  {
    var (reg1, id) := GetCurrentContext(reg);
    reg1.(store := Put(reg1.store, id, DeferForwarding(reg1.store.contexts[id], callback, args)))
  }

  /** `Deferrable::defer` as written: the arguments are lost on the way into `DeferContext::defer`. */
  function DeferAsWritten(reg: Registry, callback: Closure, args: seq<Cell>): (r: Registry)
    requires Valid(reg)
    ensures Valid(r)
    ensures var (reg1, id) := GetCurrentContext(reg);
            && r.store.contexts.Keys == reg1.store.contexts.Keys
            && Pop(r.store.contexts[id]) == Ok(Popped(DeferCallback(callback, []), reg1.store.contexts[id]))
  {
    var (reg1, id) := GetCurrentContext(reg);
    reg1.(store := Put(reg1.store, id, DeferForwardingAsWritten(reg1.store.contexts[id], callback, args)))
  }

  /** No operation of the registry ever makes a context current. */
  lemma NothingBecomesCurrent(reg: Registry, callback: Closure, args: seq<Cell>)
    requires Valid(reg) && reg.current.None?
    ensures CreateDeferContext(reg).0.current.None?
    ensures GetCurrentContext(reg).0.current.None?
    ensures RemoveContext(reg).current.None?
    ensures Defer(reg, callback, args).current.None?
    ensures CreateDeferContext(reg).1 == CreateDeferContext(reg).0.anonymous.value
  {
  }

  /** The state after a call: registry, memory, output, and how the call ended. */
  datatype CallResult = CallResult(reg: Registry, heap: Heap, out: seq<string>, completion: Completion)

  /** The body of a wrapped call, run against the context the call registered. */
  function BodyOf(reg: Registry, body: Body, heap: Heap, out: seq<string>): (b: BodyRun)
    requires Valid(reg)
  {
    var (reg1, id) := CreateDeferContext(reg);
    RunBody(Machine(body.frame, heap, out), body.stmts, reg1.store.contexts[id])
  }

  /**
   * A `defer` made by the body lands on the context its call registered:
   * nothing in between changes which context is current.
   */
  lemma BodyDefersLandOnScopeContext(reg: Registry, callback: Closure, args: seq<Cell>)
    requires Valid(reg)
    ensures var (reg1, id) := CreateDeferContext(reg);
            GetCurrentContext(reg1) == (reg1, id)
  {
  }

  /**
   * The shape of both wrappers (the function path and the generated
   * method): register a context, run the body, then in `finally` drain
   * that context with the scope's policy and clear the current slot. A
   * throwable from the drain replaces the body's result and skips the
   * clearing.
   */
  function Wrapped(reg: Registry, scopeType: ScopeType, body: Body, heap: Heap, out: seq<string>): (r: CallResult)
    requires Valid(reg)
    ensures Valid(r.reg)
    ensures BodyOf(reg, body, heap, out).out <= r.out
    ensures r.completion != BodyOf(reg, body, heap, out).completion ==> r.completion.Raised?
    ensures reg.current.None? ==> r.reg.current.None?
  {
    var (reg1, id) := CreateDeferContext(reg);
    var b := RunBody(Machine(body.frame, heap, out), body.stmts, reg1.store.contexts[id]);
    var reg2 := reg1.(store := Put(reg1.store, id, b.ctx));
    var c := Consume(b.ctx, scopeType, b.heap, b.out);
    var reg3 := reg2.(store := Put(reg2.store, id, c.ctx));
    var reg4 := if c.outcome == Done then RemoveContext(reg3) else reg3;
    CallResult(reg4, c.heap, c.out, Surfaced(c.outcome, b.completion))
  }

  /**
   * `makeFunctionContextManipulator`: runs the function at once and drains
   * with BAILABLE, whether the function returned or threw.
   */
  function FunctionCall(reg: Registry, body: Body, heap: Heap, out: seq<string>): (r: CallResult)
    requires Valid(reg)
    ensures Valid(r.reg)
    ensures BodyOf(reg, body, heap, out).out <= r.out
    ensures r.completion != BodyOf(reg, body, heap, out).completion ==> r.completion.Raised?
  {
    Wrapped(reg, BAILABLE, body, heap, out)
  }

  /** A call of a method of the generated subclass, whose scope has the given policy. */
  function MethodCall(reg: Registry, scopeType: ScopeType, body: Body, heap: Heap, out: seq<string>): (r: CallResult)
    requires Valid(reg)
    ensures Valid(r.reg)
    ensures BodyOf(reg, body, heap, out).out <= r.out
    ensures r.completion != BodyOf(reg, body, heap, out).completion ==> r.completion.Raised?
  {
    Wrapped(reg, scopeType, body, heap, out)
  }

  /**
   * Calls do not leak into each other: a wrapped call that starts with
   * nothing pending (the first call of a process included) runs its body
   * against an empty context, drains exactly what that body deferred, and
   * ends with nothing pending again. The last part rests on the drain
   * discarding what an escaping failure leaves unrun.
   */
  lemma WrappedStaysQuiet(reg: Registry, scopeType: ScopeType, body: Body, heap: Heap, out: seq<string>)
    requires Quiet(reg)
    ensures BodyOf(reg, body, heap, out) == RunBody(Machine(body.frame, heap, out), body.stmts, DeferContext([]))
    ensures var r := Wrapped(reg, scopeType, body, heap, out);
            var b := BodyOf(reg, body, heap, out);
            var c := Consume(b.ctx, scopeType, b.heap, b.out);
            && Quiet(r.reg)
            && r.reg.anonymous.Some?
            && (reg.anonymous.Some? ==> r.reg.anonymous == reg.anonymous)
            && r.heap == c.heap && r.out == c.out
            && r.completion == Surfaced(c.outcome, b.completion)
  {
  }

  /** What a scope object looks like to the dispatch. */
  datatype ScopeObject = ScopeObject(
    implementsRootInterface: bool,   // instanceof PHPDeferrable\DeferrableScopeInterface
    className: Result<string, Throwable>,
    scopeType: Result<ScopeType, Throwable>)

  /** The argument of `makeContextManipulator`. */
  datatype Target =
    | CallableTarget(fn: Body)
    | ClassPath(path: string)
    | ObjectTarget(obj: ScopeObject)
    | InvalidTarget

  /** What `makeContextManipulator` produced. */
  datatype Manipulated =
    | FunctionRan(result: CallResult)                    // a callable, run at once
    | Subclass(parent: string, scopeType: ScopeType)     // an instance of the generated subclass
    | Rejected(ex: Throwable)

  const InvalidParameter: Throwable := DeferrableException("Passed parameter is invalid")

  /**
   * `makeContextManipulator`: a callable runs through the function path; a
   * class path is wrapped as a CONTINUABLE scope; an object implementing the
   * root `DeferrableScopeInterface` is used as is; anything else is rejected.
   */
  function MakeContextManipulator(reg: Registry, target: Target, heap: Heap, out: seq<string>): (r: Manipulated)
    requires Valid(reg)
    ensures target.CallableTarget? ==> r == FunctionRan(FunctionCall(reg, target.fn, heap, out))
    ensures target.ClassPath? ==> r == Subclass(target.path, CONTINUABLE)
    ensures target.InvalidTarget? ==> r == Rejected(InvalidParameter)
    ensures target.ObjectTarget? && !target.obj.implementsRootInterface ==> r == Rejected(InvalidParameter)
    ensures target.ObjectTarget? && r.Subclass? ==>
              Ok(r.parent) == target.obj.className && Ok(r.scopeType) == target.obj.scopeType
  {
    match target
    case CallableTarget(fn) => FunctionRan(FunctionCall(reg, fn, heap, out))
    case ClassPath(path) =>
      var scope := RootScopes.Construct(RootScopes.DeferrableContinuableScope, path);
      var st := RootScopes.GetScopeType(scope);
      Subclass(RootScopes.GetClassName(scope), st.value)
    case ObjectTarget(obj) =>
      if !obj.implementsRootInterface then Rejected(InvalidParameter)
      else
        (match obj.className
         case Err(e) => Rejected(e)
         case Ok(name) =>
           (match obj.scopeType
            case Err(e) => Rejected(e)
            case Ok(st) => Subclass(name, st)))
    case InvalidTarget => Rejected(InvalidParameter)
  }

  /** What PHP throws at `DeferrableContinuableScope::factory(...)`: no shown class declares it. */
  const UndefinedFactory: Throwable :=
    Throwable("Error", Ordinary, "Call to undefined method PHPDeferrable\\DeferrableContinuableScope::factory()")

  /**
   * `makeContextManipulator` as written: the class-path branch calls a
   * `factory` that the root scope classes do not declare, so it throws
   * before any wrapping happens. The other branches are as above.
   */
  function MakeContextManipulatorAsWritten(reg: Registry, target: Target, heap: Heap, out: seq<string>): (r: Manipulated)
    requires Valid(reg)
    ensures target.ClassPath? ==> r == Rejected(UndefinedFactory)
    ensures !target.ClassPath? ==> r == MakeContextManipulator(reg, target, heap, out)
  {
    if target.ClassPath? then Rejected(UndefinedFactory) else MakeContextManipulator(reg, target, heap, out)
  }

  /** A class path is wrapped as intended, but as written it only raises an `Error`. */
  lemma ClassPathNeedsFactory(reg: Registry, path: string, heap: Heap, out: seq<string>)
    requires Valid(reg)
    ensures MakeContextManipulatorAsWritten(reg, ClassPath(path), heap, out) == Rejected(UndefinedFactory)
    ensures MakeContextManipulator(reg, ClassPath(path), heap, out) == Subclass(path, CONTINUABLE)
  {
  }

  /** A root-namespace scope object; its class implements no interface. */
  function RootScopeObject(s: RootScopes.Scope): ScopeObject {
    ScopeObject(false, Ok(RootScopes.GetClassName(s)), RootScopes.GetScopeType(s))
  }

  /** A `Scopes\` scope object; its class implements `Contracts\DeferrableScopeInterface`. */
  function NamespacedScopeObject(s: NamespacedScopes.Scope): ScopeObject {
    ScopeObject(false, NamespacedScopes.GetClassName(s), Ok(NamespacedScopes.GetScopeType(s)))
  }

  /** None of the scope classes in the source passes the dispatch's `instanceof` check. */
  lemma ShownScopeObjectsRejected(reg: Registry, rs: RootScopes.Scope, ns: NamespacedScopes.Scope, heap: Heap, out: seq<string>)
    requires Valid(reg)
    ensures MakeContextManipulator(reg, ObjectTarget(RootScopeObject(rs)), heap, out) == Rejected(InvalidParameter)
    ensures MakeContextManipulator(reg, ObjectTarget(NamespacedScopeObject(ns)), heap, out) == Rejected(InvalidParameter)
  {
  }
}
