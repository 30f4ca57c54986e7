/**
 * The behaviours the repository's test suites fix, stated over the model:
 * each scenario is one test method's calls, with its output, return value
 * or thrown class. Output is a trace of echoed strings.
 */
module Scenarios {
  import opened Common
  import opened Php
  import opened Callbacks
  import opened Contexts
  import opened Consuming
  import opened Bodies
  import GlobalRegistry
  import ClassRegistry

  /** `function () { echo $text; }` */
  function Echoer(text: string): Closure {
    Closure([], [], [Echo(text)])
  }

  /** `$context->defer($f)` or `defer($f)` of each closure in turn, with no variables. */
  function Defers(fs: seq<Closure>): (r: seq<Stmt>)
    ensures |r| == |fs|
    ensures forall i :: 0 <= i < |fs| ==> r[i] == DeferCall(fs[i], [])
  {
    seq(|fs|, i requires 0 <= i < |fs| => DeferCall(fs[i], []))
  }

  /** The callbacks those statements register. */
  function Unbound(fs: seq<Closure>): (r: seq<DeferCallback>)
    ensures |r| == |fs|
    ensures forall i :: 0 <= i < |fs| ==> r[i] == DeferCallback(fs[i], [])
  {
    seq(|fs|, i requires 0 <= i < |fs| => DeferCallback(fs[i], []))
  }

  /** Deferring closures one by one stacks them in registration order. */
  lemma {:induction false} RunDefers(m: Machine, fs: seq<Closure>, rest: seq<Stmt>, ctx: DeferContext)
    ensures RunBody(m, Defers(fs) + rest, ctx) == RunBody(m, rest, DeferAll(ctx, Unbound(fs)))
    decreases |fs|
  {
    if fs != [] {
      var stmts := Defers(fs) + rest;
      assert stmts[0] == DeferCall(fs[0], []);
      assert stmts[1..] == Defers(fs[1..]) + rest;
      var ctx' := DeferForwarding(ctx, fs[0], []);
      assert ctx' == Defer(ctx, DeferCallback(fs[0], []));
      assert Unbound(fs)[1..] == Unbound(fs[1..]);
      RunDefers(m, fs[1..], rest, ctx');
      assert RunBody(m, stmts, ctx) == RunBody(m, stmts[1..], ctx');
      assert DeferAll(ctx, Unbound(fs)) == DeferAll(ctx', Unbound(fs[1..]));
    } else {
      assert Defers(fs) + rest == rest;
    }
  }

  function Echoers(texts: seq<string>): (r: seq<Closure>)
    ensures |r| == |texts|
    ensures forall i :: 0 <= i < |texts| ==> r[i] == Echoer(texts[i])
  {
    seq(|texts|, i requires 0 <= i < |texts| => Echoer(texts[i]))
  }

  function DeferEchoes(texts: seq<string>): seq<Stmt> {
    Defers(Echoers(texts))
  }

  lemma RunDeferEchoes(m: Machine, texts: seq<string>, rest: seq<Stmt>, ctx: DeferContext)
    ensures RunBody(m, DeferEchoes(texts) + rest, ctx) == RunBody(m, rest, DeferAll(ctx, EchoCallbacks(texts)))
  {
    RunDefers(m, Echoers(texts), rest, ctx);
    assert Unbound(Echoers(texts)) == EchoCallbacks(texts);
  }

  /** Running one echo statement last. */
  lemma RunEchoLast(frame: Frame, heap: Heap, out: seq<string>, said: string, ctx: DeferContext)
    ensures RunBody(Machine(frame, heap, out), [Do(Echo(said))], ctx) == BodyRun(ctx, heap, out + [said], Normal(None))
  {
    var stmts := [Do(Echo(said))];
    assert stmts[1..] == [];
  }

  /**
   * A function that creates a context, defers echoers and then echoes
   * something itself prints that first and the deferred texts in reverse
   * order of deferral when it returns.
   */
  lemma LocalScopeEchoes(deferred: seq<string>, said: string, heap: Heap, out: seq<string>)
    ensures LocalScope([], DeferEchoes(deferred) + [Do(Echo(said))], heap, out)
         == Step(heap, out + [said] + Reverse(deferred), Normal(None))
  {
    var m := Machine([], heap, out);
    RunDeferEchoes(m, deferred, [Do(Echo(said))], CreateContext());
    var ctx := DeferAll(CreateContext(), EchoCallbacks(deferred));
    RunEchoLast([], heap, out, said, ctx);
    DestructReversesRegistration(deferred, heap, out + [said]);
  }

  /** Draining a stack of echo callbacks echoes them all and completes. */
  lemma {:induction false} DrainEchoes(texts: seq<string>, scopeType: ScopeType, heap: Heap, out: seq<string>)
    ensures DrainFrom(EchoCallbacks(texts), scopeType, heap, out, 0)
         == Consumed(DeferContext([]), heap, out + texts, Done)
    decreases |texts|
  {
    if texts != [] {
      var stack := EchoCallbacks(texts);
      assert stack[0] == EchoCallback(texts[0]);
      EchoCallbackEchoes(texts[0], heap, out);
      assert stack[1..] == EchoCallbacks(texts[1..]);
      var out' := out + [texts[0]];
      assert DrainFrom(stack, scopeType, heap, out, 0) == DrainFrom(stack[1..], scopeType, heap, out', 0);
      DrainEchoes(texts[1..], scopeType, heap, out');
      AppendHead(out, texts);
    }
  }

  /**
   * A call wrapped under a scope name whose body defers echoers and then
   * echoes: its own text first, then the deferred ones in reverse order,
   * and no name is current afterwards.
   */
  lemma WrappedEchoes(g: GlobalRegistry.Globals, name: string, deferred: seq<string>, said: string, heap: Heap, out: seq<string>)
    requires GlobalRegistry.Valid(g) && GlobalRegistry.Truthy(Some(name))
    ensures var r := GlobalRegistry.Wrapped(g, name, Body([], DeferEchoes(deferred) + [Do(Echo(said))]), heap, out);
            && r.heap == heap
            && r.out == out + [said] + Reverse(deferred)
            && r.completion == Normal(None)
            && r.g.current.None?
  {
    var (g1, id) := GlobalRegistry.Enter(g, name);
    GlobalRegistry.EnterTargetsFreshContext(g, name);
    var m := Machine([], heap, out);
    RunDeferEchoes(m, deferred, [Do(Echo(said))], DeferContext([]));
    var ctx := DeferAll(DeferContext([]), EchoCallbacks(deferred));
    RunEchoLast([], heap, out, said, ctx);
    assert ctx.stack == EchoCallbacks(Reverse(deferred));
    DrainEchoes(Reverse(deferred), CONTINUABLE, heap, out + [said]);
  }

  /** The output of two calls that each defer one echo. */
  lemma OneThenOne(s1: string, x: string, s2: string, z: string)
    ensures [s1] + Reverse([x]) + [s2] + Reverse([z]) == [s1, x, s2, z]
  {
    assert Reverse([x]) == [x] && Reverse([z]) == [z];
  }

  /** The output of a call that defers two echoes, then one that defers one. */
  lemma TwoThenOne(s1: string, x: string, y: string, s2: string, z: string)
    ensures [s1] + Reverse([x, y]) + [s2] + Reverse([z]) == [s1, y, x, s2, z]
  {
    assert [x, y][1..] == [y];
    assert Reverse([x, y]) == [y, x] && Reverse([z]) == [z];
  }

  // ---------------------------------------------------------------------
  // tests/DeferCreateContextFunctionTest.php and the echoing methods of
  // tests/DeferCreateContextClassTest.php: `Defer::createContext()` in a
  // local variable.
  // ---------------------------------------------------------------------

  /** Two closures in a row each run their deferred echo as they return. */
  lemma CreateContextTwoFunctions(heap: Heap)
    ensures var a := LocalScope([], DeferEchoes(["0: deferred call\n"]) + [Do(Echo("0: first call\n"))], heap, []);
            var b := LocalScope([], DeferEchoes(["1: deferred call\n"]) + [Do(Echo("1: first call\n"))], a.heap, a.out);
            b.out == ["0: first call\n", "0: deferred call\n", "1: first call\n", "1: deferred call\n"]
  {
    TwoLocalScopes(["0: deferred call\n"], "0: first call\n", ["1: deferred call\n"], "1: first call\n", heap);
    OneThenOne("0: first call\n", "0: deferred call\n", "1: first call\n", "1: deferred call\n");
  }

  /** Two callbacks deferred on one context run last-in, first-out. */
  lemma CreateContextTwoDefers(heap: Heap)
    ensures LocalScope([], DeferEchoes(["1: deferred call\n", "1: deferred call2\n"]) + [Do(Echo("1: first call\n"))], heap, []).out
         == ["1: first call\n", "1: deferred call2\n", "1: deferred call\n"]
  {
    LocalScopeEchoes(["1: deferred call\n", "1: deferred call2\n"], "1: first call\n", heap, []);
  }

  /** Two such functions called in a row: their outputs follow each other. */
  lemma TwoLocalScopes(d1: seq<string>, s1: string, d2: seq<string>, s2: string, heap: Heap)
    ensures var a := LocalScope([], DeferEchoes(d1) + [Do(Echo(s1))], heap, []);
            var b := LocalScope([], DeferEchoes(d2) + [Do(Echo(s2))], a.heap, a.out);
            b.out == [s1] + Reverse(d1) + [s2] + Reverse(d2)
  {
    var a := LocalScope([], DeferEchoes(d1) + [Do(Echo(s1))], heap, []);
    LocalScopeEchoes(d1, s1, heap, []);
    assert [] + [s1] == [s1];
    assert a == Step(heap, [s1] + Reverse(d1), Normal(None));
    LocalScopeEchoes(d2, s2, heap, [s1] + Reverse(d1));
  }

  /** `doSomething1` then `doSomething2` of the class using `Defer::createContext()`. */
  lemma CreateContextTwoMethods(heap: Heap)
    ensures var a := LocalScope([], DeferEchoes(["Two!\n", "Three!\n"]) + [Do(Echo("One!\n"))], heap, []);
            var b := LocalScope([], DeferEchoes(["NyanNyan!\n"]) + [Do(Echo("Wanwan!\n"))], a.heap, a.out);
            b.out == ["One!\n", "Three!\n", "Two!\n", "Wanwan!\n", "NyanNyan!\n"]
  {
    TwoLocalScopes(["Two!\n", "Three!\n"], "One!\n", ["NyanNyan!\n"], "Wanwan!\n", heap);
    TwoThenOne("One!\n", "Two!\n", "Three!\n", "Wanwan!\n", "NyanNyan!\n");
  }

  const PlainException: Throwable := Throwable("Exception", Ordinary, "exception 2")
  const TestingContextException: Throwable := Throwable("PHPDeferrable\\Test\\TestingContextException", Ordinary, "exception 2")
  const BailableTestingContextException: Throwable :=
    Throwable("PHPDeferrable\\Test\\BailableTestingContextException", Bailable, "exception 2")

  /** Two throwers deferred on a fresh context, then `return`: the later one is on top. */
  lemma TwoThrowersThenReturn(below: Throwable, top: Throwable, heap: Heap, out: seq<string>)
    ensures RunBody(Machine([], heap, out), Defers([Thrower(below), Thrower(top)]) + [Do(Return("Return value"))], CreateContext())
         == BodyRun(DeferContext([DeferCallback(Thrower(top), []), DeferCallback(Thrower(below), [])]), heap, out, Normal(Some("Return value")))
  {
    var fs := [Thrower(below), Thrower(top)];
    var rest := [Do(Return("Return value"))];
    var m := Machine([], heap, out);
    RunDefers(m, fs, rest, CreateContext());
    StackOfTwo(Thrower(below), Thrower(top));
    var ctx := DeferAll(CreateContext(), Unbound(fs));
    RunEndingEffect(m, Return("Return value"), [], ctx);
    assert rest == [Do(Return("Return value"))] + [];
  }

  /**
   * A method that defers two throwing closures on its own context and
   * returns: the destructor runs the later one first, and its throwable,
   * unless it is a `RuntimeException`, escapes in place of the return value.
   */
  lemma LocalScopeTopFailureEscapes(below: Throwable, top: Throwable, heap: Heap, out: seq<string>)
    requires top.kind != Runtime
    ensures LocalScope([], Defers([Thrower(below), Thrower(top)]) + [Do(Return("Return value"))], heap, out)
         == Step(heap, out, Raised(top))
  {
    var ctx := DeferContext([DeferCallback(Thrower(top), []), DeferCallback(Thrower(below), [])]);
    TwoThrowersThenReturn(below, top, heap, out);
    ThrowerRaises(top, heap, out);
    DestructRaisedStep(ctx, heap, out);
  }

  /** Two closures deferred on an empty context, the later on top. */
  lemma StackOfTwo(f1: Closure, f2: Closure)
    ensures DeferAll(DeferContext([]), Unbound([f1, f2])).stack == [DeferCallback(f2, []), DeferCallback(f1, [])]
  {
    var u := Unbound([f1, f2]);
    var r := Reverse(u);
    assert |r| == 2 && r[0] == u[1] && r[1] == u[0];
    assert r + [] == [u[1], u[0]];
  }

  /** Three closures deferred on an empty context, the last on top. */
  lemma StackOfThree(f1: Closure, f2: Closure, f3: Closure)
    ensures DeferAll(DeferContext([]), Unbound([f1, f2, f3])).stack
         == [DeferCallback(f3, []), DeferCallback(f2, []), DeferCallback(f1, [])]
  {
    var u := Unbound([f1, f2, f3]);
    var r := Reverse(u);
    assert |r| == 3 && r[0] == u[2] && r[1] == u[1] && r[2] == u[0];
    assert r + [] == [u[2], u[1], u[0]];
  }

  /**
   * `doSomething4`, `doSomething5` and `doSomething6`: the later deferred
   * throwable escapes. The policy argument `doSomething4` passes is
   * ignored, so `doSomething5` surfaces the same `TestingContextException`,
   * not the `MergedDeferException` its test expects.
   */
  lemma CreateContextFailures(heap: Heap)
    ensures LocalScope([], Defers([Thrower(PlainException), Thrower(TestingContextException)]) + [Do(Return("Return value"))], heap, []).completion
         == Raised(TestingContextException)
    ensures LocalScope([], Defers([Thrower(PlainException), Thrower(BailableTestingContextException)]) + [Do(Return("Return value"))], heap, []).completion
         == Raised(BailableTestingContextException)
  {
    LocalScopeTopFailureEscapes(PlainException, TestingContextException, heap, []);
    LocalScopeTopFailureEscapes(PlainException, BailableTestingContextException, heap, []);
  }

  // ---------------------------------------------------------------------
  // tests/DeferDeferrableFunctionTest.php: `deferrable(callable)` of
  // src/Functions.php.
  // ---------------------------------------------------------------------

  /** Two deferrable functions in a row each drain their own deferred echo. */
  lemma DeferrableTwoFunctions(heap: Heap)
    ensures var g := GlobalRegistry.Init();
            var a := GlobalRegistry.DeferrableFunction(g, Body([], DeferEchoes(["0: deferred call\n"]) + [Do(Echo("0: first call\n"))]), heap, []);
            var b := GlobalRegistry.DeferrableFunction(a.g, Body([], DeferEchoes(["1: deferred call\n"]) + [Do(Echo("1: first call\n"))]), a.heap, a.out);
            b.out == ["0: first call\n", "0: deferred call\n", "1: first call\n", "1: deferred call\n"]
  {
    assert GlobalRegistry.Truthy(Some(GlobalRegistry.FunctionScopeName));
    TwoWrappedCalls(GlobalRegistry.FunctionScopeName, ["0: deferred call\n"], "0: first call\n",
                    GlobalRegistry.FunctionScopeName, ["1: deferred call\n"], "1: first call\n", heap);
    OneThenOne("0: first call\n", "0: deferred call\n", "1: first call\n", "1: deferred call\n");
  }

  /** Two `defer`s in one deferrable function run last-in, first-out. */
  lemma DeferrableTwoDefers(heap: Heap)
    ensures GlobalRegistry.DeferrableFunction(GlobalRegistry.Init(),
              Body([], DeferEchoes(["1: deferred call\n", "1: deferred call2\n"]) + [Do(Echo("1: first call\n"))]), heap, []).out
         == ["1: first call\n", "1: deferred call2\n", "1: deferred call\n"]
  {
    assert GlobalRegistry.Truthy(Some(GlobalRegistry.FunctionScopeName));
    WrappedEchoes(GlobalRegistry.Init(), GlobalRegistry.FunctionScopeName, ["1: deferred call\n", "1: deferred call2\n"], "1: first call\n", heap, []);
  }

  // ---------------------------------------------------------------------
  // tests/DeferDeferrableClassTest.php: methods of `deferrable(Class::class)`
  // from src/Functions.php. The method's local `$message` is cell 0.
  // ---------------------------------------------------------------------

  /**
   * The temporary subclass `deferrable` generates for the test class;
   * `__CLASS__` inside its methods names it, not the test class.
   */
  const GeneratedClass: string := "__defer__anonymous_0"

  /** Two echoing methods called one after the other on the generated subclass. */
  lemma TwoWrappedCalls(n1: string, d1: seq<string>, s1: string, n2: string, d2: seq<string>, s2: string, heap: Heap)
    requires GlobalRegistry.Truthy(Some(n1)) && GlobalRegistry.Truthy(Some(n2))
    ensures var a := GlobalRegistry.Wrapped(GlobalRegistry.Init(), n1, Body([], DeferEchoes(d1) + [Do(Echo(s1))]), heap, []);
            var b := GlobalRegistry.Wrapped(a.g, n2, Body([], DeferEchoes(d2) + [Do(Echo(s2))]), a.heap, a.out);
            b.out == [s1] + Reverse(d1) + [s2] + Reverse(d2)
  {
    var g := GlobalRegistry.Init();
    WrappedEchoes(g, n1, d1, s1, heap, []);
    var a := GlobalRegistry.Wrapped(g, n1, Body([], DeferEchoes(d1) + [Do(Echo(s1))]), heap, []);
    assert [] + [s1] == [s1];
    assert a.heap == heap && a.out == [s1] + Reverse(d1);
    WrappedEchoes(a.g, n2, d2, s2, heap, a.out);
  }

  /** `doSomething1` then `doSomething2` of the generated subclass. */
  lemma DeferrableTwoMethods(heap: Heap)
    ensures var g := GlobalRegistry.Init();
            var a := GlobalRegistry.MethodCall(g, GeneratedClass, "doSomething1",
                       Body([], DeferEchoes(["Two!\n", "Three!\n"]) + [Do(Echo("One!\n"))]), heap, []);
            var b := GlobalRegistry.MethodCall(a.g, GeneratedClass, "doSomething2",
                       Body([], DeferEchoes(["NyanNyan!\n"]) + [Do(Echo("Wanwan!\n"))]), a.heap, a.out);
            b.out == ["One!\n", "Three!\n", "Two!\n", "Wanwan!\n", "NyanNyan!\n"]
  {
    TwoWrappedCalls(GlobalRegistry.MethodScopeName(GeneratedClass, "doSomething1"), ["Two!\n", "Three!\n"], "One!\n",
                    GlobalRegistry.MethodScopeName(GeneratedClass, "doSomething2"), ["NyanNyan!\n"], "Wanwan!\n", heap);
    TwoThenOne("One!\n", "Two!\n", "Three!\n", "Wanwan!\n", "NyanNyan!\n");
  }

  /** `function (&$message) { $message = 'Test2'; }` */
  const RefSetter: Closure := Closure([ByRef], [], [Assign(0, "Test2")])
  /** `function (&$message) { echo $message; }` */
  const RefEcho: Closure := Closure([ByRef], [], [EchoSlot(0)])
  /** `function () use (&$message) { $message = 'Test2'; }` */
  const UseSetter: Closure := Closure([], [Ref(0)], [Assign(0, "Test2")])
  /** `function () use (&$message) { echo $message; }` */
  const UseEcho: Closure := Closure([], [Ref(0)], [EchoSlot(0)])
  /** `function ($message) { $message = 'Test2'; }` */
  const ValSetter: Closure := Closure([ByVal], [], [Assign(0, "Test2")])
  /** `function ($message) { echo $message; }` */
  const ValEcho: Closure := Closure([ByVal], [], [EchoSlot(0)])

  /** `doSomething6`: defers a by-reference setter of `$message` and returns `$message`. */
  function DoSomething6(): Body {
    Body([Ref(0)], [Do(Assign(0, "Test")), DeferCall(RefSetter, [0]), Do(ReturnSlot(0))])
  }

  /** A drain of one callback that completes runs it and ends quietly. */
  lemma OneCallbackDrain(cb: DeferCallback, scopeType: ScopeType, heap: Heap, out: seq<string>)
    requires Invoke(cb, heap, out).completion.Normal?
    ensures var s := Invoke(cb, heap, out);
            DrainFrom([cb], scopeType, heap, out, 0) == Consumed(DeferContext([]), s.heap, s.out, Done)
  {
    assert [cb][1..] == [];
  }

  /**
   * The shape of `doSomething6`: set `$message`, defer one closure, return
   * `$message`. The value returned is the one read before the drain; the
   * deferred call's effects are there afterwards.
   */
  lemma SetDeferReturn(g: GlobalRegistry.Globals, name: string, f: Closure, a: seq<Cell>, heap: Heap, out: seq<string>)
    requires GlobalRegistry.Valid(g) && GlobalRegistry.Truthy(Some(name))
    requires Invoke(DeferCallback(f, a), heap[0 := "Test"], out).completion.Normal?
    ensures var s := Invoke(DeferCallback(f, a), heap[0 := "Test"], out);
            var r := GlobalRegistry.Wrapped(g, name, Body([Ref(0)], [Do(Assign(0, "Test")), DeferCall(f, a), Do(ReturnSlot(0))]), heap, out);
            r.heap == s.heap && r.out == s.out && r.completion == Normal(Some("Test"))
  {
    var body := Body([Ref(0)], [Do(Assign(0, "Test")), DeferCall(f, a), Do(ReturnSlot(0))]);
    GlobalRegistry.WrappedDrainsOwnContext(g, name, body, heap, out);
    SetDeferReturnBody(f, a, heap, out);
    OneCallbackDrain(DeferCallback(f, a), CONTINUABLE, heap[0 := "Test"], out);
  }

  /** The body of that shape returns "Test" with the one closure deferred. */
  lemma SetDeferReturnBody(f: Closure, a: seq<Cell>, heap: Heap, out: seq<string>)
    ensures RunBody(Machine([Ref(0)], heap, out), [Do(Assign(0, "Test")), DeferCall(f, a), Do(ReturnSlot(0))], DeferContext([]))
         == BodyRun(DeferContext([DeferCallback(f, a)]), heap[0 := "Test"], out, Normal(Some("Test")))
  {
    var stmts := [Do(Assign(0, "Test")), DeferCall(f, a), Do(ReturnSlot(0))];
    var m0 := Machine([Ref(0)], heap, out);
    var m1 := Machine([Ref(0)], heap[0 := "Test"], out);
    var ctx := DeferForwarding(DeferContext([]), f, a);
    assert RunBody(m0, stmts, DeferContext([])) == RunBody(m1, stmts[1..], DeferContext([])) by {
      assert stmts == [Do(Assign(0, "Test"))] + stmts[1..];
      RunEffectFirst(m0, Assign(0, "Test"), stmts[1..], DeferContext([]));
      assert Apply(m0, Assign(0, "Test")).0 == m1;
    }
    assert RunBody(m1, stmts[1..], DeferContext([])) == RunBody(m1, stmts[2..], ctx) by {
      assert stmts[1..] == [DeferCall(f, a)] + stmts[2..];
      RunDeferFirst(m1, f, a, stmts[2..], DeferContext([]));
    }
    assert RunBody(m1, stmts[2..], ctx) == BodyRun(ctx, heap[0 := "Test"], out, Normal(Some("Test"))) by {
      assert stmts[2..] == [Do(ReturnSlot(0))] + [];
      RunEndingEffect(m1, ReturnSlot(0), [], ctx);
    }
    assert ctx.stack == [DeferCallback(f, a)];
  }

  /**
   * The return value is taken before the `finally` drains: the method
   * returns "Test", and the deferred setter has changed the variable to
   * "Test2" by the time the call is over.
   */
  lemma ReturnValueTakenBeforeDrain(heap: Heap, out: seq<string>)
    ensures var r := GlobalRegistry.MethodCall(GlobalRegistry.Init(), GeneratedClass, "doSomething6", DoSomething6(), heap, out);
            && r.completion == Normal(Some("Test"))
            && Read(r.heap, 0) == "Test2"
  {
    SetDeferReturn(GlobalRegistry.Init(), GlobalRegistry.MethodScopeName(GeneratedClass, "doSomething6"), RefSetter, [0], heap, out);
    ByRefAssignmentVisible(RefSetter, 0, "Test2", [0], heap[0 := "Test"], out);
  }

  /** The body of that shape leaves the two closures stacked, the second on top. */
  lemma SetThenDeferTwoBody(f1: Closure, a1: seq<Cell>, f2: Closure, a2: seq<Cell>, heap: Heap, out: seq<string>)
    ensures RunBody(Machine([Ref(0)], heap, out), [Do(Assign(0, "Test")), DeferCall(f1, a1), DeferCall(f2, a2)], DeferContext([]))
         == BodyRun(DeferContext([DeferCallback(f2, a2), DeferCallback(f1, a1)]), heap[0 := "Test"], out, Normal(None))
  {
    var stmts := [Do(Assign(0, "Test")), DeferCall(f1, a1), DeferCall(f2, a2)];
    var m1 := Machine([Ref(0)], heap[0 := "Test"], out);
    var ctx1 := DeferForwarding(DeferContext([]), f1, a1);
    var ctx2 := DeferForwarding(ctx1, f2, a2);
    assert ctx2.stack == [DeferCallback(f2, a2), DeferCallback(f1, a1)];
    assert stmts[1..][1..][1..] == [];
    assert RunBody(Machine([Ref(0)], heap, out), stmts, DeferContext([])) == RunBody(m1, stmts[1..], DeferContext([]));
    assert RunBody(m1, stmts[1..], DeferContext([])) == RunBody(m1, stmts[1..][1..], ctx1);
    assert RunBody(m1, stmts[1..][1..], ctx1) == RunBody(m1, [], ctx2);
  }

  /** A drain of two callbacks that both complete runs the top one, then the other. */
  lemma TwoCallbackDrain(cb2: DeferCallback, cb1: DeferCallback, heap: Heap, out: seq<string>)
    requires Invoke(cb2, heap, out).completion.Normal?
    requires var s2 := Invoke(cb2, heap, out); Invoke(cb1, s2.heap, s2.out).completion.Normal?
    ensures var s2 := Invoke(cb2, heap, out);
            var s1 := Invoke(cb1, s2.heap, s2.out);
            DrainFrom([cb2, cb1], CONTINUABLE, heap, out, 0) == Consumed(DeferContext([]), s1.heap, s1.out, Done)
  {
    var s2 := Invoke(cb2, heap, out);
    assert [cb2, cb1][1..] == [cb1];
    assert DrainFrom([cb2, cb1], CONTINUABLE, heap, out, 0) == DrainFrom([cb1], CONTINUABLE, s2.heap, s2.out, 0);
    OneCallbackDrain(cb1, CONTINUABLE, s2.heap, s2.out);
  }

  /**
   * The shape of `doSomething7`, `doSomething8` and `doSomething9`: set
   * `$message`, defer two closures, fall off the end. When both deferred
   * calls complete, the later-deferred one runs first and the call returns
   * `null`.
   */
  lemma SetThenDeferTwo(g: GlobalRegistry.Globals, name: string, f1: Closure, a1: seq<Cell>, f2: Closure, a2: seq<Cell>,
                        heap: Heap, out: seq<string>)
    requires GlobalRegistry.Valid(g) && GlobalRegistry.Truthy(Some(name))
    requires Invoke(DeferCallback(f2, a2), heap[0 := "Test"], out).completion.Normal?
    requires var s2 := Invoke(DeferCallback(f2, a2), heap[0 := "Test"], out);
             Invoke(DeferCallback(f1, a1), s2.heap, s2.out).completion.Normal?
    ensures var s2 := Invoke(DeferCallback(f2, a2), heap[0 := "Test"], out);
            var s1 := Invoke(DeferCallback(f1, a1), s2.heap, s2.out);
            var r := GlobalRegistry.Wrapped(g, name, Body([Ref(0)], [Do(Assign(0, "Test")), DeferCall(f1, a1), DeferCall(f2, a2)]), heap, out);
            && r.heap == s1.heap && r.out == s1.out && r.completion == Normal(None)
  {
    var body := Body([Ref(0)], [Do(Assign(0, "Test")), DeferCall(f1, a1), DeferCall(f2, a2)]);
    GlobalRegistry.WrappedDrainsOwnContext(g, name, body, heap, out);
    SetThenDeferTwoBody(f1, a1, f2, a2, heap, out);
    TwoCallbackDrain(DeferCallback(f2, a2), DeferCallback(f1, a1), heap[0 := "Test"], out);
  }

  /**
   * `doSomething7`: two closures taking `&$message` as deferred arguments.
   * The setter runs first, so the echo prints "Test2".
   */
  lemma DeferredArgumentsByReference(heap: Heap)
    ensures GlobalRegistry.MethodCall(GlobalRegistry.Init(), GeneratedClass, "doSomething7",
              Body([Ref(0)], [Do(Assign(0, "Test")), DeferCall(RefEcho, [0]), DeferCall(RefSetter, [0])]), heap, []).out
         == ["Test2"]
  {
    var heap1 := heap[0 := "Test"];
    ByRefAssignmentVisible(RefSetter, 0, "Test2", [0], heap1, []);
    SingleEffectCall(RefEcho, [0], heap1[0 := "Test2"], []);
    assert Bind([ByRef], [0], heap1[0 := "Test2"]) == [Ref(0)];
    SetThenDeferTwo(GlobalRegistry.Init(), GlobalRegistry.MethodScopeName(GeneratedClass, "doSomething7"),
                    RefEcho, [0], RefSetter, [0], heap, []);
  }

  /** `doSomething8`: the same with `use (&$message)`: the echo prints "Test2". */
  lemma CapturedByReference(heap: Heap)
    ensures GlobalRegistry.MethodCall(GlobalRegistry.Init(), GeneratedClass, "doSomething8",
              Body([Ref(0)], [Do(Assign(0, "Test")), DeferCall(UseEcho, []), DeferCall(UseSetter, [])]), heap, []).out
         == ["Test2"]
  {
    var heap1 := heap[0 := "Test"];
    SingleEffectCall(UseSetter, [], heap1, []);
    assert Bind([], [], heap1) + [Ref(0)] == [Ref(0)];
    SingleEffectCall(UseEcho, [], heap1[0 := "Test2"], []);
    assert Bind([], [], heap1[0 := "Test2"]) + [Ref(0)] == [Ref(0)];
    SetThenDeferTwo(GlobalRegistry.Init(), GlobalRegistry.MethodScopeName(GeneratedClass, "doSomething8"),
                    UseEcho, [], UseSetter, [], heap, []);
  }

  /**
   * `doSomething9`: closures taking `$message` by value: the setter changes
   * only its own copy, and the echo prints "Test".
   */
  lemma DeferredArgumentsByValue(heap: Heap)
    ensures GlobalRegistry.MethodCall(GlobalRegistry.Init(), GeneratedClass, "doSomething9",
              Body([Ref(0)], [Do(Assign(0, "Test")), DeferCall(ValEcho, [0]), DeferCall(ValSetter, [0])]), heap, []).out
         == ["Test"]
  {
    var heap1 := heap[0 := "Test"];
    SingleEffectCall(ValSetter, [0], heap1, []);
    assert Bind([ByVal], [0], heap1) == [Val("Test")];
    SingleEffectCall(ValEcho, [0], heap1, []);
    SetThenDeferTwo(GlobalRegistry.Init(), GlobalRegistry.MethodScopeName(GeneratedClass, "doSomething9"),
                    ValEcho, [0], ValSetter, [0], heap, []);
  }

  /** The body of a deferrable function that defers an empty closure and returns a value. */
  lemma DeferNoopThenReturn(heap: Heap)
    ensures RunBody(Machine([], heap, []), [DeferCall(Closure([], [], []), []), Do(Return("Return value"))], DeferContext([]))
         == BodyRun(DeferContext([DeferCallback(Closure([], [], []), [])]), heap, [], Normal(Some("Return value")))
  {
    var noop := Closure([], [], []);
    var m := Machine([], heap, []);
    var ctx := DeferForwarding(DeferContext([]), noop, []);
    var rest := [Do(Return("Return value"))];
    RunDeferFirst(m, noop, [], rest, DeferContext([]));
    assert rest == [Do(Return("Return value"))] + [];
    RunEndingEffect(m, Return("Return value"), [], ctx);
    assert ctx.stack == [DeferCallback(noop, [])];
  }

  /**
   * A deferrable function that defers an empty closure and returns a value:
   * the drain leaves the return value alone.
   */
  lemma ReturnValueSurvivesDrain(heap: Heap)
    ensures GlobalRegistry.DeferrableFunction(GlobalRegistry.Init(),
              Body([], [DeferCall(Closure([], [], []), []), Do(Return("Return value"))]), heap, []).completion
         == Normal(Some("Return value"))
  {
    var noop := Closure([], [], []);
    var body := Body([], [DeferCall(noop, []), Do(Return("Return value"))]);
    assert GlobalRegistry.Truthy(Some(GlobalRegistry.FunctionScopeName));
    GlobalRegistry.WrappedDrainsOwnContext(GlobalRegistry.Init(), GlobalRegistry.FunctionScopeName, body, heap, []);
    DeferNoopThenReturn(heap);
    assert Invoke(DeferCallback(noop, []), heap, []) == Step(heap, [], Normal(None));
    OneCallbackDrain(DeferCallback(noop, []), CONTINUABLE, heap, []);
  }

  const RuntimeTest3: Throwable := RuntimeException("exception test 3")
  const PlainTest2: Throwable := Throwable("Exception", Ordinary, "exception test 2")
  const TestingTest1: Throwable := Throwable("PHPDeferrable\\Test\\TestingException", Ordinary, "exception test 1")
  const TestingTest3: Throwable := Throwable("PHPDeferrable\\Test\\TestingException", Ordinary, "exception test 3")
  const BailableTest2: Throwable := Throwable("PHPDeferrable\\Test\\BailableTestingException", Bailable, "exception test 2")
  const PlainTest1: Throwable := Throwable("Exception", Ordinary, "exception test 1")

  /** A body that defers three throwing closures and falls off the end. */
  function ThreeFailures(first: Throwable, second: Throwable, third: Throwable): Body {
    Body([], Defers([Thrower(first), Thrower(second), Thrower(third)]))
  }

  /** Such a body leaves the three throwers stacked, the last deferred on top. */
  lemma ThreeFailuresStacked(first: Throwable, second: Throwable, third: Throwable, heap: Heap, out: seq<string>)
    ensures RunBody(Machine([], heap, out), ThreeFailures(first, second, third).stmts, DeferContext([]))
         == BodyRun(DeferContext([DeferCallback(Thrower(third), []), DeferCallback(Thrower(second), []), DeferCallback(Thrower(first), [])]),
                    heap, out, Normal(None))
  {
    var fs := [Thrower(first), Thrower(second), Thrower(third)];
    RunDefers(Machine([], heap, out), fs, [], DeferContext([]));
    assert Defers(fs) + [] == Defers(fs);
    var u := Unbound(fs);
    var d := DeferAll(DeferContext([]), u);
    var r := Reverse(u);
    assert |r| == 3 && r[0] == u[2] && r[1] == u[1] && r[2] == u[0];
    assert d.stack == r + [] == [u[2], u[1], u[0]];
  }

  /** Three throwers whose failures do not always bail: under CONTINUABLE all run and merge. */
  lemma ThreeOrdinaryThrowersMerge(x: Throwable, y: Throwable, z: Throwable, heap: Heap, out: seq<string>)
    requires x.kind != Bailable && y.kind != Bailable && z.kind != Bailable
    ensures DrainFrom([DeferCallback(Thrower(x), []), DeferCallback(Thrower(y), []), DeferCallback(Thrower(z), [])],
                      CONTINUABLE, heap, out, 0)
         == Consumed(DeferContext([]), heap, out, Merged)
  {
    var stack := [DeferCallback(Thrower(x), []), DeferCallback(Thrower(y), []), DeferCallback(Thrower(z), [])];
    assert DrainFrom(stack, CONTINUABLE, heap, out, 0) == DrainFrom(stack[1..], CONTINUABLE, heap, out, 1) by {
      ThrowerRaises(x, heap, out);
    }
    assert DrainFrom(stack[1..], CONTINUABLE, heap, out, 1) == DrainFrom(stack[2..], CONTINUABLE, heap, out, 2) by {
      assert stack[1..][0] == DeferCallback(Thrower(y), []) && stack[1..][1..] == stack[2..];
      ThrowerRaises(y, heap, out);
    }
    assert DrainFrom(stack[2..], CONTINUABLE, heap, out, 2) == DrainFrom([], CONTINUABLE, heap, out, 3) by {
      assert stack[2..][0] == DeferCallback(Thrower(z), []) && stack[2..][1..] == [];
      ThrowerRaises(z, heap, out);
    }
  }

  /** Under BAILABLE a stack of throwers stops at the top one. */
  lemma ThreeThrowersBail(x: Throwable, y: Throwable, z: Throwable, heap: Heap, out: seq<string>)
    ensures DrainFrom([DeferCallback(Thrower(x), []), DeferCallback(Thrower(y), []), DeferCallback(Thrower(z), [])],
                      BAILABLE, heap, out, 0).outcome
         == Thrown(x)
  {
    ThrowerRaises(x, heap, out);
  }

  /** Under CONTINUABLE an ordinary failure is collected and a bailable one below it escapes. */
  lemma OrdinaryThenBailable(x: Throwable, y: Throwable, z: Throwable, heap: Heap, out: seq<string>)
    requires x.kind != Bailable && y.kind == Bailable
    ensures DrainFrom([DeferCallback(Thrower(x), []), DeferCallback(Thrower(y), []), DeferCallback(Thrower(z), [])],
                      CONTINUABLE, heap, out, 0).outcome
         == Thrown(y)
  {
    var stack := [DeferCallback(Thrower(x), []), DeferCallback(Thrower(y), []), DeferCallback(Thrower(z), [])];
    ThrowerRaises(x, heap, out);
    ThrowerRaises(y, heap, out);
    assert DrainFrom(stack, CONTINUABLE, heap, out, 0) == DrainFrom(stack[1..], CONTINUABLE, heap, out, 1);
    assert stack[1..][0] == DeferCallback(Thrower(y), []);
  }

  /** `doSomething10` under the default policy: three ordinary failures merge. */
  lemma ContinuableMergesThree(heap: Heap, out: seq<string>)
    ensures GlobalRegistry.MethodCall(GlobalRegistry.Init(), GeneratedClass, "doSomething10",
              ThreeFailures(RuntimeTest3, PlainTest2, TestingTest1), heap, out).completion
         == Raised(MergedDeferException)
  {
    var g := GlobalRegistry.Init();
    var body := ThreeFailures(RuntimeTest3, PlainTest2, TestingTest1);
    GlobalRegistry.WrappedDrainsOwnContext(g, GlobalRegistry.MethodScopeName(GeneratedClass, "doSomething10"), body, heap, out);
    ThreeFailuresStacked(RuntimeTest3, PlainTest2, TestingTest1, heap, out);
    ThreeOrdinaryThrowersMerge(TestingTest1, PlainTest2, RuntimeTest3, heap, out);
  }

  /**
   * `doSomething12` under the default policy: the ordinary failure on top
   * is collected, then the bailable one below it escapes unwrapped and the
   * last deferred closure never runs.
   */
  lemma BailableEscapesUnwrapped(heap: Heap, out: seq<string>)
    ensures GlobalRegistry.MethodCall(GlobalRegistry.Init(), GeneratedClass, "doSomething12",
              ThreeFailures(TestingTest3, BailableTest2, PlainTest1), heap, out).completion
         == Raised(BailableTest2)
  {
    var g := GlobalRegistry.Init();
    var body := ThreeFailures(TestingTest3, BailableTest2, PlainTest1);
    GlobalRegistry.WrappedDrainsOwnContext(g, GlobalRegistry.MethodScopeName(GeneratedClass, "doSomething12"), body, heap, out);
    ThreeFailuresStacked(TestingTest3, BailableTest2, PlainTest1, heap, out);
    OrdinaryThenBailable(PlainTest1, BailableTest2, TestingTest3, heap, out);
  }

  /**
   * `doSomething10` in a BAILABLE method scope (src/Deferrable.php): the
   * drain stops at the first failure, the `TestingException` deferred last.
   */
  lemma BailableScopeStopsAtFirstFailure(reg: ClassRegistry.Registry, heap: Heap, out: seq<string>)
    requires ClassRegistry.Quiet(reg)
    ensures ClassRegistry.MethodCall(reg, BAILABLE, ThreeFailures(RuntimeTest3, PlainTest2, TestingTest1), heap, out).completion
         == Raised(TestingTest1)
  {
    var body := ThreeFailures(RuntimeTest3, PlainTest2, TestingTest1);
    ClassRegistry.WrappedStaysQuiet(reg, BAILABLE, body, heap, out);
    ThreeFailuresStacked(RuntimeTest3, PlainTest2, TestingTest1, heap, out);
    ThreeThrowersBail(TestingTest1, PlainTest2, RuntimeTest3, heap, out);
  }

  /**
   * The arguments `defer` forwards: as written, `DeferContext::defer`
   * keeps only the closure, so a deferred closure that declares
   * `&$message` is later called with no argument and raises
   * `ArgumentCountError`; with the arguments bound it assigns the
   * caller's variable.
   */
  lemma ForwardedArgumentsDropped(ctx: DeferContext, cell: Cell, heap: Heap, out: seq<string>)
    ensures var cb := Pop(DeferForwardingAsWritten(ctx, RefSetter, [cell])).value.top;
            Invoke(cb, heap, out) == Step(heap, out, Raised(TooFewArguments))
    ensures var cb := Pop(DeferForwarding(ctx, RefSetter, [cell])).value.top;
            Invoke(cb, heap, out) == Step(heap[cell := "Test2"], out, Normal(None))
  {
    ByRefAssignmentVisible(RefSetter, 0, "Test2", [cell], heap, out);
  }
}
