/**
 * The defer context of src/DeferContext.php and its factory in
 * src/Defer.php: a LIFO stack of deferred callbacks that is drained when the
 * context object is destroyed.
 *
 * The stack is a sequence whose element 0 is the top, so the order in which
 * a drain invokes callbacks is the sequence itself, and the order in which
 * they were registered is its reverse.
 */
module Contexts {
  import opened Common
  import opened Php
  import opened Callbacks

  datatype DeferContext = DeferContext(stack: seq<DeferCallback>)

  /**
   * `DeferContext::__construct(?SplStack $splStack = null)`: adopts the stack
   * it is given, or starts a fresh empty one.
   */
  function Construct(given: Option<seq<DeferCallback>>): (c: DeferContext)
    ensures given.Some? ==> c.stack == given.value
    ensures given.None? ==> c.stack == []
  {
    DeferContext(given.GetOr([]))
  }

  /** `Defer::createContext()`: a context over a new, empty `SplStack`. */
  function CreateContext(): (c: DeferContext)
    ensures c.stack == []
  {
    Construct(Some([]))
  }

  /** `DeferContext::defer`: pushes a callable on top; returns the context for chaining. */
  function Defer(ctx: DeferContext, cb: DeferCallback): (r: DeferContext)
    ensures |r.stack| == |ctx.stack| + 1
  {
    DeferContext([cb] + ctx.stack)
  }

  datatype Popped = Popped(top: DeferCallback, rest: DeferContext)

  /**
   * `DeferContext::pop`, that is `SplStack::pop`: removes the top, or throws
   * a `RuntimeException` when the stack is empty.
   */
  function Pop(ctx: DeferContext): (r: Result<Popped, Throwable>)
    ensures r.Err? <==> ctx.stack == []
    ensures r.Err? ==> r.error == EmptyPop
    ensures r.Ok? ==> Defer(r.value.rest, r.value.top) == ctx
  {
    if ctx.stack == [] then Err(EmptyPop)
    else Ok(Popped(ctx.stack[0], DeferContext(ctx.stack[1..])))
  }

  /** Pop returns the most recently deferred callback and the context before it. */
  lemma PopUndoesDefer(ctx: DeferContext, cb: DeferCallback)
    ensures Pop(Defer(ctx, cb)) == Ok(Popped(cb, ctx))
  {
    assert Defer(ctx, cb).stack[1..] == ctx.stack;
  }

  /** Defers the callbacks one after another, in registration order. */
  function DeferAll(ctx: DeferContext, regs: seq<DeferCallback>): (r: DeferContext)
    ensures r.stack == Reverse(regs) + ctx.stack
    decreases |regs|
  {
    if regs == [] then ctx
    else
      var r := DeferAll(Defer(ctx, regs[0]), regs[1..]);
      assert Reverse(regs) == Reverse(regs[1..]) + [regs[0]];
      r
  }

  /**
   * `$context->defer($callback, ...$arguments)` as the registries call it
   * while `DeferContext::defer` declares only `$callback`: PHP discards the
   * extra arguments, so the closure is later invoked with none.
   */
  function DeferForwardingAsWritten(ctx: DeferContext, callback: Closure, arguments: seq<Cell>): (r: DeferContext)
    ensures Pop(r) == Ok(Popped(DeferCallback(callback, []), ctx))
  {
    PopUndoesDefer(ctx, Factory(callback, []));
    Defer(ctx, Factory(callback, []))
  }

  /**
   * The forwarding the registries and their tests rely on: the closure is
   * bound to the deferred variables through `DeferCallback::factory`.
   */
  function DeferForwarding(ctx: DeferContext, callback: Closure, arguments: seq<Cell>): (r: DeferContext)
    ensures Pop(r) == Ok(Popped(DeferCallback(callback, arguments), ctx))
  {
    PopUndoesDefer(ctx, Factory(callback, arguments));
    Defer(ctx, Factory(callback, arguments))
  }

  // ---------------------------------------------------------------------
  // Reference semantics: invoke every callback in order, whatever happens.
  // ---------------------------------------------------------------------

  /** Memory and output after a run of callbacks, and how each call ended. */
  datatype Trace = Trace(heap: Heap, out: seq<string>, results: seq<Completion>)

  /** Invokes each callback in turn, ignoring failures. */
  function InvokeAll(cbs: seq<DeferCallback>, heap: Heap, out: seq<string>): (t: Trace)
    ensures |t.results| == |cbs|
    ensures out <= t.out
    decreases |cbs|
  {
    if cbs == [] then Trace(heap, out, [])
    else
      var s := Invoke(cbs[0], heap, out);
      var t := InvokeAll(cbs[1..], s.heap, s.out);
      Trace(t.heap, t.out, [s.completion] + t.results)
  }

  /** Running a + b from a non-empty a starts with a's top callback. */
  lemma AppendStep(a: seq<DeferCallback>, b: seq<DeferCallback>, heap: Heap, out: seq<string>)
    requires a != []
    ensures var s := Invoke(a[0], heap, out);
            var t := InvokeAll(a[1..] + b, s.heap, s.out);
            InvokeAll(a + b, heap, out) == Trace(t.heap, t.out, [s.completion] + t.results)
  {
    assert (a + b)[0] == a[0];
    assert (a + b)[1..] == a[1..] + b;
  }

  /** The inductive step of InvokeAllAppend: it holds for a once it holds for a's tail. */
  lemma AppendCons(a: seq<DeferCallback>, b: seq<DeferCallback>, heap: Heap, out: seq<string>)
    requires a != []
    requires var s := Invoke(a[0], heap, out);
             var ta' := InvokeAll(a[1..], s.heap, s.out);
             var tb := InvokeAll(b, ta'.heap, ta'.out);
             InvokeAll(a[1..] + b, s.heap, s.out) == Trace(tb.heap, tb.out, ta'.results + tb.results)
    ensures var ta := InvokeAll(a, heap, out);
            var tb := InvokeAll(b, ta.heap, ta.out);
            InvokeAll(a + b, heap, out) == Trace(tb.heap, tb.out, ta.results + tb.results)
  {
    var s := Invoke(a[0], heap, out);
    var ta' := InvokeAll(a[1..], s.heap, s.out);
    var tb := InvokeAll(b, ta'.heap, ta'.out);
    AppendStep(a, b, heap, out);
    InvokeAllStep(a, heap, out);
    assert [s.completion] + (ta'.results + tb.results) == [s.completion] + ta'.results + tb.results;
  }

  /** Running a + b is running a, then b from where a left off. */
  lemma {:induction false} InvokeAllAppend(a: seq<DeferCallback>, b: seq<DeferCallback>, heap: Heap, out: seq<string>)
    ensures var ta := InvokeAll(a, heap, out);
            var tb := InvokeAll(b, ta.heap, ta.out);
            InvokeAll(a + b, heap, out) == Trace(tb.heap, tb.out, ta.results + tb.results)
    decreases |a|
  {
    if a != [] {
      var s := Invoke(a[0], heap, out);
      InvokeAllAppend(a[1..], b, s.heap, s.out);
      AppendCons(a, b, heap, out);
    } else {
      assert a + b == b;
    }
  }

  /** The results of a prefix of the callbacks are a prefix of the results. */
  lemma InvokeAllPrefix(cbs: seq<DeferCallback>, n: nat, heap: Heap, out: seq<string>)
    requires n <= |cbs|
    ensures InvokeAll(cbs[..n], heap, out).results == InvokeAll(cbs, heap, out).results[..n]
  {
    assert cbs == cbs[..n] + cbs[n..];
    InvokeAllAppend(cbs[..n], cbs[n..], heap, out);
  }

  /** The reference run of a non-empty sequence: the top, then the rest. */
  lemma InvokeAllStep(cbs: seq<DeferCallback>, heap: Heap, out: seq<string>)
    requires cbs != []
    ensures var s := Invoke(cbs[0], heap, out);
            var t := InvokeAll(cbs, heap, out);
            var t' := InvokeAll(cbs[1..], s.heap, s.out);
            && t.results == [s.completion] + t'.results
            && t.results[1..] == t'.results
            && t.heap == t'.heap && t.out == t'.out
  {
  }

  /** Invokes the first n callbacks in turn, ignoring failures. */
  function InvokeFirst(cbs: seq<DeferCallback>, n: nat, heap: Heap, out: seq<string>): (t: Trace)
    requires n <= |cbs|
    ensures |t.results| == n
    ensures out <= t.out
    decreases n
  {
    if n == 0 then Trace(heap, out, [])
    else
      var s := Invoke(cbs[0], heap, out);
      var t := InvokeFirst(cbs[1..], n - 1, s.heap, s.out);
      Trace(t.heap, t.out, [s.completion] + t.results)
  }

  /** Invoking the first n = m + 1 callbacks invokes the top, then the next m. */
  lemma InvokeFirstStep(cbs: seq<DeferCallback>, n: nat, m: nat, heap: Heap, out: seq<string>)
    requires n == m + 1 && n <= |cbs|
    ensures var s := Invoke(cbs[0], heap, out);
            var p := InvokeFirst(cbs, n, heap, out);
            var p' := InvokeFirst(cbs[1..], m, s.heap, s.out);
            p.heap == p'.heap && p.out == p'.out && p.results == [s.completion] + p'.results
  {
  }

  /** Invoking the first n callbacks is the reference run of the first n. */
  lemma {:induction false} InvokeFirstRunsPrefix(cbs: seq<DeferCallback>, n: nat, heap: Heap, out: seq<string>)
    requires n <= |cbs|
    ensures InvokeFirst(cbs, n, heap, out) == InvokeAll(cbs[..n], heap, out)
    decreases n
  {
    if n == 0 {
      assert cbs[..0] == [];
    } else {
      var s := Invoke(cbs[0], heap, out);
      InvokeFirstRunsPrefix(cbs[1..], n - 1, s.heap, s.out);
      assert cbs[..n][0] == cbs[0];
      assert cbs[..n][1..] == cbs[1..][..n - 1];
    }
  }

  /** The index of the first call that threw, or the number of calls. */
  function FirstRaised(results: seq<Completion>): (k: nat)
    ensures k <= |results|
    ensures k < |results| ==> results[k].Raised?
  {
    if results == [] || results[0].Raised? then 0 else 1 + FirstRaised(results[1..])
  }

  /** How many callbacks a drain that stops after the first failure invokes. */
  function RunLength(results: seq<Completion>): (n: nat)
    ensures n <= |results|
  {
    var k := FirstRaised(results);
    if k < |results| then k + 1 else k
  }

  /** Past a completion that is normal, the first failure is the rest's, one place later. */
  lemma FirstRaisedStep(c: Completion, rest: seq<Completion>)
    requires c.Normal?
    ensures var k' := FirstRaised(rest);
            && FirstRaised([c] + rest) == k' + 1
            && RunLength([c] + rest) == RunLength(rest) + 1
            && (k' < |rest| ==> ([c] + rest)[k' + 1] == rest[k'])
  {
    assert ([c] + rest)[1..] == rest;
  }

  // ---------------------------------------------------------------------
  // The drain of `DeferContext::__destruct`.
  // ---------------------------------------------------------------------

  /**
   * The drain's outcome: what is left on the stack, memory and output, and
   * the throwable that escapes the destructor, if any.
   */
  datatype Drained = Drained(ctx: DeferContext, heap: Heap, out: seq<string>, escaped: Option<Throwable>)

  /** What the destructor's `catch (\RuntimeException $e) {}` swallows. */
  predicate Swallowed(ex: Throwable) {
    ex.kind == Runtime
  }

  /**
   * `DeferContext::__destruct`: pops and invokes until `pop` throws on the
   * empty stack. A `RuntimeException` from either ends the loop silently;
   * any other throwable ends it and escapes.
   */
  function Destruct(ctx: DeferContext, heap: Heap, out: seq<string>): (r: Drained)
    ensures out <= r.out
    ensures r.escaped.Some? ==> !Swallowed(r.escaped.value)
    decreases |ctx.stack|
  {
    match Pop(ctx)
    case Err(e) =>
      // pop throws only a RuntimeException, which the catch swallows
      assert Swallowed(e);
      Drained(ctx, heap, out, None)
    case Ok(Popped(cb, rest)) =>
      var s := Invoke(cb, heap, out);
      match s.completion
      case Normal(_) => Destruct(rest, s.heap, s.out)
      case Raised(ex) => Drained(rest, s.heap, s.out, if Swallowed(ex) then None else Some(ex))
  }

  /** One round of the drain loop when the top callback completes. */
  lemma DestructNormalStep(ctx: DeferContext, heap: Heap, out: seq<string>)
    requires ctx.stack != []
    requires Invoke(ctx.stack[0], heap, out).completion.Normal?
    ensures var s := Invoke(ctx.stack[0], heap, out);
            Destruct(ctx, heap, out) == Destruct(DeferContext(ctx.stack[1..]), s.heap, s.out)
  {
    assert Pop(ctx) == Ok(Popped(ctx.stack[0], DeferContext(ctx.stack[1..])));
  }

  /** The round of the drain loop whose top callback throws: the loop ends there. */
  lemma DestructRaisedStep(ctx: DeferContext, heap: Heap, out: seq<string>)
    requires ctx.stack != []
    requires Invoke(ctx.stack[0], heap, out).completion.Raised?
    ensures var s := Invoke(ctx.stack[0], heap, out);
            var ex := s.completion.ex;
            Destruct(ctx, heap, out) == Drained(DeferContext(ctx.stack[1..]), s.heap, s.out, if Swallowed(ex) then None else Some(ex))
  {
    assert Pop(ctx) == Ok(Popped(ctx.stack[0], DeferContext(ctx.stack[1..])));
  }

  /** The throwable a run that stops at its first failure lets escape, if any. */
  function Escaping(results: seq<Completion>): (e: Option<Throwable>)
    ensures e.Some? ==> e.value in Raisedset(results) && !Swallowed(e.value)
  {
    var k := FirstRaised(results);
    if k < |results| && !Swallowed(results[k].ex) then Some(results[k].ex) else None
  }

  /** The throwables a sequence of completions carries. */
  function Raisedset(results: seq<Completion>): set<Throwable> {
    set j | 0 <= j < |results| && results[j].Raised? :: results[j].ex
  }

  /** Past a call that completed, the same throwable escapes. */
  lemma EscapingStep(c: Completion, rest: seq<Completion>)
    requires c.Normal?
    ensures Escaping([c] + rest) == Escaping(rest)
  {
    assert ([c] + rest)[1..] == rest;
    var k := FirstRaised(rest);
    if k < |rest| {
      assert ([c] + rest)[k + 1] == rest[k];
    }
  }

  /**
   * What the drain should leave, read off the reference run: the callbacks
   * up to and including the first that throws have run, the rest stay on
   * the stack, and that first throwable escapes unless it is a
   * `RuntimeException`.
   */
  function LifoPrefix(ctx: DeferContext, heap: Heap, out: seq<string>): Drained {
    var t := InvokeAll(ctx.stack, heap, out);
    var n := RunLength(t.results);
    var p := InvokeFirst(ctx.stack, n, heap, out);
    Drained(DeferContext(ctx.stack[n..]), p.heap, p.out, Escaping(t.results))
  }

  /** The drain leaves on the stack exactly the callbacks past the reference run's first failure. */
  lemma {:induction false} DestructLeavesUnrun(ctx: DeferContext, heap: Heap, out: seq<string>)
    ensures Destruct(ctx, heap, out).ctx.stack == ctx.stack[RunLength(InvokeAll(ctx.stack, heap, out).results)..]
    decreases |ctx.stack|
  {
    if ctx.stack == [] {
      assert Pop(ctx) == Err(EmptyPop);
    } else {
      var s := Invoke(ctx.stack[0], heap, out);
      var rest := DeferContext(ctx.stack[1..]);
      var t := InvokeAll(ctx.stack, heap, out);
      InvokeAllStep(ctx.stack, heap, out);
      if s.completion.Normal? {
        DestructNormalStep(ctx, heap, out);
        FirstRaisedStep(s.completion, InvokeAll(rest.stack, s.heap, s.out).results);
        DestructLeavesUnrun(rest, s.heap, s.out);
        var n' := RunLength(InvokeAll(rest.stack, s.heap, s.out).results);
        assert ctx.stack[n' + 1..] == rest.stack[n'..];
      } else {
        DestructRaisedStep(ctx, heap, out);
      }
    }
  }

  /** The drain lets escape exactly what the reference run's first failure would. */
  lemma {:induction false} DestructEscapes(ctx: DeferContext, heap: Heap, out: seq<string>)
    ensures Destruct(ctx, heap, out).escaped == Escaping(InvokeAll(ctx.stack, heap, out).results)
    decreases |ctx.stack|
  {
    if ctx.stack == [] {
      assert Pop(ctx) == Err(EmptyPop);
    } else {
      var s := Invoke(ctx.stack[0], heap, out);
      var rest := DeferContext(ctx.stack[1..]);
      var t' := InvokeAll(rest.stack, s.heap, s.out);
      InvokeAllStep(ctx.stack, heap, out);
      if s.completion.Normal? {
        DestructNormalStep(ctx, heap, out);
        EscapingStep(s.completion, t'.results);
        DestructEscapes(rest, s.heap, s.out);
      } else {
        DestructRaisedStep(ctx, heap, out);
      }
    }
  }

  /** Running just the top callback is one invocation. */
  lemma InvokeTop(cbs: seq<DeferCallback>, heap: Heap, out: seq<string>)
    requires cbs != []
    ensures var s := Invoke(cbs[0], heap, out);
            InvokeFirst(cbs, 1, heap, out) == Trace(s.heap, s.out, [s.completion])
  {
  }

  /** The reference prefix past a top callback that completes is the rest's prefix. */
  lemma PrefixMemoryStep(cbs: seq<DeferCallback>, heap: Heap, out: seq<string>)
    requires cbs != [] && Invoke(cbs[0], heap, out).completion.Normal?
    ensures var s := Invoke(cbs[0], heap, out);
            var p := InvokeFirst(cbs, RunLength(InvokeAll(cbs, heap, out).results), heap, out);
            var p' := InvokeFirst(cbs[1..], RunLength(InvokeAll(cbs[1..], s.heap, s.out).results), s.heap, s.out);
            p.heap == p'.heap && p.out == p'.out
  {
    var s := Invoke(cbs[0], heap, out);
    var t' := InvokeAll(cbs[1..], s.heap, s.out);
    assert RunLength(InvokeAll(cbs, heap, out).results) == RunLength(t'.results) + 1 by {
      InvokeAllStep(cbs, heap, out);
      FirstRaisedStep(s.completion, t'.results);
    }
    InvokeFirstStep(cbs, RunLength(InvokeAll(cbs, heap, out).results), RunLength(t'.results), heap, out);
  }

  /** The drain's memory and output are those of the reference run cut after its first failure. */
  lemma {:induction false} DestructMemory(ctx: DeferContext, heap: Heap, out: seq<string>)
    ensures var d := Destruct(ctx, heap, out);
            var p := InvokeFirst(ctx.stack, RunLength(InvokeAll(ctx.stack, heap, out).results), heap, out);
            d.heap == p.heap && d.out == p.out
    decreases |ctx.stack|
  {
    if ctx.stack == [] {
      assert Pop(ctx) == Err(EmptyPop);
    } else {
      var s := Invoke(ctx.stack[0], heap, out);
      if s.completion.Normal? {
        DestructNormalStep(ctx, heap, out);
        DestructMemory(DeferContext(ctx.stack[1..]), s.heap, s.out);
        PrefixMemoryStep(ctx.stack, heap, out);
      } else {
        DestructRaisedStep(ctx, heap, out);
        InvokeAllStep(ctx.stack, heap, out);
        InvokeTop(ctx.stack, heap, out);
      }
    }
  }

  /**
   * The drain invokes callbacks top first, exactly as the reference run
   * does, up to and including the first one that throws; the rest stay on
   * the stack. A throwable escapes only if it is not a `RuntimeException`;
   * an empty or fully drained stack ends without anything escaping.
   */
  lemma DestructRunsLifoPrefix(ctx: DeferContext, heap: Heap, out: seq<string>)
    ensures Destruct(ctx, heap, out) == LifoPrefix(ctx, heap, out)
  {
    DestructLeavesUnrun(ctx, heap, out);
    DestructEscapes(ctx, heap, out);
    DestructMemory(ctx, heap, out);
  }

  /** The `while` loop of `__destruct`, written as a loop; same result as Destruct. */
  method DestructLoop(ctx: DeferContext, heap: Heap, out: seq<string>) returns (r: Drained)
    ensures r == Destruct(ctx, heap, out)
  {
    var cur, h, o := ctx, heap, out;
    while true
      invariant Destruct(cur, h, o) == Destruct(ctx, heap, out)
      decreases |cur.stack|
    {
      var popped := Pop(cur);
      if popped.Err? {
        assert Swallowed(popped.error);
        return Drained(cur, h, o, None);
      }
      var s := Invoke(popped.value.top, h, o);
      if s.completion.Raised? {
        var ex := s.completion.ex;
        return Drained(popped.value.rest, s.heap, s.out, if Swallowed(ex) then None else Some(ex));
      }
      cur, h, o := popped.value.rest, s.heap, s.out;
    }
  }

  /** A callback that echoes a fixed text. */
  function EchoCallback(text: string): DeferCallback {
    DeferCallback(Closure([], [], [Echo(text)]), [])
  }

  lemma EchoCallbackEchoes(text: string, heap: Heap, out: seq<string>)
    ensures Invoke(EchoCallback(text), heap, out) == Step(heap, out + [text], Normal(None))
  {
    var m := Machine(Bind([], [], heap) + [], heap, out);
    var (m', stop) := Apply(m, Echo(text));
    assert [Echo(text)][1..] == [];
    assert Exec(m, [Echo(text)]) == Exec(m', []);
  }

  function EchoCallbacks(texts: seq<string>): (r: seq<DeferCallback>)
    ensures |r| == |texts|
    ensures forall i :: 0 <= i < |texts| ==> r[i] == EchoCallback(texts[i])
  {
    seq(|texts|, i requires 0 <= i < |texts| => EchoCallback(texts[i]))
  }

  lemma {:induction false} DestructEchoStack(texts: seq<string>, heap: Heap, out: seq<string>)
    ensures Destruct(DeferContext(EchoCallbacks(texts)), heap, out)
         == Drained(DeferContext([]), heap, out + texts, None)
    decreases |texts|
  {
    var ctx := DeferContext(EchoCallbacks(texts));
    if texts != [] {
      var rest := EchoCallbacks(texts[1..]);
      assert ctx.stack[0] == EchoCallback(texts[0]);
      EchoCallbackEchoes(texts[0], heap, out);
      DestructNormalStep(ctx, heap, out);
      assert ctx.stack[1..] == rest;
      var out' := out + [texts[0]];
      DestructEchoStack(texts[1..], heap, out');
      AppendHead(out, texts);
      assert Destruct(ctx, heap, out) == Destruct(DeferContext(rest), heap, out');
    } else {
      assert out + texts == out;
    }
  }

  /**
   * LIFO: a context that had echoing callbacks deferred in some order
   * echoes their texts in exactly the reverse order when destroyed, after
   * whatever was echoed before, and ends empty with nothing escaping.
   */
  lemma DestructReversesRegistration(texts: seq<string>, heap: Heap, out: seq<string>)
    ensures Destruct(DeferAll(CreateContext(), EchoCallbacks(texts)), heap, out)
         == Drained(DeferContext([]), heap, out + Reverse(texts), None)
  {
    var ctx := DeferAll(CreateContext(), EchoCallbacks(texts));
    assert ctx.stack == Reverse(EchoCallbacks(texts)) + [];
    assert ctx.stack == EchoCallbacks(Reverse(texts));
    DestructEchoStack(Reverse(texts), heap, out);
  }

  // ---------------------------------------------------------------------
  // Object identity: contexts are shared by reference between the
  // registries, the scope wrappers and the bodies.
  // ---------------------------------------------------------------------

  type CtxId = nat

  /** Every `DeferContext` object alive, by identity. */
  datatype Store = Store(contexts: map<CtxId, DeferContext>, next: CtxId)

  predicate StoreValid(st: Store) {
    forall id :: id in st.contexts ==> id < st.next
  }

  /** `new DeferContext(...)`: a new object, distinct from every existing one. */
  function Alloc(st: Store, ctx: DeferContext): (r: (Store, CtxId))
    requires StoreValid(st)
    ensures StoreValid(r.0)
    ensures r.1 !in st.contexts
    ensures r.0.contexts == st.contexts[r.1 := ctx]
  {
    (Store(st.contexts[st.next := ctx], st.next + 1), st.next)
  }

  /** Replaces the state of an existing object. */
  function Put(st: Store, id: CtxId, ctx: DeferContext): (r: Store)
    requires StoreValid(st) && id in st.contexts
    ensures StoreValid(r)
    ensures r.contexts.Keys == st.contexts.Keys
    ensures r.contexts == st.contexts[id := ctx]
  {
    st.(contexts := st.contexts[id := ctx])
  }
}
