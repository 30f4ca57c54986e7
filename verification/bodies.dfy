/**
 * The body of a deferrable scope: the statements of the function or method
 * being wrapped. Besides the closure effects it can `defer` a closure with
 * some of its variables, which pushes onto the context the scope registered
 * with.
 */
module Bodies {
  import opened Common
  import opened Php
  import opened Callbacks
  import opened Contexts

  datatype Stmt = Do(e: Effect) | DeferCall(callback: Closure, args: seq<Cell>)

  /** A wrapped function or method: its variables and its statements. */
  datatype Body = Body(frame: Frame, stmts: seq<Stmt>)

  /** The context as the body left it, memory, output, and how the body ended. */
  datatype BodyRun = BodyRun(ctx: DeferContext, heap: Heap, out: seq<string>, completion: Completion)

  /** `tail` is what is left of `s` after some elements were pushed on top. */
  ghost predicate EndsWith<T>(s: seq<T>, tail: seq<T>) {
    |tail| <= |s| && s[|s| - |tail|..] == tail
  }

  /** A sequence ending in `[x] + tail` ends in `tail`. */
  lemma SuffixOfPushed<T>(s: seq<T>, pushed: seq<T>, tail: seq<T>)
    requires EndsWith(s, pushed)
    requires pushed != [] && pushed[1..] == tail
    ensures EndsWith(s, tail)
  {
    assert s[|s| - |pushed|..][1..] == s[|s| - |tail|..];
  }

  /** Runs a body; a `defer` statement pushes onto the scope's context. */
  function RunBody(m: Machine, stmts: seq<Stmt>, ctx: DeferContext): (r: BodyRun)
    ensures m.out <= r.out
    ensures EndsWith(r.ctx.stack, ctx.stack)
    decreases |stmts|
  {
    assert EndsWith(ctx.stack, ctx.stack) by { assert ctx.stack[0..] == ctx.stack; }
    if stmts == [] then BodyRun(ctx, m.heap, m.out, Normal(None))
    else
      match stmts[0]
      case Do(e) =>
        var (m', stop) := Apply(m, e);
        if stop.Some? then BodyRun(ctx, m'.heap, m'.out, stop.value)
        else RunBody(m', stmts[1..], ctx)
      case DeferCall(cb, args) =>
        var ctx' := DeferForwarding(ctx, cb, args);
        var r := RunBody(m, stmts[1..], ctx');
        assert ctx'.stack[1..] == ctx.stack;
        SuffixOfPushed(r.ctx.stack, ctx'.stack, ctx.stack);
        r
  }

  /** A `defer` statement pushes onto the context and the body goes on. */
  lemma RunDeferFirst(m: Machine, f: Closure, args: seq<Cell>, rest: seq<Stmt>, ctx: DeferContext)
    ensures RunBody(m, [DeferCall(f, args)] + rest, ctx) == RunBody(m, rest, DeferForwarding(ctx, f, args))
  {
    assert ([DeferCall(f, args)] + rest)[1..] == rest;
  }

  /** An effect that does not end the body is applied and the body goes on. */
  lemma RunEffectFirst(m: Machine, e: Effect, rest: seq<Stmt>, ctx: DeferContext)
    requires !Ends(e)
    ensures RunBody(m, [Do(e)] + rest, ctx) == RunBody(Apply(m, e).0, rest, ctx)
  {
    assert ([Do(e)] + rest)[1..] == rest;
  }

  /** A `return` or `throw` ends the body with the context as it is. */
  lemma RunEndingEffect(m: Machine, e: Effect, rest: seq<Stmt>, ctx: DeferContext)
    requires Ends(e)
    ensures var (m', stop) := Apply(m, e);
            RunBody(m, [Do(e)] + rest, ctx) == BodyRun(ctx, m'.heap, m'.out, stop.value)
  {
  }

  /**
   * A function that creates its own context with `Defer::createContext()`:
   * the context is a local variable, so it is destroyed, and drained, when
   * the function returns or throws. A throwable escaping the destructor
   * replaces the function's result.
   */
  function LocalScope(frame: Frame, stmts: seq<Stmt>, heap: Heap, out: seq<string>): (r: Step)
    ensures RunBody(Machine(frame, heap, out), stmts, CreateContext()).out <= r.out
  {
    var b := RunBody(Machine(frame, heap, out), stmts, CreateContext());
    var d := Destruct(b.ctx, b.heap, b.out);
    Step(d.heap, d.out, if d.escaped.Some? then Raised(d.escaped.value) else b.completion)
  }
}
