/**
 * Deferred callbacks (src/DeferCallback.php): a closure bound to the
 * variables it was deferred with.
 *
 * A PHP closure is modelled as a small effect script. Its frame holds one
 * slot per declared parameter followed by one slot per `use` capture; a
 * slot either aliases a heap cell (a by-reference parameter or
 * `use (&$x)`) or holds a private copy (a by-value parameter or `use ($x)`).
 */
module Callbacks {
  import opened Common
  import opened Php

  /** How a closure declares a parameter: `&$x` or `$x`. */
  datatype Mode = ByRef | ByVal

  /** One variable as seen from inside a closure. */
  datatype Slot = Ref(cell: Cell) | Val(v: string)

  type Frame = seq<Slot>

  /** The statements a closure body can execute. */
  datatype Effect =
    | Echo(text: string)          // echo a literal
    | EchoSlot(i: nat)            // echo the variable in slot i
    | Assign(i: nat, v: string)   // assign a literal to the variable in slot i
    | Return(v: string)           // return a literal
    | ReturnSlot(i: nat)          // return the variable in slot i
    | Throw(ex: Throwable)        // throw

  datatype Closure = Closure(params: seq<Mode>, uses: Frame, body: seq<Effect>)

  /** How a call ended: it returned (possibly `null`) or it threw. */
  datatype Completion = Normal(ret: Option<string>) | Raised(ex: Throwable)

  /** Memory and echoed output after a call, and how the call ended. */
  datatype Step = Step(heap: Heap, out: seq<string>, completion: Completion)

  /** The effects that end a body: `return` and `throw`. */
  predicate Ends(e: Effect) {
    e.Return? || e.ReturnSlot? || e.Throw?
  }

  /** The running state of a closure body. */
  datatype Machine = Machine(frame: Frame, heap: Heap, out: seq<string>)

  predicate NoRefs(frame: Frame) {
    forall i :: 0 <= i < |frame| ==> frame[i].Val?
  }

  /** The value of slot i; a slot the frame does not have reads as `null`. */
  function SlotValue(m: Machine, i: nat): string {
    if i < |m.frame| then
      match m.frame[i]
      case Ref(c) => Read(m.heap, c)
      case Val(v) => v
    else ""
  }

  /**
   * Executes one effect. The second component is the completion when the
   * effect ends the body (a `return` or a `throw`).
   */
  function Apply(m: Machine, e: Effect): (r: (Machine, Option<Completion>))
    ensures |r.0.frame| == |m.frame|
    ensures m.out <= r.0.out
    ensures r.1.Some? <==> Ends(e)
  {
    match e
    case Echo(t) => (m.(out := m.out + [t]), None)
    case EchoSlot(i) => (m.(out := m.out + [SlotValue(m, i)]), None)
    case Assign(i, v) =>
      if i < |m.frame| then
        match m.frame[i]
        case Ref(c) => (m.(heap := m.heap[c := v]), None)
        case Val(_) => (m.(frame := m.frame[i := Val(v)]), None)
      else
        // a fresh local variable of the closure: invisible to anyone else
        (m, None)
    case Return(v) => (m, Some(Normal(Some(v))))
    case ReturnSlot(i) => (m, Some(Normal(Some(SlotValue(m, i)))))
    case Throw(ex) => (m, Some(Raised(ex)))
  }

  /** Runs a body to its end; falling off the end returns `null`. */
  function Exec(m: Machine, body: seq<Effect>): (r: Step)
    ensures m.out <= r.out
    decreases |body|
  {
    if body == [] then Step(m.heap, m.out, Normal(None))
    else
      var (m', stop) := Apply(m, body[0]);
      if stop.Some? then Step(m'.heap, m'.out, stop.value)
      else Exec(m', body[1..])
  }

  /**
   * Binds declared parameters to the argument cells of a call: a by-reference
   * parameter aliases its cell, a by-value parameter copies the cell's
   * current value. Arguments beyond the declared parameters are ignored.
   */
  function Bind(params: seq<Mode>, args: seq<Cell>, heap: Heap): (frame: Frame)
    requires |params| <= |args|
    ensures |frame| == |params|
    ensures forall i :: 0 <= i < |params| ==>
              frame[i] == if params[i] == ByRef then Ref(args[i]) else Val(Read(heap, args[i]))
    decreases |params|
  {
    if params == [] then []
    else [if params[0] == ByRef then Ref(args[0]) else Val(Read(heap, args[0]))] + Bind(params[1..], args[1..], heap)
  }

  /** Calls a closure with the given argument cells. */
  function Call(c: Closure, args: seq<Cell>, heap: Heap, out: seq<string>): (r: Step)
    ensures |args| < |c.params| ==> r == Step(heap, out, Raised(TooFewArguments))
    ensures out <= r.out
  {
    if |args| < |c.params| then Step(heap, out, Raised(TooFewArguments))
    else Exec(Machine(Bind(c.params, args, heap) + c.uses, heap, out), c.body)
  }

  /** A closure together with the variables it was deferred with. */
  datatype DeferCallback = DeferCallback(callback: Closure, arguments: seq<Cell>)

  /** `DeferCallback::factory`: builds the same record as the constructor. */
  function Factory(callback: Closure, arguments: seq<Cell>): (r: DeferCallback)
    ensures r.callback == callback && r.arguments == arguments
  {
    DeferCallback(callback, arguments)
  }

  /**
   * `DeferCallback::__invoke`: calls the stored closure with the stored
   * arguments. Nothing is caught.
   */
  function Invoke(cb: DeferCallback, heap: Heap, out: seq<string>): (r: Step)
    ensures |cb.arguments| < |cb.callback.params| ==> r.completion == Raised(TooFewArguments)
    ensures out <= r.out
  {
    Call(cb.callback, cb.arguments, heap, out)
  }

  /** A closure that does nothing but throw `ex`. */
  function Thrower(ex: Throwable): Closure {
    Closure([], [], [Throw(ex)])
  }

  /** Invoking a thrower with no arguments raises its throwable and changes nothing. */
  lemma ThrowerRaises(ex: Throwable, heap: Heap, out: seq<string>)
    ensures Invoke(DeferCallback(Thrower(ex), []), heap, out) == Step(heap, out, Raised(ex))
  {
    var m := Machine(Bind([], [], heap) + [], heap, out);
    assert Exec(m, [Throw(ex)]) == Step(heap, out, Raised(ex));
  }

  /** No effect of the body ends it early. */
  predicate Runs(body: seq<Effect>) {
    forall j :: 0 <= j < |body| ==> !Ends(body[j])
  }

  /** A body that reaches `throw ex` raises exactly `ex`: no effect catches. */
  lemma {:induction false} ThrowPropagates(m: Machine, pre: seq<Effect>, ex: Throwable, post: seq<Effect>)
    requires Runs(pre)
    ensures Exec(m, pre + [Throw(ex)] + post).completion == Raised(ex)
    decreases |pre|
  {
    var body := pre + [Throw(ex)] + post;
    if pre == [] {
      assert body[0] == Throw(ex);
    } else {
      assert body[0] == pre[0];
      assert body[1..] == pre[1..] + [Throw(ex)] + post;
      var (m', stop) := Apply(m, pre[0]);
      assert !Ends(pre[0]);
      assert stop.None?;
      assert Exec(m, body) == Exec(m', body[1..]);
      ThrowPropagates(m', pre[1..], ex, post);
    }
  }

  /** A body whose frame aliases no cell cannot change any variable outside it. */
  lemma {:induction false} PrivateFrameKeepsHeap(m: Machine, body: seq<Effect>)
    requires NoRefs(m.frame)
    ensures Exec(m, body).heap == m.heap
    decreases |body|
  {
    if body != [] {
      var (m', stop) := Apply(m, body[0]);
      assert m'.heap == m.heap;
      assert NoRefs(m'.frame) by {
        forall i | 0 <= i < |m'.frame| ensures m'.frame[i].Val? {
          if body[0].Assign? && body[0].i < |m.frame| {
            assert m.frame[body[0].i].Val?;
          }
        }
      }
      if stop.None? {
        PrivateFrameKeepsHeap(m', body[1..]);
      }
    }
  }

  /**
   * By-value capture: a closure that takes every parameter by value and
   * captures nothing by reference leaves every caller variable untouched,
   * whatever it assigns.
   */
  lemma ByValueCallKeepsHeap(c: Closure, args: seq<Cell>, heap: Heap, out: seq<string>)
    requires forall j :: 0 <= j < |c.params| ==> c.params[j] == ByVal
    requires NoRefs(c.uses)
    ensures Call(c, args, heap, out).heap == heap
  {
    if |args| >= |c.params| {
      var frame := Bind(c.params, args, heap) + c.uses;
      assert NoRefs(frame) by {
        forall i | 0 <= i < |frame| ensures frame[i].Val? {
          if i >= |c.params| {
            assert frame[i] == c.uses[i - |c.params|];
          }
        }
      }
      PrivateFrameKeepsHeap(Machine(frame, heap, out), c.body);
    }
  }

  /**
   * By-reference capture: an assignment to a by-reference parameter is an
   * assignment to the caller's variable, visible after the call.
   */
  lemma ByRefAssignmentVisible(c: Closure, i: nat, v: string, args: seq<Cell>, heap: Heap, out: seq<string>)
    requires i < |c.params| <= |args|
    requires c.params[i] == ByRef
    requires c.body == [Assign(i, v)]
    ensures Call(c, args, heap, out) == Step(heap[args[i] := v], out, Normal(None))
  {
    var frame := Bind(c.params, args, heap) + c.uses;
    assert frame[i] == Ref(args[i]);
    var m := Machine(frame, heap, out);
    var (m', stop) := Apply(m, Assign(i, v));
    assert stop.None? && m'.heap == heap[args[i] := v] && m'.out == out;
    assert c.body[1..] == [];
    assert Exec(m, c.body) == Exec(m', []);
  }

  /**
   * A closure whose body is a single effect that does not end it runs
   * that effect on its bound frame and returns `null`.
   */
  lemma SingleEffectCall(c: Closure, args: seq<Cell>, heap: Heap, out: seq<string>)
    requires |c.params| <= |args| && |c.body| == 1 && !Ends(c.body[0])
    ensures var m := Apply(Machine(Bind(c.params, args, heap) + c.uses, heap, out), c.body[0]).0;
            Call(c, args, heap, out) == Step(m.heap, m.out, Normal(None))
  {
    var m := Machine(Bind(c.params, args, heap) + c.uses, heap, out);
    assert c.body[1..] == [];
    assert Exec(m, c.body) == Exec(Apply(m, c.body[0]).0, []);
  }
}
