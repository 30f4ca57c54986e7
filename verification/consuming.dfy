/**
 * `DeferContext::consume($scopeType)`, the policy-driven drain that
 * src/Deferrable.php and src/Functions.php call at the end of every
 * deferrable scope. Its body is not part of this model's source; what is
 * fixed about it comes from the repository's tests:
 *   - under BAILABLE the first failure escapes unwrapped;
 *   - under CONTINUABLE several ordinary failures escape as one
 *     MergedDeferException;
 *   - a failure implementing DeferBailableExceptionInterface escapes
 *     unwrapped under CONTINUABLE too, even after ordinary failures.
 * The lemmas below state exactly these, against the reference run
 * `InvokeAll`. That the callbacks below an escaping failure are discarded
 * unrun is this model's own choice; no test observes it.
 */
module Consuming {
  import opened Common
  import opened Php
  import opened Callbacks
  import opened Contexts

  /** `DeferrableScopeType`: the failure policy of a drain. */
  datatype ScopeType = CONTINUABLE | BAILABLE

  /** How a drain ends: quietly, with one throwable, or with a merged one. */
  datatype Outcome = Done | Thrown(ex: Throwable) | Merged

  datatype Consumed = Consumed(ctx: DeferContext, heap: Heap, out: seq<string>, outcome: Outcome)

  /** A failure that escapes unwrapped whatever the policy. */
  predicate AlwaysBails(ex: Throwable) {
    ex.kind == Bailable
  }

  /**
   * Pops and invokes every callback; `collected` counts the ordinary
   * failures set aside so far under CONTINUABLE. Callbacks left behind by an
   * escaping failure are discarded.
   */
  function DrainFrom(stack: seq<DeferCallback>, scopeType: ScopeType, heap: Heap, out: seq<string>, collected: nat): (r: Consumed)
    ensures r.ctx.stack == []
    ensures out <= r.out
    decreases |stack|
  {
    if stack == [] then
      Consumed(DeferContext([]), heap, out, if collected == 0 then Done else Merged)
    else
      var s := Invoke(stack[0], heap, out);
      match s.completion
      case Normal(_) => DrainFrom(stack[1..], scopeType, s.heap, s.out, collected)
      case Raised(ex) =>
        if AlwaysBails(ex) || scopeType == BAILABLE then
          Consumed(DeferContext([]), s.heap, s.out, Thrown(ex))
        else
          DrainFrom(stack[1..], scopeType, s.heap, s.out, collected + 1)
  }

  /** `DeferContext::consume($scopeType)`. */
  function Consume(ctx: DeferContext, scopeType: ScopeType, heap: Heap, out: seq<string>): (r: Consumed)
    ensures r.outcome == Done ==> r.ctx.stack == []
    ensures out <= r.out
  {
    DrainFrom(ctx.stack, scopeType, heap, out, 0)
  }

  /**
   * What a scope wrapper surfaces after its `finally` drained with this
   * outcome: a throwable from the drain replaces whatever the body did.
   */
  function Surfaced(outcome: Outcome, body: Completion): (c: Completion)
    ensures outcome == Done ==> c == body
    ensures outcome.Thrown? ==> c == Raised(outcome.ex)
    ensures outcome == Merged ==> c.Raised? && c.ex.cls == MergedDeferException.cls
  {
    match outcome
    case Done => body
    case Thrown(ex) => Raised(ex)
    case Merged => Raised(MergedDeferException)
  }

  /** The index of the first failure that always bails, or the number of calls. */
  function FirstBails(results: seq<Completion>): (b: nat)
    ensures b <= |results|
    ensures b < |results| ==> results[b].Raised? && AlwaysBails(results[b].ex)
  {
    if results == [] || (results[0].Raised? && AlwaysBails(results[0].ex)) then 0
    else 1 + FirstBails(results[1..])
  }

  /** The throwable of the first failure that always bails. */
  function BailingFailure(results: seq<Completion>): (ex: Throwable)
    requires FirstBails(results) < |results|
    ensures AlwaysBails(ex)
    ensures Raised(ex) in results
  {
    results[FirstBails(results)].ex
  }

  /** Past a completion that does not always bail, the bailing failure is the rest's. */
  lemma BailingFailureStep(c: Completion, rest: seq<Completion>)
    requires !(c.Raised? && AlwaysBails(c.ex))
    requires FirstBails(rest) < |rest|
    ensures FirstBails([c] + rest) < |[c] + rest|
    ensures BailingFailure([c] + rest) == BailingFailure(rest)
  {
    FirstBailsStep(c, rest);
  }

  /** The number of calls that threw. */
  function CountRaised(results: seq<Completion>): (n: nat)
    ensures n <= |results|
    ensures n == 0 <==> FirstRaised(results) == |results|
  {
    if results == [] then 0
    else (if results[0].Raised? then 1 else 0) + CountRaised(results[1..])
  }

  /** A drain step past a callback that completes. */
  lemma DrainNormalStep(stack: seq<DeferCallback>, scopeType: ScopeType, heap: Heap, out: seq<string>, collected: nat)
    requires stack != [] && Invoke(stack[0], heap, out).completion.Normal?
    ensures var s := Invoke(stack[0], heap, out);
            DrainFrom(stack, scopeType, heap, out, collected) == DrainFrom(stack[1..], scopeType, s.heap, s.out, collected)
  {
  }

  /** A drain step at a callback that throws: stop, or collect and go on. */
  lemma DrainRaisedStep(stack: seq<DeferCallback>, scopeType: ScopeType, heap: Heap, out: seq<string>, collected: nat)
    requires stack != [] && Invoke(stack[0], heap, out).completion.Raised?
    ensures var s := Invoke(stack[0], heap, out);
            var ex := s.completion.ex;
            DrainFrom(stack, scopeType, heap, out, collected)
              == if AlwaysBails(ex) || scopeType == BAILABLE then Consumed(DeferContext([]), s.heap, s.out, Thrown(ex))
                 else DrainFrom(stack[1..], scopeType, s.heap, s.out, collected + 1)
  {
  }

  /** Under BAILABLE the drain's memory and output are those of the reference run cut after its first failure. */
  lemma {:induction false} DrainBailableMemory(stack: seq<DeferCallback>, heap: Heap, out: seq<string>)
    ensures var p := InvokeFirst(stack, RunLength(InvokeAll(stack, heap, out).results), heap, out);
            var r := DrainFrom(stack, BAILABLE, heap, out, 0);
            r.heap == p.heap && r.out == p.out
    decreases |stack|
  {
    if stack != [] {
      var s := Invoke(stack[0], heap, out);
      if s.completion.Normal? {
        DrainNormalStep(stack, BAILABLE, heap, out, 0);
        DrainBailableMemory(stack[1..], s.heap, s.out);
        PrefixMemoryStep(stack, heap, out);
      } else {
        DrainRaisedStep(stack, BAILABLE, heap, out, 0);
        InvokeAllStep(stack, heap, out);
        InvokeTop(stack, heap, out);
      }
    }
  }

  /** Under BAILABLE the drain throws exactly the reference run's first failure, if any. */
  lemma {:induction false} DrainBailableOutcome(stack: seq<DeferCallback>, heap: Heap, out: seq<string>)
    ensures var t := InvokeAll(stack, heap, out);
            var k := FirstRaised(t.results);
            DrainFrom(stack, BAILABLE, heap, out, 0).outcome == (if k < |stack| then Thrown(t.results[k].ex) else Done)
    decreases |stack|
  {
    if stack != [] {
      var s := Invoke(stack[0], heap, out);
      var t' := InvokeAll(stack[1..], s.heap, s.out);
      InvokeAllStep(stack, heap, out);
      if s.completion.Normal? {
        DrainNormalStep(stack, BAILABLE, heap, out, 0);
        DrainBailableOutcome(stack[1..], s.heap, s.out);
        FirstRaisedStep(s.completion, t'.results);
      } else {
        DrainRaisedStep(stack, BAILABLE, heap, out, 0);
        assert ([s.completion] + t'.results)[0] == s.completion;
      }
    }
  }

  lemma DrainBailableRunsToFirstFailure(stack: seq<DeferCallback>, heap: Heap, out: seq<string>)
    ensures var t := InvokeAll(stack, heap, out);
            var k := FirstRaised(t.results);
            var p := InvokeFirst(stack, RunLength(t.results), heap, out);
            var r := DrainFrom(stack, BAILABLE, heap, out, 0);
            && r.heap == p.heap && r.out == p.out
            && r.outcome == (if k < |stack| then Thrown(t.results[k].ex) else Done)
  {
    DrainBailableMemory(stack, heap, out);
    DrainBailableOutcome(stack, heap, out);
  }

  /**
   * BAILABLE: callbacks run top first until the first one that throws; that
   * exact throwable escapes, unwrapped, and no later callback runs. With no
   * failure every callback runs and the drain ends quietly with an empty stack.
   */
  lemma BailableSurfacesFirstFailure(ctx: DeferContext, heap: Heap, out: seq<string>)
    ensures var t := InvokeAll(ctx.stack, heap, out);
            var k := FirstRaised(t.results);
            var p := InvokeFirst(ctx.stack, RunLength(t.results), heap, out);
            var r := Consume(ctx, BAILABLE, heap, out);
            && r.heap == p.heap && r.out == p.out
            && (k < |ctx.stack| ==> r.outcome == Thrown(t.results[k].ex))
            && (k == |ctx.stack| ==> r.outcome == Done && r.ctx.stack == [])
  {
    DrainBailableRunsToFirstFailure(ctx.stack, heap, out);
  }

  /** A CONTINUABLE drain step past a top callback whose failure, if any, does not always bail. */
  lemma ContinuableDrainStep(stack: seq<DeferCallback>, heap: Heap, out: seq<string>, collected: nat)
    requires stack != []
    requires var c := Invoke(stack[0], heap, out).completion; !(c.Raised? && AlwaysBails(c.ex))
    ensures var s := Invoke(stack[0], heap, out);
            var c' := if s.completion.Raised? then collected + 1 else collected;
            DrainFrom(stack, CONTINUABLE, heap, out, collected) == DrainFrom(stack[1..], CONTINUABLE, s.heap, s.out, c')
  {
  }

  /** One CONTINUABLE step past a first callback whose failure, if any, does not always bail. */
  lemma ContinuableStep(stack: seq<DeferCallback>, heap: Heap, out: seq<string>, collected: nat)
    requires stack != []
    requires var c := Invoke(stack[0], heap, out).completion; !(c.Raised? && AlwaysBails(c.ex))
    ensures var s := Invoke(stack[0], heap, out);
            var t := InvokeAll(stack, heap, out);
            var t' := InvokeAll(stack[1..], s.heap, s.out);
            var c' := if s.completion.Raised? then collected + 1 else collected;
            && DrainFrom(stack, CONTINUABLE, heap, out, collected) == DrainFrom(stack[1..], CONTINUABLE, s.heap, s.out, c')
            && t.results == [s.completion] + t'.results
            && t.heap == t'.heap && t.out == t'.out
            && FirstBails(t.results) == 1 + FirstBails(t'.results)
            && CountRaised(t.results) == (if s.completion.Raised? then 1 else 0) + CountRaised(t'.results)
  {
    var s := Invoke(stack[0], heap, out);
    var t := InvokeAll(stack, heap, out);
    var t' := InvokeAll(stack[1..], s.heap, s.out);
    assert t.results[1..] == t'.results;
  }

  /**
   * Where a CONTINUABLE drain ends when some callback's failure always
   * bails: the run up to and including it, with that failure escaping.
   */
  function BailedAt(stack: seq<DeferCallback>, heap: Heap, out: seq<string>): (r: Consumed)
    requires FirstBails(InvokeAll(stack, heap, out).results) < |stack|
  {
    var t := InvokeAll(stack, heap, out);
    var p := InvokeFirst(stack, FirstBails(t.results) + 1, heap, out);
    Consumed(DeferContext([]), p.heap, p.out, Thrown(BailingFailure(t.results)))
  }

  /** A CONTINUABLE drain whose first callback always bails stops right there. */
  lemma BailsAtTop(stack: seq<DeferCallback>, heap: Heap, out: seq<string>, collected: nat)
    requires stack != []
    requires var c := Invoke(stack[0], heap, out).completion; c.Raised? && AlwaysBails(c.ex)
    ensures var s := Invoke(stack[0], heap, out);
            var p := InvokeFirst(stack, 1, heap, out);
            && DrainFrom(stack, CONTINUABLE, heap, out, collected) == Consumed(DeferContext([]), s.heap, s.out, Thrown(s.completion.ex))
            && p.heap == s.heap && p.out == s.out
            && FirstBails(InvokeAll(stack, heap, out).results) == 0
  {
  }

  lemma {:induction false} DrainContinuableBails(stack: seq<DeferCallback>, heap: Heap, out: seq<string>, collected: nat)
    requires FirstBails(InvokeAll(stack, heap, out).results) < |stack|
    ensures DrainFrom(stack, CONTINUABLE, heap, out, collected) == BailedAt(stack, heap, out)
    decreases |stack|, 1
  {
    var c := Invoke(stack[0], heap, out).completion;
    assert InvokeAll(stack, heap, out).results[0] == c;
    if c.Raised? && AlwaysBails(c.ex) {
      BailsAtTop(stack, heap, out, collected);
    } else {
      BailsBelowTop(stack, heap, out, collected);
    }
  }

  /** Past a completion that does not always bail, the first bailing index is the rest's, one place later. */
  lemma FirstBailsStep(c: Completion, rest: seq<Completion>)
    requires !(c.Raised? && AlwaysBails(c.ex))
    ensures var b' := FirstBails(rest);
            && FirstBails([c] + rest) == b' + 1
            && (b' < |rest| ==> ([c] + rest)[b' + 1] == rest[b'])
  {
    assert ([c] + rest)[1..] == rest;
  }

  /** Past a top callback that does not always bail, the bailing point is the rest's. */
  lemma BailedAtOutcomeStep(stack: seq<DeferCallback>, heap: Heap, out: seq<string>)
    requires stack != [] && FirstBails(InvokeAll(stack, heap, out).results) < |stack|
    requires var c := Invoke(stack[0], heap, out).completion; !(c.Raised? && AlwaysBails(c.ex))
    ensures var s := Invoke(stack[0], heap, out);
            var t := InvokeAll(stack, heap, out);
            var t' := InvokeAll(stack[1..], s.heap, s.out);
            && FirstBails(t'.results) < |stack| - 1
            && FirstBails(t.results) == FirstBails(t'.results) + 1
            && BailingFailure(t.results) == BailingFailure(t'.results)
  {
    var s := Invoke(stack[0], heap, out);
    var t' := InvokeAll(stack[1..], s.heap, s.out);
    InvokeAllStep(stack, heap, out);
    FirstBailsStep(s.completion, t'.results);
    BailingFailureStep(s.completion, t'.results);
  }

  /** Past a top callback that does not always bail, the bailing drain leaves memory and output where the rest's does. */
  lemma BailedAtMemoryStep(stack: seq<DeferCallback>, heap: Heap, out: seq<string>)
    requires stack != [] && FirstBails(InvokeAll(stack, heap, out).results) < |stack|
    requires var c := Invoke(stack[0], heap, out).completion; !(c.Raised? && AlwaysBails(c.ex))
    ensures var s := Invoke(stack[0], heap, out);
            var b := FirstBails(InvokeAll(stack, heap, out).results);
            var b' := FirstBails(InvokeAll(stack[1..], s.heap, s.out).results);
            && b == b' + 1
            && InvokeFirst(stack, b + 1, heap, out).heap == InvokeFirst(stack[1..], b' + 1, s.heap, s.out).heap
            && InvokeFirst(stack, b + 1, heap, out).out == InvokeFirst(stack[1..], b' + 1, s.heap, s.out).out
  {
    var s := Invoke(stack[0], heap, out);
    BailedAtOutcomeStep(stack, heap, out);
    InvokeFirstStep(stack, FirstBails(InvokeAll(stack, heap, out).results) + 1,
                    FirstBails(InvokeAll(stack[1..], s.heap, s.out).results) + 1, heap, out);
  }

  /** Past a top callback that does not always bail, the bailing drain throws what the rest's does. */
  lemma BailedAtFailureStep(stack: seq<DeferCallback>, heap: Heap, out: seq<string>)
    requires stack != [] && FirstBails(InvokeAll(stack, heap, out).results) < |stack|
    requires var c := Invoke(stack[0], heap, out).completion; !(c.Raised? && AlwaysBails(c.ex))
    ensures var s := Invoke(stack[0], heap, out);
            && FirstBails(InvokeAll(stack[1..], s.heap, s.out).results) < |stack| - 1
            && BailedAt(stack, heap, out).outcome == BailedAt(stack[1..], s.heap, s.out).outcome
  {
    BailedAtOutcomeStep(stack, heap, out);
  }

  /** Past a top callback that does not always bail, the bailing drain ends where the rest's does. */
  lemma BailedAtStep(stack: seq<DeferCallback>, heap: Heap, out: seq<string>)
    requires stack != [] && FirstBails(InvokeAll(stack, heap, out).results) < |stack|
    requires var c := Invoke(stack[0], heap, out).completion; !(c.Raised? && AlwaysBails(c.ex))
    ensures var s := Invoke(stack[0], heap, out);
            && FirstBails(InvokeAll(stack[1..], s.heap, s.out).results) < |stack| - 1
            && BailedAt(stack, heap, out) == BailedAt(stack[1..], s.heap, s.out)
  {
    BailedAtMemoryStep(stack, heap, out);
    BailedAtFailureStep(stack, heap, out);
  }

  lemma {:induction false} BailsBelowTop(stack: seq<DeferCallback>, heap: Heap, out: seq<string>, collected: nat)
    requires FirstBails(InvokeAll(stack, heap, out).results) < |stack|
    requires var c := Invoke(stack[0], heap, out).completion; !(c.Raised? && AlwaysBails(c.ex))
    ensures DrainFrom(stack, CONTINUABLE, heap, out, collected) == BailedAt(stack, heap, out)
    decreases |stack|, 0
  {
    var s := Invoke(stack[0], heap, out);
    var c' := if s.completion.Raised? then collected + 1 else collected;
    ContinuableDrainStep(stack, heap, out, collected);
    BailedAtStep(stack, heap, out);
    DrainContinuableBails(stack[1..], s.heap, s.out, c');
  }

  lemma {:induction false} DrainContinuableCompletes(stack: seq<DeferCallback>, heap: Heap, out: seq<string>, collected: nat)
    requires FirstBails(InvokeAll(stack, heap, out).results) == |stack|
    ensures var t := InvokeAll(stack, heap, out);
            var r := DrainFrom(stack, CONTINUABLE, heap, out, collected);
            && r.heap == t.heap && r.out == t.out
            && r.outcome == (if collected + CountRaised(t.results) == 0 then Done else Merged)
    decreases |stack|
  {
    if stack != [] {
      var s := Invoke(stack[0], heap, out);
      var t := InvokeAll(stack, heap, out);
      assert t.results[0] == s.completion;
      ContinuableStep(stack, heap, out, collected);
      var c' := if s.completion.Raised? then collected + 1 else collected;
      DrainContinuableCompletes(stack[1..], s.heap, s.out, c');
    }
  }

  /** A CONTINUABLE drain that meets a failure that always bails. */
  lemma ContinuableBails(ctx: DeferContext, heap: Heap, out: seq<string>)
    requires FirstBails(InvokeAll(ctx.stack, heap, out).results) < |ctx.stack|
    ensures var t := InvokeAll(ctx.stack, heap, out);
            var b := FirstBails(t.results);
            var p := InvokeFirst(ctx.stack, b + 1, heap, out);
            var r := Consume(ctx, CONTINUABLE, heap, out);
            r.heap == p.heap && r.out == p.out && r.outcome == Thrown(t.results[b].ex)
  {
    DrainContinuableBails(ctx.stack, heap, out, 0);
  }

  /** A CONTINUABLE drain that meets no failure that always bails. */
  lemma ContinuableCompletes(ctx: DeferContext, heap: Heap, out: seq<string>)
    requires FirstBails(InvokeAll(ctx.stack, heap, out).results) == |ctx.stack|
    ensures var t := InvokeAll(ctx.stack, heap, out);
            var r := Consume(ctx, CONTINUABLE, heap, out);
            && r.heap == t.heap && r.out == t.out
            && (CountRaised(t.results) == 0 ==> r.outcome == Done)
            && (CountRaised(t.results) >= 2 ==> r.outcome == Merged)
  {
    DrainContinuableCompletes(ctx.stack, heap, out, 0);
  }

  /**
   * CONTINUABLE: every callback runs until one whose failure always bails;
   * that exact throwable escapes unwrapped, whatever ordinary failures came
   * before it. Without such a failure every callback runs; no failure ends
   * quietly and two or more ordinary failures escape as one merged exception.
   */
  lemma ContinuableMergesOrdinaryFailures(ctx: DeferContext, heap: Heap, out: seq<string>)
    ensures var t := InvokeAll(ctx.stack, heap, out);
            var b := FirstBails(t.results);
            var r := Consume(ctx, CONTINUABLE, heap, out);
            && (b < |ctx.stack| ==>
                  var p := InvokeFirst(ctx.stack, b + 1, heap, out);
                  r.heap == p.heap && r.out == p.out && r.outcome == Thrown(t.results[b].ex))
            && (b == |ctx.stack| ==> r.heap == t.heap && r.out == t.out)
            && (b == |ctx.stack| && CountRaised(t.results) == 0 ==> r.outcome == Done)
            && (b == |ctx.stack| && CountRaised(t.results) >= 2 ==> r.outcome == Merged)
  {
    if FirstBails(InvokeAll(ctx.stack, heap, out).results) < |ctx.stack| {
      ContinuableBails(ctx, heap, out);
    } else {
      ContinuableCompletes(ctx, heap, out);
    }
  }
}
