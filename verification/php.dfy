/**
 * The slice of the PHP runtime that the defer engine relies on: variables
 * (as heap cells, so that by-reference arguments can alias them) and
 * throwables, classified the way the engine's catch clauses see them.
 */
module Php {
  import opened Common

  /** A PHP variable's storage slot. By-reference arguments alias a cell. */
  type Cell = nat

  /** The values of all variables; every value the model needs is a string. */
  type Heap = map<Cell, string>

  /** Reads a variable; one never assigned holds `null`, which echoes as "". */
  function Read(heap: Heap, c: Cell): string {
    if c in heap then heap[c] else ""
  }

  /**
   * How a throwable is seen by the engine: `Runtime` is an instance of
   * `\RuntimeException` (the only class `DeferContext::__destruct` catches),
   * `Bailable` implements `DeferBailableExceptionInterface` (which escapes
   * unwrapped under every policy), `Ordinary` is anything else.
   */
  datatype ExKind = Ordinary | Runtime | Bailable

  /** A thrown object: its class name, its classification and its message. */
  datatype Throwable = Throwable(cls: string, kind: ExKind, msg: string)

  function RuntimeException(msg: string): Throwable {
    Throwable("RuntimeException", Runtime, msg)
  }

  /** What `SplStack::pop` throws when the stack is empty. */
  const EmptyPop: Throwable := RuntimeException("Can't pop from an empty datastructure")

  function DeferrableException(msg: string): Throwable {
    Throwable("PHPDeferrable\\DeferrableException", Ordinary, msg)
  }

  /** Thrown when a closure is called with fewer arguments than it declares. */
  const TooFewArguments: Throwable := Throwable("ArgumentCountError", Ordinary, "Too few arguments")

  /** Thrown by a method call on `null`. */
  const CallOnNull: Throwable := Throwable("Error", Ordinary, "Call to a member function defer() on null")

  /** Thrown when a `string` return type receives a closure under strict types. */
  const NotAString: Throwable := Throwable("TypeError", Ordinary, "Return value must be of type string")

  /**
   * The exception that aggregates several deferred failures. Its message
   * format is not part of the model.
   */
  const MergedDeferException: Throwable := Throwable("PHPDeferrable\\Exceptions\\MergedDeferException", Ordinary, "")
}
