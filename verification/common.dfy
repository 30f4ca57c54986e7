/** Small failure-carrying wrappers shared by every module of the model. */
module Common {

  /** PHP's nullable value: `None` is `null`. */
  datatype Option<+T> = None | Some(value: T) {
    function GetOr(default: T): T {
      match this
      case Some(v) => v
      case None => default
    }
  }

  /** A value or the throwable that a PHP call raised instead of returning. */
  datatype Result<+T, +E> = Ok(value: T) | Err(error: E)

  /** The elements of s, last first. */
  function Reverse<T>(s: seq<T>): (r: seq<T>)
    ensures |r| == |s|
    ensures forall i :: 0 <= i < |s| ==> r[i] == s[|s| - 1 - i]
  {
    if s == [] then [] else Reverse(s[1..]) + [s[0]]
  }

  /** Appending a non-empty sequence is appending its head, then its tail. */
  lemma AppendHead<T>(a: seq<T>, b: seq<T>)
    requires b != []
    ensures a + [b[0]] + b[1..] == a + b
  {
  }
}
