/**
 * The scope classes of the `PHPDeferrable\Scopes` namespace:
 * src/Scopes/AbstractDeferrableScope.php with its subclasses
 * src/Scopes/DeferBailableScope.php and src/Scopes/DeferContinuableScope.php.
 * A scope is built from a class path or from a callable and records which
 * of the two it was built from.
 */
module NamespacedScopes {
  import opened Common
  import opened Php
  import opened Callbacks
  import opened Consuming

  datatype ScopeClass = DeferBailableScope | DeferContinuableScope

  /** What a scope wraps: a class path string or a callable. */
  datatype Target = ClassPath(path: string) | CallableTarget(f: Closure)

  /** `$target`, and `$type` (`null` while unassigned). */
  datatype Scope = Scope(cls: ScopeClass, target: Target, kind: Option<string>)

  /**
   * The constructor as written: it stores the target, but its second
   * statement only reads `$this->type`, so `$type` stays `null`.
   */
  function ConstructAsWritten(cls: ScopeClass, target: Target, kind: string): (s: Scope)
    ensures s.cls == cls && s.target == target
    ensures s.kind == None
  {
    Scope(cls, target, None)
  }

  /** The constructor as evidently intended: it also records `$type`. */
  function Construct(cls: ScopeClass, target: Target, kind: string): (s: Scope)
    ensures s.cls == cls && s.target == target
    ensures s.kind == Some(kind)
  {
    Scope(cls, target, Some(kind))
  }

  /** `getClassName`: the target; a callable target is no string and fails the return type. */
  function GetClassName(s: Scope): (r: Result<string, Throwable>)
    ensures s.target.ClassPath? ==> r == Ok(s.target.path)
    ensures s.target.CallableTarget? ==> r == Err(NotAString)
  {
    match s.target
    case ClassPath(p) => Ok(p)
    case CallableTarget(_) => Err(NotAString)
  }

  /** `isClass`. */
  predicate IsClass(s: Scope) {
    s.kind == Some("class")
  }

  /** `isFunction`. */
  predicate IsFunction(s: Scope) {
    s.kind == Some("function")
  }

  /** `fromClassPath` as written. */
  function FromClassPathAsWritten(cls: ScopeClass, targetClass: string): (s: Scope)
    ensures GetClassName(s) == Ok(targetClass)
    ensures !IsClass(s) && !IsFunction(s)
  {
    ConstructAsWritten(cls, ClassPath(targetClass), "class")
  }

  /** `fromCallable` as written. */
  function FromCallableAsWritten(cls: ScopeClass, f: Closure): (s: Scope)
    ensures s.target == CallableTarget(f)
    ensures !IsClass(s) && !IsFunction(s)
  {
    ConstructAsWritten(cls, CallableTarget(f), "function")
  }

  /** `fromClassPath` with the intended constructor: a class scope over the path. */
  function FromClassPath(cls: ScopeClass, targetClass: string): (s: Scope)
    ensures GetClassName(s) == Ok(targetClass)
    ensures IsClass(s) && !IsFunction(s)
  {
    Construct(cls, ClassPath(targetClass), "class")
  }

  /** `fromCallable` with the intended constructor: a function scope over the callable. */
  function FromCallable(cls: ScopeClass, f: Closure): (s: Scope)
    ensures s.target == CallableTarget(f)
    ensures IsFunction(s) && !IsClass(s)
  {
    Construct(cls, CallableTarget(f), "function")
  }

  /** A scope is never both a class scope and a function scope. */
  lemma NeverBoth(s: Scope)
    ensures !(IsClass(s) && IsFunction(s))
  {
  }

  /** `getScopeType` of the two subclasses. */
  function GetScopeType(s: Scope): (r: ScopeType)
    ensures r == BAILABLE <==> s.cls == DeferBailableScope
    ensures r == CONTINUABLE <==> s.cls == DeferContinuableScope
  {
    match s.cls
    case DeferBailableScope => BAILABLE
    case DeferContinuableScope => CONTINUABLE
  }
}
