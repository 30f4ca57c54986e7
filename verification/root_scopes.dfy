/**
 * The scope classes of the root namespace: src/AbstractDeferrableScope.php
 * and its one-method subclasses src/DeferrableContinuableScope.php,
 * src/DeferrableBailableScope.php, src/DeferContinuableScope.php and
 * src/DeferBailableScope.php. A scope names the class to wrap and reports
 * the failure policy its drains use.
 */
module RootScopes {
  import opened Common
  import opened Php
  import opened Consuming

  /**
   * The concrete class of a scope. `WithoutScopeType` stands for any
   * subclass that does not override `getScopeType`.
   */
  datatype ScopeClass =
    | DeferrableContinuableScope
    | DeferrableBailableScope
    | DeferContinuableScope
    | DeferBailableScope
    | WithoutScopeType

  datatype Scope = Scope(cls: ScopeClass, targetClass: string)

  /** `getClassName`. */
  function GetClassName(s: Scope): string {
    s.targetClass
  }

  /** `__construct(string $targetClass)`: `getClassName` then returns the target unchanged. */
  function Construct(cls: ScopeClass, targetClass: string): (s: Scope)
    ensures GetClassName(s) == targetClass
    ensures s.cls == cls
  {
    Scope(cls, targetClass)
  }

  /**
   * `getScopeType`: each subclass reports its policy; the base method throws,
   * so a scope without a policy fails as soon as it is asked.
   */
  function GetScopeType(s: Scope): (r: Result<ScopeType, Throwable>)
    ensures r.Err? <==> s.cls == WithoutScopeType
    ensures r.Err? ==> r.error == DeferrableException("Scope type is not defined")
    ensures r == Ok(CONTINUABLE) <==> s.cls == DeferrableContinuableScope || s.cls == DeferContinuableScope
    ensures r == Ok(BAILABLE) <==> s.cls == DeferrableBailableScope || s.cls == DeferBailableScope
  {
    match s.cls
    case DeferrableContinuableScope => Ok(CONTINUABLE)
    case DeferContinuableScope => Ok(CONTINUABLE)
    case DeferrableBailableScope => Ok(BAILABLE)
    case DeferBailableScope => Ok(BAILABLE)
    case WithoutScopeType => Err(DeferrableException("Scope type is not defined"))
  }
}
