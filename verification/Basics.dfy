/**
  Failure-carrying results shared by every module, with the runtime's stable error codes.
 */
module Basics {

  /** crates/aeon_agent_runtime/src/error.rs:7-34 */
  datatype ErrorCode =
    | InvalidIdentifier | InvalidInput | CanonicalSerialization | MalformedProtocol | OutputTooLarge
    | UnknownTool | DuplicateTool | ToolOutsideMission | CapabilityOutsideAuthority
    | CapabilityAllForbidden | ToolManifestMismatch | SemanticContextChanged
    | ContextResolutionFailed | MissionInactive | AgentInactive | LeaseInactive | IdentityInvalid
    | DelegationInvalid | LeaseGenerationMismatch | CapabilityManifestMismatch
    | AuthorizationInvalid | BudgetExhausted | ExecutionFailed | ModelFailed | EventIncomplete
    | Internal

  datatype Option<+T> = None | Some(value: T)

  datatype Result<+T> = Ok(value: T) | Err(error: ErrorCode) {
    predicate IsFailure() { Err? }

    function PropagateFailure<U>(): Result<U>
      requires Err?
    {
      Err(error)
    }

    function Extract(): T
      requires Ok?
    {
      value
    }
  }

  /** Passes when `condition` holds, fails with `error` otherwise. */
  function Need(condition: bool, error: ErrorCode): Result<()> {
    if condition then Ok(()) else Err(error)
  }

  function Elems<T>(s: seq<T>): set<T> {
    set x | x in s
  }

  predicate Distinct<T(==)>(s: seq<T>) {
    forall i, j :: 0 <= i < j < |s| ==> s[i] != s[j]
  }

  lemma DistinctConcat<T>(a: seq<T>, b: seq<T>)
    requires Distinct(a) && Distinct(b) && Elems(a) !! Elems(b)
    ensures Distinct(a + b) && Elems(a + b) == Elems(a) + Elems(b)
  {
    var c := a + b;
    forall i, j | 0 <= i < j < |c| ensures c[i] != c[j] {
      if i < |a| <= j {
        assert c[i] in Elems(a) && c[j] in Elems(b);
      }
    }
  }
}
