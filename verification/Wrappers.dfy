/** Small result types, and a fact about sets, shared by the whole project. */
module Wrappers {

  datatype Option<+T> = None | Some(value: T) {
    function GetOr(default: T): T {
      if Some? then value else default
    }
  }

  /** How a step of the orchestrator ends: normally, or with an exception. */
  datatype Outcome = Fine | Raise(message: string) {
    predicate IsFailure() {
      Raise?
    }

    function PropagateFailure(): Outcome
      requires Raise?
    {
      this
    }
  }

  lemma {:induction false} SubsetIsSmaller<T>(a: set<T>, b: set<T>)
    requires a <= b
    ensures |a| <= |b|
  {
    if a != {} {
      var x :| x in a;
      SubsetIsSmaller(a - {x}, b - {x});
    }
  }
}
