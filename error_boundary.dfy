/**
 * The error boundary around the routed pages (src/ErrorBoundary.js): one flag,
 * `hasError`, set when a descendant throws while rendering and cleared by its
 * "Try Again" button; rendering shows the fallback exactly while it is set.
 * Logging the caught error (`componentDidCatch`) is not part of this model.
 */
module Boundary {

  /** What the boundary renders: its fallback, or its children as given. */
  datatype Rendered<T> = Fallback | Children(children: T)

  /** The state object React merges into the boundary's state. */
  datatype BoundaryState = BoundaryState(hasError: bool)

  /** `getDerivedStateFromError`: the error value plays no part in the new state. */
  function DerivedStateFromError<E>(error: E): (s: BoundaryState)
    ensures s.hasError
  {
    BoundaryState(true)
  }

  /** `render`'s choice for a given flag. */
  function Select<T>(hasError: bool, children: T): (r: Rendered<T>)
    ensures r == Fallback <==> hasError
    ensures !hasError ==> r == Children(children)
  {
    if hasError then Fallback else Children(children)
  }

  /** Two different errors lead to the same state: nothing of the error is kept. */
  lemma DerivedStateIgnoresError<E>(e1: E, e2: E)
    ensures DerivedStateFromError(e1) == DerivedStateFromError(e2)
  {
  }

  class ErrorBoundary {
    var hasError: bool

    constructor ()
      ensures !hasError
    {
      hasError := false;
    }

    /** A descendant threw: the derived state is merged in, whatever the error and however often. */
    method Catch<E>(error: E)
      modifies this
      ensures hasError
    {
      hasError := DerivedStateFromError(error).hasError;
    }

    /** `handleRetry`, the "Try Again" button: back to the state the boundary started in. */
    method HandleRetry()
      modifies this
      ensures !hasError
    {
      hasError := false;
    }

    function Render<T>(children: T): (r: Rendered<T>)
      reads this
      ensures r == Fallback <==> hasError
      ensures !hasError ==> r == Children(children)
    {
      Select(hasError, children)
    }
  }

  /** Catch, catch again, then retry: the fallback shows after each catch and the children come back after retry. */
  method CatchTwiceThenRetry<T>(b: ErrorBoundary, children: T, first: string, second: string) returns (shown: seq<Rendered<T>>)
    modifies b
    ensures shown == [Fallback, Fallback, Children(children)]
    ensures !b.hasError
  {
    b.Catch(first);
    var r1 := b.Render(children);
    b.Catch(second);
    var r2 := b.Render(children);
    b.HandleRetry();
    var r3 := b.Render(children);
    shown := [r1, r2, r3];
  }
}
