/** The error boundary around the dashboard's panels: a render error of a
    child switches it to an error state, which shows the given fallback or
    a default card with a retry button; retrying clears the error. A React
    node is reduced to an optional label, falsy when absent or empty; an
    error to its message. */
module ErrorBoundary {
  import opened Base

  datatype BoundaryState = BoundaryState(hasError: bool, error: Option<string>)

  const INITIAL: BoundaryState := BoundaryState(false, None)

  /** `getDerivedStateFromError`. */
  function FromError(e: string): (st: BoundaryState)
    ensures st.hasError && st.error == Some(e)
  {
    BoundaryState(true, Some(e))
  }

  /** What `render` returns. */
  datatype Rendered = Children | Fallback(node: string) | DefaultCard

  function RenderOf(st: BoundaryState, fallback: Option<string>): (r: Rendered)
    ensures r == Children <==> !st.hasError
    ensures st.hasError && Truthy(fallback) ==> r == Fallback(fallback.value)
    ensures st.hasError && !Truthy(fallback) ==> r == DefaultCard
  {
    if st.hasError then
      if Truthy(fallback) then Fallback(fallback.value) else DefaultCard
    else Children
  }

  /** After a caught error the children are never rendered; after a reset
      they are again, whatever the error was. */
  lemma CatchThenReset(e: string, fallback: Option<string>)
    ensures RenderOf(FromError(e), fallback) != Children
    ensures RenderOf(INITIAL, fallback) == Children
  {
  }

  class Boundary {
    var hasError: bool
    var error: Option<string>

    function State(): BoundaryState
      reads this
    {
      BoundaryState(hasError, error)
    }

    constructor ()
      ensures State() == INITIAL
    {
      hasError, error := false, None;
    }

    /** React replaces the state with the derived one when a child throws. */
    method Caught(e: string)
      modifies this
      ensures State() == FromError(e)
    {
      var st := FromError(e);
      hasError, error := st.hasError, st.error;
    }

    /** `handleReset`: back to exactly the initial state. */
    method HandleReset()
      modifies this
      ensures State() == INITIAL
    {
      hasError, error := false, None;
    }

    /** `render`. */
    function Render(fallback: Option<string>): Rendered
      reads this
    {
      RenderOf(State(), fallback)
    }
  }
}
