/** Values shared by the calculators: parse results, the outcome of a form submission
    and the results-panel toggle. */
module Common {

  /** The result of `parseFloat` / `parseInt`: `None` stands for `NaN`. */
  datatype Option<T> = None | Some(value: T)

  /** Why a submission was refused; each calculator reports it with a toast and stops. */
  datatype InputError =
    | MissingInput   // a required field is the empty string
    | InvalidNumber  // a field does not parse, or its value is outside the accepted range

  datatype Result<T> = Ok(value: T) | Err(error: InputError)

  /** What a submit handler hands on: the value passed to `setResults` (or the error that
      stopped it) and whether it goes on to request the historical series. */
  datatype Submission<T> = Submission(outcome: Result<T>, fetchHistory: bool)

  function Min(a: int, b: int): int
  {
    if a <= b then a else b
  }

  /** `toggleCollapse = () => setResults(results ? null : results)`: a non-null panel is
      cleared, and a null one stays null, so the results are never shown again. */
  function ToggleCollapse<T>(results: Option<T>): (r: Option<T>)
    ensures r == None
  {
    if results.Some? then None else results
  }
}
