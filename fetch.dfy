/**
 * The `fetchJSON` helper of the dashboard: one HTTP GET whose outcome is an input.
 * The helper never throws; every failure it can see becomes a missing value.
 */
module Fetch {
  import opened Wrappers

  /** What one `fetch(url)` call came back with. */
  datatype FetchOutcome<T> =
    | Threw                                  // `fetch` rejected: network error, abort, CORS refusal
    | Responded(status: int, body: Option<T>) // a response; `body` is None when `res.json()` rejects
                                              // or when the body parses to JSON `null`

  /** `Response.ok` of the Fetch standard: the status is in the range 200 to 299. */
  predicate IsOk(status: int)
  {
    200 <= status <= 299
  }

  /**
   * The parsed body of a successful response, and None on every failure path:
   * a thrown `fetch`, a status that is not ok, or a body that is not valid JSON.
   */
  function FetchJSON<T>(outcome: FetchOutcome<T>): (r: Option<T>)
    ensures r.None? <==> (outcome.Threw? || !IsOk(outcome.status) || outcome.body.None?)
    ensures r.Some? ==> outcome.Responded? && r.value == outcome.body.value
  {
    match outcome
    case Threw => None
    case Responded(status, body) => if IsOk(status) then body else None
  }
}
