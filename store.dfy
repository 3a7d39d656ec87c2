/** The MongoDB collections behind the Express routes, and the reply
    envelope every route answers with (`{ success, data }` or
    `{ success: false, error }` plus an HTTP status). */
module Store {
  import opened Common
  import opened Schemas

  /** Why a route failed. */
  datatype Problem =
    | Invalid(paths: seq<string>)          // schema validation failed on these paths
    | StorageUnavailable                   // the database could not be reached
    | PredictorUnavailable(reason: string) // the prediction service call failed

  datatype Envelope<T> = Data(data: T) | Error(problem: Problem)

  datatype Reply<T> = Reply(status: nat, body: Envelope<T>)

  /** The `limit` of the list routes when the query string has none. */
  const DefaultLimit := 100

  /** `location ? { location } : {}`: an absent or empty location does not filter. */
  predicate AtLocation(location: Option<string>, at: string) {
    location.None? || location.value == "" || location.value == at
  }

  /** A location filters only when it is a non-empty string; then it
      keeps exactly that location. */
  lemma LocationFilterMeaning(location: Option<string>, at: string)
    ensures HasText(location) ==> (AtLocation(location, at) <==> at == location.value)
    ensures !HasText(location) ==> AtLocation(location, at)
  {
  }

  /** `limit = 100` when the query string carries none; `parseInt` of a
      present one is taken as already done. */
  function LimitOr(limit: Option<int>): int {
    if limit.Some? then limit.value else DefaultLimit
  }

  /** The three collections, in insertion order, and whether the database
      answers at all (a connection failure is an input, not modelled
      further). */
  class Database {
    var waterData: seq<WaterReading>
    var healthData: seq<HealthCase>
    var alerts: seq<Alert>
    var reachable: bool

    constructor (reachable: bool)
      ensures waterData == [] && healthData == [] && alerts == []
      ensures this.reachable == reachable
    {
      waterData, healthData, alerts := [], [], [];
      this.reachable := reachable;
    }
  }
}
