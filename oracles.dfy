/**
 * Everything the pipeline asks of the outside world: the HTTP endpoints (the
 * current and the older search endpoint among them), the
 * xxh64 digest, Python's formatting of floats and containers, the clock, the
 * run id and the database's verdict on a row. Each is a function held in an
 * `Env` value, so a model run is determined by its inputs and its `Env`.
 */
module Oracles {
  import opened Json
  import opened Schema
  import opened Dicts

  /** What an HTTP call returns: the status code, the decoded JSON body and the raw text. */
  datatype Response = Response(status: int, body: Value, text: string)

  /** A flattened listing: column to value, in insertion order. */
  type Row = Dict<Column, Value>

  /** One outgoing HTTP request, as the request log records it. */
  datatype Request =
    | Search(body: Value)
    | LegacySearch(query: Value)
    | NeighbourhoodPage(city: string, neighbourhood: string)
    | ListingPage(listingId: string)

  /** The exceptions the pipeline raises or catches. */
  datatype Error =
    | SearchFailed(status: int, text: string)
    | HitsMissing(got: Value)
    | NotSized(hits: Value)
    | TotalMissing(got: Value)
    | Incomparable(total: Value)
    | Unhashable
    | NotAString(v: Value)
    | NotADict(v: Value)

  datatype Env = Env(
    search: Value -> Response,
    legacySearch: Value -> Response,
    neighbourhoodPage: (string, string) -> Response,
    listingPage: string -> Response,
    hash: string -> string,
    show: Value -> string,
    clock: nat -> string,
    rejects: Row -> bool,
    runId: string)
}
