/** What a route handler hands back to the web layer: the `(jsonify(body),
    status)` pair, with the body kept as a JSON value. */
module Http {
  import opened Json

  const StatusOk: int := 200
  const StatusServiceUnavailable: int := 503

  datatype Response = Response(body: Json, status: int)
}
