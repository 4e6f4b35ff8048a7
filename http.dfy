/** What a handler sends back, and the store calls it makes, as values. */
module Http {
  import opened Js

  datatype Body =
    | Json(value: Value)     // res.json(value)
    | Text(text: string)     // res.end(text)

  /** A response: the status, the body and the `Allow` header (empty when not set). */
  datatype Response = Response(status: int, body: Body, allow: seq<string>)

  function JsonResponse(status: int, fields: map<string, Value>): Response {
    Response(status, Json(Obj(fields)), [])
  }

  /** The `{ error: message }` body every handler uses for its failures. */
  function ErrorResponse(status: int, message: string): Response {
    JsonResponse(status, map["error" := Str(message)])
  }

  /** The store handles the source uses, kept abstract: `SharedClient` is the module-level
      client of api/_lib/supabase.js, api/db.js and the per-file clients of the recruiters
      and leads endpoints; `RequestClient` is `getSupabaseClient(req)`, built for the
      caller; `AdminClient` is `supabaseAdmin`. What each may do is decided by the store,
      not by this model. */
  datatype Client = SharedClient | RequestClient | AdminClient

  /** `.order(column, { ascending })` */
  datatype Order = Order(column: string, ascending: bool)

  /** The one store call a small endpoint makes for a request, if any. */
  datatype StoreOp =
    | NoOp
    | Select(client: Client, table: string, columns: string, order: Order)
    | Insert(client: Client, table: string, rows: seq<Row>)
    | SignUrl(client: Client, bucket: string, path: string, expiresIn: int)

  /** What the store answers: the rows it returned, or an error with its message. */
  datatype StoreReply = Rows(rows: seq<Row>) | StoreError(message: string)

  /** A handler's whole effect: its response and the store call it made. */
  datatype Outcome = Outcome(response: Response, op: StoreOp)

  /** The rows a store call adds to a table, given the store's reply. */
  function Written(op: StoreOp, reply: StoreReply): seq<Row> {
    if op.Insert? && reply.Rows? then op.rows else []
  }

  /** `data[0]`: the first returned row, `undefined` when there is none. */
  function FirstRow(rows: seq<Row>): Value {
    if |rows| > 0 then Obj(rows[0]) else Undefined
  }
}
