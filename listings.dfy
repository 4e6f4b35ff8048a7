/** The administrator listings of applications and collaborators, in their three
    serverless forms and as Express routes, and the Express resume-link route. Each
    reads one joined table and flattens the join into labels, with a fallback label
    where the joined row is gone. */
module Listings {
  import opened Optional
  import opened Js
  import opened Http
  import opened AdminAuth
  import opened Endpoints

  const UnknownJob := "Unknown Job"
  const DeletedIdea := "Deleted Idea"
  const UnknownEntity := "Unknown"

  /** `cond ? row.<join>.<field> : fallback` */
  function JoinedOr(row: Row, join: string, field: string, fallback: string): (v: Value)
    ensures !Truthy(Get(row, join)) ==> v == Str(fallback)
    ensures Get(row, join).Obj? ==> v == Get(Get(row, join).fields, field)
  {
    if Truthy(Get(row, join)) then Prop(Get(row, join), field) else Str(fallback)
  }

  /** `{ ...app, job_title: app.postings ? app.postings.title : 'Unknown Job' }` */
  function FlattenApplication(row: Row): (r: Row)
    ensures r.Keys == row.Keys + {"job_title"}
    ensures forall k :: k in row && k != "job_title" ==> r[k] == row[k]
    ensures r["job_title"] == JoinedOr(row, "postings", "title", UnknownJob)
  {
    row["job_title" := JoinedOr(row, "postings", "title", UnknownJob)]
  }

  /** `{ ...col, idea_title: …, idea_entity: … }` */
  function FlattenCollaborator(row: Row): (r: Row)
    ensures r.Keys == row.Keys + {"idea_title", "idea_entity"}
    ensures forall k :: k in row && k != "idea_title" && k != "idea_entity" ==> r[k] == row[k]
    ensures r["idea_title"] == JoinedOr(row, "ideas", "title", DeletedIdea)
    ensures r["idea_entity"] == JoinedOr(row, "ideas", "department", UnknownEntity)
  {
    row["idea_title" := JoinedOr(row, "ideas", "title", DeletedIdea)]
       ["idea_entity" := JoinedOr(row, "ideas", "department", UnknownEntity)]
  }

  /** `data.map(FlattenApplication)`: one output row per input row, in order. */
  function FlattenApplications(rows: seq<Row>): (out: seq<Row>)
    ensures |out| == |rows|
    ensures forall i :: 0 <= i < |rows| ==> out[i] == FlattenApplication(rows[i])
    decreases |rows|
  {
    if rows == [] then [] else [FlattenApplication(rows[0])] + FlattenApplications(rows[1..])
  }

  function FlattenCollaborators(rows: seq<Row>): (out: seq<Row>)
    ensures |out| == |rows|
    ensures forall i :: 0 <= i < |rows| ==> out[i] == FlattenCollaborator(rows[i])
    decreases |rows|
  {
    if rows == [] then [] else [FlattenCollaborator(rows[0])] + FlattenCollaborators(rows[1..])
  }

  /** Flattening distributes over concatenation, so the store's order is kept page by page. */
  lemma {:induction false} FlattenApplicationsAppend(a: seq<Row>, b: seq<Row>)
    ensures FlattenApplications(a + b) == FlattenApplications(a) + FlattenApplications(b)
    decreases |a|
  {
    if a != [] {
      assert (a + b)[1..] == a[1..] + b;
      FlattenApplicationsAppend(a[1..], b);
    }
  }

  /** A row whose posting was deleted is labelled 'Unknown Job'; nothing else changes. */
  lemma OrphanApplicationLabel(row: Row)
    requires Get(row, "postings") == Null
    ensures FlattenApplication(row)["job_title"] == Str(UnknownJob)
    ensures FlattenApplication(row) - {"job_title"} == row - {"job_title"}
  {
  }

  /** Flattening twice is flattening once when the join is unchanged: the labels are
      recomputed from the join, never from an earlier label. */
  lemma FlattenCollaboratorIdempotent(row: Row)
    ensures FlattenCollaborator(FlattenCollaborator(row)) == FlattenCollaborator(row)
  {
    var once := FlattenCollaborator(row);
    assert Get(once, "ideas") == Get(row, "ideas");
  }

  const ApplicationColumns := "*, postings (title)"
  const CollaboratorColumns := "*, ideas (title, department)"

  /** The flattened list with 200, or the store's message with 500. */
  function FlatReply(key: string, reply: StoreReply, flatten: seq<Row> -> seq<Row>): Response {
    match reply
    case Rows(rows) => JsonResponse(200, map[key := RowsValue(flatten(rows))])
    case StoreError(m) => ErrorResponse(500, m)
  }

  /** A listing's shape in the serverless functions: GET only, then `checkAdmin`,
      then one read through `client`. */
  function GatedListing(req: Request, secret: Option<string>, client: Client, table: string,
                        columns: string, key: string, flatten: seq<Row> -> seq<Row>, reply: StoreReply): (o: Outcome)
    ensures req.verb != "GET" ==> o == Outcome(ErrorResponse(405, "Method Not Allowed"), NoOp)
    ensures req.verb == "GET" && !CheckAdmin(req.headers, secret) ==> o == Outcome(ErrorResponse(403, "Forbidden"), NoOp)
    ensures o.op != NoOp ==> req.verb == "GET" && CheckAdmin(req.headers, secret)
    ensures req.verb == "GET" && CheckAdmin(req.headers, secret) ==>
              o.op == Select(client, table, columns, Order("created_at", false))
              && o.response == FlatReply(key, reply, flatten)
  {
    if req.verb != "GET" then Outcome(ErrorResponse(405, "Method Not Allowed"), NoOp)
    else if !CheckAdmin(req.headers, secret) then Outcome(ErrorResponse(403, "Forbidden"), NoOp)
    else Outcome(FlatReply(key, reply, flatten), Select(client, table, columns, Order("created_at", false)))
  }

  /** api/applications.js */
  function Applications(req: Request, secret: Option<string>, reply: StoreReply): (o: Outcome)
    ensures o.op != NoOp ==> CheckAdmin(req.headers, secret)
    ensures req.verb == "GET" && CheckAdmin(req.headers, secret) && reply.Rows? ==>
              o.response == JsonResponse(200, map["applications" := RowsValue(FlattenApplications(reply.rows))])
  {
    GatedListing(req, secret, SharedClient, "applications", ApplicationColumns, "applications",
                 rows => FlattenApplications(rows), reply)
  }

  /** api/collaborators.js */
  function Collaborators(req: Request, secret: Option<string>, reply: StoreReply): (o: Outcome)
    ensures o.op != NoOp ==> CheckAdmin(req.headers, secret) && o.op.client == SharedClient
    ensures req.verb == "GET" && CheckAdmin(req.headers, secret) && reply.Rows? ==>
              o.response == JsonResponse(200, map["collaborators" := RowsValue(FlattenCollaborators(reply.rows))])
  {
    GatedListing(req, secret, SharedClient, "collaborators", CollaboratorColumns, "collaborators",
                 rows => FlattenCollaborators(rows), reply)
  }

  /** api/collaborators/index.js: the same listing read through the caller's client,
      which is only built once the gate has passed. */
  function ScopedCollaborators(req: Request, secret: Option<string>, reply: StoreReply): (o: Outcome)
    ensures o.op != NoOp ==> CheckAdmin(req.headers, secret) && o.op.client == RequestClient
    ensures req.verb == "GET" && CheckAdmin(req.headers, secret) && reply.Rows? ==>
              o.response == JsonResponse(200, map["collaborators" := RowsValue(FlattenCollaborators(reply.rows))])
  {
    GatedListing(req, secret, RequestClient, "collaborators", CollaboratorColumns, "collaborators",
                 rows => FlattenCollaborators(rows), reply)
  }

  /** The two collaborator listings answer alike; they differ only in the client they read through. */
  lemma CollaboratorListingsAgree(req: Request, secret: Option<string>, reply: StoreReply)
    ensures Collaborators(req, secret, reply).response == ScopedCollaborators(req, secret, reply).response
  {
  }

  // ---------------------------------------------------------------------------
  // api/server.js: the listing routes and the resume link, behind `requireAdmin`

  function ServerListing(h: Headers, cfg: ServerConfig, table: string, columns: string, key: string,
                         flatten: seq<Row> -> seq<Row>, reply: StoreReply): (o: Outcome)
    ensures RequireAdmin(h, cfg).Deny? ==> o == Outcome(RequireAdmin(h, cfg).response, NoOp)
    ensures RequireAdmin(h, cfg).Next? ==>
              o.op == Select(SharedClient, table, columns, Order("created_at", false))
              && o.response == FlatReply(key, reply, flatten)
  {
    match RequireAdmin(h, cfg)
    case Deny(r) => Outcome(r, NoOp)
    case Next => Outcome(FlatReply(key, reply, flatten), Select(SharedClient, table, columns, Order("created_at", false)))
  }

  /** `GET /api/applications` */
  function ServerApplications(h: Headers, cfg: ServerConfig, reply: StoreReply): (o: Outcome)
    ensures o.op != NoOp <==> RequireAdmin(h, cfg).Next?
    ensures RequireAdmin(h, cfg).Next? && reply.Rows? ==>
              o.response == JsonResponse(200, map["applications" := RowsValue(FlattenApplications(reply.rows))])
  {
    ServerListing(h, cfg, "applications", ApplicationColumns, "applications", rows => FlattenApplications(rows), reply)
  }

  /** `GET /api/collaborators` */
  function ServerCollaborators(h: Headers, cfg: ServerConfig, reply: StoreReply): (o: Outcome)
    ensures o.op != NoOp <==> RequireAdmin(h, cfg).Next?
    ensures RequireAdmin(h, cfg).Next? && reply.Rows? ==>
              o.response == JsonResponse(200, map["collaborators" := RowsValue(FlattenCollaborators(reply.rows))])
  {
    ServerListing(h, cfg, "collaborators", CollaboratorColumns, "collaborators", rows => FlattenCollaborators(rows), reply)
  }

  /** What the storage answers to a signed-URL request. */
  datatype SignReply = SignedUrl(url: string) | SignError(message: string)

  const ResumeLinkSeconds := 60

  /** `GET /api/admin/resume-link/:path`: a 60-second link to the stored object,
      requested only once the administrator check has passed. */
  function ResumeLink(h: Headers, cfg: ServerConfig, path: string, reply: SignReply): (o: Outcome)
    ensures o.op.SignUrl? <==> RequireAdmin(h, cfg).Next?
    ensures o.op.SignUrl? ==> o.op == SignUrl(SharedClient, "resumes", path, ResumeLinkSeconds)
    ensures RequireAdmin(h, cfg).Deny? ==> o == Outcome(RequireAdmin(h, cfg).response, NoOp)
    ensures RequireAdmin(h, cfg).Next? ==>
              o.response == (match reply
                             case SignedUrl(u) => JsonResponse(200, map["url" := Str(u)])
                             case SignError(m) => ErrorResponse(500, m))
  {
    match RequireAdmin(h, cfg)
    case Deny(r) => Outcome(r, NoOp)
    case Next =>
      var op := SignUrl(SharedClient, "resumes", path, ResumeLinkSeconds);
      match reply
      case SignedUrl(u) => Outcome(JsonResponse(200, map["url" := Str(u)]), op)
      case SignError(m) => Outcome(ErrorResponse(500, m), op)
  }

  /** Without an Authorization header no link is requested and the answer is 401. */
  lemma ResumeLinkNeedsHeader(h: Headers, cfg: ServerConfig, path: string, reply: SignReply)
    requires "authorization" !in h
    ensures ResumeLink(h, cfg, path, reply) == Outcome(ErrorResponse(401, "Unauthorized"), NoOp)
  {
  }
}
