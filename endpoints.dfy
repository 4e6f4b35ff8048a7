/** The small serverless endpoints: recruiters, leads, prospects, jobs and ideas.
    Each handler is a total function of the request, the configured `ADMIN_PASSWORD`
    and the store's reply to the one call it makes; it returns the response and that
    call (`NoOp` when it makes none). */
module Endpoints {
  import opened Optional
  import opened Text
  import opened Js
  import opened Http
  import opened AdminAuth

  /** The parts of a request the handlers read: `req.method`, `req.headers`, `req.body`. */
  datatype Request = Request(verb: string, headers: Headers, body: Row)

  /** The answer of the recruiters and leads handlers to a verb they do not serve. */
  function NotAllowed(verb: string): (r: Response)
    ensures r.status == 405 && r.allow == ["GET", "POST"]
  {
    Response(405, Text("Method " + verb + " Not Allowed"), ["GET", "POST"])
  }

  /** `{ <key>: data }` with 200, or 500 with the store's message. */
  function ListReply(key: string, reply: StoreReply): (r: Response)
    ensures r.status == 200 <==> reply.Rows?
    ensures reply.StoreError? ==> r == ErrorResponse(500, reply.message)
    ensures reply.Rows? ==> r.body == Json(Obj(map[key := RowsValue(reply.rows)]))
  {
    match reply
    case Rows(rows) => JsonResponse(200, map[key := RowsValue(rows)])
    case StoreError(m) => ErrorResponse(500, m)
  }

  /** The fields of `row` named in `keys`, each read as `row.k` (an object literal
      built from a destructured body). */
  function Pick(row: Row, keys: set<string>): (r: Row)
    ensures r.Keys == keys
    ensures forall k :: k in keys ==> r[k] == Get(row, k)
  {
    map k | k in keys :: Get(row, k)
  }

  // ---------------------------------------------------------------------------
  // recruiter slugs

  /** `toLowerCase` on the ASCII letters. */
  function LowerChar(c: char): char {
    if 'A' <= c <= 'Z' then (c as int + 32) as char else c
  }

  /** `\w` or `-`: the characters the slug filter keeps. */
  predicate IsWordOrHyphen(c: char) {
    ('a' <= c <= 'z') || ('A' <= c <= 'Z') || ('0' <= c <= '9') || c == '_' || c == '-'
  }

  /** The alphabet of a derived slug. */
  predicate IsSlugChar(c: char) {
    ('a' <= c <= 'z') || ('0' <= c <= '9') || c == '_' || c == '-'
  }

  function Lower(s: string): (r: string)
    ensures |r| == |s|
    ensures forall i :: 0 <= i < |s| ==> r[i] == LowerChar(s[i])
  {
    seq(|s|, i requires 0 <= i < |s| => LowerChar(s[i]))
  }

  /** `.replace(/ /g, '-')` */
  function HyphenateSpaces(s: string): (r: string)
    ensures |r| == |s|
    ensures forall i :: 0 <= i < |s| ==> r[i] == (if s[i] == ' ' then '-' else s[i])
  {
    seq(|s|, i requires 0 <= i < |s| => if s[i] == ' ' then '-' else s[i])
  }

  /** `.replace(/[^\w-]+/g, '')`: deleting every run of other characters is deleting
      each of them. */
  function KeepWordChars(s: string): string
    decreases |s|
  {
    if s == [] then []
    else (if IsWordOrHyphen(s[0]) then [s[0]] else []) + KeepWordChars(s[1..])
  }

  /** `name.toLowerCase().replace(/ /g, '-').replace(/[^\w-]+/g, '')`: a derived slug
      uses only lower-case letters, digits, `_` and `-`, and is no longer than the name. */
  function Slugify(name: string): (slug: string)
    ensures forall i :: 0 <= i < |slug| ==> IsSlugChar(slug[i])
    ensures |slug| <= |name|
  {
    KeepWordCharsOutput(HyphenateSpaces(Lower(name)));
    KeepWordChars(HyphenateSpaces(Lower(name)))
  }

  lemma {:induction false} KeepWordCharsOutput(s: string)
    requires forall i :: 0 <= i < |s| ==> !('A' <= s[i] <= 'Z')
    ensures forall i :: 0 <= i < |KeepWordChars(s)| ==> IsSlugChar(KeepWordChars(s)[i])
    ensures |KeepWordChars(s)| <= |s|
    decreases |s|
  {
    if s != [] {
      KeepWordCharsOutput(s[1..]);
    }
  }

  lemma {:induction false} KeepWordCharsOnWordChars(s: string)
    requires forall i :: 0 <= i < |s| ==> IsWordOrHyphen(s[i])
    ensures KeepWordChars(s) == s
    decreases |s|
  {
    if s != [] {
      KeepWordCharsOnWordChars(s[1..]);
    }
  }

  /** Deriving a slug from a derived slug gives it back. */
  lemma SlugifyIdempotent(name: string)
    ensures Slugify(Slugify(name)) == Slugify(name)
  {
    var s := Slugify(name);
    assert Lower(s) == s;
    assert HyphenateSpaces(s) == s;
    KeepWordCharsOnWordChars(s);
  }

  /** Every space of the name becomes a hyphen of the slug; a name of words made of
      lower-case letters joined by single spaces keeps its shape. */
  lemma SlugifyHyphenatesWords(a: string, b: string)
    requires forall i :: 0 <= i < |a| ==> 'a' <= a[i] <= 'z'
    requires forall i :: 0 <= i < |b| ==> 'a' <= b[i] <= 'z'
    ensures Slugify(a + " " + b) == a + "-" + b
  {
    var s := a + " " + b;
    assert Lower(s) == s;
    assert HyphenateSpaces(s) == a + "-" + b;
    KeepWordCharsOnWordChars(a + "-" + b);
  }

  /** The slug the recruiters POST stores, or the message of the `TypeError` thrown
      when it has to be derived from a name that is not a string. */
  datatype SlugOutcome = SlugValue(slug: Value) | SlugThrows(message: string)

  function FinalSlug(body: Row): (r: SlugOutcome)
    ensures Truthy(Get(body, "slug")) ==> r == SlugValue(Get(body, "slug"))
    ensures !Truthy(Get(body, "slug")) && Get(body, "name").Str? ==>
              r == SlugValue(Str(Slugify(Get(body, "name").s)))
    ensures r.SlugThrows? <==> !Truthy(Get(body, "slug")) && !Get(body, "name").Str?
  {
    var slug := Get(body, "slug");
    if Truthy(slug) then SlugValue(slug)
    else match Get(body, "name")
      case Str(s) => SlugValue(Str(Slugify(s)))
      case Undefined => SlugThrows("Cannot read properties of undefined (reading 'toLowerCase')")
      case Null => SlugThrows("Cannot read properties of null (reading 'toLowerCase')")
      case _ => SlugThrows("name.toLowerCase is not a function")
  }

  // ---------------------------------------------------------------------------
  // api/recruiters/index.js

  const RecruiterFields := {"name", "bio", "highlights", "calendar_id", "headshot_url"}

  /** The row a recruiters POST inserts. */
  function RecruiterRow(body: Row, slug: Value): (r: Row)
    ensures r.Keys == RecruiterFields + {"slug"}
    ensures r["slug"] == slug
    ensures forall k :: k in RecruiterFields ==> r[k] == Get(body, k)
  {
    Pick(body, RecruiterFields)["slug" := slug]
  }

  function Recruiters(req: Request, reply: StoreReply): (o: Outcome)
    ensures req.verb == "GET" ==>
              o.op == Select(SharedClient, "recruiters", "*", Order("name", true))
              && o.response == ListReply("recruiters", reply)
    ensures req.verb == "POST" && !HasBearerPrefix(req.headers) ==>
              o == Outcome(ErrorResponse(401, "Unauthorized"), NoOp)
    ensures req.verb == "POST" && HasBearerPrefix(req.headers) ==>
              match FinalSlug(req.body)
              case SlugThrows(m) => o == Outcome(ErrorResponse(500, m), NoOp)
              case SlugValue(slug) =>
                o.op == Insert(SharedClient, "recruiters", [RecruiterRow(req.body, slug)])
                && (reply.StoreError? ==> o.response == ErrorResponse(500, reply.message))
                && (reply.Rows? ==> o.response == JsonResponse(201, map["recruiter" := FirstRow(reply.rows)]))
    ensures req.verb != "GET" && req.verb != "POST" ==> o == Outcome(NotAllowed(req.verb), NoOp)
  {
    if req.verb == "GET" then
      Outcome(ListReply("recruiters", reply), Select(SharedClient, "recruiters", "*", Order("name", true)))
    else if req.verb == "POST" then
      if !HasBearerPrefix(req.headers) then Outcome(ErrorResponse(401, "Unauthorized"), NoOp)
      else match FinalSlug(req.body)
        case SlugThrows(m) => Outcome(ErrorResponse(500, m), NoOp)
        case SlugValue(slug) =>
          var op := Insert(SharedClient, "recruiters", [RecruiterRow(req.body, slug)]);
          match reply
          case StoreError(m) => Outcome(ErrorResponse(500, m), op)
          case Rows(rows) => Outcome(JsonResponse(201, map["recruiter" := FirstRow(rows)]), op)
    else Outcome(NotAllowed(req.verb), NoOp)
  }

  /** Only a bearer-prefixed POST writes a recruiter. */
  lemma RecruitersWriteNeedsBearer(req: Request, reply: StoreReply)
    requires Written(Recruiters(req, reply).op, reply) != []
    ensures req.verb == "POST" && HasBearerPrefix(req.headers)
  {
  }

  /** The value after "Bearer " is never compared: any two bearer headers give the
      same outcome. */
  lemma RecruitersIgnoreBearerValue(verb: string, body: Row, t1: string, t2: string, reply: StoreReply)
    ensures Recruiters(Request(verb, map["authorization" := "Bearer " + t1], body), reply)
         == Recruiters(Request(verb, map["authorization" := "Bearer " + t2], body), reply)
  {
    BearerPrefixAcceptsAnyValue(map["authorization" := "Bearer " + t1], t1);
    BearerPrefixAcceptsAnyValue(map["authorization" := "Bearer " + t2], t2);
  }

  // ---------------------------------------------------------------------------
  // api/leads/index.js

  const LeadFields := {"recruiter_id", "candidate_name", "candidate_email", "candidate_phone", "preferred_windows"}
  const LeadColumns := "*, recruiters:recruiter_id (name)"

  function Leads(req: Request, reply: StoreReply): (o: Outcome)
    ensures req.verb == "GET" && !HasBearerPrefix(req.headers) ==>
              o == Outcome(ErrorResponse(401, "Unauthorized"), NoOp)
    ensures req.verb == "GET" && HasBearerPrefix(req.headers) ==>
              o.op == Select(SharedClient, "leads", LeadColumns, Order("created_at", false))
              && o.response == ListReply("leads", reply)
    ensures req.verb == "POST" ==>
              o.op == Insert(SharedClient, "leads", [Pick(req.body, LeadFields)])
              && (reply.StoreError? ==> o.response == ErrorResponse(500, reply.message))
              && (reply.Rows? ==> o.response == JsonResponse(201, map["lead" := FirstRow(reply.rows)]))
    ensures req.verb != "GET" && req.verb != "POST" ==> o == Outcome(NotAllowed(req.verb), NoOp)
  {
    if req.verb == "GET" then
      if !HasBearerPrefix(req.headers) then Outcome(ErrorResponse(401, "Unauthorized"), NoOp)
      else Outcome(ListReply("leads", reply), Select(SharedClient, "leads", LeadColumns, Order("created_at", false)))
    else if req.verb == "POST" then
      var op := Insert(SharedClient, "leads", [Pick(req.body, LeadFields)]);
      match reply
      case StoreError(m) => Outcome(ErrorResponse(500, m), op)
      case Rows(rows) => Outcome(JsonResponse(201, map["lead" := FirstRow(rows)]), op)
    else Outcome(NotAllowed(req.verb), NoOp)
  }

  /** A lead submission is public: its outcome does not depend on the headers. */
  lemma LeadsPostIsPublic(body: Row, h1: Headers, h2: Headers, reply: StoreReply)
    ensures Leads(Request("POST", h1, body), reply) == Leads(Request("POST", h2, body), reply)
  {
  }

  /** Reading leads needs a bearer-prefixed header. */
  lemma LeadsReadNeedsBearer(req: Request, reply: StoreReply)
    requires Leads(req, reply).op.Select?
    ensures HasBearerPrefix(req.headers)
  {
  }

  // ---------------------------------------------------------------------------
  // api/prospects/index.js

  function Prospects(req: Request, secret: Option<string>, reply: StoreReply): (o: Outcome)
    ensures req.verb == "GET" && !CheckAdmin(req.headers, secret) ==>
              o == Outcome(ErrorResponse(403, "Forbidden"), NoOp)
    ensures req.verb == "GET" && CheckAdmin(req.headers, secret) ==>
              o.op == Select(SharedClient, "prospects", "*", Order("created_at", false))
              && o.response == ListReply("prospects", reply)
    ensures req.verb == "POST" ==>
              o.op == Insert(SharedClient, "prospects", [req.body])
              && (reply.StoreError? ==> o.response == ErrorResponse(500, reply.message))
              && (reply.Rows? ==> o.response == Response(200, Json(FirstRow(reply.rows)), []))
    ensures req.verb != "GET" && req.verb != "POST" ==>
              o == Outcome(ErrorResponse(405, "Method Not Allowed"), NoOp)
  {
    if req.verb == "GET" then
      if !CheckAdmin(req.headers, secret) then Outcome(ErrorResponse(403, "Forbidden"), NoOp)
      else Outcome(ListReply("prospects", reply), Select(SharedClient, "prospects", "*", Order("created_at", false)))
    else if req.verb == "POST" then
      var op := Insert(SharedClient, "prospects", [req.body]);
      match reply
      case StoreError(m) => Outcome(ErrorResponse(500, m), op)
      case Rows(rows) => Outcome(Response(200, Json(FirstRow(rows)), []), op)
    else Outcome(ErrorResponse(405, "Method Not Allowed"), NoOp)
  }

  /** No prospect is read without the administrator's token. */
  lemma ProspectsReadNeedsAdmin(req: Request, secret: Option<string>, reply: StoreReply)
    requires Prospects(req, secret, reply).op.Select?
    ensures CheckAdmin(req.headers, secret)
  {
  }

  /** A prospect is written exactly as submitted, by anyone. */
  lemma ProspectsPostVerbatim(body: Row, h: Headers, secret: Option<string>, rows: seq<Row>)
    ensures Written(Prospects(Request("POST", h, body), secret, Rows(rows)).op, Rows(rows)) == [body]
  {
  }

  // ---------------------------------------------------------------------------
  // api/jobs/index.js

  const PostingFields := {"title", "company", "location", "description"}

  /** The posting a jobs POST inserts: `salary || null`. */
  function PostingRow(body: Row): (r: Row)
    ensures r.Keys == PostingFields + {"salary"}
    ensures forall k :: k in PostingFields ==> r[k] == Get(body, k)
    ensures Truthy(Get(body, "salary")) ==> r["salary"] == Get(body, "salary")
    ensures !Truthy(Get(body, "salary")) ==> r["salary"] == Null
  {
    Pick(body, PostingFields)["salary" := Or(Get(body, "salary"), Null)]
  }

  function Jobs(req: Request, secret: Option<string>, reply: StoreReply): (o: Outcome)
    ensures req.verb == "GET" ==>
              o.op == Select(SharedClient, "postings", "*", Order("created_at", false))
              && o.response == ListReply("jobs", reply)
    ensures req.verb == "POST" && !CheckAdmin(req.headers, secret) ==>
              o == Outcome(ErrorResponse(403, "Forbidden"), NoOp)
    ensures req.verb == "POST" && CheckAdmin(req.headers, secret) ==>
              o.op == Insert(SharedClient, "postings", [PostingRow(req.body)])
              && (reply.StoreError? ==> o.response == ErrorResponse(500, reply.message))
              && (reply.Rows? ==> o.response == Response(200, Json(FirstRow(reply.rows)), []))
    ensures req.verb != "GET" && req.verb != "POST" ==>
              o == Outcome(ErrorResponse(405, "Method Not Allowed"), NoOp)
  {
    if req.verb == "GET" then
      Outcome(ListReply("jobs", reply), Select(SharedClient, "postings", "*", Order("created_at", false)))
    else if req.verb == "POST" then
      if !CheckAdmin(req.headers, secret) then Outcome(ErrorResponse(403, "Forbidden"), NoOp)
      else
        var op := Insert(SharedClient, "postings", [PostingRow(req.body)]);
        match reply
        case StoreError(m) => Outcome(ErrorResponse(500, m), op)
        case Rows(rows) => Outcome(Response(200, Json(FirstRow(rows)), []), op)
    else Outcome(ErrorResponse(405, "Method Not Allowed"), NoOp)
  }

  /** Only the administrator writes postings. */
  lemma JobsWriteNeedsAdmin(req: Request, secret: Option<string>, reply: StoreReply)
    requires Written(Jobs(req, secret, reply).op, reply) != []
    ensures req.verb == "POST" && CheckAdmin(req.headers, secret)
  {
  }

  /** Missing, empty and zero salaries are all stored as null. */
  lemma FalsySalariesBecomeNull(body: Row)
    ensures PostingRow(body - {"salary"})["salary"] == Null
    ensures PostingRow(body["salary" := Str("")])["salary"] == Null
    ensures PostingRow(body["salary" := Num(0)])["salary"] == Null
  {
  }

  // ---------------------------------------------------------------------------
  // api/ideas/index.js

  const IdeaFields := {"title", "department", "description"}

  /** The idea an ideas POST inserts: `total_hours || 0` and no participants. */
  function IdeaRow(body: Row): (r: Row)
    ensures r.Keys == IdeaFields + {"total_hours", "participants_count"}
    ensures forall k :: k in IdeaFields ==> r[k] == Get(body, k)
    ensures r["participants_count"] == Num(0)
    ensures Truthy(r["total_hours"]) <==> Truthy(Get(body, "total_hours"))
    ensures Truthy(Get(body, "total_hours")) ==> r["total_hours"] == Get(body, "total_hours")
    ensures !Truthy(Get(body, "total_hours")) ==> r["total_hours"] == Num(0)
  {
    Pick(body, IdeaFields)["total_hours" := Or(Get(body, "total_hours"), Num(0))]["participants_count" := Num(0)]
  }

  function Ideas(req: Request, reply: StoreReply): (o: Outcome)
    ensures req.verb == "GET" ==>
              o.op == Select(SharedClient, "ideas", "*", Order("total_hours", false))
              && o.response == ListReply("ideas", reply)
    ensures req.verb == "POST" ==>
              o.op == Insert(SharedClient, "ideas", [IdeaRow(req.body)])
              && (reply.StoreError? ==> o.response == ErrorResponse(500, reply.message))
              && (reply.Rows? ==> o.response == Response(200, Json(FirstRow(reply.rows)), []))
    ensures req.verb != "GET" && req.verb != "POST" ==>
              o == Outcome(ErrorResponse(405, "Method Not Allowed"), NoOp)
  {
    if req.verb == "GET" then
      Outcome(ListReply("ideas", reply), Select(SharedClient, "ideas", "*", Order("total_hours", false)))
    else if req.verb == "POST" then
      var op := Insert(SharedClient, "ideas", [IdeaRow(req.body)]);
      match reply
      case StoreError(m) => Outcome(ErrorResponse(500, m), op)
      case Rows(rows) => Outcome(Response(200, Json(FirstRow(rows)), []), op)
    else Outcome(ErrorResponse(405, "Method Not Allowed"), NoOp)
  }

  /** Every idea written starts with no participants, whoever sends it. */
  lemma NewIdeasHaveNoParticipants(req: Request, reply: StoreReply)
    ensures forall r :: r in Written(Ideas(req, reply).op, reply) ==> r["participants_count"] == Num(0)
  {
  }
}
