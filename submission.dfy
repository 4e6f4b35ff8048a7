/** The submission pipeline: `POST /api/apply`, in its serverless form (api/apply.js)
    and its older Express form (api/server.js). One request is either a collaboration
    commitment to an idea or a job application with a PDF resume. The store is
    replaced by the class `Backend`, whose fields are the tables the handlers touch;
    the clock, the random key suffix and every store call's success or failure are
    passed in as `Replies`. */
module Submission {
  import opened Optional
  import opened Text
  import opened Js
  import opened Http
  import opened Upload

  /** The multipart text fields by name; every text part arrives as a string. */
  type Fields = map<string, string>

  function Field(f: Fields, k: string): Option<string> {
    if k in f then Some(f[k]) else None
  }

  /** `const isCollaboration = !!committed_hours`: any non-empty string, "0" included. */
  predicate IsCollaboration(f: Fields): (r: bool)
    ensures r <==> Truthy(OfOption(Field(f, "committed_hours")))
    ensures Field(f, "committed_hours") == Some("0") ==> r
  {
    Field(f, "committed_hours").Some? && Field(f, "committed_hours").value != ""
  }

  /** A value interpolated into a query string: `${x}` is "undefined" when x is. */
  function FilterText(o: Option<string>): string {
    match o
    case Some(s) => s
    case None => "undefined"
  }

  datatype ApplyRequest = ApplyRequest(
    verb: string,
    fields: Fields,
    file: Option<IncomingFile>,
    forwardedFor: Option<string>,   // the x-forwarded-for header
    remoteAddress: string)          // req.socket.remoteAddress

  /** `req.headers['x-forwarded-for'] || req.socket.remoteAddress` */
  function ClientIp(req: ApplyRequest): (ip: string)
    ensures Str(ip) == Or(OfOption(req.forwardedFor), Str(req.remoteAddress))
    ensures req.forwardedFor.Some? && req.forwardedFor.value != "" ==> ip == req.forwardedFor.value
  {
    if req.forwardedFor.Some? && req.forwardedFor.value != "" then req.forwardedFor.value
    else req.remoteAddress
  }

  // ---------------------------------------------------------------------------
  // rows

  /** A row of `applications`. `resumeUrl` holds the object key, not a URL. */
  datatype ApplicationRow = ApplicationRow(
    id: int, postingId: Option<string>, fullName: Option<string>, email: Option<string>,
    phone: Option<string>, linkedinUrl: Option<string>, resumeUrl: string,
    ipAddress: Option<string>, createdAt: int)

  /** A row of `collaborators`; `committedHours` is None where `parseInt` gave NaN. */
  datatype CollaboratorRow = CollaboratorRow(
    id: int, ideaId: Option<string>, fullName: Option<string>, email: Option<string>,
    phone: Option<string>, committedHours: Option<int>, createdAt: int)

  /** An idea's counters; None is SQL null. */
  datatype IdeaStats = IdeaStats(totalHours: Option<int>, participantsCount: Option<int>)

  function ApplicationFrom(f: Fields, key: string, ip: Option<string>, id: int, now: int): ApplicationRow {
    ApplicationRow(id, Field(f, "posting_id"), Field(f, "full_name"), Field(f, "email"),
                   Field(f, "phone"), Field(f, "linkedin_url"), key, ip, now)
  }

  function CollaboratorFrom(f: Fields, hours: Option<int>, id: int, now: int): CollaboratorRow {
    CollaboratorRow(id, Field(f, "idea_id"), Field(f, "full_name"), Field(f, "email"),
                    Field(f, "phone"), hours, now)
  }

  // ---------------------------------------------------------------------------
  // rate limit

  const Day: int := 24 * 60 * 60 * 1000
  const DailyLimit: nat := 2
  const RateLimitedMessage := "You used up all your applications for the day. Please join our discord."
  const ResumeRequiredMessage := "Resume PDF is required for job applications."

  /** A row the rate-limit query counts: same email OR same address, created at or
      after `since` (`.or('email.eq.<email>,ip_address.eq.<ip>').gte('created_at', since)`). */
  predicate Counted(r: ApplicationRow, email: string, ip: string, since: int) {
    (r.email == Some(email) || r.ipAddress == Some(ip)) && r.createdAt >= since
  }

  /** The `count` the rate-limit query returns. */
  function RecentCount(rows: seq<ApplicationRow>, email: string, ip: string, since: int): (n: nat)
    ensures n <= |rows|
    decreases |rows|
  {
    if rows == [] then 0
    else RecentCount(rows[..|rows| - 1], email, ip, since)
         + (if Counted(rows[|rows| - 1], email, ip, since) then 1 else 0)
  }

  /** The indices of the counted rows: an independent statement of what is counted. */
  function CountedIndices(rows: seq<ApplicationRow>, email: string, ip: string, since: int): set<int> {
    set i | 0 <= i < |rows| && Counted(rows[i], email, ip, since)
  }

  /** The count is the number of rows matching the identity within the window. */
  lemma {:induction false} RecentCountIsCardinality(rows: seq<ApplicationRow>, email: string, ip: string, since: int)
    ensures RecentCount(rows, email, ip, since) == |CountedIndices(rows, email, ip, since)|
    decreases |rows|
  {
    if rows != [] {
      var n := |rows| - 1;
      var front := rows[..n];
      RecentCountIsCardinality(front, email, ip, since);
      var before := CountedIndices(front, email, ip, since);
      var after := CountedIndices(rows, email, ip, since);
      if Counted(rows[n], email, ip, since) {
        assert after == before + {n};
        assert n !in before;
      } else {
        assert after == before;
      }
    }
  }

  /** Rows created before the window opened are never counted. */
  lemma {:induction false} RecentCountIgnoresOldRows(rows: seq<ApplicationRow>, email: string, ip: string, since: int)
    requires forall i :: 0 <= i < |rows| ==> rows[i].createdAt < since
    ensures RecentCount(rows, email, ip, since) == 0
    decreases |rows|
  {
    if rows != [] {
      RecentCountIgnoresOldRows(rows[..|rows| - 1], email, ip, since);
    }
  }

  // ---------------------------------------------------------------------------
  // object keys

  /** `resume-${Date.now()}-${Math.round(Math.random() * 1e9)}.pdf` */
  function ObjectKey(now: nat, random: nat): (k: string)
    ensures |k| >= 14 && k[..7] == "resume-" && k[|k| - 4..] == ".pdf"
  {
    "resume-" + NatToString(now) + "-" + NatToString(random) + ".pdf"
  }

  /** Reads the clock value and the random suffix back out of a key. */
  function ParseObjectKey(key: string): Option<(nat, nat)> {
    if |key| < 11 || key[..7] != "resume-" || key[|key| - 4..] != ".pdf" then None
    else
      var parts := Split(key[7..|key| - 4], '-');
      if |parts| == 2 && parts[0] != "" && parts[1] != "" && AllDigits(parts[0]) && AllDigits(parts[1])
      then Some((DigitsValue(parts[0]), DigitsValue(parts[1])))
      else None
  }

  /** A generated key names its clock value and random suffix. */
  lemma ObjectKeyRoundTrip(now: nat, random: nat)
    ensures ParseObjectKey(ObjectKey(now, random)) == Some((now, random))
  {
    var a, b := NatToString(now), NatToString(random);
    var key := ObjectKey(now, random);
    assert key == "resume-" + (a + "-" + b) + ".pdf";
    assert key[..7] == "resume-";
    assert key[|key| - 4..] == ".pdf";
    assert key[7..|key| - 4] == Join([a, b], '-');
    assert forall c :: c in a ==> IsDigit(c);
    assert forall c :: c in b ==> IsDigit(c);
    SplitJoin([a, b], '-');
    DigitsValueOfNatToString(now);
    DigitsValueOfNatToString(random);
  }

  /** Two requests get the same key only with the same clock value and random suffix. */
  lemma ObjectKeyInjective(t1: nat, r1: nat, t2: nat, r2: nat)
    requires ObjectKey(t1, r1) == ObjectKey(t2, r2)
    ensures t1 == t2 && r1 == r2
  {
    ObjectKeyRoundTrip(t1, r1);
    ObjectKeyRoundTrip(t2, r2);
  }

  // ---------------------------------------------------------------------------
  // idea counters

  /** `(x || 0)` on a counter */
  function OrZero(x: Option<int>): int {
    if x.Some? then x.value else 0
  }

  /** The fallback's write: `total_hours: (old || 0) + parseInt(h)` and
      `participants_count: (old || 0) + 1`. A NaN sum is sent as JSON null. */
  function Bumped(s: IdeaStats, hours: Option<int>): (b: IdeaStats)
    ensures b.participantsCount == Some(OrZero(s.participantsCount) + 1)
    ensures hours.Some? ==> b.totalHours == Some(OrZero(s.totalHours) + hours.value)
    ensures hours.None? ==> b.totalHours.None?
  {
    IdeaStats(if hours.Some? then Some(OrZero(s.totalHours) + hours.value) else None,
              Some(OrZero(s.participantsCount) + 1))
  }

  /** A commitment of `h` hours through the fallback moves (T, P) to (T + h, P + 1). */
  lemma BumpedAddsCommitment(t: int, p: int, h: int)
    ensures Bumped(IdeaStats(Some(t), Some(p)), Some(h)) == IdeaStats(Some(t + h), Some(p + 1))
  {
  }

  /** The fallback is a blind read-modify-write: two requests that read the same
      counters both write a value computed from them, so the second write erases the
      first commitment instead of adding to it. */
  lemma FallbackLosesConcurrentUpdate(base: IdeaStats, h1: int, h2: int)
    ensures Bumped(base, Some(h2)) != Bumped(Bumped(base, Some(h1)), Some(h2))
  {
  }

  /** Numerals a client sends as `committed_hours` are read back exactly. */
  lemma CommittedHoursRoundTrip(h: int)
    ensures ParseInt(IntToString(h)) == Some(h)
  {
    ParseIntOfIntToString(h);
  }

  // ---------------------------------------------------------------------------
  // the store

  /** One store call, with the handle it goes through, in the order the handler makes them. */
  datatype StoreCall =
    | CountRecent(client: Client, email: string, ip: string, since: int)
    | UploadObject(client: Client, key: string)
    | InsertApplication(client: Client)
    | InsertCollaborator(client: Client)
    | CallIncrementRpc(client: Client, ideaId: string, hours: Option<int>)
    | ReadIdea(client: Client, ideaId: string)
    | UpdateIdea(client: Client, ideaId: string)

  /** The answers of the runtime and of the store while one request is handled. */
  datatype Replies = Replies(
    now: nat,                              // Date.now(), also the rows' created_at
    random: nat,                           // Math.round(Math.random() * 1e9)
    newId: int,                            // the id the store gives an inserted row
    countFailed: bool,                     // the rate-limit count query errors
    uploadError: Option<string>,           // the storage upload fails with this message
    insertError: Option<string>,           // the row insert fails with this message
    rpc: Option<map<string, IdeaStats>>,   // None: `increment_idea_stats` errors; Some(t): the ideas table it leaves
    readFailed: bool,                      // the fallback read of the idea errors
    updateFailed: bool)                    // the fallback update errors

  const DuplicateObjectMessage := "The resource already exists"
  const NullIdeaMessage := "Cannot read properties of null (reading 'total_hours')"

  /** Whether the serverless handler turns the request away with 429: the count query
      answered and counted `DailyLimit` or more recent applications of this email or
      address. A failed count query is only logged, so the request goes on. */
  predicate RateLimited(apps: seq<ApplicationRow>, f: Fields, ip: string, rp: Replies): (r: bool)
    ensures rp.countFailed ==> !r
    ensures r <==> !rp.countFailed
                   && |CountedIndices(apps, FilterText(Field(f, "email")), ip, rp.now - Day)| >= DailyLimit
  {
    RecentCountIsCardinality(apps, FilterText(Field(f, "email")), ip, rp.now - Day);
    !rp.countFailed && RecentCount(apps, FilterText(Field(f, "email")), ip, rp.now - Day) >= DailyLimit
  }

  /** The ideas table after the stats step of a commitment whose row was inserted:
      the RPC's own result, or the fallback's write when the RPC errors, the idea
      could be read and the update went through. */
  function IdeasAfterCommitment(ideas: map<string, IdeaStats>, key: string, hours: Option<int>, rp: Replies)
    : map<string, IdeaStats>
  {
    if rp.rpc.Some? then rp.rpc.value
    else if !rp.readFailed && key in ideas && !rp.updateFailed then ideas[key := Bumped(ideas[key], hours)]
    else ideas
  }

  /** The store calls of that step: the RPC through the caller's client, then, only
      when it errors, the admin read, and the admin update when the idea was found. */
  function StatsCalls(ideas: map<string, IdeaStats>, key: string, hours: Option<int>, rp: Replies): (trace: seq<StoreCall>)
    ensures 1 <= |trace| <= 3
    ensures trace[0] == CallIncrementRpc(RequestClient, key, hours)
    ensures rp.rpc.Some? <==> |trace| == 1
  {
    [CallIncrementRpc(RequestClient, key, hours)]
    + (if rp.rpc.Some? then [] else [ReadIdea(AdminClient, key)])
    + (if rp.rpc.None? && !rp.readFailed && key in ideas then [UpdateIdea(AdminClient, key)] else [])
  }

  /** When the RPC errors and the idea is missing, the counters stay as they were. */
  lemma MissingIdeaLeavesCounters(ideas: map<string, IdeaStats>, key: string, hours: Option<int>, rp: Replies)
    requires rp.rpc.None? && key !in ideas
    ensures IdeasAfterCommitment(ideas, key, hours, rp) == ideas
  {
  }

  class Backend {
    var applications: seq<ApplicationRow>
    var collaborators: seq<CollaboratorRow>
    var ideas: map<string, IdeaStats>
    var objects: set<string>      // the keys in the private `resumes` bucket
    var calls: seq<StoreCall>     // the store calls received, oldest first

    /** Every application names a stored resume: the upload always comes first,
        and nothing is ever removed from the bucket. */
    ghost predicate Valid()
      reads this
    {
      forall i :: 0 <= i < |applications| ==> applications[i].resumeUrl in objects
    }

    constructor ()
      ensures Valid()
      ensures applications == [] && collaborators == [] && ideas == map[] && objects == {} && calls == []
    {
      applications, collaborators, ideas, objects, calls := [], [], map[], {}, [];
    }

    /** The stats step of a commitment in api/apply.js: the RPC through the caller's
        client, then, only if it errors, the admin fallback read and update. */
    method UpdateStats(key: string, hours: Option<int>, rp: Replies)
      modifies this`ideas, this`calls
      ensures ideas == IdeasAfterCommitment(old(ideas), key, hours, rp)
      ensures calls == old(calls) + StatsCalls(old(ideas), key, hours, rp)
    {
      calls := calls + [CallIncrementRpc(RequestClient, key, hours)];
      if rp.rpc.Some? {
        ideas := rp.rpc.value;
      } else {
        calls := calls + [ReadIdea(AdminClient, key)];
        if !rp.readFailed && key in ideas {
          calls := calls + [UpdateIdea(AdminClient, key)];
          if !rp.updateFailed {
            ideas := ideas[key := Bumped(ideas[key], hours)];
          }
        }
      }
    }

    /** The commitment branch of api/apply.js: the collaborator row through the
        caller's client, then the stats step. */
    method Commit(f: Fields, rp: Replies) returns (resp: Response)
      requires IsCollaboration(f)
      modifies this`collaborators, this`ideas, this`calls
      ensures var hours := ParseInt(f["committed_hours"]);
              var key := FilterText(Field(f, "idea_id"));
              if rp.insertError.Some? then
                resp == ErrorResponse(500, rp.insertError.value)
                && collaborators == old(collaborators) && ideas == old(ideas)
                && calls == old(calls) + [InsertCollaborator(RequestClient)]
              else
                resp == JsonResponse(200, map["message" := Str("Collaboration successful")])
                && collaborators == old(collaborators) + [CollaboratorFrom(f, hours, rp.newId, rp.now)]
                && ideas == IdeasAfterCommitment(old(ideas), key, hours, rp)
                && calls == old(calls) + [InsertCollaborator(RequestClient)] + StatsCalls(old(ideas), key, hours, rp)
    {
      var hours := ParseInt(f["committed_hours"]);
      calls := calls + [InsertCollaborator(RequestClient)];
      if rp.insertError.Some? {
        return ErrorResponse(500, rp.insertError.value);
      }
      collaborators := collaborators + [CollaboratorFrom(f, hours, rp.newId, rp.now)];
      var key := FilterText(Field(f, "idea_id"));
      UpdateStats(key, hours, rp);
      return JsonResponse(200, map["message" := Str("Collaboration successful")]);
    }

    /** The job-application branch of api/apply.js: the rate-limit count, the upload
        under a fresh key, then the row. */
    method SubmitApplication(req: ApplyRequest, rp: Replies) returns (resp: Response)
      requires Valid()
      modifies this`applications, this`objects, this`calls
      ensures Valid()
      ensures var f := req.fields;
              var ip := ClientIp(req);
              var key := ObjectKey(rp.now, rp.random);
              var count := CountRecent(AdminClient, FilterText(Field(f, "email")), ip, rp.now - Day);
              if RateLimited(old(applications), f, ip, rp) then
                resp == ErrorResponse(429, RateLimitedMessage)
                && applications == old(applications) && objects == old(objects)
                && calls == old(calls) + [count]
              else if rp.uploadError.Some? || key in old(objects) then
                resp.status == 500 && applications == old(applications) && objects == old(objects)
                && calls == old(calls) + [count, UploadObject(AdminClient, key)]
              else if rp.insertError.Some? then
                resp == ErrorResponse(500, rp.insertError.value)
                && applications == old(applications) && objects == old(objects) + {key}
                && calls == old(calls) + [count, UploadObject(AdminClient, key), InsertApplication(RequestClient)]
              else
                resp == JsonResponse(200, map["message" := Str("Application successful"), "id" := Num(rp.newId)])
                && applications == old(applications) + [ApplicationFrom(f, key, Some(ip), rp.newId, rp.now)]
                && objects == old(objects) + {key}
                && calls == old(calls) + [count, UploadObject(AdminClient, key), InsertApplication(RequestClient)]
      ensures resp.status == 200 && !rp.countFailed ==>
                RecentCount(applications, FilterText(Field(req.fields, "email")), ClientIp(req), rp.now - Day) <= DailyLimit
    {
      var f := req.fields;
      var ip := ClientIp(req);
      var email := FilterText(Field(f, "email"));
      var since := rp.now - Day;
      calls := calls + [CountRecent(AdminClient, email, ip, since)];
      if !rp.countFailed && RecentCount(applications, email, ip, since) >= DailyLimit {
        return ErrorResponse(429, RateLimitedMessage);
      }

      var key := ObjectKey(rp.now, rp.random);
      calls := calls + [UploadObject(AdminClient, key)];
      if rp.uploadError.Some? {
        return ErrorResponse(500, rp.uploadError.value);
      }
      if key in objects {
        return ErrorResponse(500, DuplicateObjectMessage);
      }
      objects := objects + {key};

      calls := calls + [InsertApplication(RequestClient)];
      if rp.insertError.Some? {
        return ErrorResponse(500, rp.insertError.value);
      }
      var row := ApplicationFrom(f, key, Some(ip), rp.newId, rp.now);
      applications := applications + [row];
      assert applications[..|applications| - 1] == old(applications);
      assert Counted(row, email, ip, since);
      return JsonResponse(200, map["message" := Str("Application successful"), "id" := Num(rp.newId)]);
    }

    /** `handler` of api/apply.js. */
    method Apply(req: ApplyRequest, rp: Replies) returns (resp: Response)
      requires Valid()
      modifies this
      ensures Valid()
      // the method gate
      ensures req.verb != "POST" ==> resp == ErrorResponse(405, "Method Not Allowed") && unchanged(this)
      // the upload filter
      ensures req.verb == "POST" && SingleResume(req.file).Rejected? ==>
                resp == MiddlewareErrorResponse(SingleResume(req.file).error) && unchanged(this)
      // the resume-required check
      ensures (req.verb == "POST" && SingleResume(req.file).NoFile? && !IsCollaboration(req.fields)) ==>
                resp == ErrorResponse(400, ResumeRequiredMessage) && unchanged(this)
      // nothing is written on a 4xx
      ensures 400 <= resp.status < 500 ==>
                applications == old(applications) && collaborators == old(collaborators)
                && ideas == old(ideas) && objects == old(objects)
      // a commitment
      ensures (req.verb == "POST" && !SingleResume(req.file).Rejected? && IsCollaboration(req.fields)) ==>
                var f := req.fields;
                var hours := ParseInt(f["committed_hours"]);
                var key := FilterText(Field(f, "idea_id"));
                applications == old(applications) && objects == old(objects) &&
                if rp.insertError.Some? then
                  resp == ErrorResponse(500, rp.insertError.value)
                  && collaborators == old(collaborators) && ideas == old(ideas)
                  && calls == old(calls) + [InsertCollaborator(RequestClient)]
                else
                  resp == JsonResponse(200, map["message" := Str("Collaboration successful")])
                  && collaborators == old(collaborators) + [CollaboratorFrom(f, hours, rp.newId, rp.now)]
                  && ideas == IdeasAfterCommitment(old(ideas), key, hours, rp)
                  && calls == old(calls) + [InsertCollaborator(RequestClient)] + StatsCalls(old(ideas), key, hours, rp)
      // a job application
      ensures (req.verb == "POST" && SingleResume(req.file).Accepted? && !IsCollaboration(req.fields)) ==>
                var f := req.fields;
                var ip := ClientIp(req);
                var key := ObjectKey(rp.now, rp.random);
                var count := CountRecent(AdminClient, FilterText(Field(f, "email")), ip, rp.now - Day);
                collaborators == old(collaborators) && ideas == old(ideas) &&
                if RateLimited(old(applications), f, ip, rp) then
                  resp == ErrorResponse(429, RateLimitedMessage)
                  && applications == old(applications) && objects == old(objects)
                  && calls == old(calls) + [count]
                else if rp.uploadError.Some? || key in old(objects) then
                  resp.status == 500 && applications == old(applications) && objects == old(objects)
                  && calls == old(calls) + [count, UploadObject(AdminClient, key)]
                else if rp.insertError.Some? then
                  // no rollback: the stored resume stays
                  resp == ErrorResponse(500, rp.insertError.value)
                  && applications == old(applications) && objects == old(objects) + {key}
                  && calls == old(calls) + [count, UploadObject(AdminClient, key), InsertApplication(RequestClient)]
                else
                  resp == JsonResponse(200, map["message" := Str("Application successful"), "id" := Num(rp.newId)])
                  && applications == old(applications) + [ApplicationFrom(f, key, Some(ip), rp.newId, rp.now)]
                  && objects == old(objects) + {key}
                  && calls == old(calls) + [count, UploadObject(AdminClient, key), InsertApplication(RequestClient)]
      // what the rate limit achieves when its query answers
      ensures (resp.status == 200 && !IsCollaboration(req.fields) && !rp.countFailed) ==>
                RecentCount(applications, FilterText(Field(req.fields, "email")), ClientIp(req), rp.now - Day) <= DailyLimit
    {
      if req.verb != "POST" {
        return ErrorResponse(405, "Method Not Allowed");
      }
      var upload := SingleResume(req.file);
      if upload.Rejected? {
        return MiddlewareErrorResponse(upload.error);
      }
      var f := req.fields;
      var isCollaboration := IsCollaboration(f);
      if !isCollaboration && upload.NoFile? {
        return ErrorResponse(400, ResumeRequiredMessage);
      }

      if isCollaboration {
        resp := Commit(f, rp);
      } else {
        resp := SubmitApplication(req, rp);
      }
    }

    /** The commitment branch of api/server.js: everything through the shared client,
        and no guard for an idea the fallback cannot read. */
    method CommitExpress(f: Fields, rp: Replies) returns (resp: Response)
      requires IsCollaboration(f)
      modifies this`collaborators, this`ideas, this`calls
      ensures var hours := ParseInt(f["committed_hours"]);
              var key := FilterText(Field(f, "idea_id"));
              var row := CollaboratorFrom(f, hours, rp.newId, rp.now);
              var rpc := [InsertCollaborator(SharedClient), CallIncrementRpc(SharedClient, key, hours)];
              if rp.insertError.Some? then
                resp == ErrorResponse(500, rp.insertError.value)
                && collaborators == old(collaborators) && ideas == old(ideas)
                && calls == old(calls) + [InsertCollaborator(SharedClient)]
              else if rp.rpc.Some? then
                resp == JsonResponse(200, map["message" := Str("Collaboration successful"), "id" := Num(rp.newId)])
                && collaborators == old(collaborators) + [row] && ideas == rp.rpc.value
                && calls == old(calls) + rpc
              else if rp.readFailed || key !in old(ideas) then
                // reading a null idea throws after the row is in
                resp == ErrorResponse(500, NullIdeaMessage)
                && collaborators == old(collaborators) + [row] && ideas == old(ideas)
                && calls == old(calls) + rpc + [ReadIdea(SharedClient, key)]
              else
                resp == JsonResponse(200, map["message" := Str("Collaboration successful"), "id" := Num(rp.newId)])
                && collaborators == old(collaborators) + [row]
                && ideas == IdeasAfterCommitment(old(ideas), key, hours, rp)
                && calls == old(calls) + rpc + [ReadIdea(SharedClient, key), UpdateIdea(SharedClient, key)]
    {
      var hours := ParseInt(f["committed_hours"]);
      calls := calls + [InsertCollaborator(SharedClient)];
      if rp.insertError.Some? {
        return ErrorResponse(500, rp.insertError.value);
      }
      collaborators := collaborators + [CollaboratorFrom(f, hours, rp.newId, rp.now)];
      var key := FilterText(Field(f, "idea_id"));
      var found := UpdateStatsExpress(key, hours, rp);
      if !found {
        return ErrorResponse(500, NullIdeaMessage);
      }
      return JsonResponse(200, map["message" := Str("Collaboration successful"), "id" := Num(rp.newId)]);
    }

    /** The stats step of api/server.js: the RPC through the shared client, then, if it
        errors, the fallback read and update; `found` is false where the route goes on
        to read a property of a null idea. */
    method UpdateStatsExpress(key: string, hours: Option<int>, rp: Replies) returns (found: bool)
      modifies this`ideas, this`calls
      ensures found <==> rp.rpc.Some? || (!rp.readFailed && key in old(ideas))
      ensures ideas == IdeasAfterCommitment(old(ideas), key, hours, rp)
      ensures calls == old(calls) + [CallIncrementRpc(SharedClient, key, hours)]
                       + (if rp.rpc.Some? then [] else [ReadIdea(SharedClient, key)])
                       + (if rp.rpc.None? && found then [UpdateIdea(SharedClient, key)] else [])
    {
      calls := calls + [CallIncrementRpc(SharedClient, key, hours)];
      if rp.rpc.Some? {
        ideas := rp.rpc.value;
        return true;
      }
      calls := calls + [ReadIdea(SharedClient, key)];
      if rp.readFailed || key !in ideas {
        return false;
      }
      calls := calls + [UpdateIdea(SharedClient, key)];
      if !rp.updateFailed {
        ideas := ideas[key := Bumped(ideas[key], hours)];
      }
      return true;
    }

    /** The job-application branch of api/server.js: no rate limit, the upload and
        the row through the shared client, and no address recorded. */
    method SubmitApplicationExpress(f: Fields, rp: Replies) returns (resp: Response)
      requires Valid()
      modifies this`applications, this`objects, this`calls
      ensures Valid()
      ensures var key := ObjectKey(rp.now, rp.random);
              if rp.uploadError.Some? || key in old(objects) then
                resp.status == 500 && applications == old(applications) && objects == old(objects)
                && calls == old(calls) + [UploadObject(SharedClient, key)]
              else if rp.insertError.Some? then
                resp == ErrorResponse(500, rp.insertError.value)
                && applications == old(applications) && objects == old(objects) + {key}
                && calls == old(calls) + [UploadObject(SharedClient, key), InsertApplication(SharedClient)]
              else
                resp == JsonResponse(200, map["message" := Str("Application successful"), "id" := Num(rp.newId)])
                && applications == old(applications) + [ApplicationFrom(f, key, None, rp.newId, rp.now)]
                && objects == old(objects) + {key}
                && calls == old(calls) + [UploadObject(SharedClient, key), InsertApplication(SharedClient)]
    {
      var key := ObjectKey(rp.now, rp.random);
      calls := calls + [UploadObject(SharedClient, key)];
      if rp.uploadError.Some? {
        return ErrorResponse(500, rp.uploadError.value);
      }
      if key in objects {
        return ErrorResponse(500, DuplicateObjectMessage);
      }
      objects := objects + {key};
      calls := calls + [InsertApplication(SharedClient)];
      if rp.insertError.Some? {
        return ErrorResponse(500, rp.insertError.value);
      }
      applications := applications + [ApplicationFrom(f, key, None, rp.newId, rp.now)];
      return JsonResponse(200, map["message" := Str("Application successful"), "id" := Num(rp.newId)]);
    }

    /** The `POST /api/apply` route of api/server.js (the route only matches POST). */
    method ApplyExpress(req: ApplyRequest, rp: Replies) returns (resp: Response)
      requires Valid()
      modifies this
      ensures Valid()
      // the upload middleware hands its errors to the global error handler
      ensures SingleResume(req.file).Rejected? ==>
                resp == ServerErrorResponse(SingleResume(req.file).error) && unchanged(this)
      ensures (SingleResume(req.file).NoFile? && !IsCollaboration(req.fields)) ==>
                resp == ErrorResponse(400, ResumeRequiredMessage) && unchanged(this)
      // a commitment: no guard for a missing idea in the fallback
      ensures (!SingleResume(req.file).Rejected? && IsCollaboration(req.fields)) ==>
                var f := req.fields;
                var hours := ParseInt(f["committed_hours"]);
                var key := FilterText(Field(f, "idea_id"));
                var row := CollaboratorFrom(f, hours, rp.newId, rp.now);
                applications == old(applications) && objects == old(objects) &&
                if rp.insertError.Some? then
                  resp == ErrorResponse(500, rp.insertError.value)
                  && collaborators == old(collaborators) && ideas == old(ideas)
                else if rp.rpc.None? && (rp.readFailed || key !in old(ideas)) then
                  // reading a null idea throws after the row is in
                  resp == ErrorResponse(500, NullIdeaMessage)
                  && collaborators == old(collaborators) + [row] && ideas == old(ideas)
                else
                  resp == JsonResponse(200, map["message" := Str("Collaboration successful"), "id" := Num(rp.newId)])
                  && collaborators == old(collaborators) + [row]
                  && ideas == IdeasAfterCommitment(old(ideas), key, hours, rp)
      // a job application: no rate limit, no address recorded
      ensures (SingleResume(req.file).Accepted? && !IsCollaboration(req.fields)) ==>
                var f := req.fields;
                var key := ObjectKey(rp.now, rp.random);
                collaborators == old(collaborators) && ideas == old(ideas) &&
                if rp.uploadError.Some? || key in old(objects) then
                  resp.status == 500 && applications == old(applications) && objects == old(objects)
                  && calls == old(calls) + [UploadObject(SharedClient, key)]
                else if rp.insertError.Some? then
                  resp == ErrorResponse(500, rp.insertError.value)
                  && applications == old(applications) && objects == old(objects) + {key}
                  && calls == old(calls) + [UploadObject(SharedClient, key), InsertApplication(SharedClient)]
                else
                  resp == JsonResponse(200, map["message" := Str("Application successful"), "id" := Num(rp.newId)])
                  && applications == old(applications) + [ApplicationFrom(f, key, None, rp.newId, rp.now)]
                  && objects == old(objects) + {key}
                  && calls == old(calls) + [UploadObject(SharedClient, key), InsertApplication(SharedClient)]
    {
      var upload := SingleResume(req.file);
      if upload.Rejected? {
        return ServerErrorResponse(upload.error);
      }
      var f := req.fields;
      var isCollaboration := IsCollaboration(f);
      if !isCollaboration && upload.NoFile? {
        return ErrorResponse(400, ResumeRequiredMessage);
      }

      if isCollaboration {
        resp := CommitExpress(f, rp);
      } else {
        resp := SubmitApplicationExpress(f, rp);
      }
    }
  }
}
