/** The administrator dashboard: the lists it loads, the delete buttons behind a
    confirmation, the secure resume link, and the two creation forms. Every request
    it makes carries `Bearer <token>` with the token read from sessionStorage when
    the page was opened. */
module AdminDashboard {
  import opened Optional
  import opened Text
  import opened Js
  import opened Uri
  import opened Submission

  // ---------------------------------------------------------------------------
  // highlights

  /** `highlights.split(',').map(s => s.trim())` */
  function ParseHighlights(s: string): (r: seq<string>)
    ensures |r| == |Split(s, ',')| == Occurrences(s, ',') + 1
    ensures forall i :: 0 <= i < |r| ==> r[i] == Trim(Split(s, ',')[i])
    ensures s == "" ==> r == [""]
  {
    SplitCount(s, ',');
    var parts := Split(s, ',');
    seq(|parts|, i requires 0 <= i < |parts| => Trim(parts[i]))
  }

  /** No highlight holds a comma. */
  lemma HighlightsHaveNoComma(s: string)
    ensures forall i :: 0 <= i < |ParseHighlights(s)| ==> ',' !in ParseHighlights(s)[i]
  {
    SplitPiecesAvoidSeparator(s, ',');
    var parts := Split(s, ',');
    forall i | 0 <= i < |parts|
      ensures ',' !in Trim(parts[i])
    {
      var a, b := TrimSlice(parts[i]);
      assert Trim(parts[i]) == parts[i][a..b];
    }
  }

  /** Highlights typed without commas inside them and without surrounding blanks come
      back exactly from their comma-joined text. */
  lemma HighlightsRoundTrip(items: seq<string>)
    requires |items| >= 1
    requires forall i :: 0 <= i < |items| ==> ',' !in items[i] && Trim(items[i]) == items[i]
    ensures ParseHighlights(Join(items, ',')) == items
  {
    SplitJoin(items, ',');
  }

  /** Parsing the comma-joined result again changes nothing. */
  lemma HighlightsStable(s: string)
    ensures ParseHighlights(Join(ParseHighlights(s), ',')) == ParseHighlights(s)
  {
    var r := ParseHighlights(s);
    HighlightsHaveNoComma(s);
    forall i | 0 <= i < |r|
      ensures Trim(r[i]) == r[i]
    {
      TrimIdempotent(Split(s, ',')[i]);
    }
    HighlightsRoundTrip(r);
  }

  /** The body `handleCreateRecruiter` posts: the form's entries with `highlights`
      replaced by its parsed list; None when the form has no highlights field, where
      `split` throws before any request. */
  function RecruiterBody(entries: map<string, string>): (body: Option<Row>)
    ensures body.Some? <==> "highlights" in entries
    ensures body.Some? ==> body.value.Keys == entries.Keys
    ensures body.Some? ==> body.value["highlights"] == Strings(ParseHighlights(entries["highlights"]))
    ensures body.Some? ==> forall k :: k in entries && k != "highlights" ==> body.value[k] == Str(entries[k])
  {
    if "highlights" !in entries then None
    else
      var plain := map k | k in entries :: Str(entries[k]);
      Some(plain["highlights" := Strings(ParseHighlights(entries["highlights"]))])
  }

  // ---------------------------------------------------------------------------
  // resume keys in URLs

  /** The keys the apply handlers generate need no escaping: the request path names
      the stored object verbatim. */
  lemma ObjectKeyNeedsNoEscaping(now: nat, random: nat)
    ensures Encode(ObjectKey(now, random)) == ObjectKey(now, random)
  {
    var a, b := NatToString(now), NatToString(random);
    var key := ObjectKey(now, random);
    assert key == "resume-" + a + "-" + b + ".pdf";
    forall i | 0 <= i < |key|
      ensures Unreserved(key[i])
    {
      if i < 7 {
        assert key[i] == "resume-"[i];
      } else if i < 7 + |a| {
        assert key[i] == a[i - 7];
      } else if i == 7 + |a| {
        assert key[i] == '-';
      } else if i < 8 + |a| + |b| {
        assert key[i] == b[i - 8 - |a|];
      } else {
        assert key[i] == ".pdf"[i - 8 - |a| - |b|];
      }
    }
  }

  /** Whatever the key, the server's decoding of the path parameter gives it back. */
  lemma ResumePathReachesServer(path: string)
    ensures Decode(Encode(path)) == Some(path)
  {
    DecodeEncode(path);
  }

  // ---------------------------------------------------------------------------
  // the page

  /** The lists the dashboard keeps, each loaded from one endpoint. */
  datatype ListKind = Jobs | Applications | Collaborators | Ideas | Prospects | Recruiters | Leads

  /** The endpoint a list is loaded from, and the field of the reply holding it. */
  function ListName(k: ListKind): string {
    match k
    case Jobs => "jobs"
    case Applications => "applications"
    case Collaborators => "collaborators"
    case Ideas => "ideas"
    case Prospects => "prospects"
    case Recruiters => "recruiters"
    case Leads => "leads"
  }

  /** Whether the page sends its token with the list request. */
  predicate SendsToken(k: ListKind) {
    k in {Applications, Collaborators, Prospects, Leads}
  }

  /** `data.<name> || []` */
  function ListOf(data: Value, name: string): (v: Value)
    ensures Truthy(Prop(data, name)) ==> v == Prop(data, name)
    ensures !Truthy(Prop(data, name)) ==> v == Arr([])
  {
    Or(Prop(data, name), Arr([]))
  }

  /** A request the page sends: its verb, its path and its Authorization header. */
  datatype Sent = Sent(verb: string, path: string, authorization: Option<string>)

  /** How a request the page awaits ends: the parsed JSON body, or an exception. */
  datatype Reply = Answered(data: Value) | Threw

  /** The things the page can delete, each behind its own confirmation. */
  datatype Deletable = Job | Idea | Prospect | Recruiter

  function DeletePath(d: Deletable, id: string): string {
    match d
    case Job => "/api/jobs/" + id
    case Idea => "/api/ideas/" + id
    case Prospect => "/api/prospects/" + id
    case Recruiter => "/api/recruiters/" + id
  }

  /** The list a delete reloads. */
  function Reloaded(d: Deletable): ListKind {
    match d
    case Job => Jobs
    case Idea => Ideas
    case Prospect => Prospects
    case Recruiter => Recruiters
  }

  datatype JobForm = JobForm(title: string, company: string, location: string, salary: string, description: string)

  const EmptyJob := JobForm("", "", "", "", "")
  const ResumeLinkPath := "/api/admin/resume-link/"
  const ResumeFetchFailed := "Error fetching resume link"

  /** The alert shown when the resume-link reply holds no URL. */
  function NoLinkMessage(data: Value): string {
    "Could not generate secure link: " + JsString(Or(Prop(data, "error"), Str("Unknown error")))
  }

  /** The list after a load: replaced by `data.<name> || []`, or kept when the
      request or the property read throws (a null body). */
  function AfterLoad(old_list: Value, k: ListKind, reply: Reply): (v: Value)
    ensures reply.Threw? ==> v == old_list
    ensures reply.Answered? && NoProperties(reply.data) ==> v == old_list
    ensures reply.Answered? && !NoProperties(reply.data) ==> v == ListOf(reply.data, ListName(k))
  {
    if reply.Answered? && !NoProperties(reply.data) then ListOf(reply.data, ListName(k))
    else old_list
  }

  class Dashboard {
    const token: Option<string>   // sessionStorage 'adminToken' when the page was opened
    var lists: map<ListKind, Value>
    var newJob: JobForm
    var showCreateModal: bool
    var showRecruiterModal: bool
    var sent: seq<Sent>           // the requests made, oldest first
    var alerts: seq<string>
    var tabs: seq<string>       // the URLs opened in a new tab

    constructor (stored: Option<string>)
      ensures token == stored && lists == map[] && newJob == EmptyJob
      ensures !showCreateModal && !showRecruiterModal && sent == [] && alerts == [] && tabs == []
    {
      token := stored;
      lists, newJob, showCreateModal, showRecruiterModal := map[], EmptyJob, false, false;
      sent, alerts, tabs := [], [], [];
    }

    /** `Bearer ${token}`: an absent token is sent as the text "null". */
    function Bearer(): (h: string)
      reads this
      ensures token.Some? ==> h == "Bearer " + token.value
      ensures token.None? ==> h == "Bearer null"
    {
      "Bearer " + (if token.Some? then token.value else "null")
    }

    /** The request loading list `k`: only some lists are asked for with the token. */
    function ListRequest(k: ListKind): (r: Sent)
      reads this
      ensures r.verb == "GET" && r.path == "/api/" + ListName(k)
      ensures SendsToken(k) ==> r.authorization == Some(Bearer())
      ensures !SendsToken(k) ==> r.authorization.None?
    {
      Sent("GET", "/api/" + ListName(k), if SendsToken(k) then Some(Bearer()) else None)
    }

    /** The list `k` as the page shows it: `[]` before its first load. */
    function Shown(k: ListKind): Value
      reads this
    {
      if k in lists then lists[k] else Arr([])
    }

    /** One of the `fetchX` loaders. */
    method Load(k: ListKind, reply: Reply)
      modifies this`lists, this`sent
      ensures sent == old(sent) + [ListRequest(k)]
      ensures lists == old(lists)[k := AfterLoad(old(Shown(k)), k, reply)]
    {
      sent := sent + [ListRequest(k)];
      lists := lists[k := AfterLoad(Shown(k), k, reply)];
    }

    /** The effect of choosing a tab: the postings are always reloaded, then the
        tab's own list (the postings tab has no other). */
    method ShowTab(k: ListKind, jobsReply: Reply, tabReply: Reply)
      modifies this`lists, this`sent
      ensures k == Jobs ==>
                sent == old(sent) + [ListRequest(Jobs)]
                && lists == old(lists)[Jobs := AfterLoad(old(Shown(Jobs)), Jobs, jobsReply)]
      ensures k != Jobs ==>
                sent == old(sent) + [ListRequest(Jobs), ListRequest(k)]
                && lists == old(lists)[Jobs := AfterLoad(old(Shown(Jobs)), Jobs, jobsReply)]
                                      [k := AfterLoad(old(Shown(k)), k, tabReply)]
      ensures sent[|old(sent)|] == Sent("GET", "/api/jobs", None)
      ensures forall j :: j in old(lists) && j != Jobs && j != k ==> j in lists && lists[j] == old(lists)[j]
    {
      Load(Jobs, jobsReply);
      if k != Jobs {
        Load(k, tabReply);
      }
    }

    /** `handleDeleteJob` and its siblings: nothing is sent unless the user confirms;
        the list is reloaded once the delete request has settled with any status
        (`settled`), and not when `fetch` rejects. */
    method Delete(d: Deletable, id: string, confirmed: bool, settled: bool, reload: Reply)
      modifies this`lists, this`sent
      ensures !confirmed ==> sent == old(sent) && lists == old(lists)
      ensures confirmed && !settled ==>
                sent == old(sent) + [Sent("DELETE", DeletePath(d, id), Some(Bearer()))] && lists == old(lists)
      ensures confirmed && settled ==>
                sent == old(sent) + [Sent("DELETE", DeletePath(d, id), Some(Bearer())), ListRequest(Reloaded(d))]
                && lists == old(lists)[Reloaded(d) := AfterLoad(old(Shown(Reloaded(d))), Reloaded(d), reload)]
    {
      if !confirmed {
        return;
      }
      sent := sent + [Sent("DELETE", DeletePath(d, id), Some(Bearer()))];
      if settled {
        Load(Reloaded(d), reload);
      }
    }

    /** `handleViewResume`: asks for a link to `path`, opens it when the reply has one,
        and alerts otherwise. */
    method ViewResume(path: string, reply: Reply)
      modifies this`sent, this`alerts, this`tabs
      ensures sent == old(sent) + [Sent("GET", ResumeLinkPath + Encode(path), Some(Bearer()))]
      ensures reply.Answered? && !NoProperties(reply.data) && Truthy(Prop(reply.data, "url")) ==>
                tabs == old(tabs) + [JsString(Prop(reply.data, "url"))] && alerts == old(alerts)
      ensures reply.Answered? && !NoProperties(reply.data) && !Truthy(Prop(reply.data, "url")) ==>
                tabs == old(tabs) && alerts == old(alerts) + [NoLinkMessage(reply.data)]
      ensures (reply.Threw? || NoProperties(reply.data)) ==>
                tabs == old(tabs) && alerts == old(alerts) + [ResumeFetchFailed]
    {
      sent := sent + [Sent("GET", ResumeLinkPath + Encode(path), Some(Bearer()))];
      if reply.Threw? || NoProperties(reply.data) {
        alerts := alerts + [ResumeFetchFailed];
      } else if Truthy(Prop(reply.data, "url")) {
        tabs := tabs + [JsString(Prop(reply.data, "url"))];
      } else {
        alerts := alerts + [NoLinkMessage(reply.data)];
      }
    }

    /** `handleCreateJob`: once the POST has settled (whatever its status) the dialog
        closes, the form is emptied and the postings are reloaded. */
    method CreateJob(posted: bool, reload: Reply) returns (body: JobForm)
      modifies this`lists, this`sent, this`showCreateModal, this`newJob
      ensures body == old(newJob)
      ensures posted ==>
                !showCreateModal && newJob == EmptyJob
                && sent == old(sent) + [Sent("POST", "/api/jobs", Some(Bearer())), ListRequest(Jobs)]
                && lists == old(lists)[Jobs := AfterLoad(old(Shown(Jobs)), Jobs, reload)]
      ensures !posted ==>
                showCreateModal == old(showCreateModal) && newJob == old(newJob)
                && sent == old(sent) + [Sent("POST", "/api/jobs", Some(Bearer()))] && lists == old(lists)
    {
      body := newJob;
      sent := sent + [Sent("POST", "/api/jobs", Some(Bearer()))];
      if posted {
        showCreateModal := false;
        newJob := EmptyJob;
        Load(Jobs, reload);
      }
    }

    /** `handleCreateRecruiter`: posts the form with its parsed highlights. */
    method CreateRecruiter(entries: map<string, string>, posted: bool, reload: Reply) returns (body: Option<Row>)
      modifies this`lists, this`sent, this`showRecruiterModal
      ensures body == RecruiterBody(entries)
      ensures body.None? ==> sent == old(sent) && showRecruiterModal == old(showRecruiterModal) && lists == old(lists)
      ensures body.Some? && posted ==>
                !showRecruiterModal
                && sent == old(sent) + [Sent("POST", "/api/recruiters", Some(Bearer())), ListRequest(Recruiters)]
                && lists == old(lists)[Recruiters := AfterLoad(old(Shown(Recruiters)), Recruiters, reload)]
      ensures body.Some? && !posted ==>
                showRecruiterModal == old(showRecruiterModal)
                && sent == old(sent) + [Sent("POST", "/api/recruiters", Some(Bearer()))] && lists == old(lists)
    {
      body := RecruiterBody(entries);
      if body.None? {
        return;
      }
      sent := sent + [Sent("POST", "/api/recruiters", Some(Bearer()))];
      if posted {
        showRecruiterModal := false;
        Load(Recruiters, reload);
      }
    }
  }
}
