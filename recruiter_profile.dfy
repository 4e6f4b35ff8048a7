/** The lead form of a recruiter's public profile page: choosing preferred call
    windows and sending the lead to the leads endpoint. */
module RecruiterProfile {
  import opened Js
  import opened Http
  import opened AdminAuth
  import opened Endpoints

  /** `ws.filter(x => x !== w)` */
  function Without(ws: seq<string>, w: string): (r: seq<string>)
    ensures w !in r
    ensures forall x :: x in r ==> x in ws
    ensures forall x :: x != w ==> multiset(r)[x] == multiset(ws)[x]
    decreases |ws|
  {
    if ws == [] then []
    else
      assert ws == [ws[0]] + ws[1..];
      (if ws[0] == w then [] else [ws[0]]) + Without(ws[1..], w)
  }

  /** `handleWindowToggle` on the list: a chosen window is removed (every copy of it),
      any other is appended at the end. */
  function Toggle(ws: seq<string>, w: string): (r: seq<string>)
    ensures w in ws ==> w !in r
    ensures w !in ws ==> r == ws + [w]
  {
    if w in ws then Without(ws, w) else ws + [w]
  }

  /** `filter` keeps the order of what it keeps: filtering a concatenation filters
      each part in place. */
  lemma {:induction false} WithoutAppend(a: seq<string>, b: seq<string>, w: string)
    ensures Without(a + b, w) == Without(a, w) + Without(b, w)
    decreases |a|
  {
    if a == [] {
      assert a + b == b;
    } else {
      assert (a + b)[0] == a[0] && (a + b)[1..] == a[1..] + b;
      WithoutAppend(a[1..], b, w);
      var head := if a[0] == w then [] else [a[0]];
      assert Without(a + b, w) == head + Without(a[1..] + b, w);
      assert Without(a, w) == head + Without(a[1..], w);
    }
  }

  lemma {:induction false} WithoutAbsent(ws: seq<string>, w: string)
    requires w !in ws
    ensures Without(ws, w) == ws
    decreases |ws|
  {
    if ws != [] {
      WithoutAbsent(ws[1..], w);
      assert ws == [ws[0]] + ws[1..];
    }
  }

  lemma {:induction false} WithoutAppended(ws: seq<string>, w: string)
    requires w !in ws
    ensures Without(ws + [w], w) == ws
    decreases |ws|
  {
    if ws == [] {
      assert [w][1..] == [];
    } else {
      assert (ws + [w])[1..] == ws[1..] + [w];
      WithoutAppended(ws[1..], w);
      assert ws == [ws[0]] + ws[1..];
    }
  }

  /** Choosing a window and taking it back restores the list. */
  lemma ToggleTwiceRestores(ws: seq<string>, w: string)
    requires w !in ws
    ensures Toggle(Toggle(ws, w), w) == ws
  {
    WithoutAppended(ws, w);
  }

  /** Toggling one window never touches the others: each keeps its number of copies. */
  lemma ToggleKeepsOthers(ws: seq<string>, w: string, x: string)
    requires x != w
    ensures multiset(Toggle(ws, w))[x] == multiset(ws)[x]
  {
  }

  /** The lead form's state. */
  datatype LeadForm = LeadForm(candidateName: string, candidateEmail: string, candidatePhone: string,
                               preferredWindows: seq<string>)

  /** `handleWindowToggle`: only the windows change. */
  function ToggleWindow(form: LeadForm, w: string): (r: LeadForm)
    ensures r.candidateName == form.candidateName && r.candidateEmail == form.candidateEmail
            && r.candidatePhone == form.candidatePhone
    ensures r.preferredWindows == Toggle(form.preferredWindows, w)
  {
    form.(preferredWindows := Toggle(form.preferredWindows, w))
  }

  /** The JSON body of `handleSubmit`: `{ recruiter_id: recruiter.id, ...formData }`. */
  function LeadBody(recruiterId: Value, form: LeadForm): (body: Row)
    ensures body.Keys == LeadFields
    ensures body["recruiter_id"] == recruiterId
    ensures body["preferred_windows"] == Strings(form.preferredWindows)
  {
    map["recruiter_id" := recruiterId,
        "candidate_name" := Str(form.candidateName),
        "candidate_email" := Str(form.candidateEmail),
        "candidate_phone" := Str(form.candidatePhone),
        "preferred_windows" := Strings(form.preferredWindows)]
  }

  /** The page's body carries exactly the fields the leads endpoint keeps, so the lead
      row written is the body as sent. */
  lemma LeadBodyStoredAsSent(recruiterId: Value, form: LeadForm, h: Headers, rows: seq<Row>)
    ensures Written(Leads(Request("POST", h, LeadBody(recruiterId, form)), Rows(rows)).op, Rows(rows))
            == [LeadBody(recruiterId, form)]
  {
    var body := LeadBody(recruiterId, form);
    assert Pick(body, LeadFields) == body;
  }

  /** How the lead request ended. */
  datatype LeadReply = Accepted | Refused | Failed(message: string)   // res.ok, !res.ok, an exception

  const SubmitFailed := "Failed to submit inquiry"

  class ProfilePage {
    var form: LeadForm
    var submitted: bool
    var alerts: seq<string>   // the messages shown with `alert`

    constructor ()
      ensures form == LeadForm("", "", "", []) && !submitted && alerts == []
    {
      form, submitted, alerts := LeadForm("", "", "", []), false, [];
    }

    method WindowToggle(w: string)
      modifies this`form
      ensures form == ToggleWindow(old(form), w)
    {
      form := ToggleWindow(form, w);
    }

    /** `handleSubmit`: sends the body and marks the page submitted only on an ok reply;
        anything else is one alert. */
    method Submit(recruiterId: Value, reply: LeadReply) returns (sent: Row)
      modifies this`submitted, this`alerts
      ensures sent == LeadBody(recruiterId, form)
      ensures submitted == (old(submitted) || reply.Accepted?)
      ensures reply.Accepted? ==> alerts == old(alerts)
      ensures reply.Refused? ==> alerts == old(alerts) + [SubmitFailed]
      ensures reply.Failed? ==> alerts == old(alerts) + [reply.message]
    {
      sent := LeadBody(recruiterId, form);
      match reply {
        case Accepted => submitted := true;
        case Refused => alerts := alerts + [SubmitFailed];
        case Failed(m) => alerts := alerts + [m];
      }
    }
  }
}
