/** The application dialog shared by job postings and ideas: what decides which of
    the two it is, the checks before sending, the multipart payload it posts to
    `/api/apply`, and how it treats the reply. */
module ApplicationModal {
  import opened Optional
  import opened Text
  import opened Js
  import opened Upload
  import opened Submission

  /** `job && (job.total_hours !== undefined || window.location.pathname === '/match')`:
      on the match page every item is an idea; elsewhere an item is one exactly when it
      carries `total_hours`, even a zero or null one. */
  predicate IsIdea(job: Value, pathname: string): (r: bool)
    ensures !Truthy(job) ==> !r
    ensures Truthy(job) && pathname == "/match" ==> r
    ensures Truthy(job) && pathname != "/match" ==> (r <==> Prop(job, "total_hours") != Undefined)
  {
    Truthy(job) && (Prop(job, "total_hours") != Undefined || pathname == "/match")
  }

  const LinkedInPrefix := "https://www.linkedin.com/in/"

  /** The profile URL built from the handle: empty for an empty handle, otherwise the
      prefix followed by the handle without one leading '/'. */
  function LinkedInUrl(handle: string): (url: string)
    ensures handle == "" ==> url == ""
    ensures handle != "" && handle[0] == '/' ==> url == LinkedInPrefix + handle[1..]
    ensures handle != "" && handle[0] != '/' ==> url == LinkedInPrefix + handle
  {
    if handle == "" then ""
    else LinkedInPrefix + (if handle[0] == '/' then handle[1..] else handle)
  }

  /** Only one slash is removed: "//x" keeps one of them. */
  lemma LinkedInUrlStripsOneSlash(h: string)
    requires h != "" && h[0] != '/'
    ensures LinkedInUrl("/" + h) == LinkedInUrl(h)
    ensures LinkedInUrl("//" + h) == LinkedInPrefix + "/" + h
  {
    assert ("/" + h)[1..] == h;
    assert ("//" + h)[1..] == "/" + h;
  }

  /** A file the user picked: its declared type and its size. */
  datatype PickedFile = PickedFile(mimetype: string, size: nat)

  /** One part of the FormData body: `append(name, String(value))` or a file. */
  datatype Part = TextPart(name: string, text: string) | FilePart(name: string, file: PickedFile)

  /** The dialog's form fields. */
  datatype ApplicationForm = ApplicationForm(
    fullName: string, email: string, phone: string, linkedinHandle: string,
    resume: Option<PickedFile>, committedHours: string)

  const EmptyForm := ApplicationForm("", "", "", "", None, "")

  /** The parts that say what the request is for: the idea and the hours, or the
      posting, the profile URL and the resume when one is chosen. */
  function Head(job: Value, idea: bool, f: ApplicationForm): (p: seq<Part>)
    ensures idea ==> p == [TextPart("idea_id", JsString(Prop(job, "id"))), TextPart("committed_hours", f.committedHours)]
    ensures !idea ==> |p| == (if f.resume.Some? then 3 else 2)
    ensures !idea ==> p[..2] == [TextPart("posting_id", JsString(Prop(job, "id"))), TextPart("linkedin_url", LinkedInUrl(f.linkedinHandle))]
    ensures !idea && f.resume.Some? ==> p[2] == FilePart("resume", f.resume.value)
  {
    if idea then [TextPart("idea_id", JsString(Prop(job, "id"))), TextPart("committed_hours", f.committedHours)]
    else [TextPart("posting_id", JsString(Prop(job, "id"))), TextPart("linkedin_url", LinkedInUrl(f.linkedinHandle))]
         + (if f.resume.Some? then [FilePart("resume", f.resume.value)] else [])
  }

  /** The contact parts, always appended. */
  function Contact(f: ApplicationForm): seq<Part> {
    [TextPart("full_name", f.fullName), TextPart("email", f.email), TextPart("phone", f.phone)]
  }

  /** The FormData `handleSubmit` builds, part by part. */
  function Payload(job: Value, idea: bool, f: ApplicationForm): (p: seq<Part>)
    ensures |p| >= 5
    ensures p[|p| - 3..] == Contact(f)
    ensures forall i :: 0 <= i < |p| && p[i].FilePart? ==> !idea && f.resume.Some? && p[i] == FilePart("resume", f.resume.value)
  {
    var p := Head(job, idea, f) + Contact(f);
    assert p[|p| - 3..] == Contact(f);
    p
  }

  /** The text fields the server's multipart parser hands the handler (the payloads
      built here never repeat a name). */
  function TextFields(p: seq<Part>): (f: Fields)
    ensures forall k :: k in f ==> exists i :: 0 <= i < |p| && p[i] == TextPart(k, f[k])
    decreases |p|
  {
    if p == [] then map[]
    else
      var rest := TextFields(p[1..]);
      match p[0]
      case TextPart(n, t) => rest[n := t]
      case FilePart(_, _) => rest
  }

  /** A name that occurs in one text part only is read back with that part's text. */
  lemma {:induction false} TextFieldOfUnique(p: seq<Part>, i: int)
    requires 0 <= i < |p| && p[i].TextPart?
    requires forall j :: 0 <= j < |p| && j != i ==> !(p[j].TextPart? && p[j].name == p[i].name)
    ensures p[i].name in TextFields(p) && TextFields(p)[p[i].name] == p[i].text
    decreases |p|
  {
    if i > 0 {
      TextFieldOfUnique(p[1..], i - 1);
    }
  }

  /** The file part the upload middleware receives: the first one. */
  function FileOf(p: seq<Part>): (r: Option<IncomingFile>)
    ensures (forall i :: 0 <= i < |p| ==> p[i].TextPart?) <==> r.None?
    decreases |p|
  {
    if p == [] then None
    else match p[0]
      case FilePart(n, file) => Some(IncomingFile(n, file.mimetype, file.size))
      case TextPart(_, _) =>
        assert forall i :: 1 <= i < |p| ==> p[i] == p[1..][i - 1];
        FileOf(p[1..])
  }

  /** An idea payload that passes the dialog's check is a collaboration for the server,
      and carries no file. */
  lemma IdeaPayloadIsCollaboration(job: Value, f: ApplicationForm)
    requires f.committedHours != ""
    ensures IsCollaboration(TextFields(Payload(job, true, f)))
    ensures TextFields(Payload(job, true, f))["committed_hours"] == f.committedHours
    ensures FileOf(Payload(job, true, f)).None?
  {
    var p := Payload(job, true, f);
    assert p == [TextPart("idea_id", JsString(Prop(job, "id"))), TextPart("committed_hours", f.committedHours)] + Contact(f);
    TextFieldOfUnique(p, 1);
  }

  /** A job payload never carries `committed_hours`, and its file (when chosen) goes
      under the one field the upload middleware accepts. */
  lemma JobPayloadIsApplication(job: Value, f: ApplicationForm)
    ensures !IsCollaboration(TextFields(Payload(job, false, f)))
    ensures f.resume.Some? ==> FileOf(Payload(job, false, f)) == Some(IncomingFile("resume", f.resume.value.mimetype, f.resume.value.size))
  {
    var p := Payload(job, false, f);
    var head := Head(job, false, f);
    assert p == head + Contact(f);
    forall i | 0 <= i < |p|
      ensures p[i].name != "committed_hours"
    {
      if i < 2 {
        assert p[i] == head[..2][i];
      } else if i >= |p| - 3 {
        assert p[i] == p[|p| - 3..][i - (|p| - 3)];
      }
    }
    if f.resume.Some? {
      assert p[0] == head[0] && p[1] == head[1] && p[2] == head[2];
      assert p[1..][1..] == p[2..];
      assert p[1..][0] == p[1] && p[2..][0] == p[2];
      assert FileOf(p) == FileOf(p[1..]) == FileOf(p[2..]);
    }
  }

  /** How the request ended: an ok reply, a non-ok reply with its JSON body, or an
      exception (from `fetch` or from parsing the error body) with its message. */
  datatype ApplyReply = Succeeded | Failed(body: Value) | Threw(message: string)

  const HoursMissing := "Please specify how many hours you can commit."
  const ResumeMissing := "Resume is required"
  const NotPdfMessage := "Please upload a PDF file."

  /** The error shown for a non-ok reply: `new Error(errData.error || 'Submission failed')`,
      or, when the body is null, the `TypeError` that reading `errData.error` throws. */
  function FailureMessage(body: Value): (m: string)
    ensures NoProperties(body) ==> m == ReadError(body, "error")
    ensures !NoProperties(body) && !Truthy(Prop(body, "error")) ==> m == "Submission failed"
    ensures Prop(body, "error").Str? && Prop(body, "error").s != "" ==> m == Prop(body, "error").s
  {
    if NoProperties(body) then ReadError(body, "error")
    else JsString(Or(Prop(body, "error"), Str("Submission failed")))
  }

  /** Every error answer of the serverless apply handler is shown with its own message. */
  lemma ServerErrorShown(status: int, message: string)
    requires message != ""
    ensures FailureMessage(Http.ErrorResponse(status, message).body.value) == message
  {
  }

  class Dialog {
    var form: ApplicationForm
    var error: string
    var isSubmitting: bool
    var success: bool
    var step: int
    var open: bool   // whether the page still shows the dialog

    constructor ()
      ensures form == EmptyForm && error == "" && !isSubmitting && !success && step == 1 && open
    {
      form, error, isSubmitting, success, step, open := EmptyForm, "", false, false, 1, true;
    }

    /** `handleFileChange`: only a PDF replaces the chosen resume. */
    method FileChange(file: Option<PickedFile>)
      modifies this`form, this`error
      ensures file.Some? && file.value.mimetype == PdfType ==>
                form == old(form).(resume := file) && error == ""
      ensures !(file.Some? && file.value.mimetype == PdfType) ==>
                form == old(form) && error == NotPdfMessage
    {
      if file.Some? && file.value.mimetype == PdfType {
        form := form.(resume := file);
        error := "";
      } else {
        error := NotPdfMessage;
      }
    }

    /** `handleSubmit`. `sent` is the body posted, None when the checks stop it first. */
    method Submit(job: Value, pathname: string, reply: ApplyReply) returns (sent: Option<seq<Part>>)
      modifies this`error, this`isSubmitting, this`success
      ensures !isSubmitting
      ensures IsIdea(job, pathname) && form.committedHours == "" ==>
                sent.None? && error == HoursMissing && success == old(success)
      ensures !IsIdea(job, pathname) && form.resume.None? ==>
                sent.None? && error == ResumeMissing && success == old(success)
      ensures sent.Some? <==> (if IsIdea(job, pathname) then form.committedHours != "" else form.resume.Some?)
      ensures sent.Some? ==> sent.value == Payload(job, IsIdea(job, pathname), form)
      ensures sent.Some? ==>
                (match reply
                 case Succeeded => success && error == ""
                 case Failed(body) => success == old(success) && error == FailureMessage(body)
                 case Threw(m) => success == old(success) && error == m)
    {
      isSubmitting := true;
      error := "";
      var idea := IsIdea(job, pathname);
      if idea && form.committedHours == "" {
        error := HoursMissing;
        isSubmitting := false;
        return None;
      }
      if !idea && form.resume.None? {
        error := ResumeMissing;
        isSubmitting := false;
        return None;
      }
      sent := Some(Payload(job, idea, form));
      match reply {
        case Succeeded => success := true;
        case Failed(body) => error := FailureMessage(body);
        case Threw(m) => error := m;
      }
      isSubmitting := false;
    }

    /** `handleClose`: the page closes the dialog, and the dialog's own state is reset
        (after a 300 ms timer). */
    method Close()
      modifies this
      ensures !open && !success && step == 1 && form == EmptyForm && error == ""
      ensures isSubmitting == old(isSubmitting)
    {
      open := false;
      success := false;
      step := 1;
      form := EmptyForm;
      error := "";
    }
  }
}
