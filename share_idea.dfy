/** The "share an idea" dialog of the match page: it posts the form to the ideas
    endpoint, builds a local copy of the new idea and tells the page. */
module ShareIdea {
  import opened Optional
  import opened Text
  import opened Js
  import opened Http

  const InvalidResponse := "Server returned an invalid response. Please check if the backend is running."

  /** How the request ended, as `handleSubmit` sees it. */
  datatype IdeaReply =
    | NotOk(text: string)          // !response.ok, with whatever body the server sent
    | Ok(data: Value)              // response.ok and its JSON body
    | BadJson(message: string)     // response.ok but `response.json()` threw
    | Threw(message: string)       // `fetch` itself threw

  /** `parseInt(x) || 0`: NaN and 0 both give 0. */
  function HoursOrZero(x: string): (h: int)
    ensures ParseInt(x).Some? ==> h == ParseInt(x).value
    ensures ParseInt(x).None? ==> h == 0
  {
    ParseInt(x).GetOr(0)
  }

  /** The dialog's form fields. */
  datatype IdeaForm = IdeaForm(title: string, department: string, description: string, totalHours: string)

  const EmptyForm := IdeaForm("", "", "", "")

  /** `JSON.stringify(formData)`, as the endpoint receives it. */
  function IdeaBody(f: IdeaForm): Row {
    map["title" := Str(f.title), "department" := Str(f.department),
        "description" := Str(f.description), "total_hours" := Str(f.totalHours)]
  }

  /** The `newIdea` object built from the reply's `id` and the form. */
  function NewIdea(data: Value, f: IdeaForm): (v: Value)
    ensures v.Obj? && v.fields.Keys == {"id", "title", "description", "department", "total_hours", "participants_count"}
    ensures Prop(v, "id") == Prop(data, "id")
    ensures Prop(v, "participants_count") == Num(0)
    ensures Prop(v, "total_hours") == Num(HoursOrZero(f.totalHours))
    ensures Prop(v, "title") == Str(f.title) && Prop(v, "department") == Str(f.department)
            && Prop(v, "description") == Str(f.description)
  {
    Obj(map["id" := Prop(data, "id"), "title" := Str(f.title), "description" := Str(f.description),
            "department" := Str(f.department), "total_hours" := Num(HoursOrZero(f.totalHours)),
            "participants_count" := Num(0)])
  }

  /** A numeral typed into the hours field is the new idea's hour count. */
  lemma NewIdeaHours(data: Value, f: IdeaForm, n: int)
    requires f.totalHours == IntToString(n)
    ensures Prop(NewIdea(data, f), "total_hours") == Num(n)
  {
    ParseIntOfIntToString(n);
  }

  class ShareIdeaModal {
    var form: IdeaForm
    var isSubmitting: bool
    var success: bool
    var newIdea: Value   // null until a submission succeeds
    var error: string
    var open: bool       // the page's `showShareModal`

    constructor ()
      ensures form == EmptyForm && !isSubmitting && !success && newIdea == Null && error == "" && open
    {
      form, isSubmitting, success, newIdea, error, open := EmptyForm, false, false, Null, "", true;
    }

    /** `handleSubmit`. `sent` is the body posted; `notified` says whether `onSuccess`
        was called; this call passes no argument (the "Collaborate Now" button
        passes the new idea, see `CollaborateNow`). */
    method Submit(reply: IdeaReply) returns (sent: Row, notified: bool)
      modifies this`form, this`isSubmitting, this`success, this`newIdea, this`error
      ensures sent == IdeaBody(old(form))
      ensures !isSubmitting
      ensures notified <==> reply.Ok? && !NoProperties(reply.data)
      ensures notified ==> success && error == "" && form == EmptyForm && newIdea == NewIdea(reply.data, old(form))
      ensures !notified ==> success == old(success) && newIdea == old(newIdea) && form == old(form)
      // whatever the server says on a failure, the same message is shown
      ensures reply.NotOk? ==> error == InvalidResponse
      ensures reply.BadJson? || reply.Threw? ==> error == reply.message
      ensures reply.Ok? && NoProperties(reply.data) ==> error == ReadError(reply.data, "id")
    {
      isSubmitting := true;
      error := "";
      sent := IdeaBody(form);
      notified := false;
      match reply {
        case Threw(m) => error := m;
        case NotOk(_) =>
          // the inner `throw` of the error body is caught by its own `catch`
          error := InvalidResponse;
        case BadJson(m) => error := m;
        case Ok(data) =>
          if NoProperties(data) {
            error := ReadError(data, "id");
          } else {
            newIdea := NewIdea(data, form);
            success := true;
            notified := true;
            form := EmptyForm;
          }
      }
      isSubmitting := false;
    }

    /** The "Collaborate Now" button of the success view: `onSuccess(newIdea)` with the
        idea built from the reply, then `handleSuccessClose`. `arg` is the value handed
        to `onSuccess`. The button is only rendered while `success` holds. */
    method CollaborateNow() returns (arg: Value)
      requires success
      modifies this`success, this`newIdea, this`open
      ensures arg == old(newIdea)
      ensures !success && newIdea == Null && !open
    {
      arg := newIdea;
      SuccessClose();
    }

    /** `handleSuccessClose` */
    method SuccessClose()
      modifies this`success, this`newIdea, this`open
      ensures !success && newIdea == Null && !open
    {
      success := false;
      newIdea := Null;
      open := false;
    }
  }
}
