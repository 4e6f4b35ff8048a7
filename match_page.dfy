/** The match page: the list of ideas, most committed hours first, and what happens
    when the share dialog reports a new idea. */
module MatchPage {
  import opened Optional
  import opened Js
  import opened ShareIdea
  import ApplicationModal

  /** `(idea.total_hours || 0)`, the sort key: any falsy value counts as 0. */
  function Hours(idea: Value): (h: int)
    ensures Or(Prop(idea, "total_hours"), Num(0)).Num? ==> h == Or(Prop(idea, "total_hours"), Num(0)).n
    ensures !Truthy(Prop(idea, "total_hours")) ==> h == 0
  {
    match Prop(idea, "total_hours")
    case Num(n) => n
    case _ => 0
  }

  predicate NonIncreasing(s: seq<Value>) {
    forall i, j :: 0 <= i < j < |s| ==> Hours(s[i]) >= Hours(s[j])
  }

  /** Places `x` after every element whose key is at least its own: the comparator
      `(b, a) => key(b) - key(a)` on a stable sort. */
  function Insert(s: seq<Value>, x: Value): (r: seq<Value>)
    ensures multiset(r) == multiset(s) + multiset{x}
    decreases |s|
  {
    if s == [] then [x]
    else if Hours(s[|s| - 1]) >= Hours(x) then s + [x]
    else
      assert s == s[..|s| - 1] + [s[|s| - 1]];
      Insert(s[..|s| - 1], x) + [s[|s| - 1]]
  }

  /** A lower bound on every key survives an insertion that respects it. */
  lemma {:induction false} InsertBounded(s: seq<Value>, x: Value, m: int)
    requires forall i :: 0 <= i < |s| ==> Hours(s[i]) >= m
    requires Hours(x) >= m
    ensures forall i :: 0 <= i < |Insert(s, x)| ==> Hours(Insert(s, x)[i]) >= m
    decreases |s|
  {
    if s != [] && Hours(s[|s| - 1]) < Hours(x) {
      InsertBounded(s[..|s| - 1], x, m);
    }
  }

  lemma {:induction false} InsertSorted(s: seq<Value>, x: Value)
    requires NonIncreasing(s)
    ensures NonIncreasing(Insert(s, x))
    decreases |s|
  {
    if s != [] {
      var front, last := s[..|s| - 1], s[|s| - 1];
      if Hours(last) < Hours(x) {
        InsertSorted(front, x);
        InsertBounded(front, x, Hours(last));
      }
    }
  }

  /** `ideas.sort((a, b) => (b.total_hours || 0) - (a.total_hours || 0))`, stable as
      `Array.prototype.sort` is. */
  function SortByHours(s: seq<Value>): (r: seq<Value>)
    ensures NonIncreasing(r)
    ensures multiset(r) == multiset(s)
    ensures |r| == |s|
    decreases |s|
  {
    if s == [] then []
    else
      assert s == s[..|s| - 1] + [s[|s| - 1]];
      var sorted := SortByHours(s[..|s| - 1]);
      InsertSorted(sorted, s[|s| - 1]);
      var r := Insert(sorted, s[|s| - 1]);
      assert |r| == |multiset(r)|;
      r
  }

  /** An already ordered list is left as it is (ties keep their order). */
  lemma {:induction false} SortKeepsOrderedInput(s: seq<Value>)
    requires NonIncreasing(s)
    ensures SortByHours(s) == s
    decreases |s|
  {
    if s != [] {
      var front := s[..|s| - 1];
      SortKeepsOrderedInput(front);
      assert s == front + [s[|s| - 1]];
      if front != [] {
        assert Hours(front[|front| - 1]) >= Hours(s[|s| - 1]);
      }
    }
  }

  /** The elements of `s` whose key is `m`, in order. */
  function WithKey(s: seq<Value>, m: int): seq<Value>
    decreases |s|
  {
    if s == [] then []
    else WithKey(s[..|s| - 1], m) + (if Hours(s[|s| - 1]) == m then [s[|s| - 1]] else [])
  }

  lemma WithKeySnoc(s: seq<Value>, x: Value, m: int)
    ensures WithKey(s + [x], m) == WithKey(s, m) + (if Hours(x) == m then [x] else [])
  {
    assert (s + [x])[..|s|] == s;
  }

  lemma SwapWithEmpty(a: seq<Value>, b: seq<Value>, c: seq<Value>)
    requires b == [] || c == []
    ensures (a + b) + c == (a + c) + b
  {
    if b == [] {
      assert a + b == a;
    } else {
      assert a + c == a;
    }
  }

  /** Inserting an element with a larger key than the last one goes before it. */
  lemma InsertBeforeLast(s: seq<Value>, x: Value)
    requires s != [] && Hours(s[|s| - 1]) < Hours(x)
    ensures Insert(s, x) == Insert(s[..|s| - 1], x) + [s[|s| - 1]]
  {
  }

  /** An insertion puts `x` after every element with its key. */
  lemma {:induction false} InsertStable(s: seq<Value>, x: Value, m: int)
    ensures WithKey(Insert(s, x), m) == WithKey(s, m) + (if Hours(x) == m then [x] else [])
    decreases |s|
  {
    var xs := if Hours(x) == m then [x] else [];
    if s == [] {
      WithKeySnoc([], x, m);
      assert [] + [x] == [x];
    } else if Hours(s[|s| - 1]) >= Hours(x) {
      WithKeySnoc(s, x, m);
    } else {
      var front, last := s[..|s| - 1], s[|s| - 1];
      var ls := if Hours(last) == m then [last] else [];
      assert xs == [] || ls == [];
      assert s == front + [last];
      InsertBeforeLast(s, x);
      InsertStable(front, x, m);
      WithKeySnoc(Insert(front, x), last, m);
      WithKeySnoc(front, last, m);
      calc {
        WithKey(Insert(s, x), m);
        WithKey(Insert(front, x), m) + ls;
        (WithKey(front, m) + xs) + ls;
        { SwapWithEmpty(WithKey(front, m), xs, ls); }
        (WithKey(front, m) + ls) + xs;
        WithKey(s, m) + xs;
      }
    }
  }

  /** The sort is stable: for every key, the ideas with that key keep their order. */
  lemma {:induction false} SortStable(s: seq<Value>, m: int)
    ensures WithKey(SortByHours(s), m) == WithKey(s, m)
    decreases |s|
  {
    if s != [] {
      var front, last := s[..|s| - 1], s[|s| - 1];
      SortStable(front, m);
      InsertStable(SortByHours(front), last, m);
    }
  }

  /** `data.ideas || []`: the list to sort, or None when reading or sorting it throws.
      Reading `data.ideas` throws on a null body; `.sort` throws on a truthy `ideas`
      that is not an array; and the comparator reads `total_hours` of every element
      once there are two or more, which throws on a null element. */
  function IdeasOf(data: Value): (r: Option<seq<Value>>)
    ensures NoProperties(data) ==> r.None?
    ensures !NoProperties(data) && !Truthy(Prop(data, "ideas")) ==> r == Some([])
    ensures !NoProperties(data) && Truthy(Prop(data, "ideas")) && !Prop(data, "ideas").Arr? ==> r.None?
    ensures !NoProperties(data) && Prop(data, "ideas").Arr? ==>
              (r.None? <==> |Prop(data, "ideas").items| >= 2 && Null in Prop(data, "ideas").items)
    ensures r.Some? ==> r.value == [] || (Prop(data, "ideas").Arr? && r.value == Prop(data, "ideas").items)
  {
    if NoProperties(data) then None
    else
      var items := Prop(data, "ideas");
      if !Truthy(items) then Some([])
      else if !items.Arr? then None
      else if |items.items| >= 2 && Null in items.items then None
      else Some(items.items)
  }

  /** How the ideas request ended: the parsed body, or a rejection of `fetch` or `res.json()`. */
  datatype IdeasReply = Fetched(data: Value) | Rejected

  class MatchPageState {
    var ideas: seq<Value>
    var loading: bool
    var selected: Value   // `selectedIdea`, null when no dialog is open
    var fetches: nat      // requests made to the ideas endpoint

    constructor ()
      ensures ideas == [] && loading && selected == Null && fetches == 0
    {
      ideas, loading, selected, fetches := [], true, Null, 0;
    }

    /** `fetchIdeas` once its request has settled. */
    method FetchIdeas(reply: IdeasReply)
      modifies this`ideas, this`loading, this`fetches
      ensures !loading
      ensures fetches == old(fetches) + 1
      ensures (reply.Fetched? && IdeasOf(reply.data).Some?) ==> ideas == SortByHours(IdeasOf(reply.data).value)
      ensures !(reply.Fetched? && IdeasOf(reply.data).Some?) ==> ideas == old(ideas)
    {
      loading := true;
      fetches := fetches + 1;
      if reply.Fetched? {
        var list := IdeasOf(reply.data);
        if list.Some? {
          ideas := SortByHours(list.value);
        }
      }
      loading := false;
    }

    /** The `onSuccess` the page hands to the share dialog. */
    method OnShareSuccess(arg: Value, reply: IdeasReply)
      modifies this`ideas, this`loading, this`fetches, this`selected
      ensures fetches == old(fetches) + 1 && !loading
      ensures (reply.Fetched? && IdeasOf(reply.data).Some?) ==> ideas == SortByHours(IdeasOf(reply.data).value)
      ensures !(reply.Fetched? && IdeasOf(reply.data).Some?) ==> ideas == old(ideas)
      ensures selected == SelectionAfterShare(old(selected), arg)
    {
      FetchIdeas(reply);
      if Truthy(arg) && Truthy(Prop(arg, "id")) {
        selected := arg;
      }
    }
  }

  /** `if (newIdea && newIdea.id) setSelectedIdea(newIdea)` */
  function SelectionAfterShare(selected: Value, arg: Value): (r: Value)
    ensures r == arg <==> (Truthy(arg) && Truthy(Prop(arg, "id"))) || selected == arg
    ensures r != arg ==> r == selected
  {
    if Truthy(arg) && Truthy(Prop(arg, "id")) then arg else selected
  }

  /** The call `handleSubmit` makes, `onSuccess()` with no argument, only refreshes
      the list: the selection is kept. */
  lemma SubmitCallKeepsSelection(selected: Value)
    ensures SelectionAfterShare(selected, Undefined) == selected
  {
  }

  /** The "Collaborate Now" call, `onSuccess(newIdea)`: the shared idea is selected
      exactly when the reply gave it a truthy id, and the application dialog then
      treats it as an idea on any page, since it carries `total_hours`. */
  lemma CollaborateNowSelection(selected: Value, data: Value, f: IdeaForm, pathname: string)
    ensures Truthy(Prop(data, "id")) ==>
              SelectionAfterShare(selected, NewIdea(data, f)) == NewIdea(data, f)
              && ApplicationModal.IsIdea(NewIdea(data, f), pathname)
    ensures !Truthy(Prop(data, "id")) ==> SelectionAfterShare(selected, NewIdea(data, f)) == selected
  {
  }

  /** Sharing an idea from the match page: the dialog submits, notifies the page with
      no argument, and, when the user then presses "Collaborate Now" (`clicks`),
      notifies it again with the new idea and closes. */
  method ShareFromMatchPage(page: MatchPageState, dialog: ShareIdeaModal, reply: IdeaReply, clicks: bool,
                            afterSubmit: IdeasReply, afterClick: IdeasReply)
    modifies page, dialog
    ensures var shared := reply.Ok? && !NoProperties(reply.data);
            if shared && clicks && Truthy(Prop(reply.data, "id"))
            then page.selected == NewIdea(reply.data, old(dialog.form))
                 && ApplicationModal.IsIdea(page.selected, "/match")
            else page.selected == old(page.selected)
    ensures var shared := reply.Ok? && !NoProperties(reply.data);
            page.fetches == old(page.fetches) + (if !shared then 0 else if clicks then 2 else 1)
    ensures reply.Ok? && !NoProperties(reply.data) && clicks ==> !dialog.open && dialog.newIdea == Null
  {
    var form := dialog.form;
    var sent, notified := dialog.Submit(reply);
    if notified {
      page.OnShareSuccess(Undefined, afterSubmit);
      SubmitCallKeepsSelection(old(page.selected));
      if clicks {
        var arg := dialog.CollaborateNow();
        CollaborateNowSelection(page.selected, reply.data, form, "/match");
        page.OnShareSuccess(arg, afterClick);
      }
    }
  }
}
