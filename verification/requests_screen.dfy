/**
 The maintenance-requests screen of the main shell: a list of requests, a
 "new request" dialog with a form, and the creation handler that validates
 the form, puts the new request at the top of the list, resets the form and
 closes the dialog.
 */
module RequestsScreen {

  import opened Optional
  import opened RequestStatus

  datatype Request = Request(
    id: string,
    title: string,
    category: string,
    status: Status,
    date: string,
    description: string,
    photos: Option<seq<string>>)

  /** The dialog's form. `category` is empty until a category is chosen. */
  datatype Form = Form(
    title: string,
    category: string,
    description: string,
    location: string,
    photos: seq<string>)

  /** The form as it is first shown and after every successful creation. */
  const EmptyForm: Form := Form("", "", "", "", [])

  datatype ScreenState = ScreenState(requests: seq<Request>, form: Form, dialogOpen: bool)

  /** The toast a creation attempt raises. */
  datatype Toast = Ok | Err

  /** One entry of the category picker. */
  datatype CategoryEntry = CategoryEntry(value: string, caption: string, icon: string)

  /** The category picker, in display order; the last entry is the fallback. */
  const Categories: seq<CategoryEntry> := [
    CategoryEntry("plumbing", "Сантехника", "💧"),
    CategoryEntry("electricity", "Электрика", "⚡"),
    CategoryEntry("elevator", "Лифт", "🛗"),
    CategoryEntry("heating", "Отопление", "🔥"),
    CategoryEntry("common_area", "Общие зоны", "🏢"),
    CategoryEntry("other", "Другое", "📋")]

  /** Position of the "other" entry used when a category is not listed. */
  const OtherIndex: nat := 5

  /** The two requests the screen mounts with. */
  const InitialRequests: seq<Request> := [
    Request("1", "Протечка в ванной", "plumbing", InProgress, "2026-01-10",
            "Течет кран под раковиной", None),
    Request("2", "Не работает свет", "electricity", New, "2026-01-11",
            "Пропало освещение на 5 этаже", None)]

  function Init(): (s: ScreenState)
    ensures s.requests == InitialRequests && s.form == EmptyForm && !s.dialogOpen
  {
    ScreenState(InitialRequests, EmptyForm, false)
  }

  /** The creation guard: title, category and description are all required. */
  predicate Complete(f: Form) {
    f.title != [] && f.category != [] && f.description != []
  }

  /** The dialog's "create" button. `id` and `date` stand for the clock
      readings the handler takes (`Date.now()` and today's ISO date). An
      incomplete form changes nothing; a complete one becomes a new request
      at the head of the list, the form is cleared and the dialog closes.
      The typed location is not carried into the request. */
  function CreateRequest(s: ScreenState, id: string, date: string): (r: (ScreenState, Toast))
    ensures r.1 == Ok <==> Complete(s.form)
    ensures r.1 == Err ==> r.0 == s
    ensures r.1 == Ok ==> |r.0.requests| == |s.requests| + 1
    ensures r.1 == Ok ==> r.0.requests[1..] == s.requests
    ensures r.1 == Ok ==>
      r.0.requests[0] == Request(id, s.form.title, s.form.category, New, date,
                                 s.form.description, Some(s.form.photos))
    ensures r.1 == Ok ==> r.0.form == EmptyForm && !r.0.dialogOpen
  {
    if !Complete(s.form) then (s, Err)
    else
      var request := Request(id, s.form.title, s.form.category, New, date,
                             s.form.description, Some(s.form.photos));
      (ScreenState([request] + s.requests, EmptyForm, false), Ok)
  }

  /** The first position in `entries` whose value is `key`, if any. */
  function FindCategory(entries: seq<CategoryEntry>, key: string): (r: Option<nat>)
    ensures r.Some? ==> r.value < |entries| && entries[r.value].value == key
    ensures r.Some? ==> forall j :: 0 <= j < r.value ==> entries[j].value != key
    ensures r.None? ==> forall j :: 0 <= j < |entries| ==> entries[j].value != key
    decreases |entries|
  {
    if entries == [] then None
    else if entries[0].value == key then Some(0)
    else
      match FindCategory(entries[1..], key)
      case None => None
      case Some(j) => Some(j + 1)
  }

  /** The picker entry for a category: the entry with that value (values
      are distinct), or the "other" entry when there is none. */
  function GetCategoryData(category: string): (e: CategoryEntry)
    ensures forall j :: 0 <= j < |Categories| && Categories[j].value == category ==> e == Categories[j]
    ensures (forall j :: 0 <= j < |Categories| ==> Categories[j].value != category) ==>
      e == Categories[OtherIndex]
  {
    match FindCategory(Categories, category)
    case Some(j) => Categories[j]
    case None => Categories[OtherIndex]
  }

  /** A user action on the screen. `SelectCategory` names a picker button by
      its position. */
  datatype Event =
    | OpenDialog
    | CloseDialog
    | SelectCategory(index: nat)
    | EditTitle(title: string)
    | EditLocation(location: string)
    | EditDescription(description: string)
    | Create(id: string, date: string)

  /** One action. The form controls exist only while the dialog is open, and
      the picker has one button per category; anything else is a no-op.
      Closing the dialog (cancel or dismiss) keeps the form as typed. */
  function Handle(s: ScreenState, e: Event): (r: ScreenState)
    ensures e.OpenDialog? ==> r == s.(dialogOpen := true)
    ensures !s.dialogOpen && !e.OpenDialog? ==> r == s
  {
    match e
    case OpenDialog => s.(dialogOpen := true)
    case CloseDialog => s.(dialogOpen := false)
    case SelectCategory(i) =>
      if s.dialogOpen && i < |Categories| then s.(form := s.form.(category := Categories[i].value))
      else s
    case EditTitle(t) => if s.dialogOpen then s.(form := s.form.(title := t)) else s
    case EditLocation(l) => if s.dialogOpen then s.(form := s.form.(location := l)) else s
    case EditDescription(d) => if s.dialogOpen then s.(form := s.form.(description := d)) else s
    case Create(id, date) => if s.dialogOpen then CreateRequest(s, id, date).0 else s
  }

  /** `c` is the value of some picker entry. */
  predicate KnownCategory(c: string) {
    exists j :: 0 <= j < |Categories| && Categories[j].value == c
  }

  /** Every listed request has a category from the picker, the form's
      category is empty or from the picker, and no photo is attached (the
      photo button has no handler). */
  predicate WellFormed(s: ScreenState) {
    && (forall k :: 0 <= k < |s.requests| ==> KnownCategory(s.requests[k].category))
    && (s.form.category == [] || KnownCategory(s.form.category))
    && s.form.photos == []
  }

  lemma InitWellFormed()
    ensures WellFormed(Init())
  {
    assert Categories[0].value == InitialRequests[0].category;
    assert Categories[1].value == InitialRequests[1].category;
  }

  /** Every action keeps the screen well formed. */
  lemma HandlePreservesWellFormed(s: ScreenState, e: Event)
    requires WellFormed(s)
    ensures WellFormed(Handle(s, e))
  {
  }

  /** Runs a sequence of actions. */
  function Run(s: ScreenState, es: seq<Event>): ScreenState
    decreases |es|
  {
    if es == [] then s else Run(Handle(s, es[0]), es[1..])
  }

  /** On a screen reached by any sequence of actions, looking up the
      category of a listed request always finds that category's own picker
      entry: no card is shown with the fallback entry in place of its own. */
  lemma {:induction false} CategoryLookupNeverFallsBack(es: seq<Event>)
    ensures var s := Run(Init(), es);
      forall k :: 0 <= k < |s.requests| ==>
        && KnownCategory(s.requests[k].category)
        && GetCategoryData(s.requests[k].category).value == s.requests[k].category
  {
    InitWellFormed();
    RunPreservesWellFormed(Init(), es);
  }

  lemma {:induction false} RunPreservesWellFormed(s: ScreenState, es: seq<Event>)
    requires WellFormed(s)
    ensures WellFormed(Run(s, es))
    decreases |es|
  {
    if es != [] {
      HandlePreservesWellFormed(s, es[0]);
      RunPreservesWellFormed(Handle(s, es[0]), es[1..]);
    }
  }
}
