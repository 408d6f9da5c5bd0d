/**
 The stand-alone dashboard page: its own request list, a creation form with
 a weaker guard than the requests screen (the description may be empty), and
 the "open requests" figure on the home tab.
 */
module IndexPage {

  import opened Optional
  import opened RequestStatus
  import opened Sequences

  datatype Request = Request(
    id: string,
    title: string,
    category: string,
    status: Status,
    date: string,
    apartment: string,
    description: string,
    rating: Option<int>)

  /** The creation form. `category` is empty until one is selected. */
  datatype Form = Form(title: string, category: string, description: string)

  const EmptyForm: Form := Form("", "", "")

  datatype PageState = PageState(requests: seq<Request>, form: Form)

  datatype Toast = Ok | Err

  /** The apartment every request of this page is filed for. */
  const FixedApartment: string := "45"

  /** The three requests the page mounts with. */
  const InitialRequests: seq<Request> := [
    Request("1", "Протечка в ванной", "plumbing", InProgress, "2026-01-10", FixedApartment,
            "Течет кран под раковиной", None),
    Request("2", "Не работает свет в коридоре", "electricity", New, "2026-01-11", FixedApartment,
            "Пропало освещение на 5 этаже", None),
    Request("3", "Ремонт двери", "warranty", Completed, "2026-01-05", FixedApartment,
            "Гарантийный ремонт входной двери", Some(5))]

  function Init(): (s: PageState)
    ensures s.requests == InitialRequests && s.form == EmptyForm
  {
    PageState(InitialRequests, EmptyForm)
  }

  /** The creation guard: title and category are required, the description
      is not. */
  predicate Complete(f: Form) {
    f.title != [] && f.category != []
  }

  /** The form's "create" button. `id` and `date` stand for the clock
      readings. A form without title or category changes nothing; otherwise
      a new open request for the fixed apartment goes to the head of the list
      and the form is cleared. */
  function CreateRequest(s: PageState, id: string, date: string): (r: (PageState, Toast))
    ensures r.1 == Ok <==> Complete(s.form)
    ensures r.1 == Err ==> r.0 == s
    ensures r.1 == Ok ==> |r.0.requests| == |s.requests| + 1
    ensures r.1 == Ok ==> r.0.requests[1..] == s.requests
    ensures r.1 == Ok ==>
      r.0.requests[0] == Request(id, s.form.title, s.form.category, New, date,
                                 FixedApartment, s.form.description, None)
    ensures r.1 == Ok ==> r.0.form == EmptyForm
  {
    if !Complete(s.form) then (s, Err)
    else
      var request := Request(id, s.form.title, s.form.category, New, date,
                             FixedApartment, s.form.description, None);
      (PageState([request] + s.requests, EmptyForm), Ok)
  }

  /** A form with an empty description is still accepted. */
  lemma EmptyDescriptionAccepted(s: PageState, id: string, date: string)
    requires s.form.title != [] && s.form.category != [] && s.form.description == []
    ensures CreateRequest(s, id, date).1 == Ok
    ensures CreateRequest(s, id, date).0.requests[0].description == []
  {
  }

  /** A request counted on the home tab: any that is not completed. */
  predicate IsOpenRequest(r: Request) {
    IsOpen(r.status)
  }

  /** The figure on the "requests" card of the home tab: the length of the
      list filtered to requests that are not completed. */
  function OpenCount(xs: seq<Request>): (r: nat)
    ensures r <= |xs|
    ensures r == |xs| <==> forall k :: 0 <= k < |xs| ==> IsOpenRequest(xs[k])
  {
    FilterFullIffAllPass(xs, IsOpenRequest);
    |Filter(xs, IsOpenRequest)|
  }

  /** The statuses of a list of requests, in order. */
  function Statuses(xs: seq<Request>): (r: seq<Status>)
    ensures |r| == |xs| && forall k :: 0 <= k < |xs| ==> r[k] == xs[k].status
  {
    seq(|xs|, k requires 0 <= k < |xs| => xs[k].status)
  }

  /** The open count plus the number of completed requests is the length of
      the list: every request is counted once, as open or as completed. */
  lemma {:induction false} OpenCountComplement(xs: seq<Request>)
    ensures OpenCount(xs) + multiset(Statuses(xs))[Completed] == |xs|
    decreases |xs|
  {
    if xs != [] {
      var x, tail := xs[0], xs[1..];
      assert xs == [x] + tail;
      OpenCountComplement(tail);
      FilterCons(x, tail, IsOpenRequest);
      StatusesCons(x, tail);
    }
  }

  /** The statuses of a list with one more request in front. */
  lemma StatusesCons(x: Request, xs: seq<Request>)
    ensures Statuses([x] + xs) == [x.status] + Statuses(xs)
  {
  }

  /** The open count never exceeds the list length, and a successful creation
      raises it by exactly one (the new request is open). */
  lemma CreateRaisesOpenCount(s: PageState, id: string, date: string)
    requires Complete(s.form)
    ensures OpenCount(s.requests) <= |s.requests|
    ensures OpenCount(CreateRequest(s, id, date).0.requests) == OpenCount(s.requests) + 1
  {
  }

  /** The page mounts showing two open requests out of three. */
  lemma InitialOpenCount()
    ensures OpenCount(Init().requests) == 2
  {
  }
}
