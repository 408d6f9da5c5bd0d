/**
 The screen navigator of the main application shell: one current screen out
 of eleven, a home view whose buttons open the other screens, and a back
 action on every other screen that returns home. The screens form a star
 around `Home`.
 */
module Navigator {

  import opened Optional

  datatype Screen =
    | Home | Requests | Ai | Payments | Cameras | Profile
    | Apartment | News | Voting | Chat | Services

  /** Every screen value. */
  const AllScreens: set<Screen> :=
    {Home, Requests, Ai, Payments, Cameras, Profile, Apartment, News, Voting, Chat, Services}

  /** The screen set is the whole type and has eleven members. */
  lemma ScreenCount()
    ensures forall s: Screen :: s in AllScreens
    ensures |AllScreens| == 11
  {
    var acc: set<Screen> := {};
    var order := [Home, Requests, Ai, Payments, Cameras, Profile, Apartment, News, Voting, Chat, Services];
    for i := 0 to |order|
      invariant acc == set j | 0 <= j < i :: order[j]
      invariant |acc| == i
    {
      assert order[i] !in acc;
      acc := acc + {order[i]};
    }
    forall s: Screen
      ensures s in acc
    {
      var j := match s
        case Home => 0 case Requests => 1 case Ai => 2 case Payments => 3
        case Cameras => 4 case Profile => 5 case Apartment => 6 case News => 7
        case Voting => 8 case Chat => 9 case Services => 10;
      assert order[j] == s;
    }
    assert acc == AllScreens;
  }

  /** The shell mounts on the home view. */
  function Init(): (s: Screen)
    ensures s == Home
  {
    Home
  }

  /** The clickable elements of the home view, grouped as on screen: the bell
      in the header, the balance card, the four quick actions, the eight
      tiles of "all services" and the five items of the bottom bar. */
  datatype HomeButton =
    | Bell | BalanceCard
    | QuickRequests | QuickPayments | QuickCameras | QuickServices
    | TileRequests | TilePayments | TileCameras | TileChat
    | TileServices | TileApartment | TileVoting | TileAi
    | BarHome | BarPayments | BarRequests | BarChat | BarServices

  /** The screen each home button opens. None of them opens `Profile`. */
  function Target(b: HomeButton): (s: Screen)
    ensures s != Profile
  {
    match b
    case Bell => News
    case BalanceCard => Payments
    case QuickRequests => Requests
    case QuickPayments => Payments
    case QuickCameras => Cameras
    case QuickServices => Services
    case TileRequests => Requests
    case TilePayments => Payments
    case TileCameras => Cameras
    case TileChat => Chat
    case TileServices => Services
    case TileApartment => Apartment
    case TileVoting => Voting
    case TileAi => Ai
    case BarHome => Home
    case BarPayments => Payments
    case BarRequests => Requests
    case BarChat => Chat
    case BarServices => Services
  }

  /** What `renderScreen` returns: the leaf screen for a non-home screen and
      nothing (the `default` branch) for `Home`. */
  function RenderScreen(s: Screen): (r: Option<Screen>)
    ensures r.None? <==> s == Home
    ensures r.Some? ==> r.value == s
  {
    if s == Home then None else Some(s)
  }

  /** What is on the display: the home view, or exactly one leaf screen. */
  datatype View = HomeView | LeafView(screen: Screen)

  /** A non-home screen replaces the home view entirely. */
  function Render(s: Screen): (v: View)
    ensures v == HomeView <==> s == Home
    ensures v.LeafView? ==> v.screen == s && v.screen != Home
  {
    match RenderScreen(s)
    case None => HomeView
    case Some(leaf) => LeafView(leaf)
  }

  /** A navigation request: a home button, or a leaf screen's back action. */
  datatype Event = Press(button: HomeButton) | Back

  /** The back action every leaf screen receives. */
  function OnBack(s: Screen): (r: Screen)
    requires s != Home
    ensures r == Home
  {
    Home
  }

  /** One navigation event. Home buttons exist only on the home view and the
      back action only on a leaf screen; anything else cannot happen and
      leaves the screen as it is. */
  function Step(s: Screen, e: Event): (r: Screen)
    ensures e.Press? && s == Home ==> r == Target(e.button)
    ensures e.Back? && s != Home ==> r == Home
    ensures (e.Press? && s != Home) || (e.Back? && s == Home) ==> r == s
  {
    match e
    case Press(b) => if s == Home then Target(b) else s
    case Back => if s != Home then OnBack(s) else s
  }

  /** Every transition either starts or ends at `Home`: no event ever moves
      from one leaf screen to a different leaf screen. */
  lemma StarTopology(s: Screen, e: Event)
    ensures Step(s, e) != s ==> s == Home || Step(s, e) == Home
  {
  }

  /** The screens visited by a run of events, starting with `s`. */
  function Trace(s: Screen, es: seq<Event>): (t: seq<Screen>)
    ensures |t| == |es| + 1 && t[0] == s
    ensures forall i :: 0 <= i < |es| ==> t[i + 1] == Step(t[i], es[i])
    decreases |es|
  {
    if es == [] then [s]
    else
      var rest := Trace(Step(s, es[0]), es[1..]);
      assert forall i :: 1 <= i < |es| ==> es[i] == es[1..][i - 1];
      [s] + rest
  }

  /** In every run, two consecutive screens that differ have `Home` among
      them: the history never holds a leaf-to-leaf move. */
  lemma TraceIsStar(s: Screen, es: seq<Event>)
    ensures forall i :: 0 <= i < |es| ==>
      Trace(s, es)[i] == Trace(s, es)[i + 1]
      || Trace(s, es)[i] == Home || Trace(s, es)[i + 1] == Home
    decreases |es|
  {
  }

  /** Opening the payments screen from home and pressing back returns home. */
  lemma PaymentsAndBack()
    ensures Step(Step(Init(), Press(BalanceCard)), Back) == Home
  {
  }

  /** A home button that opens `s`; there is one for every screen except
      `Profile`. */
  function ButtonFor(s: Screen): (b: HomeButton)
    requires s != Profile
    ensures Target(b) == s
  {
    match s
    case Home => BarHome
    case Requests => QuickRequests
    case Ai => TileAi
    case Payments => BalanceCard
    case Cameras => QuickCameras
    case Apartment => TileApartment
    case News => Bell
    case Voting => TileVoting
    case Chat => TileChat
    case Services => QuickServices
  }

  /** No home button opens `Profile`: the profile screen, and the logout it
      carries, cannot be reached from the home view. */
  lemma {:induction false} ProfileUnreachable(s: Screen, es: seq<Event>)
    requires s != Profile
    ensures forall i :: 0 <= i < |Trace(s, es)| ==> Trace(s, es)[i] != Profile
    decreases |es|
  {
    if es != [] {
      ProfileUnreachable(Step(s, es[0]), es[1..]);
      assert Trace(s, es) == [s] + Trace(Step(s, es[0]), es[1..]);
    }
  }
}
