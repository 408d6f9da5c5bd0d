/**
 The three-step sign-in flow of the authentication screen: phone number,
 confirmation code, apartment details. Each submit handler is a pure
 transition on the screen's state that also reports which toast it raises,
 and the last step hands a profile record to the caller.
 */
module Auth {

  datatype Step = Phone | Code | Apartment

  datatype Status = Owner | Tenant

  /** The record handed to `onComplete` when the flow finishes. */
  datatype Profile = Profile(
    phone: string,
    apartment: string,
    entrance: string,
    status: Status,
    complex: string)

  /** The component's state: the active step and the five form fields. */
  datatype AuthState = AuthState(
    step: Step,
    phone: string,
    code: string,
    apartment: string,
    entrance: string,
    status: Status)

  /** What a user can do. Each control is rendered on one step only. */
  datatype Event =
    | EditPhone(phone: string)
    | SubmitPhone
    | EditCode(code: string)
    | SubmitCode
    | ChangeNumber
    | EditApartment(apartment: string)
    | EditEntrance(entrance: string)
    | SelectStatus(status: Status)
    | SubmitApartment

  /** The visible effect of an event: no toast, a success or error toast,
      or completion of the flow with the emitted profile. */
  datatype Outcome = Silent | Success | Error | Completed(profile: Profile)

  /** The residential complex every profile is registered in. */
  const SunnyComplex: string := "ЖК Солнечный"

  /** Shortest phone number the phone step accepts. */
  const MinPhoneLength: nat := 10

  /** Exact length of a confirmation code; also the code field's `maxLength`. */
  const CodeLength: nat := 4

  /** The state the screen mounts with. */
  function Init(): (s: AuthState)
    ensures s.step == Phone && s.status == Owner
    ensures s.phone == [] && s.code == [] && s.apartment == [] && s.entrance == []
  {
    AuthState(Phone, "", "", "", "", Owner)
  }

  /** The step on which the control behind `e` is rendered. */
  function StepOf(e: Event): Step {
    match e
    case EditPhone(_) => Phone
    case SubmitPhone => Phone
    case EditCode(_) => Code
    case SubmitCode => Code
    case ChangeNumber => Code
    case EditApartment(_) => Apartment
    case EditEntrance(_) => Apartment
    case SelectStatus(_) => Apartment
    case SubmitApartment => Apartment
  }

  /** The phone step's button: a number shorter than ten characters is
      rejected and the step stays; otherwise the flow moves to the code. */
  function HandlePhoneSubmit(s: AuthState): (r: (AuthState, Outcome))
    requires s.step == Phone
    ensures r.0.step == Code <==> |s.phone| >= MinPhoneLength
    ensures r.0.step != Code ==> r.0 == s
    ensures r.0 == s.(step := r.0.step)
    ensures r.1 == (if r.0.step == Code then Success else Error)
  {
    if |s.phone| < MinPhoneLength then (s, Error)
    else (s.(step := Code), Success)
  }

  /** The code step's button: only a code of exactly four characters moves
      the flow on, and it does so without a toast. */
  function HandleCodeSubmit(s: AuthState): (r: (AuthState, Outcome))
    requires s.step == Code
    ensures r.0.step == Apartment <==> |s.code| == CodeLength
    ensures r.0.step != Apartment ==> r.0 == s
    ensures r.0 == s.(step := r.0.step)
    ensures r.1 == (if r.0.step == Apartment then Silent else Error)
  {
    if |s.code| != CodeLength then (s, Error)
    else (s.(step := Apartment), Silent)
  }

  /** The apartment step's button: both text fields must be non-empty; the
      emitted profile copies the form and adds the fixed complex, which is
      never entered by the user and never checked. */
  function HandleApartmentSubmit(s: AuthState): (r: (AuthState, Outcome))
    requires s.step == Apartment
    ensures r.0 == s
    ensures r.1.Completed? <==> s.apartment != [] && s.entrance != []
    ensures !r.1.Completed? ==> r.1 == Error
    ensures r.1.Completed? ==>
      r.1.profile == Profile(s.phone, s.apartment, s.entrance, s.status, SunnyComplex)
  {
    if s.apartment == [] || s.entrance == [] then (s, Error)
    else (s, Completed(Profile(s.phone, s.apartment, s.entrance, s.status, SunnyComplex)))
  }

  /** The "change number" button: back to the phone step, all fields kept. */
  function HandleChangeNumber(s: AuthState): (r: AuthState)
    requires s.step == Code
    ensures r.step == Phone
    ensures r.(step := s.step) == s
  {
    s.(step := Phone)
  }

  /** The code input keeps at most `CodeLength` characters of what is typed. */
  function ClipCode(code: string): (r: string)
    ensures |r| <= CodeLength
    ensures |code| <= CodeLength ==> r == code
    ensures |code| > CodeLength ==> r == code[..CodeLength]
  {
    if |code| <= CodeLength then code else code[..CodeLength]
  }

  /** One user event. An event whose control is not on screen on the current
      step cannot happen and is treated as a no-op. */
  function Handle(s: AuthState, e: Event): (r: (AuthState, Outcome))
    ensures StepOf(e) != s.step ==> r == (s, Silent)
  {
    if StepOf(e) != s.step then (s, Silent)
    else
      match e
      case EditPhone(p) => (s.(phone := p), Silent)
      case SubmitPhone => HandlePhoneSubmit(s)
      case EditCode(c) => (s.(code := ClipCode(c)), Silent)
      case SubmitCode => HandleCodeSubmit(s)
      case ChangeNumber => (HandleChangeNumber(s), Silent)
      case EditApartment(a) => (s.(apartment := a), Silent)
      case EditEntrance(n) => (s.(entrance := n), Silent)
      case SelectStatus(st) => (s.(status := st), Silent)
      case SubmitApartment => HandleApartmentSubmit(s)
  }

  /** What the steps already passed guarantee about the fields: the code
      step is only reached with a long enough phone number, the apartment
      step also with a four-character code. */
  predicate Reachable(s: AuthState) {
    && (s.step == Code ==> |s.phone| >= MinPhoneLength)
    && (s.step == Apartment ==> |s.phone| >= MinPhoneLength && |s.code| == CodeLength)
  }

  /** A profile the flow can emit. */
  predicate ValidProfile(p: Profile) {
    |p.phone| >= MinPhoneLength && p.apartment != [] && p.entrance != [] && p.complex == SunnyComplex
  }

  /** Every event keeps `Reachable`, and a completion emits a valid profile. */
  lemma HandlePreservesReachable(s: AuthState, e: Event)
    requires Reachable(s)
    ensures Reachable(Handle(s, e).0)
    ensures Handle(s, e).1.Completed? ==> ValidProfile(Handle(s, e).1.profile)
  {
  }

  /** Runs a sequence of events; returns the final state and every profile
      emitted on the way, in order. */
  function Run(s: AuthState, es: seq<Event>): (r: (AuthState, seq<Profile>))
    decreases |es|
  {
    if es == [] then (s, [])
    else
      var (s1, o) := Handle(s, es[0]);
      var (s2, ps) := Run(s1, es[1..]);
      (s2, if o.Completed? then [o.profile] + ps else ps)
  }

  /** From the initial state, any sequence of events ends in a reachable
      state, and every profile it emits has a phone number of at least ten
      characters and non-empty apartment and entrance. */
  lemma {:induction false} RunKeepsInvariant(s: AuthState, es: seq<Event>)
    requires Reachable(s)
    ensures Reachable(Run(s, es).0)
    ensures forall i :: 0 <= i < |Run(s, es).1| ==> ValidProfile(Run(s, es).1[i])
    decreases |es|
  {
    if es != [] {
      HandlePreservesReachable(s, es[0]);
      RunKeepsInvariant(Handle(s, es[0]).0, es[1..]);
    }
  }

  /** The initial state is reachable, so every run of the screen satisfies
      `RunKeepsInvariant`. */
  lemma InitReachable()
    ensures Reachable(Init())
  {
  }

  /** The literal sign-in scenario: a five-digit phone is refused, a
      ten-digit one accepted; a three-digit code is refused, a four-digit one
      accepted; an empty apartment is refused; with all fields filled the
      emitted profile carries the default status `owner`. */
  lemma SignInScenario()
    ensures var s0 := Init().(phone := "12345");
      HandlePhoneSubmit(s0) == (s0, Error)
    ensures var s1 := Init().(phone := "9991234567");
      HandlePhoneSubmit(s1).0.step == Code
    ensures var s2 := Init().(step := Code, phone := "9991234567", code := "123");
      HandleCodeSubmit(s2) == (s2, Error)
    ensures var s3 := Init().(step := Code, phone := "9991234567", code := "1234");
      HandleCodeSubmit(s3).0.step == Apartment
    ensures var s4 := AuthState(Apartment, "9991234567", "1234", "", "1", Owner);
      HandleApartmentSubmit(s4).1 == Error
    ensures var s5 := AuthState(Apartment, "9991234567", "1234", "45", "1", Owner);
      HandleApartmentSubmit(s5).1 == Completed(Profile("9991234567", "45", "1", Owner, SunnyComplex))
  {
  }

  /** A whole run of the screen from mount: typing a ten-digit phone,
      submitting, typing a four-digit code, submitting, filling apartment
      and entrance and submitting emits exactly one profile. */
  lemma CompleteSignInRun()
    ensures Run(Init(), [EditPhone("9991234567"), SubmitPhone, EditCode("1234"), SubmitCode,
                         EditApartment("45"), EditEntrance("1"), SubmitApartment]).1
         == [Profile("9991234567", "45", "1", Owner, SunnyComplex)]
  {
  }
}
