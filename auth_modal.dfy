/**
 * The shared sign-in / sign-up modal state
 * (joanie-store/src/components/auth/AuthModalContext.tsx): two flags and the
 * three callbacks that set them, each writing both flags.
 */
module AuthModal {

  /** `showSignIn`, `showSignUp` */
  datatype Modals = Modals(showSignIn: bool, showSignUp: bool)

  /** The three callbacks the context provides. */
  datatype Event = OpenSignIn | OpenSignUp | CloseModals

  /** Both modals start closed. */
  const Initial: Modals := Modals(false, false)

  /** Every callback writes both flags, so the new state depends on the event only. */
  function Step(m: Modals, e: Event): (n: Modals)
    ensures n.showSignIn <==> e == OpenSignIn
    ensures n.showSignUp <==> e == OpenSignUp
  {
    match e
    case OpenSignIn => m.(showSignUp := false).(showSignIn := true)
    case OpenSignUp => m.(showSignIn := false).(showSignUp := true)
    case CloseModals => m.(showSignIn := false).(showSignUp := false)
  }

  predicate AtMostOneOpen(m: Modals) {
    !(m.showSignIn && m.showSignUp)
  }

  /** The state after the callbacks `es` run in order from `m`. */
  function Run(m: Modals, es: seq<Event>): Modals {
    if es == [] then m else Step(Run(m, es[..|es| - 1]), es[|es| - 1])
  }

  /** Every callback is idempotent. */
  lemma StepIdempotent(m: Modals, e: Event)
    ensures Step(Step(m, e), e) == Step(m, e)
  {
  }

  /**
   * From the initial state, after any sequence of callbacks, at most one modal
   * is open, and the state is fixed by the last callback alone.
   */
  lemma {:induction false} RunKeepsAtMostOneOpen(es: seq<Event>)
    ensures AtMostOneOpen(Run(Initial, es))
    ensures es != [] ==> Run(Initial, es) == Step(Initial, es[|es| - 1])
    decreases |es|
  {
    if es != [] {
      RunKeepsAtMostOneOpen(es[..|es| - 1]);
    }
  }

  /** Which modal a handler belongs to. */
  datatype Modal = SignInModal | SignUpModal

  /** A modal's two handlers. */
  datatype Handler = Close | Switch

  /** The wiring: each close calls `closeModals`, each switch opens the other modal. */
  function Wiring(modal: Modal, handler: Handler): (e: Event)
    ensures handler == Close ==> e == CloseModals
    ensures handler == Switch && modal == SignInModal ==> e == OpenSignUp
    ensures handler == Switch && modal == SignUpModal ==> e == OpenSignIn
  {
    match (modal, handler)
    case (_, Close) => CloseModals
    case (SignInModal, Switch) => OpenSignUp
    case (SignUpModal, Switch) => OpenSignIn
  }

  /** A switch closes the modal it was pressed in and opens the other; a close leaves both closed. */
  lemma SwitchHandsOver(m: Modals)
    ensures Step(m, Wiring(SignInModal, Switch)) == Modals(false, true)
    ensures Step(m, Wiring(SignUpModal, Switch)) == Modals(true, false)
    ensures Step(m, Wiring(SignInModal, Close)) == Initial == Step(m, Wiring(SignUpModal, Close))
  {
  }

  /** The provider's two state fields and its callbacks. */
  class AuthModalProvider {
    var showSignIn: bool
    var showSignUp: bool

    function State(): Modals
      reads this
    {
      Modals(showSignIn, showSignUp)
    }

    constructor ()
      ensures State() == Initial
    {
      showSignIn, showSignUp := false, false;
    }

    /** `openSignIn` */
    method OpenSignIn()
      modifies this
      ensures State() == Step(old(State()), Event.OpenSignIn)
    {
      showSignUp := false;
      showSignIn := true;
    }

    /** `openSignUp` */
    method OpenSignUp()
      modifies this
      ensures State() == Step(old(State()), Event.OpenSignUp)
    {
      showSignIn := false;
      showSignUp := true;
    }

    /** `closeModals` */
    method CloseModals()
      modifies this
      ensures State() == Step(old(State()), Event.CloseModals)
    {
      showSignIn := false;
      showSignUp := false;
    }

    /** A handler of one of the two modals, as wired. */
    method Handle(modal: Modal, handler: Handler)
      modifies this
      ensures State() == Step(old(State()), Wiring(modal, handler))
      ensures AtMostOneOpen(State())
    {
      match Wiring(modal, handler)
      case OpenSignIn => OpenSignIn();
      case OpenSignUp => OpenSignUp();
      case CloseModals => CloseModals();
    }
  }
}
