/**
 * The header's own sign-in / sign-up modals
 * (joanie-store/src/components/layout/HeaderWithAuth.tsx): two flags of its
 * own, separate from the shared modal context, with handlers that each set
 * only some of them.
 */
module HeaderWithAuth {
  import opened Store

  datatype Flags = Flags(showSignIn: bool, showSignUp: bool)

  datatype Event = AccountClick | SwitchToSignUp | SwitchToSignIn | CloseSignIn | CloseSignUp

  /** Both flags start false. */
  const Initial: Flags := Flags(false, false)

  /**
   * One handler. `hasSession` is `!!session`: the account icon only opens
   * sign-in for a visitor without a session, and leaves `showSignUp` alone.
   */
  function Step(f: Flags, e: Event, hasSession: bool): (g: Flags)
    ensures e == AccountClick && hasSession ==> g == f
    ensures e == AccountClick && !hasSession ==> g.showSignIn && g.showSignUp == f.showSignUp
    ensures e == SwitchToSignUp ==> g == Flags(false, true)
    ensures e == SwitchToSignIn ==> g == Flags(true, false)
    ensures e == CloseSignIn ==> !g.showSignIn && g.showSignUp == f.showSignUp
    ensures e == CloseSignUp ==> !g.showSignUp && g.showSignIn == f.showSignIn
  {
    match e
    case AccountClick => if hasSession then f else f.(showSignIn := true)
    case SwitchToSignUp => f.(showSignIn := false).(showSignUp := true)
    case SwitchToSignIn => f.(showSignUp := false).(showSignIn := true)
    case CloseSignIn => f.(showSignIn := false)
    case CloseSignUp => f.(showSignUp := false)
  }

  /** The flags after the handlers `es` run in order from `f`, the session staying as it is. */
  function Run(f: Flags, es: seq<Event>, hasSession: bool): Flags {
    if es == [] then f else Step(Run(f, es[..|es| - 1], hasSession), es[|es| - 1], hasSession)
  }

  /**
   * Unlike the shared modal context, both modals can be open at once: switch
   * to sign-up, then click the account icon.
   */
  lemma BothCanBeOpen()
    ensures Run(Initial, [SwitchToSignUp, AccountClick], false) == Flags(true, true)
  {
    assert [SwitchToSignUp, AccountClick][..1] == [SwitchToSignUp];
    assert [SwitchToSignUp][..0] == [];
  }

  /** With a session, no sequence of account clicks opens anything. */
  lemma {:induction false} SignedInClicksOpenNothing(n: nat)
    ensures Run(Initial, seq(n, _ => AccountClick), true) == Initial
    decreases n
  {
    if n > 0 {
      SignedInClicksOpenNothing(n - 1);
      assert seq(n, _ => AccountClick)[..n - 1] == seq(n - 1, _ => AccountClick);
    }
  }

  /** What the header is given: `isLoggedIn` and whether it gets a user menu. */
  datatype HeaderProps = HeaderProps(isLoggedIn: bool, showsUserMenu: bool)

  function Props(session: Option<Session>): (p: HeaderProps)
    ensures p.isLoggedIn <==> session.Some?
    ensures p.showsUserMenu <==> session.Some?
  {
    HeaderProps(session.Some?, session.Some?)
  }

  /**
   * The header counts any session as logged in, while the routes and hooks
   * need a session user id: a session without one shows the user menu yet is
   * refused by the cart.
   */
  lemma LoggedInIsWeakerThanSignedIn(session: Option<Session>)
    ensures SignedIn(session) ==> Props(session).isLoggedIn
    ensures Props(Some(Session(None))).isLoggedIn && !SignedIn(Some(Session(None)))
  {
  }

  /** The component's two state fields and its handlers. */
  class Header {
    var showSignIn: bool
    var showSignUp: bool

    function State(): Flags
      reads this
    {
      Flags(showSignIn, showSignUp)
    }

    constructor ()
      ensures State() == Initial
    {
      showSignIn, showSignUp := false, false;
    }

    /** `onAccountClick`: `!session && setShowSignIn(true)` */
    method AccountClick(session: Option<Session>)
      modifies this
      ensures State() == Step(old(State()), Event.AccountClick, session.Some?)
    {
      if session.None? {
        showSignIn := true;
      }
    }

    /** `handleSwitchToSignUp` */
    method SwitchToSignUp()
      modifies this
      ensures State() == Step(old(State()), Event.SwitchToSignUp, false)
    {
      showSignIn := false;
      showSignUp := true;
    }

    /** `handleSwitchToSignIn` */
    method SwitchToSignIn()
      modifies this
      ensures State() == Step(old(State()), Event.SwitchToSignIn, false)
    {
      showSignUp := false;
      showSignIn := true;
    }

    /** The sign-in modal's `onClose` */
    method CloseSignIn()
      modifies this
      ensures State() == Step(old(State()), Event.CloseSignIn, false)
    {
      showSignIn := false;
    }

    /** The sign-up modal's `onClose` */
    method CloseSignUp()
      modifies this
      ensures State() == Step(old(State()), Event.CloseSignUp, false)
    {
      showSignUp := false;
    }
  }
}
