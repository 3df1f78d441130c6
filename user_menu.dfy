/**
 * The signed-in user's avatar menu
 * (joanie-store/src/components/auth/UserMenu.tsx): the letter shown when
 * there is no profile picture, and the open / closed state of the drop-down.
 */
module UserMenu {
  import opened Store

  /**
   * `getUserInitial(name, email)`: the first character of the name, else of
   * the email, else "U"; an empty string counts as missing.
   */
  function UserInitial(name: Option<string>, email: Option<string>): (r: string)
    ensures |r| == 1
    ensures Truthy(name) ==> r[0] == name.value[0]
    ensures !Truthy(name) && Truthy(email) ==> r[0] == email.value[0]
    ensures !Truthy(name) && !Truthy(email) ==> r == "U"
  {
    if Truthy(name) then name.value[..1]
    else if Truthy(email) then email.value[..1]
    else "U"
  }

  /** The letter always comes from the name when the name is given, whatever the email. */
  lemma NameWinsOverEmail(name: string, email1: Option<string>, email2: Option<string>)
    requires name != ""
    ensures UserInitial(Some(name), email1) == UserInitial(Some(name), email2) == name[..1]
  {
  }

  /** The avatar: the profile picture if the session has one, else the initial. */
  datatype Avatar = Photo(url: string) | Initial(letter: string)

  /** What the component renders: nothing, or the avatar with the drop-down open or not. */
  datatype Menu = Nothing | Shown(avatar: Avatar, isOpen: bool, displayName: string)

  function Render(session: Option<Session>, isOpen: bool): (m: Menu)
    ensures m.Nothing? <==> session.None?
    ensures m.Shown? ==> m.isOpen == isOpen
    ensures m.Shown? && session.value.user.Some? && Truthy(session.value.user.value.image) ==>
              m.avatar == Photo(session.value.user.value.image.value)
    ensures m.Shown? && m.avatar.Initial? ==> |m.avatar.letter| == 1
    ensures m.Shown? && !(session.value.user.Some? && Truthy(session.value.user.value.image)) ==>
              m.avatar == Initial(UserInitial(
                if session.value.user.Some? then session.value.user.value.name else None,
                if session.value.user.Some? then session.value.user.value.email else None))
    ensures m.Shown? && session.value.user.Some? && Truthy(session.value.user.value.name) ==>
              m.displayName == session.value.user.value.name.value
    ensures m.Shown? && !(session.value.user.Some? && Truthy(session.value.user.value.name)) ==>
              m.displayName == "User"
  {
    if session.None? then Nothing
    else
      var user := session.value.user;
      var name := if user.Some? then user.value.name else None;
      var email := if user.Some? then user.value.email else None;
      var image := if user.Some? then user.value.image else None;
      var avatar := if Truthy(image) then Photo(image.value) else Initial(UserInitial(name, email));
      Shown(avatar, isOpen, if Truthy(name) then name.value else "User")
  }

  /** The drop-down's state. */
  class MenuState {
    var isOpen: bool

    constructor ()
      ensures !isOpen
    {
      isOpen := false;
    }

    /** The avatar button: `setIsOpen(!isOpen)` */
    method AvatarClick()
      modifies this
      ensures isOpen == !old(isOpen)
    {
      isOpen := !isOpen;
    }

    /** The backdrop, rendered only while the menu is open: `setIsOpen(false)` */
    method BackdropClick()
      modifies this
      ensures !isOpen
    {
      isOpen := false;
    }
  }

  /** Two avatar clicks leave the menu as it was. */
  method ClickTwice(menu: MenuState)
    modifies menu
    ensures menu.isOpen == old(menu.isOpen)
  {
    menu.AvatarClick();
    menu.AvatarClick();
  }
}
