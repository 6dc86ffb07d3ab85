/** One card of the list: the hover state machine that selects its user after a
    steady hover and clears the selection after the pointer leaves, the delete
    confirmation, and the card's displayed texts and opacity.

    The card's two effects capture the values of the render that ran them: the
    user the card shows and the store's `selectedUsers`. Every change of the store
    gives the provider's functions a new identity, and those functions are effect
    dependencies, so every store change re-runs both effects of every card:
    `StoreChanged` is that step. */
module UserCard {
  import opened Types
  import opened Text
  import opened UsersContext
  import opened MapContext

  /** Delay of the select timer, in milliseconds. */
  const SelectDelay: int := 600
  /** Delay of the deselect timer, in milliseconds. */
  const DeselectDelay: int := 100

  /** A timer is idle or armed to fire at a deadline (in milliseconds). */
  datatype Timer = Idle | Armed(deadline: int)

  /** The deselect effect arms its timer only for a card whose user is NOT selected
      and while the pointer is recorded as leaving. */
  predicate ArmsDeselect(user: User, isLeavingCard: bool) {
    !Truthy(user.isSelected) && isLeavingCard
  }

  /** `selectedUsers.length > 0 && user.isSelected === false ? 0.4 : 1`. */
  function CardOpacity(selectedCount: nat, isSelected: Option<bool>): (r: real)
    ensures r == 0.4 <==> selectedCount > 0 && isSelected == Some(false)
    ensures r == 0.4 || r == 1.0
  {
    if selectedCount > 0 && isSelected == Some(false) then 0.4 else 1.0
  }

  /** `${first} ${last}`. */
  function UserFullName(user: User): (r: string)
    ensures |r| == |user.name.first| + 1 + |user.name.last|
    ensures r[..|user.name.first|] == user.name.first
    ensures r[|user.name.first|] == ' '
    ensures r[|user.name.first| + 1..] == user.name.last
  {
    user.name.first + " " + user.name.last
  }

  /** `${street.name} ${street.number}, ${city}, ${state}, ${postcode}`: the five parts
      in that order, the street name and number separated by a space and the others
      by ", ". */
  function UserAddress(user: User): (r: string)
    ensures IsAddressLine(r, user.location.street.name, IntToString(user.location.street.number),
                          user.location.city, user.location.state, user.location.postcode)
  {
    var loc := user.location;
    AddressLine(loc.street.name, IntToString(loc.street.number), loc.city, loc.state, loc.postcode)
  }

  /** `r` is `name`, a space, `number`, then `city`, `state` and `postcode`, each after ", ". */
  predicate IsAddressLine(r: string, name: string, number: string, city: string, state: string, postcode: string) {
    var a := |name| + 1 + |number|;
    var b := a + 2 + |city|;
    var c := b + 2 + |state|;
    |r| == c + 2 + |postcode| &&
    r[..|name|] == name && r[|name|] == ' ' && r[|name| + 1..a] == number &&
    r[a..a + 2] == ", " && r[a + 2..b] == city &&
    r[b..b + 2] == ", " && r[b + 2..c] == state &&
    r[c..c + 2] == ", " && r[c + 2..] == postcode
  }

  function AddressLine(name: string, number: string, city: string, state: string, postcode: string): (r: string)
    ensures IsAddressLine(r, name, number, city, state, postcode)
  {
    var withNumber := name + " " + number;
    var withCity := withNumber + ", " + city;
    var withState := withCity + ", " + state;
    var r := withState + ", " + postcode;
    var a, b, c := |withNumber|, |withCity|, |withState|;
    assert r[..c] == withState && r[c..c + 2] == ", " && r[c + 2..] == postcode;
    assert withState[..b] == withCity && withState[b..b + 2] == ", " && withState[b + 2..] == state;
    assert withCity[..a] == withNumber && withCity[a..a + 2] == ", " && withCity[a + 2..] == city;
    assert withNumber[..|name|] == name && withNumber[|name|] == ' ' && withNumber[|name| + 1..] == number;
    assert r[b..b + 2] == withState[b..b + 2] && r[b + 2..c] == withState[b + 2..];
    assert r[..b] == withCity;
    assert r[a..a + 2] == withCity[a..a + 2] && r[a + 2..b] == withCity[a + 2..];
    assert r[..a] == withNumber;
    assert r[..|name|] == withNumber[..|name|] && r[|name| + 1..a] == withNumber[|name| + 1..];
    r
  }

  /** Right after `setUserSelected(email)` on a collection holding the email, the
      cards of the other users fade and the cards of the users with that email do not. */
  lemma OpacityAfterSelecting(users: seq<User>, email: string, i: nat)
    requires HasEmail(users, email) && i < |users|
    ensures CardOpacity(|SelectedOf(Selecting(users, Some(email)))|, Selecting(users, Some(email))[i].isSelected)
         == if users[i].email == email then 1.0 else 0.4
  {
    var flagged := Selecting(users, Some(email));
    var k :| 0 <= k < |users| && users[k].email == email;
    assert flagged[k] in SelectedOf(flagged);
  }

  /** Under a consistent store, the deselect timer finds nothing to clear: it is armed
      only for a card whose user is not flagged, and such a user's email is not among
      the selected users. */
  lemma DeselectTimerIsInert(users: seq<User>, selected: seq<User>, user: User)
    requires SelectionConsistent(users, selected)
    requires user in users && ArmsDeselect(user, true)
    ensures !HasEmail(selected, user.email)
  {
  }

  class Card {
    /** The props and context value the card's effects last ran with. */
    var user: User
    var selectedUsers: seq<User>
    var isOpenDeleteAlert: bool
    var isOpenUserDetailsModal: bool
    var isEnteringCard: bool
    var isLeavingCard: bool
    /** The select timer of the enter effect and the deselect timer of the leave effect. */
    var enterTimer: Timer
    var leaveTimer: Timer
    var mounted: bool

    /** While mounted, each effect has a pending timer exactly when its guard holds
        for the values it last ran with; once unmounted, no timer is pending. */
    ghost predicate Valid()
      reads this
    {
      if mounted then
        (enterTimer.Armed? <==> isEnteringCard) &&
        (leaveTimer.Armed? <==> ArmsDeselect(user, isLeavingCard))
      else
        enterTimer == Idle && leaveTimer == Idle
    }

    /** A card appears with every flag off and no timer. */
    constructor Mount(user: User, selectedUsers: seq<User>)
      ensures Valid() && mounted
      ensures this.user == user && this.selectedUsers == selectedUsers
      ensures !isEnteringCard && !isLeavingCard && !isOpenDeleteAlert && !isOpenUserDetailsModal
      ensures enterTimer == Idle && leaveTimer == Idle
    {
      this.user := user;
      this.selectedUsers := selectedUsers;
      isOpenDeleteAlert := false;
      isOpenUserDetailsModal := false;
      isEnteringCard := false;
      isLeavingCard := false;
      enterTimer := Idle;
      leaveTimer := Idle;
      mounted := true;
    }

    /** Pointer enters the card: only `isEnteringCard` is set; if it was off, the
        enter effect re-runs and arms the select timer. */
    method MouseEnter(now: int)
      requires Valid() && mounted
      modifies this
      ensures Valid() && mounted && isEnteringCard
      ensures enterTimer == if old(isEnteringCard) then old(enterTimer) else Armed(now + SelectDelay)
      ensures isLeavingCard == old(isLeavingCard) && leaveTimer == old(leaveTimer)
      ensures user == old(user) && selectedUsers == old(selectedUsers)
      ensures isOpenDeleteAlert == old(isOpenDeleteAlert)
      ensures isOpenUserDetailsModal == old(isOpenUserDetailsModal)
    {
      if !isEnteringCard {
        isEnteringCard := true;
        enterTimer := Armed(now + SelectDelay);
      }
    }

    /** Pointer leaves the card: only `isLeavingCard` is set; `isEnteringCard` and the
        select timer are left alone. If the flag was off, the leave effect re-runs and
        arms the deselect timer when the card's user is not selected. */
    method MouseLeave(now: int)
      requires Valid() && mounted
      modifies this
      ensures Valid() && mounted && isLeavingCard
      ensures leaveTimer ==
        if old(isLeavingCard) then old(leaveTimer)
        else if ArmsDeselect(user, true) then Armed(now + DeselectDelay)
        else Idle
      ensures isEnteringCard == old(isEnteringCard) && enterTimer == old(enterTimer)
      ensures user == old(user) && selectedUsers == old(selectedUsers)
      ensures isOpenDeleteAlert == old(isOpenDeleteAlert)
      ensures isOpenUserDetailsModal == old(isOpenUserDetailsModal)
    {
      if !isLeavingCard {
        isLeavingCard := true;
        leaveTimer := if ArmsDeselect(user, true) then Armed(now + DeselectDelay) else Idle;
      }
    }

    /** The store changed, and with it the card's user (the one now at this card's
        list position) and `selectedUsers`: both effects are cleaned up, cancelling
        their timers, and run again, re-arming a timer whose guard still holds. */
    method StoreChanged(now: int, newUser: User, newSelectedUsers: seq<User>)
      requires Valid() && mounted
      modifies this
      ensures Valid() && mounted
      ensures user == newUser && selectedUsers == newSelectedUsers
      ensures enterTimer == if isEnteringCard then Armed(now + SelectDelay) else Idle
      ensures leaveTimer == if ArmsDeselect(newUser, isLeavingCard) then Armed(now + DeselectDelay) else Idle
      ensures isEnteringCard == old(isEnteringCard) && isLeavingCard == old(isLeavingCard)
      ensures isOpenDeleteAlert == old(isOpenDeleteAlert)
      ensures isOpenUserDetailsModal == old(isOpenUserDetailsModal)
    {
      user := newUser;
      selectedUsers := newSelectedUsers;
      enterTimer := if isEnteringCard then Armed(now + SelectDelay) else Idle;
      leaveTimer := if ArmsDeselect(newUser, isLeavingCard) then Armed(now + DeselectDelay) else Idle;
    }

    /** The select timer fires. If the user it captured is not among the selected users
        it captured, the user's email is selected, the map is centred on the user and
        zoomed to the focused level; otherwise nothing outside the card changes. Either
        way `isEnteringCard` goes off, and the enter effect re-runs without arming. */
    method FireEnterTimer(store: UsersProvider, view: MapProvider)
      requires Valid() && mounted && enterTimer.Armed?
      modifies this, store, view
      ensures Valid() && mounted
      ensures !isEnteringCard && enterTimer == Idle
      ensures !HasEmail(selectedUsers, user.email) ==>
        store.users == Selecting(old(store.users), Some(user.email)) &&
        store.selectedUsers == SelectedOf(store.users) &&
        view.center == PositionOf(user) && view.zoom == FocusedZoom
      ensures HasEmail(selectedUsers, user.email) ==>
        store.users == old(store.users) && store.selectedUsers == old(store.selectedUsers) &&
        view.center == old(view.center) && view.zoom == old(view.zoom)
      ensures view.surface == old(view.surface) && view.userPoints == old(view.userPoints)
      ensures isLeavingCard == old(isLeavingCard) && leaveTimer == old(leaveTimer)
      ensures user == old(user) && selectedUsers == old(selectedUsers)
      ensures isOpenDeleteAlert == old(isOpenDeleteAlert)
      ensures isOpenUserDetailsModal == old(isOpenUserDetailsModal)
    {
      if !HasEmail(selectedUsers, user.email) {
        store.SetUserSelected(Some(user.email));
        view.SetCenter(PositionOf(user));
        view.SetZoom(FocusedZoom);
      }
      isEnteringCard := false;
      enterTimer := Idle;
    }

    /** The deselect timer fires. If the user's email is among the selected users it
        captured, the whole selection is cleared and the map zooms out; the centre is
        left as it is. Either way `isLeavingCard` goes off. */
    method FireLeaveTimer(store: UsersProvider, view: MapProvider)
      requires Valid() && mounted && leaveTimer.Armed?
      modifies this, store, view
      ensures Valid() && mounted
      ensures !isLeavingCard && leaveTimer == Idle
      ensures HasEmail(selectedUsers, user.email) ==>
        store.users == Selecting(old(store.users), None) && store.selectedUsers == [] &&
        view.zoom == OverviewZoom
      ensures !HasEmail(selectedUsers, user.email) ==>
        store.users == old(store.users) && store.selectedUsers == old(store.selectedUsers) &&
        view.zoom == old(view.zoom)
      ensures view.center == old(view.center)
      ensures view.surface == old(view.surface) && view.userPoints == old(view.userPoints)
      ensures isEnteringCard == old(isEnteringCard) && enterTimer == old(enterTimer)
      ensures user == old(user) && selectedUsers == old(selectedUsers)
      ensures isOpenDeleteAlert == old(isOpenDeleteAlert)
      ensures isOpenUserDetailsModal == old(isOpenUserDetailsModal)
    {
      if HasEmail(selectedUsers, user.email) {
        store.SetUserSelected(None);
        NothingSelectedAfterClear(old(store.users));
        view.SetZoom(OverviewZoom);
      }
      isLeavingCard := false;
      leaveTimer := Idle;
    }

    /** The card goes away: both effects are cleaned up and their timers cancelled. */
    method Unmount()
      requires Valid() && mounted
      modifies this
      ensures Valid() && !mounted
      ensures enterTimer == Idle && leaveTimer == Idle
      ensures isEnteringCard == old(isEnteringCard) && isLeavingCard == old(isLeavingCard)
    {
      enterTimer := Idle;
      leaveTimer := Idle;
      mounted := false;
    }

    /** The delete button opens the confirmation. */
    method ClickDelete()
      requires Valid() && mounted
      modifies this`isOpenDeleteAlert
      ensures Valid() && mounted && isOpenDeleteAlert
    {
      isOpenDeleteAlert := true;
    }

    /** Cancelling the confirmation closes it and counts as leaving the card. */
    method CancelDelete(now: int)
      requires Valid() && mounted
      modifies this
      ensures Valid() && mounted && !isOpenDeleteAlert && isLeavingCard
      ensures leaveTimer ==
        if old(isLeavingCard) then old(leaveTimer)
        else if ArmsDeselect(user, true) then Armed(now + DeselectDelay)
        else Idle
      ensures isEnteringCard == old(isEnteringCard) && enterTimer == old(enterTimer)
      ensures user == old(user) && selectedUsers == old(selectedUsers)
      ensures isOpenUserDetailsModal == old(isOpenUserDetailsModal)
    {
      isOpenDeleteAlert := false;
      MouseLeave(now);
    }

    /** Confirming closes the confirmation, counts as leaving the card, and then runs
        the delete callback the page gave the card: delete this user's email. */
    method ContinueDelete(now: int, store: UsersProvider)
      requires Valid() && mounted
      modifies this, store
      ensures Valid() && mounted && !isOpenDeleteAlert && isLeavingCard
      ensures leaveTimer ==
        if old(isLeavingCard) then old(leaveTimer)
        else if ArmsDeselect(user, true) then Armed(now + DeselectDelay)
        else Idle
      ensures isOpenUserDetailsModal == old(isOpenUserDetailsModal)
      ensures store.users == Removed(old(store.users), user.email)
      ensures store.selectedUsers == old(store.selectedUsers)
      ensures isEnteringCard == old(isEnteringCard) && enterTimer == old(enterTimer)
      ensures user == old(user) && selectedUsers == old(selectedUsers)
    {
      CancelDelete(now);
      store.DeleteUser(user.email);
    }

    /** The edit button opens the details dialog (the page passes no edit callback). */
    method ClickEdit()
      requires Valid() && mounted
      modifies this`isOpenUserDetailsModal
      ensures Valid() && mounted && isOpenUserDetailsModal
    {
      isOpenUserDetailsModal := true;
    }

    method CloseDetails()
      requires Valid() && mounted
      modifies this`isOpenUserDetailsModal
      ensures Valid() && mounted && !isOpenUserDetailsModal
    {
      isOpenUserDetailsModal := false;
    }
  }
}
