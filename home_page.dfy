/** The page: it stores the fetched users whenever the collection is empty (at load,
    and again after every user has been deleted), keeps the map's markers projected
    from the users, lays out one card per user, and clears the selection when the
    pointer enters or leaves the card grid. The scenarios at the end run the card's
    hover machine against the store and the view state as the page wires them. */
module HomePage {
  import opened Types
  import opened Arrays
  import opened Text
  import opened UsersContext
  import opened MapContext
  import opened OLMap
  import opened UserCard

  const LoadErrorMessage: string := "We had some issue loading the users, please try again later!"

  /** The marker of a user: its position, its flag as it is, and its id value. */
  function ToUserPoint(u: User): (p: UserPoint)
    ensures p.position == PositionOf(u) && p.isSelected == u.isSelected && p.refUser == u.id.value
  {
    UserPoint(PositionOf(u), u.isSelected, u.id.value)
  }

  /** The markers effect's `users.map(...)`: one marker per user, in order, carrying
      the user's flag, position and id value. */
  function UserPointsOf(users: seq<User>): (r: seq<UserPoint>)
    ensures |r| == |users|
    ensures forall i :: 0 <= i < |users| ==>
      r[i].isSelected == users[i].isSelected && r[i].refUser == users[i].id.value &&
      r[i].position == PositionOf(users[i])
  {
    var points := Map(users, ToUserPoint);
    assert forall i :: 0 <= i < |users| ==> points[i] == ToUserPoint(users[i]);
    points
  }

  function IsUnselectedUser(u: User): bool {
    !Truthy(u.isSelected)
  }

  /** From collection to layers: the selected markers are the markers of the selected
      users and the other markers are those of the other users, in collection order. */
  lemma MarkersFollowUsers(users: seq<User>)
    ensures SelectedUserPoints(UserPointsOf(users)) == UserPointsOf(SelectedOf(users))
    ensures NonSelectedUserPoints(UserPointsOf(users)) == UserPointsOf(Filter(users, IsUnselectedUser))
  {
    MapFilter(users, ToUserPoint, PointIsSelected, IsSelectedUser);
    MapFilter(users, ToUserPoint, PointIsNotSelected, IsUnselectedUser);
  }

  /** Flagging a user does not move its marker. */
  lemma FlaggingKeepsPositions(users: seq<User>, email: Option<string>)
    ensures Features(UserPointsOf(Map(users, Flagging(email)))) == Map(users, PositionOf)
  {
    var flagged := Map(users, Flagging(email));
    forall i | 0 <= i < |users|
      ensures Features(UserPointsOf(flagged))[i] == Map(users, PositionOf)[i]
    {
      assert flagged[i] == Flagging(email)(users[i]);
      assert UserPointsOf(flagged)[i] == ToUserPoint(flagged[i]);
      assert Features(UserPointsOf(flagged))[i] == FeatureOf(UserPointsOf(flagged)[i]);
      assert Map(users, PositionOf)[i] == PositionOf(users[i]);
    }
  }

  /** After `setUserSelected(email)`, the selected-markers layer is filled with the
      positions of the users with that email, in collection order; with unique emails
      that is one feature when the email is present and none otherwise. */
  lemma SelectedLayerAfterSelecting(users: seq<User>, email: string)
    ensures Features(SelectedUserPoints(UserPointsOf(Selecting(users, Some(email)))))
         == Map(Filter(users, SameEmail(email)), PositionOf)
    ensures UniqueEmails(users) ==>
      |Features(SelectedUserPoints(UserPointsOf(Selecting(users, Some(email)))))|
        == if HasEmail(users, email) then 1 else 0
  {
    var matching := Filter(users, SameEmail(email));
    calc {
      Features(SelectedUserPoints(UserPointsOf(Selecting(users, Some(email)))));
      { MarkersFollowUsers(Selecting(users, Some(email))); }
      Features(UserPointsOf(SelectedOf(Selecting(users, Some(email)))));
      { SelectedAfterSelecting(users, email); }
      Features(UserPointsOf(Map(matching, Flagging(Some(email)))));
      { FlaggingKeepsPositions(matching, Some(email)); }
      Map(matching, PositionOf);
    }
    if UniqueEmails(users) {
      UniqueEmailMatches(users, email);
    }
  }

  /** Deleting the email of the selected users leaves no feature in the
      selected-markers layer, although the store's `selectedUsers` still names them. */
  lemma NoSelectedMarkerAfterDelete(users: seq<User>, email: string)
    requires forall u :: u in users && IsSelectedUser(u) ==> u.email == email
    ensures SelectedUserPoints(UserPointsOf(Removed(users, email))) == []
  {
    var rest := Removed(users, email);
    MarkersFollowUsers(rest);
    FilterDropsAll(rest, IsSelectedUser);
  }

  /** The props of one card: its React key, its user, and the email its delete
      callback deletes. */
  datatype CardProps = CardProps(key: string, user: User, deleteEmail: string)

  /** `user-${index}`: cards are keyed by list position, not by user. */
  function CardKey(index: nat): (k: string)
    ensures |k| >= 6 && k[..5] == "user-" && k[5..] == NatToString(index)
  {
    "user-" + NatToString(index)
  }

  /** The card list: one card per user, in collection order, keyed by position, and
      deleting that user's email. */
  function UserCards(users: seq<User>): (r: seq<CardProps>)
    ensures |r| == |users|
    ensures forall i :: 0 <= i < |users| ==>
      r[i].key == CardKey(i) && r[i].user == users[i] && r[i].deleteEmail == users[i].email
  {
    seq(|users|, i requires 0 <= i < |users| => CardProps(CardKey(i), users[i], users[i].email))
  }

  /** Different positions get different keys, so the keys identify positions. */
  lemma CardKeysDistinct(i: nat, j: nat)
    requires i != j
    ensures CardKey(i) != CardKey(j)
  {
    if CardKey(i) == CardKey(j) {
      assert CardKey(i)[5..] == NatToString(i);
      assert CardKey(j)[5..] == NatToString(j);
      NatToStringInjective(i, j);
    }
  }

  /** Each card deletes its own user's email, and the card at a position keeps its key
      when a user before it is deleted: it then shows the next user, and its per-card
      state (hover flags, timers) stays with the position, not with the user. */
  lemma CardsAfterDelete(users: seq<User>, k: nat, i: nat)
    requires UniqueEmails(users) && k <= i && i + 1 < |users|
    ensures |UserCards(users)| == |users|
    ensures |Removed(users, users[k].email)| == |users| - 1
    ensures UserCards(users)[i].deleteEmail == users[i].email
    ensures UserCards(Removed(users, users[k].email))[i].key == UserCards(users)[i].key
    ensures UserCards(Removed(users, users[k].email))[i].user == users[i + 1]
  {
    RemoveUniqueAt(users, k);
    assert Removed(users, users[k].email)[i] == users[i + 1];
  }

  /** The load effect's guard: a non-empty fetch result and an empty collection. */
  predicate ShouldStoreFetched(fetched: Option<seq<User>>, current: seq<User>): (r: bool)
    ensures r <==> fetched.Some? && fetched.value != [] && current == []
  {
    fetched.Some? && |fetched.value| > 0 && |current| < 1
  }

  /** The load effect stores the fetched users only into an empty collection; a
      missing or empty result, or a collection that already holds users, changes
      nothing. */
  method LoadFetchedUsers(store: UsersProvider, fetched: Option<seq<User>>)
    modifies store
    ensures ShouldStoreFetched(fetched, old(store.users)) ==> store.users == fetched.value
    ensures !ShouldStoreFetched(fetched, old(store.users)) ==> store.users == old(store.users)
    ensures |old(store.users)| > 0 ==> store.users == old(store.users)
    ensures store.selectedUsers == old(store.selectedUsers)
  {
    if ShouldStoreFetched(fetched, store.users) {
      store.SetUsers(fetched.value);
    }
  }

  /** The error effect: a failed fetch raises one error notice. */
  function LoadErrorNotice(isError: bool): (r: Option<Notice>)
    ensures r.Some? <==> isError
    ensures r.Some? ==> r.value.variant == ErrorVariant
  {
    if isError then Some(Notice(LoadErrorMessage, ErrorVariant)) else None
  }

  /** The markers effect: the view's markers become the projection of the users. */
  method ProjectUserPoints(store: UsersProvider, view: MapProvider)
    modifies view
    ensures view.userPoints == UserPointsOf(store.users)
    ensures view.zoom == old(view.zoom) && view.center == old(view.center)
    ensures view.surface == old(view.surface)
  {
    view.SetUserPoints(UserPointsOf(store.users));
  }

  /** The grid handlers' body: when some user is selected, clear the selection and
      zoom out; the centre is never touched. */
  method EscapeSelection(store: UsersProvider, view: MapProvider)
    modifies store, view
    ensures |old(store.selectedUsers)| > 0 ==>
      store.users == Selecting(old(store.users), None) && store.selectedUsers == [] &&
      view.zoom == OverviewZoom
    ensures |old(store.selectedUsers)| == 0 ==>
      store.users == old(store.users) && store.selectedUsers == old(store.selectedUsers) &&
      view.zoom == old(view.zoom)
    ensures view.center == old(view.center)
    ensures view.userPoints == old(view.userPoints) && view.surface == old(view.surface)
  {
    if |store.selectedUsers| > 0 {
      store.SetUserSelected(None);
      NothingSelectedAfterClear(old(store.users));
      view.SetZoom(OverviewZoom);
    }
  }

  /** Pointer enters the card grid. */
  method GridMouseEnter(store: UsersProvider, view: MapProvider)
    modifies store, view
    ensures |old(store.selectedUsers)| > 0 ==>
      store.users == Selecting(old(store.users), None) && store.selectedUsers == [] &&
      view.zoom == OverviewZoom
    ensures |old(store.selectedUsers)| == 0 ==>
      store.users == old(store.users) && store.selectedUsers == old(store.selectedUsers) &&
      view.zoom == old(view.zoom)
    ensures view.center == old(view.center)
    ensures view.userPoints == old(view.userPoints) && view.surface == old(view.surface)
  {
    EscapeSelection(store, view);
  }

  /** Pointer leaves the card grid. */
  method GridMouseLeave(store: UsersProvider, view: MapProvider)
    modifies store, view
    ensures |old(store.selectedUsers)| > 0 ==>
      store.users == Selecting(old(store.users), None) && store.selectedUsers == [] &&
      view.zoom == OverviewZoom
    ensures |old(store.selectedUsers)| == 0 ==>
      store.users == old(store.users) && store.selectedUsers == old(store.selectedUsers) &&
      view.zoom == old(view.zoom)
    ensures view.center == old(view.center)
    ensures view.userPoints == old(view.userPoints) && view.surface == old(view.surface)
  {
    EscapeSelection(store, view);
  }

  /** A quick pass over a card still selects its user: the pointer enters at 0 ms and
      leaves at 50 ms; the deselect timer fires at 150 ms and finds nothing selected,
      and the select timer, which leaving does not cancel, fires at 600 ms. */
  method PassOverSelects(a: User) returns (selected: seq<User>, zoom: int, center: Coordinate)
    requires !Truthy(a.isSelected)
    ensures selected == [a.(isSelected := Some(true))]
    ensures zoom == FocusedZoom && center == PositionOf(a)
  {
    var store := new UsersProvider();
    var view := new MapProvider();
    store.SetUsers([a]);
    var card := new Card.Mount(a, store.selectedUsers);
    card.MouseEnter(0);
    card.MouseLeave(50);
    assert card.leaveTimer == Armed(150) && card.enterTimer == Armed(600);
    card.FireLeaveTimer(store, view);
    assert store.users == [a] && store.selectedUsers == [];
    card.FireEnterTimer(store, view);
    assert Selecting([a], Some(a.email))[0] == a.(isSelected := Some(true));
    selected, zoom, center := store.selectedUsers, view.zoom, view.center;
  }

  /** Hovering a card past 600 ms selects it; leaving the selected card then arms no
      deselect timer, because that timer is armed only for an unselected user, and
      re-entering does not reselect. The selection and the focused zoom stay until the
      pointer leaves the card grid, which clears the selection and zooms out without
      moving the centre. */
  method HoverThenLeaveGrid(a: User, b: User)
    returns (selectedAfterLeave: seq<User>, zoomAfterLeave: int,
             selectedAfterGrid: seq<User>, zoomAfterGrid: int, centerAfterGrid: Coordinate)
    requires !Truthy(a.isSelected) && !Truthy(b.isSelected) && a.email != b.email
    ensures selectedAfterLeave == [a.(isSelected := Some(true))] && zoomAfterLeave == FocusedZoom
    ensures selectedAfterGrid == [] && zoomAfterGrid == OverviewZoom
    ensures centerAfterGrid == PositionOf(a)
  {
    var store := new UsersProvider();
    var view := new MapProvider();
    store.SetUsers([a, b]);
    var card := new Card.Mount(a, store.selectedUsers);
    card.MouseEnter(0);
    card.FireEnterTimer(store, view);
    var a' := a.(isSelected := Some(true));
    assert store.users == [a', b.(isSelected := Some(false))];
    var b' := b.(isSelected := Some(false));
    assert [a', b'][1..] == [b'] && [b'][1..] == [];
    assert Filter([b'], IsSelectedUser) == [];
    assert store.selectedUsers == [a'];
    card.StoreChanged(600, store.users[0], store.selectedUsers);
    card.MouseLeave(700);
    assert card.leaveTimer == Idle;
    card.MouseEnter(750);
    card.FireEnterTimer(store, view);
    assert HasEmail(card.selectedUsers, a.email);
    selectedAfterLeave, zoomAfterLeave := store.selectedUsers, view.zoom;
    GridMouseLeave(store, view);
    selectedAfterGrid, zoomAfterGrid, centerAfterGrid := store.selectedUsers, view.zoom, view.center;
  }

  /** Deleting every user empties the collection, so the load effect stores the
      cached fetch result again, with every flag as fetched, while `selectedUsers`
      still holds the user selected before: the store is no longer consistent. */
  method ReloadAfterDeletingAll(a: User) returns (users: seq<User>, selected: seq<User>)
    requires !Truthy(a.isSelected)
    ensures users == [a] && selected == [a.(isSelected := Some(true))]
    ensures !SelectionConsistent(users, selected)
  {
    var store := new UsersProvider();
    store.SetUsers([a]);
    store.SetUserSelected(Some(a.email));
    var a' := a.(isSelected := Some(true));
    assert store.users == [a'];
    assert store.selectedUsers == [a'];
    store.DeleteUser(a.email);
    assert store.users == [];
    LoadFetchedUsers(store, Some([a]));
    users, selected := store.users, store.selectedUsers;
    assert a in users && !IsSelectedUser(a) && selected[0].email == a.email;
  }
}
