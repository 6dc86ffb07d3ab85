/** The users store: the collection of users and the derived list of selected
    users, with the four operations the rest of the application changes them by.
    Every operation builds a new list with `map`/`filter` and replaces the state. */
module UsersContext {
  import opened Types
  import opened Arrays

  /** The filter behind `selectedUsers`: a user whose flag is truthy. */
  function IsSelectedUser(u: User): bool {
    Truthy(u.isSelected)
  }

  /** The users whose flag is truthy, in collection order. */
  function SelectedOf(users: seq<User>): seq<User> {
    Filter(users, IsSelectedUser)
  }

  function SameEmail(email: string): User -> bool {
    (u: User) => u.email == email
  }

  function OtherEmail(email: string): User -> bool {
    (u: User) => u.email != email
  }

  /** What `updateUser`'s `map` callback returns for one user: a matching user becomes
      `newValue`, any other user is returned as it is. */
  function Replace(email: string, newValue: User, u: User): (r: User)
    ensures u.email == email ==> r == newValue
    ensures u.email != email ==> r == u
  {
    if u.email == email then newValue else u
  }

  /** `updateUser`'s `map` callback. */
  function Replacing(email: string, newValue: User): User -> User {
    (u: User) => Replace(email, newValue, u)
  }

  /** What `setUserSelected`'s `map` callback returns for one user: a copy whose flag
      is written, true exactly when its email is the given one (`null` matches nobody). */
  function Flag(email: Option<string>, u: User): (r: User)
    ensures Unflagged(r) == Unflagged(u) && r.isSelected.Some?
    ensures IsSelectedUser(r) <==> email == Some(u.email)
  {
    u.(isSelected := Some(email.Some? && u.email == email.value))
  }

  /** `setUserSelected`'s `map` callback. */
  function Flagging(email: Option<string>): User -> User {
    (u: User) => Flag(email, u)
  }

  /** The collection `updateUser(email, newValue)` stores: same length and order;
      exactly the users with the email become the new value, the others stay. */
  function Updated(users: seq<User>, email: string, newValue: User): (r: seq<User>)
    ensures |r| == |users|
    ensures forall i :: 0 <= i < |users| && users[i].email == email ==> r[i] == newValue
    ensures forall i :: 0 <= i < |users| && users[i].email != email ==> r[i] == users[i]
  {
    Map(users, Replacing(email, newValue))
  }

  /** The collection `setUserSelected(email)` stores: same length and order, every
      field other than the flag kept, and the flag written on every user, true
      exactly on the users with that email; `setUserSelected(null)` clears every flag. */
  function Selecting(users: seq<User>, email: Option<string>): (r: seq<User>)
    ensures |r| == |users|
    ensures forall i :: 0 <= i < |users| ==> Unflagged(r[i]) == Unflagged(users[i]) && r[i].isSelected.Some?
    ensures forall i :: 0 <= i < |users| ==> (IsSelectedUser(r[i]) <==> email == Some(users[i].email))
  {
    Map(users, Flagging(email))
  }

  /** The collection `deleteUser(email)` stores: no longer than before, and holding
      exactly the users whose email differs. */
  function Removed(users: seq<User>, email: string): (r: seq<User>)
    ensures |r| <= |users|
    ensures forall u :: u in r <==> u in users && u.email != email
  {
    Filter(users, OtherEmail(email))
  }

  /** A user with its selection flag erased: everything `setUserSelected` must keep. */
  function Unflagged(u: User): User {
    u.(isSelected := None)
  }

  /** `updateUser` with an email nobody has leaves the collection as it was. */
  lemma UpdateWithoutMatch(users: seq<User>, email: string, newValue: User)
    requires !HasEmail(users, email)
    ensures Updated(users, email, newValue) == users
  {
    forall i | 0 <= i < |users| ensures Updated(users, email, newValue)[i] == users[i] {
      assert users[i].email != email;
    }
  }

  /** Deleting an email after updating its users to a value that keeps the email
      gives the same collection as deleting it straight away. */
  lemma {:induction false} UpdateThenRemove(users: seq<User>, email: string, newValue: User)
    requires newValue.email == email
    ensures Removed(Updated(users, email, newValue), email) == Removed(users, email)
  {
    if users != [] {
      var up := Updated(users, email, newValue);
      assert up[1..] == Updated(users[1..], email, newValue);
      UpdateThenRemove(users[1..], email, newValue);
    }
  }

  /** After `setUserSelected(email)`, the selected users are the users with that email,
      flagged, in collection order. */
  lemma SelectedAfterSelecting(users: seq<User>, email: string)
    ensures SelectedOf(Selecting(users, Some(email)))
         == Map(Filter(users, SameEmail(email)), Flagging(Some(email)))
  {
    MapFilter(users, Flagging(Some(email)), IsSelectedUser, SameEmail(email));
  }

  /** After `setUserSelected(null)` nobody is selected. */
  lemma NothingSelectedAfterClear(users: seq<User>)
    ensures SelectedOf(Selecting(users, None)) == []
  {
    FilterDropsAll(Selecting(users, None), IsSelectedUser);
  }

  /** In a collection whose emails are unique, an email matches one user if present
      and none otherwise. */
  lemma {:induction false} UniqueEmailMatches(users: seq<User>, email: string)
    requires UniqueEmails(users)
    ensures |Filter(users, SameEmail(email))| == if HasEmail(users, email) then 1 else 0
  {
    if users != [] {
      var rest := users[1..];
      assert UniqueEmails(rest) by {
        forall i, j | 0 <= i < j < |rest| ensures rest[i].email != rest[j].email {
          assert rest[i] == users[i + 1] && rest[j] == users[j + 1];
        }
      }
      UniqueEmailMatches(rest, email);
      if users[0].email == email {
        assert !HasEmail(rest, email) by {
          forall i | 0 <= i < |rest| ensures rest[i].email != email {
            assert rest[i] == users[i + 1];
          }
        }
      } else {
        assert HasEmail(users, email) <==> HasEmail(rest, email) by {
          if HasEmail(users, email) {
            var i :| 0 <= i < |users| && users[i].email == email;
            assert rest[i - 1] == users[i];
          }
          if HasEmail(rest, email) {
            var i :| 0 <= i < |rest| && rest[i].email == email;
            assert users[i + 1] == rest[i];
          }
        }
      }
    }
  }

  /** With unique emails, `setUserSelected(email)` leaves exactly one user selected
      when the email is present and none when it is not. */
  lemma AtMostOneSelected(users: seq<User>, email: string)
    requires UniqueEmails(users)
    ensures |SelectedOf(Selecting(users, Some(email)))| == if HasEmail(users, email) then 1 else 0
  {
    SelectedAfterSelecting(users, email);
    UniqueEmailMatches(users, email);
  }

  /** Selecting the same email twice is the same as selecting it once. */
  lemma SelectingTwice(users: seq<User>, email: Option<string>)
    ensures Selecting(Selecting(users, email), email) == Selecting(users, email)
  {
  }

  /** `deleteUser(email)` keeps the users with other emails in their relative order,
      and what it drops is exactly the users with that email. */
  lemma RemovedSplits(users: seq<User>, email: string)
    ensures forall u :: u in Removed(users, email) ==> u.email != email
    ensures Interleaves(users, Removed(users, email), Filter(users, SameEmail(email)))
  {
    FilterPartition(users, OtherEmail(email), SameEmail(email));
  }

  /** `deleteUser` with an email nobody has leaves the collection as it was. */
  lemma RemoveWithoutMatch(users: seq<User>, email: string)
    requires !HasEmail(users, email)
    ensures Removed(users, email) == users
  {
    forall u | u in users ensures OtherEmail(email)(u) {
      var i :| 0 <= i < |users| && users[i] == u;
    }
    FilterKeepsAll(users, OtherEmail(email));
  }

  /** With unique emails, deleting the email of the user at position `k` removes that
      user alone: the users after it move up by one place. */
  lemma {:induction false} RemoveUniqueAt(users: seq<User>, k: nat)
    requires UniqueEmails(users) && k < |users|
    ensures Removed(users, users[k].email) == users[..k] + users[k + 1..]
  {
    var email, rest := users[k].email, users[1..];
    if k == 0 {
      RemoveUniqueFirst(users);
    } else {
      assert Removed(rest, email) == rest[..k - 1] + rest[k..] by {
        UniqueTail(users);
        assert rest[k - 1] == users[k];
        RemoveUniqueAt(rest, k - 1);
      }
      assert Removed(users, email) == [users[0]] + Removed(rest, email) by {
        assert users[0].email != email;
        RemovedKeepsHead(users, email);
      }
      assert users[..k] == [users[0]] + rest[..k - 1];
      assert users[k + 1..] == rest[k..];
    }
  }

  /** A first user with another email stays in front of what deleteUser keeps of the rest. */
  lemma RemovedKeepsHead(users: seq<User>, email: string)
    requires users != [] && users[0].email != email
    ensures Removed(users, email) == [users[0]] + Removed(users[1..], email)
  {
  }

  /** Dropping the first user keeps the emails unique. */
  lemma UniqueTail(users: seq<User>)
    requires UniqueEmails(users) && users != []
    ensures UniqueEmails(users[1..])
  {
    var rest := users[1..];
    forall i, j | 0 <= i < j < |rest| ensures rest[i].email != rest[j].email {
      assert rest[i] == users[i + 1] && rest[j] == users[j + 1];
    }
  }

  /** With unique emails, deleting the first user's email removes only the first user. */
  lemma RemoveUniqueFirst(users: seq<User>)
    requires UniqueEmails(users) && users != []
    ensures Removed(users, users[0].email) == users[1..]
  {
    var email := users[0].email;
    var rest := users[1..];
    forall u | u in rest ensures OtherEmail(email)(u) {
      var i :| 0 <= i < |rest| && rest[i] == u;
      assert u == users[i + 1];
    }
    FilterKeepsAll(rest, OtherEmail(email));
  }

  /** The selection the store holds agrees with the flags in the collection: a user is
      flagged exactly when its email is among the selected users. */
  ghost predicate SelectionConsistent(users: seq<User>, selected: seq<User>) {
    forall u :: u in users ==> (IsSelectedUser(u) <==> HasEmail(selected, u.email))
  }

  /** A freshly loaded collection without flags agrees with an empty selection. */
  lemma ConsistentAfterLoad(users: seq<User>)
    requires forall u :: u in users ==> !IsSelectedUser(u)
    ensures SelectionConsistent(users, [])
  {
  }

  /** `setUserSelected` leaves the store consistent, whatever it held before. */
  lemma ConsistentAfterSelecting(users: seq<User>, email: Option<string>)
    ensures SelectionConsistent(Selecting(users, email), SelectedOf(Selecting(users, email)))
  {
    var flagged := Selecting(users, email);
    var selected := SelectedOf(flagged);
    forall u | u in flagged ensures IsSelectedUser(u) <==> HasEmail(selected, u.email) {
      var i :| 0 <= i < |flagged| && flagged[i] == u;
      assert u.isSelected == Some(email == Some(u.email));
      if IsSelectedUser(u) {
        assert u in selected;
        var j :| 0 <= j < |selected| && selected[j] == u;
      }
      if HasEmail(selected, u.email) {
        var j :| 0 <= j < |selected| && selected[j].email == u.email;
        assert selected[j] in flagged && IsSelectedUser(selected[j]);
        var m :| 0 <= m < |flagged| && flagged[m] == selected[j];
      }
    }
  }

  /** `deleteUser` keeps the store consistent although it does not touch
      `selectedUsers`: the stale entries name emails no longer in the collection. */
  lemma ConsistentAfterRemove(users: seq<User>, selected: seq<User>, email: string)
    requires SelectionConsistent(users, selected)
    ensures SelectionConsistent(Removed(users, email), selected)
  {
  }

  /** `updateUser` keeps the store consistent when the new value keeps the email and
      a flag that agrees with the selection. */
  lemma ConsistentAfterUpdate(users: seq<User>, selected: seq<User>, email: string, newValue: User)
    requires SelectionConsistent(users, selected)
    requires newValue.email == email
    requires IsSelectedUser(newValue) <==> HasEmail(selected, email)
    ensures SelectionConsistent(Updated(users, email, newValue), selected)
  {
    var up := Updated(users, email, newValue);
    forall u | u in up ensures IsSelectedUser(u) <==> HasEmail(selected, u.email) {
      var i :| 0 <= i < |up| && up[i] == u;
      assert users[i] in users;
    }
  }

  /** Flagging one more user appends its flagged copy. */
  lemma FlaggingAppend(users: seq<User>, user: User, email: Option<string>)
    ensures Map(users + [user], Flagging(email)) == Map(users, Flagging(email)) + [Flag(email, user)]
  {
    MapAppend(users, [user], Flagging(email));
    assert Map([user], Flagging(email)) == [Flag(email, user)];
  }

  /** The loop inside `setUserSelected`: the `map` callback flags each user and pushes
      the ones it selects onto a local list. */
  method MarkSelection(users: seq<User>, email: Option<string>)
    returns (newUsers: seq<User>, newSelected: seq<User>)
    ensures newUsers == Selecting(users, email)
    ensures newSelected == SelectedOf(newUsers)
  {
    newUsers, newSelected := [], [];
    var i := 0;
    while i < |users|
      invariant 0 <= i <= |users|
      invariant newUsers == Map(users[..i], Flagging(email))
      invariant newSelected == SelectedOf(newUsers)
    {
      var user := users[i];
      var isSelected := email.Some? && user.email == email.value;
      var returned: User;
      if isSelected {
        returned := user.(isSelected := Some(true));
        newSelected := newSelected + [returned];
      } else {
        returned := user.(isSelected := Some(false));
      }
      assert returned == Flag(email, user) && IsSelectedUser(returned) == isSelected;
      FilterAppend(newUsers, returned, IsSelectedUser);
      assert users[..i + 1] == users[..i] + [user];
      FlaggingAppend(users[..i], user, email);
      newUsers := newUsers + [returned];
      i := i + 1;
    }
    assert users[..i] == users;
    assert newUsers == Selecting(users, email);
  }

  /** The store. `users` is the collection; `selectedUsers` is the list the last
      `setUserSelected` derived from it (no other operation touches it). */
  class UsersProvider {
    var users: seq<User>
    var selectedUsers: seq<User>

    /** Both lists start empty. */
    constructor ()
      ensures users == [] && selectedUsers == []
    {
      users := [];
      selectedUsers := [];
    }

    /** Replaces the whole collection, whatever it held; an empty list is accepted. */
    method SetUsers(newUsers: seq<User>)
      modifies this
      ensures users == newUsers
      ensures selectedUsers == old(selectedUsers)
    {
      users := newUsers;
    }

    /** Replaces every user with the email by `newValue`; `selectedUsers` is not touched. */
    method UpdateUser(userEmail: string, newValue: User)
      modifies this
      ensures users == Updated(old(users), userEmail, newValue)
      ensures selectedUsers == old(selectedUsers)
    {
      SetUsers(Updated(users, userEmail, newValue));
    }

    /** Flags exactly the users with the email (nobody for `None`, the `null` case) and
      stores the flagged users as `selectedUsers`. */
    method SetUserSelected(userEmail: Option<string>)
      modifies this
      ensures users == Selecting(old(users), userEmail)
      ensures selectedUsers == SelectedOf(users)
    {
      var newUsers, newSelected := MarkSelection(users, userEmail);
      SetUsers(newUsers);
      selectedUsers := newSelected;
    }

    /** Drops every user with the email; `selectedUsers` is not touched, so it may
      still hold a user that was just deleted. */
    method DeleteUser(userEmail: string)
      modifies this
      ensures users == Removed(old(users), userEmail)
      ensures selectedUsers == old(selectedUsers)
    {
      SetUsers(Removed(users, userEmail));
    }
  }
}
