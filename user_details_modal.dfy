/** The details dialog of a card: it shows the user, switches between view and edit
    mode, and on Save either rejects blank fields or writes the edited first name,
    last name and phone back to the store. */
module UserDetailsModal {
  import opened Types
  import opened Text
  import opened UsersContext

  const EmptyFieldsMessage: string := "Fields can not be empty!"
  const SavedMessage: string := "Changes saved!"

  /** A field counts as empty when it trims to the empty string. */
  predicate IsBlank(s: string) {
    Trim(s) == ""
  }

  /** The check Save makes before writing anything. */
  predicate HasBlankField(first: string, last: string, phone: string) {
    IsBlank(first) || IsBlank(last) || IsBlank(phone)
  }

  /** Save rejects exactly the forms in which some field is nothing but white space. */
  lemma BlankFieldIsWhiteSpace(first: string, last: string, phone: string)
    ensures HasBlankField(first, last, phone) <==>
      AllWhiteSpace(first) || AllWhiteSpace(last) || AllWhiteSpace(phone)
  {
    TrimEmpty(first);
    TrimEmpty(last);
    TrimEmpty(phone);
  }

  /** The record Save writes: the user with the edited first name, last name and phone,
      taken as typed (untrimmed); the title and every other field are the user's. */
  function Patched(user: User, first: string, last: string, phone: string): (r: User)
    ensures r.name.title == user.name.title
    ensures r.name.first == first && r.name.last == last && r.phone == phone
    ensures r.(name := user.name, phone := user.phone) == user
  {
    user.(name := Name(user.name.title, first, last), phone := phone)
  }

  /** Saving the fields as the dialog opened them writes back the user unchanged. */
  lemma PatchWithOwnFields(user: User)
    ensures Patched(user, user.name.first, user.name.last, user.phone) == user
  {
  }

  /** Saving keeps the store's selection consistent: the written record keeps the
      email and the selection flag of the user it replaces. */
  lemma SaveKeepsSelectionConsistent(
    users: seq<User>, selected: seq<User>, user: User, first: string, last: string, phone: string)
    requires SelectionConsistent(users, selected) && user in users
    ensures SelectionConsistent(Updated(users, user.email, Patched(user, first, last, phone)), selected)
  {
    ConsistentAfterUpdate(users, selected, user.email, Patched(user, first, last, phone));
  }

  /** The caption of the action button. */
  function ActionLabel(isEditModeDisabled: bool): (r: string)
    ensures r == "Edit" <==> isEditModeDisabled
    ensures r == "Save" <==> !isEditModeDisabled
  {
    if isEditModeDisabled then "Edit" else "Save"
  }

  /** `${title} ${first} ${last}`. */
  function ModalFullName(user: User): (r: string)
    ensures |r| == |user.name.title| + |user.name.first| + |user.name.last| + 2
    ensures r[..|user.name.title| + 1] == user.name.title + " "
    ensures r[|user.name.title| + 1..|user.name.title| + 1 + |user.name.first|] == user.name.first
    ensures r[|r| - |user.name.last| - 1..] == " " + user.name.last
  {
    user.name.title + " " + user.name.first + " " + user.name.last
  }

  /** `first.charAt(0)`: the first character, or "" for an empty first name. */
  function UserChar(user: User): (r: string)
    ensures r == [] <==> user.name.first == []
    ensures r != [] ==> r == [user.name.first[0]]
  {
    if user.name.first == [] then [] else [user.name.first[0]]
  }

  class DetailsModal {
    /** The user the dialog was given (it follows the card's props). */
    var user: User
    var isEditModeDisabled: bool
    var userFirstName: string
    var userLastName: string
    var userPhone: string

    /** Opens in view mode with the fields taken from the user. */
    constructor Open(user: User)
      ensures this.user == user && isEditModeDisabled
      ensures userFirstName == user.name.first && userLastName == user.name.last
      ensures userPhone == user.phone
    {
      this.user := user;
      isEditModeDisabled := true;
      userFirstName := user.name.first;
      userLastName := user.name.last;
      userPhone := user.phone;
    }

    /** New props: the fields keep what they hold (they are initialised only once). */
    method ReceiveUser(newUser: User)
      modifies this`user
      ensures user == newUser
    {
      user := newUser;
    }

    /** The Edit button switches to edit mode. */
    method ClickEdit()
      modifies this`isEditModeDisabled
      ensures !isEditModeDisabled
    {
      isEditModeDisabled := false;
    }

    method ChangeFirstName(value: string)
      modifies this`userFirstName
      ensures userFirstName == value
    {
      userFirstName := value;
    }

    method ChangeLastName(value: string)
      modifies this`userLastName
      ensures userLastName == value
    {
      userLastName := value;
    }

    method ChangePhone(value: string)
      modifies this`userPhone
      ensures userPhone == value
    {
      userPhone := value;
    }

    /** Save returns to view mode in every case. With a blank field it only reports an
        error; otherwise it updates the user's email with the patched record and reports
        success. `selectedUsers` is never touched. */
    method Save(store: UsersProvider) returns (notice: Notice)
      modifies this`isEditModeDisabled, store
      ensures isEditModeDisabled
      ensures HasBlankField(userFirstName, userLastName, userPhone) ==>
        store.users == old(store.users) && notice == Notice(EmptyFieldsMessage, ErrorVariant)
      ensures !HasBlankField(userFirstName, userLastName, userPhone) ==>
        store.users == Updated(old(store.users), user.email, Patched(user, userFirstName, userLastName, userPhone)) &&
        notice == Notice(SavedMessage, SuccessVariant)
      ensures store.selectedUsers == old(store.selectedUsers)
    {
      isEditModeDisabled := true;
      if HasBlankField(userFirstName, userLastName, userPhone) {
        notice := Notice(EmptyFieldsMessage, ErrorVariant);
      } else {
        var updated := Patched(user, userFirstName, userLastName, userPhone);
        store.UpdateUser(user.email, updated);
        notice := Notice(SavedMessage, SuccessVariant);
      }
    }
  }
}
