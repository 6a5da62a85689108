/** User management: creating and deleting accounts, and the gate that keeps it to the chief. */
module UserManagement {
  import opened Seqs
  import opened Domain
  import MainLayout

  /** The create dialog's fields. */
  datatype NewUserForm = NewUserForm(name: string, email: string, role: Role, password: string)

  /** The dialog as it starts and as a successful create leaves it. */
  const EmptyForm: NewUserForm := NewUserForm("", "", Logistician, "")

  /** The accounts the component starts with. */
  const InitialUsers: seq<User> := [
    User("1", "Иван Петров", ChiefLogistician, "chief@logistics.com"),
    User("2", "Мария Сидорова", Logistician, "maria@logistics.com"),
    User("3", "Алексей Козлов", Logistician, "alex@logistics.com")
  ]

  predicate HasOtherId(id: string, u: User) { u.id != id }

  /** `prev.filter((user) => user.id !== userId)`: every account with that id goes, the rest keep their order. */
  function WithoutId(users: seq<User>, id: string): (r: seq<User>)
    ensures forall i :: 0 <= i < |r| ==> r[i].id != id && r[i] in users
    ensures forall i :: 0 <= i < |users| && users[i].id != id ==> users[i] in r
    ensures IsSubsequence(r, users)
  {
    Filter(u => HasOtherId(id, u), users)
  }

  /** Deleting an id no account has changes nothing. */
  lemma WithoutUnknownId(users: seq<User>, id: string)
    requires forall i :: 0 <= i < |users| ==> users[i].id != id
    ensures WithoutId(users, id) == users
  {
    FilterKeepsAll(u => HasOtherId(id, u), users);
  }

  /** A newly created account is gone again after deleting its id, provided the id was fresh. */
  lemma DeleteUndoesCreate(users: seq<User>, u: User)
    requires forall i :: 0 <= i < |users| ==> users[i].id != u.id
    ensures WithoutId(users + [u], u.id) == users
  {
    FilterConcat(x => HasOtherId(u.id, x), users, [u]);
    WithoutUnknownId(users, u.id);
  }

  /** One row of the user list. */
  datatype UserRow = UserRow(user: User, initials: string, deletable: bool)

  /**
   * The list rows: every account in order, with its avatar initials, and with the delete action on every row
   * except the current user's own.
   */
  function Rows(users: seq<User>, current: User): (rows: seq<UserRow>)
    ensures |rows| == |users|
    ensures forall i :: 0 <= i < |users| ==> rows[i].user == users[i]
    ensures forall i :: 0 <= i < |users| ==> rows[i].initials == MainLayout.Initials(users[i].name)
    ensures forall i :: 0 <= i < |users| ==> (rows[i].deletable <==> users[i].id != current.id)
  {
    seq(|users|, i requires 0 <= i < |users| => UserRow(users[i], MainLayout.Initials(users[i].name), users[i].id != current.id))
  }

  datatype View = AccessDenied | UserList(rows: seq<UserRow>)

  /** Only the chief gets the user list; anyone else gets the access-denied card. */
  function Render(current: User, users: seq<User>): (v: View)
    ensures v.AccessDenied? <==> current.role != ChiefLogistician
    ensures v.UserList? ==> v.rows == Rows(users, current)
  {
    if current.role != ChiefLogistician then AccessDenied else UserList(Rows(users, current))
  }

  /** From a row of the rendered list, the current user can never be offered the deletion of their own account. */
  lemma NoSelfDeleteOffered(current: User, users: seq<User>, i: int)
    requires Render(current, users).UserList? && 0 <= i < |Render(current, users).rows|
    requires Render(current, users).rows[i].deletable
    ensures Render(current, users).rows[i].user.id != current.id
  {
  }

  /** The component's state. */
  class UserManagementState {
    const currentUser: User
    var users: seq<User>
    var newUser: NewUserForm
    var isCreateDialogOpen: bool

    constructor(currentUser: User)
      ensures this.currentUser == currentUser
      ensures users == InitialUsers && newUser == EmptyForm && !isCreateDialogOpen
    {
      this.currentUser := currentUser;
      users := InitialUsers;
      newUser := EmptyForm;
      isCreateDialogOpen := false;
    }

    /**
     * `handleCreateUser`: with name, e-mail and password all filled, appends one account (the fresh id, the
     * entered name, e-mail and role, no password) and resets the dialog; otherwise nothing changes.
     */
    method HandleCreateUser(freshId: string) returns (created: bool)
      modifies this
      ensures created <==> old(newUser).name != "" && old(newUser).email != "" && old(newUser).password != ""
      ensures created ==> users == old(users) + [User(freshId, old(newUser).name, old(newUser).role, old(newUser).email)]
      ensures created ==> newUser == EmptyForm && !isCreateDialogOpen
      ensures !created ==> users == old(users) && newUser == old(newUser) && isCreateDialogOpen == old(isCreateDialogOpen)
    {
      if newUser.name == "" || newUser.email == "" || newUser.password == "" {
        return false;
      }
      var user := User(freshId, newUser.name, newUser.role, newUser.email);
      users := users + [user];
      newUser := EmptyForm;
      isCreateDialogOpen := false;
      return true;
    }

    /** `handleDeleteUser`: one's own id is refused and nothing changes; any other id removes every account with it. */
    method HandleDeleteUser(userId: string) returns (deleted: bool)
      modifies this`users
      ensures deleted <==> userId != currentUser.id
      ensures users == if deleted then WithoutId(old(users), userId) else old(users)
      ensures forall i :: 0 <= i < |old(users)| && old(users)[i].id == currentUser.id ==> old(users)[i] in users
    {
      if userId == currentUser.id {
        return false;
      }
      users := WithoutId(users, userId);
      return true;
    }
  }
}
