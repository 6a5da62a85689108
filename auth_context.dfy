/** Signing in against the built-in accounts, and the session kept in the browser's storage. */
module AuthContext {
  import opened Wrappers
  import opened Domain

  /** A built-in account: a user together with the password that signs them in. */
  datatype MockUser = MockUser(user: User, password: string)

  const MockUsers: seq<MockUser> := [
    MockUser(User("1", "Иван Петров", ChiefLogistician, "chief@logistics.com"), "chief123"),
    MockUser(User("2", "Мария Сидорова", Logistician, "maria@logistics.com"), "maria123"),
    MockUser(User("3", "Алексей Козлов", Logistician, "alex@logistics.com"), "alex123")
  ]

  predicate Matches(m: MockUser, email: string, password: string)
  {
    m.user.email == email && m.password == password
  }

  /** `mockUsers.find(...)`: the first account whose e-mail and password both match, if any. */
  function Find(accounts: seq<MockUser>, email: string, password: string): (found: Option<MockUser>)
    ensures found.None? <==> forall i :: 0 <= i < |accounts| ==> !Matches(accounts[i], email, password)
    ensures found.Some? ==> found.value in accounts && Matches(found.value, email, password)
    decreases |accounts|
  {
    if accounts == [] then None
    else if Matches(accounts[0], email, password) then Some(accounts[0])
    else Find(accounts[1..], email, password)
  }

  /** The account found is the first that matches: any earlier one does not. */
  lemma {:induction false} FindIsFirst(accounts: seq<MockUser>, email: string, password: string, i: int)
    requires 0 <= i < |accounts| && Matches(accounts[i], email, password)
    requires forall j :: 0 <= j < i ==> !Matches(accounts[j], email, password)
    ensures Find(accounts, email, password) == Some(accounts[i])
    decreases i
  {
    if i > 0 {
      assert !Matches(accounts[0], email, password);
      FindIsFirst(accounts[1..], email, password, i - 1);
    }
  }

  /** Each built-in account signs in with its own e-mail and password, and as itself. */
  lemma EveryMockUserSignsIn(k: int)
    requires 0 <= k < |MockUsers|
    ensures Find(MockUsers, MockUsers[k].user.email, MockUsers[k].password) == Some(MockUsers[k])
  {
    forall j | 0 <= j < k
      ensures !Matches(MockUsers[j], MockUsers[k].user.email, MockUsers[k].password)
    {
      assert MockUsers[j].user.email != MockUsers[k].user.email;
    }
    FindIsFirst(MockUsers, MockUsers[k].user.email, MockUsers[k].password, k);
  }

  /** A right e-mail with a wrong password signs nobody in. */
  lemma WrongPasswordFails(k: int, password: string)
    requires 0 <= k < |MockUsers| && password != MockUsers[k].password
    ensures Find(MockUsers, MockUsers[k].user.email, password).None?
  {
    forall i | 0 <= i < |MockUsers|
      ensures !Matches(MockUsers[i], MockUsers[k].user.email, password)
    {
      if i != k {
        assert MockUsers[i].user.email != MockUsers[k].user.email;
      }
    }
  }

  /** The "logistics_user" entry of the browser's local storage: the signed-in user, if one is saved. */
  class SessionStore {
    var saved: Option<User>

    constructor(saved: Option<User>)
      ensures this.saved == saved
    {
      this.saved := saved;
    }
  }

  /** The provider's state: the signed-in user and whether the saved session is still to be read. */
  class AuthProvider {
    const store: SessionStore
    var user: Option<User>
    var isLoading: bool

    /** Before its first effect runs: nobody signed in, still loading. */
    constructor(store: SessionStore)
      ensures this.store == store
      ensures user.None? && isLoading
    {
      this.store := store;
      user := None;
      isLoading := true;
    }

    /** The mount effect: the saved user, when there is one, becomes the signed-in user; loading ends either way. */
    method RestoreSession()
      modifies this`user, this`isLoading
      ensures !isLoading
      ensures user == if store.saved.Some? then store.saved else old(user)
    {
      if store.saved.Some? {
        user := store.saved;
      }
      isLoading := false;
    }

    /**
     * `login`: with matching credentials the first matching account, without its password, becomes the
     * signed-in user and is saved; otherwise nothing changes.
     */
    method Login(email: string, password: string) returns (ok: bool)
      modifies this`user, store`saved
      ensures ok <==> Find(MockUsers, email, password).Some?
      ensures ok ==> user == Some(Find(MockUsers, email, password).value.user) && store.saved == user
      ensures !ok ==> user == old(user) && store.saved == old(store.saved)
    {
      var found := Find(MockUsers, email, password);
      if found.None? {
        return false;
      }
      user := Some(found.value.user);
      store.saved := user;
      return true;
    }

    /** `logout`: nobody is signed in and the saved session is removed. */
    method Logout()
      modifies this`user, store`saved
      ensures user.None? && store.saved.None?
    {
      user := None;
      store.saved := None;
    }
  }

  /**
   * A session survives a reload: after a successful sign-in, a new provider over the same storage restores
   * the same user.
   */
  method ReloadAfterLogin(store: SessionStore, email: string, password: string) returns (before: Option<User>, after: Option<User>)
    modifies store
    ensures before.Some? <==> Find(MockUsers, email, password).Some?
    ensures before.Some? ==> after == before
  {
    var first := new AuthProvider(store);
    var ok := first.Login(email, password);
    before := if ok then first.user else None;
    var second := new AuthProvider(store);
    second.RestoreSession();
    after := second.user;
  }

  /** After signing out, a reload finds no session. */
  method ReloadAfterLogout(store: SessionStore) returns (after: Option<User>)
    modifies store
    ensures after.None?
  {
    var first := new AuthProvider(store);
    first.Logout();
    var second := new AuthProvider(store);
    second.RestoreSession();
    after := second.user;
  }
}
