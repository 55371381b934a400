/** The session store (src/store/authStore.ts): sign-in against a fixed
    table of demonstration accounts, sign-out, and the dark-mode flag. */
module Auth {
  import opened Text
  import opened Domain

  /** A table entry: the user record and its password. */
  datatype Account = Account(user: User, password: string)

  function AvatarFor(seed: string): Option<string>
  {
    Some("https://api.dicebear.com/7.x/avataaars/svg?seed=" + seed)
  }

  /** `mockUsers`, keyed by user name. */
  function MockUsers(): map<string, Account>
  {
    map[
      "admin" := Account(User("1", "admin", DistributorHead, "John Anderson", "john@iphone-distributor.com",
                              AvatarFor("John"), None, None), "admin123"),
      "store" := Account(User("2", "store", StoreIncharge, "Sarah Chen", "sarah@store.com",
                              AvatarFor("Sarah"), None, None), "store123"),
      "sales" := Account(User("3", "sales", Salesperson, "Mike Wilson", "mike@sales.com",
                              AvatarFor("Mike"), None, None), "sales123")
    ]
  }

  /** The table holds exactly three accounts, each under its own user name. */
  lemma MockUsersTable()
    ensures MockUsers().Keys == {"admin", "store", "sales"}
    ensures MockUsers()["admin"].password == "admin123"
    ensures MockUsers()["store"].password == "store123"
    ensures MockUsers()["sales"].password == "sales123"
    ensures forall name :: name in MockUsers() ==> MockUsers()[name].user.username == name
  {
  }

  /** The check of lines 53-54: the user record without its password when
      the name is in the table and the password is the stored one. */
  function Authenticate(username: string, password: string): (r: Option<User>)
    ensures r.Some? <==> username in MockUsers() && MockUsers()[username].password == password
    ensures r.Some? ==> r.value == MockUsers()[username].user && r.value.username == username
  {
    MockUsersTable();
    if username in MockUsers() && MockUsers()[username].password == password
    then Some(MockUsers()[username].user)
    else None
  }

  /** Exactly the three listed name and password pairs sign in. */
  lemma AuthenticateIff(username: string, password: string)
    ensures Authenticate(username, password).Some? <==>
      || (username == "admin" && password == "admin123")
      || (username == "store" && password == "store123")
      || (username == "sales" && password == "sales123")
  {
    MockUsersTable();
  }

  class AuthStore {
    var user: Option<User>
    var isAuthenticated: bool
    var isDarkMode: bool

    /** Signed in exactly when there is a user. */
    predicate Valid()
      reads this
    {
      isAuthenticated <==> user.Some?
    }

    /** Nobody is signed in and the light theme is on. */
    constructor()
      ensures Valid()
      ensures user == None && !isAuthenticated && !isDarkMode
    {
      user := None;
      isAuthenticated := false;
      isDarkMode := false;
    }

    /** `login`: on success the user is signed in and `true` returned; on
        failure nothing changes, so a session already open survives. */
    method Login(username: string, password: string) returns (ok: bool)
      modifies this
      ensures old(Valid()) ==> Valid()
      ensures ok <==> Authenticate(username, password).Some?
      ensures ok ==> user == Authenticate(username, password) && isAuthenticated
      ensures !ok ==> user == old(user) && isAuthenticated == old(isAuthenticated)
      ensures isDarkMode == old(isDarkMode)
    {
      var account := Authenticate(username, password);
      if account.Some? {
        user := account;
        isAuthenticated := true;
        return true;
      }
      return false;
    }

    /** `logout`: nobody is signed in; the theme stays. */
    method Logout()
      modifies this
      ensures Valid()
      ensures user == None && !isAuthenticated
      ensures isDarkMode == old(isDarkMode)
    {
      user := None;
      isAuthenticated := false;
    }

    /** `toggleTheme`: the theme flag flips; the session stays. */
    method ToggleTheme()
      modifies this
      ensures isDarkMode == !old(isDarkMode)
      ensures user == old(user) && isAuthenticated == old(isAuthenticated)
    {
      isDarkMode := !isDarkMode;
    }
  }

  /** Toggling the theme twice restores it. */
  method ToggleThemeTwice(store: AuthStore)
    modifies store
    ensures store.isDarkMode == old(store.isDarkMode)
    ensures store.user == old(store.user) && store.isAuthenticated == old(store.isAuthenticated)
  {
    store.ToggleTheme();
    store.ToggleTheme();
  }

  /** A failed attempt leaves a signed-in session as it was. */
  method BadAttemptKeepsSession(store: AuthStore, username: string, password: string)
    requires store.Valid() && store.isAuthenticated
    requires Authenticate(username, password).None?
    modifies store
    ensures store.Valid() && store.isAuthenticated && store.user == old(store.user)
  {
    var ok := store.Login(username, password);
  }
}
