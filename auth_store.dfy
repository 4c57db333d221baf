/**
 * The authentication store: who is signed in, the session token, the
 * loading flag and the last error, kept in step with the browser's local
 * storage under two keys. The mock API calls it awaits are parameters; the
 * user record is written to storage through `stringify` and read back
 * through `parse` (`None` when `JSON.parse` throws).
 */
module AuthStore {
  import opened Wrappers
  import FakeApi

  type User = FakeApi.User
  type AuthResponse = FakeApi.AuthResponse

  const StorageKey := "cse_auth_token"
  const UserStorageKey := "cse_user"

  const SignInFailed := "Sign in failed"
  const SignUpFailed := "Sign up failed"
  const NotAuthenticated := "Not authenticated"
  const ProfileUpdateFailed := "Profile update failed"

  /** Both storage keys are distinct, so writing one never overwrites the other. */
  lemma StorageKeysDiffer()
    ensures StorageKey != UserStorageKey
  {
    assert StorageKey[4] != UserStorageKey[4];
  }

  /** A string JavaScript treats as true: present and not empty. */
  predicate Truthy(s: Option<string>) {
    s.Some? && s.value != ""
  }

  /** `localStorage.getItem(key)`. */
  function GetItem(storage: map<string, string>, key: string): (r: Option<string>)
    ensures r.Some? <==> key in storage
    ensures r.Some? ==> r.value == storage[key]
  {
    if key in storage then Some(storage[key]) else None
  }

  /** The message a failed call leaves in `error`: the `Error`'s own, or the call's fallback. */
  function ErrorMessage(thrown: Option<string>, fallback: string): string {
    thrown.GetOr(fallback)
  }

  class Store {
    var user: Option<User>
    var token: Option<string>
    var isAuthenticated: bool
    var loading: bool
    var error: Option<string>
    /** The browser's local storage. */
    var storage: map<string, string>

    /**
     * What every action keeps: the store is authenticated exactly when it
     * holds a token, then also holds a user, and the token it holds is the
     * one in storage.
     */
    predicate Valid()
      reads this
    {
      (isAuthenticated <==> token.Some?) &&
      (isAuthenticated ==> user.Some?) &&
      (token.Some? ==> GetItem(storage, StorageKey) == token)
    }

    /** The store as created, over whatever storage the browser already has; nothing has been loaded yet. */
    constructor (initialStorage: map<string, string>)
      ensures user == None && token == None && !isAuthenticated && loading && error == None
      ensures storage == initialStorage
      ensures Valid()
    {
      user := None;
      token := None;
      isAuthenticated := false;
      loading := true;
      error := None;
      storage := initialStorage;
    }

    /**
     * `signIn(email, password)` from the call to its settled end, with the
     * mock call's outcome as `api(email, password)`. On success both keys
     * are written and the store is authenticated with the response; on
     * failure the error is set, the session is untouched and the rejection
     * is passed on.
     */
    method SignIn(email: string, password: string, api: (string, string) -> Outcome<AuthResponse>, stringify: User -> string)
      returns (r: Outcome<()>)
      requires Valid()
      modifies this
      ensures Valid() && !loading
      ensures api(email, password).Resolved? ==>
        var resp := api(email, password).value;
        r == Resolved(()) &&
        storage == old(storage)[StorageKey := resp.token][UserStorageKey := stringify(resp.user)] &&
        user == Some(resp.user) && token == Some(resp.token) && isAuthenticated && error == None
      ensures api(email, password).Threw? ==>
        var m := api(email, password).message;
        r == Threw(m) && error == Some(ErrorMessage(m, SignInFailed)) &&
        storage == old(storage) && user == old(user) && token == old(token) && isAuthenticated == old(isAuthenticated)
    {
      r := Settle(api(email, password), stringify, SignInFailed);
    }

    /** `signUp(name, email, password)`: as `signIn`, with the sign-up call and its own fallback message. */
    method SignUp(name: string, email: string, password: string,
                  api: (string, string, string) -> Outcome<AuthResponse>, stringify: User -> string)
      returns (r: Outcome<()>)
      requires Valid()
      modifies this
      ensures Valid() && !loading
      ensures api(name, email, password).Resolved? ==>
        var resp := api(name, email, password).value;
        r == Resolved(()) &&
        storage == old(storage)[StorageKey := resp.token][UserStorageKey := stringify(resp.user)] &&
        user == Some(resp.user) && token == Some(resp.token) && isAuthenticated && error == None
      ensures api(name, email, password).Threw? ==>
        var m := api(name, email, password).message;
        r == Threw(m) && error == Some(ErrorMessage(m, SignUpFailed)) &&
        storage == old(storage) && user == old(user) && token == old(token) && isAuthenticated == old(isAuthenticated)
    {
      r := Settle(api(name, email, password), stringify, SignUpFailed);
    }

    /** The shared body of `signIn` and `signUp` once the mock call has settled. */
    method Settle(outcome: Outcome<AuthResponse>, stringify: User -> string, fallback: string) returns (r: Outcome<()>)
      requires Valid()
      modifies this
      ensures Valid() && !loading
      ensures outcome.Resolved? ==>
        r == Resolved(()) &&
        storage == old(storage)[StorageKey := outcome.value.token][UserStorageKey := stringify(outcome.value.user)] &&
        user == Some(outcome.value.user) && token == Some(outcome.value.token) && isAuthenticated && error == None
      ensures outcome.Threw? ==>
        r == Threw(outcome.message) && error == Some(ErrorMessage(outcome.message, fallback)) &&
        storage == old(storage) && user == old(user) && token == old(token) && isAuthenticated == old(isAuthenticated)
    {
      loading := true;
      error := None;
      match outcome {
        case Resolved(resp) =>
          storage := storage[StorageKey := resp.token];
          storage := storage[UserStorageKey := stringify(resp.user)];
          user := Some(resp.user);
          token := Some(resp.token);
          isAuthenticated := true;
          loading := false;
          StorageKeysDiffer();
          r := Resolved(());
        case Threw(m) =>
          error := Some(ErrorMessage(m, fallback));
          loading := false;
          r := Threw(m);
      }
    }

    /** `signOut`: both keys are removed and the store is reset, with loading off. */
    method SignOut()
      requires Valid()
      modifies this
      ensures storage == old(storage) - {StorageKey, UserStorageKey}
      ensures user == None && token == None && !isAuthenticated && !loading && error == None
      ensures Valid()
    {
      storage := storage - {StorageKey, UserStorageKey};
      user := None;
      token := None;
      isAuthenticated := false;
      loading := false;
      error := None;
    }

    /**
     * `loadSession`: when both keys hold non-empty strings and the stored
     * user parses, the store is authenticated with them; otherwise only
     * loading goes off. The error and the storage are never touched.
     */
    method LoadSession(parse: string -> Option<User>)
      requires Valid()
      modifies this
      ensures storage == old(storage) && error == old(error) && !loading
      ensures var t := GetItem(storage, StorageKey); var u := GetItem(storage, UserStorageKey);
        if Truthy(t) && Truthy(u) && parse(u.value).Some? then
          user == parse(u.value) && token == t && isAuthenticated
        else
          user == old(user) && token == old(token) && isAuthenticated == old(isAuthenticated)
      ensures Valid()
    {
      var t := GetItem(storage, StorageKey);
      var u := GetItem(storage, UserStorageKey);
      if Truthy(t) && Truthy(u) {
        match parse(u.value) {
          case Some(parsed) =>
            user := Some(parsed);
            token := t;
            isAuthenticated := true;
            loading := false;
          case None =>
            loading := false;
        }
      } else {
        loading := false;
      }
    }

    /**
     * `updateProfile(displayName, bio)`, with the mock call's outcome as
     * `api(token, displayName, bio)`. Without a non-empty stored token it
     * fails with "Not authenticated" before calling anything; a resolved
     * call stores and holds the updated user; a failure sets the error and
     * keeps the user. The token and the authentication flag never change.
     */
    method UpdateProfile(displayName: string, bio: string,
                         api: (string, string, string) -> Outcome<User>, stringify: User -> string)
      returns (r: Outcome<()>)
      requires Valid()
      modifies this
      ensures Valid() && !loading
      ensures token == old(token) && isAuthenticated == old(isAuthenticated)
      ensures var stored := GetItem(old(storage), StorageKey);
        if !Truthy(stored) then
          r == Threw(Some(NotAuthenticated)) && error == Some(NotAuthenticated) && user == old(user) && storage == old(storage)
        else match api(stored.value, displayName, bio)
          case Resolved(updated) =>
            r == Resolved(()) && user == Some(updated) && error == None &&
            storage == old(storage)[UserStorageKey := stringify(updated)]
          case Threw(m) =>
            r == Threw(m) && error == Some(ErrorMessage(m, ProfileUpdateFailed)) && user == old(user) && storage == old(storage)
    {
      loading := true;
      error := None;
      var stored := GetItem(storage, StorageKey);
      if !Truthy(stored) {
        error := Some(NotAuthenticated);
        loading := false;
        return Threw(Some(NotAuthenticated));
      }
      match api(stored.value, displayName, bio) {
        case Resolved(updated) =>
          storage := storage[UserStorageKey := stringify(updated)];
          user := Some(updated);
          loading := false;
          StorageKeysDiffer();
          r := Resolved(());
        case Threw(m) =>
          error := Some(ErrorMessage(m, ProfileUpdateFailed));
          loading := false;
          r := Threw(m);
      }
    }

    /** `clearError`: only the error changes. */
    method ClearError()
      requires Valid()
      modifies this
      ensures error == None
      ensures user == old(user) && token == old(token) && isAuthenticated == old(isAuthenticated) &&
              loading == old(loading) && storage == old(storage)
      ensures Valid()
    {
      error := None;
    }
  }

  /**
   * A session survives a reload: after signing in, a fresh store over the
   * same storage loads the same user and token, provided the user's JSON
   * reads back as the user.
   */
  method SignInThenReload(email: string, password: string, api: (string, string) -> Outcome<AuthResponse>,
                          stringify: User -> string, parse: string -> Option<User>, initialStorage: map<string, string>)
    returns (before: Store, after: Store)
    requires api(email, password).Resolved?
    requires var resp := api(email, password).value;
      resp.token != "" && stringify(resp.user) != "" && parse(stringify(resp.user)) == Some(resp.user)
    ensures after.isAuthenticated && after.user == before.user && after.token == before.token
  {
    before := new Store(initialStorage);
    var _ := before.SignIn(email, password, api, stringify);
    after := new Store(before.storage);
    StorageKeysDiffer();
    after.LoadSession(parse);
  }
}
