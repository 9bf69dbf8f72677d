/**
 * The session slice: the logged-in user and a `loggedIn` flag, kept in step
 * with two keys of the browser's `localStorage`.
 */
module Session {
  import opened Wrappers
  import opened UserJson

  const UserKey := "user"
  const TokenKey := "token"

  /** `localStorage`, reduced to its key/value contents. */
  class LocalStorage {
    var items: map<string, string>

    constructor (initial: map<string, string>)
      ensures items == initial
    {
      items := initial;
    }

    method SetItem(key: string, value: string)
      modifies this
      ensures items == old(items)[key := value]
    {
      items := items[key := value];
    }

    method RemoveItem(key: string)
      modifies this
      ensures items == old(items) - {key}
    {
      items := items - {key};
    }
  }

  /** The slice's state, `{user, loggedIn}`. */
  datatype SessionState = SessionState(user: Option<User>, loggedIn: bool)

  /**
   * The state the slice starts from, read from storage when the module loads.
   * `None` stands for `JSON.parse` throwing on a malformed stored user, which
   * aborts the load. Both keys are tested for truthiness, so a key holding
   * the empty string counts as absent.
   */
  function InitialState(items: map<string, string>): (r: Option<SessionState>)
    ensures r.None? <==> UserKey in items && items[UserKey] != "" && Parse(items[UserKey]).None?
    ensures r.Some? ==> (r.value.loggedIn <==> TokenKey in items && items[TokenKey] != "")
    ensures r.Some? ==> (r.value.user.Some? <==> UserKey in items && items[UserKey] != "")
    ensures r.Some? && r.value.user.Some? ==> Parse(items[UserKey]) == r.value.user
  {
    var stored := Get(items, UserKey);
    if Truthy(stored) && Parse(stored.value).None? then None
    else Some(SessionState(if Truthy(stored) then Parse(stored.value) else None, Truthy(Get(items, TokenKey))))
  }

  /** Storage after `setUser(p)`: the serialised user under `"user"`, its token under `"token"`. */
  function StoreAfterSetUser(items: map<string, string>, p: User): (r: map<string, string>)
    ensures r.Keys == items.Keys + {UserKey, TokenKey}
    ensures r[UserKey] == Serialize(p) && r[TokenKey] == p.token
  {
    items[UserKey := Serialize(p)][TokenKey := p.token]
  }

  /** Storage after `logout`: both session keys removed. */
  function StoreAfterLogout(items: map<string, string>): (r: map<string, string>)
    ensures r.Keys == items.Keys - {UserKey, TokenKey}
  {
    items - {TokenKey, UserKey}
  }

  /** Both reducers touch only the two session keys. */
  lemma ReducersKeepOtherKeys(items: map<string, string>, p: User, k: string)
    requires k != UserKey && k != TokenKey
    ensures Get(StoreAfterSetUser(items, p), k) == Get(items, k)
    ensures Get(StoreAfterLogout(items), k) == Get(items, k)
  {
  }

  /** Logging out twice leaves the same storage as logging out once. */
  lemma LogoutIdempotent(items: map<string, string>)
    ensures StoreAfterLogout(StoreAfterLogout(items)) == StoreAfterLogout(items)
  {
  }

  /**
   * Reloading after `setUser(p)` restores `p`; the user counts as logged in
   * again exactly when the token is non-empty.
   */
  lemma RestoreAfterSetUser(items: map<string, string>, p: User)
    ensures InitialState(StoreAfterSetUser(items, p)) == Some(SessionState(Some(p), p.token != ""))
  {
    ParseSerialize(p);
  }

  /** Reloading after `logout` gives the logged-out state. */
  lemma RestoreAfterLogout(items: map<string, string>)
    ensures InitialState(StoreAfterLogout(items)) == Some(SessionState(None, false))
  {
  }

  /** The session slice, bound to the storage it mirrors. */
  class Session {
    var user: Option<User>
    var loggedIn: bool
    const storage: LocalStorage

    ghost function State(): SessionState
      reads this
    {
      SessionState(user, loggedIn)
    }

    /** A reload would derive the current state from storage. */
    ghost predicate Persisted()
      reads this, storage
    {
      InitialState(storage.items) == Some(State())
    }

    /** The slice as created when its module loads over `storage`; a malformed stored user aborts the load. */
    constructor (storage: LocalStorage)
      requires InitialState(storage.items).Some?
      ensures this.storage == storage
      ensures Some(State()) == InitialState(storage.items)
      ensures Persisted()
    {
      var s := InitialState(storage.items).value;
      this.storage := storage;
      user := s.user;
      loggedIn := s.loggedIn;
    }

    /** Reducer `setUser`. */
    method SetUser(p: User)
      modifies this, storage
      ensures user == Some(p) && loggedIn
      ensures storage.items == StoreAfterSetUser(old(storage.items), p)
      ensures p.token != "" <==> Persisted()
    {
      user := Some(p);
      storage.SetItem(UserKey, Serialize(p));
      loggedIn := true;
      storage.SetItem(TokenKey, p.token);
      RestoreAfterSetUser(old(storage.items), p);
    }

    /** Reducer `logout`. */
    method Logout()
      modifies this, storage
      ensures user == None && !loggedIn
      ensures storage.items == StoreAfterLogout(old(storage.items))
      ensures Persisted()
    {
      user := None;
      loggedIn := false;
      storage.RemoveItem(TokenKey);
      storage.RemoveItem(UserKey);
      assert storage.items == StoreAfterLogout(old(storage.items));
      RestoreAfterLogout(old(storage.items));
    }
  }
}
