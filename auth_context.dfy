/** The client session of the front end: the `admin` and `token` state of the
    auth provider, mirrored into the browser's storage under one key so that a
    reload can restore it. */
module AuthContext {
  import opened Wrappers

  /** What the client keeps of the signed-in admin. */
  datatype Admin = Admin(id: int, username: string, email: string)

  /** `{ admin, token }`, the record written under the storage key; its JSON
      encoding is taken as the identity. */
  datatype StoredAuth = StoredAuth(admin: Admin, token: string)

  /** The provider's two state variables. */
  datatype Session = Session(admin: Option<Admin>, token: Option<string>)

  const AUTH_KEY := "auth"
  const SIGNED_OUT := Session(None, None)
  const OUTSIDE_PROVIDER := "useAuth must be used within AuthProvider"

  /** The session a stored record stands for. */
  function SessionOf(s: StoredAuth): (r: Session)
    ensures r.admin == Some(s.admin) && r.token == Some(s.token)
  {
    Session(Some(s.admin), Some(s.token))
  }

  /** The session agrees with the storage: it is the stored record's when the
      key is present, and signed out when it is absent. */
  predicate Synced(s: Session, items: map<string, StoredAuth>) {
    if AUTH_KEY in items then s == SessionOf(items[AUTH_KEY]) else s == SIGNED_OUT
  }

  /** The browser's storage. It outlives the provider: a reload makes a new
      provider over the same storage. */
  class LocalStorage {
    var items: map<string, StoredAuth>

    constructor (items: map<string, StoredAuth>)
      ensures this.items == items
    {
      this.items := items;
    }
  }

  class AuthProvider {
    var admin: Option<Admin>
    var token: Option<string>
    const storage: LocalStorage

    /** The first render: both state variables null. The effect that reads the
        storage has not run yet. */
    constructor (storage: LocalStorage)
      ensures this.storage == storage
      ensures Session(admin, token) == SIGNED_OUT
    {
      admin := None;
      token := None;
      this.storage := storage;
    }

    /** `login`: set both state variables and write the record under the key;
        every other key keeps its value. */
    method Login(a: Admin, t: string)
      modifies this, storage
      ensures Session(admin, token) == Session(Some(a), Some(t))
      ensures storage.items == old(storage.items)[AUTH_KEY := StoredAuth(a, t)]
      ensures Synced(Session(admin, token), storage.items)
    {
      admin := Some(a);
      token := Some(t);
      storage.items := storage.items[AUTH_KEY := StoredAuth(a, t)];
    }

    /** `logout`: clear both state variables and remove the key; every other
        key keeps its value. */
    method Logout()
      modifies this, storage
      ensures Session(admin, token) == SIGNED_OUT
      ensures storage.items == old(storage.items) - {AUTH_KEY}
      ensures forall k :: k != AUTH_KEY ==> (k in storage.items <==> k in old(storage.items))
      ensures Synced(Session(admin, token), storage.items)
    {
      admin := None;
      token := None;
      storage.items := storage.items - {AUTH_KEY};
    }

    /** The mount effect: restore the session from the key when it is present,
        and leave the state alone otherwise. Storage is only read. */
    method LoadFromStorage()
      modifies this
      ensures AUTH_KEY in storage.items ==> Session(admin, token) == SessionOf(storage.items[AUTH_KEY])
      ensures AUTH_KEY !in storage.items ==> Session(admin, token) == old(Session(admin, token))
      ensures old(Session(admin, token)) == SIGNED_OUT ==> Synced(Session(admin, token), storage.items)
    {
      if AUTH_KEY in storage.items {
        var stored := storage.items[AUTH_KEY];
        admin := Some(stored.admin);
        token := Some(stored.token);
      }
    }
  }

  /** A reload of the page: a new provider over the same storage, after its
      mount effect has run. The result is the session the storage stands for. */
  method Reload(storage: LocalStorage) returns (s: Session)
    ensures Synced(s, storage.items)
  {
    var p := new AuthProvider(storage);
    p.LoadFromStorage();
    s := Session(p.admin, p.token);
  }

  /** Logging in and then reloading restores the admin and the token that were given. */
  method LoginThenReload(p: AuthProvider, a: Admin, t: string) returns (s: Session)
    modifies p, p.storage
    ensures s == Session(Some(a), Some(t))
  {
    p.Login(a, t);
    s := Reload(p.storage);
  }

  /** Logging out and then reloading gives the signed-out session. */
  method LogoutThenReload(p: AuthProvider) returns (s: Session)
    modifies p, p.storage
    ensures s == SIGNED_OUT
  {
    p.Logout();
    s := Reload(p.storage);
  }

  /** `useAuth`: the provider's value, or the error thrown outside a provider. */
  function UseAuth<T>(ctx: Option<T>): (r: Result<T>)
    ensures ctx.None? <==> r == Failure(OUTSIDE_PROVIDER)
    ensures ctx.Some? ==> r == Success(ctx.value)
  {
    match ctx
    case None => Failure(OUTSIDE_PROVIDER)
    case Some(p) => Success(p)
  }
}
