/**
 * The front end's session store: the signed-in user and token kept in
 * memory, and the two `localStorage` entries ('token' and 'auth-storage')
 * that outlive a page load.
 */
module AuthStore {
  import opened Common
  import opened Session

  /** The store's four state fields. */
  datatype AuthState = AuthState(user: Option<SessionUser>, token: Option<string>, isAuthenticated: bool, isLoading: bool)

  const SignedOut: AuthState := AuthState(None, None, false, false)

  /** The snapshot `setDemoUser` writes under 'auth-storage'. */
  function DemoSnapshot(token: string, user: SessionUser): Snapshot
  {
    Snapshot(Some(SnapshotState(Some(token), Some(user), true)), Some(0))
  }

  /** The user stored at `state.user` under 'auth-storage', when there is one. */
  function SnapshotUser(items: map<string, string>, codec: Codec): Option<SessionUser>
  {
    match ReadSnapshot(items, codec)
    case Some(Snapshot(Some(st), _)) => st.user
    case _ => None
  }

  /** `getInitialState`: resume a demo session from storage, otherwise start signed out. */
  function InitialState(items: map<string, string>, codec: Codec): (s: AuthState)
    ensures s.isAuthenticated <==>
              TokenKey in items && StartsWith(items[TokenKey], DemoTokenPrefix) && SnapshotUser(items, codec).Some?
    ensures s.isAuthenticated ==>
              s.token == Some(items[TokenKey]) && s.user == SnapshotUser(items, codec) && !s.isLoading
    ensures !s.isAuthenticated ==> s == SignedOut
  {
    var token := GetItem(items, TokenKey);
    if token.Some? && StartsWith(token.value, DemoTokenPrefix) && SnapshotUser(items, codec).Some? then
      AuthState(SnapshotUser(items, codec), token, true, false)
    else
      SignedOut
  }

  /** `setDemoUser` followed by a page load resumes the same user and token. */
  lemma DemoSessionRoundTrip(items: map<string, string>, codec: Codec, user: SessionUser, token: string)
    requires StartsWith(token, DemoTokenPrefix)
    // JSON.stringify of an object is non-empty text that JSON.parse reads back
    requires codec.encode(DemoSnapshot(token, user)) != ""
    requires codec.decode(codec.encode(DemoSnapshot(token, user))) == Some(DemoSnapshot(token, user))
    ensures InitialState(items[TokenKey := token][AuthStorageKey := codec.encode(DemoSnapshot(token, user))], codec)
            == AuthState(Some(user), Some(token), true, false)
  {
    var after := items[TokenKey := token][AuthStorageKey := codec.encode(DemoSnapshot(token, user))];
    assert SnapshotUser(after, codec) == Some(user);
  }

  /** Without a demo token nothing is resumed, whatever 'auth-storage' holds. */
  lemma NonDemoTokenSignedOut(items: map<string, string>, codec: Codec)
    requires TokenKey !in items || !StartsWith(items[TokenKey], DemoTokenPrefix)
    ensures InitialState(items, codec) == SignedOut
  {
  }

  class Store {
    var user: Option<SessionUser>
    var token: Option<string>
    var isLoading: bool
    var isAuthenticated: bool

    function State(): AuthState
      reads this
    {
      AuthState(user, token, isAuthenticated, isLoading)
    }

    /** The store as created at module load. */
    constructor (storage: LocalStorage, codec: Codec)
      ensures State() == InitialState(storage.items, codec)
    {
      var s := InitialState(storage.items, codec);
      user, token, isLoading, isAuthenticated := s.user, s.token, s.isLoading, s.isAuthenticated;
    }

    /** `login` and `register` after the back end answered with `accessToken` and `u`. */
    method SignIn(storage: LocalStorage, accessToken: string, u: SessionUser)
      modifies this, storage
      ensures storage.items == old(storage.items)[TokenKey := accessToken]
      ensures State() == AuthState(Some(u), Some(accessToken), true, false)
    {
      storage.SetItem(TokenKey, accessToken);
      user, token, isAuthenticated, isLoading := Some(u), Some(accessToken), true, false;
    }

    /** `login`. */
    method Login(storage: LocalStorage, accessToken: string, u: SessionUser)
      modifies this, storage
      ensures storage.items == old(storage.items)[TokenKey := accessToken]
      ensures State() == AuthState(Some(u), Some(accessToken), true, false)
    {
      SignIn(storage, accessToken, u);
    }

    /** `register`. */
    method Register(storage: LocalStorage, accessToken: string, u: SessionUser)
      modifies this, storage
      ensures storage.items == old(storage.items)[TokenKey := accessToken]
      ensures State() == AuthState(Some(u), Some(accessToken), true, false)
    {
      SignIn(storage, accessToken, u);
    }

    /** `logout`: drops both entries; `isLoading` is left as it was. */
    method Logout(storage: LocalStorage)
      modifies this, storage
      ensures storage.items == old(storage.items) - {TokenKey, AuthStorageKey}
      ensures State() == AuthState(None, None, false, old(isLoading))
    {
      storage.RemoveItem(TokenKey);
      storage.RemoveItem(AuthStorageKey);
      user, token, isAuthenticated := None, None, false;
    }

    /** `setDemoUser`. */
    method SetDemoUser(storage: LocalStorage, codec: Codec, u: SessionUser, t: string)
      modifies this, storage
      ensures storage.items == old(storage.items)[TokenKey := t][AuthStorageKey := codec.encode(DemoSnapshot(t, u))]
      ensures State() == AuthState(Some(u), Some(t), true, false)
    {
      storage.SetItem(TokenKey, t);
      storage.SetItem(AuthStorageKey, codec.encode(DemoSnapshot(t, u)));
      user, token, isAuthenticated, isLoading := Some(u), Some(t), true, false;
    }

    /** `initFromStorage`: the state becomes exactly what `getInitialState` reads. */
    method InitFromStorage(storage: LocalStorage, codec: Codec)
      modifies this
      ensures State() == InitialState(storage.items, codec)
    {
      var s := InitialState(storage.items, codec);
      user, token, isLoading, isAuthenticated := s.user, s.token, s.isLoading, s.isAuthenticated;
    }
  }

  /** After `logout`, reloading the page starts signed out. */
  method LogoutThenReload(store: Store, storage: LocalStorage, codec: Codec)
    modifies store, storage
    ensures store.State() == SignedOut
  {
    store.Logout(storage);
    store.InitFromStorage(storage, codec);
  }
}
