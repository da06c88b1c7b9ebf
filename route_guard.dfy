/**
 * `ProtectedRoute`: decides, from what is in `localStorage`, whether a page
 * behind a role check is shown, or where the browser is sent instead.
 */
module RouteGuard {
  import opened Common
  import opened Session

  /** Render the nested page, or navigate elsewhere. */
  datatype Route = Outlet | Navigate(to: string)

  const LoginPath: string := "/login"

  /** The landing page of each role. */
  function HomeFor(role: string): string
  {
    if role == "ADMIN" then "/admin"
    else if role == "FINANCIER" then "/financier"
    else if role == "CUSTOMER" then "/dashboard"
    else "/"
  }

  /** Show the page to an allowed role, send any other role to its own landing page. */
  function Admit(role: string, allowedRoles: seq<string>): (r: Route)
    ensures r == Outlet <==> role in allowedRoles
    ensures r != Outlet ==> r == Navigate(HomeFor(role))
  {
    if role in allowedRoles then Outlet else Navigate(HomeFor(role))
  }

  /** The token stored under 'auth-storage' at `state.token`, when truthy. */
  function SnapshotToken(items: map<string, string>, codec: Codec): (t: Option<string>)
    ensures t.Some? ==> t.value != ""
  {
    match ReadSnapshot(items, codec)
    case Some(Snapshot(Some(st), _)) => if Truthy(st.token) then st.token else None
    case _ => None
  }

  /** The role stored under 'auth-storage' at `state.user.role`, when truthy. */
  function SnapshotRole(items: map<string, string>, codec: Codec): (role: Option<string>)
    ensures role.Some? ==> role.value != ""
  {
    match ReadSnapshot(items, codec)
    case Some(Snapshot(Some(SnapshotState(_, Some(u), _)), _)) => if Truthy(u.role) then u.role else None
    case _ => None
  }

  /** The 'token' entry when truthy, otherwise the snapshot's token. */
  function EffectiveToken(items: map<string, string>, codec: Codec): (t: Option<string>)
    ensures Truthy(GetItem(items, TokenKey)) ==> t == GetItem(items, TokenKey)
    ensures !Truthy(GetItem(items, TokenKey)) ==> t == SnapshotToken(items, codec)
  {
    var direct := GetItem(items, TokenKey);
    if Truthy(direct) then direct else SnapshotToken(items, codec)
  }

  /** The storage after the guard: the snapshot's token is copied under 'token' when that was missing. */
  function WriteBack(items: map<string, string>, codec: Codec): (after: map<string, string>)
    ensures !Truthy(GetItem(items, TokenKey)) && SnapshotToken(items, codec).Some? ==>
              after == items[TokenKey := SnapshotToken(items, codec).value]
    ensures Truthy(GetItem(items, TokenKey)) || SnapshotToken(items, codec).None? ==> after == items
  {
    if !Truthy(GetItem(items, TokenKey)) && SnapshotToken(items, codec).Some? then
      items[TokenKey := SnapshotToken(items, codec).value]
    else items
  }

  /** The role a demo token carries: the text after 'demo-token-', upper-cased. */
  function DemoRole(token: string): string
    requires StartsWith(token, DemoTokenPrefix)
  {
    ToUpper(token[|DemoTokenPrefix|..])
  }

  /** The routing decision of `ProtectedRoute`. */
  function Decide(items: map<string, string>, codec: Codec, allowedRoles: seq<string>): (r: Route)
    // no token anywhere: log in
    ensures EffectiveToken(items, codec).None? || !Truthy(EffectiveToken(items, codec)) ==> r == Navigate(LoginPath)
    // a demo token decides by its own role
    ensures Truthy(EffectiveToken(items, codec)) && StartsWith(EffectiveToken(items, codec).value, DemoTokenPrefix) ==>
              r == Admit(DemoRole(EffectiveToken(items, codec).value), allowedRoles)
    // any other token decides by the stored user's role, or logs in when there is none
    ensures Truthy(EffectiveToken(items, codec)) && !StartsWith(EffectiveToken(items, codec).value, DemoTokenPrefix) ==>
              if SnapshotRole(items, codec).Some? then r == Admit(SnapshotRole(items, codec).value, allowedRoles)
              else r == Navigate(LoginPath)
    // the page is shown only to an allowed role
    ensures r == Outlet ==> |allowedRoles| > 0
  {
    var token := EffectiveToken(items, codec);
    if !Truthy(token) then Navigate(LoginPath)
    else if StartsWith(token.value, DemoTokenPrefix) then Admit(DemoRole(token.value), allowedRoles)
    else match SnapshotRole(items, codec)
      case Some(role) => Admit(role, allowedRoles)
      case None => Navigate(LoginPath)
  }

  /** The page is shown to a demo token exactly when its role is allowed. */
  lemma DemoTokenAdmitted(items: map<string, string>, codec: Codec, allowedRoles: seq<string>, suffix: string)
    requires GetItem(items, TokenKey) == Some(DemoTokenPrefix + suffix)
    ensures Decide(items, codec, allowedRoles) == Outlet <==> ToUpper(suffix) in allowedRoles
    ensures Decide(items, codec, allowedRoles) != Outlet ==>
              Decide(items, codec, allowedRoles) == Navigate(HomeFor(ToUpper(suffix)))
  {
    var t := DemoTokenPrefix + suffix;
    assert t[..|DemoTokenPrefix|] == DemoTokenPrefix;
    assert t[|DemoTokenPrefix|..] == suffix;
  }

  /** Running the guard again after its write-back decides the same and writes nothing more. */
  lemma GuardStable(items: map<string, string>, codec: Codec, allowedRoles: seq<string>)
    ensures Decide(WriteBack(items, codec), codec, allowedRoles) == Decide(items, codec, allowedRoles)
    ensures WriteBack(WriteBack(items, codec), codec) == WriteBack(items, codec)
  {
    var after := WriteBack(items, codec);
    assert GetItem(after, AuthStorageKey) == GetItem(items, AuthStorageKey);
    assert ReadSnapshot(after, codec) == ReadSnapshot(items, codec);
  }

  /** `ProtectedRoute` itself: the decision plus its one write into storage. */
  method ProtectedRoute(storage: LocalStorage, codec: Codec, allowedRoles: seq<string>) returns (r: Route)
    modifies storage
    ensures r == Decide(old(storage.items), codec, allowedRoles)
    ensures storage.items == WriteBack(old(storage.items), codec)
  {
    var token := GetItem(storage.items, TokenKey);
    var authStorage := GetItem(storage.items, AuthStorageKey);
    if !Truthy(token) && Truthy(authStorage) {
      var recovered := SnapshotToken(storage.items, codec);
      if recovered.Some? {
        token := recovered;
        storage.SetItem(TokenKey, recovered.value);
      }
    }
    if !Truthy(token) {
      return Navigate(LoginPath);
    }
    if StartsWith(token.value, DemoTokenPrefix) {
      return Admit(DemoRole(token.value), allowedRoles);
    }
    var role := SnapshotRole(storage.items, codec);
    if role.Some? {
      return Admit(role.value, allowedRoles);
    }
    r := Navigate(LoginPath);
  }
}
