/**
 * The browser's `localStorage` and the session snapshot the front end keeps
 * in it under 'auth-storage'.
 *
 * The snapshot is written with `JSON.stringify` and read back with
 * `JSON.parse`; the model takes the pair as a codec whose `decode` yields
 * `None` where `JSON.parse` throws.
 */
module Session {
  import opened Common

  const TokenKey: string := "token"
  const AuthStorageKey: string := "auth-storage"
  const DemoTokenPrefix: string := "demo-token-"

  /** The front end's `User` as far as the session logic reads it. */
  datatype SessionUser = SessionUser(
    id: int,
    email: Option<string>,
    role: Option<string>,
    firstName: Option<string>,
    lastName: Option<string>)

  /** `{ token, user, isAuthenticated }` under the snapshot's `state`. */
  datatype SnapshotState = SnapshotState(token: Option<string>, user: Option<SessionUser>, isAuthenticated: bool)

  /** The parsed 'auth-storage' value: `{ state, version }`, either part possibly missing. */
  datatype Snapshot = Snapshot(state: Option<SnapshotState>, version: Option<int>)

  /** `JSON.stringify` and `JSON.parse` for snapshots. */
  datatype Codec = Codec(encode: Snapshot -> string, decode: string -> Option<Snapshot>)

  /** The value stored under `key`, as `localStorage.getItem` returns it. */
  function GetItem(items: map<string, string>, key: string): (v: Option<string>)
    ensures v.Some? <==> key in items
    ensures v.Some? ==> v.value == items[key]
  {
    if key in items then Some(items[key]) else None
  }

  /** The snapshot stored under 'auth-storage', when the value is truthy and parses. */
  function ReadSnapshot(items: map<string, string>, codec: Codec): (s: Option<Snapshot>)
    ensures s.Some? ==> AuthStorageKey in items && items[AuthStorageKey] != ""
                        && codec.decode(items[AuthStorageKey]) == s
  {
    var raw := GetItem(items, AuthStorageKey);
    if Truthy(raw) then codec.decode(raw.value) else None
  }

  class LocalStorage {
    var items: map<string, string>

    constructor (items: map<string, string>)
      ensures this.items == items
    {
      this.items := items;
    }

    method SetItem(key: string, value: string)
      modifies this
      ensures items == old(items)[key := value]
    {
      items := items[key := value];
    }

    method RemoveItem(key: string)
      modifies this
      ensures items == old(items) - {key}
    {
      items := items - {key};
    }
  }
}
