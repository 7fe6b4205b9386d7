/** window.localStorage as a map from keys to string values, and the two keys
    the session code keeps there (context/AuthContext.jsx, hooks/useAuth.js). */
module BrowserStorage {
  import opened Wrappers

  type Storage = map<string, string>

  const AccessKey: string := "accessToken"
  const RefreshKey: string := "refreshToken"

  /** `localStorage.getItem(k)`: the value, or null (None) for a missing key. */
  function GetItem(st: Storage, k: string): (v: Option<string>)
    ensures v.Some? <==> k in st
    ensures v.Some? ==> v.value == st[k]
  {
    if k in st then Some(st[k]) else None
  }

  /** The two setItem calls of a login. */
  function StoreTokens(st: Storage, access: string, refresh: string): Storage {
    st[AccessKey := access][RefreshKey := refresh]
  }

  /** The two removeItem calls of a logout. */
  function ClearTokens(st: Storage): Storage {
    st - {AccessKey, RefreshKey}
  }

  /** After a login the two keys hold the two tokens and every other key is as it was. */
  lemma StoreTokensEffect(st: Storage, access: string, refresh: string)
    ensures GetItem(StoreTokens(st, access, refresh), AccessKey) == Some(access)
    ensures GetItem(StoreTokens(st, access, refresh), RefreshKey) == Some(refresh)
    ensures forall k :: k != AccessKey && k != RefreshKey ==>
      GetItem(StoreTokens(st, access, refresh), k) == GetItem(st, k)
  {
  }

  /** After a logout neither key is present and every other key is as it was. */
  lemma ClearTokensEffect(st: Storage)
    ensures GetItem(ClearTokens(st), AccessKey) == None && GetItem(ClearTokens(st), RefreshKey) == None
    ensures forall k :: k != AccessKey && k != RefreshKey ==> GetItem(ClearTokens(st), k) == GetItem(st, k)
  {
  }

  /** A logout erases every trace of the login before it: the storage is as a
      logout alone would have left it. */
  lemma ClearUndoesStore(st: Storage, access: string, refresh: string)
    ensures ClearTokens(StoreTokens(st, access, refresh)) == ClearTokens(st)
  {
  }
}
