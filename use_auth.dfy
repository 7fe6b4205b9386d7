/** The stand-alone session hook (hooks/useAuth.js): the token starts as the
    stored access token; login and logout set it and write or remove both
    storage keys, without navigating. */
module UseAuthHook {
  import opened Wrappers
  import opened Text
  import opened BrowserStorage
  import AuthContext

  datatype HookState = HookState(storage: Storage, token: Option<string>)

  /** `useState(() => localStorage.getItem('accessToken'))`: the stored value as
      it is, which may be "", or null. */
  function Init(st: Storage): (h: HookState)
    ensures h.storage == st && h.token == GetItem(st, AccessKey)
  {
    HookState(st, GetItem(st, AccessKey))
  }

  function Login(h: HookState, access: string, refresh: string): HookState {
    HookState(StoreTokens(h.storage, access, refresh), Some(access))
  }

  function Logout(h: HookState): HookState {
    HookState(ClearTokens(h.storage), None)
  }

  /** `!!token` */
  predicate IsAuthenticated(h: HookState) {
    Truthy(h.token)
  }

  /** A login authenticates exactly when the access token is not empty, and
      stores both tokens. */
  lemma LoginEffect(h: HookState, access: string, refresh: string)
    ensures IsAuthenticated(Login(h, access, refresh)) <==> access != ""
    ensures GetItem(Login(h, access, refresh).storage, AccessKey) == Some(access)
    ensures GetItem(Login(h, access, refresh).storage, RefreshKey) == Some(refresh)
  {
    StoreTokensEffect(h.storage, access, refresh);
  }

  /** A login followed by a logout always ends unauthenticated, with the
      storage as a logout alone would have left it. */
  lemma LoginThenLogout(h: HookState, access: string, refresh: string)
    ensures !IsAuthenticated(Logout(Login(h, access, refresh)))
    ensures Logout(Login(h, access, refresh)).storage == ClearTokens(h.storage)
    ensures GetItem(Logout(Login(h, access, refresh)).storage, AccessKey) == None
  {
    ClearUndoesStore(h.storage, access, refresh);
    ClearTokensEffect(h.storage);
  }

  /** The hook and the provider agree on the same storage: the hook starts
      authenticated exactly when the provider is logged in after its mount. */
  lemma AgreesWithProvider(st: Storage)
    ensures IsAuthenticated(Init(st)) <==> AuthContext.IsLoggedIn(AuthContext.Mount(AuthContext.Fresh(st)))
  {
  }

  /** The useAuth hook's state. */
  class AuthHook {
    var storage: Storage
    var token: Option<string>

    function State(): HookState
      reads this
    {
      HookState(storage, token)
    }

    constructor (st: Storage)
      ensures State() == Init(st)
    {
      storage, token := st, GetItem(st, AccessKey);
    }

    method DoLogin(access: string, refresh: string)
      modifies this
      ensures State() == Login(old(State()), access, refresh)
    {
      token := Some(access);
      storage := storage[AccessKey := access];
      storage := storage[RefreshKey := refresh];
    }

    method DoLogout()
      modifies this
      ensures State() == Logout(old(State()))
      ensures !IsAuthenticated(State())
    {
      token := None;
      storage := storage - {AccessKey};
      storage := storage - {RefreshKey};
    }

    function IsAuthenticatedNow(): (b: bool)
      reads this
      ensures b <==> token.Some? && token.value != ""
    {
      IsAuthenticated(State())
    }
  }
}
