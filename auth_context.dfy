/** The session provider (context/AuthContext.jsx): the token in component
    state, mirrored in localStorage, restored on mount, set by login and cleared
    by logout, each followed by a navigation. */
module AuthContext {
  import opened Wrappers
  import opened Text
  import opened BrowserStorage

  /** The provider's state: the browser storage, `userToken`, and the last route
      navigated to (None before any navigation). */
  datatype Session = Session(storage: Storage, userToken: Option<string>, location: Option<string>)

  /** The first render: no token yet, whatever the storage holds. */
  function Fresh(st: Storage): Session {
    Session(st, None, None)
  }

  /** The mount effect: a stored access token that is truthy becomes the token. */
  function Mount(s: Session): (r: Session)
    ensures r.storage == s.storage && r.location == s.location
    ensures Truthy(GetItem(s.storage, AccessKey)) ==> r.userToken == GetItem(s.storage, AccessKey)
    ensures !Truthy(GetItem(s.storage, AccessKey)) ==> r.userToken == s.userToken
  {
    var t := GetItem(s.storage, AccessKey);
    if Truthy(t) then s.(userToken := t) else s
  }

  function Login(s: Session, access: string, refresh: string): Session {
    Session(StoreTokens(s.storage, access, refresh), Some(access), Some("/"))
  }

  function Logout(s: Session): Session {
    Session(ClearTokens(s.storage), None, Some("/login"))
  }

  /** `isLoggedIn: !!userToken` */
  predicate IsLoggedIn(s: Session) {
    Truthy(s.userToken)
  }

  /** A login logs in exactly when the access token is not empty, lands on "/",
      and keeps both tokens in storage. */
  lemma LoginEffect(s: Session, access: string, refresh: string)
    ensures IsLoggedIn(Login(s, access, refresh)) <==> access != ""
    ensures Login(s, access, refresh).location == Some("/")
    ensures GetItem(Login(s, access, refresh).storage, AccessKey) == Some(access)
    ensures GetItem(Login(s, access, refresh).storage, RefreshKey) == Some(refresh)
  {
    StoreTokensEffect(s.storage, access, refresh);
  }

  /** A logout always logs out, lands on "/login" and leaves neither token in storage. */
  lemma LogoutEffect(s: Session)
    ensures !IsLoggedIn(Logout(s)) && Logout(s).location == Some("/login")
    ensures GetItem(Logout(s).storage, AccessKey) == None && GetItem(Logout(s).storage, RefreshKey) == None
  {
    ClearTokensEffect(s.storage);
  }

  /** A session survives a reload: a provider mounted afresh over the storage a
      login left is logged in exactly when the login was, with the same token. */
  lemma ReloadAfterLogin(s: Session, access: string, refresh: string)
    ensures var r := Mount(Fresh(Login(s, access, refresh).storage));
      (IsLoggedIn(r) <==> IsLoggedIn(Login(s, access, refresh)))
      && (IsLoggedIn(r) ==> r.userToken == Some(access))
  {
    StoreTokensEffect(s.storage, access, refresh);
  }

  /** After a logout a reload does not log back in. */
  lemma ReloadAfterLogout(s: Session)
    ensures !IsLoggedIn(Mount(Fresh(Logout(s).storage)))
  {
    ClearTokensEffect(s.storage);
  }

  const OutsideProviderMessage: string := "useAuth debe ser usado dentro de un AuthProvider"

  /** useAuth: the context value of the enclosing provider, or the error thrown
      when there is none. */
  function UseAuth<T>(context: Option<T>): (r: Result<T, string>)
    ensures context.Some? <==> r.Success?
    ensures context.Some? ==> r.value == context.value
    ensures context.None? ==> r.error == OutsideProviderMessage
  {
    match context
    case Some(v) => Success(v)
    case None => Failure(OutsideProviderMessage)
  }

  /** The AuthProvider component. */
  class AuthProvider {
    var storage: Storage
    var userToken: Option<string>
    var location: Option<string>

    function State(): Session
      reads this
    {
      Session(storage, userToken, location)
    }

    constructor (st: Storage)
      ensures State() == Fresh(st)
    {
      storage, userToken, location := st, None, None;
    }

    method RestoreOnMount()
      modifies this`userToken
      ensures State() == Mount(old(State()))
    {
      var t := GetItem(storage, AccessKey);
      if Truthy(t) {
        userToken := t;
      }
    }

    method DoLogin(access: string, refresh: string)
      modifies this
      ensures State() == Login(old(State()), access, refresh)
      ensures IsLoggedIn(State()) <==> access != ""
    {
      storage := storage[AccessKey := access];
      storage := storage[RefreshKey := refresh];
      userToken := Some(access);
      location := Some("/");
    }

    method DoLogout()
      modifies this
      ensures State() == Logout(old(State()))
      ensures !IsLoggedIn(State())
    {
      storage := storage - {AccessKey};
      storage := storage - {RefreshKey};
      userToken := None;
      location := Some("/login");
    }
  }
}
