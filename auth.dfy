/** `AuthService`: the access token in session storage, the refresh token in
    local storage, and the list of logout handlers. A handler is known by its
    identity; calling it is recorded in `handlerCalls`, since what a handler
    does lies outside this object. Network replies are parameters. */
module Auth {
  import opened Common

  type HandlerId = nat

  const AccessKey := "authToken"
  const RefreshKey := "refreshToken"

  /** `storage.getItem(key)`: `null` for a missing key. */
  function GetItem(storage: map<string, string>, key: string): (r: Option<string>)
    ensures r.Some? <==> key in storage
    ensures r.Some? ==> r.value == storage[key]
  {
    if key in storage then Some(storage[key]) else None
  }

  /** The reply of `POST <VITE_API_URL>/auth/refresh`. */
  datatype RefreshReply = RefreshNetworkError(error: Error) | RefreshData(accessToken: Option<string>)

  datatype Role = Admin | User
  datatype AuthUser = AuthUser(userId: string, email: string, name: string, role: Role)
  datatype AuthResponse = AuthResponse(accessToken: string, user: AuthUser)

  class AuthService {
    var sessionStorage: map<string, string>
    var localStorage: map<string, string>
    var logoutHandlers: seq<HandlerId>
    var handlerCalls: seq<HandlerId>

    /** The service over the browser's two storages, with no handlers yet. */
    constructor (session: map<string, string>, local: map<string, string>)
      ensures sessionStorage == session && localStorage == local
      ensures logoutHandlers == [] && handlerCalls == []
    {
      sessionStorage, localStorage := session, local;
      logoutHandlers, handlerCalls := [], [];
    }

    method GetAccessToken() returns (t: Option<string>)
      ensures t == GetItem(sessionStorage, AccessKey)
    {
      t := if AccessKey in sessionStorage then Some(sessionStorage[AccessKey]) else None;
    }

    method SetAccessToken(token: string)
      modifies this`sessionStorage
      ensures sessionStorage == old(sessionStorage)[AccessKey := token]
    {
      sessionStorage := sessionStorage[AccessKey := token];
    }

    method GetRefreshToken() returns (t: Option<string>)
      ensures t == GetItem(localStorage, RefreshKey)
    {
      t := if RefreshKey in localStorage then Some(localStorage[RefreshKey]) else None;
    }

    method SetRefreshToken(token: string)
      modifies this`localStorage
      ensures localStorage == old(localStorage)[RefreshKey := token]
    {
      localStorage := localStorage[RefreshKey := token];
    }

    /** `clear()`: removes both tokens and nothing else from either storage. */
    method Clear()
      modifies this`sessionStorage, this`localStorage
      ensures sessionStorage == old(sessionStorage) - {AccessKey}
      ensures localStorage == old(localStorage) - {RefreshKey}
    {
      sessionStorage := sessionStorage - {AccessKey};
      localStorage := localStorage - {RefreshKey};
    }

    /** `onLogout(handler)`: registration appends. */
    method OnLogout(handler: HandlerId)
      modifies this`logoutHandlers
      ensures logoutHandlers == old(logoutHandlers) + [handler]
    {
      logoutHandlers := logoutHandlers + [handler];
    }

    /** The function `onLogout` returns: every registration of that handler
        goes, the other handlers keep their order. */
    method Unsubscribe(handler: HandlerId)
      modifies this`logoutHandlers
      ensures logoutHandlers == Without(old(logoutHandlers), handler)
    {
      logoutHandlers := Without(logoutHandlers, handler);
    }

    /** `triggerLogout()`: the logout request is fired and not awaited, so its
        outcome never matters; the tokens are cleared, then every registered
        handler is called once, in registration order. */
    method TriggerLogout()
      modifies this`sessionStorage, this`localStorage, this`handlerCalls
      ensures sessionStorage == old(sessionStorage) - {AccessKey}
      ensures localStorage == old(localStorage) - {RefreshKey}
      ensures handlerCalls == old(handlerCalls) + logoutHandlers
    {
      Clear();
      var i := 0;
      while i < |logoutHandlers|
        invariant 0 <= i <= |logoutHandlers|
        invariant handlerCalls == old(handlerCalls) + logoutHandlers[..i]
        invariant sessionStorage == old(sessionStorage) - {AccessKey}
        invariant localStorage == old(localStorage) - {RefreshKey}
      {
        handlerCalls := handlerCalls + [logoutHandlers[i]];
        i := i + 1;
      }
      assert logoutHandlers[..i] == logoutHandlers;
    }

    /** `loginWithGoogle(googleAccessToken)`: on failure the tokens are cleared
        and the error is rethrown; on success the reply's data is returned and
        no token is stored. */
    method LoginWithGoogle(reply: Result<AuthResponse>) returns (r: Result<AuthResponse>)
      modifies this`sessionStorage, this`localStorage
      ensures r == reply
      ensures reply.Failure? ==>
        sessionStorage == old(sessionStorage) - {AccessKey} && localStorage == old(localStorage) - {RefreshKey}
      ensures reply.Success? ==> sessionStorage == old(sessionStorage) && localStorage == old(localStorage)
    {
      if reply.Failure? {
        Clear();
      }
      r := reply;
    }

    /** `refreshToken()`. Without a stored (non-empty) refresh token, or
        without a configured API base URL, it throws before any request. A
        reply without an access token logs out and throws; otherwise the new
        token is stored and returned. */
    method RefreshToken(baseUrlConfigured: bool, reply: RefreshReply) returns (r: Result<string>)
      modifies this`sessionStorage, this`localStorage, this`handlerCalls
      ensures !Truthy(GetItem(old(localStorage), RefreshKey)) ==>
        r == Failure(Thrown("No refresh token")) && unchanged(this)
      ensures Truthy(GetItem(old(localStorage), RefreshKey)) && !baseUrlConfigured ==>
        r == Failure(Thrown("base url is missing")) && unchanged(this)
      ensures Truthy(GetItem(old(localStorage), RefreshKey)) && baseUrlConfigured ==>
        match reply
        case RefreshNetworkError(e) => r == Failure(e) && unchanged(this)
        case RefreshData(t) =>
          if Truthy(t) then
            r == Success(t.value)
            && sessionStorage == old(sessionStorage)[AccessKey := t.value]
            && localStorage == old(localStorage) && handlerCalls == old(handlerCalls)
          else
            r == Failure(Thrown("Invalid refresh response"))
            && sessionStorage == old(sessionStorage) - {AccessKey}
            && localStorage == old(localStorage) - {RefreshKey}
            && handlerCalls == old(handlerCalls) + logoutHandlers
    {
      var refreshToken := GetRefreshToken();
      if !Truthy(refreshToken) {
        return Failure(Thrown("No refresh token"));
      }
      if !baseUrlConfigured {
        return Failure(Thrown("base url is missing"));
      }
      match reply
      case RefreshNetworkError(e) =>
        r := Failure(e);
      case RefreshData(t) =>
        if !Truthy(t) {
          TriggerLogout();
          r := Failure(Thrown("Invalid refresh response"));
        } else {
          SetAccessToken(t.value);
          r := Success(t.value);
        }
    }
  }

  /** What callers see of the session: setting a token and reading it back
      gives the token, the two slots are independent, and after `clear` or a
      logout both read as absent. */
  method SessionRoundTrip(access: string, refresh: string, h1: HandlerId, h2: HandlerId)
    returns (a1: Option<string>, r1: Option<string>, a2: Option<string>, r2: Option<string>, calls: seq<HandlerId>)
    requires h1 != h2
    ensures a1 == Some(access) && r1 == Some(refresh)
    ensures a2 == None && r2 == None
    ensures calls == [h2]
  {
    var auth := new AuthService(map[], map[]);
    auth.SetAccessToken(access);
    auth.SetRefreshToken(refresh);
    a1 := auth.GetAccessToken();
    r1 := auth.GetRefreshToken();
    auth.OnLogout(h1);
    auth.OnLogout(h2);
    auth.OnLogout(h1);
    assert auth.logoutHandlers == [h1, h2, h1];
    assert [h1, h2, h1][1..] == [h2, h1] && [h2, h1][1..] == [h1] && [h1][1..] == [];
    assert Without([h1], h1) == [];
    assert Without([h2, h1], h1) == [h2];
    assert Without([h1, h2, h1], h1) == [h2];
    auth.Unsubscribe(h1);
    assert auth.logoutHandlers == [h2];
    auth.TriggerLogout();
    a2 := auth.GetAccessToken();
    r2 := auth.GetRefreshToken();
    calls := auth.handlerCalls;
  }
}
