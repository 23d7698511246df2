/**
 * The authentication block of the sidebar: the token the screen keeps, the menu it
 * shows for that token, the two modal flags and the logout handler.
 */
module Auth {
  import opened Js
  import opened Http
  import opened AuthService

  /** The sidebar links. */
  datatype MenuItem = LogIn | SignUp | LogOut

  /** `{!token ? (login, register) : (logout)}`. */
  function Menu(token: Option<string>): (items: seq<MenuItem>)
    ensures LogOut in items <==> Truthy(token)
    ensures LogIn in items <==> !Truthy(token)
    ensures SignUp in items <==> !Truthy(token)
    ensures forall i, j :: 0 <= i < j < |items| ==> items[i] != items[j]
  {
    if !Truthy(token) then [LogIn, SignUp] else [LogOut]
  }

  class Auth {
    var showLogin: bool
    var showRegister: bool
    var token: Option<string>

    /**
     * The screen and the service agree: the service sends `Bearer <token>` exactly when
     * the screen holds a truthy token.
     */
    predicate Synced(service: AuthService)
      reads this, service
    {
      (Authorization in service.headers <==> Truthy(token))
      && (Truthy(token) ==> service.headers[Authorization] == "Bearer " + token.value)
    }

    /** No token, both modals closed: the menu offers login and registration. */
    constructor ()
      ensures token == None && !showLogin && !showRegister
      ensures Menu(token) == [LogIn, SignUp]
    {
      token := None;
      showLogin := false;
      showRegister := false;
    }

    /** The login link opens the login modal. */
    method OpenLogin()
      modifies this
      ensures showLogin && showRegister == old(showRegister) && token == old(token)
    {
      showLogin := true;
    }

    /** The registration link opens the registration modal. */
    method OpenRegister()
      modifies this
      ensures showRegister && showLogin == old(showLogin) && token == old(token)
    {
      showRegister := true;
    }

    /** The login modal's `handleClose`. */
    method CloseLogin()
      modifies this
      ensures !showLogin && showRegister == old(showRegister) && token == old(token)
    {
      showLogin := false;
    }

    /** The registration modal's `handleClose`. */
    method CloseRegister()
      modifies this
      ensures !showRegister && showLogin == old(showLogin) && token == old(token)
    {
      showRegister := false;
    }

    /** `handleLoginSuccess(token)`: the screen keeps the token it is given. */
    method HandleLoginSuccess(newToken: Option<string>)
      modifies this
      ensures token == newToken
      ensures showLogin == old(showLogin) && showRegister == old(showRegister)
      ensures LogOut in Menu(token) <==> Truthy(newToken)
    {
      token := newToken;
    }

    /**
     * `handleLogout`: the service clears its header whatever the outcome; the screen
     * forgets its token only when the call succeeds, and a failure is only logged. A
     * failed logout from a signed-in screen therefore leaves the menu offering logout
     * while requests go out without the header.
     */
    method HandleLogout(service: AuthService, outcome: Response<()>)
      modifies this, service
      ensures service.requests == old(service.requests) + [PostLogout]
      ensures service.headers == WithToken(old(service.headers), None)
      ensures outcome.Ok? ==> token == None && Menu(token) == [LogIn, SignUp] && Synced(service)
      ensures outcome.Err? ==> token == old(token)
      ensures outcome.Err? && Truthy(old(token)) ==> !Synced(service) && Menu(token) == [LogOut]
      ensures showLogin == old(showLogin) && showRegister == old(showRegister)
    {
      var r := service.Logout(outcome);
      if r.Ok? {
        token := None;
      }
    }
  }
}
