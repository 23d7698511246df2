/**
 * The login modal: two inputs and a submit handler that signs in through the service,
 * hands the token to the service and to the sidebar, and closes itself.
 */
module LoginModal {
  import opened Js
  import opened Http
  import opened AuthService
  import opened Auth

  const InvalidCredentials := "Неправильное имя пользователя или пароль."

  /** The two inputs. */
  datatype Input = Username | Password

  /**
   * The calls a successful login makes outside the modal, in the order it makes them:
   * `authService.setToken`, the `onLoginSuccess` callback and the `handleClose` callback.
   */
  datatype Effect = TokenSet(token: Option<string>) | SuccessReported(token: Option<string>) | Closed

  class LoginModal {
    var username: string
    var password: string
    var error: string
    /** Every call the modal has made outside itself, in order. */
    var effects: seq<Effect>

    constructor ()
      ensures username == "" && password == "" && error == "" && effects == []
    {
      username := "";
      password := "";
      error := "";
      effects := [];
    }

    /** An input's change handler. */
    method Edit(input: Input, value: string)
      modifies this
      ensures input == Username ==> username == value && password == old(password)
      ensures input == Password ==> password == value && username == old(username)
      ensures error == old(error) && effects == old(effects)
    {
      match input {
        case Username => username := value;
        case Password => password := value;
      }
    }

    /**
     * `handleLogin`: the typed credentials are posted. A response with a body sets the
     * token (a falsy one clears the header), passes it to the sidebar and closes the
     * modal; the inputs and an earlier error stay as they were. A failed call, or a body
     * without data, shows the credentials error and changes nothing else.
     */
    method HandleLogin(service: AuthService, auth: Auth, outcome: Response<LoginData>)
      modifies this, service, auth
      ensures service.requests == old(service.requests) + [PostAuth(old(username), old(password))]
      ensures username == old(username) && password == old(password)
      ensures auth.showRegister == old(auth.showRegister)
      ensures outcome.Ok? && outcome.data.LoginData? ==>
        var token := outcome.data.token;
        service.headers == WithToken(old(service.headers), token)
        && auth.token == token && !auth.showLogin && auth.Synced(service)
        && error == old(error)
        && effects == old(effects) + [TokenSet(token), SuccessReported(token), Closed]
      ensures !(outcome.Ok? && outcome.data.LoginData?) ==>
        error == InvalidCredentials && service.headers == old(service.headers)
        && auth.token == old(auth.token) && auth.showLogin == old(auth.showLogin)
        && effects == old(effects)
    {
      var r := service.Login(username, password, outcome);
      if r.Ok? && r.data.LoginData? {
        var token := r.data.token;
        service.SetToken(token);
        effects := effects + [TokenSet(token)];
        auth.HandleLoginSuccess(token);
        effects := effects + [SuccessReported(token)];
        auth.CloseLogin();
        effects := effects + [Closed];
      } else {
        error := InvalidCredentials;
      }
    }
  }
}
