/**
 * The authentication service: the login, registration and logout calls, and the
 * `Authorization` entry of the default headers every later request carries.
 */
module AuthService {
  import opened Js
  import opened Http

  /** The name of the header that carries the token. */
  const Authorization := "Authorization"

  /**
   * `response.data` of a successful login: `NoData` when the body is `null` or absent
   * (reading `.token` from it throws), otherwise an object whose `token` may be absent.
   */
  datatype LoginData = NoData | LoginData(token: Option<string>)

  /** The calls the service makes: `POST /auth`, `POST /registration`, `POST /logout`. */
  datatype Request = PostAuth(username: string, password: string)
                   | PostRegistration(username: string, password: string)
                   | PostLogout

  /**
   * `setToken(token)` on the default headers: a truthy token is set as
   * `Bearer <token>`, a falsy one deletes the entry; no other header is touched.
   */
  function WithToken(headers: map<string, string>, token: Option<string>): (r: map<string, string>)
    ensures Authorization in r <==> Truthy(token)
    ensures Truthy(token) ==> r[Authorization] == "Bearer " + token.value
    ensures forall k :: k != Authorization ==> (k in r <==> k in headers)
    ensures forall k :: k != Authorization && k in headers ==> r[k] == headers[k]
  {
    if Truthy(token) then headers[Authorization := "Bearer " + token.value]
    else headers - {Authorization}
  }

  /** Two headers maps that differ at most in `Authorization` agree after `setToken`. */
  lemma WithTokenOnlyAuthorization(a: map<string, string>, b: map<string, string>, token: Option<string>)
    requires forall k :: k != Authorization ==> (k in a <==> k in b)
    requires forall k :: k != Authorization && k in a ==> a[k] == b[k]
    ensures WithToken(a, token) == WithToken(b, token)
  {
    var ra, rb := WithToken(a, token), WithToken(b, token);
    assert forall k :: k in ra <==> k in rb;
    assert forall k :: k in ra ==> ra[k] == rb[k];
  }

  /** Setting the same token twice is the same as setting it once. */
  lemma WithTokenIdempotent(headers: map<string, string>, token: Option<string>)
    ensures WithToken(WithToken(headers, token), token) == WithToken(headers, token)
  {
    WithTokenOnlyAuthorization(WithToken(headers, token), headers, token);
  }

  /** Only the last token set counts. */
  lemma WithTokenLastWins(headers: map<string, string>, first: Option<string>, second: Option<string>)
    ensures WithToken(WithToken(headers, first), second) == WithToken(headers, second)
  {
    WithTokenOnlyAuthorization(WithToken(headers, first), headers, second);
  }

  /** The service, with `axios.defaults.headers.common` as its header map. */
  class AuthService {
    var headers: map<string, string>
    /** Every call made to the backend, in order. */
    var requests: seq<Request>

    constructor(headers: map<string, string>)
      ensures this.headers == headers && requests == []
    {
      this.headers := headers;
      requests := [];
    }

    /** `setToken(token)`. */
    method SetToken(token: Option<string>)
      modifies this
      ensures headers == WithToken(old(headers), token) && requests == old(requests)
    {
      headers := WithToken(headers, token);
    }

    /** `login(username, password)`: the call's outcome is handed back unchanged. */
    method Login(username: string, password: string, outcome: Response<LoginData>)
      returns (r: Response<LoginData>)
      modifies this
      ensures r == outcome
      ensures requests == old(requests) + [PostAuth(username, password)] && headers == old(headers)
    {
      requests := requests + [PostAuth(username, password)];
      r := outcome;
    }

    /** `register(username, password)`: the call's outcome is handed back unchanged. */
    method Register(username: string, password: string, outcome: Response<()>)
      returns (r: Response<()>)
      modifies this
      ensures r == outcome
      ensures requests == old(requests) + [PostRegistration(username, password)] && headers == old(headers)
    {
      requests := requests + [PostRegistration(username, password)];
      r := outcome;
    }

    /**
     * `logout()`: the header is cleared in a `finally`, so whether the call succeeds or
     * fails; a failure still reaches the caller.
     */
    method Logout(outcome: Response<()>) returns (r: Response<()>)
      modifies this
      ensures r == outcome
      ensures requests == old(requests) + [PostLogout]
      ensures headers == WithToken(old(headers), None) && Authorization !in headers
    {
      requests := requests + [PostLogout];
      r := outcome;
      SetToken(None);
    }
  }
}
