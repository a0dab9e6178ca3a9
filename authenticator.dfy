/** The OpenShift authenticator object: its configuration, the one piece of
    state that persists between logins (which CA bundle the token request
    tries first), the login flow and the refresh of a logged-in user. */
module OpenShift {
  import opened Outcomes
  import opened GroupPolicy
  import opened UserLookup
  import Endpoints

  /** The token endpoint's JSON response, reduced to `access_token`. */
  datatype TokenResponse = TokenResponse(accessToken: string)

  /** The `HTTPRequest` that `token_request(url)` builds: a POST of the
      authorization code to the token endpoint with one CA bundle. */
  datatype TokenRequest = TokenRequest(tokenUrl: string, code: string, validateCert: bool, caCerts: string)

  /** The bearer-authenticated GET of the user-info endpoint. */
  datatype UserRequest = UserRequest(url: string, authorization: string, validateCert: bool, caCerts: string)

  /** Whether a first token attempt ended in the one failure that is retried. */
  predicate IsCurlFailure(attempt: Outcome<TokenResponse>): (r: bool)
    // A retried failure carries code 599; any other raised failure is an HTTPError.
    ensures r ==> attempt.Raised? && attempt.error.Code() == 599
    ensures !r && attempt.Raised? ==> attempt.error.HttpError?
  {
    attempt.Raised? && attempt.error.CurlError?
  }

  /** The certificate preference after one login whose first token attempt
      ended with `first`. */
  function FlagAfterLogin(flag: bool, first: Outcome<TokenResponse>): (next: bool)
    ensures next != flag <==> IsCurlFailure(first)
  {
    if IsCurlFailure(first) then !flag else flag
  }

  /** The preference after a series of logins, oldest first. */
  function FlagAfterLogins(flag: bool, firsts: seq<Outcome<TokenResponse>>): (final: bool)
    decreases |firsts|
  {
    if firsts == [] then flag else FlagAfterLogins(FlagAfterLogin(flag, firsts[0]), firsts[1..])
  }

  /** How many of those logins had to retry their token request. */
  function CurlRetries(firsts: seq<Outcome<TokenResponse>>): (n: nat)
  {
    if firsts == [] then 0 else (if IsCurlFailure(firsts[0]) then 1 else 0) + CurlRetries(firsts[1..])
  }

  /** Every retry negates the persistent flag and nothing else touches it, so
      after a series of logins it differs from its start value exactly when
      an odd number of them retried. */
  lemma {:induction false} FlagParity(flag: bool, firsts: seq<Outcome<TokenResponse>>)
    ensures FlagAfterLogins(flag, firsts) == (flag != (CurlRetries(firsts) % 2 == 1))
    decreases |firsts|
  {
    if firsts != [] {
      FlagParity(FlagAfterLogin(flag, firsts[0]), firsts[1..]);
    }
  }

  /** A logged-in hub user: the stored auth state and how many times the
      hub was told to stop the user. */
  class HubUser {
    const authState: AuthState
    var stopCalls: nat

    constructor (authState: AuthState)
      ensures this.authState == authState && stopCalls == 0
    {
      this.authState := authState;
      stopCalls := 0;
    }

    /** `user.stop()` */
    method Stop()
      modifies this
      ensures stopCalls == old(stopCalls) + 1
    {
      stopCalls := stopCalls + 1;
    }
  }

  class Authenticator {
    const config: Config
    const validateServerCert: bool
    const caCerts: string
    const systemCaCerts: string
    const tokenUrl: string
    const userdataUrl: string
    /** `use_ca_certs_for_token_request`: true selects `ca_certs` for the
        token request, false selects `system_ca_certs`. */
    var useCaCertsForTokenRequest: bool

    /** The endpoint URLs take their defaults from the issuer and the REST
        API base; the initial certificate preference is given. */
    constructor (config: Config, validateServerCert: bool, caCerts: string, systemCaCerts: string,
                 issuer: string, restApiUrl: string, useCaCertsForTokenRequest: bool)
      ensures this.config == config && this.validateServerCert == validateServerCert
      ensures this.caCerts == caCerts && this.systemCaCerts == systemCaCerts
      ensures tokenUrl == Endpoints.TokenUrl(issuer) && userdataUrl == Endpoints.UserdataUrl(restApiUrl)
      ensures this.useCaCertsForTokenRequest == useCaCertsForTokenRequest
    {
      this.config := config;
      this.validateServerCert := validateServerCert;
      this.caCerts := caCerts;
      this.systemCaCerts := systemCaCerts;
      tokenUrl := Endpoints.TokenUrl(issuer);
      userdataUrl := Endpoints.UserdataUrl(restApiUrl);
      this.useCaCertsForTokenRequest := useCaCertsForTokenRequest;
    }

    /** The CA bundle a token request built now would use: `ca_certs` while
        the preference is set, `system_ca_certs` otherwise. */
    function TokenCaCerts(): (certs: string)
      reads this
      ensures certs == caCerts || certs == systemCaCerts
      ensures caCerts != systemCaCerts ==> (certs == caCerts <==> useCaCertsForTokenRequest)
    {
      if useCaCertsForTokenRequest then caCerts else systemCaCerts
    }

    /** `token_request(url)`, built from the current preference. */
    function TokenRequestFor(code: string): TokenRequest
      reads this
    {
      TokenRequest(tokenUrl, code, validateServerCert, TokenCaCerts())
    }

    /** The request `_get_openshift_user_info` sends: it always uses
        `ca_certs`, whatever the token-request preference is. */
    function UserRequestFor(accessToken: string): UserRequest
    {
      UserRequest(userdataUrl, "Bearer " + accessToken, validateServerCert, caCerts)
    }

    /** The token exchange of `authenticate`. `first` and `retry` are what the
        first and, if made, the second fetch return or raise; `requests` are
        the requests actually sent. Only a CurlError on the first attempt
        leads to a retry, made after negating the stored preference, so the
        retry uses the other bundle; whatever the retry ends with is final. */
    method RequestToken(code: string, first: Outcome<TokenResponse>, retry: Outcome<TokenResponse>)
      returns (resp: Outcome<TokenResponse>, requests: seq<TokenRequest>)
      modifies this
      ensures 1 <= |requests| <= 2
      ensures |requests| == 2 <==> IsCurlFailure(first)
      ensures requests[0] == old(TokenRequestFor(code))
      ensures useCaCertsForTokenRequest == FlagAfterLogin(old(useCaCertsForTokenRequest), first)
      ensures |requests| == 1 ==> resp == first
      ensures |requests| == 2 ==>
        resp == retry &&
        useCaCertsForTokenRequest == !old(useCaCertsForTokenRequest) &&
        requests[1] == requests[0].(caCerts := TokenCaCerts()) &&
        (caCerts != systemCaCerts ==> requests[1].caCerts != requests[0].caCerts)
    {
      requests := [TokenRequestFor(code)];
      resp := first;
      if IsCurlFailure(first) {
        useCaCertsForTokenRequest := !useCaCertsForTokenRequest;
        requests := requests + [TokenRequestFor(code)];
        resp := retry;
      }
    }

    /** `authenticate(handler)`: exchange `code` for a token, then look the
        user up with it. The token requests are those of `RequestToken`. A
        token failure that is not retried, or a failed retry, propagates and
        no lookup is made. */
    method Authenticate(code: string, first: Outcome<TokenResponse>, retry: Outcome<TokenResponse>,
                        userFetch: Outcome<OpenShiftUser>)
      returns (r: Outcome<Option<UserRecord>>, requests: seq<TokenRequest>, userRequest: Option<UserRequest>)
      modifies this
      ensures 1 <= |requests| <= 2 && (|requests| == 2 <==> IsCurlFailure(first))
      ensures requests[0] == old(TokenRequestFor(code))
      ensures useCaCertsForTokenRequest == FlagAfterLogin(old(useCaCertsForTokenRequest), first)
      ensures |requests| == 2 ==>
        requests[1] == requests[0].(caCerts := TokenCaCerts()) &&
        (caCerts != systemCaCerts ==> requests[1].caCerts != requests[0].caCerts)
      ensures var token := if |requests| == 1 then first else retry;
        match token
        case Raised(ex) => r == Raised(ex) && userRequest == None
        case Returned(resp) =>
          r == GetUserInfo(config, resp.accessToken, userFetch) &&
          userRequest == Some(UserRequestFor(resp.accessToken)) &&
          userRequest.value.caCerts == caCerts
    {
      var tokenResp;
      tokenResp, requests := RequestToken(code, first, retry);
      match tokenResp
      case Raised(ex) =>
        r, userRequest := Raised(ex), None;
      case Returned(resp) =>
        userRequest := Some(UserRequestFor(resp.accessToken));
        r := GetUserInfo(config, resp.accessToken, userFetch);
    }

    /** `refresh_user(user)`: repeat the lookup with the stored token; the
        user is stopped exactly when it yields no user, and the result is
        returned unchanged. A lookup that raises stops no one. */
    method RefreshUser(user: HubUser, fetched: Outcome<OpenShiftUser>) returns (r: Outcome<Option<UserRecord>>)
      modifies user
      ensures r == GetUserInfo(config, user.authState.accessToken, fetched)
      ensures user.stopCalls == old(user.stopCalls) + (if r == Returned(None) then 1 else 0)
      ensures user.stopCalls != old(user.stopCalls) <==>
        (fetched.Raised? && fetched.error.Code() == 401) ||
        (fetched.Returned? && !Admits(config, fetched.value.groups))
    {
      r := GetUserInfo(config, user.authState.accessToken, fetched);
      NoUserCases(config, user.authState.accessToken, fetched);
      if r == Returned(None) {
        user.Stop();
      }
    }
  }

  /** Two logins in a row: when the first had to retry and the retry
      succeeded, the next login tries first the bundle that just worked. */
  method ConsecutiveLogins(auth: Authenticator, code1: string, errno: int, token1: TokenResponse,
                           code2: string, first2: Outcome<TokenResponse>, retry2: Outcome<TokenResponse>)
    returns (requests1: seq<TokenRequest>, requests2: seq<TokenRequest>)
    modifies auth
    ensures |requests1| == 2 && |requests2| >= 1
    ensures auth.caCerts != auth.systemCaCerts ==> requests1[0].caCerts != requests1[1].caCerts
    ensures requests2[0].caCerts == requests1[1].caCerts
  {
    var resp1;
    resp1, requests1 := auth.RequestToken(code1, Raised(CurlError(errno)), Returned(token1));
    var resp2;
    resp2, requests2 := auth.RequestToken(code2, first2, retry2);
  }
}
