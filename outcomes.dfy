/** Values exchanged between the authenticator and its two remote calls:
    the exceptions a fetch can raise, the OpenShift user object, the
    user-info record handed to the hub, and the outcome of a call that may
    raise. */
module Outcomes {

  /** An absent dictionary key or a `None` return. */
  datatype Option<+T> = None | Some(value: T)

  /** The two kinds of exception a fetch raises. tornado's `CurlError` is a
      subclass of `HTTPError` whose code is always 599. `HttpError(status)`
      is any other `HTTPError`, carrying the response status; an exception
      that is not an `HTTPError` at all (a connection or decoding error, say)
      is represented by an `HttpError(s)` with `s != 401`, which is handled
      the same way wherever the authenticator catches exceptions: it is
      neither retried nor turned into "no user". */
  datatype Error = CurlError(errno: int) | HttpError(status: int)
  {
    /** The `code` attribute an `except HTTPError as ex` handler sees. */
    function Code(): (code: int)
      ensures CurlError? ==> code == 599
      ensures code == 401 ==> this == HttpError(401)
    {
      match this
      case CurlError(_) => 599
      case HttpError(status) => status
    }
  }

  /** A call either returns a value or raises an exception, which then
      propagates to the caller. */
  datatype Outcome<+T> = Returned(value: T) | Raised(error: Error)

  /** The OpenShift `User` object returned by the user-info endpoint, reduced
      to the two fields the authenticator reads: `metadata.name` and the raw
      `groups` list. */
  datatype OpenShiftUser = OpenShiftUser(name: string, groups: seq<string>)

  /** `auth_state`: the access token and the whole user object. */
  datatype AuthState = AuthState(accessToken: string, openshiftUser: OpenShiftUser)

  /** The user-info dictionary `{name, auth_state[, admin]}`; `admin == None`
      means the key is not present. */
  datatype UserRecord = UserRecord(name: string, authState: AuthState, admin: Option<bool>)

  /** Python truthiness of a group name: only the empty string is false. */
  predicate Truthy(g: string) { g != "" }
}
