# OpenShift OAuthenticator: decision core

A Dafny model of the decision logic of the OpenShift authenticator for
JupyterHub (`oauthenticator/openshift.py`). The hub sends a user through
OpenShift's OAuth server. The authenticator exchanges the authorization code
for an access token, fetches the user object with that token and, when
`allowed_groups` or `admin_groups` is configured, admits or rejects the user
and sets the `admin` flag from group membership. The model covers:

- **Group policy** (module `GroupPolicy`, file `group_policy.dfy`).
  `UserInGroups` is `any(user_groups.intersection(groups))`. Because `any`
  skips falsy elements, a shared empty-string group name does not count.
  `AddGroupInfo` is `_add_openshift_group_info`. Both are specified against a
  reference predicate, `Shares`, stated on the user's raw `groups` list, and
  against the admission rule `Admits`: with no group set configured everyone
  is admitted, otherwise the user must share a non-empty name with the union
  of the admin and allowed sets.
- **User lookup** (module `UserLookup`, file `user_lookup.dfy`).
  `GetUserInfo` is `_get_openshift_user_info` with the user-info fetch given
  as an input that either returns an OpenShift user or raises an exception.
  A 401 gives no user. Every other exception propagates unchanged, including
  tornado's `CurlError`, whose HTTP code is 599. The policy runs only when a
  group set is configured.
- **Endpoints** (module `Endpoints`, file `endpoints.dfy`). These are the
  default `authorize_url`, `token_url` and `userdata_url`.
- **The authenticator object** (module `OpenShift`, file `authenticator.dfy`).
  Class `Authenticator` has the persistent field `useCaCertsForTokenRequest`.
  `RequestToken` is the token exchange: a `CurlError` on the first attempt
  negates the field and leads to exactly one retry, which uses the other CA
  bundle. `Authenticate` chains the exchange and the lookup. `RefreshUser`
  stops the hub user exactly when the lookup yields no user. `FlagParity`
  describes the field over a series of logins. Class `HubUser` stands for
  the hub's user object: its stored auth state and its `stop()` calls.

Network fetches are inputs. `Outcome<T>` is either `Returned(value)` or
`Raised(error)`. `Error` is either `CurlError(errno)` or
`HttpError(status)`. A token request's outcome is given separately for the
first attempt and for the retry. A missing `admin` key is `admin == None`.

## Model

| member | source | states |
|---|---|---|
| GroupPolicy.UserInGroups | oauthenticator/openshift.py:94-96 | true exactly when the two sets still have a common name after the empty string is removed |
| GroupPolicy.CommonTruthyName | oauthenticator/openshift.py:96 | `any` over a set of names is true exactly when removing `""` leaves the set non-empty |
| GroupPolicy.Config.PolicyConfigured | oauthenticator/openshift.py:171 | `allowed_groups or admin_groups`: true iff at least one of the two sets is non-empty |
| GroupPolicy.ListedUserInGroups | oauthenticator/openshift.py:181-187 | the set test on `set(groups)` agrees with `Shares` on the raw list, in both directions |
| GroupPolicy.EmptyNameNeverGrants | oauthenticator/openshift.py:94-96 | removing `""` from the user's groups never changes the test; when `""` is shared, the test holds only if some other name is shared too |
| GroupPolicy.UserInGroupsMonotone | oauthenticator/openshift.py:94-96 | adding names to the configured set never turns a true test false |
| GroupPolicy.SharesUnion | oauthenticator/openshift.py:189 | sharing with "admin or allowed" means sharing with admin or sharing with allowed |
| GroupPolicy.AddGroupInfo | oauthenticator/openshift.py:176-197 | with admin groups configured: admitted iff the user shares an admin or an allowed group, and the record gains `admin` = admin membership (possibly false), nothing else changing; without them: admitted unchanged iff the user shares an allowed group; otherwise `None` |
| GroupPolicy.AddGroupInfoMatchesAdmits | oauthenticator/openshift.py:184-197 | under a configured policy, admission is exactly `Admits`; an admitted record keeps name and auth state, and has an `admin` key iff admin groups are configured |
| Outcomes.Error.Code | oauthenticator/openshift.py:158-159 | the `code` an `except HTTPError` handler reads: 599 for every `CurlError`, so only a plain HTTP error can carry 401 |
| UserLookup.GetUserInfo | oauthenticator/openshift.py:155-174 | 401 gives no user and any other exception is re-raised unchanged; a fetched user never raises; with no group set configured the record is exactly `{name, auth_state: {access_token, openshift_user}}`; otherwise admission is `Admits` and the admin key follows admin-group membership |
| UserLookup.NoUserCases | oauthenticator/openshift.py:155-197 | the lookup yields no user iff it got a 401 or the user fails the policy; it raises iff the fetch raised anything but a 401 |
| UserLookup.EmptyGroupNameAdmitsNoOne | oauthenticator/openshift.py:171-197 | example of `EmptyNameNeverGrants` at the lookup: a user whose only group is `""` is rejected even when `""` is configured as both an allowed and an admin group |
| Endpoints.AuthorizeUrl | oauthenticator/openshift.py:82-84 | the issuer followed by `/oauth/authorize` |
| Endpoints.TokenUrl | oauthenticator/openshift.py:86-88 | the issuer followed by `/oauth/token` |
| Endpoints.UserdataUrl | oauthenticator/openshift.py:90-92 | the REST API base followed by `/apis/user.openshift.io/v1/users/~` |
| Endpoints.EndpointsDetermineBase | oauthenticator/openshift.py:82-92 | each derived URL determines its base: equal URLs come from equal bases |
| OpenShift.IsCurlFailure | oauthenticator/openshift.py:126 | the one failure `except CurlError` catches: it has code 599, and every other raised failure is an `HTTPError` that is not retried |
| OpenShift.FlagAfterLogin | oauthenticator/openshift.py:123-131 | one login changes the certificate preference iff its first token attempt raised `CurlError` |
| OpenShift.FlagParity | oauthenticator/openshift.py:126-131 | after a series of logins, the preference differs from its start value iff an odd number of them retried |
| OpenShift.HubUser.constructor | oauthenticator/openshift.py:201 | the user holds the given auth state and has not been stopped |
| OpenShift.HubUser.Stop | oauthenticator/openshift.py:205 | counts one more `stop()` call |
| OpenShift.Authenticator.constructor | oauthenticator/openshift.py:82-92 | keeps the configuration, derives `token_url` and `userdata_url`, and takes the initial preference as given |
| OpenShift.Authenticator.TokenCaCerts | oauthenticator/openshift.py:119 | the token request's bundle is one of the two configured bundles, and, when they differ, it is `ca_certs` iff the preference is set |
| OpenShift.Authenticator.RequestToken | oauthenticator/openshift.py:123-131 | one or two requests; two exactly when the first raised `CurlError`; the first request uses the bundle of the old preference; the preference is negated exactly on a retry and stays negated; the retry is the first request with the bundle of the new preference, a different bundle whenever the two differ; the result is the first outcome, or the retry's outcome, failure included |
| OpenShift.Authenticator.Authenticate | oauthenticator/openshift.py:98-136 | the token requests exactly as in `RequestToken` (the first with the old preference's bundle, a retry only after `CurlError`, with the other bundle), and the negated preference; a final token failure propagates with no lookup; otherwise a GET of `userdata_url` with `Bearer <token>` and `ca_certs` is sent and the result is the lookup with the obtained token |
| OpenShift.Authenticator.RefreshUser | oauthenticator/openshift.py:199-207 | returns the lookup with the stored token unchanged; calls `stop()` once iff that lookup is "no user", i.e. a 401 or a policy rejection; never on an exception |
| OpenShift.ConsecutiveLogins | oauthenticator/openshift.py:126-131 | after a login whose CurlError retry succeeded, the next login's first request uses the bundle that succeeded, and the retry used a different bundle whenever the two are configured differently |

## Left out

- HTTP itself: building tornado `HTTPRequest`s, `fetch`, the `Accept` and `User-Agent` headers, and `url_concat`. These are foreign library calls and network I/O. Each fetch is an input outcome, and a token request records only the token URL, the code, `validate_cert` and the CA bundle. The client id and secret are not recorded.
- The discovery of the issuer from the `.well-known/oauth-authorization-server` document (lines 63-70). This is a network call, so the issuer is a constructor parameter. A metadata document without `issuer` makes `resp_json.get('issuer')` return `None`, which the `Unicode` trait `openshift_auth_api_url` rejects with a `TraitError` when it is read; the model does not cover that error.
- Explicitly configured `authorize_url`, `token_url` and `userdata_url`. In the source the derived URLs are only the defaults of configurable traits (lines 82-92), and a configured value overrides them; the constructor always derives them, so a configured URL of another shape cannot be expressed.
- The CA bundle defaults (lines 47-59). They depend on file-system checks, so both bundles are constructor parameters.
- The environment-variable defaults and the traitlets configuration machinery (lines 27-31, 72-80). The REST API base is a constructor parameter.
- The initial value of `use_ca_certs_for_token_request` (line 35). It is computed when the class is defined, from the trait object rather than from a configured path. The model takes it as a constructor parameter.
- Malformed payloads. The model assumes the user object has `metadata.name` and a `groups` list, the token response has `access_token`, and the stored auth state has `access_token`. With any of these missing the source raises a `KeyError` or `TypeError`, and the model does not cover that.
- A callback without a `code` argument. `handler.get_argument("code")` then raises tornado's `MissingArgumentError` (an HTTP 400); the model takes the code as a parameter.
- Exceptions from `fetch` that are not `HTTPError`s (connection or decoding errors) are not a separate case: they are represented by `HttpError(s)` with `s != 401`, which neither `except` clause turns into a retry or into "no user", exactly as for the source's uncaught exceptions.
- GroupPolicy.AddGroupInfo: `user_info['admin'] = is_admin` writes into the dictionary in place. The model returns an updated value instead. The dictionary is built fresh inside the lookup and is not shared, so no caller can tell the difference.
- Logging, the inherited OAuth2 base class, and the `LocalOpenShiftOAuthenticator` mixin (lines 210-214). These are foreign code or OS-user plumbing.
- Concurrent logins racing on the shared preference flag. The model is sequential: each method runs to completion before the next starts.
