/** Default endpoint URLs, derived from the issuer advertised by the OAuth
    server's metadata document and from the REST API base URL. */
module Endpoints {

  const AuthorizePath: string := "/oauth/authorize"
  const TokenPath: string := "/oauth/token"
  const UserdataPath: string := "/apis/user.openshift.io/v1/users/~"

  /** `authorize_url`: the issuer followed by `/oauth/authorize`. */
  function AuthorizeUrl(issuer: string): (url: string)
    ensures |url| == |issuer| + |AuthorizePath|
    ensures url[..|issuer|] == issuer && url[|issuer|..] == AuthorizePath
  {
    issuer + AuthorizePath
  }

  /** `token_url`: the issuer followed by `/oauth/token`. */
  function TokenUrl(issuer: string): (url: string)
    ensures |url| == |issuer| + |TokenPath|
    ensures url[..|issuer|] == issuer && url[|issuer|..] == TokenPath
  {
    issuer + TokenPath
  }

  /** `userdata_url`: the REST API base followed by the path of the
      current-user resource `~`. */
  function UserdataUrl(restApiUrl: string): (url: string)
    ensures |url| == |restApiUrl| + |UserdataPath|
    ensures url[..|restApiUrl|] == restApiUrl && url[|restApiUrl|..] == UserdataPath
  {
    restApiUrl + UserdataPath
  }

  /** Each derived URL determines the base it was derived from. */
  lemma EndpointsDetermineBase(a: string, b: string)
    ensures AuthorizeUrl(a) == AuthorizeUrl(b) ==> a == b
    ensures TokenUrl(a) == TokenUrl(b) ==> a == b
    ensures UserdataUrl(a) == UserdataUrl(b) ==> a == b
  {
  }
}
