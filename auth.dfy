/**
 * The Authorization header of `Imgur._get_headers`: a bearer token when an
 * access token is set, the application's Client-ID otherwise.
 */
module Auth {
  import opened Wrappers

  /** `if self.access_token:` — `None` and the empty string are both falsy. */
  predicate HasToken(accessToken: Option<string>) {
    accessToken.Some? && accessToken.value != ""
  }

  /** The headers dict `_get_headers` returns. */
  function AuthHeaders(clientId: string, accessToken: Option<string>): (h: map<string, string>)
    ensures h.Keys == {"Authorization"}
  {
    map["Authorization" := if HasToken(accessToken) then "Bearer " + accessToken.value
                           else "Client-ID " + clientId]
  }

  /** The two credentials an Authorization value can carry. */
  datatype Credential = Bearer(token: string) | ClientId(id: string)

  /** How the server reads an Authorization value back. */
  function ParseAuthorization(value: string): Option<Credential> {
    if |value| >= 7 && value[..7] == "Bearer " then Some(Bearer(value[7..]))
    else if |value| >= 10 && value[..10] == "Client-ID " then Some(ClientId(value[10..]))
    else None
  }

  /**
   * The single header names the access token when one is set, and the
   * client id otherwise: the token takes precedence.
   */
  lemma AuthHeaderCarries(clientId: string, accessToken: Option<string>)
    ensures ParseAuthorization(AuthHeaders(clientId, accessToken)["Authorization"])
         == Some(if HasToken(accessToken) then Bearer(accessToken.value) else ClientId(clientId))
  {
    var v := AuthHeaders(clientId, accessToken)["Authorization"];
    if HasToken(accessToken) {
      assert v[..7] == "Bearer " && v[7..] == accessToken.value;
    } else {
      assert v[..7] != "Bearer " by { assert v[0] == 'C'; }
      assert v[..10] == "Client-ID " && v[10..] == clientId;
    }
  }
}
