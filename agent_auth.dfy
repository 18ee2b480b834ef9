/** Agent credentials and the basic-auth token (src/utils/auth.ts, lines
    1-18); `getOrRefreshToken` is in the `TokenRefresh` module. */
module AgentAuth {
  import opened Base
  import opened Base64

  /** `AgentCredentials`; either field may be `undefined`. */
  datatype AgentCredentials = AgentCredentials(jwt: Option<string>, apiKey: Option<string>)

  /** `new AgentCredentials({jwt, apiKey})`: an omitted field defaults to `''`. */
  function NewAgentCredentials(jwt: Option<string>, apiKey: Option<string>): (c: AgentCredentials)
    ensures c.jwt.Some? && c.apiKey.Some?
    ensures Given(c.jwt) <==> Given(jwt)
    ensures Given(c.apiKey) <==> Given(apiKey)
    ensures Given(jwt) ==> c.jwt == jwt
    ensures Given(apiKey) ==> c.apiKey == apiKey
  {
    AgentCredentials(Some(jwt.GetOr("")), Some(apiKey.GetOr("")))
  }

  /** Truthiness of an optional string field: present and non-empty. */
  predicate Given(field: Option<string>) {
    field.Some? && field.value != ""
  }

  /** Credentials used where no object is passed (`agentCredentials = {}`). */
  const NoCredentials := AgentCredentials(None, None)

  /** `makeBasicAuthToken(u, p)`: the base64 text of the UTF-8 bytes of
      `u + ':' + p`, the user-pass form of section 2 of RFC 7617. */
  function MakeBasicAuthToken(username: string, password: string): (token: string)
    ensures Decode(token) == Some(Utf8(username + ":" + password))
  {
    EncodeDecode(Utf8(username + ":" + password));
    Encode(Utf8(username + ":" + password))
  }
}
