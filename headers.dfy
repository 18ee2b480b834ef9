/** Stamping of outgoing requests with the agent's identity
    (src/utils/headers.ts). */
module Headers {
  import opened Base
  import opened AgentAuth

  /** The header names, which the shared library defines. */
  datatype HeaderNames = HeaderNames(
    apiKey: string,
    environment: string,
    hostUrl: string,
    internalHostUrl: string,
    agentId: string,
    agentKey: string,
    version: string,
    versionExternal: string)

  /** The agent settings the headers carry. */
  datatype AgentSettings = AgentSettings(
    environment: string,
    url: string,
    internalHostUrl: string,
    id: string,
    key: string,
    version: string,
    versionExternal: string)

  const AUTHORIZATION := "Authorization"

  /** The seven identity headers, in the order they are written. */
  function AgentHeaderNames(names: HeaderNames): seq<string> {
    [names.environment, names.hostUrl, names.internalHostUrl, names.agentId,
     names.agentKey, names.version, names.versionExternal]
  }

  /** Every key the stamping may write. */
  function StampedKeys(names: HeaderNames): seq<string> {
    [names.apiKey, AUTHORIZATION] + AgentHeaderNames(names)
  }

  /** No two headers share a name. */
  predicate DistinctNames(names: HeaderNames) {
    var ks := StampedKeys(names);
    forall i, j :: 0 <= i < j < |ks| ==> ks[i] != ks[j]
  }

  /** The headers after `setAgentHeaders`: the API key and the JWT when
      given, then the seven identity headers. */
  function StampedHeaders(h: map<string, string>, creds: AgentCredentials, names: HeaderNames, s: AgentSettings): map<string, string> {
    var withKey := if Given(creds.apiKey) then h[names.apiKey := creds.apiKey.value] else h;
    var withJwt := if Given(creds.jwt) then withKey[AUTHORIZATION := creds.jwt.value] else withKey;
    withJwt[names.environment := s.environment]
      [names.hostUrl := s.url]
      [names.internalHostUrl := s.internalHostUrl]
      [names.agentId := s.id]
      [names.agentKey := s.key]
      [names.version := s.version]
      [names.versionExternal := s.versionExternal]
  }

  /** Names the nine stamped keys, so that the distinctness of any two of
      them is at hand. */
  lemma StampedKeysListed(names: HeaderNames)
    ensures StampedKeys(names) == [names.apiKey, AUTHORIZATION, names.environment, names.hostUrl,
      names.internalHostUrl, names.agentId, names.agentKey, names.version, names.versionExternal]
  {
  }

  /** The identity headers are always set, whatever was there before. */
  lemma AgentHeadersSet(h: map<string, string>, creds: AgentCredentials, names: HeaderNames, s: AgentSettings)
    requires DistinctNames(names)
    ensures var r := StampedHeaders(h, creds, names, s);
      names.environment in r && r[names.environment] == s.environment &&
      names.hostUrl in r && r[names.hostUrl] == s.url &&
      names.internalHostUrl in r && r[names.internalHostUrl] == s.internalHostUrl &&
      names.agentId in r && r[names.agentId] == s.id &&
      names.agentKey in r && r[names.agentKey] == s.key &&
      names.version in r && r[names.version] == s.version &&
      names.versionExternal in r && r[names.versionExternal] == s.versionExternal
  {
    var ks := StampedKeys(names);
    StampedKeysListed(names);
    assert ks[2] != ks[3] && ks[2] != ks[4] && ks[2] != ks[5] && ks[2] != ks[6] && ks[2] != ks[7] && ks[2] != ks[8];
    assert ks[3] != ks[4] && ks[3] != ks[5] && ks[3] != ks[6] && ks[3] != ks[7] && ks[3] != ks[8];
    assert ks[4] != ks[5] && ks[4] != ks[6] && ks[4] != ks[7] && ks[4] != ks[8];
    assert ks[5] != ks[6] && ks[5] != ks[7] && ks[5] != ks[8];
    assert ks[6] != ks[7] && ks[6] != ks[8] && ks[7] != ks[8];
  }

  /** The API key header is written exactly when the API key is given;
      otherwise it keeps whatever it had. */
  lemma ApiKeyHeader(h: map<string, string>, creds: AgentCredentials, names: HeaderNames, s: AgentSettings)
    requires DistinctNames(names)
    ensures Given(creds.apiKey) ==>
      names.apiKey in StampedHeaders(h, creds, names, s) && StampedHeaders(h, creds, names, s)[names.apiKey] == creds.apiKey.value
    ensures !Given(creds.apiKey) ==>
      (names.apiKey in StampedHeaders(h, creds, names, s) <==> names.apiKey in h) &&
      (names.apiKey in h ==> StampedHeaders(h, creds, names, s)[names.apiKey] == h[names.apiKey])
  {
    var ks := StampedKeys(names);
    StampedKeysListed(names);
    assert ks[0] != ks[1] && ks[0] != ks[2] && ks[0] != ks[3] && ks[0] != ks[4];
    assert ks[0] != ks[5] && ks[0] != ks[6] && ks[0] != ks[7] && ks[0] != ks[8];
  }

  /** `Authorization` becomes the JWT exactly when the JWT is given;
      otherwise it keeps whatever it had. */
  lemma AuthorizationHeader(h: map<string, string>, creds: AgentCredentials, names: HeaderNames, s: AgentSettings)
    requires DistinctNames(names)
    ensures Given(creds.jwt) ==>
      AUTHORIZATION in StampedHeaders(h, creds, names, s) && StampedHeaders(h, creds, names, s)[AUTHORIZATION] == creds.jwt.value
    ensures !Given(creds.jwt) ==>
      (AUTHORIZATION in StampedHeaders(h, creds, names, s) <==> AUTHORIZATION in h) &&
      (AUTHORIZATION in h ==> StampedHeaders(h, creds, names, s)[AUTHORIZATION] == h[AUTHORIZATION])
  {
    var ks := StampedKeys(names);
    StampedKeysListed(names);
    assert ks[0] != ks[1] && ks[1] != ks[2] && ks[1] != ks[3] && ks[1] != ks[4];
    assert ks[1] != ks[5] && ks[1] != ks[6] && ks[1] != ks[7] && ks[1] != ks[8];
  }

  /** Keys the stamping does not write are untouched. */
  lemma OtherHeadersUntouched(h: map<string, string>, creds: AgentCredentials, names: HeaderNames, s: AgentSettings, k: string)
    requires k !in StampedKeys(names)
    ensures k in StampedHeaders(h, creds, names, s) <==> k in h
    ensures k in h ==> StampedHeaders(h, creds, names, s)[k] == h[k]
  {
    StampedKeysListed(names);
  }

  /** A header object updated in place. */
  class HeaderDict {
    var entries: map<string, string>

    constructor (entries: map<string, string>)
      ensures this.entries == entries
    {
      this.entries := entries;
    }
  }

  /** `setAgentHeaders`: writes the headers into `headers` and returns the
      same object. */
  method SetAgentHeaders(headers: HeaderDict, creds: AgentCredentials, names: HeaderNames, settings: AgentSettings)
    returns (r: HeaderDict)
    modifies headers
    ensures r == headers
    ensures headers.entries == StampedHeaders(old(headers.entries), creds, names, settings)
  {
    if Given(creds.apiKey) {
      headers.entries := headers.entries[names.apiKey := creds.apiKey.value];
    }
    if Given(creds.jwt) {
      headers.entries := headers.entries[AUTHORIZATION := creds.jwt.value];
    }
    headers.entries := headers.entries[names.environment := settings.environment];
    headers.entries := headers.entries[names.hostUrl := settings.url];
    headers.entries := headers.entries[names.internalHostUrl := settings.internalHostUrl];
    headers.entries := headers.entries[names.agentId := settings.id];
    headers.entries := headers.entries[names.agentKey := settings.key];
    headers.entries := headers.entries[names.version := settings.version];
    headers.entries := headers.entries[names.versionExternal := settings.versionExternal];
    r := headers;
  }
}
