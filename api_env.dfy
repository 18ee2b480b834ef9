/** The application environment variables a run sees (src/api/env.ts):
    the configured JSON object with the secrets written over it, in full
    or redacted. */
module ApiEnv {
  import opened Base
  import opened Strings
  import opened Model
  import opened Env

  const APP_ENV_VAR_KEY := "Env"
  const REDACTED := "<redacted>"

  /** The name a secret is exposed under: the variable name with the first
      occurrence of the prefix removed, lower-cased. */
  function ShortKey(key: string): string {
    ToLower(ReplaceFirst(key, ENV_VAR_PREFIX, ""))
  }

  /** For a variable named with the prefix, the rest of its name, lower-cased. */
  lemma ShortKeyOfPrefixed(key: string)
    requires StartsWith(key, ENV_VAR_PREFIX)
    ensures ShortKey(key) == ToLower(key[|ENV_VAR_PREFIX|..])
  {
    ReplacePrefix(key, ENV_VAR_PREFIX);
  }

  /** The object after writing the secrets, in order, over `json`: each
      under its short key, with its value or, when redacting, `<redacted>`. */
  function WithSecrets(json: map<string, Value>, secrets: seq<(string, string)>, redact: bool): map<string, Value>
    decreases |secrets|
  {
    if |secrets| == 0 then json
    else
      var n := |secrets| - 1;
      WithSecrets(json, secrets[..n], redact)[ShortKey(secrets[n].0) := Str(if redact then REDACTED else secrets[n].1)]
  }

  /** The short keys of the secrets. */
  function SecretKeys(secrets: seq<(string, string)>): set<string> {
    set i | 0 <= i < |secrets| :: ShortKey(secrets[i].0)
  }

  /** `getAppEnvVars`, on the parsed JSON and the secrets in order. */
  method GetAppEnvVars(json: map<string, Value>, secrets: seq<(string, string)>) returns (envVarObj: map<string, Value>)
    ensures envVarObj == WithSecrets(json, secrets, false)
  {
    envVarObj := json;
    for i := 0 to |secrets|
      invariant envVarObj == WithSecrets(json, secrets[..i], false)
    {
      assert secrets[..i + 1][..i] == secrets[..i];
      var (key, value) := secrets[i];
      envVarObj := envVarObj[ShortKey(key) := Str(value)];
    }
    assert secrets[..|secrets|] == secrets;
  }

  /** `getRedactedAppEnvVars`. */
  method GetRedactedAppEnvVars(json: map<string, Value>, secrets: seq<(string, string)>) returns (envVarObj: map<string, Value>)
    ensures envVarObj == WithSecrets(json, secrets, true)
  {
    envVarObj := json;
    for i := 0 to |secrets|
      invariant envVarObj == WithSecrets(json, secrets[..i], true)
    {
      assert secrets[..i + 1][..i] == secrets[..i];
      var (key, _) := secrets[i];
      envVarObj := envVarObj[ShortKey(key) := Str(REDACTED)];
    }
    assert secrets[..|secrets|] == secrets;
  }

  lemma SecretKeysSnoc(secrets: seq<(string, string)>)
    requires |secrets| > 0
    ensures SecretKeys(secrets) == SecretKeys(secrets[..|secrets| - 1]) + {ShortKey(secrets[|secrets| - 1].0)}
  {
    var n := |secrets| - 1;
    var init := secrets[..n];
    forall k | k in SecretKeys(secrets) ensures k in SecretKeys(init) + {ShortKey(secrets[n].0)} {
      var i :| 0 <= i < |secrets| && ShortKey(secrets[i].0) == k;
      if i < n { assert init[i] == secrets[i]; }
    }
    forall k | k in SecretKeys(init) ensures k in SecretKeys(secrets) {
      var i :| 0 <= i < |init| && ShortKey(init[i].0) == k;
      assert secrets[i] == init[i];
    }
  }

  /** Both objects have the JSON's keys and the secrets' short keys. */
  lemma {:induction false} WithSecretsKeys(json: map<string, Value>, secrets: seq<(string, string)>, redact: bool)
    ensures WithSecrets(json, secrets, redact).Keys == json.Keys + SecretKeys(secrets)
    decreases |secrets|
  {
    if |secrets| > 0 {
      WithSecretsKeys(json, secrets[..|secrets| - 1], redact);
      SecretKeysSnoc(secrets);
    }
  }

  /** A key only the JSON has keeps its JSON value. */
  lemma {:induction false} WithSecretsJsonOnly(json: map<string, Value>, secrets: seq<(string, string)>, redact: bool, k: string)
    requires k in json && k !in SecretKeys(secrets)
    ensures k in WithSecrets(json, secrets, redact) && WithSecrets(json, secrets, redact)[k] == json[k]
    decreases |secrets|
  {
    if |secrets| > 0 {
      SecretKeysSnoc(secrets);
      WithSecretsJsonOnly(json, secrets[..|secrets| - 1], redact, k);
    }
  }

  /** The position of the last secret whose short key is `k`, if any. */
  predicate LastWithKey(secrets: seq<(string, string)>, k: string, i: int) {
    0 <= i < |secrets| && ShortKey(secrets[i].0) == k &&
    forall j :: i < j < |secrets| ==> ShortKey(secrets[j].0) != k
  }

  /** A secret short key holds the value of the last secret with that short
      key, or `<redacted>`. */
  lemma {:induction false} WithSecretsLast(json: map<string, Value>, secrets: seq<(string, string)>, redact: bool, k: string)
    returns (i: int)
    requires k in SecretKeys(secrets)
    ensures LastWithKey(secrets, k, i)
    ensures k in WithSecrets(json, secrets, redact)
    ensures WithSecrets(json, secrets, redact)[k] == Str(if redact then REDACTED else secrets[i].1)
    decreases |secrets|
  {
    var n := |secrets| - 1;
    var init := secrets[..n];
    SecretKeysSnoc(secrets);
    var last := ShortKey(secrets[n].0);
    var before := WithSecrets(json, init, redact);
    assert WithSecrets(json, secrets, redact) == before[last := Str(if redact then REDACTED else secrets[n].1)];
    if last == k {
      i := n;
    } else {
      assert k in SecretKeys(init);
      i := WithSecretsLast(json, init, redact, k);
      assert secrets[i] == init[i];
      forall j | i < j < |secrets| ensures ShortKey(secrets[j].0) != k {
        if j < n { assert secrets[j] == init[j]; }
      }
    }
  }

  /** Given the same JSON and secrets, the full and the redacted objects
      have the same keys and agree wherever no secret is involved. */
  lemma RedactionParity(json: map<string, Value>, secrets: seq<(string, string)>)
    ensures WithSecrets(json, secrets, false).Keys == WithSecrets(json, secrets, true).Keys
    ensures forall k :: k in json && k !in SecretKeys(secrets) ==>
      k in WithSecrets(json, secrets, false) && k in WithSecrets(json, secrets, true) &&
      WithSecrets(json, secrets, false)[k] == WithSecrets(json, secrets, true)[k]
    ensures forall k :: k in SecretKeys(secrets) ==>
      k in WithSecrets(json, secrets, true) && WithSecrets(json, secrets, true)[k] == Str(REDACTED)
  {
    WithSecretsKeys(json, secrets, false);
    WithSecretsKeys(json, secrets, true);
    forall k | k in json && k !in SecretKeys(secrets)
      ensures k in WithSecrets(json, secrets, false) && k in WithSecrets(json, secrets, true) &&
        WithSecrets(json, secrets, false)[k] == WithSecrets(json, secrets, true)[k]
    {
      WithSecretsJsonOnly(json, secrets, false, k);
      WithSecretsJsonOnly(json, secrets, true, k);
    }
    forall k | k in SecretKeys(secrets)
      ensures k in WithSecrets(json, secrets, true) && WithSecrets(json, secrets, true)[k] == Str(REDACTED)
    {
      var _ := WithSecretsLast(json, secrets, true, k);
    }
  }
}
