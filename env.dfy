/** Agent configuration (src/env.ts): normalisation of the configured agent
    URL, the boolean flags, and the derived default URLs. */
module Env {
  import opened Base
  import opened Strings

  /** The value of a setting: the environment's value if the variable is
      set, otherwise its declared default. */
  function Setting(env: map<string, string>, name: string, default: string): string {
    if name in env then env[name] else default
  }

  const ENV_VAR_PREFIX := "SUPERBLOCKS_AGENT_APP_ENV_"
  const DEFAULT_PORT := "8020"
  const DEFAULT_INTERNAL_HOST := "localhost"

  /** The characters of `s` before the first one in `stop`. */
  function PrefixBefore(s: string, stop: set<char>): (p: string)
    ensures |p| <= |s| && p == s[..|p|]
    ensures forall i :: 0 <= i < |p| ==> p[i] !in stop
    ensures |p| < |s| ==> s[|p|] in stop
    decreases |s|
  {
    if |s| == 0 || s[0] in stop then [] else [s[0]] + PrefixBefore(s[1..], stop)
  }

  /** The first part of `s.split(c)` is the text before the first `c`. */
  lemma {:induction false} SplitHead(s: string, c: char)
    ensures Split(s, [c])[0] == PrefixBefore(s, {c})
    decreases |s|
  {
    var p := PrefixBefore(s, {c});
    if |p| < |s| {
      assert s == p + [c] + s[|p| + 1..];
      assert c !in p;
      SplitAtChar(p, c, s[|p| + 1..]);
    } else {
      assert p == s;
      assert c !in s;
      SplitNoChar(s, c);
    }
  }

  /** Cutting at the first `a` and then at the first `b` cuts at the first
      of either. */
  lemma {:induction false} PrefixBeforeTwice(s: string, a: char, b: char)
    ensures PrefixBefore(PrefixBefore(s, {a}), {b}) == PrefixBefore(s, {a, b})
    decreases |s|
  {
    if |s| > 0 && s[0] != a && s[0] != b {
      PrefixBeforeTwice(s[1..], a, b);
    }
  }

  /** The host part of a URL without a scheme, as `addProtocolToURL` finds
      it: `rawUrl.split('/')[0].split(':')[0]`. */
  function HostPart(rawUrl: string): string {
    Split(Split(rawUrl, "/")[0], ":")[0]
  }

  /** The host part is everything before the first `/` or `:`. */
  lemma HostPartIsPrefix(rawUrl: string)
    ensures HostPart(rawUrl) == PrefixBefore(rawUrl, {'/', ':'})
  {
    SplitHead(rawUrl, '/');
    SplitHead(Split(rawUrl, "/")[0], ':');
    PrefixBeforeTwice(rawUrl, '/', ':');
  }

  predicate HasScheme(url: string) {
    StartsWith(url, "http://") || StartsWith(url, "https://")
  }

  /** `addProtocolToURL`. */
  function AddProtocolToUrl(rawUrl: string): (r: string)
    ensures HasScheme(r)
    ensures HasScheme(rawUrl) ==> r == rawUrl
    ensures !HasScheme(rawUrl) ==>
      r == (if HostPart(rawUrl) == "localhost" || HostPart(rawUrl) == "127.0.0.1" then "http://" else "https://") + rawUrl
  {
    if !HasScheme(rawUrl) then
      var host := HostPart(rawUrl);
      if host == "localhost" || host == "127.0.0.1" then "http://" + rawUrl else "https://" + rawUrl
    else rawUrl
  }

  /** Only the local host names get plain `http`; every other host part,
      whatever follows it after `/` or `:`, gets `https`. */
  lemma AddProtocolLocalHosts(rawUrl: string)
    requires !HasScheme(rawUrl)
    ensures StartsWith(AddProtocolToUrl(rawUrl), "http://") <==>
      PrefixBefore(rawUrl, {'/', ':'}) in {"localhost", "127.0.0.1"}
  {
    HostPartIsPrefix(rawUrl);
    var r := AddProtocolToUrl(rawUrl);
    if PrefixBefore(rawUrl, {'/', ':'}) !in {"localhost", "127.0.0.1"} {
      assert r[..7] == "https:/";
    }
  }

  /** The string `parseAgentUrl` hands to the URL parser. */
  function AgentUrlString(parsedUrl: string): (r: string)
    ensures EndsWith(r, "/agent")
  {
    if EndsWith(parsedUrl, "/agent") then parsedUrl
    else if EndsWith(parsedUrl, "/agent/") then
      assert parsedUrl[..|parsedUrl| - 1][|parsedUrl| - 7..] == parsedUrl[|parsedUrl| - 7..|parsedUrl| - 1];
      parsedUrl[..|parsedUrl| - 1]
    else if EndsWith(parsedUrl, "/") then parsedUrl + "agent"
    else parsedUrl + "/agent"
  }

  /** The full string normalisation of the configured agent URL: it
      always has an `http` or `https` scheme and ends with `/agent`. */
  function NormalizeAgentUrl(rawUrl: string): (u: string)
    ensures HasScheme(u) && EndsWith(u, "/agent")
  {
    AgentUrlKeepsScheme(AddProtocolToUrl(rawUrl));
    AgentUrlString(AddProtocolToUrl(rawUrl))
  }

  /** Each branch of the normalisation, and the text before the suffix is
      the input's. */
  lemma AgentUrlBranches(p: string)
    ensures EndsWith(p, "/agent") ==> AgentUrlString(p) == p
    ensures !EndsWith(p, "/agent") && EndsWith(p, "/agent/") ==> AgentUrlString(p) + "/" == p
    ensures !EndsWith(p, "/agent/") && EndsWith(p, "/") ==> AgentUrlString(p) == p + "agent"
    ensures !EndsWith(p, "/agent") && !EndsWith(p, "/") ==> AgentUrlString(p) == p + "/agent"
  {
    if !EndsWith(p, "/agent") && EndsWith(p, "/agent/") {
      assert p[|p| - 1] == '/';
      assert p == p[..|p| - 1] + "/";
    }
    if EndsWith(p, "/") {
      assert p[|p| - 1] == "/"[0];
      if |p| >= 6 {
        assert p[|p| - 6..][5] == p[|p| - 1];
      }
    }
  }

  lemma StartsWithExtend(p: string, q: string, pre: string)
    requires StartsWith(p, pre)
    ensures StartsWith(p + q, pre)
  {
    assert (p + q)[..|pre|] == p[..|pre|];
  }

  lemma StartsWithDropLast(p: string, pre: string)
    requires StartsWith(p, pre) && |pre| < |p|
    ensures StartsWith(p[..|p| - 1], pre)
  {
    assert p[..|p| - 1][..|pre|] == p[..|pre|];
  }

  /** A scheme survives the normalisation. */
  lemma AgentUrlKeepsScheme(p: string)
    requires HasScheme(p)
    ensures HasScheme(AgentUrlString(p))
  {
    if EndsWith(p, "/agent") {
    } else if EndsWith(p, "/agent/") {
      var tail := p[|p| - 7..];
      assert tail[0] == '/' && tail[1] == 'a';
      if StartsWith(p, "https://") {
        assert p[..8][0] == 'h' && p[..8][1] == 't';
        assert |p| - 7 != 0 && |p| - 7 != 1;
        StartsWithDropLast(p, "https://");
      } else {
        assert p[..7][0] == 'h';
        assert |p| - 7 != 0;
        StartsWithDropLast(p, "http://");
      }
    } else if EndsWith(p, "/") {
      if StartsWith(p, "https://") { StartsWithExtend(p, "agent", "https://"); }
      else { StartsWithExtend(p, "agent", "http://"); }
    } else {
      if StartsWith(p, "https://") { StartsWithExtend(p, "/agent", "https://"); }
      else { StartsWithExtend(p, "/agent", "http://"); }
    }
  }

  /** Normalising an already normalised URL changes nothing. */
  lemma NormalizeIdempotent(rawUrl: string)
    ensures NormalizeAgentUrl(NormalizeAgentUrl(rawUrl)) == NormalizeAgentUrl(rawUrl)
  {
    var n := NormalizeAgentUrl(rawUrl);
    AgentUrlKeepsScheme(AddProtocolToUrl(rawUrl));
    assert AddProtocolToUrl(n) == n;
  }

  /** `parseAgentUrl`: the URL parser is given as `parseUrl`, which yields
      the parsed URL's text or the error it throws; every failure becomes
      an `InvalidConfigurationError` naming the raw value. */
  function ParseAgentUrl(rawUrl: string, parseUrl: string -> Result<string>): (r: Result<string>)
    ensures parseUrl(NormalizeAgentUrl(rawUrl)).Ok? ==> r == parseUrl(NormalizeAgentUrl(rawUrl))
    ensures parseUrl(NormalizeAgentUrl(rawUrl)).Err? ==>
      r.Err? && r.fault.cls == InvalidConfiguration &&
      r.fault.message == "The specified value for 'SUPERBLOCKS_AGENT_HOST_URL' - '" + rawUrl + "' - is invalid. "
        + parseUrl(NormalizeAgentUrl(rawUrl)).fault.message
  {
    match parseUrl(NormalizeAgentUrl(rawUrl))
    case Ok(url) => Ok(url)
    case Err(e) =>
      Err(Raise(InvalidConfiguration,
        "The specified value for 'SUPERBLOCKS_AGENT_HOST_URL' - '" + rawUrl + "' - is invalid. " + e.message))
  }

  /** `SUPERBLOCKS_AGENT_INTERNAL_HOST_URL`. */
  function InternalHostUrl(tlsInsecure: bool, internalHost: string, workerPort: nat): (r: string)
    ensures StartsWith(r, if tlsInsecure then "http://" else "https://")
  {
    (if tlsInsecure then "http" else "https") + "://" + internalHost + ":" + NatToString(workerPort)
  }

  /** `SUPERBLOCKS_FILE_SERVER_URL`: the configured value when non-empty,
      otherwise the agent's own file endpoint. */
  function FileServerUrl(configured: string, internalHost: string, port: string): (r: string)
    ensures configured != "" ==> r == configured
    ensures configured == "" ==> StartsWith(r, "http://" + internalHost + ":") && EndsWith(r, "/agent/v1/files")
  {
    if configured != "" then configured
    else
      var r := "http://" + internalHost + ":" + port + "/agent/v1/files";
      assert r[..|"http://" + internalHost + ":"|] == "http://" + internalHost + ":";
      r
  }

  /** With nothing configured the file server is `localhost:8020`. */
  lemma DefaultFileServerUrl(env: map<string, string>)
    requires "__SUPERBLOCKS_FILE_SERVER_URL" !in env
    requires "SUPERBLOCKS_AGENT_INTERNAL_HOST" !in env && "SUPERBLOCKS_AGENT_PORT" !in env
    ensures FileServerUrl(Setting(env, "__SUPERBLOCKS_FILE_SERVER_URL", ""),
                          Setting(env, "SUPERBLOCKS_AGENT_INTERNAL_HOST", DEFAULT_INTERNAL_HOST),
                          Setting(env, "SUPERBLOCKS_AGENT_PORT", DEFAULT_PORT))
            == "http://localhost:8020/agent/v1/files"
  {
    assert Setting(env, "__SUPERBLOCKS_FILE_SERVER_URL", "") == "";
    assert Setting(env, "SUPERBLOCKS_AGENT_INTERNAL_HOST", DEFAULT_INTERNAL_HOST) == "localhost";
    assert Setting(env, "SUPERBLOCKS_AGENT_PORT", DEFAULT_PORT) == "8020";
    assert "http://" + "localhost" + ":" + "8020" + "/agent/v1/files" == "http://localhost:8020/agent/v1/files";
  }
}
