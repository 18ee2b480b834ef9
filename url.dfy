/** Control-plane URLs (src/utils/url.ts). */
module Url {
  import opened Strings

  const AGENTS_API := "/api/v1/agents"

  /** `buildSuperblocksCloudUrl(path)`: a non-empty path without a leading
      `/` gets one. */
  function BuildCloudUrl(base: string, path: string): (r: string)
    ensures path == "" ==> r == base + AGENTS_API
    ensures path != "" && !StartsWith(path, "/") ==> r == base + AGENTS_API + "/" + path
    ensures StartsWith(path, "/") ==> r == base + AGENTS_API + path
  {
    var p := if |path| > 0 && !StartsWith(path, "/") then "/" + path else path;
    base + AGENTS_API + p
  }

  /** A missing leading slash makes no difference, and every result lies
      under the agents API. */
  lemma CloudUrlSlash(base: string, path: string)
    requires !StartsWith(path, "/")
    ensures path != "" ==> BuildCloudUrl(base, path) == BuildCloudUrl(base, "/" + path)
    ensures StartsWith(BuildCloudUrl(base, path), base + AGENTS_API)
  {
    assert StartsWith("/" + path, "/") by { assert ("/" + path)[..1] == "/"; }
    var r := BuildCloudUrl(base, path);
    assert r[..|base + AGENTS_API|] == base + AGENTS_API;
  }

  /** `buildSuperblocksUiUrl(path)`: no normalisation at all. */
  function BuildUiUrl(base: string, path: string): (r: string)
    ensures StartsWith(r, base + "/") && r[|base| + 1..] == path
  {
    var r := base + "/" + path;
    assert r[..|base + "/"|] == base + "/";
    r
  }
}
