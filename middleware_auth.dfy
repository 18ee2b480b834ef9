/** The agent endpoints' request guards (src/middleware/auth.ts). */
module MiddlewareAuth {
  import opened Base
  import opened Strings
  import opened AgentAuth
  import opened Request

  /** The credential check: the credentials must have the form
      `<scheme> <token>`. */
  function CheckAuthHeader(h: Option<string>): (r: Outcome)
    ensures r.Pass? <==> h.Some? && multiset(h.value)[' '] == 1
    ensures r.Fail? ==> r.fault == Raise(Unauthorized, "Invalid authorization header provided")
  {
    if h.None? then Fail(Raise(Unauthorized, "Invalid authorization header provided"))
    else
      SplitCharCount(h.value, ' ');
      if |Split(h.value, " ")| != 2 then Fail(Raise(Unauthorized, "Invalid authorization header provided"))
      else Pass
  }

  /** `verifyAuth(allowAuthInQueryParams)` as written: the flag is handed
      to the extractor, which does not read it, so a query-parameter token
      is accepted whatever the flag says. */
  function VerifyAuthAsWritten(authorization: Option<string>, queryAuth: Option<string>, allowAuthInQueryParams: bool): (r: Outcome)
    ensures r.Pass? <==>
      ExtractAuthHeader(authorization, queryAuth).Some? &&
      multiset(ExtractAuthHeader(authorization, queryAuth).value)[' '] == 1
    ensures r.Fail? ==> r.fault == Raise(Unauthorized, "Invalid authorization header provided")
  {
    CheckAuthHeader(ExtractAuthHeader(authorization, queryAuth))
  }

  /** `verifyAuth(allowAuthInQueryParams)` as its documentation describes
      it: a query-parameter token counts only where the flag allows it. */
  function VerifyAuth(authorization: Option<string>, queryAuth: Option<string>, allowAuthInQueryParams: bool): (r: Outcome)
    ensures allowAuthInQueryParams ==> r == VerifyAuthAsWritten(authorization, queryAuth, true)
    ensures !allowAuthInQueryParams ==>
      (r.Pass? <==> Given(authorization) && multiset(authorization.value)[' '] == 1)
    ensures r.Fail? ==> r.fault == Raise(Unauthorized, "Invalid authorization header provided")
  {
    CheckAuthHeader(ExtractAuthHeaderGated(authorization, queryAuth, allowAuthInQueryParams))
  }

  /** With the flag off, the query parameter makes no difference to the
      intended check. */
  lemma VerifyAuthIgnoresQueryWhenOff(authorization: Option<string>, queryAuth: Option<string>, other: Option<string>)
    ensures VerifyAuth(authorization, queryAuth, false) == VerifyAuth(authorization, other, false)
  {
  }

  /** A request with only a query-parameter token, to an endpoint that does
      not allow one, passes the check as written and fails the intended
      one. */
  lemma QueryTokenIgnoresFlag()
    ensures VerifyAuthAsWritten(None, Some("token"), false) == Pass
    ensures VerifyAuth(None, Some("token"), false).Fail?
  {
    var h := "Bearer " + "token";
    assert ExtractAuthHeader(None, Some("token")) == Some(h);
    assert h == "Bearer" + " " + "token";
    assert multiset(h) == multiset("Bearer") + multiset(" ") + multiset("token");
    assert ' ' !in multiset("Bearer") && ' ' !in multiset("token");
  }

  /** `location` names a file directly inside a directory called `key`. */
  ghost predicate InDirectory(location: string, key: string) {
    exists dir: string, file: string ::
      location == dir + key + "/" + file && '/' !in file && (dir == "" || EndsWith(dir, "/"))
  }

  /** `verifyFile`. */
  function VerifyFile(key: Option<string>, location: Option<string>): (r: Outcome)
    ensures !Given(location) ==> r == Fail(Raise(Unauthorized, "No file provided."))
    ensures Given(location) && r.Fail? ==> r == Fail(Raise(Unauthorized, "Unauthorized"))
    ensures r.Pass? ==>
      Given(key) && Given(location) && !Contains(location.value, "..") && InDirectory(location.value, key.value)
  {
    if !Given(location) then Fail(Raise(Unauthorized, "No file provided."))
    else
      var loc := location.value;
      var parts := Split(loc, "/");
      if !Given(key) || Contains(loc, "..") || |parts| < 2 || parts[|parts| - 2] != key.value then
        Fail(Raise(Unauthorized, "Unauthorized"))
      else
        LastTwoParts(loc);
        Pass
  }

  /** A location with at least two `/`-parts is its last two parts
      preceded by a directory path. */
  lemma LastTwoPartsSplit(loc: string) returns (dir: string)
    requires |Split(loc, "/")| >= 2
    ensures var parts := Split(loc, "/");
      loc == dir + parts[|parts| - 2] + "/" + parts[|parts| - 1] && (dir == "" || EndsWith(dir, "/"))
  {
    var parts := Split(loc, "/");
    var n := |parts|;
    var init, last := parts[..n - 1], parts[n - 1];
    SplitJoin(loc, "/");
    assert parts == init + [last];
    JoinSnoc(init, last, "/");
    assert loc == Join(init, "/") + "/" + last;
    if n == 2 {
      dir := "";
      assert init == [parts[0]];
    } else {
      assert init == parts[..n - 2] + [parts[n - 2]];
      JoinSnoc(parts[..n - 2], parts[n - 2], "/");
      dir := Join(parts[..n - 2], "/") + "/";
      assert Join(init, "/") == dir + parts[n - 2];
    }
  }

  /** ... so the location lies in the directory named by the next-to-last part. */
  lemma LastTwoParts(loc: string)
    requires |Split(loc, "/")| >= 2
    ensures var parts := Split(loc, "/");
      InDirectory(loc, parts[|parts| - 2])
  {
    var parts := Split(loc, "/");
    var n := |parts|;
    var dir := LastTwoPartsSplit(loc);
    SplitPartsFree(loc, "/");
    assert !Contains(parts[n - 1], "/");
    CharContains(parts[n - 1], '/');
    assert loc == dir + parts[n - 2] + "/" + parts[n - 1] && '/' !in parts[n - 1];
  }

  /** A directory path cut at its first `/`. */
  lemma FirstSlash(dir: string) returns (d1: string, d2: string)
    requires EndsWith(dir, "/")
    ensures dir == d1 + ['/'] + d2 && '/' !in d1 && (d2 == "" || EndsWith(d2, "/"))
  {
    assert dir[|dir| - 1..] == "/";
    assert OccursAt(dir, "/", |dir| - 1);
    var i := IndexOf(dir, "/").value;
    d1, d2 := dir[..i], dir[i + 1..];
    forall j | 0 <= j < |d1| ensures d1[j] != '/' {
      assert !OccursAt(dir, "/", j);
      assert dir[j..j + 1] == [dir[j]];
    }
    assert dir[i..i + 1] == "/";
    assert dir == d1 + ['/'] + d2;
    if d2 != "" {
      assert d2[|d2| - 1] == dir[|dir| - 1];
      assert d2[|d2| - 1..] == "/";
    }
  }

  /** Splitting a location inside directory `key` ends with `key` and the
      file name, when the key holds no `/`. */
  lemma {:induction false} DirectoryParts(dir: string, key: string, file: string)
    requires '/' !in key && '/' !in file && (dir == "" || EndsWith(dir, "/"))
    ensures var parts := Split(dir + key + "/" + file, "/");
      |parts| >= 2 && parts[|parts| - 2] == key && parts[|parts| - 1] == file
    decreases |dir|
  {
    var s := dir + key + "/" + file;
    if dir == "" {
      assert s == key + ['/'] + file;
      SplitAtChar(key, '/', file);
      SplitNoChar(file, '/');
    } else {
      var d1, d2 := FirstSlash(dir);
      var rest := d2 + key + "/" + file;
      assert s == d1 + ['/'] + rest;
      SplitAtChar(d1, '/', rest);
      DirectoryParts(d2, key, file);
    }
  }

  /** A location is accepted exactly when it is given and has no `..`, the
      key is given, and the file sits directly inside the key's directory
      (for keys without `/`). */
  lemma VerifyFileAccepts(key: Option<string>, location: Option<string>)
    requires Given(key) && '/' !in key.value
    ensures VerifyFile(key, location).Pass? <==>
      Given(location) && !Contains(location.value, "..") && InDirectory(location.value, key.value)
  {
    if Given(location) && !Contains(location.value, "..") && InDirectory(location.value, key.value) {
      var dir: string, file: string :|
        location.value == dir + key.value + "/" + file && '/' !in file && (dir == "" || EndsWith(dir, "/"));
      DirectoryParts(dir, key.value, file);
    }
  }
}
