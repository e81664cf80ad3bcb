/** The checks of the Google OAuth 2.0 flow (gcloud_oauth.go): validating
    the authorization redirect's query parameters, turning the configured
    redirect URL into the listener's address, and placing the token cache
    file. The listener, the browser dialog and the cache file's contents are
    not modelled; the user cache directory and directory creation are
    parameters. */
module OAuth {
  import opened Wrappers
  import opened Text

  // ------------------------------------------------------ getAuthCode

  /** Query parameters: each name with its values, as Go's `url.Values`. */
  type Values = map<string, seq<string>>

  /** `url.Values.Get`: the first value of the parameter, or "" when absent. */
  function Get(v: Values, key: string): string {
    if key in v && |v[key]| > 0 then v[key][0] else ""
  }

  datatype AuthError = BadState(expected: string, got: string) | AuthorizationError(error: string) | NoCode

  /** `getAuthCode`: the state must be the token the run sent, then no error
      may be reported, then a code must be present. */
  function GetAuthCode(authResp: Values, stateToken: string): (r: Result<string, AuthError>)
    ensures r.Success? <==> Get(authResp, "state") == stateToken && Get(authResp, "error") == "" && Get(authResp, "code") != ""
    ensures r.Success? ==> r.value == Get(authResp, "code")
    ensures Get(authResp, "state") != stateToken ==> r == Failure(BadState(stateToken, Get(authResp, "state")))
    ensures Get(authResp, "state") == stateToken && Get(authResp, "error") != "" ==> r == Failure(AuthorizationError(Get(authResp, "error")))
    ensures r == Failure(NoCode) <==> Get(authResp, "state") == stateToken && Get(authResp, "error") == "" && Get(authResp, "code") == ""
  {
    if Get(authResp, "state") != stateToken then Failure(BadState(stateToken, Get(authResp, "state")))
    else if Get(authResp, "error") != "" then Failure(AuthorizationError(Get(authResp, "error")))
    else
      var authCode := Get(authResp, "code");
      if authCode == "" then Failure(NoCode) else Success(authCode)
  }

  // ------------------------------------------------- getListenAddress

  const HttpScheme := "http://"

  predicate NoColonOrSlash(s: string) {
    forall i :: 0 <= i < |s| ==> s[i] != ':' && s[i] != '/'
  }

  /** The language of `RedirectUrlPattern`, `^(?:http://)?([^:/]+)(:[0-9]{1,5})$`:
      an optional "http://", a non-empty host without ':' or '/', then ':'
      and one to five digits, and nothing else. */
  predicate IsRedirect(s: string, scheme: string, host: string, port: string) {
    && (scheme == "" || scheme == HttpScheme)
    && |host| > 0 && NoColonOrSlash(host)
    && 1 <= |port| <= 5 && AllDigits(port)
    && s == scheme + host + ":" + port
  }

  /** The index of the first ':' of `s`, or `|s|` when it has none. */
  function IndexOfColon(s: string): (i: nat)
    ensures i <= |s| && (i < |s| ==> s[i] == ':') && forall j :: 0 <= j < i ==> s[j] != ':'
    decreases |s|
  {
    if |s| == 0 then 0 else if s[0] == ':' then 0 else 1 + IndexOfColon(s[1..])
  }

  /** The two submatches of the pattern: the host and the port with its ':'. */
  datatype Submatches = Submatches(host: string, port: string)

  /** `RedirectUrlPattern.FindStringSubmatch`, matched from the left: the
      scheme is taken when present, the host runs to the first ':', and the
      rest must be ':' and the port. */
  function MatchRedirect(s: string): Option<Submatches> {
    var t := if HasPrefix(s, HttpScheme) then s[|HttpScheme|..] else s;
    var i := IndexOfColon(t);
    if i == 0 || i == |t| then None
    else
      var host, port := t[..i], t[i + 1..];
      if !NoColonOrSlash(host) || !(1 <= |port| <= 5) || !AllDigits(port) then None
      else Some(Submatches(host, ":" + port))
  }

  datatype ListenError = UnparsableRedirect(url: string)

  /** `getListenAddress`: the host and port of the redirect URL, without the
      scheme; a URL the pattern does not match is fatal. */
  function GetListenAddress(urlString: string): Result<string, ListenError> {
    var matches := MatchRedirect(urlString);
    if matches.None? then Failure(UnparsableRedirect(urlString))
    else
      var address := matches.value.host;
      Success(if matches.value.port != "" then address + matches.value.port else address)
  }

  lemma DigitsNoColon(d: string)
    requires AllDigits(d)
    ensures forall j :: 0 <= j < |d| ==> d[j] != ':' && d[j] != '/'
  {
    forall j | 0 <= j < |d| ensures d[j] != ':' && d[j] != '/' {
      assert IsDigit(d[j]);
    }
  }

  /** Reading a well-formed host and port back gives that host and port. */
  lemma MatchHostPort(t: string, host: string, port: string)
    requires |host| > 0 && NoColonOrSlash(host) && 1 <= |port| <= 5 && AllDigits(port)
    requires t == host + ":" + port
    ensures IndexOfColon(t) == |host| && t[..|host|] == host && t[|host| + 1..] == port
  {
    var i := IndexOfColon(t);
    assert t[|host|] == ':';
    assert forall j :: 0 <= j < |host| ==> t[j] == host[j];
    assert i == |host|;
    assert t[..|host|] == host;
    assert t[|host| + 1..] == port;
  }

  /** A URL without the scheme cannot begin with "http://": the host would
      run into the scheme's ':' and leave "//" where the port must be. */
  lemma NoSchemeNotHttp(host: string, port: string)
    requires |host| > 0 && NoColonOrSlash(host) && 1 <= |port| <= 5 && AllDigits(port)
    ensures !HasPrefix(host + ":" + port, HttpScheme)
  {
    var s := host + ":" + port;
    if |s| >= |HttpScheme| {
      var k: nat;
      if |host| < 4 {
        k := |host|;
        assert s[k] == ':';
      } else if |host| == 4 {
        k := 5;
        assert s[k] == port[0] && IsDigit(port[0]);
      } else {
        k := 4;
        assert s[k] == host[4];
      }
      assert s[..|HttpScheme|][k] == s[k] != HttpScheme[k];
    }
  }

  /** Every URL in the pattern's language matches, with its own host and port. */
  lemma MatchRedirectComplete(s: string, scheme: string, host: string, port: string)
    requires IsRedirect(s, scheme, host, port)
    ensures MatchRedirect(s) == Some(Submatches(host, ":" + port))
  {
    DigitsNoColon(port);
    if scheme == HttpScheme {
      assert s[..|HttpScheme|] == HttpScheme;
      assert s[|HttpScheme|..] == host + ":" + port;
      MatchHostPort(s[|HttpScheme|..], host, port);
    } else {
      assert s == host + ":" + port;
      NoSchemeNotHttp(host, port);
      MatchHostPort(s, host, port);
    }
  }

  /** Every URL that matches is in the pattern's language: the scheme, host
      and port it is made of are returned. */
  lemma MatchRedirectSound(s: string) returns (scheme: string, host: string, port: string)
    requires MatchRedirect(s).Some?
    ensures IsRedirect(s, scheme, host, port)
  {
    var t := if HasPrefix(s, HttpScheme) then s[|HttpScheme|..] else s;
    scheme := if HasPrefix(s, HttpScheme) then HttpScheme else "";
    var i := IndexOfColon(t);
    host, port := t[..i], t[i + 1..];
    SplitScheme(s, scheme, t);
    SplitColon(t, i);
    Concat4(scheme, host, ":", port);
  }

  /** A URL is its scheme followed by what the match reads after it. */
  lemma SplitScheme(s: string, scheme: string, t: string)
    requires scheme == (if HasPrefix(s, HttpScheme) then HttpScheme else "")
    requires t == (if HasPrefix(s, HttpScheme) then s[|HttpScheme|..] else s)
    ensures s == scheme + t
  {
    if HasPrefix(s, HttpScheme) {
      assert s == s[..|HttpScheme|] + s[|HttpScheme|..];
    } else {
      assert scheme + t == t;
    }
  }

  lemma SplitColon(t: string, i: nat)
    requires i < |t| && t[i] == ':'
    ensures t == t[..i] + ":" + t[i + 1..]
  {
    assert t == t[..i] + [t[i]] + t[i + 1..];
  }

  lemma Concat4(a: string, b: string, c: string, d: string)
    ensures a + (b + c + d) == a + b + c + d
  {
  }

  /** The match agrees with the pattern's language: it succeeds exactly on
      the URLs the pattern describes, and then yields their host and port. */
  lemma MatchRedirectSpec(s: string)
    ensures MatchRedirect(s).Some? <==> exists scheme, host, port :: IsRedirect(s, scheme, host, port)
    ensures forall scheme, host, port :: IsRedirect(s, scheme, host, port) ==>
      MatchRedirect(s) == Some(Submatches(host, ":" + port))
  {
    forall scheme, host, port | IsRedirect(s, scheme, host, port)
      ensures MatchRedirect(s) == Some(Submatches(host, ":" + port))
    {
      MatchRedirectComplete(s, scheme, host, port);
    }
    if MatchRedirect(s).Some? {
      var scheme, host, port := MatchRedirectSound(s);
    }
  }

  /** The listen address is the URL with any "http://" removed: host and
      port, both required. */
  lemma ListenAddressSpec(s: string)
    ensures GetListenAddress(s).Success? <==> exists scheme, host, port :: IsRedirect(s, scheme, host, port)
    ensures forall scheme, host, port :: IsRedirect(s, scheme, host, port) ==>
      GetListenAddress(s) == Success(host + ":" + port)
  {
    MatchRedirectSpec(s);
    forall scheme, host, port | IsRedirect(s, scheme, host, port)
      ensures GetListenAddress(s) == Success(host + ":" + port)
    {
      assert host + (":" + port) == host + ":" + port;
    }
  }

  /** A URL without a ':' (so without a port) is rejected. */
  lemma ListenAddressNeedsPort(s: string)
    requires forall i :: 0 <= i < |s| ==> s[i] != ':'
    ensures GetListenAddress(s).Failure?
  {
    MatchRedirectSpec(s);
  }

  /** A URL with the "https" scheme is rejected: its host would be "https"
      and its port would start with '/'. */
  lemma ListenAddressNotHttps(s: string)
    requires HasPrefix(s, "https://")
    ensures GetListenAddress(s).Failure?
  {
    var p := s[..8];
    assert p == "https://";
    assert s[..|HttpScheme|][4] == s[4] == 's' != HttpScheme[4];
    var i := IndexOfColon(s);
    assert s[5] == ':';
    assert s[0] != ':' && s[1] != ':' && s[2] != ':' && s[3] != ':' && s[4] != ':';
    assert i == 5;
    assert s[i + 1..][0] == s[6] == '/';
    assert !IsDigit(s[6]);
  }

  /** A URL with a '/' after its first seven characters (a path) is rejected. */
  lemma ListenAddressNoPath(s: string, i: nat)
    requires |HttpScheme| <= i < |s| && s[i] == '/'
    ensures GetListenAddress(s).Failure?
  {
    MatchRedirectSpec(s);
  }

  // ------------------------------------------------ getCacheFileName

  const DefaultTokenCachePath := "gcloud"
  const TokenFileName := "costpuller_token.json"

  /** `filepath.Join` of two components without `filepath.Clean`: a '/' is
      put between them unless the directory already ends in one. */
  function JoinPath(dir: string, name: string): string {
    if |dir| > 0 && dir[|dir| - 1] == '/' then dir + name else dir + "/" + name
  }

  datatype CacheError = CacheDirUnavailable | CacheDirNotCreated(path: string)

  /** `getCacheFileName`: the empty path stands for "gcloud"; a path not
      starting with '/' is placed under the user cache directory
      (`cacheDir`, `None` when it cannot be determined) and created
      (`mkdir` says whether that succeeds); the token file name is joined on. */
  function GetCacheFileName(tokenCachePath: string, cacheDir: Option<string>, mkdir: string -> bool): Result<string, CacheError> {
    var path := if tokenCachePath == "" then DefaultTokenCachePath else tokenCachePath;
    if path[0] != '/' then
      if cacheDir.None? then Failure(CacheDirUnavailable)
      else
        var full := JoinPath(cacheDir.value, path);
        if !mkdir(full) then Failure(CacheDirNotCreated(full))
        else Success(JoinPath(full, TokenFileName))
    else Success(JoinPath(path, TokenFileName))
  }

  /** An absolute path is kept and never fails; a relative one, the empty
      one standing for "gcloud", goes under the cache directory and fails
      only when that directory is unknown or cannot be created. Either way
      a result names the token file inside the chosen directory. */
  lemma CacheFileNameSpec(tokenCachePath: string, cacheDir: Option<string>, mkdir: string -> bool)
    ensures var r := GetCacheFileName(tokenCachePath, cacheDir, mkdir);
      && (r.Success? ==> HasSuffix(r.value, "/" + TokenFileName))
      && (|tokenCachePath| > 0 && tokenCachePath[0] == '/' ==> r == Success(JoinPath(tokenCachePath, TokenFileName)))
      && (tokenCachePath == "" ==> r == GetCacheFileName(DefaultTokenCachePath, cacheDir, mkdir))
      && (tokenCachePath != "" && tokenCachePath[0] != '/' ==>
            (r.Failure? <==> cacheDir.None? || !mkdir(JoinPath(cacheDir.value, tokenCachePath)))
            && (r.Success? ==> r.value == JoinPath(JoinPath(cacheDir.value, tokenCachePath), TokenFileName)))
  {
    var r := GetCacheFileName(tokenCachePath, cacheDir, mkdir);
    if r.Success? {
      JoinPathSuffix(if tokenCachePath == "" then DefaultTokenCachePath else tokenCachePath, cacheDir, TokenFileName);
    }
  }

  predicate HasSuffix(s: string, p: string) {
    |p| <= |s| && s[|s| - |p|..] == p
  }

  /** A joined path ends in '/' and the name, whether or not the directory ends in '/'. */
  lemma JoinSuffix(dir: string, name: string)
    ensures HasSuffix(JoinPath(dir, name), "/" + name)
  {
    var j := JoinPath(dir, name);
    if |dir| > 0 && dir[|dir| - 1] == '/' {
      assert j[|j| - |name| - 1..] == "/" + name;
    } else {
      assert j[|j| - |name| - 1..] == "/" + name;
    }
  }

  lemma JoinPathSuffix(path: string, cacheDir: Option<string>, name: string)
    ensures HasSuffix(JoinPath(path, name), "/" + name)
    ensures cacheDir.Some? ==> HasSuffix(JoinPath(JoinPath(cacheDir.value, path), name), "/" + name)
  {
    JoinSuffix(path, name);
    if cacheDir.Some? {
      JoinSuffix(JoinPath(cacheDir.value, path), name);
    }
  }
}
