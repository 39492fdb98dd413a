/**
 * The fixed storage names, the built-in default settings and their
 * derivation from the page location, and the per-level display tables.
 */
module Constants {
  import opened Wrappers
  import opened JsString
  import opened Types

  /** The storage key under which the settings record is persisted. */
  const SettingsKey: string := "oidc_debug_settings"

  /** The namespace prefix of the OIDC client's own session cache in storage. */
  const OidcPrefix: string := "oidc."

  const CallbackPath: string := "/callback"
  const FallbackAuthority: string := "https://auth.jamcard.io/realms/jamcard"
  const FallbackClientId: string := "mobile_app"
  const DefaultScope: string := "openid profile email offline_access"

  /** A key the purge loops delete. */
  predicate IsOidcKey(k: string) {
    StartsWith(k, OidcPrefix)
  }

  /** The settings key lies outside the client's namespace, so purging that namespace keeps it. */
  lemma SettingsKeyIsNotOidcKey()
    ensures !IsOidcKey(SettingsKey)
  {
    assert SettingsKey[..|OidcPrefix|][4] != OidcPrefix[4];
  }

  /**
   * `pathname.replace(/\/(callback)?$/, '')`: one trailing `/callback`, or
   * else one trailing `/`, is removed.
   */
  function StripBasePath(pathname: string): (r: string)
    ensures |r| <= |pathname| && r == pathname[..|r|]
    ensures |pathname| - |r| in {0, 1, |CallbackPath|}
  {
    if EndsWith(pathname, CallbackPath) then pathname[..|pathname| - |CallbackPath|]
    else if EndsWith(pathname, "/") then pathname[..|pathname| - 1]
    else pathname
  }

  /** Where the pattern `\/(callback)?$` can match: a suffix that is `/callback` or `/`. */
  predicate MatchesAt(p: string, i: nat)
    requires i <= |p|
  {
    p[i..] == CallbackPath || p[i..] == "/"
  }

  /** The leftmost position from `i` on where the pattern matches, as a regular-expression engine finds it. */
  function LeftmostMatch(p: string, i: nat): (r: Option<nat>)
    requires i <= |p|
    ensures r.Some? ==> i <= r.value <= |p| && MatchesAt(p, r.value)
    ensures r.Some? ==> forall j :: i <= j < r.value ==> !MatchesAt(p, j)
    ensures r.None? ==> forall j :: i <= j <= |p| ==> !MatchesAt(p, j)
    decreases |p| - i
  {
    if MatchesAt(p, i) then Some(i)
    else if i == |p| then None
    else LeftmostMatch(p, i + 1)
  }

  /** The replacement as the regular-expression engine performs it: cut at the leftmost match, if any. */
  function RegexStrip(p: string): (r: string)
    ensures |r| <= |p| && r == p[..|r|]
    ensures |r| < |p| <==> LeftmostMatch(p, 0).Some?
  {
    match LeftmostMatch(p, 0)
    case Some(i) => p[..i]
    case None => p
  }

  /** The suffix rule agrees with leftmost-match replacement of `\/(callback)?$` on every path. */
  lemma StripBasePathIsRegexReplace(p: string)
    ensures StripBasePath(p) == RegexStrip(p)
  {
    var m := LeftmostMatch(p, 0);
    if EndsWith(p, CallbackPath) {
      var k := |p| - |CallbackPath|;
      assert MatchesAt(p, k);
      forall j | 0 <= j < k ensures !MatchesAt(p, j) {
        assert |p[j..]| > |CallbackPath|;
      }
      assert m == Some(k);
    } else if EndsWith(p, "/") {
      var k := |p| - 1;
      assert MatchesAt(p, k);
      forall j | 0 <= j < k ensures !MatchesAt(p, j) {
        assert |p[j..]| > 1;
      }
      assert m == Some(k);
    } else {
      forall j | 0 <= j <= |p| ensures !MatchesAt(p, j) {
      }
      assert m == None;
    }
  }

  /** Only one slash is removed, and a trailing slash after `callback` is what goes. */
  lemma StripBasePathExamples()
    ensures StripBasePath("/a//") == "/a/"
    ensures StripBasePath("/a/callback/") == "/a/callback"
    ensures StripBasePath("/a/callback") == "/a"
    ensures StripBasePath("/callback") == ""
    ensures StripBasePath("/a") == "/a"
  {
    assert !EndsWith("/a//", CallbackPath);
    assert !EndsWith("/a/callback/", CallbackPath) by {
      assert "/a/callback/"[|"/a/callback/"| - 1] != CallbackPath[|CallbackPath| - 1];
    }
    assert "/a/callback/"[..11] == "/a/callback";
    assert EndsWith("/a/callback", CallbackPath);
    assert !EndsWith("/a", CallbackPath);
  }

  /** `getBaseUrl()`: the page origin followed by the stripped path. */
  function GetBaseUrl(origin: string, pathname: string): (r: string)
    ensures StartsWith(r, origin) && |r| <= |origin| + |pathname|
    ensures r[|origin|..] == pathname[..|r| - |origin|]
  {
    origin + StripBasePath(pathname)
  }

  /** A path, the same path with a trailing slash, and with a trailing `/callback` share one base. */
  lemma {:induction false} BaseUrlIgnoresCallbackAndSlash(origin: string, p: string)
    requires !EndsWith(p, "/") && !EndsWith(p, CallbackPath)
    ensures GetBaseUrl(origin, p + CallbackPath) == GetBaseUrl(origin, p)
    ensures GetBaseUrl(origin, p + "/") == GetBaseUrl(origin, p)
  {
    var q := p + CallbackPath;
    assert q[|q| - |CallbackPath|..] == CallbackPath;
    assert q[..|q| - |CallbackPath|] == p;
    var r := p + "/";
    assert r[|r| - 1..] == "/";
    assert r[..|r| - 1] == p;
  }

  /** The build-time overrides `VITE_OIDC_AUTHORITY` and `VITE_OIDC_CLIENT_ID` (None when unset). */
  datatype Env = Env(authority: Option<string>, clientId: Option<string>)

  /** `value || fallback` for an optional string: an unset or empty value gives the fallback. */
  function OrElse(value: Option<string>, fallback: string): (r: string)
    ensures value.Some? && value.value != "" ==> r == value.value
    ensures value.None? || value.value == "" ==> r == fallback
    ensures r == fallback || (value.Some? && r == value.value)
    ensures r != "" <==> fallback != "" || (value.Some? && value.value != "")
  {
    if value.Some? && value.value != "" then value.value else fallback
  }

  /** `DEFAULT_SETTINGS`, computed from the overrides and the page location. */
  function DefaultSettings(env: Env, origin: string, pathname: string): (d: OidcSettings)
    ensures d.authority == OrElse(env.authority, FallbackAuthority)
    ensures d.clientId == OrElse(env.clientId, FallbackClientId)
    ensures d.scope == DefaultScope
    ensures EndsWith(d.redirectUri, CallbackPath)
    ensures d.redirectUri[..|d.redirectUri| - |CallbackPath|] == GetBaseUrl(origin, pathname)
    ensures d.authority != "" && d.clientId != "" && d.scope != "" && d.redirectUri != ""
    ensures StartsWith(d.redirectUri, origin)
  {
    var uri := GetBaseUrl(origin, pathname) + CallbackPath;
    assert uri[|uri| - |CallbackPath|..] == CallbackPath;
    assert uri[..|uri| - |CallbackPath|] == GetBaseUrl(origin, pathname);
    assert uri[..|origin|] == origin;
    OidcSettings(OrElse(env.authority, FallbackAuthority), OrElse(env.clientId, FallbackClientId), DefaultScope, uri)
  }

  /** "/x", "/x/" and "/x/callback" all yield the same default redirect URI. */
  lemma DefaultRedirectIsPathInvariant(env: Env, origin: string, p: string)
    requires !EndsWith(p, "/") && !EndsWith(p, CallbackPath)
    ensures DefaultSettings(env, origin, p + "/").redirectUri == DefaultSettings(env, origin, p).redirectUri
    ensures DefaultSettings(env, origin, p + CallbackPath).redirectUri == DefaultSettings(env, origin, p).redirectUri
  {
    BaseUrlIgnoresCallbackAndSlash(origin, p);
  }

  /** `LOG_LEVEL_COLORS`: one colour class per level. */
  function LevelColor(level: LogLevel): (c: string)
    ensures |c| > 0
  {
    match level
    case Success => "text-success"
    case Warning => "text-warning"
    case Error => "text-destructive"
    case Event => "text-primary"
    case Info => "text-muted-foreground"
  }

  /** `LOG_LEVEL_ICONS`: one icon per level. */
  function LevelIcon(level: LogLevel): (c: string)
    ensures |c| == 1
  {
    match level
    case Success => "✓"
    case Warning => "⚠"
    case Error => "✗"
    case Event => "⚡"
    case Info => "→"
  }

  /** Both tables tell all five levels apart. */
  lemma LevelTablesAreInjective(a: LogLevel, b: LogLevel)
    ensures LevelColor(a) == LevelColor(b) ==> a == b
    ensures LevelIcon(a) == LevelIcon(b) ==> a == b
  {
  }
}
