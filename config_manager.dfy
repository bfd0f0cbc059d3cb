/** The configuration singleton: every setting is looked up in the process
    environment, then in the `.env` file, then falls back to a default; the
    two BrowserStack credentials are required. The environment is read-only
    input, so every getter is a function of it. */
module ConfigManager {
  import opened Common

  /** The two places a setting is looked up in, most important first. */
  datatype Env = Env(system: map<string, string>, dotenv: map<string, string>)

  /** The sources a setting is looked up in, most important first. */
  function Sources(env: Env): seq<map<string, string>> {
    [env.system, env.dotenv]
  }

  const USERNAME_KEY := "BROWSERSTACK_USERNAME"
  const ACCESS_KEY_KEY := "BROWSERSTACK_ACCESS_KEY"
  const ANDROID_APP_URL_KEY := "ANDROID_APP_URL"
  const IOS_APP_URL_KEY := "IOS_APP_URL"
  const PLATFORM_KEY := "PLATFORM"
  const DEVICE_NAME_KEY := "DEVICE_NAME"
  const OS_VERSION_KEY := "OS_VERSION"
  const PROJECT_NAME_KEY := "BROWSERSTACK_PROJECT_NAME"
  const BUILD_NAME_KEY := "BROWSERSTACK_BUILD_NAME"
  const DEBUG_KEY := "BROWSERSTACK_DEBUG"
  const NETWORK_LOGS_KEY := "BROWSERSTACK_NETWORK_LOGS"

  const HUB_SCHEME := "https://"
  const HUB_HOST := "@hub-cloud.browserstack.com/wd/hub"

  /** The value of `key` in the first source that defines it, if any. */
  function FirstDefined(sources: seq<map<string, string>>, key: string): (r: Option<string>)
    ensures r.None? <==> forall i :: 0 <= i < |sources| ==> key !in sources[i]
    ensures r.Some? ==> exists i :: 0 <= i < |sources| && key in sources[i] && sources[i][key] == r.value
                                   && forall j :: 0 <= j < i ==> key !in sources[j]
  {
    if sources == [] then None
    else if key in sources[0] then Some(sources[0][key])
    else
      var rest := FirstDefined(sources[1..], key);
      assert forall i :: 1 <= i < |sources| ==> sources[i] == sources[1..][i - 1];
      rest
  }

  /** isRequiredKey: the two BrowserStack credentials, and no other key. */
  function IsRequiredKey(key: string): (b: bool)
    ensures b <==> key == USERNAME_KEY || key == ACCESS_KEY_KEY
  {
    key in [USERNAME_KEY, ACCESS_KEY_KEY]
  }

  function MissingRequired(key: string): Error {
    IllegalState("Required environment variable '" + key + "' is not set")
  }

  /** getEnvVariable: the environment, then `.env`, then the default; a
      required key that falls through to an empty default is an error. */
  function GetEnvVariable(env: Env, key: string, default: string := ""): (r: Result<string>)
    ensures r.Err? <==> FirstDefined(Sources(env), key).None? && default == "" && IsRequiredKey(key)
    ensures r.Err? ==> r.error == MissingRequired(key)
    ensures r.Ok? ==> match FirstDefined(Sources(env), key)
                      case Some(v) => r.value == v
                      case None => r.value == default
  {
    if key in env.system then Ok(env.system[key])
    else if key in env.dotenv then Ok(env.dotenv[key])
    else if default == "" && IsRequiredKey(key) then Err(MissingRequired(key))
    else Ok(default)
  }

  /** Lookup precedence, as a caller sees it: a key the environment defines
      wins even when its value is empty, and `.env` is consulted only for
      keys the environment lacks. */
  lemma LookupPrecedence(env: Env, key: string, default: string)
    ensures key in env.system ==> GetEnvVariable(env, key, default) == Ok(env.system[key])
    ensures key !in env.system && key in env.dotenv ==> GetEnvVariable(env, key, default) == Ok(env.dotenv[key])
    ensures key !in env.system && key !in env.dotenv && !IsRequiredKey(key) ==> GetEnvVariable(env, key, default) == Ok(default)
  {
  }

  // ---------------------------------------------------------------------
  // The property getters

  /** Neither source defines `key`. */
  predicate Unset(env: Env, key: string) {
    key !in env.system && key !in env.dotenv
  }

  /** A setting whose key is not required: the lookup cannot fail, and
      yields the first defined value or the default. */
  function Setting(env: Env, key: string, default: string): (r: string)
    requires !IsRequiredKey(key)
    ensures r == FirstDefined(Sources(env), key).GetOr(default)
  {
    GetEnvVariable(env, key, default).value
  }

  /** browserstackUsername: missing exactly when neither source defines it. */
  function Username(env: Env): (r: Result<string>)
    ensures r.Err? <==> Unset(env, USERNAME_KEY)
    ensures r.Err? ==> r.error == MissingRequired(USERNAME_KEY)
    ensures r.Ok? ==> r.value == FirstDefined(Sources(env), USERNAME_KEY).GetOr("")
  {
    GetEnvVariable(env, USERNAME_KEY)
  }

  /** browserstackAccessKey: missing exactly when neither source defines it. */
  function AccessKey(env: Env): (r: Result<string>)
    ensures r.Err? <==> Unset(env, ACCESS_KEY_KEY)
    ensures r.Err? ==> r.error == MissingRequired(ACCESS_KEY_KEY)
    ensures r.Ok? ==> r.value == FirstDefined(Sources(env), ACCESS_KEY_KEY).GetOr("")
  {
    GetEnvVariable(env, ACCESS_KEY_KEY)
  }

  /** androidAppUrl, empty when unset. */
  function AndroidAppUrl(env: Env): (r: string)
    ensures r == FirstDefined(Sources(env), ANDROID_APP_URL_KEY).GetOr("")
  {
    Setting(env, ANDROID_APP_URL_KEY, "")
  }

  /** iosAppUrl, empty when unset. */
  function IosAppUrl(env: Env): (r: string)
    ensures r == FirstDefined(Sources(env), IOS_APP_URL_KEY).GetOr("")
  {
    Setting(env, IOS_APP_URL_KEY, "")
  }

  /** platform, "android" when unset. */
  function Platform(env: Env): (r: string)
    ensures r == FirstDefined(Sources(env), PLATFORM_KEY).GetOr("android")
  {
    Setting(env, PLATFORM_KEY, "android")
  }

  /** deviceName, "Google Pixel 7" when unset. */
  function DeviceName(env: Env): (r: string)
    ensures r == FirstDefined(Sources(env), DEVICE_NAME_KEY).GetOr("Google Pixel 7")
  {
    Setting(env, DEVICE_NAME_KEY, "Google Pixel 7")
  }

  /** osVersion, "13.0" when unset. */
  function OsVersion(env: Env): (r: string)
    ensures r == FirstDefined(Sources(env), OS_VERSION_KEY).GetOr("13.0")
  {
    Setting(env, OS_VERSION_KEY, "13.0")
  }

  /** projectName, "Mobile Testing Framework" when unset. */
  function ProjectName(env: Env): (r: string)
    ensures r == FirstDefined(Sources(env), PROJECT_NAME_KEY).GetOr("Mobile Testing Framework")
  {
    Setting(env, PROJECT_NAME_KEY, "Mobile Testing Framework")
  }

  /** buildName; its default reads the clock (`nowMillis`) on every read. */
  function BuildName(env: Env, nowMillis: nat): (r: string)
    ensures r == FirstDefined(Sources(env), BUILD_NAME_KEY).GetOr("Build_" + Decimal(nowMillis))
  {
    Setting(env, BUILD_NAME_KEY, "Build_" + Decimal(nowMillis))
  }

  /** debug: on when unset, otherwise on exactly for "true" in any case. */
  function Debug(env: Env): (b: bool)
    ensures Unset(env, DEBUG_KEY) ==> b
    ensures b <==> Lower(FirstDefined(Sources(env), DEBUG_KEY).GetOr("true")) == "true"
  {
    ToBoolean(Setting(env, DEBUG_KEY, "true"))
  }

  /** networkLogs: on when unset, otherwise on exactly for "true" in any case. */
  function NetworkLogs(env: Env): (b: bool)
    ensures Unset(env, NETWORK_LOGS_KEY) ==> b
    ensures b <==> Lower(FirstDefined(Sources(env), NETWORK_LOGS_KEY).GetOr("true")) == "true"
  {
    ToBoolean(Setting(env, NETWORK_LOGS_KEY, "true"))
  }

  /** Without a configured build name, every read of it yields a fresh label,
      and two reads agree only when the clock did not move. */
  lemma BuildNameFollowsClock(env: Env, t1: nat, t2: nat)
    requires Unset(env, BUILD_NAME_KEY)
    ensures BuildName(env, t1) == BuildName(env, t2) <==> t1 == t2
  {
    var p := "Build_";
    if BuildName(env, t1) == BuildName(env, t2) {
      assert Decimal(t1) == (p + Decimal(t1))[|p|..];
      DecimalInjective(t1, t2);
    }
  }

  // ---------------------------------------------------------------------
  // Hub URL

  function HubUrl(user: string, key: string): string {
    HUB_SCHEME + user + ":" + key + HUB_HOST
  }

  /** browserstackHub: the credentials embedded in the device-farm URL. The
      username is read first, so its error wins. */
  function BrowserstackHub(env: Env): (r: Result<string>)
    ensures r.Ok? <==> Username(env).Ok? && AccessKey(env).Ok?
    ensures r.Ok? ==> r.value == HubUrl(Username(env).value, AccessKey(env).value)
    ensures Username(env).Err? ==> r == Err(MissingRequired(USERNAME_KEY))
    ensures Username(env).Ok? && AccessKey(env).Err? ==> r == Err(MissingRequired(ACCESS_KEY_KEY))
  {
    var user :- Username(env);
    var key :- AccessKey(env);
    Ok(HubUrl(user, key))
  }

  /** Reads the credentials back out of a hub URL, splitting at the first ':'. */
  function HubCredentials(url: string): Option<(string, string)> {
    if |url| < |HUB_SCHEME| + |HUB_HOST| || url[..|HUB_SCHEME|] != HUB_SCHEME
       || url[|url| - |HUB_HOST|..] != HUB_HOST then None
    else
      var middle := url[|HUB_SCHEME|..|url| - |HUB_HOST|];
      match IndexOf(middle, ':', 0)
      case None => None
      case Some(i) => Some((middle[..i], middle[i + 1..]))
  }

  lemma FramedSlices(p: string, m: string, q: string)
    ensures var u := p + m + q;
      u[..|p|] == p && u[|u| - |q|..] == q && u[|p|..|u| - |q|] == m
  {
  }

  lemma SplitAtFirstColon(user: string, key: string)
    requires ':' !in user
    ensures var m := user + ":" + key;
      IndexOf(m, ':', 0) == Some(|user|) && m[..|user|] == user && m[|user| + 1..] == key
  {
    var m := user + ":" + key;
    assert m[|user|] == ':';
    assert forall k :: 0 <= k < |user| ==> m[k] == user[k];
  }

  /** The hub URL carries the credentials recoverably, as long as the
      username has no ':' in it (nothing is escaped). */
  lemma HubUrlRoundTrip(user: string, key: string)
    requires ':' !in user
    ensures HubCredentials(HubUrl(user, key)) == Some((user, key))
  {
    var middle := user + ":" + key;
    assert HubUrl(user, key) == HUB_SCHEME + middle + HUB_HOST;
    FramedSlices(HUB_SCHEME, middle, HUB_HOST);
    SplitAtFirstColon(user, key);
  }

  // ---------------------------------------------------------------------
  // getAppUrl and validateConfig

  function InvalidPlatform(env: Env): Error {
    IllegalArgument("Invalid platform: " + Platform(env) + ". Must be 'android' or 'ios'")
  }

  /** getAppUrl: the app reference of the configured platform. */
  function GetAppUrl(env: Env): (r: Result<string>)
    ensures Lower(Platform(env)) == "android" ==> r == Ok(AndroidAppUrl(env))
    ensures Lower(Platform(env)) == "ios" ==> r == Ok(IosAppUrl(env))
    ensures r.Err? <==> Dispatch(Platform(env)).None?
    ensures r.Err? ==> r.error == InvalidPlatform(env)
  {
    match Dispatch(Platform(env))
    case Some(Android) => Ok(AndroidAppUrl(env))
    case Some(IOS) => Ok(IosAppUrl(env))
    case None => Err(InvalidPlatform(env))
  }

  /** The checks validateConfig makes, as one condition. */
  predicate IsValidConfig(env: Env) {
    && Username(env).Ok? && Username(env).value != ""
    && AccessKey(env).Ok? && AccessKey(env).value != ""
    && Lower(Platform(env)) in ["android", "ios"]
  }

  /** validateConfig: username, access key, then platform, each in turn. A
      credential that is missing throws from its getter; one set to "" fails
      the `require` that follows it. */
  function ValidateConfig(env: Env): (r: Outcome)
    ensures r.Pass? <==> IsValidConfig(env)
    ensures Username(env).Err? ==> r == Fail(MissingRequired(USERNAME_KEY))
    ensures Username(env) == Ok("") ==> r == Fail(IllegalArgument("BrowserStack username is required"))
    ensures Username(env).Ok? && Username(env).value != "" && AccessKey(env).Err?
         ==> r == Fail(MissingRequired(ACCESS_KEY_KEY))
    ensures Username(env).Ok? && Username(env).value != "" && AccessKey(env) == Ok("")
         ==> r == Fail(IllegalArgument("BrowserStack access key is required"))
    ensures Username(env).Ok? && Username(env).value != "" && AccessKey(env).Ok? && AccessKey(env).value != ""
            && Lower(Platform(env)) !in ["android", "ios"]
         ==> r == Fail(IllegalArgument("Platform must be 'android' or 'ios'"))
    ensures IsValidConfig(env) ==> Dispatch(Platform(env)).Some?
  {
    if Username(env).Err? then Fail(Username(env).error)
    else if Username(env).value == "" then Fail(IllegalArgument("BrowserStack username is required"))
    else if AccessKey(env).Err? then Fail(AccessKey(env).error)
    else if AccessKey(env).value == "" then Fail(IllegalArgument("BrowserStack access key is required"))
    else if Lower(Platform(env)) !in ["android", "ios"] then Fail(IllegalArgument("Platform must be 'android' or 'ios'"))
    else Pass
  }

  /** A configuration that validates yields a hub URL and an app URL. */
  lemma ValidConfigResolves(env: Env)
    requires ValidateConfig(env).Pass?
    ensures BrowserstackHub(env).Ok?
    ensures GetAppUrl(env).Ok?
  {
  }

  /** Every empty credential is caught: a missing one by its getter, an
      empty one by validateConfig. */
  lemma EmptyCredentialsNeverValidate(env: Env)
    requires FirstDefined(Sources(env), USERNAME_KEY).GetOr("") == ""
    ensures ValidateConfig(env).Fail?
  {
  }
}
