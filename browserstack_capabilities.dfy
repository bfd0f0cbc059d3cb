/** The capability maps sent to the device farm: one fixed set of 17 keys per
    platform, filled from the configuration, and a case-insensitive dispatch
    that picks one of them. */
module BrowserStackCapabilities {
  import opened Common
  import opened ConfigManager

  /** A capability value: the maps hold strings and booleans only. */
  datatype CapValue = Text(s: string) | Flag(b: bool)

  type Capabilities = map<string, CapValue>

  /** The configuration values both maps are built from. */
  datatype Settings = Settings(
    user: string, key: string, osVersion: string, deviceName: string,
    project: string, build: string, debug: bool, networkLogs: bool)

  /** Reads the settings the builders need. Only the two credentials can be
      missing, and the username is read first. */
  function ReadSettings(env: Env, nowMillis: nat): (r: Result<Settings>)
    ensures r.Ok? <==> Username(env).Ok? && AccessKey(env).Ok?
    ensures r.Err? ==> r.error == BrowserstackHub(env).error
    ensures r.Ok? ==> r.value == Settings(Username(env).value, AccessKey(env).value, OsVersion(env), DeviceName(env),
                                          ProjectName(env), BuildName(env, nowMillis), Debug(env), NetworkLogs(env))
  {
    var user :- Username(env);
    var key :- AccessKey(env);
    Ok(Settings(user, key, OsVersion(env), DeviceName(env), ProjectName(env),
                BuildName(env, nowMillis), Debug(env), NetworkLogs(env)))
  }

  const ANDROID_ONLY_KEY := "autoGrantPermissions"
  const IOS_ONLY_KEY := "autoAcceptAlerts"

  /** The Android capability map, as getAndroidCapabilities fills it: it
      grants permissions and never sets the iOS alert key. */
  function AndroidCapabilityMap(s: Settings, app: string): (m: Capabilities)
    ensures Has(m, ANDROID_ONLY_KEY, Flag(true)) && IOS_ONLY_KEY !in m
  {
    map[
      "browserstack.user" := Text(s.user),
      "browserstack.key" := Text(s.key),
      "app" := Text(app),
      "platformName" := Text("Android"),
      "platformVersion" := Text(s.osVersion),
      "deviceName" := Text(s.deviceName),
      "project" := Text(s.project),
      "build" := Text(s.build),
      "name" := Text("Android Test"),
      "browserstack.debug" := Flag(s.debug),
      "browserstack.networkLogs" := Flag(s.networkLogs),
      "browserstack.video" := Flag(true),
      "browserstack.appiumVersion" := Text("2.0.1"),
      "automationName" := Text("UiAutomator2"),
      ANDROID_ONLY_KEY := Flag(true),
      "noReset" := Flag(false),
      "fullReset" := Flag(false)
    ]
  }

  /** The iOS capability map, as getIOSCapabilities fills it: it accepts
      alerts and never sets the Android permission key. */
  function IosCapabilityMap(s: Settings, app: string): (m: Capabilities)
    ensures Has(m, IOS_ONLY_KEY, Flag(true)) && ANDROID_ONLY_KEY !in m
  {
    map[
      "browserstack.user" := Text(s.user),
      "browserstack.key" := Text(s.key),
      "app" := Text(app),
      "platformName" := Text("iOS"),
      "platformVersion" := Text(s.osVersion),
      "deviceName" := Text(s.deviceName),
      "project" := Text(s.project),
      "build" := Text(s.build),
      "name" := Text("iOS Test"),
      "browserstack.debug" := Flag(s.debug),
      "browserstack.networkLogs" := Flag(s.networkLogs),
      "browserstack.video" := Flag(true),
      "browserstack.appiumVersion" := Text("2.0.1"),
      "automationName" := Text("XCUITest"),
      IOS_ONLY_KEY := Flag(true),
      "noReset" := Flag(false),
      "fullReset" := Flag(false)
    ]
  }

  /** The keys the two maps share, in the order the builders set them. */
  const SHARED_KEY_LIST: seq<string> := [
    "browserstack.user", "browserstack.key", "app", "platformName", "platformVersion",
    "deviceName", "project", "build", "name", "browserstack.debug",
    "browserstack.networkLogs", "browserstack.video", "browserstack.appiumVersion",
    "automationName", "noReset", "fullReset"
  ]

  const SHARED_KEYS: set<string> := set k | k in SHARED_KEY_LIST

  /** A list without repetitions has as many distinct elements as entries. */
  lemma {:induction false} DistinctCount(s: seq<string>)
    requires forall i, j :: 0 <= i < j < |s| ==> s[i] != s[j]
    ensures |set k | k in s| == |s|
  {
    if s != [] {
      var p := s[..|s| - 1];
      DistinctCount(p);
      assert (set k | k in s) == (set k | k in p) + {s[|s| - 1]};
    }
  }

  /** `m` maps `k` to `v`. */
  predicate Has(m: Capabilities, k: string, v: CapValue) {
    k in m && m[k] == v
  }

  /** The credentials, device and labels every map carries. */
  predicate CarriesIdentity(m: Capabilities, s: Settings) {
    && Has(m, "browserstack.user", Text(s.user))
    && Has(m, "browserstack.key", Text(s.key))
    && Has(m, "platformVersion", Text(s.osVersion))
    && Has(m, "deviceName", Text(s.deviceName))
    && Has(m, "project", Text(s.project))
    && Has(m, "build", Text(s.build))
  }

  /** The feature flags every map carries. */
  predicate CarriesFeatureFlags(m: Capabilities, s: Settings) {
    && Has(m, "browserstack.debug", Flag(s.debug))
    && Has(m, "browserstack.networkLogs", Flag(s.networkLogs))
    && Has(m, "browserstack.video", Flag(true))
    && Has(m, "browserstack.appiumVersion", Text("2.0.1"))
    && Has(m, "noReset", Flag(false))
    && Has(m, "fullReset", Flag(false))
  }

  /** The values every map carries whatever the platform. */
  predicate CarriesSettings(m: Capabilities, s: Settings) {
    CarriesIdentity(m, s) && CarriesFeatureFlags(m, s)
  }

  lemma SharedKeyCount()
    ensures |SHARED_KEYS| == 16
    ensures ANDROID_ONLY_KEY !in SHARED_KEYS && IOS_ONLY_KEY !in SHARED_KEYS
  {
    DistinctCount(SHARED_KEY_LIST);
  }

  /** The Android map has exactly the shared keys plus its own key. */
  lemma AndroidCapabilityKeys(s: Settings, app: string)
    ensures AndroidCapabilityMap(s, app).Keys == SHARED_KEYS + {ANDROID_ONLY_KEY}
  {
    var m := AndroidCapabilityMap(s, app);
    forall k | k in SHARED_KEYS
      ensures k in m.Keys
    {
    }
    forall k | k in m.Keys
      ensures k in SHARED_KEYS + {ANDROID_ONLY_KEY}
    {
    }
  }

  /** The Android map has 17 entries: the 16 shared keys and its own. */
  lemma AndroidCapabilityCount(s: Settings, app: string)
    ensures |AndroidCapabilityMap(s, app)| == 17
  {
    AndroidCapabilityKeys(s, app);
    SharedKeyCount();
    assert |AndroidCapabilityMap(s, app).Keys| == |SHARED_KEYS + {ANDROID_ONLY_KEY}|;
  }

  /** The Android map's own values. */
  lemma AndroidPlatformEntries(s: Settings, app: string)
    ensures Has(AndroidCapabilityMap(s, app), "platformName", Text("Android"))
    ensures Has(AndroidCapabilityMap(s, app), "automationName", Text("UiAutomator2"))
    ensures Has(AndroidCapabilityMap(s, app), "name", Text("Android Test"))
    ensures Has(AndroidCapabilityMap(s, app), "app", Text(app))
    ensures Has(AndroidCapabilityMap(s, app), ANDROID_ONLY_KEY, Flag(true))
  {
  }

  lemma AndroidIdentityEntries(s: Settings, app: string)
    ensures CarriesIdentity(AndroidCapabilityMap(s, app), s)
  {
  }

  lemma AndroidFeatureFlagEntries(s: Settings, app: string)
    ensures CarriesFeatureFlags(AndroidCapabilityMap(s, app), s)
  {
  }

  /** The iOS map has exactly the shared keys plus its own key. */
  lemma IosCapabilityKeys(s: Settings, app: string)
    ensures IosCapabilityMap(s, app).Keys == SHARED_KEYS + {IOS_ONLY_KEY}
  {
    var m := IosCapabilityMap(s, app);
    forall k | k in SHARED_KEYS
      ensures k in m.Keys
    {
    }
    forall k | k in m.Keys
      ensures k in SHARED_KEYS + {IOS_ONLY_KEY}
    {
    }
  }

  /** The iOS map has 17 entries: the 16 shared keys and its own. */
  lemma IosCapabilityCount(s: Settings, app: string)
    ensures |IosCapabilityMap(s, app)| == 17
  {
    IosCapabilityKeys(s, app);
    SharedKeyCount();
    assert |IosCapabilityMap(s, app).Keys| == |SHARED_KEYS + {IOS_ONLY_KEY}|;
  }

  /** The iOS map's own values. */
  lemma IosPlatformEntries(s: Settings, app: string)
    ensures Has(IosCapabilityMap(s, app), "platformName", Text("iOS"))
    ensures Has(IosCapabilityMap(s, app), "automationName", Text("XCUITest"))
    ensures Has(IosCapabilityMap(s, app), "name", Text("iOS Test"))
    ensures Has(IosCapabilityMap(s, app), "app", Text(app))
    ensures Has(IosCapabilityMap(s, app), IOS_ONLY_KEY, Flag(true))
  {
  }

  lemma IosIdentityEntries(s: Settings, app: string)
    ensures CarriesIdentity(IosCapabilityMap(s, app), s)
  {
  }

  lemma IosFeatureFlagEntries(s: Settings, app: string)
    ensures CarriesFeatureFlags(IosCapabilityMap(s, app), s)
  {
  }

  /** The two key sets differ exactly in the permission key. */
  lemma KeySetsDifferInPermissionKeyOnly(s: Settings, a1: string, a2: string)
    ensures AndroidCapabilityMap(s, a1).Keys - {ANDROID_ONLY_KEY} == IosCapabilityMap(s, a2).Keys - {IOS_ONLY_KEY}
    ensures ANDROID_ONLY_KEY !in IosCapabilityMap(s, a2) && IOS_ONLY_KEY !in AndroidCapabilityMap(s, a1)
  {
    AndroidCapabilityKeys(s, a1);
    IosCapabilityKeys(s, a2);
    SharedKeyCount();
    assert AndroidCapabilityMap(s, a1).Keys - {ANDROID_ONLY_KEY} == SHARED_KEYS;
    assert IosCapabilityMap(s, a2).Keys - {IOS_ONLY_KEY} == SHARED_KEYS;
  }

  /** getAndroidCapabilities: 17 successive setCapability calls on a fresh
      map; the credential getters throw before anything is returned. */
  method GetAndroidCapabilities(env: Env, nowMillis: nat) returns (r: Result<Capabilities>)
    ensures r.Ok? <==> ReadSettings(env, nowMillis).Ok?
    ensures r.Err? ==> r.error == ReadSettings(env, nowMillis).error
    ensures r.Ok? ==> r.value == AndroidCapabilityMap(ReadSettings(env, nowMillis).value, AndroidAppUrl(env))
  {
    var caps: Capabilities := map[];
    var user :- Username(env);
    caps := caps["browserstack.user" := Text(user)];
    var key :- AccessKey(env);
    caps := caps["browserstack.key" := Text(key)];
    caps := caps["app" := Text(AndroidAppUrl(env))];
    caps := caps["platformName" := Text("Android")];
    caps := caps["platformVersion" := Text(OsVersion(env))];
    caps := caps["deviceName" := Text(DeviceName(env))];
    caps := caps["project" := Text(ProjectName(env))];
    caps := caps["build" := Text(BuildName(env, nowMillis))];
    caps := caps["name" := Text("Android Test")];
    caps := caps["browserstack.debug" := Flag(Debug(env))];
    caps := caps["browserstack.networkLogs" := Flag(NetworkLogs(env))];
    caps := caps["browserstack.video" := Flag(true)];
    caps := caps["browserstack.appiumVersion" := Text("2.0.1")];
    caps := caps["automationName" := Text("UiAutomator2")];
    caps := caps[ANDROID_ONLY_KEY := Flag(true)];
    caps := caps["noReset" := Flag(false)];
    caps := caps["fullReset" := Flag(false)];
    r := Ok(caps);
  }

  /** getIOSCapabilities: the same 17 calls with the iOS values. */
  method GetIOSCapabilities(env: Env, nowMillis: nat) returns (r: Result<Capabilities>)
    ensures r.Ok? <==> ReadSettings(env, nowMillis).Ok?
    ensures r.Err? ==> r.error == ReadSettings(env, nowMillis).error
    ensures r.Ok? ==> r.value == IosCapabilityMap(ReadSettings(env, nowMillis).value, IosAppUrl(env))
  {
    var caps: Capabilities := map[];
    var user :- Username(env);
    caps := caps["browserstack.user" := Text(user)];
    var key :- AccessKey(env);
    caps := caps["browserstack.key" := Text(key)];
    caps := caps["app" := Text(IosAppUrl(env))];
    caps := caps["platformName" := Text("iOS")];
    caps := caps["platformVersion" := Text(OsVersion(env))];
    caps := caps["deviceName" := Text(DeviceName(env))];
    caps := caps["project" := Text(ProjectName(env))];
    caps := caps["build" := Text(BuildName(env, nowMillis))];
    caps := caps["name" := Text("iOS Test")];
    caps := caps["browserstack.debug" := Flag(Debug(env))];
    caps := caps["browserstack.networkLogs" := Flag(NetworkLogs(env))];
    caps := caps["browserstack.video" := Flag(true)];
    caps := caps["browserstack.appiumVersion" := Text("2.0.1")];
    caps := caps["automationName" := Text("XCUITest")];
    caps := caps[IOS_ONLY_KEY := Flag(true)];
    caps := caps["noReset" := Flag(false)];
    caps := caps["fullReset" := Flag(false)];
    r := Ok(caps);
  }

  function UnsupportedPlatform(env: Env): Error {
    IllegalArgument("Unsupported platform: " + Platform(env))
  }

  /** What getCapabilities returns for a configuration and a clock reading. */
  function CapabilitiesFor(env: Env, nowMillis: nat): (r: Result<Capabilities>)
    ensures Dispatch(Platform(env)).None? ==> r == Err(UnsupportedPlatform(env))
    ensures Dispatch(Platform(env)).Some? && r.Err? ==> ReadSettings(env, nowMillis).Err? && r.error == ReadSettings(env, nowMillis).error
    ensures r.Ok? <==> Dispatch(Platform(env)).Some? && Username(env).Ok? && AccessKey(env).Ok?
    ensures r.Ok? && Dispatch(Platform(env)) == Some(Android) ==>
      r.value == AndroidCapabilityMap(ReadSettings(env, nowMillis).value, AndroidAppUrl(env))
    ensures r.Ok? && Dispatch(Platform(env)) == Some(IOS) ==>
      r.value == IosCapabilityMap(ReadSettings(env, nowMillis).value, IosAppUrl(env))
  {
    match Dispatch(Platform(env))
    case Some(Android) =>
      var s :- ReadSettings(env, nowMillis);
      Ok(AndroidCapabilityMap(s, AndroidAppUrl(env)))
    case Some(IOS) =>
      var s :- ReadSettings(env, nowMillis);
      Ok(IosCapabilityMap(s, IosAppUrl(env)))
    case None => Err(UnsupportedPlatform(env))
  }

  /** getCapabilities: the case-insensitive dispatch over the two builders. */
  method GetCapabilities(env: Env, nowMillis: nat) returns (r: Result<Capabilities>)
    ensures r == CapabilitiesFor(env, nowMillis)
  {
    match Dispatch(Platform(env))
    case Some(Android) => r := GetAndroidCapabilities(env, nowMillis);
    case Some(IOS) => r := GetIOSCapabilities(env, nowMillis);
    case None => r := Err(UnsupportedPlatform(env));
  }

  /** Everything the Android map is known to hold, in one place. */
  lemma AndroidCapabilityMapShape(s: Settings, app: string)
    ensures var m := AndroidCapabilityMap(s, app);
      CarriesSettings(m, s) && m.Keys >= SHARED_KEYS && |m| == 17
      && Has(m, "platformName", Text("Android")) && Has(m, "app", Text(app))
  {
    AndroidCapabilityKeys(s, app);
    AndroidCapabilityCount(s, app);
    AndroidPlatformEntries(s, app);
    AndroidIdentityEntries(s, app);
    AndroidFeatureFlagEntries(s, app);
  }

  /** Everything the iOS map is known to hold, in one place. */
  lemma IosCapabilityMapShape(s: Settings, app: string)
    ensures var m := IosCapabilityMap(s, app);
      CarriesSettings(m, s) && m.Keys >= SHARED_KEYS && |m| == 17
      && Has(m, "platformName", Text("iOS")) && Has(m, "app", Text(app))
  {
    IosCapabilityKeys(s, app);
    IosCapabilityCount(s, app);
    IosPlatformEntries(s, app);
    IosIdentityEntries(s, app);
    IosFeatureFlagEntries(s, app);
  }

  /** The map getCapabilities returns names the configured platform and
      carries the app reference getAppUrl resolves for it. */
  lemma CapabilitiesMatchPlatform(env: Env, nowMillis: nat)
    requires CapabilitiesFor(env, nowMillis).Ok?
    ensures var caps := CapabilitiesFor(env, nowMillis).value;
      && CarriesSettings(caps, ReadSettings(env, nowMillis).value)
      && caps.Keys >= SHARED_KEYS
      && |caps| == 17
      && Has(caps, "platformName", Text(if Dispatch(Platform(env)) == Some(Android) then "Android" else "iOS"))
      && Has(caps, "app", Text(GetAppUrl(env).value))
  {
    var s := ReadSettings(env, nowMillis).value;
    if Dispatch(Platform(env)) == Some(Android) {
      AndroidCapabilityMapShape(s, AndroidAppUrl(env));
    } else {
      IosCapabilityMapShape(s, IosAppUrl(env));
    }
  }

  /** The map getCapabilities returns carries the configured credentials,
      device, labels and flags, whichever platform it is for. */
  lemma CapabilitiesCarryConfiguration(env: Env, nowMillis: nat)
    requires CapabilitiesFor(env, nowMillis).Ok?
    ensures var caps := CapabilitiesFor(env, nowMillis).value;
      && Has(caps, "browserstack.user", Text(Username(env).value))
      && Has(caps, "browserstack.key", Text(AccessKey(env).value))
      && Has(caps, "platformVersion", Text(OsVersion(env)))
      && Has(caps, "deviceName", Text(DeviceName(env)))
      && Has(caps, "project", Text(ProjectName(env)))
      && Has(caps, "build", Text(BuildName(env, nowMillis)))
      && Has(caps, "browserstack.debug", Flag(Debug(env)))
      && Has(caps, "browserstack.networkLogs", Flag(NetworkLogs(env)))
  {
    CapabilitiesMatchPlatform(env, nowMillis);
  }

  /** A configuration that passes validateConfig builds its capabilities. */
  lemma ValidConfigBuildsCapabilities(env: Env, nowMillis: nat)
    requires ValidateConfig(env).Pass?
    ensures CapabilitiesFor(env, nowMillis).Ok?
  {
  }
}
