/** Platform-specific access to the calling thread's driver: two platform
    predicates over the configuration and two accessors that insist on a
    driver class. Nothing here changes the slot. */
module DriverFactory {
  import opened Common
  import opened ConfigManager
  import opened Drivers

  /** isAndroid: the configured platform is "android", ignoring case, which
      is when createDriver instantiates the Android class. */
  function IsAndroid(env: Env): (b: bool)
    ensures b <==> Dispatch(Platform(env)) == Some(Android)
  {
    Lower(Platform(env)) == "android"
  }

  /** isIOS: the configured platform is "ios", ignoring case, which is when
      createDriver instantiates the iOS class. */
  function IsIOS(env: Env): (b: bool)
    ensures b <==> Dispatch(Platform(env)) == Some(IOS)
  {
    Lower(Platform(env)) == "ios"
  }

  /** The two predicates never hold together, and one of them holds exactly
      when getAppUrl resolves. */
  lemma PlatformPredicates(env: Env)
    ensures !(IsAndroid(env) && IsIOS(env))
    ensures IsAndroid(env) || IsIOS(env) <==> GetAppUrl(env).Ok?
  {
  }

  /** getDriver: the same answer as the driver manager's. */
  function GetDriver(m: DriverManager, t: ThreadId): (r: Result<Driver>)
    reads m
    ensures r.Ok? <==> m.IsDriverInitialized(t)
    ensures r.Ok? ==> r.value == m.slots[t]
    ensures r.Err? ==> r.error == NOT_INITIALIZED
  {
    m.GetDriver(t)
  }

  /** getAndroidDriver: the thread's driver, provided it is an Android one. */
  function GetAndroidDriver(m: DriverManager, t: ThreadId, env: Env): (r: Result<Driver>)
    reads m
    ensures r.Ok? <==> t in m.slots && m.slots[t].variant == Android
    ensures r.Ok? ==> r.value == m.slots[t]
    ensures t !in m.slots ==> r == Err(NOT_INITIALIZED)
    ensures t in m.slots && m.slots[t].variant != Android ==>
      r == Err(IllegalArgument("Current driver is not an Android driver. Platform: " + Platform(env)))
  {
    var driver :- m.GetDriver(t);
    if driver.variant == Android then Ok(driver)
    else Err(IllegalArgument("Current driver is not an Android driver. Platform: " + Platform(env)))
  }

  /** getIOSDriver: the thread's driver, provided it is an iOS one. */
  function GetIOSDriver(m: DriverManager, t: ThreadId, env: Env): (r: Result<Driver>)
    reads m
    ensures r.Ok? <==> t in m.slots && m.slots[t].variant == IOS
    ensures r.Ok? ==> r.value == m.slots[t]
    ensures t !in m.slots ==> r == Err(NOT_INITIALIZED)
    ensures t in m.slots && m.slots[t].variant != IOS ==>
      r == Err(IllegalArgument("Current driver is not an iOS driver. Platform: " + Platform(env)))
  {
    var driver :- m.GetDriver(t);
    if driver.variant == IOS then Ok(driver)
    else Err(IllegalArgument("Current driver is not an iOS driver. Platform: " + Platform(env)))
  }

  /** At most one of the two typed accessors succeeds. */
  lemma TypedAccessorsExclusive(m: DriverManager, t: ThreadId, env: Env)
    ensures !(GetAndroidDriver(m, t, env).Ok? && GetIOSDriver(m, t, env).Ok?)
    ensures GetDriver(m, t).Ok? ==> GetAndroidDriver(m, t, env).Ok? || GetIOSDriver(m, t, env).Ok?
  {
  }

  /** A driver that initializeDriver stored for the configured platform
      passes exactly the typed accessor that isAndroid/isIOS points at. */
  lemma StoredDriverMatchesPredicates(m: DriverManager, t: ThreadId, env: Env, nowMillis: nat, granted: Result<string>)
    requires NewDriver(env, nowMillis, granted).Ok?
    requires t in m.slots && m.slots[t] == NewDriver(env, nowMillis, granted).value
    ensures GetAndroidDriver(m, t, env).Ok? <==> IsAndroid(env)
    ensures GetIOSDriver(m, t, env).Ok? <==> IsIOS(env)
  {
  }
}
