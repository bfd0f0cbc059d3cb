# Mobile testing harness: configuration, capabilities and driver lifecycle

This project models the core of a Kotlin harness that runs Appium tests
against the BrowserStack device farm.

- **Configuration.** Each setting is looked up in the process environment first, then in a
  `.env` file, then falls back to a default. The two BrowserStack credentials are
  required.
- **Capabilities.** The capability map sent to the farm has 17 entries. The Android and iOS
  maps differ in their platform values and in one permission key. The platform is chosen
  by a case-insensitive dispatch on the configured name.
- **Drivers.** Each thread holds at most one remote driver in a thread-local slot.
  `initializeDriver` fills the slot, `getDriver` reads it and `quitDriver` empties it. Two
  typed accessors insist on the driver class.
- **Test hooks.** The base class validates the configuration before the suite and opens a
  driver before each test. After each test it captures evidence and always quits the
  driver. After the suite it reports the elapsed time.
- **Sample page.** The sample page object builds an XPath text locator that depends on the
  platform. It folds the device's answers into its checks.

Modules, one per source file:

| Dafny file | module | source file | modelled as |
|---|---|---|---|
| `common.dfy` | `Common` | (shared helpers) | Result/Outcome/Option types, ASCII `lowercase()`, the platform dispatch, `Long.toString()`, JVM `/` and `%` |
| `config_manager.dfy` | `ConfigManager` | `ConfigManager.kt` | functions of an `Env` value |
| `browserstack_capabilities.dfy` | `BrowserStackCapabilities` | `BrowserStackCapabilities.kt` | the builders as methods that make 17 successive map updates, each proved equal to a map-valued specification function |
| `driver_manager.dfy` | `Drivers` | `DriverManager.kt` | a class whose `slots: map<ThreadId, Driver>` field is the thread-local |
| `driver_factory.dfy` | `DriverFactory` | `DriverFactory.kt` | functions that read the manager |
| `sample_page.dfy` | `SamplePage` | `SamplePage.kt` | functions on a driver value |
| `base_test.dfy` | `Tests` | `BaseTest.kt` | a class with the suite start time and a trace of report and device events |

Remote calls are modelled as parameters that carry the remote side's answer:
- the session the farm grants;
- whether setting the implicit wait or quitting the driver threw;
- what the device reports for an element, an activity, a title or the page source.

The wall clock is also a parameter: each read of the clock takes its own parameter.

## Model

| member | source | states |
|---|---|---|
| Common.Dispatch | src/main/kotlin/config/BrowserStackCapabilities.kt:90-94 | the `when (platform.lowercase())` picks Android exactly when the lower-cased name is "android", iOS exactly when it is "ios", and nothing otherwise |
| Common.DecimalRoundTrip | src/main/kotlin/config/ConfigManager.kt:44 | the millisecond numeral in the default build name reads back to the clock value it printed |
| Common.DecimalInjective | src/main/kotlin/config/ConfigManager.kt:44 | two clock readings print the same numeral only if they are equal |
| Common.TruncDivRem | src/test/kotlin/tests/BaseTest.kt:108-110 | JVM truncating division: quotient times divisor plus remainder gives back the dividend; the remainder is in [0, b) for a non-negative dividend and in (-b, 0] for a negative one |
| ConfigManager.FirstDefined | src/main/kotlin/config/ConfigManager.kt:60-61 | the `?:` chain over the lookup sources returns the value of the first source that defines the key, or nothing exactly when no source defines it |
| ConfigManager.GetEnvVariable | src/main/kotlin/config/ConfigManager.kt:59-67 | the lookup fails exactly when no source defines the key, the default is empty and the key is required, and the failure carries the "Required environment variable … is not set" message; otherwise the result is the first defined value or the default |
| ConfigManager.LookupPrecedence | src/main/kotlin/config/ConfigManager.kt:59-67 | a key in the environment wins even with an empty value; `.env` is used only when the environment lacks the key; an optional key that neither source defines yields the default |
| ConfigManager.IsRequiredKey | src/main/kotlin/config/ConfigManager.kt:72-74 | a key is required exactly when it is the username or the access-key variable |
| ConfigManager.Username | src/main/kotlin/config/ConfigManager.kt:16-17 | the username is missing exactly when neither source defines it, failing with the "Required environment variable" error; otherwise it is the first defined value, even an empty one |
| ConfigManager.AccessKey | src/main/kotlin/config/ConfigManager.kt:19-20 | the access key is missing exactly when neither source defines it, failing with the "Required environment variable" error; otherwise it is the first defined value, even an empty one |
| ConfigManager.AndroidAppUrl | src/main/kotlin/config/ConfigManager.kt:23-24 | the first defined value of ANDROID_APP_URL, or "" when unset |
| ConfigManager.IosAppUrl | src/main/kotlin/config/ConfigManager.kt:26-27 | the first defined value of IOS_APP_URL, or "" when unset |
| ConfigManager.Platform | src/main/kotlin/config/ConfigManager.kt:30-31 | the first defined value of PLATFORM, or "android" when unset |
| ConfigManager.DeviceName | src/main/kotlin/config/ConfigManager.kt:33-34 | the first defined value of DEVICE_NAME, or "Google Pixel 7" when unset |
| ConfigManager.OsVersion | src/main/kotlin/config/ConfigManager.kt:36-37 | the first defined value of OS_VERSION, or "13.0" when unset |
| ConfigManager.ProjectName | src/main/kotlin/config/ConfigManager.kt:40-41 | the first defined value of BROWSERSTACK_PROJECT_NAME, or "Mobile Testing Framework" when unset |
| ConfigManager.BuildName | src/main/kotlin/config/ConfigManager.kt:43-44 | the first defined value of BROWSERSTACK_BUILD_NAME, or "Build_" followed by the clock reading in decimal |
| ConfigManager.Debug | src/main/kotlin/config/ConfigManager.kt:46-47 | on when BROWSERSTACK_DEBUG is unset; otherwise on exactly when its value is "true" in any letter case |
| ConfigManager.NetworkLogs | src/main/kotlin/config/ConfigManager.kt:49-50 | on when BROWSERSTACK_NETWORK_LOGS is unset; otherwise on exactly when its value is "true" in any letter case |
| ConfigManager.BuildNameFollowsClock | src/main/kotlin/config/ConfigManager.kt:43-44 | with no configured build name, two reads give the same label exactly when the clock readings are equal |
| ConfigManager.BrowserstackHub | src/main/kotlin/config/ConfigManager.kt:53-54 | the hub URL exists exactly when both credentials resolve and then embeds them; a missing username is reported first, before the access key is read |
| ConfigManager.HubUrlRoundTrip | src/main/kotlin/config/ConfigManager.kt:53-54 | splitting the hub URL at its first ':' gives back the username and access key, provided the username has no ':' |
| ConfigManager.GetAppUrl | src/main/kotlin/config/ConfigManager.kt:79-85 | the Android URL for "android" and the iOS URL for "ios", in any letter case; for every other platform the "Invalid platform" error |
| ConfigManager.ValidateConfig | src/main/kotlin/config/ConfigManager.kt:90-93 | passes exactly when both credentials are present and non-empty and the platform is android or ios; the checks run in order username, access key, platform, and the first that fails decides: a missing credential fails with its getter's error, an empty username with "BrowserStack username is required", an empty access key with "BrowserStack access key is required", and any other platform with "Platform must be 'android' or 'ios'"; a passing configuration has a platform the dispatch recognises |
| ConfigManager.ValidConfigResolves | src/main/kotlin/config/ConfigManager.kt:90-93 | a configuration that validates yields both a hub URL and an app URL |
| ConfigManager.EmptyCredentialsNeverValidate | src/main/kotlin/config/ConfigManager.kt:59-92 | whether the username is absent or set to "", validation fails |
| BrowserStackCapabilities.ReadSettings | src/main/kotlin/config/BrowserStackCapabilities.kt:16-34 | the configuration reads behind a capability map succeed exactly when both credentials resolve, and fail with the same error as the hub URL; on success they are the username, access key, OS version, device name, project, build label at the given clock reading, debug and network-log flags |
| BrowserStackCapabilities.SharedKeyCount | src/main/kotlin/config/BrowserStackCapabilities.kt:16-44 | the two builders share 16 distinct keys, and neither platform's own key is among them |
| BrowserStackCapabilities.AndroidCapabilityMap | src/main/kotlin/config/BrowserStackCapabilities.kt:16-44 | the Android map sets `autoGrantPermissions` to true and never sets the iOS `autoAcceptAlerts` key |
| BrowserStackCapabilities.AndroidCapabilityKeys | src/main/kotlin/config/BrowserStackCapabilities.kt:13-46 | the Android map's keys are exactly the 16 shared keys plus `autoGrantPermissions` |
| BrowserStackCapabilities.AndroidCapabilityCount | src/main/kotlin/config/BrowserStackCapabilities.kt:13-46 | the Android map has 17 entries: the 17 `setCapability` calls use distinct keys |
| BrowserStackCapabilities.AndroidPlatformEntries | src/main/kotlin/config/BrowserStackCapabilities.kt:20-42 | the Android map sets platformName "Android", automationName "UiAutomator2", name "Android Test", the Android app URL and `autoGrantPermissions` true |
| BrowserStackCapabilities.AndroidIdentityEntries | src/main/kotlin/config/BrowserStackCapabilities.kt:16-29 | the Android map carries the credentials, OS version, device, project and build of the settings it is built from, which `ReadSettings` reads from the configuration |
| BrowserStackCapabilities.AndroidFeatureFlagEntries | src/main/kotlin/config/BrowserStackCapabilities.kt:33-44 | the Android map carries the debug and network-log flags, video on, Appium 2.0.1, and noReset and fullReset off |
| BrowserStackCapabilities.IosCapabilityMap | src/main/kotlin/config/BrowserStackCapabilities.kt:54-82 | the iOS map sets `autoAcceptAlerts` to true and never sets the Android `autoGrantPermissions` key |
| BrowserStackCapabilities.IosCapabilityKeys | src/main/kotlin/config/BrowserStackCapabilities.kt:51-84 | the iOS map's keys are exactly the 16 shared keys plus `autoAcceptAlerts` |
| BrowserStackCapabilities.IosCapabilityCount | src/main/kotlin/config/BrowserStackCapabilities.kt:51-84 | the iOS map has 17 entries: the 17 `setCapability` calls use distinct keys |
| BrowserStackCapabilities.IosPlatformEntries | src/main/kotlin/config/BrowserStackCapabilities.kt:58-80 | the iOS map sets platformName "iOS", automationName "XCUITest", name "iOS Test", the iOS app URL and `autoAcceptAlerts` true |
| BrowserStackCapabilities.IosIdentityEntries | src/main/kotlin/config/BrowserStackCapabilities.kt:54-67 | the iOS map carries the credentials, OS version, device, project and build of the settings it is built from, which `ReadSettings` reads from the configuration |
| BrowserStackCapabilities.IosFeatureFlagEntries | src/main/kotlin/config/BrowserStackCapabilities.kt:71-82 | the iOS map carries the debug and network-log flags, video on, Appium 2.0.1, and noReset and fullReset off |
| BrowserStackCapabilities.KeySetsDifferInPermissionKeyOnly | src/main/kotlin/config/BrowserStackCapabilities.kt:42-80 | without their own permission keys the two key sets are equal, and each map lacks the other platform's key |
| BrowserStackCapabilities.GetAndroidCapabilities | src/main/kotlin/config/BrowserStackCapabilities.kt:13-46 | the 17 updates build exactly the Android map of the configuration's settings; a missing credential aborts the build with its error |
| BrowserStackCapabilities.GetIOSCapabilities | src/main/kotlin/config/BrowserStackCapabilities.kt:51-84 | the 17 updates build exactly the iOS map of the configuration's settings; a missing credential aborts the build with its error |
| BrowserStackCapabilities.CapabilitiesFor | src/main/kotlin/config/BrowserStackCapabilities.kt:89-95 | an unrecognised platform gives "Unsupported platform"; a recognised one gives a map exactly when both credentials resolve, and otherwise the credential error; "android" gives the Android map and "ios" the iOS map of the configuration's settings |
| BrowserStackCapabilities.GetCapabilities | src/main/kotlin/config/BrowserStackCapabilities.kt:89-95 | the dispatch over the two builder methods returns what `CapabilitiesFor` specifies |
| BrowserStackCapabilities.AndroidCapabilityMapShape | src/main/kotlin/config/BrowserStackCapabilities.kt:13-46 | the Android map carries every setting, covers the shared keys, has 17 entries and names the Android platform and app |
| BrowserStackCapabilities.IosCapabilityMapShape | src/main/kotlin/config/BrowserStackCapabilities.kt:51-84 | the iOS map carries every setting, covers the shared keys, has 17 entries and names the iOS platform and app |
| BrowserStackCapabilities.CapabilitiesMatchPlatform | src/main/kotlin/config/BrowserStackCapabilities.kt:89-95 | the map getCapabilities returns carries every setting and has 17 entries; its platformName is the configured platform's, and its app is the URL getAppUrl resolves |
| BrowserStackCapabilities.CapabilitiesCarryConfiguration | src/main/kotlin/config/BrowserStackCapabilities.kt:16-34 | the map getCapabilities returns sends the configured username and access key as the credentials, the configured OS version and device name as platformVersion and deviceName, and the configured project, build label, debug and network-log flags |
| BrowserStackCapabilities.ValidConfigBuildsCapabilities | src/main/kotlin/config/BrowserStackCapabilities.kt:89-95 | a configuration that passes validateConfig always builds its capabilities |
| Drivers.OtherThreadsUnaffected | src/main/kotlin/drivers/DriverManager.kt:18 | thread isolation: however other threads' stores and removes interleave, a thread that issues none finds its slot unchanged |
| Drivers.LastOwnOperationDecides | src/main/kotlin/drivers/DriverManager.kt:18-76 | after any interleaving, a thread's slot holds the driver of its last store, or is empty if its last operation was a remove |
| Drivers.RemoveIdempotent | src/main/kotlin/drivers/DriverManager.kt:74 | emptying a slot twice is the same as emptying it once |
| Drivers.StoreOverwrites | src/main/kotlin/drivers/DriverManager.kt:30 | a second store replaces the first driver, which is never quit |
| Drivers.StoredDriverIsVisible | src/main/kotlin/drivers/DriverManager.kt:30-60 | after a store the thread reads back the stored driver; after a remove its slot is empty |
| Drivers.CreateDriver | src/main/kotlin/drivers/DriverManager.kt:38-52 | a driver is created exactly when the hub URL resolves, the platform is recognised and the farm grants a session; its class is the dispatched one; a hub URL failure is returned as is, a resolved hub with an unknown platform gives "Unsupported platform", and a refused session returns the farm's error |
| Drivers.CreateDriverVariant | src/main/kotlin/drivers/DriverManager.kt:41-50 | the created driver is an Android driver exactly for "android" and an iOS driver exactly for "ios", in any letter case |
| Drivers.NewDriver | src/main/kotlin/drivers/DriverManager.kt:23-25 | building the capabilities and then creating the driver succeeds exactly when both do; the driver carries those capabilities, the dispatched class and the granted session; otherwise the error is the capability builder's, or else the farm's |
| Drivers.DriverManager.constructor | src/main/kotlin/drivers/DriverManager.kt:18 | a fresh thread-local holds no driver for any thread |
| Drivers.DriverManager.GetDriver | src/main/kotlin/drivers/DriverManager.kt:57-60 | the thread's driver when its slot is filled, and otherwise the "Driver not initialized" error |
| Drivers.DriverManager.IsDriverInitialized | src/main/kotlin/drivers/DriverManager.kt:81-87 | true exactly when getDriver would succeed |
| Drivers.DriverManager.InitializeDriver | src/main/kotlin/drivers/DriverManager.kt:23-33 | on success the calling thread's slot holds the new driver and no other slot changes; on any failure nothing is stored; the failure is the capability or creation error, or else the implicit-wait error |
| Drivers.DriverManager.QuitDriver | src/main/kotlin/drivers/DriverManager.kt:65-76 | quits the driver the thread held and empties its slot whatever the remote quit answered; other slots are untouched |
| DriverFactory.IsAndroid | src/main/kotlin/drivers/DriverFactory.kt:45-47 | true exactly when the platform dispatch selects the Android driver class |
| DriverFactory.IsIOS | src/main/kotlin/drivers/DriverFactory.kt:52-54 | true exactly when the platform dispatch selects the iOS driver class |
| DriverFactory.PlatformPredicates | src/main/kotlin/drivers/DriverFactory.kt:45-54 | isAndroid and isIOS never hold together, and one of them holds exactly when getAppUrl succeeds |
| DriverFactory.GetDriver | src/main/kotlin/drivers/DriverFactory.kt:38-40 | the manager's answer: the thread's driver when initialised, and otherwise "Driver not initialized" |
| DriverFactory.GetAndroidDriver | src/main/kotlin/drivers/DriverFactory.kt:16-22 | succeeds exactly when the thread holds an Android driver; an empty slot gives "Driver not initialized", and an iOS driver gives "Current driver is not an Android driver" with the platform |
| DriverFactory.GetIOSDriver | src/main/kotlin/drivers/DriverFactory.kt:27-33 | succeeds exactly when the thread holds an iOS driver; an empty slot gives "Driver not initialized", and an Android driver gives "Current driver is not an iOS driver" with the platform |
| DriverFactory.TypedAccessorsExclusive | src/main/kotlin/drivers/DriverFactory.kt:16-33 | at most one typed accessor succeeds, and one does whenever getDriver does |
| DriverFactory.StoredDriverMatchesPredicates | src/main/kotlin/drivers/DriverFactory.kt:16-54 | for a driver initializeDriver stored, getAndroidDriver succeeds exactly when isAndroid holds and getIOSDriver exactly when isIOS holds |
| SamplePage.TextLocator | src/main/kotlin/pages/SamplePage.kt:18-23 | matches `@text` exactly when the session's platformName, lower-cased, is "android", and `@name` or `@label` for every other value; on either branch the XPath literal reads back as exactly the text asked for, as long as the text has no single quote |
| SamplePage.TextLocatorStopsAtQuote | src/main/kotlin/pages/SamplePage.kt:18-23 | the text is not escaped: a single quote in it ends the XPath literal, so the locator matches on the text before the quote |
| SamplePage.TextLocatorForSession | src/main/kotlin/pages/SamplePage.kt:18-23 | a session opened with the Android capability map is matched on `@text`, and one opened with the iOS map on `@name`/`@label` |
| SamplePage.ClickElementWithText | src/main/kotlin/pages/SamplePage.kt:49-51 | the click targets the element whose XPath literal is exactly the text asked for, as long as the text has no single quote |
| SamplePage.IsTextDisplayed | src/main/kotlin/pages/SamplePage.kt:56-58 | true exactly when the device answers "displayed" for the text locator; an exception reads as not displayed |
| SamplePage.ClickAndDisplayShareLocator | src/main/kotlin/pages/SamplePage.kt:49-58 | clickElementWithText and isTextDisplayed target the same locator: the display check depends only on the device's answer for the clicked element |
| SamplePage.IsPageLoaded | src/main/kotlin/pages/SamplePage.kt:37-44 | false exactly when reading the activity throws, or the activity is null and reading the title throws; the values read never matter |
| SamplePage.GetCurrentScreen | src/main/kotlin/pages/SamplePage.kt:63-69 | the activity when there is one; otherwise the page source; when a read in the try block throws, a second page-source read whose failure propagates |
| Tests.TeardownQuitsOnceAndLast | src/test/kotlin/tests/BaseTest.kt:71-104 | every teardown ends by quitting the thread's driver, exactly once, whatever the test's outcome and whatever the cleanup threw |
| Tests.FailureScreenshotBeforeQuit | src/test/kotlin/tests/BaseTest.kt:75-94 | for a failed test, the failure screenshot is the first event and is taken from the same session that is then quit; no second one follows |
| Tests.PassedTestTakesNoFailureScreenshot | src/test/kotlin/tests/BaseTest.kt:85-94 | a passed test gets exactly the "Test Success - " screenshot and the quit, and no failure screenshot |
| Tests.FailureDetailsOnlyWithThrowable | src/test/kotlin/tests/BaseTest.kt:77-90 | failure details are attached exactly when the test failed, has a throwable, and the screenshot step before them did not throw |
| Tests.DurationSplit | src/test/kotlin/tests/BaseTest.kt:109-110 | the minutes and seconds recombine to the duration; for a non-negative duration the seconds are in [0, 60) |
| Tests.BaseTest.constructor | src/test/kotlin/tests/BaseTest.kt:19-23 | a fresh harness has start time 0 and an empty trace |
| Tests.BaseTest.SetupSuite | src/test/kotlin/tests/BaseTest.kt:25-37 | records the start time and passes exactly when the configuration is valid |
| Tests.BaseTest.SetupTest | src/test/kotlin/tests/BaseTest.kt:39-68 | on success the thread's slot holds the new driver and the platform, device, OS version and build are attached in that order; on failure initializeDriver's own error (capabilities, creation or implicit wait) is rethrown and neither the slot nor the report changes |
| Tests.BaseTest.TeardownTest | src/test/kotlin/tests/BaseTest.kt:70-104 | appends exactly the cleanup events for the test's outcome, taken on the thread's session, followed by the quit; the slot ends empty in every case; an Error from the screenshot call propagates after the quit; an Exception from the screenshot or the quit does not escape |
| Tests.BaseTest.TeardownSuite | src/test/kotlin/tests/BaseTest.kt:106-111 | the reported minutes and seconds recombine to the elapsed whole seconds under JVM division; for a non-negative elapsed time the seconds are in [0, 60) and for a negative one in (-60, 0] |

## Left out

- Lower-casing covers ASCII letters only. Kotlin's `lowercase()` also folds other Unicode letters. A platform name with such letters is compared differently here.
- The Appium and Selenium calls are not modelled. These are session creation, implicit wait, quit, element lookups, activity, title and page source. Each is a parameter carrying its answer or its exception, so their internals and timeouts are not modelled.
- The capabilities the remote driver reports are taken to be the ones it was opened with. The farm may add or rewrite entries.
- `DesiredCapabilities` is a plain map from keys to strings and booleans. Its W3C key normalisation is not modelled.
- `URL(...)` is taken never to reject the hub string. A credential with characters illegal in a URL would throw there.
- The clock is not modelled. Each read is a parameter, and the clock is assumed non-negative. Long overflow of the time arithmetic is not modelled.
- Threads are numbered. Real concurrency is not modelled: the slot operations of different threads are treated as one sequence in some order.
- The `println` output, the banners and the test-start timestamp are not modelled, because they only go to the console.
- ScreenshotUtils, WaitUtils, ElementUtils and BasePage are not part of this model. Screenshots and attachments appear as trace events only. Clicks and display checks go through a locator and the device's answer.
- ScreenshotUtils catches every Exception itself. So the `capture` parameter of `Tests.BaseTest.TeardownTest` stands for an Error (a non-Exception Throwable) escaping the screenshot call. Teardown's `catch (e: Exception)` does not stop it, so it propagates after the driver is quit.
- Tests.BaseTest.SetupTest treats the four `Allure.parameter` calls as never throwing.
- Tests.BaseTest.TeardownTest treats the "Failure Details" `Allure.addAttachment` call as never throwing. An Exception from it would be caught and change nothing; an Error would propagate after the quit.
- Drivers.DriverManager.QuitDriver: `quitReply` stands for an Exception from `driver.quit()` only, which is caught and logged. An Error from it would propagate after the slot is emptied; the model does not return one.
- Drivers.DriverManager.InitializeDriver does not record the remote session it leaks. When setting the implicit wait throws, the created session is left open and unreferenced. The model only shows that nothing is stored.
- `step`, `tapAtCoordinates` and `waitForPageToLoad` are left out. They are a report wrapper, a console message and a fixed sleep.
- The sample page's unused locator fields are left out.
- SampleTests, SimpleTest and the build script are not part of this model.
- `suiteStartTime` is shared by all test classes in the program, because it is a companion object. Here it is a field of one `BaseTest` object driven by all hooks.
