/** The test lifecycle hooks every test class inherits: validate the
    configuration before the suite, open a driver before each test, capture
    evidence and quit the driver after each test, report the suite's
    duration at the end. Report attachments and screenshots are recorded as
    events in a trace, in the order they happen. */
module Tests {
  import opened Common
  import opened ConfigManager
  import opened Drivers

  /** What teardown reads from TestNG's result: the test method's name,
      whether it passed, and the thrown exception's text if there was one. */
  datatype TestResult = TestResult(testName: string, success: bool, throwable: Option<string>)

  /** A side effect on the report or the device. */
  datatype Event =
    | ParametersAttached(platform: string, device: string, osVersion: string, build: string)
    | FailureScreenshot(testName: string, session: Option<Driver>)  // saved to file and attached
    | FailureDetails(details: string)
    | SuccessScreenshot(title: string, session: Option<Driver>)
    | DriverQuit(session: Option<Driver>)                           // quitDriver ran

  /** The events of teardown's try block. `capture` is how the screenshot
      call ended; when it throws, the rest of the block is skipped. */
  function CleanupEvents(result: TestResult, session: Option<Driver>, capture: Outcome): seq<Event> {
    if !result.success then
      [FailureScreenshot(result.testName, session)]
      + (if capture.Pass? && result.throwable.Some? then [FailureDetails(result.throwable.value)] else [])
    else
      [SuccessScreenshot("Test Success - " + result.testName, session)]
  }

  /** The events of one teardownTest: the try block, then the finally block. */
  function TeardownEvents(result: TestResult, session: Option<Driver>, capture: Outcome): seq<Event> {
    CleanupEvents(result, session, capture) + [DriverQuit(session)]
  }

  function QuitCount(events: seq<Event>): nat {
    if events == [] then 0
    else QuitCount(events[..|events| - 1]) + (if events[|events| - 1].DriverQuit? then 1 else 0)
  }

  predicate HasFailureScreenshot(events: seq<Event>) {
    exists i :: 0 <= i < |events| && events[i].FailureScreenshot?
  }

  predicate HasFailureDetails(events: seq<Event>) {
    exists i :: 0 <= i < |events| && events[i].FailureDetails?
  }

  /** quitDriver runs exactly once per teardown, last, on the session the
      thread held, whatever the test's outcome and whatever cleanup threw. */
  lemma TeardownQuitsOnceAndLast(result: TestResult, session: Option<Driver>, capture: Outcome)
    ensures var events := TeardownEvents(result, session, capture);
      events[|events| - 1] == DriverQuit(session) && QuitCount(events) == 1
  {
    var events := TeardownEvents(result, session, capture);
    var cleanup := CleanupEvents(result, session, capture);
    assert events[..|events| - 1] == cleanup;
    if |cleanup| == 2 {
      assert cleanup[..1][..0] == [];
      assert QuitCount(cleanup[..1]) == 0;
    } else {
      assert cleanup[..0] == [];
    }
    assert QuitCount(cleanup) == 0;
  }

  /** A failed test's screenshot is taken first, from the session that is
      then quit: the session is still alive when the evidence is captured. */
  lemma FailureScreenshotBeforeQuit(result: TestResult, session: Option<Driver>, capture: Outcome)
    requires !result.success
    ensures var events := TeardownEvents(result, session, capture);
      |events| >= 2 && events[0] == FailureScreenshot(result.testName, session)
      && events[|events| - 1] == DriverQuit(session)
      && forall i :: 0 < i < |events| ==> !events[i].FailureScreenshot?
  {
  }

  /** A passed test gets the success screenshot and no failure evidence. */
  lemma PassedTestTakesNoFailureScreenshot(result: TestResult, session: Option<Driver>, capture: Outcome)
    requires result.success
    ensures TeardownEvents(result, session, capture)
         == [SuccessScreenshot("Test Success - " + result.testName, session), DriverQuit(session)]
    ensures !HasFailureScreenshot(TeardownEvents(result, session, capture))
  {
  }

  /** The failure details are attached exactly when a failed test carries a
      throwable and the screenshot call before it did not throw. */
  lemma FailureDetailsOnlyWithThrowable(result: TestResult, session: Option<Driver>, capture: Outcome)
    ensures HasFailureDetails(TeardownEvents(result, session, capture))
        <==> !result.success && result.throwable.Some? && capture.Pass?
  {
    var events := TeardownEvents(result, session, capture);
    if !result.success && result.throwable.Some? && capture.Pass? {
      assert events[1].FailureDetails?;
    }
  }

  /** The suite's running time in whole seconds, as Long arithmetic computes it. */
  function ElapsedSeconds(startMillis: int, nowMillis: int): int {
    TruncDiv(nowMillis - startMillis, 1000)
  }

  /** The JVM split of a number of seconds into minutes and seconds. */
  lemma DurationSplit(duration: int)
    ensures TruncDiv(duration, 60) * 60 + TruncRem(duration, 60) == duration
    ensures duration >= 0 ==> TruncDiv(duration, 60) >= 0 && 0 <= TruncRem(duration, 60) < 60
    ensures duration < 0 ==> TruncDiv(duration, 60) <= 0 && -60 < TruncRem(duration, 60) <= 0
  {
    TruncDivRem(duration, 60);
  }

  class BaseTest {
    /** The driver manager singleton the hooks drive. */
    const manager: DriverManager
    /** The companion object's suite start time, in milliseconds. */
    var suiteStartTime: int
    /** Everything attached to the report or done to the device, in order. */
    var trace: seq<Event>

    constructor (manager: DriverManager)
      ensures this.manager == manager && suiteStartTime == 0 && trace == []
    {
      this.manager := manager;
      suiteStartTime := 0;
      trace := [];
    }

    /** setupSuite: record the start time, then validate the configuration;
        a failed validation aborts the suite. */
    method SetupSuite(env: Env, nowMillis: int) returns (r: Outcome)
      modifies this
      ensures suiteStartTime == nowMillis && trace == old(trace)
      ensures r.Pass? <==> IsValidConfig(env)
      ensures r == ValidateConfig(env)
    {
      suiteStartTime := nowMillis;
      r := ValidateConfig(env);
    }

    /** setupTest: initialise the thread's driver, then attach the run's
        parameters to the report. An exception from either is re-thrown.
        `paramMillis` is the clock reading the build-name parameter sees. */
    method SetupTest(t: ThreadId, env: Env, nowMillis: nat, granted: Result<string>, implicitWait: Outcome, paramMillis: nat)
      returns (r: Outcome)
      modifies this, manager
      ensures r.Pass? <==> NewDriver(env, nowMillis, granted).Ok? && implicitWait.Pass?
      ensures NewDriver(env, nowMillis, granted).Err? ==> r == Fail(NewDriver(env, nowMillis, granted).error)
      ensures NewDriver(env, nowMillis, granted).Ok? && implicitWait.Fail? ==> r == implicitWait
      ensures r.Pass? ==> manager.slots == Apply(old(manager.slots), Store(t, NewDriver(env, nowMillis, granted).value))
      ensures r.Pass? ==> trace == old(trace) + [ParametersAttached(Platform(env), DeviceName(env), OsVersion(env), BuildName(env, paramMillis))]
      ensures r.Fail? ==> manager.slots == old(manager.slots) && trace == old(trace)
      ensures suiteStartTime == old(suiteStartTime)
    {
      r := manager.InitializeDriver(t, env, nowMillis, granted, implicitWait);
      if r.Fail? {
        return;
      }
      trace := trace + [ParametersAttached(Platform(env), DeviceName(env), OsVersion(env), BuildName(env, paramMillis))];
    }

    /** teardownTest: in a try block, the failure screenshot and details or
        the success screenshot; in the finally block, quitDriver, whose own
        remote failure (`quitReply`) is only logged. `capture` is how the
        screenshot call ended. The screenshot utilities catch every
        Exception themselves, so a failure there is an Error: the try block
        stops, teardown's `catch (e: Exception)` lets it through, the
        driver is still quit, and then the Error propagates as `r`. */
    method TeardownTest(t: ThreadId, result: TestResult, capture: Outcome, quitReply: Outcome)
      returns (r: Outcome)
      modifies this, manager
      ensures r == capture
      ensures trace == old(trace) + TeardownEvents(result, old(manager.Slot(t)), capture)
      ensures manager.slots == Apply(old(manager.slots), Remove(t))
      ensures suiteStartTime == old(suiteStartTime)
    {
      var session := manager.Slot(t);
      var escaped := Pass;
      if !result.success {
        trace := trace + [FailureScreenshot(result.testName, session)];
        if capture.Fail? {
          escaped := capture;
        } else if result.throwable.Some? {
          trace := trace + [FailureDetails(result.throwable.value)];
        }
      } else {
        trace := trace + [SuccessScreenshot("Test Success - " + result.testName, session)];
        escaped := capture;
      }
      var quit := manager.QuitDriver(t, quitReply);
      trace := trace + [DriverQuit(quit)];
      r := escaped;
    }

    /** teardownSuite: the elapsed time, split into minutes and seconds. */
    method TeardownSuite(nowMillis: int) returns (minutes: int, seconds: int)
      ensures minutes * 60 + seconds == ElapsedSeconds(suiteStartTime, nowMillis)
      ensures suiteStartTime <= nowMillis ==> minutes >= 0 && 0 <= seconds < 60
      ensures nowMillis < suiteStartTime ==> minutes <= 0 && -60 < seconds <= 0
    {
      var duration := TruncDiv(nowMillis - suiteStartTime, 1000);
      minutes := TruncDiv(duration, 60);
      seconds := TruncRem(duration, 60);
      TruncDivRem(nowMillis - suiteStartTime, 1000);
      DurationSplit(duration);
    }
  }
}
