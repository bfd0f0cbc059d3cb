/** The driver lifecycle: one optional driver slot per thread (a ThreadLocal
    in the program), filled by initializeDriver, read by getDriver and
    emptied by quitDriver. Threads are identified by number, and each
    operation names the calling thread and touches only its slot. */
module Drivers {
  import opened Common
  import opened ConfigManager
  import opened BrowserStackCapabilities

  type ThreadId = nat

  /** A remote session: the driver class instantiated, the session id the
      device farm granted, the hub URL it was opened against, and the
      capabilities it was opened with. */
  datatype Driver = Driver(variant: Variant, sessionId: string, hub: string, capabilities: Capabilities)

  const NOT_INITIALIZED := IllegalState("Driver not initialized. Call initializeDriver() first.")

  // ---------------------------------------------------------------------
  // The slot map as a value, and the two ways the program changes it

  datatype SlotOp = Store(thread: ThreadId, driver: Driver) | Remove(thread: ThreadId)

  function Apply(slots: map<ThreadId, Driver>, op: SlotOp): map<ThreadId, Driver> {
    match op
    case Store(t, d) => slots[t := d]
    case Remove(t) => slots - {t}
  }

  /** The slots after a sequence of operations, issued by any threads in any
      order, one after the other. */
  function Run(slots: map<ThreadId, Driver>, ops: seq<SlotOp>): map<ThreadId, Driver>
    decreases |ops|
  {
    if ops == [] then slots else Run(Apply(slots, ops[0]), ops[1..])
  }

  /** Thread isolation: however the other threads' operations interleave,
      a thread that issues none finds its slot as it left it. */
  lemma {:induction false} OtherThreadsUnaffected(slots: map<ThreadId, Driver>, ops: seq<SlotOp>, u: ThreadId)
    requires forall i :: 0 <= i < |ops| ==> ops[i].thread != u
    ensures u in Run(slots, ops) <==> u in slots
    ensures u in slots ==> Run(slots, ops)[u] == slots[u]
    decreases |ops|
  {
    if ops != [] {
      OtherThreadsUnaffected(Apply(slots, ops[0]), ops[1..], u);
    }
  }

  /** A thread's slot after a run depends only on its own operations: the
      last Store or Remove it issued decides it. */
  lemma {:induction false} LastOwnOperationDecides(slots: map<ThreadId, Driver>, ops: seq<SlotOp>, k: nat)
    requires k < |ops|
    requires forall i :: k < i < |ops| ==> ops[i].thread != ops[k].thread
    ensures ops[k].Store? ==> ops[k].thread in Run(slots, ops) && Run(slots, ops)[ops[k].thread] == ops[k].driver
    ensures ops[k].Remove? ==> ops[k].thread !in Run(slots, ops)
    decreases |ops|
  {
    if k == 0 {
      OtherThreadsUnaffected(Apply(slots, ops[0]), ops[1..], ops[0].thread);
    } else {
      LastOwnOperationDecides(Apply(slots, ops[0]), ops[1..], k - 1);
    }
  }

  /** Removing twice is removing once: quitDriver is harmless to repeat. */
  lemma RemoveIdempotent(slots: map<ThreadId, Driver>, t: ThreadId)
    ensures Apply(Apply(slots, Remove(t)), Remove(t)) == Apply(slots, Remove(t))
  {
  }

  /** A second Store for a thread replaces the first without a trace: the
      earlier driver is never quit. */
  lemma StoreOverwrites(slots: map<ThreadId, Driver>, t: ThreadId, d1: Driver, d2: Driver)
    ensures Apply(Apply(slots, Store(t, d1)), Store(t, d2)) == Apply(slots, Store(t, d2))
  {
  }

  // ---------------------------------------------------------------------
  // createDriver

  /** createDriver: the hub URL is built first, then the platform picks the
      driver class, whose constructor asks the device farm for a session;
      `granted` is the farm's answer. */
  function CreateDriver(env: Env, caps: Capabilities, granted: Result<string>): (r: Result<Driver>)
    ensures r.Ok? <==> BrowserstackHub(env).Ok? && Dispatch(Platform(env)).Some? && granted.Ok?
    ensures r.Ok? ==> r.value == Driver(Dispatch(Platform(env)).value, granted.value, BrowserstackHub(env).value, caps)
    ensures BrowserstackHub(env).Err? ==> r == Err(BrowserstackHub(env).error)
    ensures BrowserstackHub(env).Ok? && Dispatch(Platform(env)).None? ==> r == Err(UnsupportedPlatform(env))
    ensures BrowserstackHub(env).Ok? && Dispatch(Platform(env)).Some? && granted.Err? ==> r == Err(granted.error)
  {
    var hub :- BrowserstackHub(env);
    match Dispatch(Platform(env))
    case Some(Android) =>
      var id :- granted;
      Ok(Driver(Android, id, hub, caps))
    case Some(IOS) =>
      var id :- granted;
      Ok(Driver(IOS, id, hub, caps))
    case None => Err(UnsupportedPlatform(env))
  }

  /** The variant createDriver instantiates is the one the platform names. */
  lemma CreateDriverVariant(env: Env, caps: Capabilities, granted: Result<string>)
    requires CreateDriver(env, caps, granted).Ok?
    ensures CreateDriver(env, caps, granted).value.variant == Android <==> Lower(Platform(env)) == "android"
    ensures CreateDriver(env, caps, granted).value.variant == IOS <==> Lower(Platform(env)) == "ios"
  {
  }

  /** The driver initializeDriver stores, or why it cannot: the capabilities
      are built first, then the driver is created from them. */
  function NewDriver(env: Env, nowMillis: nat, granted: Result<string>): (r: Result<Driver>)
    ensures r.Ok? <==> CapabilitiesFor(env, nowMillis).Ok? && granted.Ok?
    ensures r.Ok? ==> r.value.capabilities == CapabilitiesFor(env, nowMillis).value
    ensures r.Ok? ==> r.value.variant == Dispatch(Platform(env)).value
    ensures r.Ok? ==> r.value.sessionId == granted.value
    ensures CapabilitiesFor(env, nowMillis).Err? ==> r == Err(CapabilitiesFor(env, nowMillis).error)
    ensures CapabilitiesFor(env, nowMillis).Ok? && granted.Err? ==> r == Err(granted.error)
  {
    var caps :- CapabilitiesFor(env, nowMillis);
    CreateDriver(env, caps, granted)
  }

  // ---------------------------------------------------------------------
  // The singleton

  class DriverManager {
    /** The thread-local slot, one entry per thread that holds a driver. */
    var slots: map<ThreadId, Driver>

    constructor ()
      ensures slots == map[]
    {
      slots := map[];
    }

    /** getDriver: the calling thread's driver, or an error when its slot
        is empty. */
    function GetDriver(t: ThreadId): (r: Result<Driver>)
      reads this
      ensures r.Ok? <==> t in slots
      ensures r.Ok? ==> r.value == slots[t]
      ensures r.Err? ==> r.error == NOT_INITIALIZED
    {
      if t in slots then Ok(slots[t]) else Err(NOT_INITIALIZED)
    }

    /** isDriverInitialized: exactly when getDriver would succeed. */
    function IsDriverInitialized(t: ThreadId): (b: bool)
      reads this
      ensures b <==> GetDriver(t).Ok?
    {
      t in slots
    }

    /** The calling thread's slot, as an optional value. */
    function Slot(t: ThreadId): Option<Driver>
      reads this
    {
      if t in slots then Some(slots[t]) else None
    }

    /** initializeDriver: build the capabilities, create the driver, set its
        implicit wait (a remote call whose answer is `implicitWait`), and only
        then store it. No check for a driver already in the slot. */
    method InitializeDriver(t: ThreadId, env: Env, nowMillis: nat, granted: Result<string>, implicitWait: Outcome)
      returns (r: Outcome)
      modifies this
      ensures r.Pass? <==> NewDriver(env, nowMillis, granted).Ok? && implicitWait.Pass?
      ensures r.Pass? ==> slots == Apply(old(slots), Store(t, NewDriver(env, nowMillis, granted).value))
      ensures NewDriver(env, nowMillis, granted).Err? ==> r == Fail(NewDriver(env, nowMillis, granted).error)
      ensures NewDriver(env, nowMillis, granted).Ok? && implicitWait.Fail? ==> r == implicitWait
      ensures r.Fail? ==> slots == old(slots)
    {
      var caps := GetCapabilities(env, nowMillis);
      if caps.Err? {
        return Fail(caps.error);
      }
      var driver := CreateDriver(env, caps.value, granted);
      if driver.Err? {
        return Fail(driver.error);
      }
      if implicitWait.Fail? {
        return implicitWait;
      }
      slots := slots[t := driver.value];
      r := Pass;
    }

    /** quitDriver: quit the thread's driver if it has one (a remote call
        whose answer is `quitReply`; an exception is only logged) and in
        every case empty the slot. Returns the driver that was quit. */
    method QuitDriver(t: ThreadId, quitReply: Outcome) returns (quit: Option<Driver>)
      modifies this
      ensures quit == old(Slot(t))
      ensures slots == Apply(old(slots), Remove(t))
    {
      quit := Slot(t);
      // Whatever `quitReply` is, an exception from quit() is caught and
      // logged, and the finally block empties the slot.
      slots := slots - {t};
    }
  }

  /** After a successful initializeDriver the thread's driver is the one
      just created, and isDriverInitialized holds. */
  lemma StoredDriverIsVisible(slots: map<ThreadId, Driver>, t: ThreadId, d: Driver)
    ensures t in Apply(slots, Store(t, d)) && Apply(slots, Store(t, d))[t] == d
    ensures t !in Apply(slots, Remove(t))
  {
  }
}
