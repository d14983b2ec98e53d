/**
 The collaborators both programs talk to, reduced to what the timing and
 polling logic can observe: a browser driver whose operations succeed or
 fail, and a clock. Every collaborator keeps a log of the calls made to it;
 what it answers is fixed in advance by `const` oracle functions, so a
 single object stands for every possible behaviour of the real service.
 */
module Collaborators {

  /** The exceptions the programs raise or let escape. */
  datatype Error =
    | DriverError(operation: string)     // a driver call raised (element missing, wait timed out, ...)
    | UnknownWorkflow(workflowName: string)
    | NoWorkflowName(step: string)       // `self.workflow_name.lower()` with no workflow name set (an AttributeError)
    | ChecksumMismatch(digest: string)   // the downloaded file's MD5 differs from the expected one
    | EndStepReached(step: string)       // the signal that the configured end step has completed
    | ImapError(stage: string)           // the mailbox refused a connection, a login, or a command
    | NoMatchingUser(username: string)   // `get_users(...)[0]` on an empty list

  /** How a call ends when it returns nothing: normally, or by raising. */
  datatype Outcome = Normal | Raised(error: Error)

  /** How a call ends when it returns a value. */
  datatype Result<+T> = Ok(value: T) | Err(error: Error)

  /** One entry of a `timings` dictionary: elapsed clock ticks and a nanosecond timestamp. */
  datatype Timing = Timing(elapsed: int, timestamp: int)

  datatype DriverCall =
    | ActCall(operation: string, succeeded: bool)
    | WaitCall(seconds: int)                        // implicitly_wait(seconds)
    | QuitCall

  /** How many times the session was torn down. */
  function QuitCount(log: seq<DriverCall>): nat
    decreases |log|
  {
    if log == [] then 0
    else QuitCount(log[..|log| - 1]) + (if log[|log| - 1] == QuitCall then 1 else 0)
  }

  lemma {:induction false} QuitCountAppend(a: seq<DriverCall>, b: seq<DriverCall>)
    ensures QuitCount(a + b) == QuitCount(a) + QuitCount(b)
    decreases |b|
  {
    if b != [] {
      var n := |b| - 1;
      assert (a + b)[..|a + b| - 1] == a + b[..n];
      QuitCountAppend(a, b[..n]);
    } else {
      assert a + b == a;
    }
  }

  /** Quitting once after calls that never quit tears the session down exactly once more. */
  lemma QuitOnce(log: seq<DriverCall>, calls: seq<DriverCall>)
    requires QuitCount(calls) == 0
    ensures QuitCount(log + calls + [QuitCall]) == QuitCount(log) + 1
  {
    QuitCountAppend(log, calls);
    QuitCountAppend(log + calls, [QuitCall]);
  }

  /** A log without a `QuitCall` never tore the session down. */
  lemma {:induction false} NoQuitCount(log: seq<DriverCall>)
    requires forall i :: 0 <= i < |log| ==> log[i] != QuitCall
    ensures QuitCount(log) == 0
    decreases |log|
  {
    if log != [] {
      NoQuitCount(log[..|log| - 1]);
    }
  }

  /**
   A browser session. `Act` stands for any interaction (navigate, find,
   click, type, wait until a condition holds); whether it succeeds is given
   by the oracle `succeeds`, keyed by a label for the interaction.
   */
  class Driver {
    const succeeds: string -> bool
    var implicitWait: int
    var log: seq<DriverCall>

    constructor (succeeds: string -> bool)
      ensures this.succeeds == succeeds
      ensures implicitWait == 0 && log == []
    {
      this.succeeds := succeeds;
      implicitWait := 0;
      log := [];
    }

    method Act(operation: string) returns (ok: bool)
      modifies this
      ensures ok == succeeds(operation)
      ensures log == old(log) + [ActCall(operation, ok)]
      ensures implicitWait == old(implicitWait)
    {
      ok := succeeds(operation);
      log := log + [ActCall(operation, ok)];
    }

    method ImplicitlyWait(seconds: int)
      modifies this
      ensures implicitWait == seconds
      ensures log == old(log) + [WaitCall(seconds)]
    {
      implicitWait := seconds;
      log := log + [WaitCall(seconds)];
    }

    method Quit()
      modifies this
      ensures log == old(log) + [QuitCall]
      ensures implicitWait == old(implicitWait)
    {
      log := log + [QuitCall];
    }
  }

  /**
   The wall clock: `time.time()` and `time.time_ns()` return whatever the
   oracles say for the n-th reading (nothing makes them monotonic), and
   `time.sleep` is recorded.
   */
  class Clock {
    const seconds: nat -> int
    const nanos: nat -> int
    var timeCalls: nat
    var timeNsCalls: nat
    var slept: seq<nat>

    constructor (seconds: nat -> int, nanos: nat -> int)
      ensures this.seconds == seconds && this.nanos == nanos
      ensures timeCalls == 0 && timeNsCalls == 0 && slept == []
    {
      this.seconds := seconds;
      this.nanos := nanos;
      timeCalls, timeNsCalls, slept := 0, 0, [];
    }

    method Time() returns (t: int)
      modifies this
      ensures t == seconds(old(timeCalls))
      ensures timeCalls == old(timeCalls) + 1 && timeNsCalls == old(timeNsCalls) && slept == old(slept)
    {
      t := seconds(timeCalls);
      timeCalls := timeCalls + 1;
    }

    method TimeNs() returns (t: int)
      modifies this
      ensures t == nanos(old(timeNsCalls))
      ensures timeNsCalls == old(timeNsCalls) + 1 && timeCalls == old(timeCalls) && slept == old(slept)
    {
      t := nanos(timeNsCalls);
      timeNsCalls := timeNsCalls + 1;
    }

    method Sleep(s: nat)
      modifies this
      ensures slept == old(slept) + [s]
      ensures timeCalls == old(timeCalls) && timeNsCalls == old(timeNsCalls)
    {
      slept := slept + [s];
    }
  }
}

/**
 `SeleniumCustomWait` and the optional element lookups built on it; both
 programs carry identical copies of these.
 */
module SeleniumHelpers {
  import opened Collaborators

  /**
   A context manager over the driver's implicit wait: the value in force at
   construction is captured, `Enter` installs `newWait`, and `Exit` puts the
   captured value back. Callers call `Exit` on every path out of the body,
   the raising ones included, and then let the body's exception go on.
   */
  class CustomWait {
    const driver: Driver
    const originalWait: int
    const newWait: int

    constructor (driver: Driver, newWait: int)
      ensures this.driver == driver && this.newWait == newWait
      ensures originalWait == driver.implicitWait
    {
      this.driver := driver;
      originalWait := driver.implicitWait;
      this.newWait := newWait;
    }

    method Enter()
      modifies driver
      ensures driver.implicitWait == newWait
      ensures driver.log == old(driver.log) + [WaitCall(newWait)]
    {
      driver.ImplicitlyWait(newWait);
    }

    method Exit()
      modifies driver
      ensures driver.implicitWait == originalWait
      ensures driver.log == old(driver.log) + [WaitCall(originalWait)]
    {
      driver.ImplicitlyWait(originalWait);
    }
  }

  const LoginButton := "find element named 'login'"
  const SignInWithEmail := "find link 'Sign in with email'"

  /** The calls an optional lookup makes when the implicit wait was `restore`. */
  function LookupLog(driver: Driver, locator: string, restore: int): seq<DriverCall> {
    [WaitCall(0), ActCall(locator, driver.succeeds(locator)), WaitCall(restore)]
  }

  /**
   `find_login_button` / `find_sign_in_with_email`: look the element up with
   the implicit wait at 0; a missing element is caught and reads as absent.
   */
  method FindOptional(driver: Driver, locator: string) returns (found: bool)
    modifies driver
    ensures found == driver.succeeds(locator)
    ensures driver.implicitWait == old(driver.implicitWait)
    ensures driver.log == old(driver.log) + LookupLog(driver, locator, old(driver.implicitWait))
  {
    var wait := new CustomWait(driver, 0);
    wait.Enter();
    found := driver.Act(locator);
    wait.Exit();
  }

  /**
   `is_able_to_login`: true iff the login button or the "Sign in with email"
   link is present; the second lookup happens only when the first finds nothing.
   */
  method IsAbleToLogin(driver: Driver) returns (able: bool)
    modifies driver
    ensures able == (driver.succeeds(LoginButton) || driver.succeeds(SignInWithEmail))
    ensures driver.implicitWait == old(driver.implicitWait)
    ensures driver.log == old(driver.log) + LookupLog(driver, LoginButton, old(driver.implicitWait))
      + (if driver.succeeds(LoginButton) then [] else LookupLog(driver, SignInWithEmail, old(driver.implicitWait)))
  {
    able := FindOptional(driver, LoginButton);
    if !able {
      able := FindOptional(driver, SignInWithEmail);
    }
  }
}
