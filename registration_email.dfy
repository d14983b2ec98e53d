/**
 The two services the registration check talks to besides the browser: an
 IMAP mailbox and the Galaxy user API. As with the driver, each keeps a log
 of the calls made to it and answers from `const` oracles.
 */
module RegistrationServices {
  import opened Text
  import opened Collaborators

  /** How one IMAP connection goes: the command that raises, or the messages the search finds. */
  datatype Session =
    | Unreachable             // `IMAP4_SSL(host, port)` raises
    | LoginRejected           // `login` raises
    | SelectFails             // `select` raises
    | SearchFails             // `search` raises
    | Searched(ids: seq<nat>) // the message numbers the search returns

  datatype ImapCall =
    | ConnectCall(host: string, port: string)
    | LoginCall(user: string)
    | SelectCall(mailbox: string)
    | SearchCall(criteria: string)
    | CloseCall
    | LogoutCall

  /** The first data item of a SEARCH reply: the message numbers separated by spaces. */
  function SearchResponse(ids: seq<nat>): string {
    Join(IdTexts(ids), ' ')
  }

  /** The decimal texts of the message numbers. */
  function IdTexts(ids: seq<nat>): (texts: seq<string>)
    ensures |texts| == |ids|
    ensures forall i :: 0 <= i < |ids| ==> texts[i] == NatToString(ids[i])
    decreases |ids|
  {
    if ids == [] then [] else [NatToString(ids[0])] + IdTexts(ids[1..])
  }

  /** The reply is empty exactly when no message matched. */
  lemma SearchResponseEmpty(ids: seq<nat>)
    ensures SearchResponse(ids) == [] <==> ids == []
  {
    JoinEmpty(IdTexts(ids), ' ');
  }

  /**
   A mail server. The n-th connection opened behaves as `sessions(n)`;
   `current` is the connection in use.
   */
  class Mailbox {
    const sessions: nat -> Session
    var connections: nat
    var current: Session
    var log: seq<ImapCall>

    constructor (sessions: nat -> Session)
      ensures this.sessions == sessions
      ensures connections == 0 && log == []
    {
      this.sessions := sessions;
      connections := 0;
      current := Unreachable;
      log := [];
    }

    /** `IMAP4_SSL(host, port)`: opens the next connection. */
    method Connect(host: string, port: string) returns (ok: bool)
      modifies this
      ensures current == sessions(old(connections)) && connections == old(connections) + 1
      ensures ok == !current.Unreachable?
      ensures log == old(log) + [ConnectCall(host, port)]
    {
      current := sessions(connections);
      connections := connections + 1;
      ok := !current.Unreachable?;
      log := log + [ConnectCall(host, port)];
    }

    method Login(user: string, password: string) returns (ok: bool)
      modifies this`log
      ensures ok == !(current.Unreachable? || current.LoginRejected?)
      ensures log == old(log) + [LoginCall(user)]
    {
      ok := !(current.Unreachable? || current.LoginRejected?);
      log := log + [LoginCall(user)];
    }

    method Select(mailbox: string) returns (ok: bool)
      modifies this`log
      ensures ok == (current.SearchFails? || current.Searched?)
      ensures log == old(log) + [SelectCall(mailbox)]
    {
      ok := current.SearchFails? || current.Searched?;
      log := log + [SelectCall(mailbox)];
    }

    /** `search(None, criteria)`, answering with the first data item of the reply. */
    method Search(criteria: string) returns (r: Result<string>)
      modifies this`log
      ensures r == if current.Searched? then Ok(SearchResponse(current.ids)) else Err(ImapError("search"))
      ensures log == old(log) + [SearchCall(criteria)]
    {
      r := if current.Searched? then Ok(SearchResponse(current.ids)) else Err(ImapError("search"));
      log := log + [SearchCall(criteria)];
    }

    method Close()
      modifies this`log
      ensures log == old(log) + [CloseCall]
    {
      log := log + [CloseCall];
    }

    method Logout()
      modifies this`log
      ensures log == old(log) + [LogoutCall]
    {
      log := log + [LogoutCall];
    }
  }

  datatype User = User(id: string, email: string)

  datatype ApiCall =
    | GetUsersCall(fName: string)
    | DeleteUserCall(id: string, purge: bool)

  /** A Galaxy server's user API; `users(name)` is what a lookup by name returns. */
  class GalaxyApi {
    const users: string -> seq<User>
    var log: seq<ApiCall>

    constructor (users: string -> seq<User>)
      ensures this.users == users && log == []
    {
      this.users := users;
      log := [];
    }

    /** `users.get_users(f_name=name)`. */
    method GetUsers(name: string) returns (found: seq<User>)
      modifies this
      ensures found == users(name)
      ensures log == old(log) + [GetUsersCall(name)]
    {
      found := users(name);
      log := log + [GetUsersCall(name)];
    }

    /** `users.delete_user(id, purge=purge)`. */
    method DeleteUser(id: string, purge: bool)
      modifies this
      ensures log == old(log) + [DeleteUserCall(id, purge)]
    {
      log := log + [DeleteUserCall(id, purge)];
    }
  }
}

/**
 The registration check of `registration_email_perf_timer.py`: register a
 new account through the browser, poll the mailbox for the activation email
 with a bounded, fixed-interval retry, time the polling, optionally delete
 the account again, print one metric line, and always quit the browser.
 */
module RegistrationEmail {
  import opened Options
  import opened Text
  import opened OrderedDict
  import opened Metrics
  import opened Collaborators
  import opened RegistrationServices

  /** The interval between polls when `IMAP_POLL_SECONDS` is not set. */
  const DefaultPollSeconds := 10
  /** The number of polls when `IMAP_MAX_POLL_ATTEMPTS` is not set. */
  const DefaultMaxPollAttempts := 12
  const PollSecondsVariable := "IMAP_POLL_SECONDS"
  const MaxPollAttemptsVariable := "IMAP_MAX_POLL_ATTEMPTS"
  const ActivationSubject := "Galaxy Account Activation"
  const Inbox := "inbox"
  /** The implicit wait set on the session when the verifier is created. */
  const VerifierImplicitWait := 180

  // Labels of the driver interactions before the poll.
  const LoadGalaxyLogin := "load_galaxy_login"
  const RegisterNewAccount := "register_new_account"

  /** `int(os.environ.get(key, default))`; a value `int` rejects is `None`. */
  function EnvInt(env: map<string, string>, key: string, default: int): Option<int> {
    if key in env then ParseInt(env[key]) else Some(default)
  }

  /** An unset variable gives the default; a variable holding a number gives that number. */
  lemma EnvIntReads(env: map<string, string>, key: string, default: int, n: int)
    ensures key !in env ==> EnvInt(env, key, default) == Some(default)
    ensures key in env && env[key] == IntToString(n) ==> EnvInt(env, key, default) == Some(n)
  {
    ParseIntToString(n);
  }

  /** With neither variable set, the poll waits 10 seconds between attempts and allows 12 of them. */
  lemma EnvDefaults(env: map<string, string>)
    requires PollSecondsVariable !in env && MaxPollAttemptsVariable !in env
    ensures EnvInt(env, PollSecondsVariable, DefaultPollSeconds) == Some(10)
    ensures EnvInt(env, MaxPollAttemptsVariable, DefaultMaxPollAttempts) == Some(12)
    ensures AttemptLimit(DefaultMaxPollAttempts) == 12
  {
  }

  /** The attempts `stop_after_attempt(n)` allows: it stops once the attempt number reaches `n`, so one attempt is always made. */
  function AttemptLimit(n: int): (limit: nat)
    ensures limit >= 1
    ensures n >= 1 ==> limit == n
    ensures n < 1 ==> limit == 1
  {
    if n < 1 then 1 else n
  }

  /** `bool(message_ids[0])`. */
  function Found(response: string): bool {
    response != ""
  }

  function Criteria(email: string): string {
    "TO \"" + email + "\" SUBJECT \"" + ActivationSubject + "\""
  }

  /** What one run of `verify_email_received`'s body answers on a connection that goes as `session`. */
  function ProbeOutcome(session: Session): Result<bool> {
    match session
    case Unreachable => Err(ImapError("connect"))
    case LoginRejected => Err(ImapError("login"))
    case SelectFails => Err(ImapError("select"))
    case SearchFails => Err(ImapError("search"))
    case Searched(ids) => Ok(Found(SearchResponse(ids)))
  }

  /** The IMAP calls of that run. */
  function ProbeLog(session: Session, host: string, port: string, user: string, email: string): seq<ImapCall> {
    var connect, login, select := ConnectCall(host, port), LoginCall(user), SelectCall(Inbox);
    match session
    case Unreachable => [connect]
    case LoginRejected => [connect, login]
    case SelectFails => [connect, login, select, CloseCall, LogoutCall]
    case _ => [connect, login, select, SearchCall(Criteria(email)), CloseCall, LogoutCall]
  }

  predicate LoggedIn(session: Session) {
    !session.Unreachable? && !session.LoginRejected?
  }

  /** A probe answers true exactly when the search found a message, and answers at all only when the search ran. */
  lemma ProbeFindsMail(session: Session)
    ensures ProbeOutcome(session) == Ok(true) <==> session.Searched? && session.ids != []
    ensures ProbeOutcome(session) == Ok(false) <==> session == Searched([])
    ensures ProbeOutcome(session).Ok? <==> session.Searched?
  {
    if session.Searched? {
      SearchResponseEmpty(session.ids);
    }
  }

  /** Once login succeeded the connection is closed and logged out of, last, whatever the commands did; before that it is not. */
  lemma ProbeClosesAfterLogin(session: Session, host: string, port: string, user: string, email: string)
    ensures var log := ProbeLog(session, host, port, user, email);
      && (LoggedIn(session) <==> CloseCall in log)
      && (LoggedIn(session) <==> LogoutCall in log)
      && (LoggedIn(session) ==> |log| >= 2 && log[|log| - 2] == CloseCall && log[|log| - 1] == LogoutCall)
  {
    var log := ProbeLog(session, host, port, user, email);
    match session
    case Unreachable => assert log == [ConnectCall(host, port)];
    case LoginRejected => assert log == [ConnectCall(host, port), LoginCall(user)];
    case SelectFails => assert |log| == 5 && log[3] == CloseCall && log[4] == LogoutCall;
    case _ => assert |log| == 6 && log[4] == CloseCall && log[5] == LogoutCall;
  }

  /** How a poll ends: the number of probe calls and the value returned or the exception raised. */
  datatype PollTrace = PollTrace(attempts: nat, result: Result<bool>)

  /**
   The retry policy from attempt `i` on: a truthy answer is returned, an
   exception propagates without a retry, and a falsy answer is retried
   until the limit is reached, when `retry_error_callback` returns False.
   */
  function Poll(probes: nat -> Result<bool>, i: nat, limit: nat): (t: PollTrace)
    requires i < limit
    ensures i < t.attempts <= limit
    decreases limit - i
  {
    var r := probes(i);
    if r.Err? then PollTrace(i + 1, r)
    else if r.value then PollTrace(i + 1, r)
    else if i + 1 >= limit then PollTrace(i + 1, Ok(false))
    else Poll(probes, i + 1, limit)
  }

  /** Every probe before the last answered False; the last answer is the poll's; stopping early means that answer was not False. */
  lemma {:induction false} PollShape(probes: nat -> Result<bool>, i: nat, limit: nat)
    requires i < limit
    ensures var t := Poll(probes, i, limit);
      && i < t.attempts <= limit
      && (forall j :: i <= j < t.attempts - 1 ==> probes(j) == Ok(false))
      && t.result == probes(t.attempts - 1)
      && (t.attempts < limit ==> probes(t.attempts - 1) != Ok(false))
    decreases limit - i
  {
    var r := probes(i);
    if r.Ok? && !r.value && i + 1 < limit {
      PollShape(probes, i + 1, limit);
    }
  }

  /** If attempt `k` is the first not to answer False, the poll makes exactly `k` probe calls and ends with that answer. */
  lemma PollFirstAnswer(probes: nat -> Result<bool>, limit: nat, k: nat)
    requires 1 <= k <= limit
    requires forall j :: 0 <= j < k - 1 ==> probes(j) == Ok(false)
    requires probes(k - 1) != Ok(false)
    ensures Poll(probes, 0, limit) == PollTrace(k, probes(k - 1))
  {
    PollShape(probes, 0, limit);
  }

  /** If every allowed attempt answers False, all of them are made and the poll returns False. */
  lemma PollExhausted(probes: nat -> Result<bool>, limit: nat)
    requires 1 <= limit
    requires forall j :: 0 <= j < limit ==> probes(j) == Ok(false)
    ensures Poll(probes, 0, limit) == PollTrace(limit, Ok(false))
  {
    PollShape(probes, 0, limit);
  }

  /** A False answer with attempts left is followed by the next attempt. */
  lemma PollRetries(probes: nat -> Result<bool>, i: nat, limit: nat)
    requires i + 1 < limit && probes(i) == Ok(false)
    ensures Poll(probes, i, limit) == Poll(probes, i + 1, limit)
  {
  }

  /** Any other answer, or the last attempt, ends the poll. */
  lemma PollEnds(probes: nat -> Result<bool>, i: nat, limit: nat)
    requires i < limit && !(i + 1 < limit && probes(i) == Ok(false))
    ensures Poll(probes, i, limit) == PollTrace(i + 1, probes(i))
  {
  }

  /** The calls `delete_test_account` makes when the lookup by username returns `found`. */
  function DeleteLog(username: string, email: string, found: seq<User>): seq<ApiCall> {
    [GetUsersCall(username)]
    + if found != [] && found[0].email == email then [DeleteUserCall(found[0].id, false), DeleteUserCall(found[0].id, true)]
      else []
  }

  /** `get_users(...)[0]` raises on an empty answer. */
  function DeleteOutcome(username: string, found: seq<User>): Outcome {
    if found == [] then Raised(NoMatchingUser(username)) else Normal
  }

  /** Only the first user found is ever deleted, only when its email is the configured one, and the deletion comes before the purge. */
  lemma DeletesOnlyMatchingUser(username: string, email: string, found: seq<User>)
    ensures var log := DeleteLog(username, email, found);
      && (forall i :: 0 <= i < |log| && log[i].DeleteUserCall? ==>
            found != [] && found[0].email == email && log[i].id == found[0].id && (log[i].purge <==> i == 2))
      && (found != [] && found[0].email == email ==> DeleteUserCall(found[0].id, true) in log)
      && (DeleteOutcome(username, found).Raised? ==> log == [GetUsersCall(username)])
  {
  }

  /** The `status` tag of the line. */
  function Status(verified: bool): (s: string)
    ensures s == "success" <==> verified
    ensures s == "failure" <==> !verified
  {
    if verified then "success" else "failure"
  }

  /** `email_verification,server=...,email=...,status=... result=<elapsed> <timestamp>` */
  function EmailLine(server: string, email: string, verified: bool, elapsed: int, timestamp: int): string {
    "email_verification,server=" + server + ",email=" + email + ",status=" + Status(verified)
    + " result=" + IntToString(elapsed) + " " + IntToString(timestamp)
  }

  function EmailPoint(server: string, email: string, verified: bool, elapsed: int, timestamp: int): Point {
    Point("email_verification", [("server", server), ("email", email), ("status", Status(verified))],
          "result", elapsed, timestamp)
  }

  /** The printed line is the metric line of the run's point. */
  lemma EmailLineIsPoint(server: string, email: string, verified: bool, elapsed: int, timestamp: int)
    ensures EmailLine(server, email, verified, elapsed, timestamp)
         == Render(EmailPoint(server, email, verified, elapsed, timestamp))
  {
    var p := EmailPoint(server, email, verified, elapsed, timestamp);
    var m := "email_verification";
    var a, b, c := ("server", server), ("email", email), ("status", Status(verified));
    var h1 := "email_verification,server=" + server;
    var h2 := h1 + ",email=" + email;
    var head := h2 + ",status=" + Status(verified);
    RenderText(p);
    HeadFirst(m, ",server=", "email_verification,server=", a);
    HeadNext(m, [a], ",email=", h1, b);
    assert [a] + [b] == [a, b];
    HeadNext(m, [a, b], ",status=", h2, c);
    assert [a, b] + [c] == [a, b, c];
    TailGlue(head, "result", " result=", IntToString(elapsed), IntToString(timestamp));
  }

  /** The line reads back as its server, email, status, elapsed time and timestamp; its status is `success` exactly when the email arrived. */
  lemma EmailLineParses(server: string, email: string, verified: bool, elapsed: int, timestamp: int)
    requires Plain(server) && Plain(email)
    ensures Parse(EmailLine(server, email, verified, elapsed, timestamp))
         == Some(EmailPoint(server, email, verified, elapsed, timestamp))
    ensures Parse(EmailLine(server, email, verified, elapsed, timestamp)).value.tags[2] == ("status", "success")
        <==> verified
  {
    var p := EmailPoint(server, email, verified, elapsed, timestamp);
    EmailLineIsPoint(server, email, verified, elapsed, timestamp);
    EmailPointWellFormed(server, email, verified, elapsed, timestamp);
    RenderParse(p);
    assert p.tags[2] == ("status", Status(verified));
  }

  lemma EmailPointWellFormed(server: string, email: string, verified: bool, elapsed: int, timestamp: int)
    requires Plain(server) && Plain(email)
    ensures WellFormed(EmailPoint(server, email, verified, elapsed, timestamp))
  {
    assert Plain("email_verification") && ' ' !in "result" && '=' !in "result";
    var tags := EmailPoint(server, email, verified, elapsed, timestamp).tags;
    assert TagWellFormed(tags[0]) by { KeyWellFormed("server", server); }
    assert TagWellFormed(tags[1]) by { KeyWellFormed("email", email); }
    assert TagWellFormed(tags[2]) by { KeyWellFormed("status", Status(verified)); }
    assert forall i :: 0 <= i < |tags| ==> TagWellFormed(tags[i]);
  }

  /** What the services and the clock look like at some point of a run. */
  datatype Services = Services(connections: nat, imapLog: seq<ImapCall>, timeCalls: nat, timeNsCalls: nat,
                               slept: seq<nat>, apiLog: seq<ApiCall>)

  /** `RegistrationEmailVerifier`. */
  class Verifier {
    const server: string
    const username: string
    const password: string
    const email: string
    const imapServer: string
    const imapPort: string
    const imapUsername: string
    const imapPassword: string
    const apiKey: Option<string>
    /** `int(IMAP_POLL_SECONDS)`, read when the program starts. */
    const pollSeconds: nat
    /** `int(IMAP_MAX_POLL_ATTEMPTS)`, read when the program starts. */
    const maxAttempts: int
    const driver: Driver
    const clock: Clock
    const mailbox: Mailbox
    const api: GalaxyApi
    var timings: Dict<string, Timing>

    constructor (server: string, username: string, password: string, email: string,
                 imapServer: string, imapPort: string, imapUsername: string, imapPassword: string,
                 apiKey: Option<string>, pollSeconds: nat, maxAttempts: int,
                 driver: Driver, clock: Clock, mailbox: Mailbox, api: GalaxyApi)
      modifies driver
      ensures this.server == server && this.username == username && this.password == password
      ensures this.email == email && this.imapServer == imapServer && this.imapPort == imapPort
      ensures this.imapUsername == imapUsername && this.imapPassword == imapPassword
      ensures this.apiKey == apiKey && this.pollSeconds == pollSeconds && this.maxAttempts == maxAttempts
      ensures this.driver == driver && this.clock == clock && this.mailbox == mailbox && this.api == api
      ensures timings == []
      ensures driver.implicitWait == VerifierImplicitWait
      ensures driver.log == old(driver.log) + [WaitCall(VerifierImplicitWait)]
    {
      this.server := server;
      this.username := username;
      this.password := password;
      this.email := email;
      this.imapServer := imapServer;
      this.imapPort := imapPort;
      this.imapUsername := imapUsername;
      this.imapPassword := imapPassword;
      this.apiKey := apiKey;
      this.pollSeconds := pollSeconds;
      this.maxAttempts := maxAttempts;
      this.driver := driver;
      this.clock := clock;
      this.mailbox := mailbox;
      this.api := api;
      timings := [];
      new;
      driver.ImplicitlyWait(VerifierImplicitWait);
    }

    /** The answers of the probes made once `base` connections have been opened. */
    function Probes(base: nat): nat -> Result<bool> {
      (i: nat) => ProbeOutcome(mailbox.sessions(base + i))
    }

    /** The poll `verify_email_received` makes once `base` connections have been opened. */
    function Polling(base: nat): PollTrace {
      Poll(Probes(base), 0, AttemptLimit(maxAttempts))
    }

    /** The IMAP calls of `n` probes made once `base` connections have been opened. */
    function PollLog(base: nat, n: nat): seq<ImapCall>
      decreases n
    {
      if n == 0 then []
      else PollLog(base, n - 1) + ProbeLog(mailbox.sessions(base + n - 1), imapServer, imapPort, imapUsername, email)
    }

    /** `n` fixed waits. */
    function Waits(n: nat): seq<nat>
      decreases n
    {
      if n == 0 then [] else Waits(n - 1) + [pollSeconds]
    }

    /**
     The body of `verify_email_received`: connect and log in, then select
     the inbox and search for the activation email, closing and logging out
     on every way out of those two commands.
     */
    method ProbeOnce() returns (r: Result<bool>)
      modifies mailbox
      ensures r == ProbeOutcome(mailbox.sessions(old(mailbox.connections)))
      ensures mailbox.connections == old(mailbox.connections) + 1
      ensures mailbox.log == old(mailbox.log) + ProbeLog(mailbox.sessions(old(mailbox.connections)), imapServer, imapPort, imapUsername, email)
    {
      var ok := mailbox.Connect(imapServer, imapPort);
      if !ok {
        return Err(ImapError("connect"));
      }
      ok := mailbox.Login(imapUsername, imapPassword);
      if !ok {
        return Err(ImapError("login"));
      }
      ok := mailbox.Select(Inbox);
      if ok {
        var reply := mailbox.Search(Criteria(email));
        r := if reply.Ok? then Ok(Found(reply.value)) else Err(reply.error);
      } else {
        r := Err(ImapError("select"));
      }
      mailbox.Close();
      mailbox.Logout();
    }

    /**
     `verify_email_received` under its retry policy: probe, and while the
     answer is False and attempts remain, wait `pollSeconds` and probe again.
     */
    method VerifyEmailReceived() returns (r: Result<bool>)
      modifies mailbox, clock
      ensures var t := Polling(old(mailbox.connections));
        && r == t.result
        && mailbox.connections == old(mailbox.connections) + t.attempts
        && mailbox.log == old(mailbox.log) + PollLog(old(mailbox.connections), t.attempts)
        && clock.slept == old(clock.slept) + Waits(t.attempts - 1)
      ensures clock.timeCalls == old(clock.timeCalls) && clock.timeNsCalls == old(clock.timeNsCalls)
    {
      ghost var base := mailbox.connections;
      ghost var log0, slept0, tc, tn := mailbox.log, clock.slept, clock.timeCalls, clock.timeNsCalls;
      var limit := AttemptLimit(maxAttempts);
      var attempt: nat := 1;
      var answer := ProbeOnce();
      PollBegins(base, answer, log0, slept0, tc, tn);
      while answer == Ok(false) && attempt < limit
        invariant 1 <= attempt <= limit
        invariant Polled(base, attempt, answer, log0, slept0, tc, tn)
        decreases limit - attempt
      {
        answer := WaitAndProbe(base, attempt, log0, slept0, tc, tn);
        attempt := attempt + 1;
      }
      PollDone(base, attempt, answer, log0, slept0, tc, tn);
      if answer == Ok(false) {
        r := Ok(false);  // retry_error_callback
      } else {
        r := answer;
      }
    }

    ghost predicate Polled(base: nat, attempt: nat, answer: Result<bool>, log0: seq<ImapCall>, slept0: seq<nat>, tc: nat, tn: nat)
      reads mailbox, clock
    {
      && 1 <= attempt <= AttemptLimit(maxAttempts)
      && mailbox.connections == base + attempt
      && answer == Probes(base)(attempt - 1)
      && Polling(base) == Poll(Probes(base), attempt - 1, AttemptLimit(maxAttempts))
      && mailbox.log == log0 + PollLog(base, attempt)
      && clock.slept == slept0 + Waits(attempt - 1)
      && clock.timeCalls == tc && clock.timeNsCalls == tn
    }

    /** The state after the first probe. */
    lemma PollBegins(base: nat, answer: Result<bool>, log0: seq<ImapCall>, slept0: seq<nat>, tc: nat, tn: nat)
      requires mailbox.connections == base + 1 && answer == ProbeOutcome(mailbox.sessions(base))
      requires mailbox.log == log0 + ProbeLog(mailbox.sessions(base), imapServer, imapPort, imapUsername, email)
      requires clock.slept == slept0 && clock.timeCalls == tc && clock.timeNsCalls == tn
      ensures Polled(base, 1, answer, log0, slept0, tc, tn)
    {
      ProbesAt(base, 0);
      assert PollLog(base, 1) == ProbeLog(mailbox.sessions(base), imapServer, imapPort, imapUsername, email);
    }

    /** Once the loop stops, the poll is over: `attempt` probes were made and the last answer is the poll's. */
    lemma PollDone(base: nat, attempt: nat, answer: Result<bool>, log0: seq<ImapCall>, slept0: seq<nat>, tc: nat, tn: nat)
      requires Polled(base, attempt, answer, log0, slept0, tc, tn)
      requires !(answer == Ok(false) && attempt < AttemptLimit(maxAttempts))
      ensures Polling(base) == PollTrace(attempt, answer)
    {
      PollEnds(Probes(base), attempt - 1, AttemptLimit(maxAttempts));
    }

    /** One retry: the fixed wait, then the next probe. */
    method WaitAndProbe(ghost base: nat, attempt: nat, ghost log0: seq<ImapCall>, ghost slept0: seq<nat>, ghost tc: nat, ghost tn: nat)
      returns (answer: Result<bool>)
      requires attempt < AttemptLimit(maxAttempts)
      requires Polled(base, attempt, Ok(false), log0, slept0, tc, tn)
      modifies mailbox, clock
      ensures Polled(base, attempt + 1, answer, log0, slept0, tc, tn)
    {
      PollRetries(Probes(base), attempt - 1, AttemptLimit(maxAttempts));
      clock.Sleep(pollSeconds);
      WaitsSnoc(slept0, old(clock.slept), attempt - 1);
      answer := ProbeOnce();
      PollLogSnoc(log0, old(mailbox.log), base, attempt);
      ProbesAt(base, attempt);
    }

    lemma ProbesAt(base: nat, j: nat)
      ensures Probes(base)(j) == ProbeOutcome(mailbox.sessions(base + j))
    {
    }

    lemma WaitsSnoc(slept0: seq<nat>, slept: seq<nat>, n: nat)
      requires slept == slept0 + Waits(n)
      ensures slept + [pollSeconds] == slept0 + Waits(n + 1)
    {
    }

    lemma PollLogSnoc(log0: seq<ImapCall>, log: seq<ImapCall>, base: nat, n: nat)
      requires log == log0 + PollLog(base, n)
      ensures log + ProbeLog(mailbox.sessions(base + n), imapServer, imapPort, imapUsername, email)
           == log0 + PollLog(base, n + 1)
    {
    }

    /** `delete_test_account`: look the user up by name and delete, then purge, the first one found if its email matches. */
    method DeleteTestAccount() returns (o: Outcome)
      modifies api
      ensures o == DeleteOutcome(username, api.users(username))
      ensures api.log == old(api.log) + DeleteLog(username, email, api.users(username))
    {
      var found := api.GetUsers(username);
      if found == [] {
        return Raised(NoMatchingUser(username));
      }
      var user := found[0];
      if user.email == email {
        api.DeleteUser(user.id, false);
        api.DeleteUser(user.id, true);
      }
      o := Normal;
    }

    /** `if self.api_key:` */
    predicate ApiKeySet() {
      apiKey.Some? && apiKey.value != ""
    }

    /** Both browser steps before the poll succeed. */
    predicate Registers() {
      driver.succeeds(LoadGalaxyLogin) && driver.succeeds(RegisterNewAccount)
    }

    /** The driver calls of `run_test_sequence`. */
    function SequenceDriverLog(): seq<DriverCall> {
      [ActCall(LoadGalaxyLogin, driver.succeeds(LoadGalaxyLogin))]
      + if driver.succeeds(LoadGalaxyLogin) then [ActCall(RegisterNewAccount, driver.succeeds(RegisterNewAccount))] else []
    }

    /**
     What `run_test_sequence` returns once `base` connections were opened and
     `tc` clock readings taken: the poll's answer and the time between the
     readings just before and just after the poll, or the exception of the
     first step that raised.
     */
    function SequenceResult(base: nat, tc: nat): Result<(bool, int)> {
      if !driver.succeeds(LoadGalaxyLogin) then Err(DriverError(LoadGalaxyLogin))
      else if !driver.succeeds(RegisterNewAccount) then Err(DriverError(RegisterNewAccount))
      else
        var t := Polling(base);
        if t.result.Err? then Err(t.result.error)
        else if ApiKeySet() && api.users(username) == [] then Err(NoMatchingUser(username))
        else Ok((t.result.value, clock.seconds(tc + 1) - clock.seconds(tc)))
    }

    ghost function Now(): Services
      reads mailbox, clock, api
    {
      Services(mailbox.connections, mailbox.log, clock.timeCalls, clock.timeNsCalls, clock.slept, api.log)
    }

    /** What `run_test_sequence` does to the services: nothing unless registration went through, then the poll, two clock readings around it, and the deletion if an API key is set and the poll did not raise. */
    ghost function SequenceEffect(st: Services): Services {
      if !Registers() then st
      else
        var t := Polling(st.connections);
        st.(connections := st.connections + t.attempts,
            imapLog := st.imapLog + PollLog(st.connections, t.attempts),
            timeCalls := st.timeCalls + if t.result.Ok? then 2 else 1,
            slept := st.slept + Waits(t.attempts - 1),
            apiLog := st.apiLog + if t.result.Ok? && ApiKeySet() then DeleteLog(username, email, api.users(username)) else [])
    }

    /** `run_test_sequence`. */
    method RunTestSequence() returns (r: Result<(bool, int)>)
      modifies driver, clock, mailbox, api
      ensures r == SequenceResult(old(mailbox.connections), old(clock.timeCalls))
      ensures Now() == SequenceEffect(old(Now()))
      ensures driver.log == old(driver.log) + SequenceDriverLog()
      ensures driver.implicitWait == old(driver.implicitWait)
    {
      var ok := driver.Act(LoadGalaxyLogin);
      if !ok {
        return Err(DriverError(LoadGalaxyLogin));
      }
      ok := driver.Act(RegisterNewAccount);
      if !ok {
        return Err(DriverError(RegisterNewAccount));
      }
      var start := clock.Time();
      var verified := VerifyEmailReceived();
      if verified.Err? {
        return Err(verified.error);
      }
      var finish := clock.Time();
      var elapsed := finish - start;
      if ApiKeySet() {
        var deleted := DeleteTestAccount();
        if deleted.Raised? {
          return Err(deleted.error);
        }
      }
      r := Ok((verified.value, elapsed));
    }

    /** The run and its report: the line and the blank line are printed only when the sequence returns. */
    method RunAndReport() returns (lines: seq<string>, o: Outcome)
      modifies driver, clock, mailbox, api
      ensures var r := SequenceResult(old(mailbox.connections), old(clock.timeCalls));
        && o == (if r.Ok? then Normal else Raised(r.error))
        && lines == (if r.Ok? then [EmailLine(server, email, r.value.0, r.value.1, clock.nanos(old(clock.timeNsCalls))), ""] else [])
        && var st := SequenceEffect(old(Now()));
           Now() == st.(timeNsCalls := st.timeNsCalls + (if r.Ok? then 1 else 0))
      ensures driver.log == old(driver.log) + SequenceDriverLog()
      ensures driver.implicitWait == old(driver.implicitWait)
    {
      var r := RunTestSequence();
      if r.Ok? {
        var timestamp := clock.TimeNs();
        lines := [EmailLine(server, email, r.value.0, r.value.1, timestamp), ""];
        o := Normal;
      } else {
        lines := [];
        o := Raised(r.error);
      }
    }

    lemma SequenceKeepsSession()
      ensures QuitCount(SequenceDriverLog()) == 0
    {
      var calls := SequenceDriverLog();
      assert forall i :: 0 <= i < |calls| ==> calls[i] != QuitCall;
      NoQuitCount(calls);
    }

    /**
     `time_registration_email`: run the sequence, print its line and a blank
     line, and quit the browser on every path, the raising ones included.
     */
    method TimeRegistrationEmail() returns (lines: seq<string>, o: Outcome)
      modifies this`timings, driver, clock, mailbox, api
      ensures timings == []
      ensures var r := SequenceResult(old(mailbox.connections), old(clock.timeCalls));
        && o == (if r.Ok? then Normal else Raised(r.error))
        && lines == (if r.Ok? then [EmailLine(server, email, r.value.0, r.value.1, clock.nanos(old(clock.timeNsCalls))), ""] else [])
        && var st := SequenceEffect(old(Now()));
           Now() == st.(timeNsCalls := st.timeNsCalls + (if r.Ok? then 1 else 0))
      ensures driver.log == old(driver.log) + SequenceDriverLog() + [QuitCall]
      ensures QuitCount(driver.log) == QuitCount(old(driver.log)) + 1
      ensures driver.implicitWait == old(driver.implicitWait)
    {
      timings := [];
      lines, o := RunAndReport();
      driver.Quit();
      SequenceKeepsSession();
      QuitOnce(old(driver.log), SequenceDriverLog());
    }
  }
}
