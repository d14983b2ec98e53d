# Galaxy page-performance and registration-email timers, modelled in Dafny

This project models the two Python monitoring scripts of the repository:

- `page_perf_timer.py` drives a browser through a typical Galaxy user flow. That is eleven steps: login page, home page, tool search, tool form, published histories, history import, workflow list, workflow run form, workflow run, file upload and file download.
  - Each step is wrapped by the `clock_action` decorator. It times the step and stores `{elapsed, timestamp}` under the step's name in an insertion-ordered `timings` dictionary. When the step is the configured end step, it raises `EndStepReached` after storing.
  - `measure_timings` swallows only that signal and always quits the browser.
  - `print_timings` prints one InfluxDB-style metric line per stored timing.
- `registration_email/registration_email_perf_timer.py` registers a new account through the browser. It then polls an IMAP mailbox for the activation email under a tenacity retry policy:
  - a falsy answer is retried after a fixed wait;
  - the number of attempts is bounded;
  - False is returned once the attempts are used up;
  - an exception from the mailbox propagates.
  
  It times the polling, optionally deletes the account through the Galaxy API, prints one metric line and always quits the browser.

## How the model is built

- **Collaborators are classes with a call log.** The browser driver, the clock, the IMAP server and the Galaxy user API each log the calls made to them (`collaborators.dfy`, `registration_email.dfy`).
  - Their answers come from `const` oracle functions. The driver has one success flag per interaction. The clock has one value per reading. The mailbox has one `Session` per connection, saying which command raises or which messages the search finds. The API has one user list per name.
  - One object therefore stands for every possible behaviour of the real service, and each contract holds for all of them.
- **Exceptions are values.** They are `Outcome` (`Normal | Raised(error)`) or `Result<T>` (`Ok | Err`) values.
- **Each imperative operation is a `method` proved against a pure specification function:**
  - the decorated step against `Wrap` and `ClockEffect`;
  - the eleven-step sequence against `Run`, `Replay` and `Effects`;
  - the retry loop against `Poll`;
  - the registration sequence against `SequenceResult` and `SequenceEffect`.
  
  The properties the programs promise are proved as lemmas about those functions.
- **Supporting modules:**
  - The `timings` dictionary is `OrderedDict`, a sequence of pairs with Python's insertion-order semantics.
  - Both metric-line formats are shown to be the rendering of a `Metrics.Point`, and every well-formed point is recovered from its line.
  - `Cli` models `from_env_or_required`.

Elapsed times are whole clock ticks, the difference of two oracle readings. Nothing makes the clock monotonic, so no contract depends on it.

A raising probe is not turned into a failure: `retry_if_result` retries only on a falsy result, so an exception from `IMAP4_SSL`, `login`, `select` or `search` escapes `verify_email_received`. It then escapes `run_test_sequence` and `time_registration_email`, after the browser has been quit. The model follows the code (`RegistrationEmail.Poll`, `RegistrationEmail.Verifier.VerifyEmailReceived`).

## Model

| member | source | states |
|---|---|---|
| PagePerfTimer.NamesDistinct | page_perf_timer.py:436-447 | the eleven steps `run_test_sequence` calls carry pairwise distinct `clock_action` names, so each step gets its own `timings` entry |
| PagePerfTimer.RunIdOrFresh | page_perf_timer.py:81 | a non-empty run id is kept; a missing or empty one is replaced by the freshly generated id |
| PagePerfTimer.KnownWorkflows | page_perf_timer.py:365-410 | `run_workflow` accepts exactly `Selenium_test_1` to `Selenium_test_4`, each with a 14400-second wait ceiling; any other name is rejected |
| PagePerfTimer.BodyLogKeepsSession | page_perf_timer.py:131-434 | no step body quits the browser session |
| PagePerfTimer.Wrap | page_perf_timer.py:56-70 | a raising body's exception passes through unchanged; a body that returns ends normally unless it is the end step, which raises `EndStepReached(name)` |
| PagePerfTimer.RunShape | page_perf_timer.py:56-70 | every run ends one of three ways: a normal end with every step done and recorded; the last step entered raised, with nothing recorded for it; or the end step was recorded and signalled. The steps entered are a prefix of the order, and all but the last went through |
| PagePerfTimer.RunPrefix | page_perf_timer.py:436-447 | the steps entered are a prefix of the call order, and every one before the last returned normally and was not the end step |
| PagePerfTimer.RunEndsNormally | page_perf_timer.py:436-447 | a run that ends normally entered and recorded every step |
| PagePerfTimer.RunEndsRaised | page_perf_timer.py:56-70 | a run that raises stopped at its last step entered: either that body raised and its timing is missing, or it was the end step, recorded and signalled |
| PagePerfTimer.RunRecordedPrefix | page_perf_timer.py:436-447 | the steps recorded are a prefix of the call order |
| PagePerfTimer.RunHalts | page_perf_timer.py:56-70 | if the first k+1 steps succeed and the k-th is the end step, exactly those k+1 steps run and are recorded, and the signal is `EndStepReached` |
| PagePerfTimer.RunPasses | page_perf_timer.py:436-447 | when the first k steps all go through, the run is those k steps followed by the run of the remaining steps |
| PagePerfTimer.RunCompletes | page_perf_timer.py:436-447 | with no failing step and no end step met, every step runs and is recorded and the run ends normally |
| PagePerfTimer.RunStopsBy | page_perf_timer.py:56-70 | if the k-th step's body raises, the run raises, enters at most k+1 steps and records at most k |
| PagePerfTimer.NoWorkflowNameStops | page_perf_timer.py:79-86 | with the default `workflow_name=None`, the sequence never ends normally, enters at most its first six steps and records at most five timings, because `import_published_history` cannot type a missing name |
| PagePerfTimer.RunFails | page_perf_timer.py:436-447 | if the k-th step is the first to fail and no earlier step is the end step, k+1 steps run, k are recorded and the k-th step's exception escapes |
| PagePerfTimer.RecordNext | page_perf_timer.py:63-67 | storing the k-th step's timing after those of the steps before it gives the timings of the first k+1 steps |
| PagePerfTimer.EntriesOfPrefix | page_perf_timer.py:63-67 | storing the timings of a prefix of the steps into the emptied dictionary keeps them in call order, one entry each |
| PagePerfTimer.MetricLineIsPoint | page_perf_timer.py:459-463 | the printed `user_flow_performance` line is the metric line of a point with tags server, action, run_id, end_step and workflow_name and the field time_taken |
| PagePerfTimer.MetricLineParses | page_perf_timer.py:459-463 | a line with separator-free server, run id, end step and workflow name reads back as exactly those values, the action, the elapsed time and the timestamp |
| PagePerfTimer.Timer.constructor | page_perf_timer.py:78-98 | keeps the arguments, starts with empty timings and sets the session's implicit wait to 180 |
| PagePerfTimer.Timer.RunWorkflowBody | page_perf_timer.py:365-434 | an unknown workflow raises before any browser call; otherwise the body picks inputs (variants 1, 3 and 4), starts the run, and waits for completion under the variant's implicit wait, which is restored on every path |
| PagePerfTimer.Timer.DownloadDummyFileBody | page_perf_timer.py:195-204 | opens the item, looks for the link under a 1200-second implicit wait that is restored afterwards, and fails when the MD5 digest differs from the expected one |
| PagePerfTimer.Timer.Body | page_perf_timer.py:131-434 | each undecorated step ends as `BodyOutcome` says, makes the driver calls `BodyLog` says and leaves the implicit wait as it found it |
| PagePerfTimer.Timer.TypingStepBody | page_perf_timer.py:254-362 | `import_published_history` and `load_workflow_run_form` first find and click a search box, then type the lower-cased workflow name. With no workflow name they raise right after that click, whatever the driver does; otherwise they end as the driver's oracle says |
| PagePerfTimer.Timer.ClockAction | page_perf_timer.py:56-70 | the decorated step's outcome is `Wrap` of its body's outcome; the step is entered, reads the clock before and after, and stores `(elapsed, time_ns)` under its name only when the body returned |
| PagePerfTimer.Timer.StepBookkeeping | page_perf_timer.py:56-70 | one decorated step keeps the run in step with `Run`: it goes on, or the run ends where `Run` ends |
| PagePerfTimer.Timer.ReplayInvoked | page_perf_timer.py:56-70 | running decorated steps enters each in turn and neither sleeps nor changes the implicit wait |
| PagePerfTimer.Timer.ReplayLog | page_perf_timer.py:131-434 | running decorated steps appends their bodies' driver calls in order |
| PagePerfTimer.Timer.ReplayClockPassed | page_perf_timer.py:60-66 | each step that goes through reads `time.time()` twice and `time.time_ns()` once |
| PagePerfTimer.Timer.ReplayTimingsPassed | page_perf_timer.py:60-67 | steps that all go through store their timings in turn, each spanning its own two clock readings |
| PagePerfTimer.Timer.ReplayLastFails | page_perf_timer.py:60-63 | a step whose body raises stores nothing and reads the clock once |
| PagePerfTimer.Timer.RunOutcomes | page_perf_timer.py:436-447 | either every step entered went through, or all but the last went through and the last one's body raised and was not recorded |
| PagePerfTimer.Timer.ReplayRun | page_perf_timer.py:436-447 | the state a run reaches is the effect of exactly the steps `Run` says were entered and recorded |
| PagePerfTimer.Timer.RunStep | page_perf_timer.py:436-447 | one call of the sequence either moves the run on to the next step or ends it where `Run` ends |
| PagePerfTimer.Timer.RunSignInAndToolSteps | page_perf_timer.py:437-440 | the first four calls keep the run in step with `Run` |
| PagePerfTimer.Timer.RunHistoryAndWorkflowPageSteps | page_perf_timer.py:441-444 | the next four calls keep the run in step with `Run` |
| PagePerfTimer.Timer.RunInvocationAndDatasetSteps | page_perf_timer.py:445-447 | the last three calls keep the run in step with `Run` |
| PagePerfTimer.Timer.RunTestSequence | page_perf_timer.py:436-447 | the sequence ends as `Run` of the eleven steps ends, having entered, logged and recorded exactly what `Run` says |
| PagePerfTimer.Timer.MeasureTimings | page_perf_timer.py:449-457 | the timings are exactly the recorded steps' entries, in call order. `EndStepReached` becomes a normal return and any other exception escapes. The browser is quit exactly once more, after the steps' calls, on every path. The clock is read twice per recorded step and once per unrecorded one, the nanosecond clock once per recorded step, and nothing sleeps |
| PagePerfTimer.Timer.TimingLines | page_perf_timer.py:459-463 | one line per stored timing, in insertion order |
| PagePerfTimer.Timer.PrintTimings | page_perf_timer.py:459-463 | prints the lines of the stored timings and changes nothing |
| SeleniumHelpers.CustomWait.constructor | page_perf_timer.py:28-31 | captures the implicit wait in force |
| SeleniumHelpers.CustomWait.Enter | page_perf_timer.py:33-34 | installs the new implicit wait |
| SeleniumHelpers.CustomWait.Exit | page_perf_timer.py:36-37 | puts the captured implicit wait back |
| SeleniumHelpers.FindOptional | page_perf_timer.py:100-114 | an optional lookup is made under implicit wait 0, which is restored afterwards; a missing element reads as absent |
| SeleniumHelpers.IsAbleToLogin | page_perf_timer.py:116-122 | true exactly when the login button or the "Sign in with email" link is present; the second lookup happens only if the first finds nothing |
| Cli.FromEnvOrRequired | page_perf_timer.py:466-467 | an option gets the environment value as its default exactly when that variable is set and non-empty, and is required otherwise |
| Cli.ResolveFromEnv | page_perf_timer.py:466-467 | such an option resolves to the command-line value, else the non-empty environment value, else a usage error |
| OrderedDict.PutKeys | page_perf_timer.py:63-67 | assigning a new key appends it and assigning an existing key keeps its place |
| OrderedDict.PutGet | page_perf_timer.py:63-67 | after `d[k] = v`, `d[k]` is `v` and every other key reads as before |
| OrderedDict.PutDistinct | page_perf_timer.py:63-67 | assignment never creates a duplicate key |
| OrderedDict.PutAllFresh | page_perf_timer.py:63-67 | assigning fresh, distinct keys in turn appends the entries in that order |
| Metrics.RenderText | page_perf_timer.py:462 | a line is its head, a space, `field=value`, a space and the timestamp |
| Metrics.RenderParse | page_perf_timer.py:462 | every well-formed point is recovered from its line |
| Metrics.RenderInjective | page_perf_timer.py:462 | two well-formed points with the same line are the same point |
| RegistrationServices.SearchResponseEmpty | registration_email/registration_email_perf_timer.py:171-172 | the first data item of the search reply is empty exactly when no message matched |
| RegistrationServices.Mailbox.Connect | registration_email/registration_email_perf_timer.py:162 | `IMAP4_SSL` opens the next connection, which behaves as that connection's session |
| RegistrationServices.Mailbox.Search | registration_email/registration_email_perf_timer.py:171 | the search answers with the message numbers separated by spaces, or raises |
| RegistrationServices.GalaxyApi.GetUsers | registration_email/registration_email_perf_timer.py:148 | a lookup by name returns the server's users of that name |
| RegistrationEmail.EnvIntReads | registration_email/registration_email_perf_timer.py:155-158 | an unset variable gives the default; a variable holding a number gives that number |
| RegistrationEmail.EnvDefaults | registration_email/registration_email_perf_timer.py:155-158 | with neither `IMAP_POLL_SECONDS` nor `IMAP_MAX_POLL_ATTEMPTS` set, the poll waits 10 seconds between attempts and allows 12 attempts |
| RegistrationEmail.AttemptLimit | registration_email/registration_email_perf_timer.py:156-158 | `stop_after_attempt(n)` allows n attempts, and one attempt when n < 1 |
| RegistrationEmail.ProbeFindsMail | registration_email/registration_email_perf_timer.py:162-176 | a probe answers True exactly when the search found a message, and False exactly when it found none; it answers at all only when the search ran |
| RegistrationEmail.ProbeClosesAfterLogin | registration_email/registration_email_perf_timer.py:162-176 | once login succeeded, `close` and `logout` are the last two IMAP calls on every path; before that they are not called at all |
| RegistrationEmail.Poll | registration_email/registration_email_perf_timer.py:153-160 | the retry from attempt i makes between 1 and limit-i probes |
| RegistrationEmail.PollShape | registration_email/registration_email_perf_timer.py:153-160 | every probe before the last answered False; the poll's result is the last probe's answer; stopping before the limit means that answer was not False |
| RegistrationEmail.PollFirstAnswer | registration_email/registration_email_perf_timer.py:153-160 | if attempt k is the first not to answer False, exactly k probes are made and the poll ends with that answer, True or the exception |
| RegistrationEmail.PollExhausted | registration_email/registration_email_perf_timer.py:153-160 | if every allowed attempt answers False, all of them are made and the poll returns False |
| RegistrationEmail.PollRetries | registration_email/registration_email_perf_timer.py:154 | a False answer with attempts left is followed by the next attempt |
| RegistrationEmail.PollEnds | registration_email/registration_email_perf_timer.py:153-160 | any other answer, or the last attempt, ends the poll with that answer |
| RegistrationEmail.DeletesOnlyMatchingUser | registration_email/registration_email_perf_timer.py:146-151 | only the first user found is deleted, only when its email is the configured one, plain deletion first and purge second; an empty lookup raises before any deletion |
| RegistrationEmail.Status | registration_email/registration_email_perf_timer.py:192 | the status is `success` exactly when the email was verified and `failure` otherwise |
| RegistrationEmail.EmailLineIsPoint | registration_email/registration_email_perf_timer.py:193-195 | the printed `email_verification` line is the metric line of a point with tags server, email and status and the field result |
| RegistrationEmail.EmailLineParses | registration_email/registration_email_perf_timer.py:192-195 | a line with separator-free server and email reads back as its server, email, status, elapsed time and timestamp; its status tag is `success` exactly when the email arrived |
| RegistrationEmail.Verifier.constructor | registration_email/registration_email_perf_timer.py:42-74 | keeps the arguments, starts with empty timings and sets the session's implicit wait to 180 |
| RegistrationEmail.Verifier.ProbeOnce | registration_email/registration_email_perf_timer.py:161-176 | one run of `verify_email_received`'s body makes the IMAP calls of `ProbeLog` and answers `ProbeOutcome` of the connection's session |
| RegistrationEmail.Verifier.WaitAndProbe | registration_email/registration_email_perf_timer.py:153-160 | one retry waits the fixed interval, then probes the next connection |
| RegistrationEmail.Verifier.VerifyEmailReceived | registration_email/registration_email_perf_timer.py:153-176 | the retried probe returns what `Poll` over the coming connections returns. It opens one connection per attempt, logs each attempt's IMAP calls, sleeps the fixed interval between attempts and never reads the clock |
| RegistrationEmail.Verifier.DeleteTestAccount | registration_email/registration_email_perf_timer.py:146-151 | raises on an empty lookup; otherwise it deletes and then purges the first user found, if its email matches |
| RegistrationEmail.Verifier.RunTestSequence | registration_email/registration_email_perf_timer.py:178-186 | the two browser steps, then the poll between two clock readings, then the deletion when an API key is set. It returns the poll's answer and the time between the readings, or the first exception raised |
| RegistrationEmail.Verifier.RunAndReport | registration_email/registration_email_perf_timer.py:190-196 | the line and a blank line are printed, with one `time_ns` reading, only when the sequence returns |
| RegistrationEmail.Verifier.TimeRegistrationEmail | registration_email/registration_email_perf_timer.py:188-198 | resets the timings, reports as above, and quits the browser exactly once, after the sequence's browser calls, whether the sequence returned or raised |

## Left out

- The Selenium page interactions are left out: locators, clicks, typing and `WebDriverWait.until` conditions. Each interaction is one `Act` whose success comes from the driver's oracle. Only the structure of `run_workflow`, `download_dummy_file` and `SeleniumCustomWait` is modelled call by call inside the steps. The optional lookups `find_login_button`, `find_sign_in_with_email` and `is_able_to_login` are modelled on their own, as `SeleniumHelpers.FindOptional` and `SeleniumHelpers.IsAbleToLogin`. The program uses them inside `load_galaxy_login`'s `wait.until` and in `login_to_galaxy_homepage`. In the model, those two steps are each a single `Act`, and no step body calls the lookups. `import_published_history` and `load_workflow_run_form` are one `Act` when a workflow name is set; with none, they are the `Act` of their search box followed by the failure to lower-case the missing name.
- The browser options (`SELENIUM_HEADLESS`) and the choice between Firefox and Chrome are left out. `WebDriverWait(driver, 180)` is left out because its waits belong to the oracle.
- HTTP download and MD5 hashing are left out. The digest the download step computes is a constructor parameter of the timer.
- `uuid.uuid4()` is left out: the fresh id is a parameter of `RunIdOrFresh`. The registration verifier's `run_id` is never used, so it is not modelled.
- Floating point is left out: elapsed times are integer differences of clock readings.
- tenacity internals are reduced to the policy they implement here: no `RetryError`, no statistics, and no before or after hooks.
- `RegistrationEmail.EnvInt`: the environment is read once, when the program starts. The verifier receives the two numbers as constructor parameters, and `EnvInt` is not wired into its construction.
- `RegistrationEmail.EnvInt`: accepts only an optional minus sign followed by digits. Python's `int()` also accepts surrounding whitespace, a plus sign and underscores.
- `RegistrationEmail.EnvIntReads`: states only the unset case and the canonical decimal form of a number, because `EnvInt` does not model the other spellings `int()` accepts.
- A negative poll interval is not modelled: the verifier's `pollSeconds` is a `nat`, so a negative `IMAP_POLL_SECONDS` cannot be given. In the program, `wait_fixed` passes that value to `time.sleep`, which raises `ValueError`, so the first retry would raise out of `verify_email_received`.
- `close` and `logout` are left out as points of failure. The model's `close` and `logout` always succeed, so an exception raised in the `finally` block, which would replace the body's exception, is not modelled.
- `SeleniumHelpers.FindOptional`: the lookup either finds its element or reads as absent. The program catches only `NoSuchElementException`. Any other driver error from `find_element` propagates out of `find_login_button`, `find_sign_in_with_email` and `is_able_to_login`, after the wait has been restored. The model's lookup cannot raise.
- `RegistrationServices.Mailbox.Search` either answers the message numbers or raises. imaplib's `search` reports a `NO` reply as a return value instead. The program discards that status, so `message_ids[0]` then holds the server's text and the probe answers True. That case is not modelled.
- `RegistrationEmail.ProbeClosesAfterLogin`: imaplib's state checks on `close` are not modelled, for example `close` after a failed `select`. In imaplib, `close` then raises in state AUTH, so `logout` never runs on that path. The model's `SelectFails` log still ends with `close` and `logout`.
- The Galaxy API is left out as a point of failure. `users.get_users` and `users.delete_user` are modelled as always answering. An HTTP error from bioblend is not modelled, and neither is the `GalaxyInstance` connection.
- `Collaborators.Driver.Quit` never raises. In the program, `driver.quit()` in the `finally` blocks of `measure_timings` and `time_registration_email` can raise. That would replace the run's exception, or turn a normal or end-step finish into a failure. This is not modelled.
- The model does not record the order of calls across different collaborators. Each collaborator has its own log, and the order is recorded within each log.
- `PagePerfTimer.Timer.RunTestSequence`: its eleven calls are grouped into three part methods of four, four and three calls, called in order. The poll loop's body is the method `WaitAndProbe`. Both split the proof and change nothing the caller can observe.
- `argparse`, `create_parser` and `main` are left out except for `from_env_or_required`, modelled in `Cli`. The program exit code is left out too.
- Printing is modelled as the returned list of lines.
