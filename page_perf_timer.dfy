/**
 The timed step runner of `page_perf_timer.py`: eleven named steps run in a
 fixed order against a browser session, each wrapped by `clock_action`,
 which times it, records the timing under the step's name and raises
 `EndStepReached` when that step is the configured end step;
 `measure_timings` swallows only that signal and always quits the session;
 `print_timings` writes one metric line per recorded timing.
 */
module PagePerfTimer {
  import opened Options
  import opened Text
  import opened OrderedDict
  import opened Metrics
  import opened Collaborators
  import opened SeleniumHelpers

  datatype Step =
    | LoginPageLoad | HomePageLoad | ToolSearchLoad | ToolFormLoad
    | PublishedHistoriesPageLoad | ImportPublishedHistory | WorkflowListPageLoad
    | WorkflowRunPageLoad | RunWorkflow | DummyFileUpload | DummyFileDownload

  /** The action name given to `clock_action`. */
  function Name(step: Step): string {
    match step
    case LoginPageLoad => "login_page_load"
    case HomePageLoad => "home_page_load"
    case ToolSearchLoad => "tool_search_load"
    case ToolFormLoad => "tool_form_load"
    case PublishedHistoriesPageLoad => "published_histories_page_load"
    case ImportPublishedHistory => "import_published_history"
    case WorkflowListPageLoad => "workflow_list_page_load"
    case WorkflowRunPageLoad => "workflow_run_page_load"
    case RunWorkflow => "run_workflow"
    case DummyFileUpload => "dummy_file_upload"
    case DummyFileDownload => "dummy_file_download"
  }

  /** The order in which `run_test_sequence` calls the steps. */
  const Steps: seq<Step> := [
    LoginPageLoad, HomePageLoad, ToolSearchLoad, ToolFormLoad,
    PublishedHistoriesPageLoad, ImportPublishedHistory, WorkflowListPageLoad,
    WorkflowRunPageLoad, RunWorkflow, DummyFileUpload, DummyFileDownload]

  /** The implicit wait set on the session when the timer is created. */
  const SessionImplicitWait := 180
  /** The implicit wait used while looking for the finished download link. */
  const DownloadLinkWait := 1200
  /** The MD5 digest the downloaded file must have. */
  const ExpectedDigest := "a62aaaefa04bdc7acd3b29a127bba3e6"
  /** The ceiling on waiting for a workflow invocation to finish. */
  const WorkflowWait := 14400

  lemma NamesDistinct()
    ensures forall i, j :: 0 <= i < j < |Steps| ==> Name(Steps[i]) != Name(Steps[j])
  {
  }

  /** How Python's f-strings show an optional string: `None`, or the string. */
  function ShowOption(o: Option<string>): string {
    match o
    case None => "None"
    case Some(s) => s
  }

  /** `run_id or uuid.uuid4()`: an empty or missing run id is replaced by a fresh one. */
  function RunIdOrFresh(runId: Option<string>, freshId: string): (id: string)
    ensures runId.Some? && runId.value != "" ==> id == runId.value
    ensures runId.None? || runId.value == "" ==> id == freshId
  {
    if runId.Some? && runId.value != "" then runId.value else freshId
  }

  /** A workflow variant `run_workflow` knows: whether it picks inputs first, and its wait ceiling. */
  datatype Workflow = Workflow(selectsInputs: bool, waitSeconds: int)

  /** The variants `run_workflow` dispatches on; any other name is rejected. */
  function KnownWorkflow(name: Option<string>): Option<Workflow> {
    match name
    case Some("Selenium_test_1") => Some(Workflow(true, WorkflowWait))
    case Some("Selenium_test_2") => Some(Workflow(false, WorkflowWait))
    case Some("Selenium_test_3") => Some(Workflow(true, WorkflowWait))
    case Some("Selenium_test_4") => Some(Workflow(true, WorkflowWait))
    case _ => None
  }

  lemma KnownWorkflows(name: Option<string>)
    ensures KnownWorkflow(name).Some? <==>
      name in {Some("Selenium_test_1"), Some("Selenium_test_2"), Some("Selenium_test_3"), Some("Selenium_test_4")}
    ensures KnownWorkflow(name).Some? ==> KnownWorkflow(name).value.waitSeconds == 14400
  {
  }

  // Labels of the driver interactions the two structured steps make.
  const SelectInputs := "run_workflow: pick the inputs"
  const StartInvocation := "run_workflow: click run, wait for 'Waiting to complete invocation'"
  const InvocationComplete := "run_workflow: wait for the running message to disappear"
  const OpenDownloadItem := "dummy_file_download: open the uploaded history item"
  const FindDownloadLink := "dummy_file_download: find the download link"
  const SearchHistories := "import_published_history: find and click the history search box"
  const SearchWorkflows := "workflow_run_page_load: find and click the workflow search box"

  /** The search box a step finds and clicks before typing the lower-cased workflow name into it, for the two steps that do. */
  function NameSearchBox(step: Step): Option<string> {
    match step
    case ImportPublishedHistory => Some(SearchHistories)
    case WorkflowRunPageLoad => Some(SearchWorkflows)
    case _ => None
  }

  /** How the body of `step` ends (before `clock_action` looks at it). */
  function BodyOutcome(step: Step, succeeds: string -> bool, workflowName: Option<string>,
                       digest: string): Outcome
  {
    match step
    case RunWorkflow =>
      (match KnownWorkflow(workflowName)
       case None => Raised(UnknownWorkflow(ShowOption(workflowName)))
       case Some(w) =>
         if w.selectsInputs && !succeeds(SelectInputs) then Raised(DriverError(SelectInputs))
         else if !succeeds(StartInvocation) then Raised(DriverError(StartInvocation))
         else if !succeeds(InvocationComplete) then Raised(DriverError(InvocationComplete))
         else Normal)
    case DummyFileDownload =>
      if !succeeds(OpenDownloadItem) then Raised(DriverError(OpenDownloadItem))
      else if !succeeds(FindDownloadLink) then Raised(DriverError(FindDownloadLink))
      else if digest != ExpectedDigest then Raised(ChecksumMismatch(digest))
      else Normal
    case _ => PlainOutcome(step, succeeds, workflowName)
  }

  /** How the body of a step that is one interaction ends; a step that types the missing workflow name raises once its search box is clicked. */
  function PlainOutcome(step: Step, succeeds: string -> bool, workflowName: Option<string>): Outcome {
    if NameSearchBox(step).Some? && workflowName.None? then
      var box := NameSearchBox(step).value;
      if succeeds(box) then Raised(NoWorkflowName(Name(step))) else Raised(DriverError(box))
    else if succeeds(Name(step)) then Normal else Raised(DriverError(Name(step)))
  }

  /** The driver calls the body of `step` makes when the implicit wait was `wait`. */
  function BodyLog(step: Step, succeeds: string -> bool, workflowName: Option<string>,
                   wait: int): seq<DriverCall>
  {
    match step
    case RunWorkflow =>
      (match KnownWorkflow(workflowName)
       case None => []
       case Some(w) =>
         var select := if w.selectsInputs then [ActCall(SelectInputs, succeeds(SelectInputs))] else [];
         if w.selectsInputs && !succeeds(SelectInputs) then select
         else
           select + [ActCall(StartInvocation, succeeds(StartInvocation))]
           + if !succeeds(StartInvocation) then []
             else [WaitCall(w.waitSeconds), ActCall(InvocationComplete, succeeds(InvocationComplete)), WaitCall(wait)])
    case DummyFileDownload =>
      [ActCall(OpenDownloadItem, succeeds(OpenDownloadItem))]
      + if !succeeds(OpenDownloadItem) then []
        else [WaitCall(DownloadLinkWait), ActCall(FindDownloadLink, succeeds(FindDownloadLink)), WaitCall(wait)]
    case _ => PlainLog(step, succeeds, workflowName)
  }

  /** The driver calls of a step that is one interaction: its search box only, when it types the missing workflow name. */
  function PlainLog(step: Step, succeeds: string -> bool, workflowName: Option<string>): seq<DriverCall> {
    if NameSearchBox(step).Some? && workflowName.None? then
      var box := NameSearchBox(step).value;
      [ActCall(box, succeeds(box))]
    else [ActCall(Name(step), succeeds(Name(step)))]
  }

  /** No step body tears the session down. */
  lemma BodyLogKeepsSession(step: Step, succeeds: string -> bool, workflowName: Option<string>, wait: int)
    ensures QuitCount(BodyLog(step, succeeds, workflowName, wait)) == 0
  {
    var log := BodyLog(step, succeeds, workflowName, wait);
    assert forall i :: 0 <= i < |log| ==> log[i] != QuitCall;
    NoQuitCount(log);
  }

  /** What `clock_action` makes of a body's outcome: failures pass through unchanged, the end step raises the signal. */
  function Wrap(body: Outcome, endStep: Option<string>, name: string): (o: Outcome)
    ensures body.Raised? ==> o == body
    ensures body.Normal? ==> (o.Normal? <==> endStep != Some(name))
    ensures body.Normal? && o.Raised? ==> o.error == EndStepReached(name)
  {
    if body.Raised? then body
    else if endStep == Some(name) then Raised(EndStepReached(name))
    else Normal
  }

  /**
   What running `steps` in order does: the steps whose bodies were entered,
   the steps whose timings were recorded, and how the run ended.
   */
  datatype RunTrace = RunTrace(ran: seq<Step>, recorded: seq<Step>, signal: Outcome)

  function Lift(done: seq<Step>, t: RunTrace): RunTrace {
    RunTrace(done + t.ran, done + t.recorded, t.signal)
  }

  /** The steps before the last one entered went through: they returned normally and were not the end step. */
  ghost predicate PassedThrough(ran: seq<Step>, endStep: Option<string>, body: Step -> Outcome) {
    forall i :: 0 <= i < |ran| - 1 ==> body(ran[i]) == Normal && endStep != Some(Name(ran[i]))
  }

  function Run(steps: seq<Step>, endStep: Option<string>, body: Step -> Outcome): RunTrace
    decreases |steps|
  {
    if steps == [] then RunTrace([], [], Normal)
    else
      var s := steps[0];
      var o := Wrap(body(s), endStep, Name(s));
      if o.Raised? then RunTrace([s], if body(s).Raised? then [] else [s], o)
      else Lift([s], Run(steps[1..], endStep, body))
  }

  /**
   Every run has one of three shapes: all steps went through and the run
   ended normally; the last step entered raised, and its timing is missing;
   or the last step entered was the end step, recorded, and signalled.
   Either way the steps entered are a prefix of the order and all but the
   last went through.
   */
  lemma RunShape(steps: seq<Step>, endStep: Option<string>, body: Step -> Outcome)
    ensures var t := Run(steps, endStep, body);
      && |t.ran| <= |steps| && t.ran == steps[..|t.ran|]
      && PassedThrough(t.ran, endStep, body)
      && (t.signal.Normal? ==>
            t.ran == steps && t.recorded == steps
            && forall i :: 0 <= i < |steps| ==> body(steps[i]) == Normal && endStep != Some(Name(steps[i])))
      && (t.signal.Raised? ==>
            t.ran != [] &&
            var last := t.ran[|t.ran| - 1];
            if body(last).Raised? then t.signal == body(last) && t.recorded == t.ran[..|t.ran| - 1]
            else endStep == Some(Name(last)) && t.signal == Raised(EndStepReached(Name(last))) && t.recorded == t.ran)
  {
    RunPrefix(steps, endStep, body);
    RunEndsNormally(steps, endStep, body);
    RunEndsRaised(steps, endStep, body);
  }

  /** The steps entered are a prefix of the order, and all but the last went through. */
  lemma {:induction false} RunPrefix(steps: seq<Step>, endStep: Option<string>, body: Step -> Outcome)
    ensures var t := Run(steps, endStep, body);
      |t.ran| <= |steps| && t.ran == steps[..|t.ran|] && PassedThrough(t.ran, endStep, body)
    decreases |steps|
  {
    if steps != [] {
      var s := steps[0];
      if Wrap(body(s), endStep, Name(s)).Normal? {
        var rest := steps[1..];
        RunPrefix(rest, endStep, body);
        var r := Run(rest, endStep, body);
        var t := Run(steps, endStep, body);
        assert t == Lift([s], r);
        assert t.ran == steps[..|t.ran|] by {
          assert steps == [s] + rest;
        }
        forall i | 0 <= i < |t.ran| - 1 ensures body(t.ran[i]) == Normal && endStep != Some(Name(t.ran[i])) {
          if i > 0 {
            assert t.ran[i] == r.ran[i - 1];
          }
        }
      }
    }
  }

  /** A run that ends normally entered and recorded every step, and every step went through. */
  lemma {:induction false} RunEndsNormally(steps: seq<Step>, endStep: Option<string>, body: Step -> Outcome)
    ensures var t := Run(steps, endStep, body);
      t.signal.Normal? ==>
        && t.ran == steps && t.recorded == steps
        && forall i :: 0 <= i < |steps| ==> body(steps[i]) == Normal && endStep != Some(Name(steps[i]))
    decreases |steps|
  {
    if steps != [] {
      var s := steps[0];
      if Wrap(body(s), endStep, Name(s)).Normal? {
        var rest := steps[1..];
        RunEndsNormally(rest, endStep, body);
        if Run(steps, endStep, body).signal.Normal? {
          assert steps == [s] + rest;
          forall i | 0 <= i < |steps| ensures body(steps[i]) == Normal && endStep != Some(Name(steps[i])) {
            if i > 0 {
              assert steps[i] == rest[i - 1];
            }
          }
        }
      }
    }
  }

  /** A run that raises stopped at its last step: that step's body raised and nothing of it was stored, or it was the end step, stored and signalled. */
  lemma {:induction false} RunEndsRaised(steps: seq<Step>, endStep: Option<string>, body: Step -> Outcome)
    ensures var t := Run(steps, endStep, body);
      t.signal.Raised? ==>
        t.ran != [] &&
        var last := t.ran[|t.ran| - 1];
        if body(last).Raised? then t.signal == body(last) && t.recorded == t.ran[..|t.ran| - 1]
        else endStep == Some(Name(last)) && t.signal == Raised(EndStepReached(Name(last))) && t.recorded == t.ran
    decreases |steps|
  {
    if steps != [] {
      var s := steps[0];
      if Wrap(body(s), endStep, Name(s)).Normal? {
        var rest := steps[1..];
        RunEndsRaised(rest, endStep, body);
        var r := Run(rest, endStep, body);
        var t := Run(steps, endStep, body);
        assert t == Lift([s], r);
        if t.signal.Raised? {
          assert t.ran[|t.ran| - 1] == r.ran[|r.ran| - 1];
          if body(r.ran[|r.ran| - 1]).Raised? {
            assert t.ran[..|t.ran| - 1] == [s] + r.ran[..|r.ran| - 1];
          }
        }
      }
    }
  }

  /** The steps recorded are a prefix of the order. */
  lemma RunRecordedPrefix(steps: seq<Step>, endStep: Option<string>, body: Step -> Outcome)
    ensures var t := Run(steps, endStep, body);
      |t.recorded| <= |steps| && t.recorded == steps[..|t.recorded|]
  {
    RunShape(steps, endStep, body);
    var t := Run(steps, endStep, body);
    if t.signal.Raised? && body(t.ran[|t.ran| - 1]).Raised? {
      assert t.recorded == steps[..|t.ran| - 1];
    }
  }

  /** A run over steps of which the k-th raises never ends normally, enters at most k+1 steps and records at most k. */
  lemma {:induction false} RunStopsBy(steps: seq<Step>, endStep: Option<string>, body: Step -> Outcome, k: nat)
    requires k < |steps| && body(steps[k]).Raised?
    ensures var t := Run(steps, endStep, body);
      t.signal.Raised? && |t.ran| <= k + 1 && |t.recorded| <= k
    decreases k
  {
    var s := steps[0];
    if Wrap(body(s), endStep, Name(s)).Normal? {
      assert steps[1..][k - 1] == steps[k];
      RunStopsBy(steps[1..], endStep, body, k - 1);
    }
  }

  /**
   With no workflow name, `import_published_history` raises whatever the
   driver does, so a run never ends normally, enters at most its first six
   steps and records at most the first five.
   */
  lemma NoWorkflowNameStops(endStep: Option<string>, succeeds: string -> bool, digest: string)
    ensures var t := Run(Steps, endStep, s => BodyOutcome(s, succeeds, None, digest));
      t.signal.Raised? && |t.ran| <= 6 && |t.recorded| <= 5
  {
    var body := s => BodyOutcome(s, succeeds, None, digest);
    assert Steps[5] == ImportPublishedHistory;
    RunStopsBy(Steps, endStep, body, 5);
  }

  /** If every step up to the k-th succeeds and the k-th is the end step, exactly the first k+1 steps run and are recorded. */
  lemma RunHalts(steps: seq<Step>, endStep: Option<string>, body: Step -> Outcome, k: nat)
    requires k < |steps|
    requires forall i :: 0 <= i <= k ==> body(steps[i]) == Normal
    requires endStep == Some(Name(steps[k]))
    requires forall i :: 0 <= i < k ==> Name(steps[i]) != Name(steps[k])
    ensures Run(steps, endStep, body) == RunTrace(steps[..k + 1], steps[..k + 1], Raised(EndStepReached(Name(steps[k]))))
  {
    forall i | 0 <= i < k ensures Wrap(body(steps[i]), endStep, Name(steps[i])).Normal? {
      assert body(steps[i]) == Normal && endStep != Some(Name(steps[i]));
    }
    RunPasses(steps, endStep, body, k);
    RunStops(steps, k, endStep, body);
  }

  /** When the first `k` steps all go through, the run is those steps followed by the run of the rest. */
  lemma {:induction false} RunPasses(steps: seq<Step>, endStep: Option<string>, body: Step -> Outcome, k: nat)
    requires k <= |steps|
    requires forall i :: 0 <= i < k ==> Wrap(body(steps[i]), endStep, Name(steps[i])).Normal?
    ensures Run(steps, endStep, body) == Lift(steps[..k], Run(steps[k..], endStep, body))
    decreases k
  {
    if k == 0 {
      assert steps[..0] == [] && steps[0..] == steps;
    } else {
      var before := Lift(steps[..k - 1], Run(steps[k - 1..], endStep, body));
      assert Run(steps, endStep, body) == before by {
        RunPasses(steps, endStep, body, k - 1);
      }
      assert before == Lift(steps[..k], Run(steps[k..], endStep, body)) by {
        RunGoesOn(steps, k - 1, endStep, body);
      }
    }
  }

  /** If no step fails and none is the end step, all steps run and are recorded. */
  lemma RunCompletes(steps: seq<Step>, endStep: Option<string>, body: Step -> Outcome)
    requires forall i :: 0 <= i < |steps| ==> body(steps[i]) == Normal && endStep != Some(Name(steps[i]))
    ensures Run(steps, endStep, body) == RunTrace(steps, steps, Normal)
  {
  }

  /** If the k-th step is the first to fail and no earlier step is the end step, the run stops there and records the k before it. */
  lemma RunFails(steps: seq<Step>, endStep: Option<string>, body: Step -> Outcome, k: nat)
    requires k < |steps| && body(steps[k]).Raised?
    requires forall i :: 0 <= i < k ==> body(steps[i]) == Normal && endStep != Some(Name(steps[i]))
    ensures Run(steps, endStep, body) == RunTrace(steps[..k + 1], steps[..k], body(steps[k]))
  {
    forall i | 0 <= i < k ensures Wrap(body(steps[i]), endStep, Name(steps[i])).Normal? {
      assert body(steps[i]) == Normal && endStep != Some(Name(steps[i]));
    }
    RunPasses(steps, endStep, body, k);
    RunStops(steps, k, endStep, body);
  }

  /** A step that goes through extends the prefix of steps done. */
  lemma RunGoesOn(steps: seq<Step>, k: nat, endStep: Option<string>, body: Step -> Outcome)
    requires k < |steps| && Wrap(body(steps[k]), endStep, Name(steps[k])).Normal?
    ensures Lift(steps[..k], Run(steps[k..], endStep, body)) == Lift(steps[..k + 1], Run(steps[k + 1..], endStep, body))
  {
    var u := steps[k..];
    var t := Run(steps[k + 1..], endStep, body);
    assert Run(u, endStep, body) == Lift([steps[k]], t) by {
      assert u != [] && u[0] == steps[k] && u[1..] == steps[k + 1..];
    }
    assert steps[..k + 1] == steps[..k] + [steps[k]];
    AppendAssoc(steps[..k], [steps[k]], t.ran);
    AppendAssoc(steps[..k], [steps[k]], t.recorded);
  }

  /** A step that raises ends the run: its timing is recorded only when it was the end step. */
  lemma RunStops(steps: seq<Step>, k: nat, endStep: Option<string>, body: Step -> Outcome)
    requires k < |steps| && Wrap(body(steps[k]), endStep, Name(steps[k])).Raised?
    ensures Lift(steps[..k], Run(steps[k..], endStep, body))
         == RunTrace(steps[..k + 1], if body(steps[k]).Raised? then steps[..k] else steps[..k + 1],
                     Wrap(body(steps[k]), endStep, Name(steps[k])))
  {
    assert steps[..k + 1] == steps[..k] + [steps[k]];
  }

  /** The timings a run records: the i-th step's elapsed time spans its own two clock readings. */
  function Entries(steps: seq<Step>, seconds: nat -> int, nanos: nat -> int, t0: nat, n0: nat): (d: Dict<string, Timing>)
    ensures |d| == |steps|
  {
    seq(|steps|, i requires 0 <= i < |steps| =>
      (Name(steps[i]), Timing(seconds(t0 + 2 * i + 1) - seconds(t0 + 2 * i), nanos(n0 + i))))
  }

  lemma EntriesSnoc(steps: seq<Step>, k: nat, seconds: nat -> int, nanos: nat -> int, t0: nat, n0: nat)
    requires k < |steps|
    ensures Entries(steps[..k + 1], seconds, nanos, t0, n0)
         == Entries(steps[..k], seconds, nanos, t0, n0)
            + [(Name(steps[k]), Timing(seconds(t0 + 2 * k + 1) - seconds(t0 + 2 * k), nanos(n0 + k)))]
  {
  }

  /** Storing the k-th step's timing after those of the steps before it gives the timings of the first k+1 steps. */
  lemma RecordNext(d: Dict<string, Timing>, steps: seq<Step>, k: nat, seconds: nat -> int, nanos: nat -> int,
                   t0: nat, n0: nat, tc: nat, tn: nat)
    requires k < |steps| && tc == t0 + 2 * k && tn == n0 + k
    ensures Put(PutAll(d, Entries(steps[..k], seconds, nanos, t0, n0)), Name(steps[k]),
                Timing(seconds(tc + 1) - seconds(tc), nanos(tn)))
         == PutAll(d, Entries(steps[..k + 1], seconds, nanos, t0, n0))
  {
    var e := Entries(steps[..k], seconds, nanos, t0, n0);
    var entry := (Name(steps[k]), Timing(seconds(tc + 1) - seconds(tc), nanos(tn)));
    assert Entries(steps[..k + 1], seconds, nanos, t0, n0) == e + [entry] by {
      EntriesSnoc(steps, k, seconds, nanos, t0, n0);
    }
    PutAllSnoc(d, e, entry);
  }

  /** A prefix of the step order has distinct keys, so recording its timings into an empty dictionary keeps them in order. */
  lemma EntriesOfPrefix(k: nat, seconds: nat -> int, nanos: nat -> int, t0: nat, n0: nat)
    requires k <= |Steps|
    ensures PutAll([], Entries(Steps[..k], seconds, nanos, t0, n0)) == Entries(Steps[..k], seconds, nanos, t0, n0)
  {
    var e := Entries(Steps[..k], seconds, nanos, t0, n0);
    forall i, j | 0 <= i < j < |e| ensures e[i].0 != e[j].0 {
      assert e[i].0 == Name(Steps[i]) && e[j].0 == Name(Steps[j]);
      NamesDistinct();
    }
    assert [] + e == e;
    PutAllFresh([], e);
  }

  /** `f` applied to each element of `s`, in order. */
  function MapSeq<A, B>(f: A -> B, s: seq<A>): (r: seq<B>)
    ensures |r| == |s|
    ensures forall i :: 0 <= i < |s| ==> r[i] == f(s[i])
  {
    seq(|s|, i requires 0 <= i < |s| => f(s[i]))
  }

  lemma MapSeqSnoc<A, B>(f: A -> B, s: seq<A>, i: nat)
    requires i < |s|
    ensures MapSeq(f, s[..i + 1]) == MapSeq(f, s[..i]) + [f(s[i])]
  {
    var a, b := MapSeq(f, s[..i + 1]), MapSeq(f, s[..i]) + [f(s[i])];
    forall j | 0 <= j < |a| ensures a[j] == b[j] {
      assert s[..i + 1][j] == s[j];
      if j < i {
        assert s[..i][j] == s[j];
      }
    }
  }

  /** `user_flow_performance,server=...,action=...,run_id=...,end_step=...,workflow_name=... time_taken=<elapsed> <timestamp>` */
  function MetricLine(server: string, action: string, runId: string, endStep: Option<string>,
                      workflowName: Option<string>, t: Timing): string
  {
    "user_flow_performance,server=" + server + ",action=" + action + ",run_id=" + runId
    + ",end_step=" + ShowOption(endStep) + ",workflow_name=" + ShowOption(workflowName)
    + " time_taken=" + IntToString(t.elapsed) + " " + IntToString(t.timestamp)
  }

  function UserFlowPoint(server: string, action: string, runId: string, endStep: Option<string>,
                         workflowName: Option<string>, t: Timing): Point
  {
    Point("user_flow_performance",
          [("server", server), ("action", action), ("run_id", runId),
           ("end_step", ShowOption(endStep)), ("workflow_name", ShowOption(workflowName))],
          "time_taken", t.elapsed, t.timestamp)
  }

  /** The printed line is the metric line of the timing's point. */
  lemma MetricLineIsPoint(server: string, action: string, runId: string, endStep: Option<string>,
                          workflowName: Option<string>, t: Timing)
    ensures MetricLine(server, action, runId, endStep, workflowName, t)
         == Render(UserFlowPoint(server, action, runId, endStep, workflowName, t))
  {
    var p := UserFlowPoint(server, action, runId, endStep, workflowName, t);
    var e, w := ShowOption(endStep), ShowOption(workflowName);
    var head := "user_flow_performance,server=" + server + ",action=" + action + ",run_id=" + runId
                + ",end_step=" + e + ",workflow_name=" + w;
    RenderText(p);
    UserFlowHead(server, action, runId, e, w);
    TailGlue(head, "time_taken", " time_taken=", IntToString(t.elapsed), IntToString(t.timestamp));
  }

  /** The head of a user-flow line: the measurement and its five tags, as the f-string writes them. */
  lemma UserFlowHead(server: string, action: string, runId: string, e: string, w: string)
    ensures HeadText("user_flow_performance",
                     [("server", server), ("action", action), ("run_id", runId), ("end_step", e), ("workflow_name", w)])
         == "user_flow_performance,server=" + server + ",action=" + action + ",run_id=" + runId
            + ",end_step=" + e + ",workflow_name=" + w
  {
    var m := "user_flow_performance";
    var a, b, c, d, f := ("server", server), ("action", action), ("run_id", runId), ("end_step", e), ("workflow_name", w);
    var h1 := "user_flow_performance,server=" + server;
    var h2 := h1 + ",action=" + action;
    var h3 := h2 + ",run_id=" + runId;
    var h4 := h3 + ",end_step=" + e;
    HeadFirst(m, ",server=", "user_flow_performance,server=", a);
    HeadNext(m, [a], ",action=", h1, b);
    assert [a] + [b] == [a, b];
    HeadNext(m, [a, b], ",run_id=", h2, c);
    assert [a, b] + [c] == [a, b, c];
    HeadNext(m, [a, b, c], ",end_step=", h3, d);
    assert [a, b, c] + [d] == [a, b, c, d];
    HeadNext(m, [a, b, c, d], ",workflow_name=", h4, f);
    assert [a, b, c, d] + [f] == [a, b, c, d, f];
  }

  /** Each metric line reads back as its server, action, run id, end step, workflow, elapsed time and timestamp. */
  lemma MetricLineParses(server: string, action: string, runId: string, endStep: Option<string>,
                         workflowName: Option<string>, t: Timing)
    requires Plain(server) && Plain(action) && Plain(runId)
    requires Plain(ShowOption(endStep)) && Plain(ShowOption(workflowName))
    ensures Parse(MetricLine(server, action, runId, endStep, workflowName, t))
         == Some(UserFlowPoint(server, action, runId, endStep, workflowName, t))
  {
    MetricLineIsPoint(server, action, runId, endStep, workflowName, t);
    UserFlowPointWellFormed(server, action, runId, endStep, workflowName, t);
    RenderParse(UserFlowPoint(server, action, runId, endStep, workflowName, t));
  }

  lemma UserFlowPointWellFormed(server: string, action: string, runId: string, endStep: Option<string>,
                                workflowName: Option<string>, t: Timing)
    requires Plain(server) && Plain(action) && Plain(runId)
    requires Plain(ShowOption(endStep)) && Plain(ShowOption(workflowName))
    ensures WellFormed(UserFlowPoint(server, action, runId, endStep, workflowName, t))
  {
    assert Plain("user_flow_performance") && ' ' !in "time_taken" && '=' !in "time_taken";
    var tags := UserFlowPoint(server, action, runId, endStep, workflowName, t).tags;
    assert TagWellFormed(tags[0]) by { KeyWellFormed("server", server); }
    assert TagWellFormed(tags[1]) by { KeyWellFormed("action", action); }
    assert TagWellFormed(tags[2]) by { KeyWellFormed("run_id", runId); }
    assert TagWellFormed(tags[3]) by { KeyWellFormed("end_step", ShowOption(endStep)); }
    assert TagWellFormed(tags[4]) by { KeyWellFormed("workflow_name", ShowOption(workflowName)); }
    assert forall i :: 0 <= i < |tags| ==> TagWellFormed(tags[i]);
  }

  /** The state of a timer at some point of a run, for stating what the run did since. */
  datatype Snapshot = Snapshot(invoked: seq<Step>, timings: Dict<string, Timing>, log: seq<DriverCall>,
                               timeCalls: nat, timeNsCalls: nat, slept: seq<nat>, wait: int)

  /** `PagePerfTimer`. */
  class Timer {
    const server: string
    const username: string
    const password: string
    const endStep: Option<string>
    const runId: string
    const workflowName: Option<string>
    const driver: Driver
    const clock: Clock
    /** The MD5 digest of the file the download step fetches over HTTP. */
    const downloadDigest: string
    var timings: Dict<string, Timing>
    /** The steps whose bodies have been entered, oldest first. */
    ghost var invoked: seq<Step>

    constructor (server: string, username: string, password: string, endStep: Option<string>,
                 runId: Option<string>, freshId: string, workflowName: Option<string>,
                 driver: Driver, clock: Clock, downloadDigest: string)
      modifies driver
      ensures this.server == server && this.username == username && this.password == password
      ensures this.endStep == endStep && this.runId == RunIdOrFresh(runId, freshId)
      ensures this.workflowName == workflowName && this.downloadDigest == downloadDigest
      ensures this.driver == driver && this.clock == clock
      ensures timings == [] && invoked == []
      ensures driver.implicitWait == SessionImplicitWait
      ensures driver.log == old(driver.log) + [WaitCall(SessionImplicitWait)]
    {
      this.server := server;
      this.username := username;
      this.password := password;
      this.endStep := endStep;
      this.runId := RunIdOrFresh(runId, freshId);
      this.workflowName := workflowName;
      this.driver := driver;
      this.clock := clock;
      this.downloadDigest := downloadDigest;
      timings := [];
      invoked := [];
      new;
      driver.ImplicitlyWait(SessionImplicitWait);
    }

    function StepOutcome(step: Step): Outcome {
      BodyOutcome(step, driver.succeeds, workflowName, downloadDigest)
    }

    function Outcomes(): Step -> Outcome {
      s => StepOutcome(s)
    }

    /** What the whole sequence does on this timer's driver. */
    ghost function Trace(): RunTrace {
      Run(Steps, endStep, Outcomes())
    }

    /** The driver calls of the bodies of `steps`, in order. */
    function RunLog(steps: seq<Step>, wait: int): seq<DriverCall>
      decreases |steps|
    {
      if steps == [] then []
      else RunLog(steps[..|steps| - 1], wait) + BodyLog(steps[|steps| - 1], driver.succeeds, workflowName, wait)
    }

    lemma RunLogSnoc(steps: seq<Step>, k: nat, wait: int)
      requires k < |steps|
      ensures RunLog(steps[..k + 1], wait) == RunLog(steps[..k], wait) + BodyLog(steps[k], driver.succeeds, workflowName, wait)
    {
      assert steps[..k + 1][..k] == steps[..k];
    }

    lemma {:induction false} RunLogKeepsSession(steps: seq<Step>, wait: int)
      ensures QuitCount(RunLog(steps, wait)) == 0
      decreases |steps|
    {
      if steps != [] {
        RunLogKeepsSession(steps[..|steps| - 1], wait);
        BodyLogKeepsSession(steps[|steps| - 1], driver.succeeds, workflowName, wait);
        QuitCountAppend(RunLog(steps[..|steps| - 1], wait),
                        BodyLog(steps[|steps| - 1], driver.succeeds, workflowName, wait));
      }
    }

    /** `run_workflow`'s body: reject an unknown variant before touching the page, otherwise pick inputs, start, and wait with the variant's ceiling. */
    method RunWorkflowBody() returns (o: Outcome)
      modifies driver
      ensures o == StepOutcome(RunWorkflow)
      ensures driver.log == old(driver.log) + BodyLog(RunWorkflow, driver.succeeds, workflowName, old(driver.implicitWait))
      ensures driver.implicitWait == old(driver.implicitWait)
    {
      var variant := KnownWorkflow(workflowName);
      if variant.None? {
        return Raised(UnknownWorkflow(ShowOption(workflowName)));
      }
      var w := variant.value;
      var ok;
      if w.selectsInputs {
        ok := driver.Act(SelectInputs);
        if !ok {
          return Raised(DriverError(SelectInputs));
        }
      }
      ok := driver.Act(StartInvocation);
      if !ok {
        return Raised(DriverError(StartInvocation));
      }
      var wait := new CustomWait(driver, w.waitSeconds);
      wait.Enter();
      ok := driver.Act(InvocationComplete);
      wait.Exit();
      o := if ok then Normal else Raised(DriverError(InvocationComplete));
    }

    /** `download_dummy_file`'s body: open the item, find the link with a long implicit wait, check the digest. */
    method DownloadDummyFileBody() returns (o: Outcome)
      modifies driver
      ensures o == StepOutcome(DummyFileDownload)
      ensures driver.log == old(driver.log) + BodyLog(DummyFileDownload, driver.succeeds, workflowName, old(driver.implicitWait))
      ensures driver.implicitWait == old(driver.implicitWait)
    {
      var ok := driver.Act(OpenDownloadItem);
      if !ok {
        return Raised(DriverError(OpenDownloadItem));
      }
      var wait := new CustomWait(driver, DownloadLinkWait);
      wait.Enter();
      ok := driver.Act(FindDownloadLink);
      wait.Exit();
      if !ok {
        return Raised(DriverError(FindDownloadLink));
      }
      o := if downloadDigest == ExpectedDigest then Normal else Raised(ChecksumMismatch(downloadDigest));
    }

    /** The undecorated method of `step`. */
    method Body(step: Step) returns (o: Outcome)
      modifies driver
      ensures o == StepOutcome(step)
      ensures driver.log == old(driver.log) + BodyLog(step, driver.succeeds, workflowName, old(driver.implicitWait))
      ensures driver.implicitWait == old(driver.implicitWait)
    {
      match step
      case RunWorkflow =>
        o := RunWorkflowBody();
      case DummyFileDownload =>
        o := DownloadDummyFileBody();
      case ImportPublishedHistory =>
        o := TypingStepBody(step);
      case WorkflowRunPageLoad =>
        o := TypingStepBody(step);
      case _ =>
        var ok := driver.Act(Name(step));
        o := if ok then Normal else Raised(DriverError(Name(step)));
    }

    /** A step that types the lower-cased workflow name: with no name it raises once its search box is clicked. */
    method TypingStepBody(step: Step) returns (o: Outcome)
      requires NameSearchBox(step).Some?
      modifies driver
      ensures o == StepOutcome(step)
      ensures driver.log == old(driver.log) + BodyLog(step, driver.succeeds, workflowName, old(driver.implicitWait))
      ensures driver.implicitWait == old(driver.implicitWait)
    {
      var ok;
      if workflowName.None? {
        var box := NameSearchBox(step).value;
        ok := driver.Act(box);
        o := if ok then Raised(NoWorkflowName(Name(step))) else Raised(DriverError(box));
      } else {
        ok := driver.Act(Name(step));
        o := if ok then Normal else Raised(DriverError(Name(step)));
      }
    }

    /**
     `clock_action(Name(step))` around the step's body: a timing is stored
     only when the body returns normally, a raising body's exception passes
     through unchanged, and the end step raises `EndStepReached` after its
     timing is stored.
     */
    method ClockAction(step: Step) returns (o: Outcome)
      modifies this`timings, this`invoked, driver, clock
      ensures o == Wrap(StepOutcome(step), endStep, Name(step))
      ensures Now() == ClockEffect(old(Now()), step)
    {
      invoked := invoked + [step];
      var start := clock.Time();
      o := Body(step);
      if o.Raised? {
        return;
      }
      var finish := clock.Time();
      var timestamp := clock.TimeNs();
      timings := Put(timings, Name(step), Timing(finish - start, timestamp));
      if endStep == Some(Name(step)) {
        o := Raised(EndStepReached(Name(step)));
      }
    }

    /** The parts of the timer's state a run touches. */
    ghost function Now(): Snapshot
      reads this, driver, clock
    {
      Snapshot(invoked, timings, driver.log, clock.timeCalls, clock.timeNsCalls, clock.slept, driver.implicitWait)
    }

    /** What `ClockAction(step)` does to that state. */
    ghost function ClockEffect(st: Snapshot, step: Step): Snapshot {
      var ok := StepOutcome(step).Normal?;
      st.(invoked := st.invoked + [step],
          timings := if ok then Put(st.timings, Name(step), Timing(clock.seconds(st.timeCalls + 1) - clock.seconds(st.timeCalls),
                                                                   clock.nanos(st.timeNsCalls)))
                     else st.timings,
          log := st.log + BodyLog(step, driver.succeeds, workflowName, st.wait),
          timeCalls := st.timeCalls + if ok then 2 else 1,
          timeNsCalls := st.timeNsCalls + if ok then 1 else 0)
    }

    /** The state `ClockAction` reaches from `s` by running each of `steps` in turn. */
    ghost function Replay(s: Snapshot, steps: seq<Step>): Snapshot
      decreases |steps|
    {
      if steps == [] then s
      else ClockEffect(Replay(s, steps[..|steps| - 1]), steps[|steps| - 1])
    }

    /** The first `k` steps of `order` went through from `s`, and the run goes on with the rest. */
    ghost predicate ProgressedAt(order: seq<Step>, k: nat, s: Snapshot, st: Snapshot) {
      k <= |order| && st == Replay(s, order[..k])
      && Run(order, endStep, Outcomes()) == Lift(order[..k], Run(order[k..], endStep, Outcomes()))
    }

    /** The run of `order` from `s` ended as `Run` says, having entered exactly the steps `Run` says were entered. */
    ghost predicate FinishedAt(order: seq<Step>, o: Outcome, s: Snapshot, st: Snapshot) {
      var t := Run(order, endStep, Outcomes());
      o == t.signal && st == Replay(s, t.ran)
    }

    /** A run whose every step went through has ended normally where `Run` ends. */
    lemma AllStepsDone(order: seq<Step>, k: nat, s: Snapshot, st: Snapshot)
      requires k == |order| && ProgressedAt(order, k, s, st)
      ensures FinishedAt(order, Normal, s, st)
    {
      assert order[..|order|] == order && order[|order|..] == [];
      assert Run(order, endStep, Outcomes()) == RunTrace(order, order, Normal);
    }

    /** One decorated step keeps the run in step with `Run`: it goes on, or the run ends where `Run` ends. */
    lemma StepBookkeeping(order: seq<Step>, k: nat, s: Snapshot, st: Snapshot)
      requires k < |order| && ProgressedAt(order, k, s, st)
      ensures var o := Wrap(StepOutcome(order[k]), endStep, Name(order[k]));
        var next := ClockEffect(st, order[k]);
        && (o.Normal? ==> ProgressedAt(order, k + 1, s, next))
        && (o.Raised? ==> FinishedAt(order, o, s, next))
    {
      assert order[..k + 1][..k] == order[..k];
      assert Replay(s, order[..k + 1]) == ClockEffect(st, order[k]);
      if Wrap(StepOutcome(order[k]), endStep, Name(order[k])).Normal? {
        RunGoesOn(order, k, endStep, Outcomes());
      } else {
        RunStops(order, k, endStep, Outcomes());
      }
    }

    /**
     The state a run from `s` reaches, written out: the steps entered are
     appended to `invoked` and their driver calls to the log; the steps
     recorded have their timings stored; each recorded step read the clock
     twice and the nanosecond clock once, and a step entered but not
     recorded read the clock once.
     */
    ghost function Effects(s: Snapshot, ran: seq<Step>, recorded: seq<Step>): Snapshot {
      Snapshot(s.invoked + ran,
               PutAll(s.timings, Entries(recorded, clock.seconds, clock.nanos, s.timeCalls, s.timeNsCalls)),
               s.log + RunLog(ran, s.wait),
               s.timeCalls + 2 * |recorded| + (|ran| - |recorded|), s.timeNsCalls + |recorded|, s.slept, s.wait)
    }

    /** Replaying steps enters each of them in turn and touches neither the sleeps nor the implicit wait. */
    lemma {:induction false} ReplayInvoked(s: Snapshot, steps: seq<Step>)
      ensures Replay(s, steps).invoked == s.invoked + steps
      ensures Replay(s, steps).slept == s.slept && Replay(s, steps).wait == s.wait
      decreases |steps|
    {
      if steps != [] {
        var n := |steps| - 1;
        ReplayInvoked(s, steps[..n]);
        assert s.invoked + steps[..n] + [steps[n]] == s.invoked + steps;
      }
    }

    /** Replaying steps appends their bodies' driver calls, in order. */
    lemma {:induction false} ReplayLog(s: Snapshot, steps: seq<Step>)
      ensures Replay(s, steps).log == s.log + RunLog(steps, s.wait)
      decreases |steps|
    {
      if steps != [] {
        var n := |steps| - 1;
        var st := Replay(s, steps[..n]);
        ReplayLog(s, steps[..n]);
        ReplayInvoked(s, steps[..n]);
        StepLog(steps, n, s, st);
        assert steps[..n + 1] == steps;
      }
    }

    /** Each step that goes through reads the clock twice and the nanosecond clock once. */
    lemma {:induction false} ReplayClockPassed(s: Snapshot, steps: seq<Step>)
      requires forall i :: 0 <= i < |steps| ==> StepOutcome(steps[i]).Normal?
      ensures Replay(s, steps).timeCalls == s.timeCalls + 2 * |steps|
      ensures Replay(s, steps).timeNsCalls == s.timeNsCalls + |steps|
      decreases |steps|
    {
      if steps != [] {
        var n := |steps| - 1;
        var st := Replay(s, steps[..n]);
        assert st.timeCalls == s.timeCalls + 2 * n && st.timeNsCalls == s.timeNsCalls + n by {
          forall i | 0 <= i < |steps[..n]| ensures StepOutcome(steps[..n][i]).Normal? {
            assert steps[..n][i] == steps[i];
          }
          ReplayClockPassed(s, steps[..n]);
        }
        assert StepOutcome(steps[n]).Normal?;
        assert Replay(s, steps) == ClockEffect(st, steps[n]);
      }
    }

    /** Steps that all go through store their timings in turn, each spanning its own two clock readings. */
    lemma {:induction false} ReplayTimingsPassed(s: Snapshot, steps: seq<Step>)
      requires forall i :: 0 <= i < |steps| ==> StepOutcome(steps[i]).Normal?
      ensures Replay(s, steps).timings
           == PutAll(s.timings, Entries(steps, clock.seconds, clock.nanos, s.timeCalls, s.timeNsCalls))
      decreases |steps|
    {
      if steps != [] {
        var n := |steps| - 1;
        var st := Replay(s, steps[..n]);
        forall i | 0 <= i < |steps[..n]| ensures StepOutcome(steps[..n][i]).Normal? {
          assert steps[..n][i] == steps[i];
        }
        ReplayTimingsPassed(s, steps[..n]);
        ReplayClockPassed(s, steps[..n]);
        StepTimings(steps, n, s, st);
        assert steps[..n + 1] == steps;
      }
    }

    /** A step whose body raises stores nothing and reads the clock once. */
    lemma ReplayLastFails(s: Snapshot, steps: seq<Step>)
      requires steps != [] && StepOutcome(steps[|steps| - 1]).Raised?
      requires forall i :: 0 <= i < |steps| - 1 ==> StepOutcome(steps[i]).Normal?
      ensures var n := |steps| - 1;
        && Replay(s, steps).timings
           == PutAll(s.timings, Entries(steps[..n], clock.seconds, clock.nanos, s.timeCalls, s.timeNsCalls))
        && Replay(s, steps).timeCalls == s.timeCalls + 2 * n + 1
        && Replay(s, steps).timeNsCalls == s.timeNsCalls + n
    {
      var n := |steps| - 1;
      forall i | 0 <= i < |steps[..n]| ensures StepOutcome(steps[..n][i]).Normal? {
        assert steps[..n][i] == steps[i];
      }
      ReplayTimingsPassed(s, steps[..n]);
      ReplayClockPassed(s, steps[..n]);
    }

    /**
     How the steps of a run ended: all went through and were recorded, or
     all but the last went through and the last, whose body raised, was not.
     */
    lemma RunOutcomes(order: seq<Step>)
      ensures var t := Run(order, endStep, Outcomes());
        var n := |t.ran| - 1;
        if t.signal.Raised? && t.ran != [] && StepOutcome(t.ran[n]).Raised? then
          (forall i :: 0 <= i < n ==> StepOutcome(t.ran[i]).Normal?) && t.recorded == t.ran[..n]
        else
          (forall i :: 0 <= i < |t.ran| ==> StepOutcome(t.ran[i]).Normal?) && t.recorded == t.ran
    {
      var t := Run(order, endStep, Outcomes());
      RunShape(order, endStep, Outcomes());
      forall i | 0 <= i < |t.ran| - 1 ensures StepOutcome(t.ran[i]).Normal? {
        assert Outcomes()(t.ran[i]) == StepOutcome(t.ran[i]);
      }
      if t.signal.Normal? {
        forall i | 0 <= i < |t.ran| ensures StepOutcome(t.ran[i]).Normal? {
          assert Outcomes()(order[i]) == StepOutcome(order[i]);
        }
      } else {
        var last := t.ran[|t.ran| - 1];
        assert Outcomes()(last) == StepOutcome(last);
      }
    }

    /** Where a run ends: the effects of exactly the steps `Run` says were entered and recorded. */
    lemma ReplayRun(order: seq<Step>, s: Snapshot)
      ensures var t := Run(order, endStep, Outcomes());
        Replay(s, t.ran) == Effects(s, t.ran, t.recorded)
    {
      var t := Run(order, endStep, Outcomes());
      var r, e := Replay(s, t.ran), Effects(s, t.ran, t.recorded);
      RunOutcomes(order);
      ReplayInvoked(s, t.ran);
      ReplayLog(s, t.ran);
      var n := |t.ran| - 1;
      if t.signal.Raised? && t.ran != [] && StepOutcome(t.ran[n]).Raised? {
        ReplayLastFails(s, t.ran);
      } else {
        ReplayTimingsPassed(s, t.ran);
        ReplayClockPassed(s, t.ran);
      }
      assert r.invoked == e.invoked && r.log == e.log && r.timings == e.timings;
    }

    lemma StepLog(order: seq<Step>, k: nat, s: Snapshot, st: Snapshot)
      requires k < |order| && st.log == s.log + RunLog(order[..k], s.wait) && st.wait == s.wait
      ensures ClockEffect(st, order[k]).log == s.log + RunLog(order[..k + 1], s.wait)
    {
      RunLogSnoc(order, k, s.wait);
      AppendAssoc(s.log, RunLog(order[..k], s.wait), BodyLog(order[k], driver.succeeds, workflowName, s.wait));
    }

    lemma StepTimings(order: seq<Step>, k: nat, s: Snapshot, st: Snapshot)
      requires k < |order| && StepOutcome(order[k]).Normal?
      requires st.timings == PutAll(s.timings, Entries(order[..k], clock.seconds, clock.nanos, s.timeCalls, s.timeNsCalls))
      requires st.timeCalls == s.timeCalls + 2 * k && st.timeNsCalls == s.timeNsCalls + k
      ensures ClockEffect(st, order[k]).timings
           == PutAll(s.timings, Entries(order[..k + 1], clock.seconds, clock.nanos, s.timeCalls, s.timeNsCalls))
    {
      var tc, tn := st.timeCalls, st.timeNsCalls;
      assert ClockEffect(st, order[k]).timings
          == Put(st.timings, Name(order[k]), Timing(clock.seconds(tc + 1) - clock.seconds(tc), clock.nanos(tn)));
      RecordNext(s.timings, order, k, clock.seconds, clock.nanos, s.timeCalls, s.timeNsCalls, tc, tn);
    }

    /** The k-th call of a sequence of decorated steps. */
    method RunStep(ghost order: seq<Step>, ghost k: nat, step: Step, ghost s: Snapshot) returns (o: Outcome)
      requires k < |order| && step == order[k] && ProgressedAt(order, k, s, Now())
      modifies this`timings, this`invoked, driver, clock
      ensures o.Normal? ==> ProgressedAt(order, k + 1, s, Now())
      ensures o.Raised? ==> FinishedAt(order, o, s, Now())
    {
      ghost var st := Now();
      o := ClockAction(step);
      StepBookkeeping(order, k, s, st);
    }

    /**
     `run_test_sequence`: the eleven steps in order, stopping at the first
     that raises. The eleven calls are grouped in three parts, each a method
     of its own, so that each proof only follows a few steps.
     */
    method RunTestSequence() returns (o: Outcome)
      modifies this`timings, this`invoked, driver, clock
      ensures FinishedAt(Steps, o, old(Now()), Now())
    {
      ghost var s := Now();
      assert Steps[..0] == [] && Steps[0..] == Steps;
      o := RunSignInAndToolSteps(s);
      if o.Raised? { return; }
      o := RunHistoryAndWorkflowPageSteps(s);
      if o.Raised? { return; }
      o := RunInvocationAndDatasetSteps(s);
      if o.Raised? { return; }
      AllStepsDone(Steps, |Steps|, s, Now());
    }

    /** The first four calls: the login page, the home page, the tool search and the tool form. */
    method RunSignInAndToolSteps(ghost s: Snapshot) returns (o: Outcome)
      requires ProgressedAt(Steps, 0, s, Now())
      modifies this`timings, this`invoked, driver, clock
      ensures o.Normal? ==> ProgressedAt(Steps, 4, s, Now())
      ensures o.Raised? ==> FinishedAt(Steps, o, s, Now())
    {
      ghost var order, k := Steps, 0;
      o := RunStep(order, k, LoginPageLoad, s);            if o.Raised? { return; }  // load_galaxy_login
      k := k + 1;
      o := RunStep(order, k, HomePageLoad, s);             if o.Raised? { return; }  // login_to_galaxy_homepage
      k := k + 1;
      o := RunStep(order, k, ToolSearchLoad, s);           if o.Raised? { return; }  // search_for_tool
      k := k + 1;
      o := RunStep(order, k, ToolFormLoad, s);             if o.Raised? { return; }  // load_tool_form
    }

    /** The next four calls: the published histories, the import, the workflow list and the run form. */
    method RunHistoryAndWorkflowPageSteps(ghost s: Snapshot) returns (o: Outcome)
      requires ProgressedAt(Steps, 4, s, Now())
      modifies this`timings, this`invoked, driver, clock
      ensures o.Normal? ==> ProgressedAt(Steps, 8, s, Now())
      ensures o.Raised? ==> FinishedAt(Steps, o, s, Now())
    {
      ghost var order, k := Steps, 4;
      o := RunStep(order, k, PublishedHistoriesPageLoad, s); if o.Raised? { return; }  // load_published_histories
      k := k + 1;
      o := RunStep(order, k, ImportPublishedHistory, s);   if o.Raised? { return; }  // import_published_history
      k := k + 1;
      o := RunStep(order, k, WorkflowListPageLoad, s);     if o.Raised? { return; }  // load_workflow_list
      k := k + 1;
      o := RunStep(order, k, WorkflowRunPageLoad, s);      if o.Raised? { return; }  // load_workflow_run_form
    }

    /** The last three calls: running the workflow, then uploading and downloading the dummy file. */
    method RunInvocationAndDatasetSteps(ghost s: Snapshot) returns (o: Outcome)
      requires ProgressedAt(Steps, 8, s, Now())
      modifies this`timings, this`invoked, driver, clock
      ensures o.Normal? ==> ProgressedAt(Steps, 11, s, Now())
      ensures o.Raised? ==> FinishedAt(Steps, o, s, Now())
    {
      ghost var order, k := Steps, 8;
      o := RunStep(order, k, RunWorkflow, s);              if o.Raised? { return; }  // run_workflow
      k := k + 1;
      o := RunStep(order, k, DummyFileUpload, s);          if o.Raised? { return; }  // upload_dummy_file
      k := k + 1;
      o := RunStep(order, k, DummyFileDownload, s);        if o.Raised? { return; }  // download_dummy_file
    }

    /**
     `measure_timings`: reset the timings, run the sequence, swallow only
     `EndStepReached`, and quit the session on every path.
     */
    method MeasureTimings() returns (o: Outcome)
      modifies this`timings, this`invoked, driver, clock
      ensures var t := Trace();
        && o == (if t.signal.Raised? && t.signal.error.EndStepReached? then Normal else t.signal)
        && invoked == old(invoked) + t.ran
        && timings == Entries(t.recorded, clock.seconds, clock.nanos, old(clock.timeCalls), old(clock.timeNsCalls))
        && driver.log == old(driver.log) + RunLog(t.ran, old(driver.implicitWait)) + [QuitCall]
        && QuitCount(driver.log) == QuitCount(old(driver.log)) + 1
        && driver.implicitWait == old(driver.implicitWait)
        && clock.timeCalls == old(clock.timeCalls) + 2 * |t.recorded| + (|t.ran| - |t.recorded|)
        && clock.timeNsCalls == old(clock.timeNsCalls) + |t.recorded|
        && clock.slept == old(clock.slept)
    {
      timings := [];
      ghost var s := Now();
      o := RunTestSequence();
      if o.Raised? && o.error.EndStepReached? {
        o := Normal;
      }
      ghost var t := Trace();
      ReplayRun(Steps, s);
      ghost var runLog := RunLog(t.ran, s.wait);
      assert driver.log == s.log + runLog;
      driver.Quit();
      RunRecordedPrefix(Steps, endStep, Outcomes());
      EntriesOfPrefix(|t.recorded|, clock.seconds, clock.nanos, s.timeCalls, s.timeNsCalls);
      RunLogKeepsSession(t.ran, s.wait);
      QuitOnce(s.log, runLog);
    }

    /** The lines `print_timings` writes for the entries of `d`. */
    function TimingLines(d: Dict<string, Timing>): (lines: seq<string>)
      ensures |lines| == |d|
      ensures forall i :: 0 <= i < |d| ==> lines[i] == TimingLine(d[i])
    {
      MapSeq(TimingLine, d)
    }

    /** The line of one stored timing. */
    function TimingLine(entry: (string, Timing)): string {
      MetricLine(server, entry.0, runId, endStep, workflowName, entry.1)
    }

    /** `print_timings`: one line per recorded timing, in insertion order; nothing is changed. */
    method PrintTimings() returns (lines: seq<string>)
      ensures lines == TimingLines(timings)
    {
      lines := [];
      for i := 0 to |timings|
        invariant lines == TimingLines(timings[..i])
      {
        lines := lines + [TimingLine(timings[i])];
        MapSeqSnoc(TimingLine, timings, i);
      }
      assert timings[..|timings|] == timings;
    }
  }
}
