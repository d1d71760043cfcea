/**
 * The coordinator: drives one project through planning, code generation and
 * deployment, then runs up to five test-and-fix passes, and keeps a record
 * per project (status, phase, history of test passes) that the status,
 * stop, restart, re-test and cleanup operations read and update.
 *
 * The planner and the code-writing agent are not modelled; their replies are
 * parameters. The deployer and the tester are the agents of the Deployer and
 * Tester modules, owned by the coordinator.
 */
module Coordinator {
  import opened Common
  import opened Tester
  import Deployer

  /** Test-and-fix passes a development cycle runs at most. */
  const MaxIterations: nat := 5
  /** The file the code-writing agent is asked to fix. */
  const MainFile: string := "main.py"
  /** Feedback lines are joined with a backslash followed by `n` (two characters, not a newline). */
  const FeedbackSeparator: string := "\\n"

  // ---------------------------------------------------------------------
  // The project record
  // ---------------------------------------------------------------------

  /** `current_phase`. */
  datatype Phase = Planning | PlanningComplete | DevelopmentComplete | Deployed

  /** `status` of a project record ("starting", "completed", "error", "stopped", "running"). */
  datatype ProjectStatus = Starting | Completed | Errored | Stopped | Running

  /** The `iteration` entry of a history item: a pass number, or "additional". */
  datatype IterationTag = Pass(number: nat) | Additional

  datatype HistoryItem = HistoryItem(tag: IterationTag, testResult: TestReport, timestamp: int)

  /** The `error_details` of a failed cycle: the failing phase's result, or `{}`. */
  datatype FailureDetails =
    | PlanFailure(message: string)
    | BuildFailure(message: string)
    | DeployFailure(result: Deployer.DeployResult)
    | NoDetails

  /** One entry of `active_projects`; keys the source adds later are `None` until then. */
  datatype ProjectRecord = ProjectRecord(
    command: string,
    status: ProjectStatus,
    phase: Phase,
    iteration: nat,
    startTime: int,
    endTime: Option<int>,
    planId: Option<string>,
    url: Option<string>,
    history: seq<HistoryItem>,
    error: Option<string>,
    errorDetails: Option<FailureDetails>)

  function NewRecord(command: string, startTime: int): ProjectRecord
  {
    ProjectRecord(command, Starting, Planning, 0, startTime, None, None, None, [], None, None)
  }

  // ---------------------------------------------------------------------
  // What the other agents and the clock answer
  // ---------------------------------------------------------------------

  datatype PlanReply = Planned(planId: string) | PlanRejected(message: string) | PlannerRaised(message: string)
  datatype BuildReply = Built | BuildRejected(message: string) | BuilderRaised(message: string)
  datatype FixReply = FixApplied | FixRejected(message: string)

  /** What one test-and-fix pass meets. */
  datatype PassEnv = PassEnv(
    test: TestEnv,                          // what test_project finds
    fix: FixReply,                          // the code-writing agent's answer
    restartStop: Deployer.StopBehaviour,    // the old process during the restart
    restartLaunch: Deployer.Launch,         // the restarted process
    now: int,                               // the clock when the history item is written
    restartTime: int)                       // the clock when the restarted process is recorded

  /** What a whole development cycle meets; `passes(i)` is pass i (from 1). */
  datatype CycleEnv = CycleEnv(
    stamp: string,            // the strftime stamp a default project name uses
    startTime: int,
    plan: PlanReply,
    build: BuildReply,
    deploy: Deployer.DeployEnv,
    passes: nat -> PassEnv,
    endTime: int)

  datatype FinalStatus = AllTestsPassed | MaxIterationsReached

  datatype CycleResult =
    | CycleCompleted(name: string, url: string, planId: string, iterations: nat, finalStatus: FinalStatus)
    | CycleFailed(name: string, error: string, details: FailureDetails)

  /** The answer of an operation on a named project: the project may be unknown. */
  datatype Lookup<T> = ProjectMissing(message: string) | Found(value: T)

  function MissingMessage(name: string): string
  {
    "Project " + name + " not found"
  }

  /** The answer of get_project_status for a known project. */
  datatype ProjectView = ProjectView(
    status: ProjectStatus, phase: Phase, iteration: nat,
    deployment: Deployer.ProcessStatus, startTime: int, history: seq<HistoryItem>)

  /** One element of list_active_projects. */
  datatype ProjectSummary = ProjectSummary(
    name: string, status: ProjectStatus, phase: Phase, iteration: nat,
    deployment: Deployer.ProcessStatus, url: Option<string>, startTime: int)

  datatype SystemStatus = SystemStatus(active: nat, running: nat, maxIterations: nat)

  /** A ghost trace of the fix requests a cycle made. */
  datatype FixRequest = FixRequest(pass: nat, file: string, feedback: string)

  // ---------------------------------------------------------------------
  // Specification of the development cycle
  // ---------------------------------------------------------------------

  /** The project name: the caller's, or "project_" plus the clock stamp when none is given. */
  function ChosenName(projectName: string, stamp: string): (r: string)
    ensures r != ""
    ensures projectName != "" ==> r == projectName
    ensures projectName == "" ==> |r| >= 8 && r[..8] == "project_" && r[8..] == stamp
  {
    if projectName == "" then "project_" + stamp else projectName
  }

  /**
   * The number of passes a loop runs that stops after the first pass whose
   * verdict is true, or after the last one.
   */
  function PassesRun(verdicts: seq<bool>): (n: nat)
    requires |verdicts| > 0
    ensures 1 <= n <= |verdicts|
    ensures forall i :: 0 <= i < n - 1 ==> !verdicts[i]
    ensures verdicts[n - 1] || n == |verdicts|
  {
    if verdicts[0] || |verdicts| == 1 then 1 else 1 + PassesRun(verdicts[1..])
  }

  /** Whether pass `p`'s report says all tests passed. */
  predicate PassVerdict(p: PassEnv)
  {
    OverallStatusOf(TestProjectReport(p.test)) == Some(AllPassed)
  }

  function Verdicts(passes: nat -> PassEnv): (v: seq<bool>)
    ensures |v| == MaxIterations
    ensures forall i :: 0 <= i < |v| ==> (v[i] <==> PassVerdict(passes(i + 1)))
  {
    seq(MaxIterations, i requires 0 <= i => PassVerdict(passes(i + 1)))
  }

  /** A pass asks for a fix iff its report's overall status is failed or partial pass. */
  predicate NeedsFix(report: TestReport)
  {
    OverallStatusOf(report) == Some(Failed) || OverallStatusOf(report) == Some(PartialPass)
  }

  /** A pass restarts the project iff it asked for a fix and the fix was applied. */
  predicate Restarts(p: PassEnv)
  {
    NeedsFix(TestProjectReport(p.test)) && p.fix.FixApplied?
  }

  /** The history items passes 1..n append: item i is pass i+1's, numbered i+1, in order. */
  function CycleHistory(passes: nat -> PassEnv, n: nat): (h: seq<HistoryItem>)
    ensures |h| == n
    ensures forall i :: 0 <= i < n ==>
      h[i] == HistoryItem(Pass(i + 1), TestProjectReport(passes(i + 1).test), passes(i + 1).now)
  {
    if n == 0 then []
    else CycleHistory(passes, n - 1) + [HistoryItem(Pass(n), TestProjectReport(passes(n).test), passes(n).now)]
  }

  /** The loop's exit condition pins down the number of passes run. */
  lemma PassesRunOfVerdicts(passes: nat -> PassEnv, n: nat)
    requires 1 <= n <= MaxIterations
    requires forall i :: 1 <= i < n ==> !PassVerdict(passes(i))
    requires PassVerdict(passes(n)) || n == MaxIterations
    ensures n == PassesRun(Verdicts(passes))
  {
    var v := Verdicts(passes);
    assert forall i :: 0 <= i < n - 1 ==> !v[i];
    assert v[n - 1] || n == |v|;
  }

  /** The tester's result store after one pass: the pass saved its report iff the project was tested. */
  function ResultsStep(results: map<ResultFile, TestReport>, name: string, p: PassEnv): map<ResultFile, TestReport>
  {
    Saved(results, name, p.test)
  }

  /** The tester's result store after passes 1..n. */
  function ResultsAfter(results: map<ResultFile, TestReport>, name: string, passes: nat -> PassEnv, n: nat)
    : map<ResultFile, TestReport>
  {
    if n == 0 then results else ResultsStep(ResultsAfter(results, name, passes, n - 1), name, passes(n))
  }

  /** The cycle's passes save results only under the project's own name. */
  lemma {:induction false} ResultsAfterKeepsOtherProjects(results: map<ResultFile, TestReport>, name: string, passes: nat -> PassEnv, n: nat)
    ensures forall f: ResultFile :: f.project != name ==>
      (f in ResultsAfter(results, name, passes, n) <==> f in results) &&
      (f in results ==> ResultsAfter(results, name, passes, n)[f] == results[f])
  {
    if n > 0 {
      ResultsAfterKeepsOtherProjects(results, name, passes, n - 1);
    }
  }

  /** Every pass of the cycle that tested the project left its report, under the pass's timestamp, in the store. */
  lemma {:induction false} ResultsAfterSavesEveryTestedPass(results: map<ResultFile, TestReport>, name: string, passes: nat -> PassEnv, n: nat)
    ensures forall i :: 1 <= i <= n && TestProjectReport(passes(i).test).Tested? ==>
      ResultFile(name, passes(i).test.timestamp) in ResultsAfter(results, name, passes, n)
  {
    if n > 0 {
      ResultsAfterSavesEveryTestedPass(results, name, passes, n - 1);
    }
  }

  /** The deployer's table after one pass: only a pass that restarts the project changes it. */
  function RunningStep(table: Deployer.ProcessTable, name: string, p: PassEnv): Deployer.ProcessTable
  {
    if Restarts(p) then
      Deployer.AfterStart(Deployer.AfterStop(table, name, p.restartStop), name, Deployer.ProjectPath(name), p.restartLaunch, p.restartTime)
    else table
  }

  /** The deployer's table after passes 1..n. */
  function RunningAfter(table: Deployer.ProcessTable, name: string, passes: nat -> PassEnv, n: nat): Deployer.ProcessTable
  {
    if n == 0 then table else RunningStep(RunningAfter(table, name, passes, n - 1), name, passes(n))
  }

  /** The cycle's restarts touch no other project's process entry. */
  lemma {:induction false} RunningAfterKeepsOtherProjects(table: Deployer.ProcessTable, name: string, passes: nat -> PassEnv, n: nat)
    ensures forall k :: k != name ==>
      (k in RunningAfter(table, name, passes, n) <==> k in table) &&
      (k in table ==> RunningAfter(table, name, passes, n)[k] == table[k])
  {
    if n > 0 {
      RunningAfterKeepsOtherProjects(table, name, passes, n - 1);
    }
  }

  /** Without a restart the process table is left exactly as it was. */
  lemma {:induction false} RunningAfterWithoutRestarts(table: Deployer.ProcessTable, name: string, passes: nat -> PassEnv, n: nat)
    requires forall i :: 1 <= i <= n ==> !Restarts(passes(i))
    ensures RunningAfter(table, name, passes, n) == table
  {
    if n > 0 {
      RunningAfterWithoutRestarts(table, name, passes, n - 1);
    }
  }

  /** After the last restart of the cycle, the project's entry is that restart's new process, or none. */
  lemma {:induction false} RunningAfterLastRestart(table: Deployer.ProcessTable, name: string, passes: nat -> PassEnv, n: nat, last: nat)
    requires 1 <= last <= n && Restarts(passes(last))
    requires forall i :: last < i <= n ==> !Restarts(passes(i))
    ensures passes(last).restartLaunch.StillRunning? ==>
      name in RunningAfter(table, name, passes, n) &&
      RunningAfter(table, name, passes, n)[name].pid == passes(last).restartLaunch.pid
    ensures !passes(last).restartLaunch.StillRunning? && !passes(last).restartStop.StopRaises? ==>
      name !in RunningAfter(table, name, passes, n)
  {
    if n > last {
      RunningAfterLastRestart(table, name, passes, n - 1, last);
    }
  }

  /** `"\\n".join(feedback)`: the lines with the two-character separator between them. */
  function JoinedFeedback(lines: seq<string>): (r: string)
    ensures |lines| == 0 ==> r == ""
    ensures |lines| == 1 ==> r == lines[0]
    ensures |lines| > 0 ==> lines[0] <= r
    ensures (forall i :: 0 <= i < |lines| ==> '\n' !in lines[i]) ==> '\n' !in r
  {
    if |lines| == 0 then ""
    else if |lines| == 1 then lines[0]
    else lines[0] + FeedbackSeparator + JoinedFeedback(lines[1..])
  }

  /** The deployer table after every known project has been polled once. */
  function Pruned(table: Deployer.ProcessTable, names: set<string>, alive: set<string>): (t: Deployer.ProcessTable)
    ensures forall k :: k in t <==> k in table && (k !in names || k in alive)
    ensures forall k :: k in t ==> t[k] == table[k]
  {
    map k | k in table && (k !in names || k in alive) :: table[k]
  }

  /**
   * Polling a name not polled yet reports what the untouched table would, and
   * prunes exactly that name's dead entry.
   */
  lemma PollOneMore(table: Deployer.ProcessTable, names: set<string>, pending: set<string>, alive: set<string>, k: string)
    requires k in pending && pending <= names
    ensures Deployer.PollStatus(Pruned(table, names - pending, alive), alive, k) == Deployer.PollStatus(table, alive, k)
    ensures Deployer.AfterPoll(Pruned(table, names - pending, alive), alive, k) == Pruned(table, names - (pending - {k}), alive)
  {
    assert names - (pending - {k}) == (names - pending) + {k};
  }

  function SummaryOf(name: string, rec: ProjectRecord, deployment: Deployer.ProcessStatus): ProjectSummary
  {
    ProjectSummary(name, rec.status, rec.phase, rec.iteration, deployment,
      if deployment.Running? then Some(AppUrl) else None, rec.startTime)
  }

  function SummaryNames(s: seq<ProjectSummary>): set<string>
  {
    set i | 0 <= i < |s| :: s[i].name
  }

  lemma SummaryNamesAppend(s: seq<ProjectSummary>, x: ProjectSummary)
    ensures SummaryNames(s + [x]) == SummaryNames(s) + {x.name}
  {
    var longer := s + [x];
    assert longer[|s|].name == x.name;
    forall n | n in SummaryNames(s)
      ensures n in SummaryNames(longer)
    {
      var i :| 0 <= i < |s| && s[i].name == n;
      assert longer[i].name == n;
    }
  }

  /** Moving one name out of `pending` adds it to the counted names iff it is in `sel`. */
  lemma CountStep(names: set<string>, pending: set<string>, sel: set<string>, k: string)
    requires k in pending && pending <= names
    ensures |(names - (pending - {k})) * sel| == |(names - pending) * sel| + (if k in sel then 1 else 0)
  {
    var before := (names - pending) * sel;
    if k in sel {
      assert (names - (pending - {k})) * sel == before + {k};
    } else {
      assert (names - (pending - {k})) * sel == before;
    }
  }

  class CoordinatorAgent {
    const deployer: Deployer.DeployerAgent
    const tester: TesterAgent
    /** `active_projects`. */
    var records: map<string, ProjectRecord>

    constructor ()
      ensures fresh(deployer) && fresh(tester)
      ensures records == map[] && deployer.running == map[] && tester.results == map[]
    {
      deployer := new Deployer.DeployerAgent();
      tester := new TesterAgent();
      records := map[];
    }

    /** Marks the project failed with the message and details and reports the failure. */
    method HandleError(name: string, message: string, details: FailureDetails, now: int) returns (r: CycleResult)
      requires name in records
      modifies this
      ensures r == CycleFailed(name, message, details)
      ensures records == old(records)[name := old(records)[name].(
        status := Errored, error := Some(message), errorDetails := Some(details), endTime := Some(now))]
    {
      records := records[name := records[name].(
        status := Errored, error := Some(message), errorDetails := Some(details), endTime := Some(now))];
      r := CycleFailed(name, message, details);
    }

    /**
     * One pass of the test-and-fix loop: test, record the pass in the
     * history, and unless all tests passed, fetch the feedback; a failed or
     * partial pass asks for a fix of main.py and, when the fix is applied,
     * restarts the project.
     */
    method RunPass(name: string, number: nat, p: PassEnv) returns (passed: bool, ghost fix: Option<FixRequest>)
      requires name in records
      modifies this, tester, deployer
      ensures passed <==> PassVerdict(p)
      ensures records == old(records)[name := old(records)[name].(
        history := old(records)[name].history + [HistoryItem(Pass(number), TestProjectReport(p.test), p.now)])]
      ensures tester.results == ResultsStep(old(tester.results), name, p)
      ensures deployer.running == RunningStep(old(deployer.running), name, p)
      ensures fix.Some? <==> NeedsFix(TestProjectReport(p.test))
      ensures fix.Some? ==> fix.value.pass == number && fix.value.file == MainFile
    {
      var report := tester.TestProject(name, p.test);
      records := records[name := records[name].(history := records[name].history + [HistoryItem(Pass(number), report, p.now)])];
      fix := None;
      if OverallStatusOf(report) == Some(AllPassed) {
        return true, fix;
      }
      passed := false;
      var feedback := tester.GetFeedbackForReactAgent(name);
      if OverallStatusOf(report) == Some(Failed) || OverallStatusOf(report) == Some(PartialPass) {
        fix := Some(FixRequest(number, MainFile, JoinedFeedback(feedback)));
        if p.fix.FixApplied? {
          var _ := deployer.RestartProject(name, p.restartStop, p.restartLaunch, p.restartTime);
        }
      }
    }

    /**
     * The test-and-fix loop: at most MaxIterations passes, stopping after the
     * first whose tests all passed.
     */
    method RunIterativeCycle(name: string, passes: nat -> PassEnv) returns (n: nat, allPassed: bool)
      requires name in records
      modifies this, tester, deployer
      ensures n == PassesRun(Verdicts(passes))
      ensures allPassed <==> PassVerdict(passes(n))
      ensures records == old(records)[name := old(records)[name].(history := old(records)[name].history + CycleHistory(passes, n))]
      ensures tester.results == ResultsAfter(old(tester.results), name, passes, n)
      ensures deployer.running == RunningAfter(old(deployer.running), name, passes, n)
    {
      ghost var rec := records[name];
      n := 0;
      allPassed := false;
      while n < MaxIterations && !allPassed
        invariant n <= MaxIterations
        invariant allPassed ==> 1 <= n && PassVerdict(passes(n))
        invariant forall i :: 1 <= i <= n && (i < n || !allPassed) ==> !PassVerdict(passes(i))
        invariant name in records && records == old(records)[name := records[name]]
        invariant records[name] == rec.(history := rec.history + CycleHistory(passes, n))
        invariant tester.results == ResultsAfter(old(tester.results), name, passes, n)
        invariant deployer.running == RunningAfter(old(deployer.running), name, passes, n)
      {
        n := n + 1;
        ghost var before := records[name].history;
        ghost var fix;
        allPassed, fix := RunPass(name, n, passes(n));
        assert records[name].history == before + [HistoryItem(Pass(n), TestProjectReport(passes(n).test), passes(n).now)];
        assert records[name].history == rec.history + CycleHistory(passes, n);
      }
      PassesRunOfVerdicts(passes, n);
    }

    /**
     * The development cycle: plan, build, deploy, then test and fix. A
     * failing phase ends the cycle through HandleError, leaving the record at
     * the phase reached; after a deployment the cycle always completes.
     */
    method StartDevelopmentCycle(command: string, projectName: string, env: CycleEnv) returns (r: CycleResult)
      modifies this, tester, deployer
      ensures r.name == ChosenName(projectName, env.stamp) && r.name in records
      ensures records == old(records)[r.name := records[r.name]]
      ensures r.CycleCompleted? <==> env.plan.Planned? && env.build.Built? && Deployer.Deploys(env.deploy)
      ensures env.plan.PlanRejected? ==> r == CycleFailed(r.name, "Planning failed", PlanFailure(env.plan.message))
      ensures env.plan.PlannerRaised? ==> r == CycleFailed(r.name, "Unexpected error: " + env.plan.message, NoDetails)
      ensures env.plan.Planned? && env.build.BuildRejected? ==>
        r == CycleFailed(r.name, "Development failed", BuildFailure(env.build.message))
      ensures env.plan.Planned? && env.build.BuilderRaised? ==>
        r == CycleFailed(r.name, "Unexpected error: " + env.build.message, NoDetails)
      ensures env.plan.Planned? && env.build.Built? && !Deployer.Deploys(env.deploy) ==>
        r.CycleFailed? && r.error == "Deployment failed" && r.details.DeployFailure? && r.details.result.status == Error
      ensures r.CycleCompleted? ==>
        && r.url == AppUrl && r.planId == env.plan.planId
        && r.iterations == PassesRun(Verdicts(env.passes))
        && (r.finalStatus == AllTestsPassed <==> PassVerdict(env.passes(r.iterations)))
        && records[r.name] == ProjectRecord(command, Completed, Deployed, 0, env.startTime, Some(env.endTime),
             Some(env.plan.planId), Some(AppUrl), CycleHistory(env.passes, r.iterations), None, None)
        && tester.results == ResultsAfter(old(tester.results), r.name, env.passes, r.iterations)
        && deployer.running == RunningAfter(Deployer.AfterDeploy(old(deployer.running), r.name, env.deploy), r.name, env.passes, r.iterations)
      ensures r.CycleFailed? ==>
        && records[r.name] == NewRecord(command, env.startTime).(
             status := Errored,
             phase := if !env.plan.Planned? then Planning else if !env.build.Built? then PlanningComplete else DevelopmentComplete,
             planId := if env.plan.Planned? then Some(env.plan.planId) else None,
             error := Some(r.error), errorDetails := Some(r.details), endTime := Some(env.endTime))
        && tester.results == old(tester.results)
        && deployer.running == (if env.plan.Planned? && env.build.Built?
             then Deployer.AfterDeploy(old(deployer.running), r.name, env.deploy) else old(deployer.running))
    {
      var name := ChosenName(projectName, env.stamp);
      ghost var initial := records;
      records := records[name := NewRecord(command, env.startTime)];
      ghost var started := records;
      if !env.plan.Planned? {
        var message := if env.plan.PlannerRaised? then "Unexpected error: " + env.plan.message else "Planning failed";
        var details := if env.plan.PlannerRaised? then NoDetails else PlanFailure(env.plan.message);
        r := HandleError(name, message, details, env.endTime);
        UpdateTwice(initial, name, started[name], records[name]);
        return;
      }
      var planId := env.plan.planId;
      records := records[name := records[name].(phase := PlanningComplete, planId := Some(planId))];
      UpdateTwice(initial, name, started[name], records[name]);
      ghost var planned := records;
      if !env.build.Built? {
        var message := if env.build.BuilderRaised? then "Unexpected error: " + env.build.message else "Development failed";
        var details := if env.build.BuilderRaised? then NoDetails else BuildFailure(env.build.message);
        r := HandleError(name, message, details, env.endTime);
        UpdateTwice(initial, name, planned[name], records[name]);
        return;
      }
      records := records[name := records[name].(phase := DevelopmentComplete)];
      UpdateTwice(initial, name, planned[name], records[name]);
      ghost var built := records;
      r := DeployAndIterate(name, planId, env);
      UpdateTwice(initial, name, built[name], records[name]);
    }

    /**
     * The cycle from the deployment on: a failed deployment ends it through
     * HandleError; otherwise the test-and-fix loop runs and the project is
     * marked completed.
     */
    method DeployAndIterate(name: string, planId: string, env: CycleEnv) returns (r: CycleResult)
      requires name in records
      modifies this, tester, deployer
      ensures r.name == name
      ensures r.CycleCompleted? <==> Deployer.Deploys(env.deploy)
      ensures !Deployer.Deploys(env.deploy) ==>
        && r.CycleFailed? && r.error == "Deployment failed" && r.details.DeployFailure? && r.details.result.status == Error
        && records == old(records)[name := old(records)[name].(
             status := Errored, error := Some(r.error), errorDetails := Some(r.details), endTime := Some(env.endTime))]
        && tester.results == old(tester.results)
        && deployer.running == Deployer.AfterDeploy(old(deployer.running), name, env.deploy)
      ensures r.CycleCompleted? ==>
        && r.url == AppUrl && r.planId == planId
        && r.iterations == PassesRun(Verdicts(env.passes))
        && (r.finalStatus == AllTestsPassed <==> PassVerdict(env.passes(r.iterations)))
        && records == old(records)[name := old(records)[name].(
             status := Completed, phase := Deployed, url := Some(AppUrl), endTime := Some(env.endTime),
             history := old(records)[name].history + CycleHistory(env.passes, r.iterations))]
        && tester.results == ResultsAfter(old(tester.results), name, env.passes, r.iterations)
        && deployer.running == RunningAfter(Deployer.AfterDeploy(old(deployer.running), name, env.deploy), name, env.passes, r.iterations)
    {
      var deployed := deployer.DeployProject(name, env.deploy);
      if deployed.status != Success {
        r := HandleError(name, "Deployment failed", DeployFailure(deployed), env.endTime);
        return;
      }
      ghost var before := records;
      records := records[name := records[name].(phase := Deployed, url := deployed.url)];
      ghost var deployedRecords := records;
      var n, allPassed := RunIterativeCycle(name, env.passes);
      ghost var testedRecords := records;
      records := records[name := records[name].(status := Completed, endTime := Some(env.endTime))];
      UpdateTwice(before, name, deployedRecords[name], testedRecords[name]);
      UpdateTwice(before, name, testedRecords[name], records[name]);
      r := CycleCompleted(name, AppUrl, planId, n, if allPassed then AllTestsPassed else MaxIterationsReached);
    }

    /** A known project's record together with its process status (a dead process is forgotten). */
    method GetProjectStatus(name: string, alive: set<string>) returns (r: Lookup<ProjectView>)
      modifies deployer
      ensures name !in records ==> r == ProjectMissing(MissingMessage(name)) && deployer.running == old(deployer.running)
      ensures name in records ==>
        && r == Found(ProjectView(records[name].status, records[name].phase, records[name].iteration,
             Deployer.PollStatus(old(deployer.running), alive, name), records[name].startTime, records[name].history))
        && deployer.running == Deployer.AfterPoll(old(deployer.running), alive, name)
    {
      if name !in records {
        return ProjectMissing(MissingMessage(name));
      }
      var rec := records[name];
      var deployment := deployer.GetProjectStatus(name, alive);
      r := Found(ProjectView(rec.status, rec.phase, rec.iteration, deployment, rec.startTime, rec.history));
    }

    /** One summary per known project, with its process status polled once. */
    method ListActiveProjects(alive: set<string>) returns (r: seq<ProjectSummary>)
      modifies deployer
      ensures deployer.running == Pruned(old(deployer.running), records.Keys, alive)
      ensures SummaryNames(r) == records.Keys
      ensures forall i, j :: 0 <= i < j < |r| ==> r[i].name != r[j].name
      ensures forall i :: 0 <= i < |r| ==>
        r[i].name in records && r[i] == SummaryOf(r[i].name, records[r[i].name], Deployer.PollStatus(old(deployer.running), alive, r[i].name))
    {
      ghost var table := deployer.running;
      var pending := records.Keys;
      r := [];
      while pending != {}
        invariant pending <= records.Keys
        invariant deployer.running == Pruned(table, records.Keys - pending, alive)
        invariant SummaryNames(r) == records.Keys - pending
        invariant forall i, j :: 0 <= i < j < |r| ==> r[i].name != r[j].name
        invariant forall i :: 0 <= i < |r| ==>
          r[i].name in records && r[i] == SummaryOf(r[i].name, records[r[i].name], Deployer.PollStatus(table, alive, r[i].name))
        decreases pending
      {
        var k :| k in pending;
        PollOneMore(table, records.Keys, pending, alive, k);
        var deployment := deployer.GetProjectStatus(k, alive);
        SummaryNamesAppend(r, SummaryOf(k, records[k], deployment));
        r := r + [SummaryOf(k, records[k], deployment)];
        pending := pending - {k};
      }
    }

    /** Stops a known project's process and marks it stopped, whatever the deployer answered. */
    method StopProject(name: string, b: Deployer.StopBehaviour, now: int) returns (r: Lookup<Deployer.StopResult>)
      modifies this, deployer
      ensures name !in old(records) ==>
        r == ProjectMissing(MissingMessage(name)) && records == old(records) && deployer.running == old(deployer.running)
      ensures name in old(records) ==>
        && r.Found?
        && deployer.running == Deployer.AfterStop(old(deployer.running), name, b)
        && records == old(records)[name := old(records)[name].(status := Stopped, endTime := Some(now))]
    {
      if name !in records {
        return ProjectMissing(MissingMessage(name));
      }
      var stopped := deployer.StopProject(name, b);
      records := records[name := records[name].(status := Stopped, endTime := Some(now))];
      r := Found(stopped);
    }

    /** Restarts a known project; only a successful restart marks it running and deployed. */
    method RestartProject(name: string, b: Deployer.StopBehaviour, launch: Deployer.Launch, now: int)
      returns (r: Lookup<Deployer.RestartResult>)
      modifies this, deployer
      ensures name !in old(records) ==>
        r == ProjectMissing(MissingMessage(name)) && records == old(records) && deployer.running == old(deployer.running)
      ensures name in old(records) ==>
        && r.Found?
        && (r.value.status == Success <==> launch.StillRunning?)
        && deployer.running == Deployer.AfterStart(Deployer.AfterStop(old(deployer.running), name, b), name, Deployer.ProjectPath(name), launch, now)
        && records == if launch.StillRunning? then old(records)[name := old(records)[name].(status := Running, phase := Deployed)] else old(records)
    {
      if name !in records {
        return ProjectMissing(MissingMessage(name));
      }
      var restarted := deployer.RestartProject(name, b, launch, now);
      if restarted.status == Success {
        records := records[name := records[name].(status := Running, phase := Deployed)];
      }
      r := Found(restarted);
    }

    /** Tests a known project once more and records the pass as "additional". */
    method RunAdditionalTests(name: string, env: TestEnv, now: int) returns (r: Lookup<TestReport>)
      modifies this, tester
      ensures name !in old(records) ==>
        r == ProjectMissing(MissingMessage(name)) && records == old(records) && tester.results == old(tester.results)
      ensures name in old(records) ==>
        && r == Found(TestProjectReport(env))
        && records == old(records)[name := old(records)[name].(history := old(records)[name].history + [HistoryItem(Additional, r.value, now)])]
        && tester.results == if r.value.Tested? then old(tester.results)[ResultFile(name, env.timestamp) := r.value] else old(tester.results)
    {
      if name !in records {
        return ProjectMissing(MissingMessage(name));
      }
      var report := tester.TestProject(name, env);
      records := records[name := records[name].(history := records[name].history + [HistoryItem(Additional, report, now)])];
      r := Found(report);
    }

    /** Stops every tracked process and forgets every project. */
    method CleanupAll(b: string -> Deployer.StopBehaviour) returns (r: Status)
      modifies this, deployer
      ensures records == map[]
      ensures deployer.running == map k | k in old(deployer.running) && b(k).StopRaises? :: old(deployer.running)[k]
      ensures r == Success
    {
      var _ := deployer.CleanupAll(b);
      records := map[];
      r := Success;
    }

    /** Counts the known projects and those whose process is running; polling forgets dead processes. */
    method GetSystemStatus(alive: set<string>) returns (r: SystemStatus)
      modifies deployer
      ensures r.active == |records|
      ensures r.running == |records.Keys * (old(deployer.running).Keys * alive)|
      ensures r.running <= r.active
      ensures r.maxIterations == MaxIterations
      ensures deployer.running == Pruned(old(deployer.running), records.Keys, alive)
    {
      var names := records.Keys;
      ghost var table := deployer.running;
      ghost var live := table.Keys * alive;
      var pending := names;
      var running: nat := 0;
      while pending != {}
        invariant pending <= names
        invariant deployer.running == Pruned(table, names - pending, alive)
        invariant running == |(names - pending) * live|
        decreases pending
      {
        var k :| k in pending;
        PollOneMore(table, names, pending, alive, k);
        var deployment := deployer.GetProjectStatus(k, alive);
        CountStep(names, pending, live, k);
        if deployment.Running? {
          running := running + 1;
        }
        pending := pending - {k};
      }
      assert names - pending == names;
      SubsetCardinality(names * live, names);
      r := SystemStatus(|records|, running, MaxIterations);
    }
  }
}
