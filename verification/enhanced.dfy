/**
 * The enhanced coordinator: a second development workflow that adds GitHub
 * publication to the planner/deployer/tester pipeline. It walks a project
 * record through eight phases (planning, app creation, repository creation,
 * push, GitHub Pages, local deployment, testing, improvement). The first four
 * are fatal when they report failure, Pages and deployment are not, and the
 * improvement loop is capped at three passes.
 */
module EnhancedCoordinator {
  import opened Common
  import opened Tester
  import Deployer
  import Coordinator

  /** The improvement loop's cap (max_iterations). */
  const MaxPasses: nat := 3

  const CycleFailedPrefix: string := "Development cycle failed: "
  const NotFoundMessage: string := "Project not found"

  // ---------------------------------------------------------------------
  // The project record
  // ---------------------------------------------------------------------

  /** The record's "status". */
  datatype ProjectStatus = Starting | Deployed | DeployedWithIssues | Completed | Errored

  /** The record's "current_phase"; `Finished` is the final "completed". */
  datatype Phase = Planning | Coding | GithubSetup | GithubPush | PagesSetup | Deployment | Testing | Improvement | Finished

  datatype ProjectRecord = ProjectRecord(
    status: ProjectStatus,
    phase: Phase,
    iteration: nat,
    startTime: int,
    projectType: string,
    techStack: string,
    command: string,
    githubRepo: Option<string>,
    pagesUrl: Option<string>,
    localUrl: Option<string>)

  /** The record a new cycle starts with. */
  function StartRecord(command: string, projectType: string, techStack: string, startTime: int): ProjectRecord
  {
    ProjectRecord(Starting, Planning, 0, startTime, projectType, techStack, command, None, None, None)
  }

  // ---------------------------------------------------------------------
  // What the planner, the GitHub service, the deployer and the tester answer
  // ---------------------------------------------------------------------

  /** create_functional_app: success with the files it wrote, a non-success status, or an exception. */
  datatype AppReply = AppCreated(filesCreated: seq<string>) | AppRejected(message: string) | AppRaised(message: string)

  /** create_repository. */
  datatype RepoReply =
    | RepoCreated(repositoryUrl: string, cloneUrl: string)
    | RepoRejected(message: string)
    | RepoRaised(message: string)

  /** push_to_github. */
  datatype PushReply = Pushed | PushRejected(message: string) | PushRaised(message: string)

  /** setup_github_pages. */
  datatype PagesReply = PagesReady(pagesUrl: string) | PagesRejected(message: string) | PagesRaised(message: string)

  /**
   * Everything a cycle's collaborators answer: the clock, the planner, the
   * GitHub service, the environment of the deployment, and the environment of
   * each test_project run (run 0 is the testing phase, runs 1..3 the
   * improvement passes).
   */
  datatype CycleEnv = CycleEnv(
    startTime: int,
    plan: Coordinator.PlanReply,
    app: AppReply,
    repo: RepoReply,
    push: PushReply,
    pages: PagesReply,
    deploy: Deployer.DeployEnv,
    tests: nat -> TestEnv)

  /** The "data" of a completed cycle (total_time left out). */
  datatype CycleData = CycleData(
    projectName: string,
    projectType: string,
    techStack: string,
    githubRepo: string,
    pagesUrl: Option<string>,
    localUrl: Option<string>,
    iterationsCompleted: nat,
    filesCreated: seq<string>)

  datatype CycleResult = Developed(data: CycleData) | DevelopmentError(message: string)

  /** The record as get_project_status returns it, with the project's name. */
  datatype ProjectView = ProjectView(projectName: string, record: ProjectRecord)

  datatype SystemStats = SystemStats(total: nat, active: nat, completed: nat, deployed: nat)

  // ---------------------------------------------------------------------
  // Specification of start_advanced_development
  // ---------------------------------------------------------------------

  /** How a cycle ends early: a collaborator reported failure, or raised. */
  datatype Halt = Rejected(phase: Phase, message: string) | Raised(phase: Phase, message: string)

  /** Planning, app creation, repository creation and push all succeeded. */
  predicate Published(env: CycleEnv)
  {
    env.plan.Planned? && env.app.AppCreated? && env.repo.RepoCreated? && env.push.Pushed?
  }

  /**
   * The early end of a cycle, if any: the first of the four fatal phases whose
   * collaborator did not succeed, or the Pages phase when its call raised.
   */
  function EarlyHalt(env: CycleEnv): (h: Option<Halt>)
    ensures h.None? <==> Published(env) && !env.pages.PagesRaised?
    ensures h.Some? ==> (h.value.phase == Planning <==> !env.plan.Planned?)
    ensures h.Some? ==> (h.value.phase == Coding <==> env.plan.Planned? && !env.app.AppCreated?)
    ensures h.Some? ==> (h.value.phase == GithubSetup <==> env.plan.Planned? && env.app.AppCreated? && !env.repo.RepoCreated?)
    ensures h.Some? ==> (h.value.phase == GithubPush <==> env.plan.Planned? && env.app.AppCreated? && env.repo.RepoCreated? && !env.push.Pushed?)
    ensures h.Some? ==> (h.value.phase == PagesSetup <==> Published(env))
    ensures h.Some? && h.value.phase == PagesSetup ==> h.value.Raised?
  {
    match env.plan
    case PlannerRaised(m) => Some(Raised(Planning, m))
    case PlanRejected(m) => Some(Rejected(Planning, "Planning failed: " + m))
    case Planned(_) =>
      match env.app
      case AppRaised(m) => Some(Raised(Coding, m))
      case AppRejected(m) => Some(Rejected(Coding, "App creation failed: " + m))
      case AppCreated(_) =>
        match env.repo
        case RepoRaised(m) => Some(Raised(GithubSetup, m))
        case RepoRejected(m) => Some(Rejected(GithubSetup, "GitHub repository creation failed: " + m))
        case RepoCreated(_, _) =>
          match env.push
          case PushRaised(m) => Some(Raised(GithubPush, m))
          case PushRejected(m) => Some(Rejected(GithubPush, "GitHub push failed: " + m))
          case Pushed =>
            if env.pages.PagesRaised? then Some(Raised(PagesSetup, env.pages.message)) else None
  }

  /**
   * The project's record when the cycle ends: an early end leaves it at the
   * phase reached, marked "error" only when a collaborator raised; otherwise
   * it is completed after three improvement passes.
   */
  function FinalRecord(command: string, projectType: string, techStack: string, env: CycleEnv): (rec: ProjectRecord)
    ensures rec.status == Starting <==> EarlyHalt(env).Some? && EarlyHalt(env).value.Rejected?
    ensures rec.status == Errored <==> EarlyHalt(env).Some? && EarlyHalt(env).value.Raised?
    ensures rec.status == Completed <==> EarlyHalt(env).None?
    ensures EarlyHalt(env).Some? ==> rec.phase == EarlyHalt(env).value.phase && rec.iteration == 0
    ensures EarlyHalt(env).None? ==> rec.phase == Finished && rec.iteration == MaxPasses
    ensures rec.githubRepo.Some? <==> env.plan.Planned? && env.app.AppCreated? && env.repo.RepoCreated?
    ensures rec.githubRepo.Some? ==> rec.githubRepo.value == env.repo.repositoryUrl
    ensures rec.pagesUrl.Some? <==> Published(env) && env.pages.PagesReady?
    ensures rec.pagesUrl.Some? ==> rec.pagesUrl.value == env.pages.pagesUrl
    ensures rec.localUrl.Some? <==> EarlyHalt(env).None? && Deployer.Deploys(env.deploy)
    ensures rec.localUrl.Some? ==> rec.localUrl.value == AppUrl
    ensures rec.command == command && rec.projectType == projectType && rec.techStack == techStack
    ensures rec.startTime == env.startTime
  {
    var start := StartRecord(command, projectType, techStack, env.startTime);
    var repo := if env.plan.Planned? && env.app.AppCreated? && env.repo.RepoCreated? then Some(env.repo.repositoryUrl) else None;
    match EarlyHalt(env)
    case Some(h) =>
      start.(status := if h.Raised? then Errored else Starting, phase := h.phase, githubRepo := repo)
    case None =>
      start.(status := Completed, phase := Finished, iteration := MaxPasses, githubRepo := repo,
        pagesUrl := if env.pages.PagesReady? then Some(env.pages.pagesUrl) else None,
        localUrl := if Deployer.Deploys(env.deploy) then Some(AppUrl) else None)
  }

  /**
   * What start_advanced_development returns: the failing phase's message, the
   * exception's text behind "Development cycle failed: ", or the completed
   * cycle's data, read from the final record.
   */
  function CycleOutcome(name: string, command: string, projectType: string, techStack: string, env: CycleEnv): (r: CycleResult)
    ensures r.DevelopmentError? <==> EarlyHalt(env).Some?
    ensures EarlyHalt(env).Some? && EarlyHalt(env).value.Raised? ==> r.message == CycleFailedPrefix + EarlyHalt(env).value.message
    ensures EarlyHalt(env).Some? && EarlyHalt(env).value.Rejected? ==> r.message == EarlyHalt(env).value.message
    ensures r.Developed? ==>
      && r.data.projectName == name
      && r.data.iterationsCompleted == FinalRecord(command, projectType, techStack, env).iteration == MaxPasses
      && Some(r.data.githubRepo) == FinalRecord(command, projectType, techStack, env).githubRepo
      && r.data.pagesUrl == FinalRecord(command, projectType, techStack, env).pagesUrl
      && r.data.localUrl == FinalRecord(command, projectType, techStack, env).localUrl
  {
    match EarlyHalt(env)
    case Some(Raised(_, m)) => DevelopmentError(CycleFailedPrefix + m)
    case Some(Rejected(_, m)) => DevelopmentError(m)
    case None =>
      var rec := FinalRecord(command, projectType, techStack, env);
      Developed(CycleData(name, projectType, techStack, env.repo.repositoryUrl, rec.pagesUrl, rec.localUrl,
        rec.iteration, env.app.filesCreated))
  }

  /** The tester's result store after test runs 0..n-1 of a project. */
  function SavedRuns(results: map<ResultFile, TestReport>, name: string, tests: nat -> TestEnv, n: nat)
    : map<ResultFile, TestReport>
  {
    if n == 0 then results else Saved(SavedRuns(results, name, tests, n - 1), name, tests(n - 1))
  }

  /** The cycle's test runs touch only result files of the project itself. */
  lemma {:induction false} SavedRunsKeepOtherProjects(results: map<ResultFile, TestReport>, name: string, tests: nat -> TestEnv, n: nat)
    ensures forall f: ResultFile :: f.project != name ==>
      (f in SavedRuns(results, name, tests, n) <==> f in results) &&
      (f in results ==> SavedRuns(results, name, tests, n)[f] == results[f])
  {
    if n > 0 {
      SavedRunsKeepOtherProjects(results, name, tests, n - 1);
    }
  }

  /** A project get_system_stats counts as active. */
  predicate IsActive(rec: ProjectRecord)
  {
    rec.status == Starting || rec.status == Deployed || rec.status == DeployedWithIssues
  }

  /** Python truthiness of the record's "local_url". */
  predicate HasLocalUrl(rec: ProjectRecord)
  {
    rec.localUrl.Some? && rec.localUrl.value != ""
  }

  class EnhancedCoordinatorAgent {
    const deployer: Deployer.DeployerAgent
    const tester: TesterAgent
    /** active_projects: the record of every project a cycle was started for. */
    var records: map<string, ProjectRecord>

    constructor ()
      ensures fresh(deployer) && fresh(tester)
      ensures records == map[] && deployer.running == map[] && tester.results == map[]
    {
      deployer := new Deployer.DeployerAgent();
      tester := new TesterAgent();
      records := map[];
    }

    /** The exception handler: marks the record "error" and reports the exception's text. */
    method Crash(name: string, message: string) returns (r: CycleResult)
      requires name in records
      modifies this
      ensures r == DevelopmentError(CycleFailedPrefix + message)
      ensures records == old(records)[name := old(records)[name].(status := Errored)]
    {
      records := records[name := records[name].(status := Errored)];
      r := DevelopmentError(CycleFailedPrefix + message);
    }

    /** Phase 6: a failed deployment is not fatal, it only marks the project "deployed_with_issues". */
    method Deploy(name: string, env: Deployer.DeployEnv)
      requires name in records
      modifies this, deployer
      ensures deployer.running == Deployer.AfterDeploy(old(deployer.running), name, env)
      ensures records == old(records)[name := old(records)[name].(
        phase := Deployment,
        status := if Deployer.Deploys(env) then Deployed else DeployedWithIssues,
        localUrl := if Deployer.Deploys(env) then Some(AppUrl) else old(records)[name].localUrl)]
    {
      var rec := records[name].(phase := Deployment);
      var deployed := deployer.DeployProject(name, env);
      if deployed.status == Success {
        rec := rec.(localUrl := deployed.url, status := Deployed);
      } else {
        rec := rec.(status := DeployedWithIssues);
      }
      records := records[name := rec];
    }

    /**
     * Phases 7 and 8: one test run, then exactly three improvement passes,
     * each recording its number and testing again. The early exit and the fix
     * look for "all_tests_passed" and "issues", which test_project's result
     * never holds, so no pass ends the loop or asks for a fix.
     */
    method TestAndImprove(name: string, tests: nat -> TestEnv)
      requires name in records
      modifies this, tester
      ensures tester.results == SavedRuns(old(tester.results), name, tests, MaxPasses + 1)
      ensures records == old(records)[name := old(records)[name].(phase := Improvement, iteration := MaxPasses)]
    {
      ghost var rec := records[name].(phase := Improvement);
      records := records[name := records[name].(phase := Testing)];
      var _ := tester.TestProject(name, tests(0));
      UpdateTwice(old(records), name, records[name], rec);
      records := records[name := records[name].(phase := Improvement)];
      var i := 0;
      while i < MaxPasses
        invariant i <= MaxPasses
        invariant records == old(records)[name := rec.(iteration := if i == 0 then rec.iteration else i)]
        invariant tester.results == SavedRuns(old(tester.results), name, tests, i + 1)
      {
        UpdateTwice(old(records), name, records[name], rec.(iteration := i + 1));
        records := records[name := records[name].(iteration := i + 1)];
        var _ := tester.TestProject(name, tests(i + 1));
        i := i + 1;
      }
    }

    /** The eight-phase development workflow for `projectName`. */
    method StartAdvancedDevelopment(command: string, projectName: string, projectType: string, techStack: string, env: CycleEnv)
      returns (r: CycleResult)
      modifies this, tester, deployer
      ensures r == CycleOutcome(projectName, command, projectType, techStack, env)
      ensures records == old(records)[projectName := FinalRecord(command, projectType, techStack, env)]
      ensures tester.results ==
        if EarlyHalt(env).None? then SavedRuns(old(tester.results), projectName, env.tests, MaxPasses + 1) else old(tester.results)
      ensures deployer.running ==
        if EarlyHalt(env).None? then Deployer.AfterDeploy(old(deployer.running), projectName, env.deploy) else old(deployer.running)
    {
      var name := projectName;
      ghost var rec := StartRecord(command, projectType, techStack, env.startTime);
      records := records[name := StartRecord(command, projectType, techStack, env.startTime)];
      // Phase 1: planning
      if !env.plan.Planned? {
        if env.plan.PlannerRaised? {
          r := Crash(name, env.plan.message);
          UpdateTwice(old(records), name, rec, records[name]);
        } else {
          r := DevelopmentError("Planning failed: " + env.plan.message);
        }
        return;
      }
      // Phase 2: the application's code
      UpdateTwice(old(records), name, rec, rec.(phase := Coding));
      rec := rec.(phase := Coding);
      records := records[name := records[name].(phase := Coding)];
      if !env.app.AppCreated? {
        if env.app.AppRaised? {
          r := Crash(name, env.app.message);
          UpdateTwice(old(records), name, rec, records[name]);
        } else {
          r := DevelopmentError("App creation failed: " + env.app.message);
        }
        return;
      }
      // Phase 3: the GitHub repository
      UpdateTwice(old(records), name, rec, rec.(phase := GithubSetup));
      rec := rec.(phase := GithubSetup);
      records := records[name := records[name].(phase := GithubSetup)];
      if !env.repo.RepoCreated? {
        if env.repo.RepoRaised? {
          r := Crash(name, env.repo.message);
          UpdateTwice(old(records), name, rec, records[name]);
        } else {
          r := DevelopmentError("GitHub repository creation failed: " + env.repo.message);
        }
        return;
      }
      UpdateTwice(old(records), name, rec, rec.(githubRepo := Some(env.repo.repositoryUrl)));
      rec := rec.(githubRepo := Some(env.repo.repositoryUrl));
      records := records[name := records[name].(githubRepo := Some(env.repo.repositoryUrl))];
      // Phase 4: push
      UpdateTwice(old(records), name, rec, rec.(phase := GithubPush));
      rec := rec.(phase := GithubPush);
      records := records[name := records[name].(phase := GithubPush)];
      if !env.push.Pushed? {
        if env.push.PushRaised? {
          r := Crash(name, env.push.message);
          UpdateTwice(old(records), name, rec, records[name]);
        } else {
          r := DevelopmentError("GitHub push failed: " + env.push.message);
        }
        return;
      }
      // Phase 5: GitHub Pages, not fatal when it reports failure
      UpdateTwice(old(records), name, rec, rec.(phase := PagesSetup));
      rec := rec.(phase := PagesSetup);
      records := records[name := records[name].(phase := PagesSetup)];
      if env.pages.PagesRaised? {
        r := Crash(name, env.pages.message);
        UpdateTwice(old(records), name, rec, records[name]);
        return;
      }
      if env.pages.PagesReady? {
        UpdateTwice(old(records), name, rec, rec.(pagesUrl := Some(env.pages.pagesUrl)));
        rec := rec.(pagesUrl := Some(env.pages.pagesUrl));
        records := records[name := records[name].(pagesUrl := Some(env.pages.pagesUrl))];
      }
      // Phase 6: local deployment
      Deploy(name, env.deploy);
      UpdateTwice(old(records), name, rec, records[name]);
      rec := records[name];
      // Phases 7 and 8: testing and improvement
      TestAndImprove(name, env.tests);
      UpdateTwice(old(records), name, rec, records[name]);
      rec := records[name];
      // Completion
      UpdateTwice(old(records), name, rec, rec.(status := Completed, phase := Finished));
      records := records[name := records[name].(status := Completed, phase := Finished)];
      r := Developed(CycleData(name, projectType, techStack, env.repo.repositoryUrl, records[name].pagesUrl,
        records[name].localUrl, records[name].iteration, env.app.filesCreated));
    }

    /** A known project's record; an unknown name is an error. */
    function GetProjectStatus(name: string): (r: Coordinator.Lookup<ProjectView>)
      reads this
      ensures r.ProjectMissing? <==> name !in records
      ensures r.ProjectMissing? ==> r.message == NotFoundMessage
      ensures r.Found? ==> r.value.projectName == name && r.value.record == records[name]
    {
      if name !in records then Coordinator.ProjectMissing(NotFoundMessage) else Coordinator.Found(ProjectView(name, records[name]))
    }

    /**
     * The counts get_system_stats reports (success_rate left out): every
     * count is at most the number of projects, and no project is both active
     * and completed.
     */
    function GetSystemStats(): (s: SystemStats)
      reads this
      ensures s.total == |records|
      ensures s.active <= s.total && s.completed <= s.total && s.deployed <= s.total
      ensures s.active + s.completed <= s.total
    {
      var active := set k | k in records && IsActive(records[k]);
      var completed := set k | k in records && records[k].status == Completed;
      var deployed := set k | k in records && HasLocalUrl(records[k]);
      SubsetCardinality(active + completed, records.Keys);
      SubsetCardinality(deployed, records.Keys);
      SystemStats(|records|, |active|, |completed|, |deployed|)
    }
  }
}
