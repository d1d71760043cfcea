/**
 * The deployer agent: installs a project's dependencies, starts its
 * `main.py` as a child process, and keeps the table of running processes
 * (project name -> process entry) that stop, restart, status queries and
 * cleanup read and prune.
 *
 * The operating system is not consulted here. What a spawned process, pip,
 * a stop attempt or an HTTP probe did is handed in, and so is the set
 * `alive` of tracked projects whose process has not exited when it is polled.
 */
module Deployer {
  import opened Common

  const ProjectsDir: string := "custom_projects"
  /** Seconds a terminated process gets before it is killed. */
  const StopGrace: nat := 5

  function ProjectPath(name: string): string
  {
    ProjectsDir + "/" + name
  }

  /** One entry of `running_processes`. */
  datatype ProcessEntry = ProcessEntry(pid: int, startTime: int, path: string)

  type ProcessTable = map<string, ProcessEntry>

  // ---------------------------------------------------------------------
  // Stopping
  // ---------------------------------------------------------------------

  /** How a tracked process behaves when stop_project deals with it. */
  datatype StopBehaviour =
    | ExitsOnTerminate            // exits within the grace period
    | IgnoresTerminate            // still running after the grace period
    | StopRaises(message: string) // terminate or wait raised

  /** What stop_project does to the process. */
  datatype ProcessAction = Terminate | WaitUpTo(seconds: nat) | Kill | WaitForExit

  datatype StopResult = StopResult(status: Status, message: string, actions: seq<ProcessAction>)

  /**
   * The signals and waits of a stop that did not raise: terminate and wait
   * at most the grace period, and only if that wait timed out, kill and wait
   * without bound.
   */
  function StopActions(b: StopBehaviour): (a: seq<ProcessAction>)
    requires !b.StopRaises?
    ensures |a| >= 2 && a[..2] == [Terminate, WaitUpTo(StopGrace)]
    ensures Kill in a <==> b.IgnoresTerminate?
    ensures Kill in a ==> a[2..] == [Kill, WaitForExit]
  {
    if b.ExitsOnTerminate? then [Terminate, WaitUpTo(StopGrace)]
    else [Terminate, WaitUpTo(StopGrace), Kill, WaitForExit]
  }

  /** The table after stop_project: the entry goes unless the stop raised. */
  function AfterStop(table: ProcessTable, name: string, b: StopBehaviour): (t: ProcessTable)
    ensures name in t <==> name in table && b.StopRaises?
    ensures forall k :: k != name ==> (k in t <==> k in table)
    ensures forall k :: k in t ==> t[k] == table[k]
  {
    if name in table && !b.StopRaises? then table - {name} else table
  }

  // ---------------------------------------------------------------------
  // Starting
  // ---------------------------------------------------------------------

  /** What `python main.py` had done when polled after the start-up wait. */
  datatype Launch =
    | StillRunning(pid: int)
    | ExitedEarly(stdout: string, stderr: string)
    | SpawnRaised(message: string)

  datatype StartResult = StartResult(success: bool, pid: Option<int>, message: string, stderr: Option<string>)

  /** The table after _start_application: an entry only for a process still alive after the wait. */
  function AfterStart(table: ProcessTable, name: string, path: string, launch: Launch, now: int): (t: ProcessTable)
    ensures launch.StillRunning? ==> name in t && t[name] == ProcessEntry(launch.pid, now, path)
    ensures forall k :: k != name ==> (k in t <==> k in table)
    ensures forall k :: k in t && k != name ==> t[k] == table[k]
    ensures !launch.StillRunning? ==> t == table
  {
    if launch.StillRunning? then table[name := ProcessEntry(launch.pid, now, path)] else table
  }

  // ---------------------------------------------------------------------
  // Installing dependencies
  // ---------------------------------------------------------------------

  /** What `pip install -r requirements.txt` did, or that there is no requirements.txt. */
  datatype InstallRun =
    | NoRequirements
    | PipFinished(returnCode: int, stdout: string, stderr: string)
    | PipTimedOut
    | PipRaised(message: string)

  datatype InstallResult = InstallResult(success: bool, error: string)

  /** Installation succeeds iff there is nothing to install or pip exited with 0. */
  function InstallDependencies(run: InstallRun): (r: InstallResult)
    ensures r.success <==> run.NoRequirements? || (run.PipFinished? && run.returnCode == 0)
    ensures run.PipFinished? && run.returnCode != 0 ==> r.error == run.stderr
    ensures run.PipTimedOut? ==> r.error == "Installation timed out"
    ensures run.PipRaised? ==> r.error == run.message
  {
    match run
    case NoRequirements => InstallResult(true, "")
    case PipFinished(code, _, err) => if code == 0 then InstallResult(true, "") else InstallResult(false, err)
    case PipTimedOut => InstallResult(false, "Installation timed out")
    case PipRaised(msg) => InstallResult(false, msg)
  }

  // ---------------------------------------------------------------------
  // Results of the public operations
  // ---------------------------------------------------------------------

  datatype DeployResult = DeployResult(status: Status, url: Option<string>, pid: Option<int>, message: string)

  /** get_project_status: running (with the stored pid), stopped (found dead), or not running. */
  datatype ProcessStatus = Running(pid: int, startTime: int) | StoppedNow | NotRunning

  /** One element of list_running_projects. */
  datatype RunningInfo = RunningInfo(name: string, pid: int, startTime: int)

  datatype RestartResult = RestartResult(status: Status, restartSuccessful: bool, message: string)

  datatype HealthResult = Healthy | Unhealthy(statusCode: int) | HealthError(message: string)

  /** The names a listing mentions. */
  function NamesOf(infos: seq<RunningInfo>): set<string>
  {
    set i | 0 <= i < |infos| :: infos[i].name
  }

  lemma NamesOfAppend(infos: seq<RunningInfo>, info: RunningInfo)
    ensures NamesOf(infos + [info]) == NamesOf(infos) + {info.name}
  {
    var longer := infos + [info];
    assert longer[|infos|].name == info.name;
    forall n | n in NamesOf(infos)
      ensures n in NamesOf(longer)
    {
      var i :| 0 <= i < |infos| && infos[i].name == n;
      assert longer[i].name == n;
    }
  }

  /** The entries whose process is still alive. */
  function LiveEntries(table: ProcessTable, alive: set<string>): (t: ProcessTable)
    ensures t.Keys == table.Keys * alive
    ensures forall k :: k in t ==> t[k] == table[k]
  {
    map k | k in table && k in alive :: table[k]
  }

  /** What get_project_status reports for `name`, given which processes are alive. */
  function PollStatus(table: ProcessTable, alive: set<string>, name: string): (r: ProcessStatus)
    ensures r.Running? <==> name in table && name in alive
    ensures r.Running? ==> r.pid == table[name].pid && r.startTime == table[name].startTime
    ensures r == NotRunning <==> name !in table
  {
    if name !in table then NotRunning
    else if name in alive then Running(table[name].pid, table[name].startTime)
    else StoppedNow
  }

  /** The table after get_project_status: only a dead entry for `name` is forgotten. */
  function AfterPoll(table: ProcessTable, alive: set<string>, name: string): (t: ProcessTable)
    ensures forall k :: k in t <==> k in table && (k != name || k in alive)
    ensures forall k :: k in t ==> t[k] == table[k]
  {
    if name in table && name !in alive then table - {name} else table
  }

  /** Everything deploy_project depends on besides the project's name. */
  datatype DeployEnv = DeployEnv(
    projectExists: bool,  // custom_projects/<name> exists
    stop: StopBehaviour,  // how the previous process reacts to being stopped
    install: InstallRun,  // what pip did
    launch: Launch,       // what the new process did
    now: int)             // the start time recorded for it

  /** A deploy succeeds iff the project exists, its dependencies install and the new process stays up. */
  predicate Deploys(env: DeployEnv)
  {
    env.projectExists && InstallDependencies(env.install).success && env.launch.StillRunning?
  }

  /** The table after deploy_project. */
  function AfterDeploy(table: ProcessTable, name: string, env: DeployEnv): (t: ProcessTable)
    ensures !env.projectExists ==> t == table
    ensures Deploys(env) ==> name in t && t[name] == ProcessEntry(env.launch.pid, env.now, ProjectPath(name))
    ensures env.projectExists && !Deploys(env) ==> (name in t <==> name in table && env.stop.StopRaises?)
    ensures name in t && !Deploys(env) ==> t[name] == table[name]
    ensures forall k :: k != name ==> (k in t <==> k in table) && (k in t ==> t[k] == table[k])
  {
    if !env.projectExists then table
    else if !InstallDependencies(env.install).success then AfterStop(table, name, env.stop)
    else AfterStart(AfterStop(table, name, env.stop), name, ProjectPath(name), env.launch, env.now)
  }

  class DeployerAgent {
    /** `running_processes`: the processes this agent started and still tracks. */
    var running: ProcessTable

    constructor ()
      ensures running == map[]
    {
      running := map[];
    }

    /**
     * Starts `main.py`; the process is tracked only if it is still alive after
     * the start-up wait, otherwise its stderr is reported and nothing is added.
     */
    method StartApplication(path: string, name: string, launch: Launch, now: int) returns (r: StartResult)
      modifies this
      ensures r.success <==> launch.StillRunning?
      ensures r.pid == (if launch.StillRunning? then Some(launch.pid) else None)
      ensures launch.ExitedEarly? ==> r.stderr == Some(launch.stderr)
      ensures running == AfterStart(old(running), name, path, launch, now)
    {
      match launch
      case StillRunning(pid) =>
        running := running[name := ProcessEntry(pid, now, path)];
        r := StartResult(true, Some(pid), "Application started successfully on port 8001", None);
      case ExitedEarly(_, stderr) =>
        r := StartResult(false, None, "Application failed to start: " + stderr, Some(stderr));
      case SpawnRaised(msg) =>
        r := StartResult(false, None, "Failed to start application: " + msg, None);
    }

    /**
     * Stops a project: an untracked name is a successful no-op; a tracked
     * process is terminated, killed if it outlives the grace period, and its
     * entry removed; if that raises, the entry stays and an error is returned.
     */
    method StopProject(name: string, b: StopBehaviour) returns (r: StopResult)
      modifies this
      ensures running == AfterStop(old(running), name, b)
      ensures name !in old(running) ==> r == StopResult(Success, "Project " + name + " was not running", [])
      ensures name in old(running) ==> (r.status == Error <==> b.StopRaises?)
      ensures name in old(running) && !b.StopRaises? ==> r.actions == StopActions(b)
    {
      if name in running {
        match b
        case StopRaises(msg) =>
          r := StopResult(Error, "Failed to stop project: " + msg, []);
        case _ =>
          running := running - {name};
          r := StopResult(Success, "Project " + name + " stopped successfully", StopActions(b));
      } else {
        r := StopResult(Success, "Project " + name + " was not running", []);
      }
    }

    /**
     * Reports a project's process: running with its stored pid, or, when the
     * process has exited, "stopped" after deleting the stale entry.
     */
    method GetProjectStatus(name: string, alive: set<string>) returns (r: ProcessStatus)
      modifies this
      ensures r == PollStatus(old(running), alive, name)
      ensures running == AfterPoll(old(running), alive, name)
    {
      if name in running {
        if name in alive {
          r := Running(running[name].pid, running[name].startTime);
        } else {
          running := running - {name};
          r := StoppedNow;
        }
      } else {
        r := NotRunning;
      }
    }

    /**
     * Lists the running projects and forgets the dead ones, walking a
     * snapshot of the names (as cleanup_all does).
     */
    method ListRunningProjects(alive: set<string>) returns (r: seq<RunningInfo>)
      modifies this
      ensures running == LiveEntries(old(running), alive)
      ensures NamesOf(r) == running.Keys
      ensures forall i :: 0 <= i < |r| ==> r[i] == RunningInfo(r[i].name, running[r[i].name].pid, running[r[i].name].startTime)
      ensures forall i, j :: 0 <= i < j < |r| ==> r[i].name != r[j].name
    {
      ghost var table := running;
      var pending := running.Keys;
      r := [];
      while pending != {}
        invariant pending <= table.Keys
        invariant running == map k | k in table && (k in pending || k in alive) :: table[k]
        invariant NamesOf(r) == table.Keys * alive - pending
        invariant forall i :: 0 <= i < |r| ==>
          r[i].name in table && r[i] == RunningInfo(r[i].name, table[r[i].name].pid, table[r[i].name].startTime)
        invariant forall i, j :: 0 <= i < j < |r| ==> r[i].name != r[j].name
        decreases pending
      {
        var k :| k in pending;
        if k in alive {
          assert k !in NamesOf(r);
          NamesOfAppend(r, RunningInfo(k, running[k].pid, running[k].startTime));
          r := r + [RunningInfo(k, running[k].pid, running[k].startTime)];
        } else {
          running := running - {k};
        }
        pending := pending - {k};
      }
    }

    /**
     * Stop followed by start at the project's path; the outcome is the
     * start's, whatever the stop returned.
     */
    method RestartProject(name: string, b: StopBehaviour, launch: Launch, now: int) returns (r: RestartResult)
      modifies this
      ensures r.status == Success <==> launch.StillRunning?
      ensures r.restartSuccessful == launch.StillRunning?
      ensures running == AfterStart(AfterStop(old(running), name, b), name, ProjectPath(name), launch, now)
    {
      var _ := StopProject(name, b);
      var start := StartApplication(ProjectPath(name), name, launch, now);
      r := RestartResult(if start.success then Success else Error, start.success, start.message);
    }

    /** Probes a tracked project's health endpoint; an untracked name is an error. */
    method CheckHealth(name: string, probe: Probe) returns (r: HealthResult)
      ensures name !in running ==> r == HealthError("Project is not running")
      ensures name in running ==> (r == Healthy <==> probe == Answered(200))
      ensures name in running && probe.Answered? && probe.statusCode != 200 ==> r == Unhealthy(probe.statusCode)
      ensures name in running && probe.ProbeRaised? ==> r == HealthError("Health check failed: " + probe.message)
    {
      if name !in running {
        return HealthError("Project is not running");
      }
      match probe
      case Answered(code) => r := if code == 200 then Healthy else Unhealthy(code);
      case ProbeRaised(msg) => r := HealthError("Health check failed: " + msg);
    }

    /**
     * Stops every project tracked when the call starts; afterwards only the
     * projects whose stop raised are still tracked.
     */
    method CleanupAll(b: string -> StopBehaviour) returns (r: Status)
      modifies this
      ensures running == map k | k in old(running) && b(k).StopRaises? :: old(running)[k]
      ensures (forall k :: k in old(running) ==> !b(k).StopRaises?) ==> running == map[]
      ensures r == Success
    {
      var pending := running.Keys;
      while pending != {}
        invariant pending <= old(running).Keys
        invariant running == map k | k in old(running) && (k in pending || b(k).StopRaises?) :: old(running)[k]
        decreases pending
      {
        var k :| k in pending;
        var _ := StopProject(k, b(k));
        pending := pending - {k};
      }
      r := Success;
    }

    /**
     * Deploys a project: a missing project is an error before anything is
     * touched; otherwise the old process is stopped, dependencies are
     * installed (a failure ends the deploy before any start), and the result
     * is successful iff the new process started.
     */
    method DeployProject(name: string, env: DeployEnv) returns (r: DeployResult)
      modifies this
      ensures running == AfterDeploy(old(running), name, env)
      ensures r.status == Success <==> Deploys(env)
      ensures !env.projectExists ==> r == DeployResult(Error, None, None, "Project " + name + " not found")
      ensures env.projectExists && !InstallDependencies(env.install).success ==>
        r == DeployResult(Error, None, None, "Failed to install dependencies: " + InstallDependencies(env.install).error)
      ensures env.projectExists && InstallDependencies(env.install).success ==>
        && r.url == Some(AppUrl)
        && r.pid == (if env.launch.StillRunning? then Some(env.launch.pid) else None)
    {
      if !env.projectExists {
        return DeployResult(Error, None, None, "Project " + name + " not found");
      }
      var _ := StopProject(name, env.stop);
      var installed := InstallDependencies(env.install);
      if !installed.success {
        return DeployResult(Error, None, None, "Failed to install dependencies: " + installed.error);
      }
      var start := StartApplication(ProjectPath(name), name, env.launch, env.now);
      r := DeployResult(if start.success then Success else Error, Some(AppUrl), start.pid, start.message);
    }
  }

  // ---------------------------------------------------------------------
  // list_running_projects as written
  // ---------------------------------------------------------------------

  datatype ListingAsWritten =
    | Listed(infos: seq<RunningInfo>, table: ProcessTable)
    | RuntimeErrorRaised(table: ProcessTable)

  /**
   * list_running_projects as written: it deletes a dead entry from the very
   * dictionary it is iterating over, and Python's next iteration step then
   * raises RuntimeError ("dictionary changed size during iteration").
   * `order` is the dictionary's iteration order, `listed` what was gathered
   * before it.
   */
  function ListRunningAsWritten(table: ProcessTable, alive: set<string>, order: seq<string>, listed: seq<RunningInfo>)
    : (r: ListingAsWritten)
    requires forall k :: k in order ==> k in table
    ensures r.Listed? ==> forall k :: k in order ==> k in alive
    ensures r.Listed? ==> r.table == table && |r.infos| == |listed| + |order| && r.infos[..|listed|] == listed
    ensures r.Listed? ==> forall i :: 0 <= i < |order| ==> r.infos[|listed| + i].name == order[i]
    ensures r.RuntimeErrorRaised? ==> exists k :: k in order && k !in alive && r.table == table - {k}
    decreases |order|
  {
    if order == [] then Listed(listed, table)
    else if order[0] in alive then
      ListRunningAsWritten(table, alive, order[1..], listed + [RunningInfo(order[0], table[order[0]].pid, table[order[0]].startTime)])
    else RuntimeErrorRaised(table - {order[0]})
  }

  /** As written, one dead process makes the listing raise, after deleting exactly one entry. */
  lemma {:induction false} AsWrittenListingRaises(table: ProcessTable, alive: set<string>, order: seq<string>, listed: seq<RunningInfo>)
    requires forall k :: k in order ==> k in table
    requires exists k :: k in order && k !in alive
    ensures ListRunningAsWritten(table, alive, order, listed).RuntimeErrorRaised?
    ensures |ListRunningAsWritten(table, alive, order, listed).table| == |table| - 1
  {
    if order[0] in alive {
      var k :| k in order && k !in alive;
      assert k in order[1..];
      AsWrittenListingRaises(table, alive, order[1..],
        listed + [RunningInfo(order[0], table[order[0]].pid, table[order[0]].startTime)]);
    }
  }

  /** The smallest case: one tracked project whose process has exited. */
  lemma AsWrittenListingRaisesOnOneDeadProcess()
    ensures ListRunningAsWritten(map["app" := ProcessEntry(1234, 0, ProjectPath("app"))], {}, ["app"], []).RuntimeErrorRaised?
  {
  }
}
