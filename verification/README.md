# DevPilot agents — a Dafny model of the lifecycle bookkeeping

DevPilot turns a natural-language command into a running web project. A
planner and a code-writing agent (both backed by a language model) produce
the project. A deployer starts it as a local process. A tester checks it. A
coordinator runs these steps in order and keeps a record per project. This
project models the bookkeeping around those calls and proves properties of
it:

- `common.dfy` (module `Common`): shared vocabulary.
  - The "success"/"error" status.
  - The HTTP probe.
  - The local application URL.
  - Python's ordering of strings, with its order lemmas.
- `deployer.dfy` (module `Deployer`): the deployer agent.
  - Its table of running processes, a `map` field of a class, updated in place by start, stop, status polls, listing and cleanup.
  - The dependency installer's decision table.
- `tester.dfy` (module `Tester`): the tester agent.
  - The local pytest step and the TestSprite step, and how they combine into an overall status and a feedback list.
  - The store of saved result files, a `map` field, and the history read back from it, sorted newest first.
  - The advice handed back to the code-writing agent.
- `coordinator.dfy` (module `Coordinator`): the coordinator agent.
  - The plan → build → deploy phase machine and its error handler.
  - The test/fix/restart loop, capped at five passes.
  - The per-project record table with status, stop, restart, additional tests, cleanup and system status.
- `enhanced.dfy` (module `EnhancedCoordinator`): the enhanced coordinator.
  - An eight-phase workflow with GitHub publication: four fatal phases, two non-fatal ones, and an improvement loop capped at three passes.
  - Its status lookup and its statistics counts.

Everything outside these agents is a parameter, never computed:

- the language model;
- subprocesses and their exit codes;
- process liveness;
- HTTP replies;
- the file system;
- the clock.

The parameters are:

- **Collaborator replies** are datatypes with a success case, a rejected case and a raised-exception case. Examples: `Coordinator.PlanReply`, `Deployer.DeployEnv`, `Tester.TestEnv`, `EnhancedCoordinator.CycleEnv`.
- **A loop's replies** are a function from the pass number to that pass's replies.
- **Process liveness** is the set of project names whose process is alive.
- **Timestamps** are opaque integers or strings.

Each stateful method is proved against a specification function of the old state and the parameters. The properties the source promises are then proved about those functions as lemmas and as `ensures` clauses.

## Model

| member | source | states |
|---|---|---|
| Tester.RunLocalTests | src/agents/tester_agent.py:87-126 | skipped exactly when there is no tests directory; success exactly when pytest finished with return code 0; "timeout" exactly when the run timed out; a completed run keeps the return code and stderr, an exception keeps its text |
| Tester.GenerateTestCases | src/agents/tester_agent.py:169-216 | test cases are generated exactly when the service answered 200, and they are the ones it returned; the step fails exactly when the request raised |
| Tester.ExecuteTestCases | src/agents/tester_agent.py:218-260 | skipped unless generation succeeded; executed exactly when generation succeeded and the service answered 200; successful exactly when, in addition, the passed count is positive |
| Tester.RunTestSpriteTests | src/agents/tester_agent.py:128-162 | "unavailable" exactly when the health probe is not a 200 reply; a completed run carries the generation step's result; success exactly when the service is healthy and execution succeeded |
| Tester.DetermineOverallStatus | src/agents/tester_agent.py:262-273 | "all_passed" iff both steps succeeded, "partial_pass" iff exactly one did, "failed" iff neither did (a step without a success flag counts as failed) |
| Tester.Prefix200 | src/agents/tester_agent.py:287 | the result is the first min(200, length) characters of its input |
| Tester.ErrorDetails | src/agents/tester_agent.py:287 | the line is "Error details: ", then the first min(200, length) characters of stderr, then "..." |
| Tester.StepLinesAreNotOverall | src/agents/tester_agent.py:281-307 | none of the six per-step feedback lines is one of the three overall-status lines |
| Tester.LocalFeedback | src/agents/tester_agent.py:281-289 | a passed run gives one pass line; a failed run gives a fail line, then an error-details line exactly when stderr is non-empty; skipped gives one warning; timeout and error give nothing; no line is an overall-status line |
| Tester.SpriteFeedback | src/agents/tester_agent.py:292-298 | a completed run gives one pass-or-fail line by its success; unavailable gives one warning; any other status gives nothing |
| Tester.GenerateFeedback | src/agents/tester_agent.py:275-309 | between 1 and 4 lines; the last is the overall message of DetermineOverallStatus; no earlier line is an overall message; the lines before it are the local lines followed by the TestSprite lines |
| Tester.TestProjectReport | src/agents/tester_agent.py:20-60 | a missing project directory is an error; an existing but unhealthy project is an error with no tests run; otherwise the report carries exactly the local and TestSprite step results |
| Tester.AllPassedNeedsBothSteps | src/agents/tester_agent.py:20-60 | a report's overall status is "all_passed" iff the project exists, answers its health check, and both test steps succeed |
| Tester.ParsedTimestamp | src/agents/tester_agent.py:315-332 | the timestamp read back from the file name `<project>_test_<timestamp>` is the text after its first `_test_`, up to the next one, so it never holds `_test_` |
| Tester.UpToSep | src/agents/tester_agent.py:332 | a field of a split is the longest prefix holding no `_test_`: it ends at the end of the text or at the next separator |
| Tester.ParsedTimestampIsSecondField | src/agents/tester_agent.py:315-332 | the timestamp read back is element `[1]` of the stem split at `_test_`: it starts right after a separator with none before it, holds none, and ends at the end of the stem or at the next separator |
| Tester.ParsedTimestampOfPlainName | src/agents/tester_agent.py:315-332 | when the only `_test_` in `<project>_test_` is the appended one and the timestamp holds none, the timestamp read back is the one saved |
| Tester.ParsedTimestampOfSeparatorInName | src/agents/tester_agent.py:315-332 | project "unit_test_app" reads back "app" for reports saved at different times, so those reports share one history timestamp |
| Tester.EntryOf | src/agents/tester_agent.py:328-336 | a history entry holds the timestamp read back from the file name and the report's overall status; it has a local or TestSprite success flag exactly when that step completed, and the flag is that step's success |
| Tester.InsertByTimestamp | src/agents/tester_agent.py:338 | inserting keeps every entry: the result is the old entries plus the new one, as a multiset |
| Tester.SortNewestFirst | src/agents/tester_agent.py:338 | the sorted history is a permutation of its input |
| Tester.InsertKeepsNewestFirst | src/agents/tester_agent.py:338 | inserting into a history ordered newest-first by timestamp string keeps it ordered |
| Tester.SortIsNewestFirst | src/agents/tester_agent.py:338 | the sorted history is ordered by timestamp string, descending |
| Tester.AdviceFor | src/agents/tester_agent.py:349-362 | a latest "failed" result gives 3 lines, "partial_pass" 2, anything else 1; the no-history line never appears |
| Tester.TesterAgent.TestProject | src/agents/tester_agent.py:20-60 | returns TestProjectReport; the store gains the report under the project's timestamped file exactly when tests ran, and changes in no other way |
| Tester.Saved | src/agents/tester_agent.py:311-320 | a report whose tests ran is stored under the project's name and timestamp, replacing a file of the same second; an error report stores nothing; every other file is unchanged |
| Tester.ScanResults | src/agents/tester_agent.py:327-335 | the glob loop reads every file of the project exactly once and appends that file's entry, in the order the files were read |
| Tester.EntriesOfFilesMembers | src/agents/tester_agent.py:327-335 | an entry is among those read from a list of files exactly when some file in the list holds it |
| Tester.TesterAgent.GetTestHistory | src/agents/tester_agent.py:322-338 | the entries, as a multiset, are one per result file of the project, each file read once; as a set they are exactly the project's entries; they are ordered newest first by the timestamp read back from each file name |
| Tester.TesterAgent.GetFeedbackForReactAgent | src/agents/tester_agent.py:340-362 | exactly the no-history line when the project has no result file; otherwise the advice for the overall status of a file whose read-back timestamp is greatest (any one of them on a tie) |
| Deployer.StopActions | src/agents/deployer_agent.py:159-169 | a stop first terminates and waits up to 5 seconds; it kills and waits again exactly when the process ignored the terminate signal |
| Deployer.AfterStop | src/agents/deployer_agent.py:149-187 | after a stop the name stays tracked exactly when it was tracked and the stop raised; other entries are untouched |
| Deployer.AfterStart | src/agents/deployer_agent.py:116-141 | an entry (pid, start time, path) is added only when the process is still alive after the startup wait; otherwise the table is unchanged |
| Deployer.InstallDependencies | src/agents/deployer_agent.py:53-98 | install succeeds iff there is no requirements.txt or pip exited 0; a failure carries pip's stderr, "Installation timed out", or the exception text |
| Deployer.LiveEntries | src/agents/deployer_agent.py:218-238 | the kept entries are exactly the tracked names whose process is alive, with their entries unchanged |
| Deployer.PollStatus | src/agents/deployer_agent.py:189-216 | "running" with the stored pid and start time iff tracked and alive; "not_running" iff untracked; otherwise "stopped" |
| Deployer.AfterPoll | src/agents/deployer_agent.py:189-216 | a status poll removes the polled name exactly when it is tracked but dead, and nothing else |
| Deployer.AfterDeploy | src/agents/deployer_agent.py:18-51 | a missing project leaves the table unchanged; a successful deployment tracks the new process; a failed one leaves the name tracked only if the preliminary stop raised; other names are untouched |
| Deployer.DeployerAgent.StartApplication | src/agents/deployer_agent.py:100-147 | success iff the process is alive after the wait; the pid is reported then; an early exit reports its stderr; the table becomes AfterStart |
| Deployer.DeployerAgent.StopProject | src/agents/deployer_agent.py:149-187 | an untracked name succeeds with "was not running" and no change; a tracked name reports error iff the stop raised, and is removed otherwise |
| Deployer.DeployerAgent.GetProjectStatus | src/agents/deployer_agent.py:189-216 | returns PollStatus and leaves the table as AfterPoll |
| Deployer.DeployerAgent.ListRunningProjects | src/agents/deployer_agent.py:218-238 | lists each live process exactly once with its pid and start time, and drops every dead entry, by filtering over a snapshot of the keys |
| Deployer.DeployerAgent.RestartProject | src/agents/deployer_agent.py:240-260 | restart is stop then start at the project's path; its status is success iff the start succeeded, whatever the stop returned |
| Deployer.DeployerAgent.CheckHealth | src/agents/deployer_agent.py:262-295 | an untracked name is an error; a tracked one is healthy iff the probe answered 200; other codes are unhealthy; an exception is an error with its text |
| Deployer.DeployerAgent.CleanupAll | src/agents/deployer_agent.py:297-308 | a stop runs for every name present at call time; exactly the names whose stop raised remain; the table is empty when no stop raised |
| Deployer.DeployerAgent.DeployProject | src/agents/deployer_agent.py:18-51 | success iff the project exists, installs and starts; a missing project or failed install returns its error before any start; the table becomes AfterDeploy |
| Deployer.ListRunningAsWritten | src/agents/deployer_agent.py:223-236 | the listing as written completes only when every process it meets is alive, and then lists one entry per name in iteration order and leaves the table unchanged; otherwise it raises after deleting exactly one dead entry |
| Deployer.AsWrittenListingRaises | src/agents/deployer_agent.py:223-236 | the listing as written raises once any tracked process is dead, after removing that one entry |
| Deployer.AsWrittenListingRaisesOnOneDeadProcess | src/agents/deployer_agent.py:223-236 | the listing as written raises on a table holding one dead process |
| Coordinator.ChosenName | src/agents/coordinator_agent.py:29-30 | a given project name is kept; an empty one becomes "project_" followed by the timestamp |
| Coordinator.PassesRun | src/agents/coordinator_agent.py:99-121 | the number of passes run is between 1 and the cap; every pass before the last failed; the last passed or reached the cap |
| Coordinator.Verdicts | src/agents/coordinator_agent.py:103-121 | one verdict per possible pass (5); verdict i holds iff pass i+1's report is "all_passed" |
| Coordinator.CycleHistory | src/agents/coordinator_agent.py:110-115 | n passes leave exactly n history entries; entry i is pass i+1's, numbered i+1, with that pass's test report and time |
| Coordinator.PassesRunOfVerdicts | src/agents/coordinator_agent.py:103-121 | the loop stops at the first all-passed pass or at pass 5, and at no other pass |
| Coordinator.ResultsAfterKeepsOtherProjects | src/agents/coordinator_agent.py:103-147 | the loop's test runs leave the result files of other projects untouched |
| Coordinator.ResultsAfterSavesEveryTestedPass | src/agents/coordinator_agent.py:103-147 | every pass whose tests ran has its result file saved |
| Coordinator.RunningAfterKeepsOtherProjects | src/agents/coordinator_agent.py:127-144 | restarts inside the loop touch only the project's own process entry |
| Coordinator.RunningAfterWithoutRestarts | src/agents/coordinator_agent.py:127-144 | a loop in which no pass restarts leaves the process table unchanged |
| Coordinator.RunningAfterLastRestart | src/agents/coordinator_agent.py:127-144 | after the loop, the project is tracked with the pid of its last restart when that start survived, and untracked when it did not and its stop did not raise |
| Coordinator.JoinedFeedback | src/agents/coordinator_agent.py:132 | joining the feedback lines gives "" for none and the line itself for one; otherwise the text starts with the first line and has no newline the lines did not have |
| Coordinator.Pruned | src/agents/coordinator_agent.py:197-213 | polling a set of names removes exactly the tracked dead ones among them, and keeps other entries unchanged |
| Coordinator.CoordinatorAgent.HandleError | src/agents/coordinator_agent.py:155-171 | sets status "error" and stores the message, details and end time; returns an error for the same project name |
| Coordinator.CoordinatorAgent.RunPass | src/agents/coordinator_agent.py:103-147 | one pass appends exactly one numbered history entry and saves its test run; a fix is requested exactly when the outcome is "failed" or "partial_pass"; the process table changes only by a restart after a successful fix |
| Coordinator.CoordinatorAgent.RunIterativeCycle | src/agents/coordinator_agent.py:96-153 | runs PassesRun passes (1..5) and reports all-passed iff the last pass passed; the history gains exactly the n entries numbered 1..n, earlier entries unchanged |
| Coordinator.CoordinatorAgent.StartDevelopmentCycle | src/agents/coordinator_agent.py:26-94 | plan, build and deploy in order; the first failure reports "Planning failed", "Development failed" or "Deployment failed" and runs nothing after it; on success the record is completed with the loop's count; only this project's record changes |
| Coordinator.CoordinatorAgent.DeployAndIterate | src/agents/coordinator_agent.py:64-91 | a failed deployment goes to the error handler with the deployer's result and runs no loop; a successful one runs the loop and marks the record completed with the loop's count |
| Coordinator.CoordinatorAgent.GetProjectStatus | src/agents/coordinator_agent.py:173-195 | an unknown name is reported missing and changes nothing; a known one is reported with its record and the deployer's status, which may drop a dead process |
| Coordinator.CoordinatorAgent.ListActiveProjects | src/agents/coordinator_agent.py:197-213 | one summary per known project, no duplicates, each with the deployer's status; dead processes of known projects are dropped |
| Coordinator.CoordinatorAgent.StopProject | src/agents/coordinator_agent.py:215-236 | an unknown name is an error and changes nothing; a known one is always marked "stopped" and succeeds, with the deployer's stop applied |
| Coordinator.CoordinatorAgent.RestartProject | src/agents/coordinator_agent.py:238-254 | an unknown name is an error and changes nothing; a known one is marked running/deployed only when the deployer's restart succeeded |
| Coordinator.CoordinatorAgent.RunAdditionalTests | src/agents/coordinator_agent.py:256-275 | an unknown name is an error and changes nothing; a known one gets one history entry tagged "additional" holding the test report |
| Coordinator.CoordinatorAgent.CleanupAll | src/agents/coordinator_agent.py:277-292 | every project is forgotten; exactly the processes whose stop raised remain tracked |
| Coordinator.CoordinatorAgent.GetSystemStatus | src/agents/coordinator_agent.py:294-315 | active is the number of records; running counts the known projects whose process is alive, so it is at most active; max iterations is 5 |
| EnhancedCoordinator.EarlyHalt | src/agents/enhanced_coordinator_agent.py:55-122 | the cycle ends early exactly when planning, app creation, repository creation or push does not succeed (the first one that fails), or when the Pages call raises |
| EnhancedCoordinator.FinalRecord | src/agents/enhanced_coordinator_agent.py:40-199 | a reported failure leaves status "starting" at the failing phase, an exception sets "error", otherwise "completed" with 3 iterations; the repository, Pages and local URLs are set exactly when their steps succeeded |
| EnhancedCoordinator.CycleOutcome | src/agents/enhanced_coordinator_agent.py:59-203 | an error exactly when the cycle halts early, carrying the phase's message or the exception's text; otherwise the data reports the final record's 3 iterations and its URLs |
| EnhancedCoordinator.SavedRunsKeepOtherProjects | src/agents/enhanced_coordinator_agent.py:138-152 | the cycle's test runs touch only the project's own result files |
| EnhancedCoordinator.EnhancedCoordinatorAgent.Crash | src/agents/enhanced_coordinator_agent.py:198-203 | the exception handler marks the record "error" and returns "Development cycle failed: " with the exception's text |
| EnhancedCoordinator.EnhancedCoordinatorAgent.Deploy | src/agents/enhanced_coordinator_agent.py:124-134 | a successful deployment marks "deployed" and sets the local URL; a failed one marks "deployed_with_issues" and leaves the URL unset |
| EnhancedCoordinator.EnhancedCoordinatorAgent.TestAndImprove | src/agents/enhanced_coordinator_agent.py:136-173 | one test run, then three improvement passes each testing again; the record ends in the improvement phase with iteration 3 |
| EnhancedCoordinator.EnhancedCoordinatorAgent.StartAdvancedDevelopment | src/agents/enhanced_coordinator_agent.py:33-203 | returns CycleOutcome and leaves the project's record as FinalRecord, other records unchanged; deployment and tests happen only when the cycle does not halt early |
| EnhancedCoordinator.EnhancedCoordinatorAgent.GetProjectStatus | src/agents/enhanced_coordinator_agent.py:205-230 | an unknown name is an error with "Project not found"; a known one returns its record |
| EnhancedCoordinator.EnhancedCoordinatorAgent.GetSystemStats | src/agents/enhanced_coordinator_agent.py:251-267 | total is the number of projects; each of the active, completed and deployed counts is at most total, and active plus completed is at most total |

## Left out

- Subprocesses, psutil, HTTP requests, `asyncio.sleep` waits and `time.time()` are parameters, not computations: exit codes, liveness, replies and timestamps.
- File contents are not modelled. The tester's result files are a map from (project, timestamp) to the saved report. JSON encoding is not modelled.
- The tester reads history with the glob `<project>_test_*.json`. That glob also matches the files of another project whose name begins with `<project>_test_`. The model keys files by project name, so this collision is not modelled.
- Floating-point values are left out: `total_time`, `uptime`, the `success_rate` percentage string, and the health check's `response_time`.
- The health check's JSON body is left out.
- asyncio concurrency between projects is left out. Each operation runs sequentially, so transient statuses that another request could observe mid-cycle are not modelled.
- The outer exception handler of the TestSprite step (src/agents/tester_agent.py:163-167) is left out. Its inner steps already turn every exception into a result.
- The planner, the code-writing agent and the GitHub service are parameters. Their internals are not part of this model.
- The coordinator's fix request is ghost. Its reply is a parameter that does not depend on the feedback text.
- An exception raised by the code-writing agent inside the coordinator's loop is not modelled.
- `fix_project_issues` is not part of this model. The enhanced loop reaches it only through a test result's "issues" entry, which `test_project` never returns, so that branch and its re-push are left out.
- `EnhancedCoordinator.get_all_projects` is left out. It only copies fields of each record into a list.
- `project_id` is left out. The enhanced workflow computes it and never uses it.
- The coordinator's "not_found" and "error" status labels for unknown names are one `ProjectMissing` case. The operation determines the label: `get_project_status` answers "not_found", and stop, restart and additional tests answer "error". All of them carry the same "Project <name> not found" message.
- Coordinator.CoordinatorAgent.ListActiveProjects and Deployer.DeployerAgent.ListRunningProjects: the source returns entries in the dictionary's insertion order. The model takes names from a set in an unspecified order, and its contracts state no order.
- A test report's overall status and feedback are derived from the stored step results, not stored beside them.
- The printed progress messages are left out.
- Tester.TesterAgent.constructor: the result store starts empty. In the source, the results directory is created with `exist_ok` and keeps its files across agent instances, so a new agent can read history saved by an earlier one.
- Tester.AdviceFor: states the number of lines per outcome and that the no-history line is absent, not the wording of each advice line.

## Findings

| source | as written | input that shows it | evidently intended | confidence | as-written member | corrected member |
|---|---|---|---|---|---|---|
| src/agents/deployer_agent.py:223-236 | `list_running_projects` deletes a dead process's entry from `running_processes` while iterating over it, so the next step of the iteration raises RuntimeError | a table holding one tracked process that is no longer alive | drop the dead entries and list the live ones, iterating over a snapshot of the keys as `cleanup_all` does at line 302 | not executed | Deployer.ListRunningAsWritten, Deployer.AsWrittenListingRaises | Deployer.DeployerAgent.ListRunningProjects |
