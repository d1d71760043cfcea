/**
 * The tester agent: runs a project's local pytest suite and the TestSprite
 * service, folds both into one overall verdict and a feedback list, keeps
 * every report in a results directory, and turns the newest saved report
 * into advice for the code-fixing agent.
 *
 * Subprocess runs, HTTP exchanges, the file system and the clock are not
 * performed here: what they produced is handed in as a `TestEnv`.
 */
module Tester {
  import opened Common

  /** The "overall_status" of a test report. */
  datatype Outcome = AllPassed | PartialPass | Failed

  // ---------------------------------------------------------------------
  // Local tests (pytest under tests/, 60-second timeout)
  // ---------------------------------------------------------------------

  /** What `python -m pytest tests/` did when it was started. */
  datatype PytestRun =
    | PytestFinished(returnCode: int, stdout: string, stderr: string)
    | PytestTimedOut
    | PytestRaised(message: string)

  /** The result dictionary of the local test step, one constructor per "status". */
  datatype LocalResult =
    | LocalSkipped
    | LocalCompleted(returnCode: int, stdout: string, stderr: string)
    | LocalTimeout
    | LocalError(message: string)
  {
    /** `local_tests.get("success", False)`: only a completed run has the entry. */
    predicate Success()
    {
      LocalCompleted? && returnCode == 0
    }
  }

  /** The local test step: skipped without a tests directory, otherwise the pytest run's outcome. */
  function RunLocalTests(hasTestsDir: bool, run: PytestRun): (r: LocalResult)
    ensures r.LocalSkipped? <==> !hasTestsDir
    ensures r.Success() <==> hasTestsDir && run.PytestFinished? && run.returnCode == 0
    ensures r.LocalTimeout? <==> hasTestsDir && run.PytestTimedOut?
    ensures r.LocalCompleted? ==> run.PytestFinished? && r.returnCode == run.returnCode && r.stderr == run.stderr
    ensures r.LocalError? ==> run == PytestRaised(r.message)
  {
    if !hasTestsDir then LocalSkipped
    else match run
      case PytestFinished(code, out, err) => LocalCompleted(code, out, err)
      case PytestTimedOut => LocalTimeout
      case PytestRaised(msg) => LocalError(msg)
  }

  // ---------------------------------------------------------------------
  // TestSprite tests (health probe, test generation, test execution)
  // ---------------------------------------------------------------------

  /** The reply to POST /generate-tests, or the exception it raised. */
  datatype GenerationReply = GenerationAnswered(statusCode: int, testCases: string) | GenerationRaised(message: string)

  datatype GenerationResult =
    | Generated(testCases: string)
    | GenerationRejected(statusCode: int)
    | GenerationFailed(message: string)

  /** Test generation succeeds exactly when the service answers 200. */
  function GenerateTestCases(reply: GenerationReply): (r: GenerationResult)
    ensures r.Generated? <==> reply.GenerationAnswered? && reply.statusCode == 200
    ensures r.Generated? ==> r.testCases == reply.testCases
    ensures r.GenerationFailed? <==> reply.GenerationRaised?
  {
    match reply
    case GenerationAnswered(code, cases) => if code == 200 then Generated(cases) else GenerationRejected(code)
    case GenerationRaised(msg) => GenerationFailed(msg)
  }

  /**
   * The reply to POST /execute-tests: its status code and the "passed" and
   * "failed" counts of its body (0 where the body lacks them), or the
   * exception it raised.
   */
  datatype ExecutionReply = ExecutionAnswered(statusCode: int, passed: int, failed: int) | ExecutionRaised(message: string)

  datatype ExecutionResult =
    | ExecutionSkipped
    | Executed(passed: int, failed: int)
    | ExecutionRejected(statusCode: int)
    | ExecutionFailed(message: string)
  {
    /** `test_execution.get("success", False)`: an executed run succeeds when at least one test passed. */
    predicate Success()
    {
      Executed? && passed > 0
    }
  }

  /** Execution is skipped unless generation succeeded; it succeeds iff some test passed. */
  function ExecuteTestCases(generation: GenerationResult, reply: ExecutionReply): (r: ExecutionResult)
    ensures !generation.Generated? ==> r == ExecutionSkipped
    ensures r.Executed? <==> generation.Generated? && reply.ExecutionAnswered? && reply.statusCode == 200
    ensures r.Success() <==> generation.Generated? && reply.ExecutionAnswered? && reply.statusCode == 200 && reply.passed > 0
  {
    if !generation.Generated? then ExecutionSkipped
    else match reply
      case ExecutionAnswered(code, passed, failed) =>
        if code == 200 then Executed(passed, failed) else ExecutionRejected(code)
      case ExecutionRaised(msg) => ExecutionFailed(msg)
  }

  datatype SpriteResult =
    | SpriteUnavailable
    | SpriteCompleted(generation: GenerationResult, execution: ExecutionResult)
  {
    /** `testsprite_tests.get("success", False)` */
    predicate Success()
    {
      SpriteCompleted? && execution.Success()
    }
  }

  /**
   * The TestSprite step: unavailable unless its health endpoint answers 200;
   * otherwise generation followed by execution, successful when execution is.
   */
  function RunTestSpriteTests(health: Probe, generation: GenerationReply, execution: ExecutionReply): (r: SpriteResult)
    ensures r.SpriteUnavailable? <==> health != Answered(200)
    ensures r.SpriteCompleted? ==> r.generation == GenerateTestCases(generation)
    ensures r.Success() <==> health == Answered(200) && ExecuteTestCases(GenerateTestCases(generation), execution).Success()
  {
    if health != Answered(200) then SpriteUnavailable
    else
      var g := GenerateTestCases(generation);
      SpriteCompleted(g, ExecuteTestCases(g, execution))
  }

  // ---------------------------------------------------------------------
  // Combining the two steps
  // ---------------------------------------------------------------------

  /** The two-input decision table behind "overall_status". */
  function DetermineOverallStatus(local: LocalResult, sprite: SpriteResult): (r: Outcome)
    ensures r == AllPassed <==> local.Success() && sprite.Success()
    ensures r == PartialPass <==> local.Success() != sprite.Success()
    ensures r == Failed <==> !local.Success() && !sprite.Success()
  {
    if local.Success() && sprite.Success() then AllPassed
    else if local.Success() || sprite.Success() then PartialPass
    else Failed
  }

  // Every feedback line opens with one of these markers.
  const PassMark: string := "✅ "
  const FailMark: string := "❌ "
  const WarnMark: string := "⚠️ "
  const CheerMark: string := "🎉 "
  const AlarmMark: string := "🚨 "

  const LocalPassedMsg: string := PassMark + "Local tests passed successfully"
  const LocalFailedMsg: string := FailMark + "Local tests failed - check test output for details"
  const NoLocalTestsMsg: string := WarnMark + "No local tests found - consider adding test files"
  const SpritePassedMsg: string := PassMark + "TestSprite tests passed successfully"
  const SpriteFailedMsg: string := FailMark + "TestSprite tests failed - check API implementation"
  const SpriteUnavailableMsg: string := WarnMark + "TestSprite not available - using local tests only"
  const AllPassedMsg: string := CheerMark + "All tests passed! Project is ready for production."
  const PartialPassMsg: string := WarnMark + "Some tests passed, but improvements needed."
  const FailedMsg: string := AlarmMark + "Tests failed - code needs fixes before deployment."

  /** Python's `s[:200]`. */
  function Prefix200(s: string): (r: string)
    ensures |r| == if |s| <= 200 then |s| else 200
    ensures r == s[..|r|]
  {
    if |s| <= 200 then s else s[..200]
  }

  /** The line quoting a failed local run's stderr: at most its first 200 characters, then "...". */
  function ErrorDetails(stderr: string): (r: string)
    ensures 18 <= |r| <= 15 + 200 + 3
    ensures r[..15] == "Error details: " && r[0] == 'E'
    ensures |r| - 18 == (if |stderr| <= 200 then |stderr| else 200)
    ensures r[15..|r| - 3] == stderr[..|r| - 18] && r[|r| - 3..] == "..."
  {
    "Error details: " + Prefix200(stderr) + "..."
  }

  /** The closing line of every feedback list. */
  function OverallMessage(o: Outcome): string
  {
    match o
    case AllPassed => AllPassedMsg
    case PartialPass => PartialPassMsg
    case Failed => FailedMsg
  }

  predicate IsOverallMessage(m: string)
  {
    m == AllPassedMsg || m == PartialPassMsg || m == FailedMsg
  }

  /** The step lines differ from the overall lines by their marker or, for warnings, their length. */
  lemma StepLinesAreNotOverall()
    ensures !IsOverallMessage(LocalPassedMsg) && !IsOverallMessage(LocalFailedMsg)
    ensures !IsOverallMessage(NoLocalTestsMsg) && !IsOverallMessage(SpritePassedMsg)
    ensures !IsOverallMessage(SpriteFailedMsg) && !IsOverallMessage(SpriteUnavailableMsg)
  {
    assert AllPassedMsg[0] == '🎉' && FailedMsg[0] == '🚨' && PartialPassMsg[0] == '⚠';
    assert LocalPassedMsg[0] == '✅' && SpritePassedMsg[0] == '✅';
    assert LocalFailedMsg[0] == '❌' && SpriteFailedMsg[0] == '❌';
    assert |NoLocalTestsMsg| != |PartialPassMsg| && |SpriteUnavailableMsg| != |PartialPassMsg|;
  }

  /** Feedback about the local step: a pass line, a fail line with stderr details, a warning, or nothing. */
  function LocalFeedback(local: LocalResult): (r: seq<string>)
    ensures local.Success() ==> r == [LocalPassedMsg]
    ensures local.LocalCompleted? && !local.Success() ==>
      |r| == (if local.stderr == "" then 1 else 2) && r[0] == LocalFailedMsg &&
      (local.stderr != "" ==> r[1] == ErrorDetails(local.stderr))
    ensures local.LocalSkipped? ==> r == [NoLocalTestsMsg]
    ensures local.LocalTimeout? || local.LocalError? ==> r == []
    ensures forall m :: m in r ==> !IsOverallMessage(m)
  {
    StepLinesAreNotOverall();
    match local
    case LocalCompleted(_, _, stderr) =>
      if local.Success() then [LocalPassedMsg]
      else if stderr != "" then
        var details := ErrorDetails(stderr);
        assert AllPassedMsg[0] != 'E' && PartialPassMsg[0] != 'E' && FailedMsg[0] != 'E';
        [LocalFailedMsg, details]
      else [LocalFailedMsg]
    case LocalSkipped =>
      [NoLocalTestsMsg]
    case _ => []
  }

  /** Feedback about the TestSprite step: a pass or fail line, a warning, or nothing. */
  function SpriteFeedback(sprite: SpriteResult): (r: seq<string>)
    ensures sprite.SpriteCompleted? ==> r == [if sprite.Success() then SpritePassedMsg else SpriteFailedMsg]
    ensures sprite.SpriteUnavailable? ==> r == [SpriteUnavailableMsg]
    ensures forall m :: m in r ==> !IsOverallMessage(m)
  {
    StepLinesAreNotOverall();
    match sprite
    case SpriteCompleted(_, _) =>
      if sprite.Success() then [SpritePassedMsg]
      else [SpriteFailedMsg]
    case SpriteUnavailable => [SpriteUnavailableMsg]
  }

  /**
   * The feedback list: local lines, then TestSprite lines, then exactly one
   * overall line, the one matching the overall status.
   */
  function GenerateFeedback(local: LocalResult, sprite: SpriteResult): (r: seq<string>)
    ensures 1 <= |r| <= 4
    ensures r[|r| - 1] == OverallMessage(DetermineOverallStatus(local, sprite))
    ensures forall i :: 0 <= i < |r| - 1 ==> !IsOverallMessage(r[i])
    ensures r[..|r| - 1] == LocalFeedback(local) + SpriteFeedback(sprite)
  {
    var parts := LocalFeedback(local) + SpriteFeedback(sprite);
    assert forall i :: 0 <= i < |parts| ==> parts[i] in LocalFeedback(local) || parts[i] in SpriteFeedback(sprite);
    parts + [OverallMessage(DetermineOverallStatus(local, sprite))]
  }

  // ---------------------------------------------------------------------
  // test_project
  // ---------------------------------------------------------------------

  /** Everything one call of test_project observes of the outside world. */
  datatype TestEnv = TestEnv(
    projectExists: bool,      // custom_projects/<name> exists
    health: Probe,            // GET :8001/api/health
    hasTestsDir: bool,        // custom_projects/<name>/tests exists
    pytest: PytestRun,
    spriteHealth: Probe,      // GET <testsprite>/health
    generation: GenerationReply,
    execution: ExecutionReply,
    timestamp: string         // time.strftime("%Y%m%d_%H%M%S") when the report is saved
  )

  datatype TestErrorReason = ProjectNotFound | NotRunningOrUnhealthy

  /**
   * The dictionary test_project returns: an error, or the combined result.
   * A combined result's "overall_status" and "feedback" entries are computed
   * from its two step results alone, so they are derived here rather than
   * stored.
   */
  datatype TestReport =
    | TestError(reason: TestErrorReason)
    | Tested(local: LocalResult, sprite: SpriteResult)
  {
    /** "overall_status" of a combined result. */
    function Overall(): Outcome
      requires Tested?
    {
      DetermineOverallStatus(local, sprite)
    }

    /** "feedback" of a combined result. */
    function Feedback(): seq<string>
      requires Tested?
    {
      GenerateFeedback(local, sprite)
    }
  }

  /** `test_result.get("overall_status")` */
  function OverallStatusOf(r: TestReport): Option<Outcome>
  {
    if r.Tested? then Some(r.Overall()) else None
  }

  /**
   * What test_project returns: an error for a missing project directory or
   * an unhealthy project (no test is run then), otherwise the combination of
   * the local and TestSprite steps.
   */
  function TestProjectReport(env: TestEnv): (r: TestReport)
    ensures r == TestError(ProjectNotFound) <==> !env.projectExists
    ensures r == TestError(NotRunningOrUnhealthy) <==> env.projectExists && env.health != Answered(200)
    ensures r.Tested? ==>
      && r.local == RunLocalTests(env.hasTestsDir, env.pytest)
      && r.sprite == RunTestSpriteTests(env.spriteHealth, env.generation, env.execution)
  {
    if !env.projectExists then TestError(ProjectNotFound)
    else if env.health != Answered(200) then TestError(NotRunningOrUnhealthy)
    else
      var local := RunLocalTests(env.hasTestsDir, env.pytest);
      var sprite := RunTestSpriteTests(env.spriteHealth, env.generation, env.execution);
      Tested(local, sprite)
  }

  /** A combined report says all_passed exactly when both steps succeeded. */
  lemma AllPassedNeedsBothSteps(env: TestEnv)
    ensures OverallStatusOf(TestProjectReport(env)) == Some(AllPassed) <==>
      && env.projectExists && env.health == Answered(200)
      && RunLocalTests(env.hasTestsDir, env.pytest).Success()
      && RunTestSpriteTests(env.spriteHealth, env.generation, env.execution).Success()
  {
  }

  // ---------------------------------------------------------------------
  // Saved results and history
  // ---------------------------------------------------------------------

  /** A file `<project>_test_<timestamp>.json` in the results directory. */
  datatype ResultFile = ResultFile(project: string, timestamp: string)

  /** One element of get_test_history's list. */
  datatype HistoryEntry = HistoryEntry(
    timestamp: string,
    overall: Option<Outcome>,
    localSuccess: Option<bool>,
    spriteSuccess: Option<bool>)

  /** The text between a project's name and the timestamp in a result file's name. */
  const TestSep: string := "_test_"

  /** The separator starts at index `i` of `s`. */
  predicate SepAt(s: string, i: nat)
  {
    i + |TestSep| <= |s| && s[i..i + |TestSep|] == TestSep
  }

  /** The first index at or after `from` where the separator starts, if any. */
  function FindSep(s: string, from: nat): (r: Option<nat>)
    ensures r.Some? ==> from <= r.value && SepAt(s, r.value)
    ensures r.Some? ==> forall i :: from <= i < r.value ==> !SepAt(s, i)
    ensures r.None? ==> forall i :: from <= i ==> !SepAt(s, i)
    decreases |s| - from
  {
    if from + |TestSep| > |s| then None
    else if SepAt(s, from) then Some(from)
    else FindSep(s, from + 1)
  }

  /** A separator with none before it is the one FindSep finds. */
  lemma FindFirstSep(s: string, k: nat)
    requires SepAt(s, k) && forall i :: 0 <= i < k ==> !SepAt(s, i)
    ensures FindSep(s, 0) == Some(k)
  {
  }

  /**
   * `results_file.stem.split("_test_")[1]` for the file of `project` saved at
   * `timestamp`: the text after the first separator of the stem, up to the
   * next one. A project whose name holds the separator reads back part of its
   * own name instead of the timestamp.
   */
  function ParsedTimestamp(project: string, timestamp: string): (r: string)
    ensures forall i: nat :: !SepAt(r, i)
  {
    var stem := project + TestSep + timestamp;
    assert SepAt(stem, |project|) by {
      assert stem[|project|..|project| + |TestSep|] == TestSep;
    }
    UpToSep(stem[FindSep(stem, 0).value + |TestSep|..])
  }

  /** The text before the first separator, or all of it when there is none. */
  function UpToSep(rest: string): (r: string)
    ensures |r| <= |rest| && r == rest[..|r|]
    ensures NoSepIn(rest, 0, |r|)
    ensures |r| == |rest| || SepAt(rest, |r|)
    ensures forall i: nat :: !SepAt(r, i)
  {
    match FindSep(rest, 0)
    case None => rest
    case Some(j) =>
      assert forall i: nat :: !SepAt(rest[..j], i) by {
        forall i: nat | SepAt(rest[..j], i)
          ensures false
        {
          assert rest[..j][i..i + |TestSep|] == rest[i..i + |TestSep|];
          assert SepAt(rest, i);
        }
      }
      rest[..j]
  }

  /** No separator starts at an index in [lo, hi). */
  ghost predicate NoSepIn(s: string, lo: nat, hi: nat)
  {
    forall i: nat :: lo <= i < hi ==> !SepAt(s, i)
  }

  /**
   * `r` is the second field of `s` split at the separator: the first
   * separator of `s` starts at `k`, `r` follows it, and `r` runs up to the
   * next separator or to the end of `s`.
   */
  ghost predicate SecondFieldAt(s: string, r: string, k: nat)
  {
    && SepAt(s, k) && NoSepIn(s, 0, k)
    && k + |TestSep| + |r| <= |s|
    && s[k + |TestSep|..k + |TestSep| + |r|] == r
    && NoSepIn(s, k + |TestSep|, k + |TestSep| + |r|)
    && (k + |TestSep| + |r| == |s| || SepAt(s, k + |TestSep| + |r|))
  }

  /** A separator in a suffix is a separator of the whole text, shifted. */
  lemma ShiftSep(s: string, d: nat, i: nat)
    requires d <= |s|
    ensures SepAt(s[d..], i) <==> SepAt(s, d + i)
  {
    if d + i + |TestSep| <= |s| {
      assert s[d..][i..i + |TestSep|] == s[d + i..d + i + |TestSep|];
    }
  }

  /** ParsedTimestamp is the second field of the stem split at the separator. */
  lemma ParsedTimestampIsSecondField(project: string, timestamp: string)
    ensures exists k: nat :: SecondFieldAt(project + TestSep + timestamp, ParsedTimestamp(project, timestamp), k)
  {
    var stem := project + TestSep + timestamp;
    assert SepAt(stem, |project|) by {
      assert stem[|project|..|project| + |TestSep|] == TestSep;
    }
    var found := FindSep(stem, 0);
    assert found.Some?;
    var first := found.value;
    assert NoSepIn(stem, 0, first) by {
      forall i: nat | 0 <= i < first
        ensures !SepAt(stem, i)
      {
      }
    }
    SecondFieldAfterFirstSep(stem, first);
    assert ParsedTimestamp(project, timestamp) == UpToSep(stem[first + |TestSep|..]);
    assert SecondFieldAt(stem, ParsedTimestamp(project, timestamp), first);
  }

  /** The text after the first separator, up to the next, is the second field. */
  lemma SecondFieldAfterFirstSep(s: string, first: nat)
    requires SepAt(s, first) && NoSepIn(s, 0, first)
    ensures SecondFieldAt(s, UpToSep(s[first + |TestSep|..]), first)
  {
    var start := first + |TestSep|;
    var rest := s[start..];
    var r := UpToSep(rest);
    forall i: nat | start <= i < start + |r|
      ensures !SepAt(s, i)
    {
      ShiftSep(s, start, i - start);
    }
    if |r| < |rest| {
      ShiftSep(s, start, |r|);
    }
    assert s[start..start + |r|] == rest[..|r|];
  }

  /**
   * A project name in which the only separator of `<name>_test_` is the
   * appended one reads back exactly the timestamp it was saved under.
   */
  lemma ParsedTimestampOfPlainName(project: string, timestamp: string)
    requires forall i: nat :: i < |project| ==> !SepAt(project + TestSep, i)
    requires forall i: nat :: !SepAt(timestamp, i)
    ensures ParsedTimestamp(project, timestamp) == timestamp
  {
    var stem := project + TestSep + timestamp;
    assert stem[|project|..|project| + |TestSep|] == TestSep;
    forall i: nat | i < |project|
      ensures !SepAt(stem, i)
    {
      assert !SepAt(project + TestSep, i);
      assert stem[i..i + |TestSep|] == (project + TestSep)[i..i + |TestSep|];
    }
    FindFirstSep(stem, |project|);
    assert stem[|project| + |TestSep|..] == timestamp;
  }

  /**
   * Two reports of project "unit_test_app", saved a day apart, both read back
   * the timestamp "app", so their order in the sorted history is the order
   * the directory listing happened to give.
   */
  lemma ParsedTimestampOfSeparatorInName()
    ensures ParsedTimestamp("unit_test_app", "20250101_120000") == "app"
    ensures ParsedTimestamp("unit_test_app", "20250102_120000") == "app"
  {
    NoSepWithoutT("20250101_120000");
    NoSepWithoutT("20250102_120000");
    ParsedAppSuffix("20250101_120000");
    ParsedAppSuffix("20250102_120000");
  }

  /** The separator holds a 't', so a text without one holds no separator. */
  lemma NoSepWithoutT(s: string)
    requires 't' !in s
    ensures forall i: nat :: !SepAt(s, i)
  {
    forall i: nat
      ensures !SepAt(s, i)
    {
      if i + |TestSep| <= |s| {
        assert s[i..i + |TestSep|][1] == s[i + 1];
      }
    }
  }

  lemma ParsedAppSuffix(timestamp: string)
    requires forall i: nat :: !SepAt(timestamp, i)
    ensures ParsedTimestamp("unit_test_app", timestamp) == "app"
  {
    var stem := "unit_test_app" + TestSep + timestamp;
    assert stem[4..10] == TestSep;
    forall i: nat | i < 4
      ensures !SepAt(stem, i)
    {
      assert stem[i] != '_';
      assert stem[i..i + |TestSep|][0] == stem[i];
    }
    FindFirstSep(stem, 4);
    var rest := stem[10..];
    assert rest == "app" + TestSep + timestamp;
    assert rest[3..9] == TestSep;
    forall i: nat | i < 3
      ensures !SepAt(rest, i)
    {
      assert rest[i] != '_';
      assert rest[i..i + |TestSep|][0] == rest[i];
    }
    FindFirstSep(rest, 3);
    assert rest[..3] == "app";
  }

  /** What get_test_history reads back from one saved result file. */
  function EntryOf(f: ResultFile, saved: TestReport): (e: HistoryEntry)
    ensures e.timestamp == ParsedTimestamp(f.project, f.timestamp) && e.overall == OverallStatusOf(saved)
    ensures e.localSuccess.Some? <==> saved.Tested? && saved.local.LocalCompleted?
    ensures e.localSuccess.Some? ==> e.localSuccess.value == saved.local.Success()
    ensures e.spriteSuccess.Some? <==> saved.Tested? && saved.sprite.SpriteCompleted?
    ensures e.spriteSuccess.Some? ==> e.spriteSuccess.value == saved.sprite.Success()
  {
    HistoryEntry(
      ParsedTimestamp(f.project, f.timestamp),
      OverallStatusOf(saved),
      if saved.Tested? && saved.local.LocalCompleted? then Some(saved.local.Success()) else None,
      if saved.Tested? && saved.sprite.SpriteCompleted? then Some(saved.sprite.Success()) else None)
  }

  /** Ordered by timestamp string, newest first (`sorted(..., reverse=True)`). */
  ghost predicate NewestFirst(h: seq<HistoryEntry>)
  {
    forall i, j :: 0 <= i < j < |h| ==> !StrLess(h[i].timestamp, h[j].timestamp)
  }

  /** Inserts `e` before the first entry that is not newer than it. */
  function InsertByTimestamp(e: HistoryEntry, s: seq<HistoryEntry>): (r: seq<HistoryEntry>)
    ensures multiset(r) == multiset(s) + multiset{e}
  {
    if s == [] || !StrLess(e.timestamp, s[0].timestamp) then [e] + s
    else
      assert s == [s[0]] + s[1..];
      [s[0]] + InsertByTimestamp(e, s[1..])
  }

  /** Python's `sorted(history, key=timestamp, reverse=True)`, as an insertion sort. */
  function SortNewestFirst(s: seq<HistoryEntry>): (r: seq<HistoryEntry>)
    ensures multiset(r) == multiset(s)
  {
    if s == [] then []
    else
      assert s == [s[0]] + s[1..];
      InsertByTimestamp(s[0], SortNewestFirst(s[1..]))
  }

  lemma {:induction false} InsertKeepsNewestFirst(e: HistoryEntry, s: seq<HistoryEntry>)
    requires NewestFirst(s)
    ensures NewestFirst(InsertByTimestamp(e, s))
  {
    if s != [] && StrLess(e.timestamp, s[0].timestamp) {
      var rest := InsertByTimestamp(e, s[1..]);
      InsertKeepsNewestFirst(e, s[1..]);
      forall x | x in rest
        ensures !StrLess(s[0].timestamp, x.timestamp)
      {
        assert x in multiset(rest);
        if x == e {
          StrLessAsymmetric(e.timestamp, s[0].timestamp);
        } else {
          assert x in multiset(s[1..]);
          var k :| 0 <= k < |s[1..]| && s[1..][k] == x;
          assert s[k + 1] == x;
        }
      }
      var r := [s[0]] + rest;
      forall i, j | 0 <= i < j < |r|
        ensures !StrLess(r[i].timestamp, r[j].timestamp)
      {
        if i == 0 {
          assert r[j] == rest[j - 1] && r[j] in rest;
        } else {
          assert r[i] == rest[i - 1] && r[j] == rest[j - 1];
        }
      }
    } else if s != [] {
      var r := [e] + s;
      forall i, j | 0 <= i < j < |r|
        ensures !StrLess(r[i].timestamp, r[j].timestamp)
      {
        if i == 0 && j > 1 {
          NotLessTransitive(e.timestamp, s[0].timestamp, s[j - 1].timestamp);
        }
      }
    }
  }

  /** The sorted history really is newest first. */
  lemma {:induction false} SortIsNewestFirst(s: seq<HistoryEntry>)
    ensures NewestFirst(SortNewestFirst(s))
  {
    if s != [] {
      SortIsNewestFirst(s[1..]);
      InsertKeepsNewestFirst(s[0], SortNewestFirst(s[1..]));
    }
  }

  const NoHistoryMsg: string := "No test history available"

  /** The advice get_feedback_for_react_agent derives from the newest report's overall status. */
  function AdviceFor(latest: Option<Outcome>): (r: seq<string>)
    ensures latest == Some(Failed) ==> |r| == 3
    ensures latest == Some(PartialPass) ==> |r| == 2
    ensures latest != Some(Failed) && latest != Some(PartialPass) ==> |r| == 1
    ensures NoHistoryMsg !in r
  {
    if latest == Some(Failed) then
      ["Code has critical issues that need immediate fixing",
       "Check API endpoints and error handling",
       "Verify all imports and dependencies are correct"]
    else if latest == Some(PartialPass) then
      ["Some functionality works but needs improvement",
       "Review failed test cases and fix accordingly"]
    else
      ["Code is working well, consider adding more features"]
  }

  /** The result files among `done` that belong to project `name`. */
  ghost function FilesIn(results: map<ResultFile, TestReport>, done: set<ResultFile>, name: string): set<ResultFile>
  {
    set f | f in done && f in results && f.project == name
  }

  /** The history entries read from those files. */
  ghost function EntriesIn(results: map<ResultFile, TestReport>, done: set<ResultFile>, name: string): set<HistoryEntry>
  {
    set f | f in done && f in results && f.project == name :: EntryOf(f, results[f])
  }

  /** The result store after test_project: a report that tested the project is saved under its timestamp. */
  function Saved(results: map<ResultFile, TestReport>, name: string, env: TestEnv): (r: map<ResultFile, TestReport>)
    ensures TestProjectReport(env).Tested? ==>
      ResultFile(name, env.timestamp) in r && r[ResultFile(name, env.timestamp)] == TestProjectReport(env)
    ensures !TestProjectReport(env).Tested? ==> r == results
    ensures forall f :: f != ResultFile(name, env.timestamp) ==> (f in r <==> f in results) && (f in r ==> r[f] == results[f])
  {
    var report := TestProjectReport(env);
    if report.Tested? then results[ResultFile(name, env.timestamp) := report] else results
  }

  /** The history entries read from `files`, in that order. */
  ghost function EntriesOfFiles(results: map<ResultFile, TestReport>, files: seq<ResultFile>): (r: seq<HistoryEntry>)
    requires forall f :: f in files ==> f in results
    ensures |r| == |files|
  {
    if files == [] then []
    else EntriesOfFiles(results, files[..|files| - 1]) + [EntryOf(files[|files| - 1], results[files[|files| - 1]])]
  }

  /** Appending a file not yet read keeps the files read distinct. */
  lemma AppendDistinct(files: seq<ResultFile>, f: ResultFile)
    requires forall i, j :: 0 <= i < j < |files| ==> files[i] != files[j]
    requires f !in files
    ensures forall i, j :: 0 <= i < j < |files + [f]| ==> (files + [f])[i] != (files + [f])[j]
  {
    forall i, j | 0 <= i < j < |files + [f]|
      ensures (files + [f])[i] != (files + [f])[j]
    {
      if j == |files| {
        assert files[i] in files;
      }
    }
  }

  /** Reading one more file appends its entry. */
  lemma EntriesOfFilesAppend(results: map<ResultFile, TestReport>, files: seq<ResultFile>, f: ResultFile)
    requires forall g :: g in files ==> g in results
    requires f in results
    ensures EntriesOfFiles(results, files + [f]) == EntriesOfFiles(results, files) + [EntryOf(f, results[f])]
  {
    assert (files + [f])[..|files|] == files;
  }

  /** An entry is read from `files` exactly when some file in it holds that entry. */
  lemma {:induction false} EntriesOfFilesMembers(results: map<ResultFile, TestReport>, files: seq<ResultFile>, e: HistoryEntry)
    requires forall f :: f in files ==> f in results
    ensures e in EntriesOfFiles(results, files) <==> exists f :: f in files && e == EntryOf(f, results[f])
  {
    if files != [] {
      var init, last := files[..|files| - 1], files[|files| - 1];
      EntriesOfFilesMembers(results, init, e);
      assert forall f :: f in files <==> f in init || f == last;
    }
  }

  /** A list of distinct files has as many files as its set. */
  lemma {:induction false} DistinctFilesCount(files: seq<ResultFile>)
    requires forall i, j :: 0 <= i < j < |files| ==> files[i] != files[j]
    ensures |set f | f in files| == |files|
  {
    if files != [] {
      var init, last := files[..|files| - 1], files[|files| - 1];
      DistinctFilesCount(init);
      assert last !in init;
      assert (set f | f in files) == (set f | f in init) + {last};
    }
  }

  /**
   * What the history loop knows once it has looked at the files in `done`:
   * `files` lists, each once, the files of project `name` among them, and
   * `collected` holds their entries in that order.
   */
  ghost predicate Scanned(results: map<ResultFile, TestReport>, name: string, done: set<ResultFile>,
                          files: seq<ResultFile>, collected: seq<HistoryEntry>)
  {
    (forall g :: g in files <==> g in done && g in results && g.project == name)
    && (forall i, j :: 0 <= i < j < |files| ==> files[i] != files[j])
    && collected == EntriesOfFiles(results, files)
  }

  /** Looking at a file of the project reads it and appends its entry. */
  lemma ScanOwnFile(results: map<ResultFile, TestReport>, name: string, done: set<ResultFile>,
                    files: seq<ResultFile>, collected: seq<HistoryEntry>, f: ResultFile)
    requires Scanned(results, name, done, files, collected)
    requires f in results && f.project == name && f !in done
    ensures Scanned(results, name, done + {f}, files + [f], collected + [EntryOf(f, results[f])])
  {
    EntriesOfFilesAppend(results, files, f);
    AppendDistinct(files, f);
  }

  /** Looking at a file of another project changes nothing read. */
  lemma ScanOtherFile(results: map<ResultFile, TestReport>, name: string, done: set<ResultFile>,
                      files: seq<ResultFile>, collected: seq<HistoryEntry>, f: ResultFile)
    requires Scanned(results, name, done, files, collected)
    requires f.project != name
    ensures Scanned(results, name, done + {f}, files, collected)
  {
  }

  /**
   * Once every file has been looked at, a reordering `h` of the entries
   * collected holds exactly the project's entries, one per file.
   */
  lemma ScannedAll(results: map<ResultFile, TestReport>, name: string,
                   files: seq<ResultFile>, collected: seq<HistoryEntry>, h: seq<HistoryEntry>)
    requires Scanned(results, name, results.Keys, files, collected)
    requires multiset(h) == multiset(collected)
    ensures forall e :: e in h <==> e in EntriesIn(results, results.Keys, name)
    ensures |h| == |FilesIn(results, results.Keys, name)|
  {
    forall e
      ensures e in h <==> e in EntriesIn(results, results.Keys, name)
    {
      assert e in h <==> e in multiset(h);
      assert e in collected <==> e in multiset(collected);
      EntriesOfFilesMembers(results, files, e);
    }
    assert (set f | f in files) == FilesIn(results, results.Keys, name);
    DistinctFilesCount(files);
    assert |h| == |multiset(h)| == |multiset(collected)| == |collected|;
  }

  /** The glob over the results directory: the entries of project `name`'s files, in glob order. */
  method ScanResults(results: map<ResultFile, TestReport>, name: string)
    returns (collected: seq<HistoryEntry>, ghost files: seq<ResultFile>)
    ensures Scanned(results, name, results.Keys, files, collected)
  {
    var pending := results.Keys;
    collected := [];
    ghost var done: set<ResultFile> := {};
    files := [];
    while pending != {}
      invariant pending + done == results.Keys && pending !! done
      invariant Scanned(results, name, done, files, collected)
      decreases pending
    {
      var f :| f in pending;
      if f.project == name {
        ScanOwnFile(results, name, done, files, collected, f);
        collected := collected + [EntryOf(f, results[f])];
        files := files + [f];
      } else {
        ScanOtherFile(results, name, done, files, collected, f);
      }
      pending := pending - {f};
      done := done + {f};
    }
  }

  class TesterAgent {
    /** The results directory: the report saved in each result file. */
    var results: map<ResultFile, TestReport>

    constructor ()
      ensures results == map[]
    {
      results := map[];
    }

    /** The result files of one project (the glob `<project>_test_*.json`). */
    ghost function FilesOf(name: string): set<ResultFile>
      reads this
    {
      FilesIn(results, results.Keys, name)
    }

    /** The entries get_test_history builds for one project, as a set. */
    ghost function HistoryOf(name: string): set<HistoryEntry>
      reads this
    {
      EntriesIn(results, results.Keys, name)
    }

    /**
     * `f` is a result file of `name` whose timestamp, as read back from the
     * file name, is greatest; with a tie any of the tied files qualifies.
     */
    ghost predicate IsNewestFile(f: ResultFile, name: string)
      reads this
    {
      && f in results && f.project == name
      && forall g :: g in results && g.project == name ==>
           !StrLess(ParsedTimestamp(name, f.timestamp), ParsedTimestamp(name, g.timestamp))
    }

    /**
     * Tests a project and, when the tests ran, saves the combined report
     * under the project's name and the current timestamp (a report saved in
     * the same second replaces the earlier file).
     */
    method TestProject(name: string, env: TestEnv) returns (r: TestReport)
      modifies this
      ensures r == TestProjectReport(env)
      ensures results == Saved(old(results), name, env)
    {
      r := TestProjectReport(env);
      if r.Tested? {
        results := results[ResultFile(name, env.timestamp) := r];
      }
    }

    /**
     * One entry per result file of the project, newest first: `files` lists
     * the project's result files in the order they were read, each once, and
     * the history holds exactly their entries, counted with repetition.
     */
    method GetTestHistory(name: string) returns (h: seq<HistoryEntry>, ghost files: seq<ResultFile>)
      ensures NewestFirst(h)
      ensures forall f :: f in files <==> f in results && f.project == name
      ensures forall i, j :: 0 <= i < j < |files| ==> files[i] != files[j]
      ensures multiset(h) == multiset(EntriesOfFiles(results, files))
      ensures forall e :: e in h <==> e in HistoryOf(name)
      ensures |h| == |FilesOf(name)|
    {
      var collected;
      collected, files := ScanResults(results, name);
      h := SortNewestFirst(collected);
      SortIsNewestFirst(collected);
      ScannedAll(results, name, files, collected, h);
    }

    /**
     * Advice for the fixing agent: a fixed line when the project has no saved
     * report, otherwise the advice for the overall status of the first entry
     * of its history, a file whose timestamp read back from its name is
     * greatest.
     */
    method GetFeedbackForReactAgent(name: string) returns (r: seq<string>)
      ensures FilesOf(name) == {} <==> r == [NoHistoryMsg]
      ensures FilesOf(name) != {} ==>
        exists f :: IsNewestFile(f, name) && r == AdviceFor(OverallStatusOf(results[f]))
    {
      var history, files := GetTestHistory(name);
      if history == [] {
        r := [NoHistoryMsg];
        return;
      }
      var latest := history[0];
      assert latest in HistoryOf(name);
      var f :| f in results && f.project == name && latest == EntryOf(f, results[f]);
      forall g | g in results && g.project == name
        ensures !StrLess(ParsedTimestamp(name, f.timestamp), ParsedTimestamp(name, g.timestamp))
      {
        var e := EntryOf(g, results[g]);
        assert e in HistoryOf(name);
        var j :| 0 <= j < |history| && history[j] == e;
        if j == 0 {
          StrLessIrreflexive(latest.timestamp);
        }
      }
      assert IsNewestFile(f, name);
      r := AdviceFor(latest.overall);
      assert r != [NoHistoryMsg] by {
        assert NoHistoryMsg !in r;
      }
    }
  }
}
