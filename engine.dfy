/** The scan engine: build one work item per (endpoint, applicable test), run each with
    per-task failure isolation, and keep the counters and failure messages of the run.
    Execution is a sequential fold in task order; each task's outcome is an input. */
module Engine {
  import opened Types
  import opened BaseTest
  import opened Selector

  /** One work item: a test variant bound to an endpoint. */
  datatype Task = Task(testClass: TestClass, endpoint: Endpoint)

  /** A raised exception, described by the `except` clauses that match it. One exception can
      match more than one (a server timeout is both a timeout and a client error). */
  datatype Exception = Exception(isTimeout: bool, isClientError: bool, message: string)

  /** What awaiting `execute()` produced for one task. */
  datatype Outcome = Returned(findings: seq<Vulnerability>) | Raised(error: Exception)

  datatype FailureKind = TimedOut | NetworkError | OtherError

  /** The exception `completed / total` raises when the total is zero; only `except Exception` matches it. */
  const DivisionByZero := Exception(false, false, "division by zero")

  /** The `except` clauses are tried in order: timeout, then client error, then anything else. */
  function Classify(e: Exception): (k: FailureKind)
    ensures k == TimedOut <==> e.isTimeout
    ensures k == NetworkError <==> !e.isTimeout && e.isClientError
    ensures k == OtherError <==> !e.isTimeout && !e.isClientError
  {
    if e.isTimeout then TimedOut else if e.isClientError then NetworkError else OtherError
  }

  function FailureMessage(testName: string, endpointStr: string, e: Exception): string {
    match Classify(e)
    case TimedOut => "Test '" + testName + "' timed out on " + endpointStr
    case NetworkError => "Network error in '" + testName + "' on " + endpointStr + ": " + e.message
    case OtherError => "Test '" + testName + "' failed on " + endpointStr + ": " + e.message
  }

  /** The failure messages a task adds: none when it returned, exactly one when it raised. */
  function FailureEntries(t: Task, o: Outcome): (r: seq<string>)
    ensures |r| == (if o.Returned? then 0 else 1)
  {
    match o
    case Returned(_) => []
    case Raised(e) => [FailureMessage(t.testClass.info.name, EndpointLabel(t.endpoint), e)]
  }

  /** What a task hands back: the findings `execute()` returned, or nothing when it raised. */
  function TaskResult(o: Outcome): seq<Vulnerability> {
    match o
    case Returned(found) => found
    case Raised(_) => []
  }

  /** The message of each failure category: its fixed wording, the test name and the endpoint,
      and for the two error categories the exception's own text at the end. */
  lemma FailureMessageFormat(testName: string, endpointStr: string, e: Exception)
    ensures var m := FailureMessage(testName, endpointStr, e);
      && (e.isTimeout ==> m == "Test '" + testName + "' timed out on " + endpointStr)
      && (!e.isTimeout && e.isClientError ==>
            m == "Network error in '" + testName + "' on " + endpointStr + ": " + e.message)
      && (!e.isTimeout && !e.isClientError ==>
            m == "Test '" + testName + "' failed on " + endpointStr + ": " + e.message)
      && (m[0] == 'N' <==> Classify(e) == NetworkError)
  {
  }

  /** For a fixed test and endpoint, a failure message tells which `except` clause caught the
      exception, and for the two error categories it also gives back the exception's text. */
  lemma {:induction false} FailureMessageInjective(testName: string, endpointStr: string, e1: Exception, e2: Exception)
    requires FailureMessage(testName, endpointStr, e1) == FailureMessage(testName, endpointStr, e2)
    ensures Classify(e1) == Classify(e2)
    ensures Classify(e1) != TimedOut ==> e1.message == e2.message
  {
    var m := FailureMessage(testName, endpointStr, e1);
    var test := "Test '" + testName;
    var network := "Network error in '" + testName + "' on " + endpointStr + ": ";
    var failed := test + "' failed on " + endpointStr + ": ";
    MessageLead(testName, endpointStr, e1);
    MessageLead(testName, endpointStr, e2);
    if Classify(e1) == NetworkError && Classify(e2) == NetworkError {
      assert e1.message == m[|network|..] == e2.message;
    } else if Classify(e1) == OtherError && Classify(e2) == OtherError {
      assert e1.message == m[|failed|..] == e2.message;
    }
  }

  /** The characters that tell the three messages apart: the first one, and the one after the quoted test name. */
  lemma MessageLead(testName: string, endpointStr: string, e: Exception)
    ensures var m := FailureMessage(testName, endpointStr, e);
      && |m| > |testName| + 8
      && (m[0] == 'N' <==> Classify(e) == NetworkError)
      && (Classify(e) == TimedOut ==> m[|testName| + 8] == 't')
      && (Classify(e) == OtherError ==> m[|testName| + 8] == 'f')
  {
    var test := "Test '" + testName;
    if Classify(e) == TimedOut {
      var rest := "' timed out on ";
      assert (test + rest)[|test| + 2] == rest[2];
    } else if Classify(e) == OtherError {
      var rest := "' failed on ";
      assert (test + rest)[|test| + 2] == rest[2];
    }
  }

  // ---------------------------------------------------------------------------------------
  // The work set and the run, as functions of the endpoints, the catalog and the outcomes.

  /** The work items for one endpoint, in selector order. */
  function Pairs(tests: seq<TestClass>, e: Endpoint): (r: seq<Task>)
    ensures |r| == |tests|
    ensures forall j :: 0 <= j < |tests| ==> r[j] == Task(tests[j], e)
  {
    seq(|tests|, j requires 0 <= j < |tests| => Task(tests[j], e))
  }

  lemma PairsSnoc(tests: seq<TestClass>, e: Endpoint, j: nat)
    requires j < |tests|
    ensures Pairs(tests[..j + 1], e) == Pairs(tests[..j], e) + [Task(tests[j], e)]
  {
    assert forall k :: 0 <= k < j ==> tests[..j + 1][k] == tests[..j][k];
  }

  /** All work items: endpoint order, then selector order within an endpoint. */
  function Tasks(endpoints: seq<Endpoint>, catalog: seq<TestClass>): seq<Task>
    decreases |endpoints|
  {
    if |endpoints| == 0 then []
    else
      var last := endpoints[|endpoints| - 1];
      Tasks(endpoints[..|endpoints| - 1], catalog) + Pairs(Applicable(catalog, last), last)
  }

  /** The sum over the endpoints of the number of tests selected for each. */
  function TotalTests(endpoints: seq<Endpoint>, catalog: seq<TestClass>): nat
    decreases |endpoints|
  {
    if |endpoints| == 0 then 0
    else
      var last := endpoints[|endpoints| - 1];
      TotalTests(endpoints[..|endpoints| - 1], catalog) + |Applicable(catalog, last)|
  }

  /** The failure messages of a run, in task order. */
  function FailureLog(tasks: seq<Task>, outcomes: seq<Outcome>): seq<string>
    requires |tasks| == |outcomes|
    decreases |tasks|
  {
    if |tasks| == 0 then []
    else
      var n := |tasks| - 1;
      FailureLog(tasks[..n], outcomes[..n]) + FailureEntries(tasks[n], outcomes[n])
  }

  /** The value each task returns, position by position, as `gather` lines them up. */
  function Results(outcomes: seq<Outcome>): (r: seq<seq<Vulnerability>>)
    ensures |r| == |outcomes|
    ensures forall i :: 0 <= i < |outcomes| ==> r[i] == TaskResult(outcomes[i])
  {
    seq(|outcomes|, i requires 0 <= i < |outcomes| => TaskResult(outcomes[i]))
  }

  lemma ResultsSnoc(outcomes: seq<Outcome>, k: nat)
    requires k < |outcomes|
    ensures Results(outcomes[..k + 1]) == Results(outcomes[..k]) + [TaskResult(outcomes[k])]
  {
    assert forall i :: 0 <= i < k ==> outcomes[..k + 1][i] == outcomes[..k][i];
  }

  function Successes(outcomes: seq<Outcome>): (n: nat)
    ensures n <= |outcomes|
    decreases |outcomes|
  {
    if |outcomes| == 0 then 0
    else Successes(outcomes[..|outcomes| - 1]) + (if outcomes[|outcomes| - 1].Returned? then 1 else 0)
  }

  /** All findings of a run, concatenated in task order. */
  function Flatten(results: seq<seq<Vulnerability>>): seq<Vulnerability>
    decreases |results|
  {
    if |results| == 0 then [] else results[0] + Flatten(results[1..])
  }

  /** The counted total is exactly the number of work items. */
  lemma {:induction false} TasksLength(endpoints: seq<Endpoint>, catalog: seq<TestClass>)
    ensures |Tasks(endpoints, catalog)| == TotalTests(endpoints, catalog)
    decreases |endpoints|
  {
    if |endpoints| > 0 {
      TasksLength(endpoints[..|endpoints| - 1], catalog);
    }
  }

  /** The work items of endpoint `i` form one block, starting after those of the earlier
      endpoints, holding its selected tests in selector order. */
  lemma {:induction false} TaskAt(endpoints: seq<Endpoint>, catalog: seq<TestClass>, i: nat, j: nat)
    requires i < |endpoints| && j < |Applicable(catalog, endpoints[i])|
    ensures TotalTests(endpoints[..i], catalog) + j < |Tasks(endpoints, catalog)|
    ensures Tasks(endpoints, catalog)[TotalTests(endpoints[..i], catalog) + j]
         == Task(Applicable(catalog, endpoints[i])[j], endpoints[i])
    decreases |endpoints|, 1
  {
    var n := |endpoints| - 1;
    if i < n {
      TaskAtEarlier(endpoints, catalog, i, j);
    } else {
      assert endpoints[..i] == endpoints[..n];
      TasksLastBlock(endpoints, catalog, j);
    }
  }

  /** The recursive case of `TaskAt`: endpoint `i` is not the last one. */
  lemma {:induction false} TaskAtEarlier(endpoints: seq<Endpoint>, catalog: seq<TestClass>, i: nat, j: nat)
    requires i < |endpoints| - 1 && j < |Applicable(catalog, endpoints[i])|
    ensures TotalTests(endpoints[..i], catalog) + j < |Tasks(endpoints, catalog)|
    ensures Tasks(endpoints, catalog)[TotalTests(endpoints[..i], catalog) + j]
         == Task(Applicable(catalog, endpoints[i])[j], endpoints[i])
    decreases |endpoints|, 0
  {
    var prefix := endpoints[..|endpoints| - 1];
    assert endpoints[..i] == prefix[..i] && prefix[i] == endpoints[i];
    TaskAt(prefix, catalog, i, j);
    TasksExtend(endpoints, catalog, TotalTests(prefix[..i], catalog) + j);
  }

  /** The items of all endpoints but the last come first, unchanged. */
  lemma TasksExtend(endpoints: seq<Endpoint>, catalog: seq<TestClass>, k: nat)
    requires |endpoints| > 0 && k < |Tasks(endpoints[..|endpoints| - 1], catalog)|
    ensures k < |Tasks(endpoints, catalog)|
    ensures Tasks(endpoints, catalog)[k] == Tasks(endpoints[..|endpoints| - 1], catalog)[k]
  {
  }

  /** The last endpoint's items follow those of the endpoints before it. */
  lemma TasksLastBlock(endpoints: seq<Endpoint>, catalog: seq<TestClass>, j: nat)
    requires |endpoints| > 0
    requires j < |Applicable(catalog, endpoints[|endpoints| - 1])|
    ensures TotalTests(endpoints[..|endpoints| - 1], catalog) + j < |Tasks(endpoints, catalog)|
    ensures Tasks(endpoints, catalog)[TotalTests(endpoints[..|endpoints| - 1], catalog) + j]
         == Task(Applicable(catalog, endpoints[|endpoints| - 1])[j], endpoints[|endpoints| - 1])
  {
    TasksLength(endpoints[..|endpoints| - 1], catalog);
  }

  /** A work item exists exactly for each endpoint of the list and each test selected for it. */
  lemma {:induction false} TaskMembership(endpoints: seq<Endpoint>, catalog: seq<TestClass>, t: TestClass, e: Endpoint)
    ensures Task(t, e) in Tasks(endpoints, catalog) <==>
      e in endpoints && t in catalog && t.IsApplicable(e)
    decreases |endpoints|
  {
    if |endpoints| > 0 {
      var n := |endpoints| - 1;
      var last := endpoints[n];
      TaskMembership(endpoints[..n], catalog, t, e);
      ApplicableMembership(catalog, last, t);
      assert endpoints == endpoints[..n] + [last];
      var tests := Applicable(catalog, last);
      if Task(t, e) in Pairs(tests, last) {
        var j :| 0 <= j < |tests| && Pairs(tests, last)[j] == Task(t, e);
        assert t == tests[j] && e == last;
      }
      if e == last && t in tests {
        var j :| 0 <= j < |tests| && tests[j] == t;
        assert Pairs(tests, last)[j] == Task(t, e);
      }
    }
  }

  /** Exactly one message per task that raised, so completed minus failed counts the successes. */
  lemma {:induction false} FailureLogLength(tasks: seq<Task>, outcomes: seq<Outcome>)
    requires |tasks| == |outcomes|
    ensures |FailureLog(tasks, outcomes)| == |outcomes| - Successes(outcomes)
    decreases |tasks|
  {
    if |tasks| > 0 {
      var n := |tasks| - 1;
      FailureLogLength(tasks[..n], outcomes[..n]);
    }
  }

  /** The message of a task that raised sits right after the messages of the earlier tasks. */
  lemma {:induction false} FailureLogAt(tasks: seq<Task>, outcomes: seq<Outcome>, i: nat)
    requires |tasks| == |outcomes| && i < |tasks| && outcomes[i].Raised?
    ensures var before := FailureLog(tasks[..i], outcomes[..i]);
      var m := FailureMessage(tasks[i].testClass.info.name, EndpointLabel(tasks[i].endpoint), outcomes[i].error);
      |before| < |FailureLog(tasks, outcomes)| && FailureLog(tasks, outcomes)[..|before| + 1] == before + [m]
    decreases |tasks|
  {
    var n := |tasks| - 1;
    if i < n {
      FailureLogAt(tasks[..n], outcomes[..n], i);
      assert tasks[..n][..i] == tasks[..i] && outcomes[..n][..i] == outcomes[..i];
    } else {
      assert tasks[..i] == tasks[..n] && outcomes[..i] == outcomes[..n];
    }
  }

  /** Each task's returned value depends on its own outcome alone: a failing sibling changes nothing. */
  lemma ResultsIsolated(outcomes: seq<Outcome>, others: seq<Outcome>, i: nat)
    requires |outcomes| == |others| && i < |outcomes| && outcomes[i] == others[i]
    ensures Results(outcomes)[i] == Results(others)[i]
    ensures outcomes[i].Raised? ==> Results(outcomes)[i] == []
  {
  }

  // ---------------------------------------------------------------------------------------
  // Two endpoints (GET and POST on /users) and two tests: X applies to POST only, Y keeps the
  // inherited check. X reports one finding.

  const UsersGet := Endpoint("/users", "GET", None, None, None)
  const UsersPost := Endpoint("/users", "POST", None, None, None)

  function IsPost(e: Endpoint): bool {
    e.httpMethod == "POST"
  }

  const TestX := TestClass(DefaultInfo.(testId := "x", name := "X"), Overridden(IsPost))
  const TestY := TestClass(DefaultInfo.(testId := "y", name := "Y"), Inherited)

  lemma ScenarioSelection()
    ensures Applicable([TestX, TestY], UsersGet) == [TestY]
    ensures Applicable([TestX, TestY], UsersPost) == [TestX, TestY]
  {
    assert [TestX, TestY][..1] == [TestX] && [TestX][..0] == [];
    assert !IsPost(UsersGet) by { assert UsersGet.httpMethod[0] != "POST"[0]; }
  }

  lemma ScenarioWorkSet()
    ensures TotalTests([UsersGet, UsersPost], [TestX, TestY]) == 3
    ensures Tasks([UsersGet, UsersPost], [TestX, TestY])
         == [Task(TestY, UsersGet), Task(TestX, UsersPost), Task(TestY, UsersPost)]
  {
    var catalog := [TestX, TestY];
    ScenarioSelection();
    assert [UsersGet, UsersPost][..1] == [UsersGet] && [UsersGet][..0] == [];
    assert TotalTests([UsersGet], catalog) == 1;
    assert Tasks([UsersGet], catalog) == [] + Pairs([TestY], UsersGet);
  }

  /** The failure log and the findings of the three work items, given their outcomes. */
  lemma ScenarioRun(o0: Outcome, o1: Outcome, o2: Outcome)
    ensures var tasks := Tasks([UsersGet, UsersPost], [TestX, TestY]);
      && |tasks| == 3
      && FailureLog(tasks, [o0, o1, o2])
         == FailureEntries(Task(TestY, UsersGet), o0) + FailureEntries(Task(TestX, UsersPost), o1)
            + FailureEntries(Task(TestY, UsersPost), o2)
      && Flatten(Results([o0, o1, o2])) == TaskResult(o0) + TaskResult(o1) + TaskResult(o2)
  {
    ScenarioWorkSet();
    FailureLogOfThree(Task(TestY, UsersGet), Task(TestX, UsersPost), Task(TestY, UsersPost), o0, o1, o2);
    assert Results([o0, o1, o2]) == [TaskResult(o0), TaskResult(o1), TaskResult(o2)];
    FlattenOfThree(TaskResult(o0), TaskResult(o1), TaskResult(o2));
  }

  lemma FailureLogOfThree(t0: Task, t1: Task, t2: Task, o0: Outcome, o1: Outcome, o2: Outcome)
    ensures FailureLog([t0, t1, t2], [o0, o1, o2])
         == FailureEntries(t0, o0) + FailureEntries(t1, o1) + FailureEntries(t2, o2)
  {
    assert [t0, t1, t2][..2] == [t0, t1] && [o0, o1, o2][..2] == [o0, o1];
    assert [t0, t1][..1] == [t0] && [o0, o1][..1] == [o0];
    assert [t0][..0] == [] && [o0][..0] == [];
    assert FailureLog([t0], [o0]) == FailureEntries(t0, o0);
  }

  lemma FlattenOfThree(a: seq<Vulnerability>, b: seq<Vulnerability>, c: seq<Vulnerability>)
    ensures Flatten([a, b, c]) == a + b + c
  {
    assert [a, b, c][1..] == [b, c] && [b, c][1..] == [c] && [c][1..] == [];
    assert Flatten([c]) == c;
    assert Flatten([b, c]) == b + c;
  }

  /** Every task succeeds: one finding (from X), no failure. */
  lemma ScenarioAllSucceed(finding: Vulnerability)
    ensures var outcomes := [Returned([]), Returned([finding]), Returned([])];
      var tasks := Tasks([UsersGet, UsersPost], [TestX, TestY]);
      && |tasks| == |outcomes|
      && FailureLog(tasks, outcomes) == []
      && Flatten(Results(outcomes)) == [finding]
  {
    ScenarioRun(Returned([]), Returned([finding]), Returned([]));
  }

  /** The timeout message of a test named `name` on a given endpoint. */
  lemma TimeoutEntry(t: Task, timeout: Exception)
    requires timeout.isTimeout
    ensures FailureEntries(t, Raised(timeout))
         == ["Test '" + t.testClass.info.name + "' timed out on " + t.endpoint.httpMethod + " " + t.endpoint.path]
  {
    var identity := EndpointLabel(t.endpoint);
    var head := "Test '" + t.testClass.info.name + "' timed out on ";
    assert head + identity == head + t.endpoint.httpMethod + " " + t.endpoint.path;
  }

  lemma ScenarioTimeoutOnGet(timeout: Exception)
    requires timeout.isTimeout
    ensures FailureEntries(Task(TestY, UsersGet), Raised(timeout)) == ["Test 'Y' timed out on GET /users"]
  {
    TimeoutEntry(Task(TestY, UsersGet), timeout);
    var head := "Test '" + "Y" + "' timed out on ";
    assert head == "Test 'Y' timed out on ";
    assert head + "GET" + " " + "/users" == "Test 'Y' timed out on GET /users";
  }

  lemma ScenarioTimeoutOnPost(timeout: Exception)
    requires timeout.isTimeout
    ensures FailureEntries(Task(TestY, UsersPost), Raised(timeout)) == ["Test 'Y' timed out on POST /users"]
  {
    TimeoutEntry(Task(TestY, UsersPost), timeout);
    var head := "Test '" + "Y" + "' timed out on ";
    assert head == "Test 'Y' timed out on ";
    assert head + "POST" + " " + "/users" == "Test 'Y' timed out on POST /users";
  }

  /** Y times out on both endpoints: the finding from X survives, with two timeout failures. */
  lemma ScenarioTimeouts(finding: Vulnerability, timeout: Exception)
    requires timeout.isTimeout
    ensures var outcomes := [Raised(timeout), Returned([finding]), Raised(timeout)];
      var tasks := Tasks([UsersGet, UsersPost], [TestX, TestY]);
      && |tasks| == |outcomes|
      && FailureLog(tasks, outcomes)
         == ["Test 'Y' timed out on GET /users", "Test 'Y' timed out on POST /users"]
      && Flatten(Results(outcomes)) == [finding]
  {
    ScenarioRun(Raised(timeout), Returned([finding]), Raised(timeout));
    ScenarioTimeoutOnGet(timeout);
    ScenarioTimeoutOnPost(timeout);
  }

  // ---------------------------------------------------------------------------------------
  // The imperative engine.

  /** The state `run_single_test` shares with `scan` through its closure. */
  class ScanState {
    const totalTests: nat
    var completedTests: nat
    var failedTests: seq<string>

    constructor (totalTests: nat)
      ensures this.totalTests == totalTests && completedTests == 0 && failedTests == []
    {
      this.totalTests := totalTests;
      completedTests := 0;
      failedTests := [];
    }

    /** The progress line `completed_tests / total_tests` would run and divide by zero. */
    predicate ProgressDividesByZero(o: Outcome)
      reads this
    {
      o.Returned? && totalTests == 0 && ((completedTests + 1) % 10 == 0 || completedTests + 1 == totalTests)
    }

    /** One task: the outcome is classified, the counter goes up, a failure is logged. */
    method RunSingleTest(task: Task, outcome: Outcome) returns (vulnerabilities: seq<Vulnerability>)
      modifies this
      ensures !old(ProgressDividesByZero(outcome)) ==>
        && completedTests == old(completedTests) + 1
        && failedTests == old(failedTests) + FailureEntries(task, outcome)
        && vulnerabilities == TaskResult(outcome)
      ensures old(ProgressDividesByZero(outcome)) ==>
        && completedTests == old(completedTests) + 2
        && failedTests == old(failedTests) + FailureEntries(task, Raised(DivisionByZero))
        && vulnerabilities == []
    {
      var testName := task.testClass.info.name;
      var endpointStr := EndpointLabel(task.endpoint);
      match outcome
      case Returned(found) =>
        completedTests := completedTests + 1;
        if (completedTests % 10 == 0 || completedTests == totalTests) && totalTests == 0 {
          // the division raises; `except Exception` records it and counts the task again
          failedTests := failedTests + ["Test '" + testName + "' failed on " + endpointStr + ": " + DivisionByZero.message];
          completedTests := completedTests + 1;
          return [];
        }
        return found;
      case Raised(error) =>
        if error.isTimeout {
          failedTests := failedTests + ["Test '" + testName + "' timed out on " + endpointStr];
        } else if error.isClientError {
          failedTests := failedTests + ["Network error in '" + testName + "' on " + endpointStr + ": " + error.message];
        } else {
          failedTests := failedTests + ["Test '" + testName + "' failed on " + endpointStr + ": " + error.message];
        }
        completedTests := completedTests + 1;
        return [];
    }
  }

  /** Runs every task to completion and lines their return values up with the tasks, as
      `asyncio.gather` does; the tasks run here one after another, in task order. */
  method Gather(state: ScanState, tasks: seq<Task>, outcomes: seq<Outcome>)
    returns (results: seq<seq<Vulnerability>>)
    requires |outcomes| == |tasks| && state.totalTests == |tasks| && state.completedTests == 0
    modifies state
    ensures state.completedTests == |tasks|
    ensures state.failedTests == old(state.failedTests) + FailureLog(tasks, outcomes)
    ensures results == Results(outcomes)
  {
    results := [];
    var k := 0;
    while k < |tasks|
      invariant 0 <= k <= |tasks|
      invariant state.totalTests == |tasks|
      invariant state.completedTests == k
      invariant state.failedTests == old(state.failedTests) + FailureLog(tasks[..k], outcomes[..k])
      invariant results == Results(outcomes[..k])
    {
      var returned := state.RunSingleTest(tasks[k], outcomes[k]);
      assert tasks[..k + 1][..k] == tasks[..k] && outcomes[..k + 1][..k] == outcomes[..k];
      ResultsSnoc(outcomes, k);
      results := results + [returned];
      k := k + 1;
    }
    assert tasks[..k] == tasks && outcomes[..k] == outcomes;
  }

  /** What a scan leaves behind: its counters, its failure messages, its work items and the
      value each work item returned. */
  datatype ScanReport = ScanReport(
    totalTests: nat,
    completedTests: nat,
    failedTests: seq<string>,
    tasks: seq<Task>,
    results: seq<seq<Vulnerability>>)

  class SecurityScanner {
    var target: string
    var config: Config
    var testSelector: TestSelector

    constructor (target: string, config: Config)
      ensures this.target == target && this.config == config
      ensures fresh(testSelector) && testSelector.config == config && testSelector.availableTests == []
    {
      this.target := target;
      this.config := config;
      testSelector := new TestSelector(config);
    }

    /** Counts the tests, builds the work items, and runs them in task order with
        `outcomes[i]` as the outcome of the `i`-th work item. */
    method Scan(apiSpec: ApiSpec, outcomes: seq<Outcome>) returns (report: ScanReport)
      requires |outcomes| == TotalTests(apiSpec.endpoints, testSelector.availableTests)
      ensures report.totalTests == TotalTests(apiSpec.endpoints, testSelector.availableTests)
      ensures report.tasks == Tasks(apiSpec.endpoints, testSelector.availableTests)
      ensures report.completedTests == report.totalTests == |report.tasks|
      ensures report.failedTests == FailureLog(report.tasks, outcomes)
      ensures report.results == Results(outcomes)
      ensures report.completedTests - |report.failedTests| == Successes(outcomes)
    {
      var endpoints := apiSpec.endpoints;
      ghost var catalog := testSelector.availableTests;

      var totalTests := 0;
      var i := 0;
      while i < |endpoints|
        invariant 0 <= i <= |endpoints|
        invariant totalTests == TotalTests(endpoints[..i], catalog)
      {
        var applicableTests := testSelector.SelectTestsForEndpoint(endpoints[i]);
        assert endpoints[..i + 1][..i] == endpoints[..i];
        totalTests := totalTests + |applicableTests|;
        i := i + 1;
      }
      assert endpoints[..i] == endpoints;

      var allTasks: seq<Task> := [];
      i := 0;
      while i < |endpoints|
        invariant 0 <= i <= |endpoints|
        invariant allTasks == Tasks(endpoints[..i], catalog)
      {
        var endpoint := endpoints[i];
        var applicableTests := testSelector.SelectTestsForEndpoint(endpoint);
        var j := 0;
        while j < |applicableTests|
          invariant 0 <= j <= |applicableTests|
          invariant allTasks == Tasks(endpoints[..i], catalog) + Pairs(applicableTests[..j], endpoint)
        {
          PairsSnoc(applicableTests, endpoint, j);
          allTasks := allTasks + [Task(applicableTests[j], endpoint)];
          j := j + 1;
        }
        assert applicableTests[..j] == applicableTests;
        assert endpoints[..i + 1][..i] == endpoints[..i];
        i := i + 1;
      }
      assert endpoints[..i] == endpoints;
      TasksLength(endpoints, catalog);

      var state := new ScanState(totalTests);
      var results := Gather(state, allTasks, outcomes);
      FailureLogLength(allTasks, outcomes);
      report := ScanReport(totalTests, state.completedTests, state.failedTests, allTasks, results);
    }
  }
}
