# apiguard-scanner: a Dafny model of the scan engine's sequential core

The scanner reads a parsed OpenAPI description, picks for every endpoint the security tests
that apply to it, runs one work item per (endpoint, applicable test), and keeps track of how
many finished and which ones failed. This project models three pieces of that logic:

- **Findings and their references** (`src/security_tests/base_test.py`, module `BaseTest`):
  the `TestPriority` and `VulnerabilitySeverity` enums, the `Vulnerability` record, the test
  instance (`SecurityTest`, a class whose constructor starts an empty findings list),
  `create_vulnerability` (a function of the instance's fields, so it changes nothing) and
  `_get_references` (a method that builds the list by appends).
- **Test selection** (`src/core/engine/test_selector.py`, module `Selector`): the catalog holder
  `TestSelector` and `select_tests_for_endpoint`, a loop that keeps the applicable catalog
  entries. A test variant is a `TestClass` value: its metadata plus either the inherited
  applicability check (always true) or an overriding predicate over endpoints whose body is
  not modelled.
- **Scan bookkeeping** (`src/core/engine/engine.py`, module `Engine`): the counting loop, the
  nested loop that builds the task list, the inner `run_single_test` with its four outcomes
  (`ScanState`, a class holding the counter and failure list the closure updates), and the
  gathering of results. Each task's outcome (findings returned, or an exception with the
  `except` clauses it matches) is an input; `Gather` runs the tasks one after another in task
  order.

The records of `src/core/types.py` are the datatypes of module `Types`. Module `Strings`
holds the decimal rendering used in the finding id and ASCII lower-casing.

What the code does and what its comments or design say differ in a few places; the model
follows the code:

- The selector's comment promises a priority order, but the result of `sorted(...)` at
  `test_selector.py:31` is discarded, so selection returns catalog order. The model's
  selector is an order-preserving filter. The intended order is modelled separately as
  `Selector.ByPriority`, a stable sort. It is not the current behaviour.
  `Selector.CatalogOrderIsNotPriorityOrder` exhibits a catalog where the two orders differ.
- The progress line (`engine.py:70-71`) divides by `total_tests`. If that were zero, the
  division would raise inside the `try` after `execute()` had succeeded. Nothing has been
  logged at that point. `except Exception` would then log the task's only message, a failure
  message for a task whose `execute()` succeeded. It would drop the task's findings, and the
  task would be counted twice. `ScanState.RunSingleTest` models that path.
  `SecurityScanner.Scan` proves it never happens during a scan, because the total equals the
  number of tasks.
- `scan` returns nothing, and `all_vulnerabilities` is never written. The model returns the
  run's local state as a `ScanReport` so that its properties can be stated.

## Model

| member | source | states |
|---|---|---|
| `Types.EndpointLabelInjective` | src/security_tests/base_test.py:105 | the endpoint identity `method + " " + path` determines method and path whenever the method has no space |
| `Strings.NatToString` | src/security_tests/base_test.py:98 | the count inside the id is rendered as a non-empty string of decimal digits, with a leading zero only for zero |
| `Strings.ParseNatToString` | src/security_tests/base_test.py:98 | reading the rendered count back gives the count |
| `Strings.LowerIdempotent` | src/security_tests/base_test.py:118 | lower-casing a lower-cased category changes nothing |
| `Strings.LowerCharEqualIffSameUpToCase` | src/security_tests/base_test.py:118 | two characters lower-case to the same character exactly when they are equal or are the two cases of one ASCII letter |
| `Strings.LowerEqualIffIgnoringCase` | src/security_tests/base_test.py:118 | two categories lower-case to the same string exactly when they have the same length and, position by position, are equal or the two cases of one letter |
| `BaseTest.PriorityFromValue` | src/security_tests/base_test.py:21-25 | looking a priority up by value succeeds exactly for 1 to 4 and returns the member with that value |
| `BaseTest.PriorityValueRoundTrip` | src/security_tests/base_test.py:21-25 | each priority member is found again from its value |
| `BaseTest.PriorityOrder` | src/security_tests/base_test.py:21-25 | CRITICAL=1 < HIGH=2 < MEDIUM=3 < LOW=4, and the base class's priority (line 54) is MEDIUM |
| `BaseTest.InheritedAcceptsAll` | src/security_tests/base_test.py:71-73 | the inherited `is_applicable` accepts every endpoint |
| `BaseTest.FindingIdInjective` | src/security_tests/base_test.py:98 | two ids `test_id + "_" + count` are equal only when both the test id and the count are equal |
| `BaseTest.ReferencesShape` | src/security_tests/base_test.py:116-122 | two links when the OWASP category is set (not None, not empty), else one; the testing-guide link is always last; the first is prefix, lower-cased category, `/` |
| `BaseTest.ReferencesIgnoreCase` | src/security_tests/base_test.py:117-118 | categories that differ only in letter case give the same links |
| `BaseTest.ReferencesOfLowered` | src/security_tests/base_test.py:118 | a category and its lower-cased form give the same links |
| `BaseTest.SecurityTest.constructor` | src/security_tests/base_test.py:59-64 | stores endpoint, target URL and config; the findings list starts empty |
| `BaseTest.SecurityTest.CreateVulnerability` | src/security_tests/base_test.py:87-110 | id is test id, `_`, and the number of findings recorded so far; endpoint identity and method come from the bound endpoint; category, CWE and OWASP tags from the test's metadata; absent or empty evidence becomes the empty map and any other evidence is kept; references as `_get_references`; no field changes |
| `BaseTest.SecurityTest.GetReferences` | src/security_tests/base_test.py:113-122 | the appended list has the shape above and equals the references a finding carries |
| `Selector.Applicable` | src/core/engine/test_selector.py:21-27 | the selection is never longer than the catalog |
| `Selector.ApplicableIsSubsequence` | src/core/engine/test_selector.py:21-33 | the selection is the catalog restricted to exactly the applicable positions, in increasing position order |
| `Selector.ApplicableMembership` | src/core/engine/test_selector.py:22-27 | a test is selected if and only if it is in the catalog and reports applicable |
| `Selector.InheritedSelectsAll` | src/core/engine/test_selector.py:22-27 | when no variant overrides `is_applicable`, the whole catalog is selected, in order |
| `Selector.TestSelector.constructor` | src/core/engine/test_selector.py:9-13 | the catalog starts empty, so every selection of a fresh selector is empty |
| `Selector.TestSelector.SelectTestsForEndpoint` | src/core/engine/test_selector.py:15-33 | the loop returns exactly the applicable catalog entries in catalog order; the result depends only on catalog and endpoint |
| `Selector.ByPriorityIsStableSort` | src/core/engine/test_selector.py:29-31 | the intended (currently discarded) order is sorted by priority value, has the same length, and keeps for each priority exactly the tests of that priority in catalog order |
| `Selector.CatalogOrderIsNotPriorityOrder` | src/core/engine/test_selector.py:31-33 | for a catalog listing a LOW test before a CRITICAL one, selection returns LOW first while the intended order puts CRITICAL first |
| `Engine.Classify` | src/core/engine/engine.py:74-88 | an exception is a timeout if it matches `asyncio.TimeoutError`, else a network error if it matches `aiohttp.ClientError`, else another error; exactly one applies |
| `Engine.FailureMessageFormat` | src/core/engine/engine.py:74-88 | the wording of the timeout, network-error and other-error messages; only the network-error message starts with `N` |
| `Engine.FailureMessageInjective` | src/core/engine/engine.py:74-88 | for a fixed test name and endpoint, equal failure messages come from the same `except` clause, and for network and other errors from the same exception text |
| `Engine.FailureEntries` | src/core/engine/engine.py:74-90 | a task that returned adds no message, one that raised adds exactly one |
| `Engine.ScanState.constructor` | src/core/engine/engine.py:51-58 | the counter shared through `nonlocal` starts at 0 and the failure list starts empty; the total is fixed for the run |
| `Engine.ScanState.RunSingleTest` | src/core/engine/engine.py:56-90 | each outcome increments the counter by one, appends one message on failure and none on success, and hands back the returned findings or `[]`; if the progress division were by zero, that failure is logged and the task counted twice |
| `Engine.Gather` | src/core/engine/engine.py:101 | running all tasks completes each once, appends their messages in task order (the sequential schedule; the source appends in completion order), and lines each return value up with its task |
| `Engine.TasksLength` | src/core/engine/engine.py:43-99 | the number of work items equals the counted total |
| `Engine.TaskAt` | src/core/engine/engine.py:95-99 | the items of endpoint `i` form one block, after those of earlier endpoints, holding its selected tests in selector order |
| `Engine.TaskMembership` | src/core/engine/engine.py:95-99 | a work item exists for a pair exactly when the endpoint is listed and the test is in the catalog and applicable to it |
| `Engine.FailureLogLength` | src/core/engine/engine.py:74-90 | the failure list has one entry per task that raised, so completed minus failed is the number of successes |
| `Engine.FailureLogAt` | src/core/engine/engine.py:74-90 | with tasks run one after another in task order, the message of a failed task follows the messages of the tasks before it |
| `Engine.ResultsIsolated` | src/core/engine/engine.py:56-101 | a task's returned value depends on its own outcome only, and is `[]` when it raised |
| `Engine.ScenarioWorkSet` | src/core/engine/engine.py:43-99 | GET and POST on `/users`, a POST-only test X and a test Y for all: three work items, Y on GET, X on POST, Y on POST |
| `Engine.ScenarioAllSucceed` | src/core/engine/engine.py:56-101 | in that scan, when all succeed and X reports one finding: no failure and exactly that finding |
| `Engine.ScenarioTimeouts` | src/core/engine/engine.py:74-78 | in that scan, when Y times out: X's finding survives, and the two timeout messages name Y on `GET /users` and `POST /users` |
| `Engine.SecurityScanner.constructor` | src/core/engine/engine.py:17-21 | the scanner owns a fresh selector with its config and an empty catalog |
| `Engine.SecurityScanner.Scan` | src/core/engine/engine.py:38-101 | the total is the sum of selection sizes, the task list is one item per (endpoint, applicable test) in endpoint then selector order, completed equals total equals the number of tasks, the failure list (in the sequential schedule's task order) and the positional results are those of the outcomes, and completed minus failed counts the successes |

## Left out

- The HTTP session, `__aenter__`/`__aexit__` (`engine.py:24-34`) and `make_request` (`base_test.py:75-85`): network I/O.
- `execute()`: abstract in the source. Each task's outcome is an input to `Scan`, one per work item.
- Concurrency: the semaphore (`engine.py:49`), `create_task` and interleaving. Tasks run one after another in task order. The counts and the result alignment that `gather` provides do not depend on the schedule. The order of the failure list does.
- Engine.FailureLogAt, Engine.Gather, Engine.SecurityScanner.Scan: the source appends to `failed_tests` (`engine.py:76,82,88`) when each coroutine reaches its `except` clause. Under `asyncio.gather` that is completion order. The task order of the failure list here is the model's sequential schedule. Only the number of entries and each task's own entry are independent of the schedule. `results` (`engine.py:101`) is positional in the source as well.
- Cancellation: `CancelledError` would escape `run_single_test` and appear in `gather`'s results because of `return_exceptions=True`. This is not modelled.
- The progress percentage (`engine.py:71`) and the `confidence` score (`base_test.py:43,93`): floating point. The division-by-zero path of the progress line is kept.
- `Vulnerability.evidence` values: `Any` in the source. The model keeps them as strings.
- `str.lower`: only ASCII letters are lower-cased.
- Calls whose argument lists do not match the callee are read as intended: `is_applicable()` without the endpoint (`test_selector.py:26`), the test constructor without `config` (`engine.py:66`), and the stray second argument to `asyncio.Semaphore` (`engine.py:49`). As written, each would raise `TypeError`. The one at `engine.py:66` would turn every outcome into an "other error". The per-task outcome inputs can express that.
- `sorted(..., key=lambda test: test.priority)` (`test_selector.py:31`) compares `TestPriority` members. Those are plain `Enum` members with no ordering, so Python would raise `TypeError` once two or more tests apply. The model reads the line as a no-op.
- `references: List[str] = []` in the `Vulnerability` dataclass (`base_test.py:42`) is a mutable default, which `dataclass` rejects when the class is created. The model treats the record as intended.
- The CLI (`src/cli/main.py`), the parser stubs (`src/core/parsers/openapi_parser.py`), the duplicate `src/core/engine/scanner.py` and `setup.py` are not part of this model.
