// The test runner: discovering the test classes in a fixed order, deciding
// which to skip, classifying how a test's child process ended, and the
// summary and exit status of a run.
module RdRunner {
  import opened Common
  import opened Sorting
  import RdLogging

  /** A test class: its name and the attributes the runner reads. */
  datatype TestClass = TestClass(name: string, slowTest: bool, platform: string, platformVersion: int)

  /** A name bound in a loaded module: something else, the base class itself, or a subclass of it. */
  datatype ModuleEntry = OtherObject | TestCaseBase | Subclass(test: TestClass)

  // ---- Discovery -----------------------------------------------------------

  /** The subclasses among the entries, in the order they are found. */
  function Discovered(entries: seq<ModuleEntry>): (tests: seq<TestClass>)
    ensures forall t :: t in tests <==> Subclass(t) in entries
  {
    if entries == [] then []
    else
      var init := Discovered(entries[..|entries| - 1]);
      assert entries == entries[..|entries| - 1] + [entries[|entries| - 1]];
      match entries[|entries| - 1]
      case Subclass(t) => init + [t]
      case _ => init
  }

  /** Python's `<` on strings: lexicographic by code point, a proper prefix first. */
  predicate StrLess(a: string, b: string)
  {
    if a == [] then b != []
    else b != [] && (a[0] < b[0] || (a[0] == b[0] && StrLess(a[1..], b[1..])))
  }

  lemma {:induction false} StrLessIrreflexive(a: string)
    ensures !StrLess(a, a)
  {
    if a != [] {
      StrLessIrreflexive(a[1..]);
    }
  }

  lemma {:induction false} StrLessTransitive(a: string, b: string, c: string)
    requires StrLess(a, b) && StrLess(b, c)
    ensures StrLess(a, c)
  {
    if a != [] && a[0] == b[0] && b[0] == c[0] {
      StrLessTransitive(a[1..], b[1..], c[1..]);
    }
  }

  /** The sort key `(slow_test, __name__)`: fast tests first, then by name. */
  predicate KeyLess(a: TestClass, b: TestClass)
  {
    (!a.slowTest && b.slowTest) || (a.slowTest == b.slowTest && StrLess(a.name, b.name))
  }

  lemma KeyLessStrictOrder()
    ensures StrictOrder(KeyLess)
  {
    forall a: TestClass
      ensures !KeyLess(a, a)
    {
      StrLessIrreflexive(a.name);
    }
    forall a: TestClass, b: TestClass, c: TestClass | KeyLess(a, b) && KeyLess(b, c)
      ensures KeyLess(a, c)
    {
      if a.slowTest == b.slowTest && b.slowTest == c.slowTest {
        StrLessTransitive(a.name, b.name, c.name);
      }
    }
  }

  /** Two different names are ordered one way or the other. */
  lemma {:induction false} StrLessTotal(a: string, b: string)
    ensures a == b || StrLess(a, b) || StrLess(b, a)
  {
    if a != [] && b != [] && a[0] == b[0] {
      StrLessTotal(a[1..], b[1..]);
      assert a == [a[0]] + a[1..] && b == [b[0]] + b[1..];
    }
  }

  /** Two test classes with different keys are ordered one way or the other. */
  lemma KeyLessTotal(a: TestClass, b: TestClass)
    ensures KeyLess(a, b) || KeyLess(b, a) || (a.slowTest == b.slowTest && a.name == b.name)
  {
    StrLessTotal(a.name, b.name);
  }

  /** The key is a strict weak order, whose ties are the classes with the same slowness and name. */
  lemma KeyLessStrictWeakOrder()
    ensures StrictWeakOrder(KeyLess)
    ensures forall a, b :: Tied(KeyLess, a, b) <==> a.slowTest == b.slowTest && a.name == b.name
  {
    KeyLessStrictOrder();
    forall a: TestClass, b: TestClass, c: TestClass | KeyLess(a, c)
      ensures KeyLess(a, b) || KeyLess(b, c)
    {
      KeyLessTotal(a, b);
      KeyLessTotal(b, c);
    }
    forall a: TestClass, b: TestClass | Tied(KeyLess, a, b)
      ensures a.slowTest == b.slowTest && a.name == b.name
    {
      KeyLessTotal(a, b);
    }
    forall a: TestClass, b: TestClass | a.slowTest == b.slowTest && a.name == b.name
      ensures Tied(KeyLess, a, b)
    {
      StrLessIrreflexive(a.name);
    }
  }

  /**
   * `get_tests`: every subclass bound in a loaded module, sorted by its
   * key; the entries of all modules are given in order in `entries`.
   * Python's sort is stable, so classes with the same slowness and name
   * stay in the order they were found.
   */
  method GetTests(entries: seq<ModuleEntry>) returns (tests: seq<TestClass>)
    ensures SortedBy(tests, KeyLess)
    ensures multiset(tests) == multiset(Discovered(entries))
    ensures forall t :: TiedWith(tests, KeyLess, t) == TiedWith(Discovered(entries), KeyLess, t)
  {
    var testcases: seq<TestClass> := [];
    for i := 0 to |entries|
      invariant testcases == Discovered(entries[..i])
    {
      assert entries[..i + 1][..i] == entries[..i];
      if entries[i].Subclass? {
        testcases := testcases + [entries[i].test];
      }
    }
    assert entries[..|entries|] == entries;
    KeyLessStrictWeakOrder();
    tests := SortBy(testcases, KeyLess);
    forall t: TestClass
      ensures TiedWith(tests, KeyLess, t) == TiedWith(testcases, KeyLess, t)
    {
      SortByKeepsTies(testcases, KeyLess, t);
    }
  }

  /**
   * In a sorted list, every slow test comes after every fast one, and the
   * tests of either kind are in name order.
   */
  lemma SlowTestsLast(tests: seq<TestClass>)
    requires SortedBy(tests, KeyLess)
    ensures forall i, j :: 0 <= i < j < |tests| && tests[i].slowTest ==> tests[j].slowTest
    ensures forall i, j :: 0 <= i < j < |tests| && tests[i].slowTest == tests[j].slowTest ==>
      !StrLess(tests[j].name, tests[i].name)
  {
  }

  // ---- Which tests run -----------------------------------------------------

  /** `s` occurs in `text`. */
  predicate Contains(text: string, s: string)
  {
    s <= text || (text != [] && Contains(text[1..], s))
  }

  /** The platform name: `os.name`, except that Windows is always `win32`. */
  function Platform(osName: string, platformString: string): (plat: string)
    ensures plat == "win32" <==> osName == "nt" || osName == "win32" || Contains(platformString, "Windows")
    ensures plat != "win32" ==> plat == osName
  {
    if osName == "nt" || Contains(platformString, "Windows") then "win32" else osName
  }

  /**
   * The OS version compared against a test's `platform_version`: the
   * Windows major version, with 6 read as 7, and 0 elsewhere or when the
   * version cannot be queried.
   */
  function OsVersion(plat: string, windowsMajor: Option<int>): (ver: int)
    ensures plat != "win32" || windowsMajor.None? ==> ver == 0
    ensures plat == "win32" && windowsMajor.Some? ==>
      ver == if windowsMajor.value == 6 then 7 else windowsMajor.value
  {
    if plat != "win32" then 0
    else match windowsMajor
      case None => 0
      case Some(v) => if v == 6 then 7 else v
  }

  /** A test that needs Windows 7 runs on every Windows 6.x: Vista and 7 alike. */
  lemma Windows6CountsAsSeven(t: TestClass)
    requires t.platform == "win32" && t.platformVersion == 7
    ensures PlatformSupported(t, "win32", OsVersion("win32", Some(6)))
    ensures !PlatformSupported(t, "win32", OsVersion("win32", Some(5)))
  {
  }

  /** The test's platform, if it names one, is this one, and its version, if it asks for one, is reached. */
  predicate PlatformSupported(t: TestClass, plat: string, ver: int): (s: bool)
    ensures t.platform == "" && t.platformVersion == 0 ==> s
    ensures s && t.platform != "" ==> t.platform == plat
    ensures s && t.platformVersion != 0 ==> t.platformVersion <= ver
  {
    (t.platform == "" || t.platform == plat) && (t.platformVersion == 0 || t.platformVersion <= ver)
  }

  datatype SkipReason = UnsupportedPlatform | NotIncluded | Excluded | SlowDisabled

  /** What the runner is given: the platform, the filters, and how each test ends when run. */
  datatype RunEnv = RunEnv(
    plat: string, ver: int,
    includeSearch: string -> bool,          // the include pattern's search
    excludeSearch: Option<string -> bool>,  // the exclude pattern's search; none when the pattern is empty
    slowTests: bool, inProcess: bool,
    raisesInProcess: TestClass -> bool,     // whether running the test in this process raises
    raisedInProcess: TestClass -> RdLogging.Raised,     // what it raises, when it does
    comparison: TestClass -> RdLogging.Comparison,      // how the failure's two files compare
    returnCode: TestClass -> Option<int>)   // the child process's exit code, if one was obtained

  /**
   * Why a test is skipped, the reasons checked in order: platform,
   * include pattern, exclude pattern, slowness.
   */
  function SkipReasonOf(t: TestClass, env: RunEnv): (r: Option<SkipReason>)
    ensures r.None? <==> PlatformSupported(t, env.plat, env.ver) && env.includeSearch(t.name) &&
                         !(env.excludeSearch.Some? && env.excludeSearch.value(t.name)) && (env.slowTests || !t.slowTest)
    ensures r == Some(UnsupportedPlatform) <==> !PlatformSupported(t, env.plat, env.ver)
    ensures r == Some(NotIncluded) ==> PlatformSupported(t, env.plat, env.ver) && !env.includeSearch(t.name)
    ensures r == Some(Excluded) ==> PlatformSupported(t, env.plat, env.ver) && env.includeSearch(t.name) &&
                                    env.excludeSearch.Some? && env.excludeSearch.value(t.name)
    ensures r == Some(SlowDisabled) ==> t.slowTest && !env.slowTests
  {
    if !PlatformSupported(t, env.plat, env.ver) then Some(UnsupportedPlatform)
    else if !env.includeSearch(t.name) then Some(NotIncluded)
    else if env.excludeSearch.Some? && env.excludeSearch.value(t.name) then Some(Excluded)
    else if !env.slowTests && t.slowTest then Some(SlowDisabled)
    else None
  }

  // ---- Running one test in a child process --------------------------------

  /** How `_run_test` treats the child's exit code. */
  datatype ChildVerdict = Clean | TestFailed | NoReturnCode | Crashed(code: int)

  /**
   * 0 is a clean exit, 1 a failure the child has already logged; no code
   * at all, or any other code, is an error.
   */
  function Classify(returnCode: Option<int>): (v: ChildVerdict)
    ensures v == Clean <==> returnCode == Some(0)
    ensures v == TestFailed <==> returnCode == Some(1)
    ensures v == NoReturnCode <==> returnCode.None?
    ensures v.Crashed? <==> returnCode.Some? && returnCode.value != 0 && returnCode.value != 1
    ensures v.Crashed? ==> v.code == returnCode.value
  {
    match returnCode
    case None => NoReturnCode
    case Some(c) => if c == 0 then Clean else if c == 1 then TestFailed else Crashed(c)
  }

  /** The error `_run_test` raises; for a missing return code, after killing the child. */
  datatype RunError = InternalError | DidNotExitCleanly(code: int)

  /**
   * `_run_test(t, failed)` after the child has finished: a failure is
   * appended to `failed`, an error is raised; `killed` is whether the
   * child is killed first.
   */
  method RunTest(t: TestClass, failedCases: seq<TestClass>, returnCode: Option<int>)
    returns (failed: seq<TestClass>, raised: Option<RunError>, killed: bool)
    ensures killed <==> returnCode.None?
    ensures raised.Some? <==> Classify(returnCode) == NoReturnCode || Classify(returnCode).Crashed?
    ensures raised == Some(InternalError) <==> returnCode.None?
    ensures failed == failedCases + (if returnCode == Some(1) then [t] else [])
  {
    failed, raised, killed := failedCases, None, false;
    if returnCode.None? {
      killed := true;
      raised := Some(InternalError);
    } else if returnCode.value == 0 {
    } else if returnCode.value == 1 {
      failed := failed + [t];
    } else {
      raised := Some(DidNotExitCleanly(returnCode.value));
    }
  }

  // ---- A run ---------------------------------------------------------------

  datatype Verdict = Skipped(reason: SkipReason) | Passed | Failed

  /**
   * What happens to one test: skipped for a reason, or run; in this
   * process it fails when it raises, in a child process whenever the
   * child did not exit with 0 (a failure code or an error the run catches).
   */
  function VerdictOf(t: TestClass, env: RunEnv): (v: Verdict)
    ensures v.Skipped? <==> SkipReasonOf(t, env).Some?
    ensures v == Failed <==>
      SkipReasonOf(t, env).None? && (if env.inProcess then env.raisesInProcess(t) else env.returnCode(t) != Some(0))
  {
    match SkipReasonOf(t, env)
    case Some(r) => Skipped(r)
    case None =>
      if env.inProcess then (if env.raisesInProcess(t) then Failed else Passed)
      else if env.returnCode(t) == Some(0) then Passed else Failed
  }

  /** The tests with the given kind of verdict, in order. */
  function Having(tests: seq<TestClass>, env: RunEnv, kind: int): (r: seq<TestClass>)
    requires 0 <= kind < 3
    ensures |r| <= |tests|
    ensures forall t :: t in r <==> t in tests && KindOf(VerdictOf(t, env)) == kind
  {
    if tests == [] then []
    else
      var init := Having(tests[..|tests| - 1], env, kind);
      var last := tests[|tests| - 1];
      assert tests == tests[..|tests| - 1] + [last];
      if KindOf(VerdictOf(last, env)) == kind then init + [last] else init
  }

  /** 0 for skipped, 1 for failed, 2 for passed. */
  function KindOf(v: Verdict): (k: int)
    ensures 0 <= k < 3
  {
    match v
    case Skipped(_) => 0
    case Failed => 1
    case Passed => 2
  }

  /** Every test is skipped, failed or passed, so the three lists add up to all the tests. */
  lemma {:induction false} VerdictsPartition(tests: seq<TestClass>, env: RunEnv)
    ensures |Having(tests, env, 0)| + |Having(tests, env, 1)| + |Having(tests, env, 2)| == |tests|
  {
    if tests != [] {
      VerdictsPartition(tests[..|tests| - 1], env);
    }
  }

  /** One more test adds itself to the list of its kind and to no other. */
  lemma HavingStep(tests: seq<TestClass>, i: nat, env: RunEnv, kind: int)
    requires i < |tests| && 0 <= kind < 3
    ensures Having(tests[..i + 1], env, kind) ==
      Having(tests[..i], env, kind) + (if KindOf(VerdictOf(tests[i], env)) == kind then [tests[i]] else [])
  {
    assert tests[..i + 1][..i] == tests[..i];
  }

  /** Some test failed exactly when the list of failed tests is not empty. */
  lemma FailedListNonEmpty(tests: seq<TestClass>, env: RunEnv)
    ensures |Having(tests, env, 1)| > 0 <==> exists t :: t in tests && VerdictOf(t, env) == Failed
  {
    var f := Having(tests, env, 1);
    if |f| > 0 {
      assert f[0] in f;
    }
    if exists t :: t in tests && VerdictOf(t, env) == Failed {
      var t :| t in tests && VerdictOf(t, env) == Failed;
      assert KindOf(VerdictOf(t, env)) == 1;
      assert t in f;
    }
  }

  /**
   * Whether the test's failure report raises: it ran in this process and
   * raised a test failure whose two files the MIME lookup cannot type. The
   * report is made inside the loop's `except` clause, so the exception
   * leaves `run_tests`. A child's errors carry no files, so their report
   * never raises.
   */
  predicate AbortsRun(t: TestClass, env: RunEnv): (a: bool)
    ensures a ==> VerdictOf(t, env) == Failed
  {
    SkipReasonOf(t, env).None? && env.inProcess && env.raisesInProcess(t) &&
    RdLogging.FailureRaises(env.raisedInProcess(t), env.comparison(t))
  }

  /** How many tests the run gets through: all of them, or those before the first whose failure report raises. */
  function Reached(tests: seq<TestClass>, env: RunEnv): (n: nat)
    ensures n <= |tests|
    ensures forall i :: 0 <= i < n ==> !AbortsRun(tests[i], env)
    ensures n < |tests| ==> AbortsRun(tests[n], env)
  {
    if tests == [] then 0
    else if AbortsRun(tests[0], env) then 0
    else 1 + Reached(tests[1..], env)
  }

  /** The run gets exactly to `i` when no test before it aborts and it is the end or aborts. */
  lemma ReachedAt(tests: seq<TestClass>, env: RunEnv, i: nat)
    requires i <= |tests| && forall j :: 0 <= j < i ==> !AbortsRun(tests[j], env)
    requires i == |tests| || AbortsRun(tests[i], env)
    ensures Reached(tests, env) == i
  {
  }

  /**
   * What the summary reports of a completed run: the tests neither
   * skipped nor failed are the passed ones, and a failure is reported
   * exactly when some test failed.
   */
  lemma SummaryCounts(tests: seq<TestClass>, env: RunEnv)
    ensures |tests| - |Having(tests, env, 0)| - |Having(tests, env, 1)| == |Having(tests, env, 2)|
    ensures |Having(tests, env, 1)| > 0 <==> exists t :: t in tests && VerdictOf(t, env) == Failed
    ensures |Having(tests, env, 1)| == 0 <==> forall t :: t in tests ==> VerdictOf(t, env) != Failed
  {
    VerdictsPartition(tests, env);
    FailedListNonEmpty(tests, env);
  }

  /** The totals reported at the end. */
  datatype Summary = Summary(passed: int, run: int, total: int, exitCode: int)

  /**
   * One pass of `run_tests`' loop: a skipped test joins the skipped list;
   * a test run in this process joins the failed list when it raises; a
   * test run in a child joins it when the child reports failure or the
   * run raises. When the failure report itself raises, the pass is
   * `aborted` before the test joins the failed list.
   */
  method RunOne(testclass: TestClass, env: RunEnv, skipped: seq<TestClass>, failed: seq<TestClass>)
    returns (skippedCases: seq<TestClass>, failedCases: seq<TestClass>, aborted: bool)
    ensures aborted <==> AbortsRun(testclass, env)
    ensures skippedCases == skipped + (if KindOf(VerdictOf(testclass, env)) == 0 then [testclass] else [])
    ensures failedCases == failed + (if !aborted && KindOf(VerdictOf(testclass, env)) == 1 then [testclass] else [])
  {
    skippedCases, failedCases, aborted := skipped, failed, false;
    var reason := SkipReasonOf(testclass, env);
    if reason.Some? {
      skippedCases := skippedCases + [testclass];
      return;
    }
    if env.inProcess {
      if env.raisesInProcess(testclass) {
        aborted := RdLogging.FailureRaises(env.raisedInProcess(testclass), env.comparison(testclass));
        if aborted {
          return;
        }
        failedCases := failedCases + [testclass];
      }
    } else {
      var raised, killed;
      failedCases, raised, killed := RunTest(testclass, failedCases, env.returnCode(testclass));
      if raised.Some? {
        failedCases := failedCases + [testclass];
      }
    }
  }

  /**
   * `run_tests` over the sorted tests: each is skipped, or run and
   * possibly failed; the summary counts as passed the tests neither
   * skipped nor failed, and the exit status is 1 exactly when a test failed.
   * A failure report that raises ends the run there, with no summary.
   */
  method RunTests(tests: seq<TestClass>, env: RunEnv)
    returns (skippedCases: seq<TestClass>, failedCases: seq<TestClass>, summary: Option<Summary>)
    ensures skippedCases == Having(tests[..Reached(tests, env)], env, 0)
    ensures failedCases == Having(tests[..Reached(tests, env)], env, 1)
    ensures summary.None? <==> Reached(tests, env) < |tests|
    ensures summary.Some? ==> summary.value.passed == |Having(tests, env, 2)| && summary.value.passed >= 0
    ensures summary.Some? ==> summary.value.run == |tests| - |skippedCases| && summary.value.total == |tests|
    ensures summary.Some? ==> (summary.value.exitCode == 1 <==> exists t :: t in tests && VerdictOf(t, env) == Failed)
    ensures summary.Some? ==> (summary.value.exitCode == 0 <==> forall t :: t in tests ==> VerdictOf(t, env) != Failed)
  {
    var reached;
    skippedCases, failedCases, reached := RunLoop(tests, env);
    if reached < |tests| {
      return skippedCases, failedCases, None;
    }
    assert tests[..|tests|] == tests;
    SummaryCounts(tests, env);
    summary := Some(Summary(|tests| - |skippedCases| - |failedCases|, |tests| - |skippedCases|, |tests|,
                            if |failedCases| > 0 then 1 else 0));
  }

  /**
   * The loop of `run_tests`: each test in turn, until the end or until a
   * failure report raises; `reached` is where it stopped.
   */
  method RunLoop(tests: seq<TestClass>, env: RunEnv)
    returns (skippedCases: seq<TestClass>, failedCases: seq<TestClass>, reached: nat)
    ensures reached == Reached(tests, env)
    ensures skippedCases == Having(tests[..reached], env, 0)
    ensures failedCases == Having(tests[..reached], env, 1)
  {
    skippedCases, failedCases := [], [];
    for i := 0 to |tests|
      invariant skippedCases == Having(tests[..i], env, 0)
      invariant failedCases == Having(tests[..i], env, 1)
      invariant forall j :: 0 <= j < i ==> !AbortsRun(tests[j], env)
    {
      HavingStep(tests, i, env, 0);
      HavingStep(tests, i, env, 1);
      var aborted;
      skippedCases, failedCases, aborted := RunOne(tests[i], env, skippedCases, failedCases);
      if aborted {
        ReachedAt(tests, env, i);
        return skippedCases, failedCases, i;
      }
    }
    ReachedAt(tests, env, |tests|);
    reached := |tests|;
  }

  /**
   * A run aborts exactly when some test's failure report raises; one in
   * which no test fails is never cut short.
   */
  lemma {:induction false} ReachedAll(tests: seq<TestClass>, env: RunEnv)
    ensures Reached(tests, env) < |tests| <==> exists t :: t in tests && AbortsRun(t, env)
    ensures (forall t :: t in tests ==> VerdictOf(t, env) != Failed) ==> Reached(tests, env) == |tests|
  {
    if tests != [] {
      ReachedAll(tests[1..], env);
      assert forall t :: t in tests <==> t == tests[0] || t in tests[1..];
    }
  }

  // ---- Running one test in the child ---------------------------------------

  /** The index of the first test with the name, if any. */
  function FirstNamed(tests: seq<TestClass>, name: string): (r: Option<nat>)
    ensures r.None? <==> forall i :: 0 <= i < |tests| ==> tests[i].name != name
    ensures r.Some? ==> r.value < |tests| && tests[r.value].name == name &&
                        forall i :: 0 <= i < r.value ==> tests[i].name != name
  {
    if tests == [] then None
    else if tests[0].name == name then Some(0)
    else match FirstNamed(tests[1..], name)
      case None => None
      case Some(i) => Some(i + 1)
  }

  /**
   * `internal_run_test(name)`: runs the first test of that name and exits
   * 0 if it did not raise and 1 if it did; when no test has the name, an
   * error is logged and no exit status is set (`None`).
   */
  method InternalRunTest(tests: seq<TestClass>, testName: string, raises: TestClass -> bool)
    returns (exitCode: Option<int>)
    ensures exitCode.None? <==> FirstNamed(tests, testName).None?
    ensures exitCode.Some? ==> exitCode.value == if raises(tests[FirstNamed(tests, testName).value]) then 1 else 0
  {
    for i := 0 to |tests|
      invariant forall j :: 0 <= j < i ==> tests[j].name != testName
    {
      if tests[i].name == testName {
        var succeeded := !raises(tests[i]);
        if succeeded {
          return Some(0);
        } else {
          return Some(1);
        }
      }
    }
    return None;
  }
}
