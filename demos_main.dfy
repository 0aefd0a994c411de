// The demo program's entry point: a static registry of tests, sorted before
// use, a `--list` mode, an interactive picker whose API filters can never
// all be switched off, and dispatch of the chosen test by name.
module DemosMain {
  import opened Common
  import opened TestCommon
  import Sorting

  /** The registry sorted with `operator<` (a stable sort; `std::sort` gives the same order for distinct entries). */
  function SortedTests(tests: seq<TestMetadata>): (r: seq<TestMetadata>)
    ensures Sorting.SortedBy(r, Less)
    ensures multiset(r) == multiset(tests)
  {
    LessIsStrictOrder();
    Sorting.SortBy(tests, Less)
  }

  /** The line `--list` prints for one test: name, API name, description. */
  function ListLine(t: TestMetadata): string
  {
    t.name + " (" + APIName(t.api) + ") - " + t.description + "\n"
  }

  /** What `--list` prints: one line per test, in order. */
  function ListLines(tests: seq<TestMetadata>): (lines: seq<string>)
    ensures |lines| == |tests|
    ensures forall i :: 0 <= i < |tests| ==> lines[i] == ListLine(tests[i])
  {
    if tests == [] then [] else [ListLine(tests[0])] + ListLines(tests[1..])
  }

  /** What `main` did. `Ran` carries the index of the test that ran, in sorted order. */
  datatype Outcome = Listed(lines: seq<string>) | NoChoice | Ran(index: nat) | Unknown

  /**
   * The index of the first test whose name equals `choice`, or `None`
   * when no test has that name.
   */
  method FindByName(tests: seq<TestMetadata>, choice: string) returns (k: Option<nat>)
    ensures k.Some? ==> k.value < |tests| && tests[k.value].name == choice
    ensures k.Some? ==> forall j :: 0 <= j < k.value ==> tests[j].name != choice
    ensures k.None? <==> forall j :: 0 <= j < |tests| ==> tests[j].name != choice
  {
    var i := 0;
    while i < |tests|
      invariant 0 <= i <= |tests|
      invariant forall j :: 0 <= j < i ==> tests[j].name != choice
    {
      if tests[i].name == choice {
        return Some(i);
      }
      i := i + 1;
    }
    return None;
  }

  /** The process-wide list `RegisterTest` appends to (`test_list()`). */
  class Registry {
    var tests: seq<TestMetadata>

    constructor ()
      ensures tests == []
    {
      tests := [];
    }

    /** Appends in registration order. */
    method RegisterTest(t: TestMetadata)
      modifies this
      ensures tests == old(tests) + [t]
    {
      tests := tests + [t];
    }

    /**
     * `main(argc, argv)` with `args` the whole `argv`. Without a test name on
     * the command line the interactive picker decides, and `guiChoice` is the
     * name it produced ("" when the window was closed). `testMain` gives the
     * value each test object's `main` returns.
     */
    method RunMain(args: seq<string>, guiChoice: string, testMain: nat -> int) returns (o: Outcome, code: int)
      modifies this
      ensures tests == SortedTests(old(tests))
      ensures |args| >= 2 && args[1] == "--list" ==>
        o == Listed(ListLines(tests)) && code == 1
      ensures !(|args| >= 2 && args[1] == "--list") ==>
        var choice := if |args| >= 2 then args[1] else guiChoice;
        if choice == "" then o == NoChoice && code == 0
        else match o
          case Ran(k) =>
            k < |tests| && tests[k].name == choice && code == testMain(tests[k].test) &&
            forall j :: 0 <= j < k ==> tests[j].name != choice
          case Unknown =>
            code == 2 && forall j :: 0 <= j < |tests| ==> tests[j].name != choice
          case _ => false
    {
      tests := SortedTests(tests);
      if |args| >= 2 && args[1] == "--list" {
        o := Listed(ListLines(tests));
        code := 1;
        return;
      }
      var choice := if |args| >= 2 then args[1] else guiChoice;
      if choice == "" {
        o, code := NoChoice, 0;
        return;
      }
      var k := FindByName(tests, choice);
      if k.Some? {
        o, code := Ran(k.value), testMain(tests[k.value].test);
      } else {
        o, code := Unknown, 2;
      }
    }
  }

  /** Whether the filter for `t`'s API is on. */
  function Allowed(allow: seq<bool>, t: TestMetadata): bool
    requires |allow| == 3
  {
    allow[ApiValue(t.api)]
  }

  predicate AnyAllowed(allow: seq<bool>)
  {
    exists j :: 0 <= j < |allow| && allow[j]
  }

  /** Some filter other than `i` is on. */
  predicate OtherEnabled(allow: seq<bool>, i: nat)
  {
    exists j :: 0 <= j < |allow| && j != i && allow[j]
  }

  /** One checkbox: the new state is taken only when another filter is still on. */
  function ToggleStep(allow: seq<bool>, i: nat, newstate: bool): (r: seq<bool>)
    requires i < |allow|
    ensures |r| == |allow|
  {
    if OtherEnabled(allow, i) then allow[i := newstate] else allow
  }

  /** The first `n` checkboxes of one frame, applied in order. */
  function Toggled(allow: seq<bool>, newstates: seq<bool>, n: nat): (r: seq<bool>)
    requires n <= |allow| && |newstates| == |allow|
    ensures |r| == |allow|
  {
    if n == 0 then allow else ToggleStep(Toggled(allow, newstates, n - 1), n - 1, newstates[n - 1])
  }

  /**
   * A checkbox change is refused only when it would switch off the last
   * enabled filter; the other filters never change.
   */
  lemma ToggleStepRefusesOnlyLast(allow: seq<bool>, i: nat, newstate: bool)
    requires i < |allow| && AnyAllowed(allow)
    ensures AnyAllowed(ToggleStep(allow, i, newstate))
    ensures ToggleStep(allow, i, newstate)[i] == newstate ||
            (allow[i] && !newstate && forall j :: 0 <= j < |allow| && j != i ==> !allow[j])
    ensures forall j :: 0 <= j < |allow| && j != i ==> ToggleStep(allow, i, newstate)[j] == allow[j]
  {
    var r := ToggleStep(allow, i, newstate);
    if OtherEnabled(allow, i) {
      var j :| 0 <= j < |allow| && j != i && allow[j];
      assert r[j];
    }
  }

  /** At least one API stays allowed through any sequence of checkbox changes. */
  lemma {:induction false} ToggledKeepsOneAllowed(allow: seq<bool>, newstates: seq<bool>, n: nat)
    requires n <= |allow| && |newstates| == |allow| && AnyAllowed(allow)
    ensures AnyAllowed(Toggled(allow, newstates, n))
  {
    if n > 0 {
      ToggledKeepsOneAllowed(allow, newstates, n - 1);
      ToggleStepRefusesOnlyLast(Toggled(allow, newstates, n - 1), n - 1, newstates[n - 1]);
    }
  }

  /** The interactive picker's state: the three API filters and the current test. */
  class Picker {
    const tests: seq<TestMetadata>
    var allow: array<bool>
    var curtest: nat

    ghost predicate Valid()
      reads this, allow
    {
      allow.Length == 3 && AnyAllowed(allow[..]) && curtest < |tests|
    }

    /** Every filter starts on and the first test is selected (the list must not be empty). */
    constructor (tests: seq<TestMetadata>)
      requires |tests| > 0
      ensures Valid() && fresh(allow)
      ensures this.tests == tests && allow[..] == [true, true, true] && curtest == 0
    {
      this.tests := tests;
      var a := new bool[3];
      a[0], a[1], a[2] := true, true, true;
      allow := a;
      curtest := 0;
      new;
      assert allow[..][0];
    }

    /** The checkbox loop of one frame, `newstates[i]` being what the user clicked. */
    method ApplyToggles(newstates: seq<bool>)
      requires Valid() && |newstates| == 3
      modifies allow
      ensures Valid()
      ensures allow[..] == Toggled(old(allow[..]), newstates, 3)
    {
      ghost var start := allow[..];
      var i := 0;
      while i < 3
        invariant 0 <= i <= 3
        invariant allow[..] == Toggled(start, newstates, i)
        invariant AnyAllowed(allow[..])
      {
        var otherEnabled := false;
        var j := 0;
        while j < 3
          invariant 0 <= j <= 3
          invariant otherEnabled <==> exists m :: 0 <= m < j && m != i && allow[m]
        {
          if i != j && allow[j] {
            otherEnabled := true;
            break;
          }
          j := j + 1;
        }
        assert otherEnabled <==> OtherEnabled(allow[..], i);
        ToggleStepRefusesOnlyLast(allow[..], i, newstates[i]);
        if otherEnabled {
          allow[i] := newstates[i];
        }
        i := i + 1;
      }
    }

    /**
     * If the current test's API is no longer allowed, select the first test
     * whose API is; when there is none the selection stays.
     */
    method Reselect()
      requires Valid()
      modifies this`curtest
      ensures Valid()
      ensures Allowed(allow[..], tests[old(curtest)]) ==> curtest == old(curtest)
      ensures (exists k :: 0 <= k < |tests| && Allowed(allow[..], tests[k])) ==>
        Allowed(allow[..], tests[curtest]) &&
        (curtest == old(curtest) || forall j :: 0 <= j < curtest ==> !Allowed(allow[..], tests[j]))
      ensures (forall k :: 0 <= k < |tests| ==> !Allowed(allow[..], tests[k])) ==> curtest == old(curtest)
    {
      if !allow[ApiValue(tests[curtest].api)] {
        var i := 0;
        while i < |tests|
          invariant 0 <= i <= |tests| && curtest == old(curtest)
          invariant forall j :: 0 <= j < i ==> !Allowed(allow[..], tests[j])
        {
          if allow[ApiValue(tests[i].api)] {
            curtest := i;
            break;
          }
          i := i + 1;
        }
      }
    }

    /** A click on combo entry `i`; only entries whose API is allowed are offered. */
    method Pick(i: nat)
      requires Valid() && i < |tests|
      modifies this`curtest
      ensures Valid()
      ensures curtest == if Allowed(allow[..], tests[i]) then i else old(curtest)
    {
      if allow[ApiValue(tests[i].api)] {
        curtest := i;
      }
    }
  }
}
