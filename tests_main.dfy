// The test program's entry point: a lazily created registry and dispatch of
// one test named "API::Name" on the command line.
module TestsMain {
  import opened Common
  import opened TestCommon

  /** The dispatch key of a test: its API name, "::", its name. */
  function FullName(t: TestMetadata): (n: string)
    ensures |n| == |APIName(t.api)| + 2 + |t.name|
    ensures n[..|APIName(t.api)|] == APIName(t.api) && n[|APIName(t.api)|..|APIName(t.api)| + 2] == "::"
    ensures n[|APIName(t.api)| + 2..] == t.name
  {
    APIName(t.api) + "::" + t.name
  }

  /** The dispatch key identifies the API and the name of a test. */
  lemma FullNameDeterminesApiAndName(a: TestMetadata, b: TestMetadata)
    requires FullName(a) == FullName(b)
    ensures a.api == b.api && a.name == b.name
  {
    assert FullName(a)[0] == APIName(a.api)[0];
    assert FullName(b)[0] == APIName(b.api)[0];
    var n := |APIName(a.api)| + 2;
    assert a.api == b.api;
    assert FullName(a)[n..] == a.name;
    assert FullName(b)[n..] == b.name;
  }

  /** The usage text lists each test as "API::Name -", then its description. */
  function UsageLines(tests: seq<TestMetadata>): (lines: seq<string>)
    ensures |lines| == |tests|
    ensures forall i :: 0 <= i < |tests| ==>
      lines[i] == FullName(tests[i]) + " -\n\t" + tests[i].description + "\n\n"
  {
    if tests == [] then []
    else [FullName(tests[0]) + " -\n\t" + tests[0].description + "\n\n"] + UsageLines(tests[1..])
  }

  /**
   * Whether `main` prints usage instead of running a test. As written it
   * tests `argv[0]`, the program's own name, for "--list".
   */
  predicate UsageMode(args: seq<string>): (u: bool)
    ensures |args| < 2 ==> u
    ensures |args| >= 2 && args[0] != "--list" ==> !u
  {
    |args| < 2 || args[0] == "--list"
  }

  /** "--list" given as the first argument is taken for a test name, not for listing. */
  lemma ListFlagIsATestName(prog: string)
    requires prog != "--list"
    ensures !UsageMode([prog, "--list"])
  {
  }

  /**
   * The message of the `TEST_ERROR` that opens the usage output, after the
   * macro's file-and-line prefix; `prog` is `argv[0]`.
   */
  function UsageError(prog: string): (m: string)
    ensures |m| > 15 + |prog| && m[..15] == "Invalid usage: " && m[15..15 + |prog|] == prog
  {
    "Invalid usage: " + prog + " <api>::<test-name>, or --list to list the tests"
  }

  /**
   * What usage mode reports: the error message on the debug output, then
   * on standard output an empty line followed by the test list.
   */
  datatype Outcome = Usage(error: string, stdout: seq<string>) | Ran(index: nat) | Unknown

  /** The first test whose "API::Name" equals `name`. */
  method FindByFullName(tests: seq<TestMetadata>, name: string) returns (k: Option<nat>)
    ensures k.Some? ==> k.value < |tests| && FullName(tests[k.value]) == name
    ensures k.Some? ==> forall j :: 0 <= j < k.value ==> FullName(tests[j]) != name
    ensures k.None? <==> forall j :: 0 <= j < |tests| ==> FullName(tests[j]) != name
  {
    var i := 0;
    while i < |tests|
      invariant 0 <= i <= |tests|
      invariant forall j :: 0 <= j < i ==> FullName(tests[j]) != name
    {
      var fullname := APIName(tests[i].api);
      fullname := fullname + "::";
      fullname := fullname + tests[i].name;
      if fullname == name {
        return Some(i);
      }
      i := i + 1;
    }
    return None;
  }

  /** The global `test_list`: null until the first registration or `main`. */
  class TestList {
    var list: Option<seq<TestMetadata>>

    constructor ()
      ensures list == None
    {
      list := None;
    }

    function Contents(): seq<TestMetadata>
      reads this
    {
      if list.None? then [] else list.value
    }

    /** Creates the list on first use, then appends in registration order. */
    method RegisterTest(t: TestMetadata)
      modifies this
      ensures list == Some(old(Contents()) + [t])
    {
      if list.None? {
        list := Some([]);
      }
      list := Some(list.value + [t]);
    }

    /** `main(argc, argv)`; `testMain` gives the value each test object's `main` returns. */
    method RunMain(args: seq<string>, testMain: nat -> int) returns (o: Outcome, code: int)
      modifies this
      ensures list == Some(old(Contents()))
      ensures UsageMode(args) ==>
                code == 1 &&
                o == Usage(UsageError(if args == [] then "" else args[0]), ["\n"] + UsageLines(Contents()))
      ensures !UsageMode(args) ==> match o
        case Ran(k) =>
          k < |Contents()| && FullName(Contents()[k]) == args[1] &&
          code == testMain(Contents()[k].test) &&
          forall j :: 0 <= j < k ==> FullName(Contents()[j]) != args[1]
        case Unknown =>
          code == 2 && forall j :: 0 <= j < |Contents()| ==> FullName(Contents()[j]) != args[1]
        case _ => false
    {
      if list.None? {
        list := Some([]);
      }
      var tests := list.value;
      if |args| < 2 || args[0] == "--list" {
        var prog := if args == [] then "" else args[0];
        o, code := Usage(UsageError(prog), ["\n"] + UsageLines(tests)), 1;
        return;
      }
      var k := FindByFullName(tests, args[1]);
      if k.Some? {
        o, code := Ran(k.value), testMain(tests[k.value].test);
      } else {
        o, code := Unknown, 2;
      }
    }
  }
}
