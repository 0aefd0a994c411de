// The test log: the exception a test raises to name the files that differ,
// and the logger that writes indented lines to standard output and to the
// log files, with the begin/end, success and failure message formats.
module RdLogging {
  import opened Common

  // ---- Splitting and joining lines -----------------------------------------

  /** `s.split(sep)`: the pieces between separators, as many as separators plus one. */
  function Split(s: string, sep: char): (pieces: seq<string>)
    ensures |pieces| >= 1
    ensures forall i :: 0 <= i < |pieces| ==> sep !in pieces[i]
  {
    if s == [] then [""]
    else
      var p := Split(s[..|s| - 1], sep);
      var c := s[|s| - 1];
      if c == sep then p + [""] else p[..|p| - 1] + [p[|p| - 1] + [c]]
  }

  /** `sep.join(pieces)`. */
  function Join(pieces: seq<string>, sep: char): (s: string)
    requires |pieces| >= 1
  {
    if |pieces| == 1 then pieces[0] else Join(pieces[..|pieces| - 1], sep) + [sep] + pieces[|pieces| - 1]
  }

  /** Extending the last piece extends the joined string. */
  lemma {:induction false} JoinExtendLast(pieces: seq<string>, sep: char, x: string)
    requires |pieces| >= 1
    ensures Join(pieces[..|pieces| - 1] + [pieces[|pieces| - 1] + x], sep) == Join(pieces, sep) + x
  {
    var q := pieces[..|pieces| - 1] + [pieces[|pieces| - 1] + x];
    if |pieces| > 1 {
      assert q[..|q| - 1] == pieces[..|pieces| - 1];
    }
  }

  /** Joining the pieces of a split gives the string back. */
  lemma {:induction false} JoinSplit(s: string, sep: char)
    ensures Join(Split(s, sep), sep) == s
  {
    if s != [] {
      var init, c := s[..|s| - 1], s[|s| - 1];
      var p := Split(init, sep);
      JoinSplit(init, sep);
      assert init + [c] == s;
      if c == sep {
        assert Split(s, sep) == p + [""];
        var q := p + [""];
        assert q[..|q| - 1] == p;
        assert Join(q, sep) == Join(p, sep) + [sep] + "";
      } else {
        assert Split(s, sep) == p[..|p| - 1] + [p[|p| - 1] + [c]];
        JoinExtendLast(p, sep, [c]);
      }
    }
  }

  /** Splitting after one more separator and a piece free of separators adds that piece. */
  lemma {:induction false} SplitAppend(a: string, sep: char, x: string)
    requires sep !in x
    ensures Split(a + [sep] + x, sep) == Split(a, sep) + [x]
    decreases |x|
  {
    if x == [] {
      assert a + [sep] + x == a + [sep];
      assert (a + [sep])[..|a|] == a;
    } else {
      var x' := x[..|x| - 1];
      var c := x[|x| - 1];
      SplitAppend(a, sep, x');
      var s := a + [sep] + x;
      assert s[..|s| - 1] == a + [sep] + x';
      assert x' + [c] == x;
    }
  }

  /** A string free of separators splits into itself. */
  lemma {:induction false} SplitNoSeparator(x: string, sep: char)
    requires sep !in x
    ensures Split(x, sep) == [x]
  {
    if x != [] {
      SplitNoSeparator(x[..|x| - 1], sep);
      assert x[..|x| - 1] + [x[|x| - 1]] == x;
    }
  }

  /** Splitting a join of pieces free of separators gives the pieces back. */
  lemma {:induction false} SplitJoin(pieces: seq<string>, sep: char)
    requires |pieces| >= 1
    requires forall i :: 0 <= i < |pieces| ==> sep !in pieces[i]
    ensures Split(Join(pieces, sep), sep) == pieces
  {
    if |pieces| == 1 {
      SplitNoSeparator(pieces[0], sep);
    } else {
      var init := pieces[..|pieces| - 1];
      SplitJoin(init, sep);
      SplitAppend(Join(init, sep), sep, pieces[|pieces| - 1]);
      assert init + [pieces[|pieces| - 1]] == pieces;
    }
  }

  // ---- What one print writes ------------------------------------------------

  /** `n` spaces. */
  function Spaces(n: nat): (s: string)
    ensures |s| == n && forall i :: 0 <= i < n ==> s[i] == ' '
  {
    seq(n, _ => ' ')
  }

  /** The indentation written before each line: nothing unless it is positive. */
  function Pad(indentation: int): (s: string)
    ensures indentation <= 0 ==> s == []
    ensures indentation > 0 ==> |s| == indentation && forall i :: 0 <= i < |s| ==> s[i] == ' '
  {
    if indentation > 0 then Spaces(indentation) else []
  }

  /** Each piece, its padding in front and a newline after. */
  function RenderPieces(pieces: seq<string>, indentation: int): string
  {
    if pieces == [] then []
    else RenderPieces(pieces[..|pieces| - 1], indentation) + Pad(indentation) + pieces[|pieces| - 1] + "\n"
  }

  /** What `print(line)` writes to an output at the given indentation. */
  function Rendered(line: string, indentation: int): string
  {
    RenderPieces(Split(line, '\n'), indentation)
  }

  /** The pieces with the padding in front of each. */
  function Indented(pieces: seq<string>, indentation: int): (r: seq<string>)
    ensures |r| == |pieces|
    ensures forall i :: 0 <= i < |r| ==> r[i] == Pad(indentation) + pieces[i]
  {
    if pieces == [] then []
    else Indented(pieces[..|pieces| - 1], indentation) + [Pad(indentation) + pieces[|pieces| - 1]]
  }

  lemma {:induction false} RenderPiecesJoin(pieces: seq<string>, indentation: int)
    requires |pieces| >= 1
    ensures RenderPieces(pieces, indentation) == Join(Indented(pieces, indentation), '\n') + "\n"
  {
    var init, last := pieces[..|pieces| - 1], pieces[|pieces| - 1];
    var pad := Pad(indentation);
    var ind := Indented(pieces, indentation);
    assert RenderPieces(pieces, indentation) == RenderPieces(init, indentation) + pad + last + "\n";
    assert ind == Indented(init, indentation) + [pad + last];
    if |pieces| > 1 {
      var ii := Indented(init, indentation);
      RenderPiecesJoin(init, indentation);
      assert ind[..|ind| - 1] == ii;
      assert Join(ind, '\n') == Join(ii, '\n') + ['\n'] + (pad + last);
      assert RenderPieces(init, indentation) + pad + last + "\n" == Join(ii, '\n') + ['\n'] + (pad + last) + "\n";
    } else {
      assert init == [];
      assert Join(ind, '\n') == pad + last;
    }
  }

  /** Padding adds no newline to a piece that has none. */
  lemma IndentedNoNewline(pieces: seq<string>, indentation: int)
    requires forall i :: 0 <= i < |pieces| ==> '\n' !in pieces[i]
    ensures forall i :: 0 <= i < |pieces| ==> '\n' !in Indented(pieces, indentation)[i]
  {
    var pad := Pad(indentation);
    assert '\n' !in pad;
    forall i | 0 <= i < |pieces|
      ensures '\n' !in Indented(pieces, indentation)[i]
    {
      assert Indented(pieces, indentation)[i] == pad + pieces[i];
    }
  }

  /**
   * The lines written by `print(line)` are exactly the newline-separated
   * pieces of `line`, each behind the indentation; the output ends with a
   * newline.
   */
  lemma RenderedLines(line: string, indentation: int)
    ensures Split(Rendered(line, indentation), '\n') == Indented(Split(line, '\n'), indentation) + [""]
  {
    var split := Split(line, '\n');
    var ind := Indented(split, indentation);
    RenderPiecesJoin(split, indentation);
    IndentedNoNewline(split, indentation);
    var pieces := ind + [""];
    assert pieces[..|pieces| - 1] == ind;
    assert Join(pieces, '\n') == Join(ind, '\n') + "\n";
    assert forall i :: 0 <= i < |pieces| ==> '\n' !in pieces[i];
    SplitJoin(pieces, '\n');
  }

  /** Without indentation, `print(line)` writes the line itself and a newline. */
  lemma RenderedUnindented(line: string)
    ensures Rendered(line, 0) == line + "\n"
  {
    var pieces := Split(line, '\n');
    RenderPiecesJoin(pieces, 0);
    assert forall i :: 0 <= i < |pieces| ==> Indented(pieces, 0)[i] == pieces[i];
    assert Indented(pieces, 0) == pieces;
    JoinSplit(line, '\n');
  }

  /** Where the log goes: standard output or a file opened for writing. */
  datatype Output = Stdout | LogFile(path: string)

  /** What `print(line, with_stdout)` writes to one output: nothing to standard output when it is left out. */
  function Written(o: Output, withStdout: bool, line: string, indentation: int): (w: string)
    ensures o != Stdout || withStdout ==> w == Rendered(line, indentation)
    ensures o == Stdout && !withStdout ==> w == []
  {
    if o == Stdout && !withStdout then [] else Rendered(line, indentation)
  }

  /** Several prints, each a line at an indentation, one after the other. */
  function Transcript(lines: seq<(string, int)>): string
  {
    if lines == [] then []
    else Transcript(lines[..|lines| - 1]) + Rendered(lines[|lines| - 1].0, lines[|lines| - 1].1)
  }

  // ---- Message formats ------------------------------------------------------

  /** The text `header(text)` prints. */
  function HeaderLine(text: string): (h: string)
    ensures |h| == |text| + 10 && h[0] == '\n' && h[|h| - 1] == '\n'
    ensures h[1..|h| - 1] == "### " + text + " ###"
  {
    "\n### " + text + " ###\n"
  }

  /** A header is a blank line, the title line and another blank line. */
  lemma HeaderLines(text: string)
    requires '\n' !in text
    ensures Split(HeaderLine(text), '\n') == ["", "### " + text + " ###", ""]
  {
    var pieces := ["", "### " + text + " ###", ""];
    assert Join(pieces[..2], '\n') == "" + "\n" + pieces[1];
    assert Join(pieces, '\n') == HeaderLine(text);
    SplitJoin(pieces, '\n');
  }

  /** The line `begin_test` prints: one line when the name is. */
  function BeginLine(testName: string): (l: string)
    ensures |l| == |testName| + 16
    ensures l[..15] == ">> Begin test '" && l[15..|l| - 1] == testName && l[|l| - 1] == '\''
    ensures '\n' !in testName ==> '\n' !in l
  {
    ">> Begin test '" + testName + "'"
  }

  function EndLine(testName: string): (l: string)
    ensures |l| == |testName| + 14
    ensures l[..13] == "<< End test '" && l[13..|l| - 1] == testName && l[|l| - 1] == '\''
    ensures '\n' !in testName ==> '\n' !in l
  {
    "<< End test '" + testName + "'"
  }

  function SuccessLine(message: string): (l: string)
    ensures |l| == |message| + 3 && l[..3] == "== " && l[3..] == message
  {
    "== " + message
  }

  function FailureLine(testName: string, exception: string): (l: string)
    ensures |l| == |testName| + |exception| + 16
  {
    "!! FAILURE in " + testName + ": " + exception
  }

  /**
   * A failure line opens with `!! FAILURE in ` and the test's name, ends
   * with the exception's text, and is one line when both are.
   */
  lemma FailureLineParts(testName: string, exception: string)
    ensures var l := FailureLine(testName, exception);
      l[..14] == "!! FAILURE in " && l[14..14 + |testName|] == testName &&
      l[|l| - |exception|..] == exception &&
      ('\n' !in testName && '\n' !in exception ==> '\n' !in l)
  {
  }

  /** One traceback frame: its file, line and function. */
  datatype Frame = Frame(filename: string, lineno: nat, name: string)

  /** A traceback line: the file, line number and function of one frame. */
  function FrameLine(f: Frame): (l: string)
    ensures |l| >= 22 + |f.filename| + |f.name|
  {
    "!!   File \"" + f.filename + "\", line " + Decimal(f.lineno) + ", in " + f.name
  }

  /**
   * A traceback line opens with `!!   File "` and the file name, ends
   * with the function's name, and is one line when both names are.
   */
  lemma FrameLineParts(f: Frame)
    ensures var l := FrameLine(f);
      l[..11] == "!!   File \"" && l[11..11 + |f.filename|] == f.filename &&
      l[|l| - |f.name|..] == f.name &&
      ('\n' !in f.filename && '\n' !in f.name ==> '\n' !in l)
  {
  }

  /** The number after `", line ` reads back as the frame's line number. */
  lemma FrameLineNumber(f: Frame)
    ensures var k := 19 + |f.filename|;
      var l := FrameLine(f);
      k + |Decimal(f.lineno)| <= |l| && l[k - 8..k] == "\", line " &&
      DigitsValue(l[k..k + |Decimal(f.lineno)|]) == f.lineno
  {
    var k := 19 + |f.filename|;
    assert FrameLine(f)[k..k + |Decimal(f.lineno)|] == Decimal(f.lineno);
    DigitsValueOfDecimal(f.lineno);
  }

  /** The part of a path after its last separator: `os.path.basename` with `/`. */
  function Basename(path: string): (b: string)
    ensures '/' !in b
    ensures |b| <= |path| && b == path[|path| - |b|..]
  {
    if path == [] then []
    else if path[|path| - 1] == '/' then []
    else
      var b := Basename(path[..|path| - 1]) + [path[|path| - 1]];
      assert path[|path| - |b|..] == path[..|path| - 1][|path| - |b|..] + [path[|path| - 1]];
      b
  }

  /** The base name is the whole path or follows its last separator. */
  lemma {:induction false} BasenameFollowsSlash(path: string)
    ensures var b := Basename(path);
      |b| < |path| ==> path[|path| - |b| - 1] == '/'
  {
    if path != [] && path[|path| - 1] != '/' {
      var init := path[..|path| - 1];
      BasenameFollowsSlash(init);
      assert |Basename(path)| == |Basename(init)| + 1;
      if |Basename(path)| < |path| {
        assert path[|path| - |Basename(path)| - 1] == init[|init| - |Basename(init)| - 1];
      }
    }
  }

  /** The name a failing test's file is copied to among the artifacts. */
  function ArtifactName(testName: string, file: string): (a: string)
    ensures |a| == |testName| + 1 + |Basename(file)|
    ensures a[..|testName| + 1] == testName + "_"
    ensures '/' !in a[|testName| + 1..]
  {
    testName + "_" + Basename(file)
  }

  /**
   * An artifact name is the test's name, an underscore and the file's base
   * name: two files of one test with different base names never collide.
   */
  lemma ArtifactNameParts(testName: string, f1: string, f2: string)
    ensures ArtifactName(testName, f1) == ArtifactName(testName, f2) <==> Basename(f1) == Basename(f2)
  {
    var a1, a2 := ArtifactName(testName, f1), ArtifactName(testName, f2);
    assert a1[|testName| + 1..] == Basename(f1);
    assert a2[|testName| + 1..] == Basename(f2);
  }

  function ArtifactNames(testName: string, files: seq<string>): (names: seq<string>)
    ensures |names| == |files|
    ensures forall i :: 0 <= i < |files| ==> names[i] == ArtifactName(testName, files[i])
  {
    seq(|files|, i requires 0 <= i < |files| => ArtifactName(testName, files[i]))
  }

  /** `','.join(names)`, empty for no names. */
  function CommaList(names: seq<string>): string
  {
    if names == [] then "" else Join(names, ',')
  }

  // ---- The exception --------------------------------------------------------

  /** The exception a check raises, naming the files to compare. */
  class TestFailureException {
    var message: string
    var files: seq<string>

    /** Keeps the message and each extra argument, converted to a string, in order. */
    constructor(message: string, args: seq<string>)
      ensures this.message == message && files == args
    {
      this.message := message;
      this.files := [];
      new;
      for i := 0 to |args|
        invariant this.message == message && files == args[..i]
      {
        files := files + [args[i]];
      }
      assert args[..|args|] == args;
    }

    /** `str(ex)`: the message alone, without the files. */
    function Str(): (s: string)
      reads this
      ensures s == message
    {
      message
    }
  }

  /**
   * An exception as the logger sees it: its text, and for a
   * `TestFailureException` its files.
   */
  datatype Raised = Raised(text: string, failureFiles: Option<seq<string>>)

  function FromTestFailure(e: TestFailureException): (r: Raised)
    reads e
    ensures r.text == e.message && r.failureFiles == Some(e.files)
  {
    Raised(e.Str(), Some(e.files))
  }

  /**
   * What comparing two failing files finds: images, with or without a
   * difference image left behind; text, with its unified diff (already
   * stripped); another known type; or a type `mimetypes` does not know.
   */
  datatype Comparison = Images(diffExists: bool) | Text(diff: string) | OtherType | UnknownType

  /** The suffix ` (<test>_diff.png)` naming the difference image, when two images left one. */
  function DiffFile(names: seq<string>, testName: string, cmp: Comparison): string
  {
    if |names| == 2 && cmp == Images(true) then " (" + testName + "_diff.png)" else ""
  }

  /** The text diff of two text files, indented one step further than the lines around it. */
  function DiffLines(names: seq<string>, cmp: Comparison, ind: int): seq<(string, int)>
  {
    if |names| == 2 && cmp.Text? then [(">> Text diff", ind), (cmp.diff, ind + 4), ("<< Text diff", ind)] else []
  }

  /** `failure` raises exactly for two failing files of a type `mimetypes` does not know. */
  predicate CompareRaises(names: seq<string>, cmp: Comparison)
  {
    |names| == 2 && cmp == UnknownType
  }

  /**
   * The lines reporting a test failure's copied files: the text diff when
   * there is one, then the list of names. With two files of unknown type
   * the membership test on the missing type raises before either.
   */
  function CompareLines(names: seq<string>, testName: string, cmp: Comparison, ind: int): seq<(string, int)>
  {
    if CompareRaises(names, cmp) then []
    else DiffLines(names, cmp, ind) + [("!! Compare: " + CommaList(names) + DiffFile(names, testName, cmp), ind)]
  }

  function FrameLines(frames: seq<Frame>, ind: int): (lines: seq<(string, int)>)
    ensures |lines| == |frames|
    ensures forall i :: 0 <= i < |frames| ==> lines[i] == (FrameLine(frames[i]), ind)
  {
    if frames == [] then []
    else FrameLines(frames[..|frames| - 1], ind) + [(FrameLine(frames[|frames| - 1]), ind)]
  }

  /**
   * The lines `failure` prints, at indentation `ind`: the failure, the
   * traceback, and for a test failure the report of its files.
   */
  function FailureTranscript(testName: string, ex: Raised, frames: seq<Frame>, cmp: Comparison, ind: int)
    : seq<(string, int)>
  {
    [(FailureLine(testName, ex.text), ind)] + FrameLines(frames, ind) +
    if ex.failureFiles.None? then [] else CompareLines(ArtifactNames(testName, ex.failureFiles.value), testName, cmp, ind)
  }

  predicate FailureRaises(ex: Raised, cmp: Comparison)
  {
    ex.failureFiles.Some? && CompareRaises(ex.failureFiles.value, cmp)
  }

  /**
   * The failure report opens with the failing test's name and the
   * exception's text, then the traceback; it stops there exactly for an
   * exception without files or one that raises, and otherwise ends with
   * the list of the copied files, each named after the test.
   */
  lemma FailureTranscriptShape(testName: string, ex: Raised, frames: seq<Frame>, cmp: Comparison, ind: int)
    ensures var t := FailureTranscript(testName, ex, frames, cmp, ind);
      t[0] == (FailureLine(testName, ex.text), ind) &&
      t[1..|frames| + 1] == FrameLines(frames, ind) &&
      (ex.failureFiles.None? || FailureRaises(ex, cmp) <==> |t| == |frames| + 1) &&
      (ex.failureFiles.Some? && !FailureRaises(ex, cmp) ==>
        var names := ArtifactNames(testName, ex.failureFiles.value);
        t[|t| - 1] == ("!! Compare: " + CommaList(names) + DiffFile(names, testName, cmp), ind))
  {
    var head := [(FailureLine(testName, ex.text), ind)] + FrameLines(frames, ind);
    var t := FailureTranscript(testName, ex, frames, cmp, ind);
    assert t[..|head|] == head;
    assert t[1..|frames| + 1] == head[1..];
    if ex.failureFiles.Some? {
      var names := ArtifactNames(testName, ex.failureFiles.value);
      assert |names| == 2 <==> |ex.failureFiles.value| == 2;
    }
  }

  // ---- The logger -----------------------------------------------------------

  /** The log: its indentation, the running test's name and the outputs with what each has received. */
  class TestLogger {
    var indentation: int
    var testName: string
    var outputs: seq<Output>
    var texts: seq<string>

    /** One text per output. */
    ghost predicate Valid()
      reads this
    {
      |texts| == |outputs|
    }

    /** Indentation 0, no test, standard output only. */
    constructor()
      ensures Valid()
      ensures indentation == 0 && testName == "" && outputs == [Stdout] && texts == [""]
    {
      indentation, testName, outputs, texts := 0, "", [Stdout], [""];
    }

    /** `add_output(path)`: a file opened for writing, so it starts empty. */
    method AddOutput(path: string)
      requires Valid()
      modifies this`outputs, this`texts
      ensures Valid()
      ensures outputs == old(outputs) + [LogFile(path)] && texts == old(texts) + [""]
    {
      outputs := outputs + [LogFile(path)];
      texts := texts + [""];
    }

    /**
     * `print(line, with_stdout)`: every output but standard output when
     * `with_stdout` is false receives each piece of `line`, indented and
     * on its own line.
     */
    method Print(line: string, withStdout: bool)
      requires Valid()
      modifies this`texts
      ensures Valid()
      ensures forall k :: 0 <= k < |texts| ==>
        texts[k] == old(texts[k]) + Written(outputs[k], withStdout, line, indentation)
    {
      var pieces := Split(line, '\n');
      for k := 0 to |outputs|
        invariant |texts| == |outputs|
        invariant forall m :: 0 <= m < k ==> texts[m] == old(texts[m]) + Written(outputs[m], withStdout, line, indentation)
        invariant forall m :: k <= m < |texts| ==> texts[m] == old(texts[m])
      {
        if outputs[k] == Stdout && !withStdout {
          continue;
        }
        var written := WriteLines(texts[k], pieces, indentation);
        texts := texts[k := written];
      }
    }

    /** The writes to one output: each piece, behind the indentation, then a newline. */
    static method WriteLines(text: string, pieces: seq<string>, indentation: int) returns (written: string)
      ensures written == text + RenderPieces(pieces, indentation)
    {
      written := text;
      for j := 0 to |pieces|
        invariant written == text + RenderPieces(pieces[..j], indentation)
      {
        var l := pieces[j];
        if indentation > 0 {
          written := written + Spaces(indentation);
        }
        written := written + l;
        written := written + "\n";
        assert pieces[..j + 1][..j] == pieces[..j];
      }
      assert pieces[..|pieces|] == pieces;
    }

    /** `header(text)`. */
    method Header(text: string)
      requires Valid()
      modifies this`texts
      ensures Valid()
      ensures forall k :: 0 <= k < |texts| ==> texts[k] == old(texts[k]) + Rendered(HeaderLine(text), indentation)
    {
      Print(HeaderLine(text), true);
    }

    method Indent()
      modifies this`indentation
      ensures indentation == old(indentation) + 4
    {
      indentation := indentation + 4;
    }

    method Dedent()
      modifies this`indentation
      ensures indentation == old(indentation) - 4
    {
      indentation := indentation - 4;
    }

    /** `begin_test(name)`: records the test, prints the opening line, then indents. */
    method BeginTest(name: string)
      requires Valid()
      modifies this`testName, this`texts, this`indentation
      ensures Valid()
      ensures testName == name && indentation == old(indentation) + 4
      ensures forall k :: 0 <= k < |texts| ==> texts[k] == old(texts[k]) + Rendered(BeginLine(name), old(indentation))
    {
      testName := name;
      Print(BeginLine(name), true);
      Indent();
    }

    /** `end_test(name)`: dedents, prints the closing line and forgets the test. */
    method EndTest(name: string)
      requires Valid()
      modifies this`testName, this`texts, this`indentation
      ensures Valid()
      ensures testName == "" && indentation == old(indentation) - 4
      ensures forall k :: 0 <= k < |texts| ==> texts[k] == old(texts[k]) + Rendered(EndLine(name), old(indentation) - 4)
    {
      Dedent();
      Print(EndLine(name), true);
      testName := "";
    }

    /**
     * A test bracketed by `begin_test` and `end_test`: the indentation is
     * back where it was, no test is recorded, and both lines are written at
     * the outer indentation.
     */
    method BeginThenEnd(name: string)
      requires Valid()
      modifies this`testName, this`texts, this`indentation
      ensures Valid()
      ensures indentation == old(indentation) && testName == ""
      ensures forall k :: 0 <= k < |texts| ==>
        texts[k] == old(texts[k]) + Rendered(BeginLine(name), old(indentation)) + Rendered(EndLine(name), old(indentation))
    {
      BeginTest(name);
      EndTest(name);
    }

    /** `success(message)`. */
    method Success(message: string)
      requires Valid()
      modifies this`texts
      ensures Valid()
      ensures forall k :: 0 <= k < |texts| ==> texts[k] == old(texts[k]) + Rendered(SuccessLine(message), indentation)
    {
      Print(SuccessLine(message), true);
    }

    /** One print on every output, as the next line of a transcript. */
    method PrintNext(line: string, ghost before: seq<string>, ghost lines: seq<(string, int)>)
      requires Valid() && |before| == |texts|
      requires forall k :: 0 <= k < |texts| ==> texts[k] == before[k] + Transcript(lines)
      modifies this`texts
      ensures Valid()
      ensures forall k :: 0 <= k < |texts| ==> texts[k] == before[k] + Transcript(lines + [(line, indentation)])
    {
      Print(line, true);
      assert (lines + [(line, indentation)])[..|lines|] == lines;
    }

    /**
     * The report of a test failure's copied files (`names`), printed after
     * the traceback; `raised` is whether the type test raised first.
     */
    method PrintCompare(names: seq<string>, cmp: Comparison, ghost before: seq<string>, ghost lines: seq<(string, int)>)
      returns (raised: bool)
      requires Valid() && |before| == |texts|
      requires forall k :: 0 <= k < |texts| ==> texts[k] == before[k] + Transcript(lines)
      modifies this`texts, this`indentation
      ensures Valid() && indentation == old(indentation)
      ensures raised <==> CompareRaises(names, cmp)
      ensures forall k :: 0 <= k < |texts| ==>
        texts[k] == before[k] + Transcript(lines + CompareLines(names, testName, cmp, indentation))
    {
      raised := false;
      var diffFile := "";
      ghost var ls := lines;
      if |names| == 2 {
        match cmp {
          case UnknownType =>
            assert lines + CompareLines(names, testName, cmp, indentation) == lines;
            raised := true;
            return;
          case Images(diffExists) =>
            if diffExists {
              diffFile := " (" + testName + "_diff.png)";
            }
          case Text(diff) =>
            PrintNext(">> Text diff", before, ls);
            ls := ls + [(">> Text diff", indentation)];
            Indent();
            PrintNext(diff, before, ls);
            ls := ls + [(diff, indentation)];
            Dedent();
            PrintNext("<< Text diff", before, ls);
            ls := ls + [("<< Text diff", indentation)];
          case OtherType =>
        }
      }
      assert ls == lines + DiffLines(names, cmp, indentation);
      assert diffFile == DiffFile(names, testName, cmp);
      PrintNext("!! Compare: " + CommaList(names) + diffFile, before, ls);
      assert lines + CompareLines(names, testName, cmp, indentation) == ls + [("!! Compare: " + CommaList(names) + diffFile, indentation)];
    }

    /**
     * `failure(ex)`: the failure line and the traceback (`frames`); for a
     * test failure, each file is copied under its artifact name and, when
     * there are exactly two, compared according to `cmp`. `raised` is
     * whether the comparison raised.
     */
    method Failure(ex: Raised, frames: seq<Frame>, cmp: Comparison) returns (raised: bool)
      requires Valid()
      modifies this`texts, this`indentation
      ensures Valid()
      ensures raised <==> FailureRaises(ex, cmp)
      ensures indentation == old(indentation)
      ensures forall k :: 0 <= k < |texts| ==>
        texts[k] == old(texts[k]) + Transcript(FailureTranscript(testName, ex, frames, cmp, indentation))
    {
      ghost var before := texts;
      ghost var lines: seq<(string, int)> := [];
      PrintNext(FailureLine(testName, ex.text), before, lines);
      lines := lines + [(FailureLine(testName, ex.text), indentation)];
      PrintFrames(frames, before, lines);
      lines := lines + FrameLines(frames, indentation);
      raised := false;
      if ex.failureFiles.Some? {
        var fileList := ArtifactList(ex.failureFiles.value);
        raised := PrintCompare(fileList, cmp, before, lines);
      } else {
        assert lines == FailureTranscript(testName, ex, frames, cmp, indentation);
      }
    }

    /** The traceback, one line per frame. */
    method PrintFrames(frames: seq<Frame>, ghost before: seq<string>, ghost lines: seq<(string, int)>)
      requires Valid() && |before| == |texts|
      requires forall k :: 0 <= k < |texts| ==> texts[k] == before[k] + Transcript(lines)
      modifies this`texts
      ensures Valid()
      ensures forall k :: 0 <= k < |texts| ==> texts[k] == before[k] + Transcript(lines + FrameLines(frames, indentation))
    {
      assert lines + FrameLines(frames[..0], indentation) == lines;
      for i := 0 to |frames|
        invariant Valid() && |before| == |texts|
        invariant forall k :: 0 <= k < |texts| ==> texts[k] == before[k] + Transcript(lines + FrameLines(frames[..i], indentation))
      {
        PrintNext(FrameLine(frames[i]), before, lines + FrameLines(frames[..i], indentation));
        assert frames[..i + 1][..i] == frames[..i];
        assert lines + FrameLines(frames[..i + 1], indentation) ==
          lines + FrameLines(frames[..i], indentation) + [(FrameLine(frames[i]), indentation)];
      }
      assert frames[..|frames|] == frames;
    }

    /** The artifact names of the failing files, in order. */
    method ArtifactList(files: seq<string>) returns (fileList: seq<string>)
      ensures fileList == ArtifactNames(testName, files)
    {
      fileList := [];
      for i := 0 to |files|
        invariant |fileList| == i
        invariant forall k :: 0 <= k < i ==> fileList[k] == ArtifactName(testName, files[k])
      {
        fileList := fileList + [ArtifactName(testName, files[i])];
      }
    }
  }
}
