// Shared demo-test plumbing: command-line parsing in `GraphicsTest::Init`,
// the frame limiter, and the glslc command line used to compile shaders.
module GraphicsTestCommon {
  import opened Common
  import opened TestCommon

  /** C `isspace` in the "C" locale. */
  predicate IsSpace(c: char)
  {
    c == ' ' || c == '\t' || c == '\n' || c == '\U{B}' || c == '\U{C}' || c == '\r'
  }

  /** Length of the longest prefix of `s` made of decimal digits. */
  function DigitRun(s: string): (n: nat)
    ensures n <= |s|
    ensures forall i :: 0 <= i < n ==> IsDigit(s[i])
    ensures n < |s| ==> !IsDigit(s[n])
  {
    if s != [] && IsDigit(s[0]) then 1 + DigitRun(s[1..]) else 0
  }

  /**
   * C `atoi`: leading white space, an optional sign, then as many decimal
   * digits as follow; no digits gives 0. (Overflow is undefined in C and is
   * not modelled.)
   */
  function Atoi(s: string): (n: int)
    ensures s == [] ==> n == 0
    ensures s != [] && !IsSpace(s[0]) && !IsDigit(s[0]) && s[0] != '-' && s[0] != '+' ==> n == 0
  {
    if s != [] && IsSpace(s[0]) then Atoi(s[1..])
    else if s != [] && (s[0] == '-' || s[0] == '+') then
      var v: int := DigitsValue(s[1..][..DigitRun(s[1..])]);
      if s[0] == '-' then -v else v
    else DigitsValue(s[..DigitRun(s)])
  }

  lemma {:induction false} DigitRunAll(ds: string)
    requires forall i :: 0 <= i < |ds| ==> IsDigit(ds[i])
    ensures DigitRun(ds) == |ds|
  {
    if ds != [] {
      DigitRunAll(ds[1..]);
    }
  }

  /** `atoi` reads back any number written in decimal, with or without a minus sign. */
  lemma AtoiOfDecimal(n: nat)
    ensures Atoi(Decimal(n)) == n
    ensures Atoi("-" + Decimal(n)) == -(n as int)
  {
    var ds := Decimal(n);
    DigitRunAll(ds);
    DigitsValueOfDecimal(n);
    assert ds[..DigitRun(ds)] == ds;
    assert ("-" + ds)[1..] == ds;
  }

  predicate IsDebugFlag(a: string)
  {
    a == "--debug" || a == "-debug" || a == "--validate" || a == "-validate"
  }

  predicate IsFramesFlag(a: string)
  {
    a == "--frames" || a == "--framecount" || a == "--max-frames"
  }

  /**
   * `maxFrameCount` after the parsing loop has looked at `args[..n]`: the
   * value after the last frames flag that has an argument after it.
   */
  function FramesSetting(args: seq<string>, n: nat, init: int): int
    requires n <= |args|
  {
    if n == 0 then init
    else if n < |args| && IsFramesFlag(args[n - 1]) then Atoi(args[n])
    else FramesSetting(args, n - 1, init)
  }

  /** A frames flag that is the last argument changes nothing. */
  lemma {:induction false} TrailingFramesFlagIgnored(args: seq<string>, init: int)
    requires |args| > 0 && IsFramesFlag(args[|args| - 1])
    ensures FramesSetting(args, |args|, init) == FramesSetting(args, |args| - 1, init)
  {
  }

  /** Without any frames flag the limit keeps its initial value. */
  lemma {:induction false} NoFramesFlagNoChange(args: seq<string>, n: nat, init: int)
    requires n <= |args| && forall i :: 0 <= i < |args| ==> !IsFramesFlag(args[i])
    ensures FramesSetting(args, n, init) == init
  {
    if n > 0 {
      NoFramesFlagNoChange(args, n - 1, init);
    }
  }

  class GraphicsTest {
    var screenWidth: int
    var screenHeight: int
    var fullscreen: bool
    var debugDevice: bool
    var headless: bool
    var maxFrameCount: int
    var curFrame: int
    /** How many times `FrameLimit` has been called. */
    ghost var calls: nat

    ghost predicate Valid()
      reads this
    {
      curFrame == calls
    }

    constructor ()
      ensures Valid() && calls == 0
      ensures screenWidth == 1280 && screenHeight == 720
      ensures !fullscreen && !debugDevice && !headless
      ensures maxFrameCount == 0 && curFrame == 0
    {
      screenWidth, screenHeight := 1280, 720;
      fullscreen, debugDevice, headless := false, false, false;
      maxFrameCount, curFrame := 0, 0;
      calls := 0;
    }

    /** Parses the command line; always succeeds. */
    method Init(args: seq<string>) returns (ok: bool)
      modifies this`debugDevice, this`maxFrameCount
      ensures ok
      ensures debugDevice <==> old(debugDevice) || exists i :: 0 <= i < |args| && IsDebugFlag(args[i])
      ensures maxFrameCount == FramesSetting(args, |args|, old(maxFrameCount))
    {
      var i := 0;
      while i < |args|
        invariant 0 <= i <= |args|
        invariant debugDevice <==> old(debugDevice) || exists j :: 0 <= j < i && IsDebugFlag(args[j])
        invariant maxFrameCount == FramesSetting(args, i, old(maxFrameCount))
      {
        if args[i] == "--debug" || args[i] == "-debug" || args[i] == "--validate" || args[i] == "-validate" {
          debugDevice := true;
        }
        if i + 1 < |args| && (args[i] == "--frames" || args[i] == "--framecount" || args[i] == "--max-frames") {
          maxFrameCount := Atoi(args[i + 1]);
        }
        i := i + 1;
      }
      return true;
    }

    /**
     * Counts one frame. With a limit N > 0 the first N - 1 calls return true
     * and every later one false; a limit of 0 or less never stops.
     */
    method FrameLimit() returns (more: bool)
      requires Valid()
      modifies this`curFrame, this`calls
      ensures Valid() && calls == old(calls) + 1
      ensures more <==> maxFrameCount <= 0 || calls < maxFrameCount
    {
      curFrame := curFrame + 1;
      calls := calls + 1;
      if maxFrameCount > 0 && curFrame >= maxFrameCount {
        return false;
      }
      return true;
    }
  }

  function LangFlag(lang: ShaderLang): string
  {
    match lang
    case Glsl => " -x glsl"
    case Hlsl => " -x hlsl"
  }

  /** The stage's name for `-fshader-stage=`: a nonempty lower-case word. */
  function StageName(stage: ShaderStage): (n: string)
    ensures |n| >= 4
    ensures forall i :: 0 <= i < |n| ==> 'a' <= n[i] <= 'z'
  {
    match stage
    case Vert => "vert"
    case Frag => "frag"
    case TessControl => "tesscontrol"
    case TessEval => "tesseval"
    case Geom => "geom"
    case Comp => "comp"
  }

  /** Each shader stage is passed to glslc under its own name. */
  lemma StageNamesDistinct(a: ShaderStage, b: ShaderStage)
    requires a != b
    ensures StageName(a) != StageName(b)
  {
  }

  /**
   * The glslc invocation `CompileShaderToSpv` runs: fixed options, entry
   * point, source language, stage, then output and input file names.
   */
  method GlslcCommandLine(lang: ShaderLang, stage: ShaderStage, entry: string, outfile: string, infile: string)
    returns (cmd: string)
    ensures cmd == "glslc -g -O0" + " -fentry-point=" + entry + LangFlag(lang) +
                   " -fshader-stage=" + StageName(stage) + " -o " + outfile + " " + infile
  {
    cmd := "glslc -g -O0";
    cmd := cmd + " -fentry-point=";
    cmd := cmd + entry;
    cmd := cmd + LangFlag(lang);
    cmd := cmd + " -fshader-stage=" + StageName(stage);
    cmd := cmd + " -o ";
    cmd := cmd + outfile;
    cmd := cmd + " ";
    cmd := cmd + infile;
  }

  /**
   * How many 32-bit words the compiled SPIR-V holds: none when glslc could
   * not be started or failed, none when the output file cannot be opened,
   * otherwise the file size divided by 4, rounded down.
   */
  function SpirvWordCount(started: bool, exitCode: int, outputSize: Option<nat>): (words: nat)
    ensures !started || exitCode != 0 || outputSize.None? ==> words == 0
    ensures started && exitCode == 0 && outputSize.Some? ==>
      4 * words <= outputSize.value < 4 * words + 4
  {
    if !started || exitCode != 0 then 0
    else if outputSize.None? then 0
    else outputSize.value / 4
  }
}
