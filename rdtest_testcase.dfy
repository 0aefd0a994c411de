// The test case base class: where a test's reference data lives, and the
// rewrite of a capture's structured data that makes its exported form
// independent of when and on which thread the capture was made.
module RdTestCase {
  import opened Common

  // ---- Reference paths -----------------------------------------------------

  /** `os.path.join(a, b)` with `/` separators: an absolute `b` replaces `a`. */
  function PathJoin(a: string, b: string): (p: string)
    ensures b != [] && b[0] == '/' ==> p == b
    ensures |p| >= |b| && p[|p| - |b|..] == b
  {
    if b != [] && b[0] == '/' then b
    else if a == [] || a[|a| - 1] == '/' then a + b
    else a + "/" + b
  }

  /** `cwd` as a directory prefix: with a trailing `/` unless it is empty or has one. */
  function AsDir(cwd: string): (d: string)
    ensures d == [] || d[|d| - 1] == '/'
  {
    if cwd == [] || cwd[|cwd| - 1] == '/' then cwd else cwd + "/"
  }

  /** `get_ref_path(name)`: `<cwd>/data/<test class name>/<name>`; the path ends with the name. */
  function GetRefPath(cwd: string, className: string, name: string): (p: string)
    ensures |p| >= |name| && p[|p| - |name|..] == name
  {
    PathJoin(PathJoin(PathJoin(cwd, "data"), className), name)
  }

  /** A path component that is neither empty nor absolute. */
  predicate Relative(s: string)
  {
    s != [] && s[0] != '/'
  }

  /**
   * For a class name (which has no `/`) and a relative file name, the
   * reference path is the working directory, `data`, the class name and
   * the file name, one separator between each.
   */
  lemma RefPathLayout(cwd: string, className: string, name: string)
    requires Relative(className) && '/' !in className && Relative(name)
    ensures GetRefPath(cwd, className, name) == AsDir(cwd) + "data/" + className + "/" + name
  {
    var d := PathJoin(cwd, "data");
    assert d == AsDir(cwd) + "data";
    var c := PathJoin(d, className);
    assert c == AsDir(cwd) + "data/" + className;
    assert c[|c| - 1] == className[|className| - 1];
  }

  /**
   * Each test's files have their own paths: the reference paths of two
   * files of one test coincide only for the same file name.
   */
  lemma RefPathInjective(cwd: string, className: string, name1: string, name2: string)
    requires Relative(className) && '/' !in className && Relative(name1) && Relative(name2)
    ensures GetRefPath(cwd, className, name1) == GetRefPath(cwd, className, name2) <==> name1 == name2
  {
    RefPathLayout(cwd, className, name1);
    RefPathLayout(cwd, className, name2);
    var prefix := AsDir(cwd) + "data/" + className + "/";
    var p1, p2 := prefix + name1, prefix + name2;
    if p1 == p2 {
      assert name1 == p1[|prefix|..];
      assert name2 == p2[|prefix|..];
    }
  }

  // ---- Deterministic chunk metadata ---------------------------------------

  /** The metadata of a chunk the rewrite replaces, and the rest of it as one opaque part. */
  datatype ChunkMetadata = ChunkMetadata(durationMicro: int, timestampMicro: int, threadID: int, others: seq<int>)

  /** A structured-data chunk: its contents and its metadata. */
  datatype Chunk = Chunk(contents: seq<int>, metadata: ChunkMetadata)

  /** A capture's structured data: its version, its chunks and its buffers. */
  datatype SDFile = SDFile(version: nat, chunks: seq<Chunk>, buffers: seq<seq<byte>>)

  const FirstTimestamp: int := 123450
  const TimestampStep: int := 10
  const FixedDuration: int := 5
  const FixedThread: int := 999

  /** The `i`-th chunk's copy: a duration of 5, timestamp 123450 + 10·i, thread 999. */
  function Stamp(c: Chunk, i: nat): (r: Chunk)
    ensures r.contents == c.contents && r.metadata.others == c.metadata.others
    ensures r.metadata.durationMicro == FixedDuration && r.metadata.threadID == FixedThread
    ensures r.metadata.timestampMicro == FirstTimestamp + TimestampStep * i
  {
    c.(metadata := c.metadata.(durationMicro := 5, timestampMicro := 123450 + 10 * i, threadID := 999))
  }

  /** The chunks copied in order, each stamped with its position. */
  function StampAll(cs: seq<Chunk>): (r: seq<Chunk>)
    ensures |r| == |cs|
    ensures forall i :: 0 <= i < |cs| ==> r[i] == Stamp(cs[i], i)
  {
    if cs == [] then [] else StampAll(cs[..|cs| - 1]) + [Stamp(cs[|cs| - 1], |cs| - 1)]
  }

  /** The stripped file: the same version, the stamped chunks, and no buffers. */
  function Stripped(sd: SDFile): (r: SDFile)
    ensures r.version == sd.version && r.buffers == []
    ensures |r.chunks| == |sd.chunks|
  {
    SDFile(sd.version, StampAll(sd.chunks), [])
  }

  /**
   * The loop of `check_export`: a new file with the original's version
   * receives a copy of each chunk, stamped with the running timestamp.
   */
  method StripMetadata(sd: SDFile) returns (stripped: SDFile)
    ensures stripped == Stripped(sd)
  {
    stripped := SDFile(0, [], []);
    stripped := stripped.(version := sd.version);
    var timestamp := 123450;
    for i := 0 to |sd.chunks|
      invariant stripped == SDFile(sd.version, StampAll(sd.chunks[..i]), [])
      invariant timestamp == FirstTimestamp + TimestampStep * i
    {
      var c := sd.chunks[i];
      var chunk := c;
      chunk := chunk.(metadata := chunk.metadata.(durationMicro := 5));
      chunk := chunk.(metadata := chunk.metadata.(timestampMicro := timestamp));
      chunk := chunk.(metadata := chunk.metadata.(threadID := 999));
      timestamp := timestamp + 10;
      assert sd.chunks[..i + 1][..i] == sd.chunks[..i];
      stripped := stripped.(chunks := stripped.chunks + [chunk]);
    }
    assert sd.chunks[..|sd.chunks|] == sd.chunks;
  }

  /** Two chunks that differ at most in the metadata the rewrite replaces. */
  predicate SameButTiming(a: Chunk, b: Chunk)
  {
    a.contents == b.contents && a.metadata.others == b.metadata.others
  }

  /**
   * Captures of the same content made at other times or on other threads
   * strip to the same file, which is why the export can be compared with a
   * stored reference.
   */
  lemma StrippedIgnoresTiming(a: SDFile, b: SDFile)
    requires a.version == b.version && |a.chunks| == |b.chunks|
    requires forall i :: 0 <= i < |a.chunks| ==> SameButTiming(a.chunks[i], b.chunks[i])
    ensures Stripped(a) == Stripped(b)
  {
    var ca, cb := Stripped(a).chunks, Stripped(b).chunks;
    assert forall i :: 0 <= i < |ca| ==> ca[i] == cb[i];
  }

  /** Stripping a stripped file changes nothing. */
  lemma StrippedIdempotent(sd: SDFile)
    ensures Stripped(Stripped(sd)) == Stripped(sd)
  {
    var c1, c2 := Stripped(sd).chunks, Stripped(Stripped(sd)).chunks;
    assert forall i :: 0 <= i < |c1| ==> c2[i] == c1[i];
  }

  /** The stripped timestamps rise by 10 from chunk to chunk, so their order is the chunks' order. */
  lemma StrippedTimestampsIncrease(sd: SDFile)
    ensures forall i, j :: 0 <= i < j < |sd.chunks| ==>
      Stripped(sd).chunks[i].metadata.timestampMicro < Stripped(sd).chunks[j].metadata.timestampMicro
  {
  }

  /** The outcome of opening the capture. */
  datatype OpenStatus = Succeeded | OpenFailed(code: int)

  /**
   * `check_export` up to the conversion: a capture that does not open is
   * an error; otherwise its structured data is stripped.
   */
  method ExportStripped(status: OpenStatus, sd: SDFile) returns (r: Result<SDFile, OpenStatus>)
    ensures r.Ok? <==> status == Succeeded
    ensures r.Error? ==> r.error == status
    ensures r.Ok? ==> r.value == Stripped(sd)
  {
    if status != Succeeded {
      return Error(status);
    }
    var stripped := StripMetadata(sd);
    return Ok(stripped);
  }
}
