// The D3D11 test base class: loading the runtime and shader compiler,
// creating the device with its driver fallbacks, the default input layout
// and the shader debug-path payload.
module D3D11Test {
  import opened Common
  import opened D3D11Helpers

  // ---- Loading the shader compiler ---------------------------------------

  /** The compiler DLL versions, in the order they are tried. */
  const CompilerVersions: seq<nat> := [47, 46, 45, 44, 43]

  /**
   * Tries `d3dcompiler_47.dll` down to `d3dcompiler_43.dll`, keeping the
   * first that loads. `loads(v)` is whether version `v` is present.
   */
  method LoadCompiler(loads: nat -> bool) returns (compiler: Option<nat>)
    ensures compiler.Some? <==> exists v :: v in CompilerVersions && loads(v)
    ensures compiler.Some? ==> compiler.value in CompilerVersions && loads(compiler.value)
    ensures compiler.Some? ==> forall v :: compiler.value < v <= 47 ==> !loads(v)
  {
    compiler := None;
    if loads(47) {
      compiler := Some(47);
    }
    if compiler.None? && loads(46) {
      compiler := Some(46);
    }
    if compiler.None? && loads(45) {
      compiler := Some(45);
    }
    if compiler.None? && loads(44) {
      compiler := Some(44);
    }
    if compiler.None? && loads(43) {
      compiler := Some(43);
    }
  }

  // ---- Device creation ---------------------------------------------------

  datatype FeatureLevel = Level11_0 | Level11_1
  datatype DriverType = Hardware | Warp | Reference

  /** The requested feature level: 11_1 when the test asks for D3D11.1, else 11_0. */
  function RequestedLevel(d3d11_1: bool): (l: FeatureLevel)
    ensures l == Level11_1 <==> d3d11_1
  {
    if d3d11_1 then Level11_1 else Level11_0
  }

  /** The fallback order: hardware, then WARP, then the reference rasteriser. */
  const DriverOrder: seq<DriverType> := [Hardware, Warp, Reference]

  /**
   * How `Init` ended: a missing DLL, every device creation attempt failed,
   * the device was created but the windowed back buffer or its view was
   * not, or success.
   */
  datatype InitOutcome = MissingDll | DeviceFailed | BackbufferFailed | Ready(driver: DriverType)

  /**
   * `Init` after the common argument parsing. The foreign results are
   * parameters: `d3d11Loads` and `compilerLoads` for the DLLs,
   * `create(driver, level)` for whether creating a device on that driver
   * succeeds, `backbufferOk` and `rtvOk` for fetching the swap chain's
   * buffer and creating its view. `tried` lists the drivers attempted.
   */
  method Init(headless: bool, d3d11_1: bool, d3d11Loads: bool, compilerLoads: nat -> bool,
              create: (DriverType, FeatureLevel) -> bool, backbufferOk: bool, rtvOk: bool)
    returns (outcome: InitOutcome, tried: seq<DriverType>)
    ensures outcome == MissingDll <==> !d3d11Loads || forall v :: v in CompilerVersions ==> !compilerLoads(v)
    ensures outcome == MissingDll ==> tried == []
    ensures outcome != MissingDll ==> 1 <= |tried| <= 3 && tried == DriverOrder[..|tried|]
    // every attempt but the last failed
    ensures forall i :: 0 <= i < |tried| - 1 ==> !create(tried[i], RequestedLevel(d3d11_1))
    // headless at feature level 11_0 never falls back
    ensures headless && !d3d11_1 && outcome != MissingDll ==> tried == [Hardware]
    // otherwise the attempts stop at the first success or after the reference driver
    ensures (!headless || d3d11_1) && outcome != MissingDll ==>
      |tried| == 3 || create(tried[|tried| - 1], RequestedLevel(d3d11_1))
    ensures outcome.Ready? <==>
      outcome != MissingDll && create(tried[|tried| - 1], RequestedLevel(d3d11_1)) && (headless || (backbufferOk && rtvOk))
    ensures outcome.Ready? ==> outcome.driver == tried[|tried| - 1]
    ensures outcome == BackbufferFailed ==> !headless
    // the last device creation failed, or it succeeded and the back buffer or its view did not
    ensures outcome == DeviceFailed <==> outcome != MissingDll && !create(tried[|tried| - 1], RequestedLevel(d3d11_1))
    ensures outcome == BackbufferFailed <==>
      outcome != MissingDll && create(tried[|tried| - 1], RequestedLevel(d3d11_1)) && !headless && !(backbufferOk && rtvOk)
  {
    tried := [];
    var compiler := LoadCompiler(compilerLoads);
    if !d3d11Loads || compiler.None? {
      return MissingDll, tried;
    }
    var level := RequestedLevel(d3d11_1);
    var driver := Hardware;
    var ok := create(driver, level);
    tried := tried + [driver];
    if headless {
      if !ok && level != Level11_0 {
        driver := Warp;
        ok := create(driver, level);
        tried := tried + [driver];
      }
      if !ok && level != Level11_0 {
        driver := Reference;
        ok := create(driver, level);
        tried := tried + [driver];
      }
      if !ok {
        return DeviceFailed, tried;
      }
      return Ready(driver), tried;
    }
    if !ok {
      driver := Warp;
      ok := create(driver, level);
      tried := tried + [driver];
    }
    if !ok {
      driver := Reference;
      ok := create(driver, level);
      tried := tried + [driver];
    }
    if !ok {
      return DeviceFailed, tried;
    }
    if !backbufferOk || !rtvOk {
      return BackbufferFailed, tried;
    }
    return Ready(driver), tried;
  }

  // ---- The default input layout ------------------------------------------

  /** One element of an input layout: its semantic, format and byte offset in the vertex. */
  datatype InputElement = InputElement(semantic: string, format: nat, offset: nat)

  /** POSITION, COLOR and TEXCOORD, at byte offsets 0, 12 and 28 of one vertex. */
  function DefaultInputLayout(): (layout: seq<InputElement>)
    ensures |layout| == 3
    ensures layout[0].semantic == "POSITION" && layout[1].semantic == "COLOR" && layout[2].semantic == "TEXCOORD"
    ensures layout[0].offset == 0
  {
    [InputElement("POSITION", FORMAT_R32G32B32_FLOAT, 0),
     InputElement("COLOR", FORMAT_R32G32B32A32_FLOAT, 12),
     InputElement("TEXCOORD", FORMAT_R32G32_FLOAT, 28)]
  }

  /**
   * The elements are packed: each starts where the previous one ends, and
   * together they fill a 36-byte vertex (a position, a colour and a UV).
   */
  lemma DefaultInputLayoutPacked()
    ensures var layout := DefaultInputLayout();
      (forall i :: 0 < i < |layout| ==> layout[i].offset == layout[i - 1].offset + FormatStride(layout[i - 1].format)) &&
      layout[2].offset + FormatStride(layout[2].format) == 36
  {
    var layout := DefaultInputLayout();
    assert FormatStride(FORMAT_R32G32B32_FLOAT) == 12;
    assert FormatStride(FORMAT_R32G32B32A32_FLOAT) == 16;
    assert FormatStride(FORMAT_R32G32_FLOAT) == 8;
  }

  // ---- The shader debug path ---------------------------------------------

  /** A GUID: a 32-bit, two 16-bit and eight 8-bit fields. */
  datatype Guid = Guid(data1: u32, data2: nat, data3: nat, data4: seq<byte>)

  predicate WellFormedGuid(g: Guid)
  {
    g.data2 < 0x1_0000 && g.data3 < 0x1_0000 && |g.data4| == 8
  }

  /** The GUID that marks the private data holding a shader's debug path. */
  const ShaderDebugMagic: Guid := Guid(0xeab25520, 0x6670, 0x4865, [0x84, 0x29, 0x6c, 0x08, 0x51, 0x54, 0x00, 0xff])

  /** The least significant `n` bytes of `x`, lowest first: the little-endian layout. */
  function LittleEndian(x: nat, n: nat): (bs: seq<byte>)
    ensures |bs| == n
  {
    if n == 0 then [] else [(x % 0x100) as byte] + LittleEndian(x / 0x100, n - 1)
  }

  function Pow256(n: nat): (p: nat)
    ensures p >= 1
  {
    if n == 0 then 1 else 0x100 * Pow256(n - 1)
  }

  /** Reads a little-endian number back. */
  function FromLittleEndian(bs: seq<byte>): (x: nat)
    ensures x < Pow256(|bs|)
  {
    if bs == [] then 0 else bs[0] + 0x100 * FromLittleEndian(bs[1..])
  }

  /** Writing `n` little-endian bytes loses nothing when the value fits in them. */
  lemma {:induction false} LittleEndianRoundTrip(x: nat, n: nat)
    requires x < Pow256(n)
    ensures FromLittleEndian(LittleEndian(x, n)) == x
  {
    if n > 0 {
      LittleEndianRoundTrip(x / 0x100, n - 1);
      assert LittleEndian(x, n)[1..] == LittleEndian(x / 0x100, n - 1);
    }
  }

  /** The 16 bytes of a GUID in memory. */
  function GuidBytes(g: Guid): (bs: seq<byte>)
    requires WellFormedGuid(g)
    ensures |bs| == 16
    ensures bs[8..] == g.data4
  {
    LittleEndian(g.data1, 4) + LittleEndian(g.data2, 2) + LittleEndian(g.data3, 2) + g.data4
  }

  lemma MagicGuidBytes()
    ensures WellFormedGuid(ShaderDebugMagic)
    ensures GuidBytes(ShaderDebugMagic) ==
      [0x20, 0x55, 0xb2, 0xea, 0x70, 0x66, 0x65, 0x48, 0x84, 0x29, 0x6c, 0x08, 0x51, 0x54, 0x00, 0xff]
  {
  }

  /**
   * The blob part written by `SetBlobPath(name, blob)`: 16 placeholder bytes
   * overwritten with the magic GUID, then the name, passed with one more
   * byte than the string's size so that the terminator is included.
   */
  method BlobPathPayload(name: seq<byte>) returns (data: seq<byte>)
    ensures WellFormedGuid(ShaderDebugMagic)
    ensures |data| == |name| + 17
    ensures data[..16] == GuidBytes(ShaderDebugMagic)
    ensures data[16..|data| - 1] == name
    ensures data[|data| - 1] == 0
  {
    var pathData: seq<byte> := [];
    var i := 0;
    while i < 16
      invariant 0 <= i <= 16
      invariant |pathData| == i
      invariant forall k :: 0 <= k < i ==> pathData[k] == 0x20
    {
      pathData := pathData + [0x20];
      i := i + 1;
    }
    pathData := pathData + name;
    MagicGuidBytes();
    pathData := GuidBytes(ShaderDebugMagic) + pathData[16..];
    data := pathData + [0];
  }

  /** The name is recovered from the payload by dropping the GUID and the terminator. */
  lemma BlobPathNameRecoverable(name1: seq<byte>, name2: seq<byte>, data1: seq<byte>, data2: seq<byte>)
    requires WellFormedGuid(ShaderDebugMagic)
    requires data1 == GuidBytes(ShaderDebugMagic) + name1 + [0]
    requires data2 == GuidBytes(ShaderDebugMagic) + name2 + [0]
    ensures data1 == data2 <==> name1 == name2
  {
    if data1 == data2 {
      assert name1 == data1[16..|data1| - 1];
      assert name2 == data2[16..|data2| - 1];
    }
  }

  /**
   * The private data attached by `SetBlobPath(name, shader)`: the name and
   * its terminator, keyed by the magic GUID.
   */
  function PrivateDataPayload(name: seq<byte>): (data: seq<byte>)
    ensures |data| == |name| + 1 && data[..|name|] == name && data[|name|] == 0
  {
    name + [0]
  }
}
