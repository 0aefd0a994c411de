// The D3D11 demo helpers: chained builders for buffer, texture and view
// descriptions, the table of element sizes per DXGI format, and the element
// counts derived for buffer views.
module D3D11Helpers {
  import opened Common

  const FormatCount: nat := 116
  const FORMAT_UNKNOWN: nat := 0
  const FORMAT_R32G32B32A32_FLOAT: nat := 2
  const FORMAT_R32G32B32_FLOAT: nat := 6
  const FORMAT_R32G32_FLOAT: nat := 16
  const FORMAT_R8G8B8A8_UNORM: nat := 28
  const FORMAT_BC1_UNORM: nat := 71
  const FORMAT_B8G8R8X8_UNORM: nat := 88
  const FORMAT_B4G4R4A4_UNORM: nat := 115

  /**
   * The `formatStrides` table: bytes per element of each DXGI format, by
   * the format's enum value, written as the runs of equal entries the
   * table lists in order. Block-compressed, packed 16-bit BGR, video and
   * palette formats have 0.
   */
  function FormatStride(f: nat): (s: nat)
    requires f < FormatCount
    ensures s <= 16
  {
    if f == 0 then 0          // UNKNOWN
    else if f <= 4 then 16    // R32G32B32A32_*
    else if f <= 8 then 12    // R32G32B32_*
    else if f <= 19 then 8    // R16G16B16A16_*, R32G32_*, R32G8X24_TYPELESS
    else if f <= 22 then 5    // D32_FLOAT_S8X24_UINT, R32_FLOAT_X8X24_TYPELESS, X32_TYPELESS_G8X24_UINT
    else if f <= 47 then 4    // R10G10B10A2_* .. X24_TYPELESS_G8_UINT
    else if f <= 59 then 2    // R8G8_*, R16_*, D16_UNORM
    else if f <= 66 then 1    // R8_*, A8_UNORM, R1_UNORM
    else if f == 67 then 4    // R9G9B9E5_SHAREDEXP
    else if f <= 69 then 3    // R8G8_B8G8_UNORM, G8R8_G8B8_UNORM
    else if f <= 86 then 0    // BC1 .. BC5, B5G6R5_UNORM, B5G5R5A1_UNORM
    else if f == 87 then 4    // B8G8R8A8_UNORM
    else if f == 88 then 3    // B8G8R8X8_UNORM
    else if f <= 91 then 4    // R10G10B10_XR_BIAS_A2_UNORM, B8G8R8A8_TYPELESS, B8G8R8A8_UNORM_SRGB
    else if f <= 93 then 3    // B8G8R8X8_TYPELESS, B8G8R8X8_UNORM_SRGB
    else 0                    // BC6H, BC7, video and palette formats, B4G4R4A4_UNORM
  }

  /** A few rows of the table, checked against the sizes the D3D11 format names spell out. */
  lemma FormatStrideRows()
    ensures FormatStride(FORMAT_UNKNOWN) == 0
    ensures FormatStride(FORMAT_R32G32B32A32_FLOAT) == 4 * 4
    ensures FormatStride(FORMAT_R32G32B32_FLOAT) == 4 * 3
    ensures FormatStride(FORMAT_R32G32_FLOAT) == 4 * 2
    ensures FormatStride(FORMAT_R8G8B8A8_UNORM) == 1 * 4
    ensures FormatStride(FORMAT_BC1_UNORM) == 0
    ensures FormatStride(FORMAT_B8G8R8X8_UNORM) == 1 * 3
    ensures FormatStride(FORMAT_B4G4R4A4_UNORM) == 0
  {
  }

  // D3D11_BIND_FLAG values.
  datatype BindBit = VertexBuffer | IndexBuffer | ConstantBuffer | ShaderResource
                   | StreamOutput | RenderTarget | DepthStencil | UnorderedAccess

  const BIND_VERTEX_BUFFER: bv32 := 0x1
  const BIND_INDEX_BUFFER: bv32 := 0x2
  const BIND_CONSTANT_BUFFER: bv32 := 0x4
  const BIND_SHADER_RESOURCE: bv32 := 0x8
  const BIND_STREAM_OUTPUT: bv32 := 0x10
  const BIND_RENDER_TARGET: bv32 := 0x20
  const BIND_DEPTH_STENCIL: bv32 := 0x40
  const BIND_UNORDERED_ACCESS: bv32 := 0x80

  function BindFlag(b: BindBit): bv32
  {
    match b
    case VertexBuffer => BIND_VERTEX_BUFFER
    case IndexBuffer => BIND_INDEX_BUFFER
    case ConstantBuffer => BIND_CONSTANT_BUFFER
    case ShaderResource => BIND_SHADER_RESOURCE
    case StreamOutput => BIND_STREAM_OUTPUT
    case RenderTarget => BIND_RENDER_TARGET
    case DepthStencil => BIND_DEPTH_STENCIL
    case UnorderedAccess => BIND_UNORDERED_ACCESS
  }

  /** Each bind request is a single bit. */
  lemma BindFlagIsOneBit(b: BindBit)
    ensures BindFlag(b) != 0 && BindFlag(b) & (BindFlag(b) - 1) == 0
  {
  }

  /** Different bind requests never share a bit. */
  lemma BindFlagsDisjoint(a: BindBit, b: BindBit)
    requires a != b
    ensures BindFlag(a) & BindFlag(b) == 0
  {
  }

  const CPU_ACCESS_WRITE: bv32 := 0x10000
  const CPU_ACCESS_READ: bv32 := 0x20000
  const MISC_BUFFER_ALLOW_RAW_VIEWS: bv32 := 0x20
  const MISC_BUFFER_STRUCTURED: bv32 := 0x40
  const DSV_READ_ONLY_DEPTH: bv32 := 0x1
  const DSV_READ_ONLY_STENCIL: bv32 := 0x2

  datatype Usage = UsageDefault | UsageImmutable | UsageDynamic | UsageStaging

  /**
   * `(n + 15) & ~0xf` on a 32-bit UINT: the sum wraps, then the low four
   * bits are cleared.
   */
  function Align16(n: u32): (r: u32)
    ensures r % 16 == 0
    ensures n <= U32Max - 15 ==> n <= r < n + 16
    ensures n > U32Max - 15 ==> r == 0
  {
    var m := Wrap32(n + 15);
    m - m % 16
  }

  /** Builder for a D3D11_BUFFER_DESC and its initial data. */
  class BufferCreator {
    var byteWidth: u32
    var miscFlags: bv32
    var structureByteStride: u32
    var cpuAccessFlags: bv32
    var usage: Usage
    var bindFlags: bv32
    var sysMemPitch: u32
    var sysMemSlicePitch: u32
    var sysMem: Option<seq<byte>>

    constructor ()
      ensures byteWidth == 0 && miscFlags == 0 && structureByteStride == 0
      ensures cpuAccessFlags == 0 && usage == UsageDefault && bindFlags == 0
      ensures sysMemPitch == 0 && sysMemSlicePitch == 0 && sysMem == None
    {
      byteWidth, miscFlags, structureByteStride := 0, 0, 0;
      cpuAccessFlags, usage, bindFlags := 0, UsageDefault, 0;
      sysMemPitch, sysMemSlicePitch, sysMem := 0, 0, None;
    }

    /**
     * `Vertex()`, `Index()`, `Constant()`, `StreamOut()`, `SRV()`, `UAV()`:
     * set one bind bit and leave every other bit as it was.
     */
    method Bind(b: BindBit)
      requires b in {VertexBuffer, IndexBuffer, ConstantBuffer, StreamOutput, ShaderResource, UnorderedAccess}
      modifies this`bindFlags
      ensures bindFlags & BindFlag(b) == BindFlag(b)
      ensures bindFlags & !BindFlag(b) == old(bindFlags) & !BindFlag(b)
    {
      bindFlags := bindFlags | BindFlag(b);
    }

    /**
     * A stride that does not divide the current byte width ends the process
     * (`exited`); otherwise the stride is stored and the buffer marked structured.
     */
    method Structured(stride: u32) returns (exited: bool)
      modifies this`structureByteStride, this`miscFlags
      ensures exited <==> stride > 0 && byteWidth % stride != 0
      ensures exited ==> structureByteStride == old(structureByteStride) && miscFlags == old(miscFlags)
      ensures !exited ==> structureByteStride == stride && miscFlags == old(miscFlags) | MISC_BUFFER_STRUCTURED
    {
      if stride > 0 && byteWidth % stride != 0 {
        return true;
      }
      structureByteStride := stride;
      miscFlags := miscFlags | MISC_BUFFER_STRUCTURED;
      return false;
    }

    method ByteAddressed()
      modifies this`miscFlags
      ensures miscFlags == old(miscFlags) | MISC_BUFFER_ALLOW_RAW_VIEWS
    {
      miscFlags := miscFlags | MISC_BUFFER_ALLOW_RAW_VIEWS;
    }

    /** Overwrites CPU access and usage: the last of `Mappable`/`Staging` wins. */
    method Mappable()
      modifies this`cpuAccessFlags, this`usage
      ensures cpuAccessFlags == CPU_ACCESS_WRITE && usage == UsageDynamic
    {
      cpuAccessFlags := CPU_ACCESS_WRITE;
      usage := UsageDynamic;
    }

    method Staging()
      modifies this`cpuAccessFlags, this`usage
      ensures cpuAccessFlags == CPU_ACCESS_READ | CPU_ACCESS_WRITE && usage == UsageStaging
    {
      cpuAccessFlags := CPU_ACCESS_READ | CPU_ACCESS_WRITE;
      usage := UsageStaging;
    }

    /**
     * The initial data pointer (`None` for NULL, which withdraws earlier
     * data), with pitches that are the byte width at the time of the call.
     */
    method Data(data: Option<seq<byte>>)
      modifies this`sysMem, this`sysMemPitch, this`sysMemSlicePitch
      ensures sysMem == data && sysMemPitch == byteWidth && sysMemSlicePitch == byteWidth
    {
      sysMem := data;
      sysMemPitch := byteWidth;
      sysMemSlicePitch := byteWidth;
    }

    /**
     * Sets the byte width, rounded up to a multiple of 16 only if the
     * constant-buffer bit is already set when `Size` is called.
     */
    method Size(size: u32)
      modifies this`byteWidth, this`sysMemPitch, this`sysMemSlicePitch
      ensures byteWidth == if bindFlags & BIND_CONSTANT_BUFFER != 0 then Align16(size) else size
      ensures sysMemPitch == byteWidth && sysMemSlicePitch == byteWidth
    {
      var s := size;
      if bindFlags & BIND_CONSTANT_BUFFER != 0 {
        s := Align16(s);
      }
      byteWidth := s;
      sysMemPitch := s;
      sysMemSlicePitch := s;
    }

    /** The description passed to `CreateBuffer`: every field the builder set. */
    function Desc(): (d: BufferDesc)
      reads this
      ensures d.byteWidth == byteWidth && d.bindFlags == bindFlags && d.miscFlags == miscFlags
      ensures d.structureByteStride == structureByteStride
      ensures d.usage == usage && d.cpuAccessFlags == cpuAccessFlags
    {
      BufferDesc(byteWidth, usage, bindFlags, cpuAccessFlags, miscFlags, structureByteStride)
    }

    /**
     * The initial data passed to `CreateBuffer`: none unless a non-null
     * pointer was last given to `Data`, and then that pointer with the
     * pitches last recorded.
     */
    function InitialData(): (r: Option<SubresourceData>)
      reads this
      ensures r.Some? <==> sysMem.Some?
      ensures r.Some? ==> r.value.sysMem == sysMem.value
      ensures r.Some? ==> r.value.pitch == sysMemPitch && r.value.slicePitch == sysMemSlicePitch
    {
      if sysMem.Some? then Some(SubresourceData(sysMem.value, sysMemPitch, sysMemSlicePitch)) else None
    }
  }

  /** A D3D11_SUBRESOURCE_DATA: the data and its pitches. */
  datatype SubresourceData = SubresourceData(sysMem: seq<byte>, pitch: u32, slicePitch: u32)

  datatype BufferDesc = BufferDesc(byteWidth: u32, usage: Usage, bindFlags: bv32, cpuAccessFlags: bv32,
                                   miscFlags: bv32, structureByteStride: u32)

  /** `Constant().Size(20)` rounds to 32, `Size(20).Constant()` keeps 20. */
  method SizeBeforeOrAfterConstant() returns (constantFirst: u32, sizeFirst: u32)
    ensures constantFirst == 32 && sizeFirst == 20
  {
    var a := new BufferCreator();
    a.Bind(ConstantBuffer);
    a.Size(20);
    var b := new BufferCreator();
    b.Size(20);
    b.Bind(ConstantBuffer);
    return a.byteWidth, b.byteWidth;
  }

  datatype TextureDesc = TextureDesc(width: u32, height: u32, depth: u32, mipLevels: u32, arraySize: u32,
                                     format: nat, sampleCount: u32, sampleQuality: u32, usage: Usage,
                                     bindFlags: bv32, cpuAccessFlags: bv32, miscFlags: bv32)

  /** Builder for 1D, 2D and 3D texture descriptions. */
  class TextureCreator {
    var width: u32
    var height: u32
    var depth: u32
    var mipLevels: u32
    var arraySize: u32
    var format: nat
    var sampleCount: u32
    var sampleQuality: u32
    var usage: Usage
    var bindFlags: bv32
    var cpuAccessFlags: bv32
    var miscFlags: bv32

    /**
     * The depth argument is assigned to itself, so the stored depth keeps
     * its default of 1 whatever is passed.
     */
    constructor (format: nat, width: u32, height: u32, depthArg: u32)
      ensures this.format == format && this.width == width && this.height == height
      ensures depth == 1 && mipLevels == 1 && arraySize == 1
      ensures sampleCount == 1 && sampleQuality == 0 && usage == UsageDefault
      ensures bindFlags == 0 && cpuAccessFlags == 0 && miscFlags == 0
    {
      this.width, this.height, this.depth := 1, 1, 1;
      this.mipLevels, this.arraySize, this.format := 1, 1, 0;
      this.sampleCount, this.sampleQuality, this.usage := 1, 0, UsageDefault;
      this.bindFlags, this.cpuAccessFlags, this.miscFlags := 0, 0, 0;
      new;
      this.format := format;
      this.width := width;
      this.height := height;
      var d := depthArg;
      d := d;
    }

    method Mips(mips: u32)
      modifies this`mipLevels
      ensures mipLevels == mips
    {
      mipLevels := mips;
    }

    method Array(size: u32)
      modifies this`arraySize
      ensures arraySize == size
    {
      arraySize := size;
    }

    method Multisampled(count: u32, quality: u32)
      modifies this`sampleCount, this`sampleQuality
      ensures sampleCount == count && sampleQuality == quality
    {
      sampleCount := count;
      sampleQuality := quality;
    }

    /** `SRV()`, `UAV()`, `RTV()`, `DSV()`: set one bind bit, keep the rest. */
    method Bind(b: BindBit)
      requires b in {ShaderResource, UnorderedAccess, RenderTarget, DepthStencil}
      modifies this`bindFlags
      ensures bindFlags & BindFlag(b) == BindFlag(b)
      ensures bindFlags & !BindFlag(b) == old(bindFlags) & !BindFlag(b)
    {
      bindFlags := bindFlags | BindFlag(b);
    }

    method Mappable()
      modifies this`cpuAccessFlags, this`usage
      ensures cpuAccessFlags == CPU_ACCESS_WRITE && usage == UsageDynamic
    {
      cpuAccessFlags := CPU_ACCESS_WRITE;
      usage := UsageDynamic;
    }

    method Staging()
      modifies this`cpuAccessFlags, this`usage
      ensures cpuAccessFlags == CPU_ACCESS_READ | CPU_ACCESS_WRITE && usage == UsageStaging
    {
      cpuAccessFlags := CPU_ACCESS_READ | CPU_ACCESS_WRITE;
      usage := UsageStaging;
    }

    /** The 1D description: no height, depth or sample fields are taken. */
    function Desc1D(): (d: TextureDesc)
      reads this
      ensures d.width == width && d.arraySize == arraySize && d.mipLevels == mipLevels
      ensures d.format == format && d.bindFlags == bindFlags && d.usage == usage
      ensures d.cpuAccessFlags == cpuAccessFlags && d.miscFlags == miscFlags
      ensures d.height == 1 && d.depth == 1 && d.sampleCount == 1
    {
      TextureDesc(width, 1, 1, mipLevels, arraySize, format, 1, 0, usage, bindFlags, cpuAccessFlags, miscFlags)
    }

    /** The 2D description: every field but the depth, which is 1. */
    function Desc2D(): (d: TextureDesc)
      reads this
      ensures d.width == width && d.height == height && d.arraySize == arraySize && d.mipLevels == mipLevels
      ensures d.sampleCount == sampleCount && d.sampleQuality == sampleQuality
      ensures d.format == format && d.bindFlags == bindFlags && d.usage == usage && d.depth == 1
      ensures d.cpuAccessFlags == cpuAccessFlags && d.miscFlags == miscFlags
    {
      TextureDesc(width, height, 1, mipLevels, arraySize, format, sampleCount, sampleQuality,
                  usage, bindFlags, cpuAccessFlags, miscFlags)
    }

    /** The 3D description takes its depth from the height, not from the stored depth. */
    function Desc3D(): (d: TextureDesc)
      reads this
      ensures d.width == width && d.height == height && d.depth == height
      ensures d.format == format && d.bindFlags == bindFlags && d.usage == usage && d.arraySize == 1
      ensures d.mipLevels == mipLevels && d.cpuAccessFlags == cpuAccessFlags && d.miscFlags == miscFlags
    {
      TextureDesc(width, height, height, mipLevels, 1, format, 1, 0, usage, bindFlags, cpuAccessFlags, miscFlags)
    }
  }

  datatype ViewType = SRV | RTV | DSV | UAV

  /** Indexes the view tables, in this order. */
  datatype ResourceType = Buffer | Texture1D | Texture1DArray | Texture2D | Texture2DArray
                        | Texture2DMS | Texture2DMSArray | Texture3D

  /** A 1D texture is viewed as an array exactly when it has more than one slice. */
  function Texture1DResourceType(arraySize: u32): (r: ResourceType)
    ensures r == Texture1D || r == Texture1DArray
    ensures r == Texture1DArray <==> arraySize > 1
  {
    if arraySize > 1 then Texture1DArray else Texture1D
  }

  /** Multisampled iff more than one sample; the array variant iff more than one slice. */
  function Texture2DResourceType(sampleCount: u32, arraySize: u32): (r: ResourceType)
    ensures r in {Texture2D, Texture2DArray, Texture2DMS, Texture2DMSArray}
    ensures (r == Texture2DMS || r == Texture2DMSArray) <==> sampleCount > 1
    ensures (r == Texture2DArray || r == Texture2DMSArray) <==> arraySize > 1
  {
    if sampleCount > 1 then (if arraySize > 1 then Texture2DMSArray else Texture2DMS)
    else (if arraySize > 1 then Texture2DArray else Texture2D)
  }

  /** A view dimension; `Dim(r)` is the dimension named after resource type `r`. */
  datatype Dimension = Unknown | Dim(r: ResourceType) | BufferEx

  /**
   * The dimension tables: each view takes the dimension of its resource,
   * except that depth-stencil views of buffers and 3D textures and
   * unordered-access views of multisampled textures have none.
   */
  function ViewDimension(v: ViewType, r: ResourceType): (d: Dimension)
    ensures d == Unknown <==> (v == DSV && r in {Buffer, Texture3D}) ||
                              (v == UAV && r in {Texture2DMS, Texture2DMSArray})
    ensures d != Unknown ==> d == Dim(r)
  {
    match v
    case SRV => Dim(r)
    case RTV => Dim(r)
    case DSV => if r == Buffer || r == Texture3D then Unknown else Dim(r)
    case UAV => if r == Texture2DMS || r == Texture2DMSArray then Unknown else Dim(r)
  }

  /** The descriptor fields a `ViewCreator` holds a pointer to. */
  datatype Field = FirstElement | NumElements | FirstMip | NumMips | FirstSlice | NumSlices

  /** Which of first-mip, mip-count, first-slice and slice-count a texture view has. */
  function TextureFields(v: ViewType, r: ResourceType): (fs: set<Field>)
    ensures fs <= {FirstMip, NumMips, FirstSlice, NumSlices}
  {
    match (v, r)
    case (_, Buffer) => {}
    case (_, Texture2DMS) => {}
    case (UAV, Texture2DMSArray) => {}
    case (_, Texture2DMSArray) => {FirstSlice, NumSlices}
    case (SRV, Texture1D) => {FirstMip, NumMips}
    case (SRV, Texture2D) => {FirstMip, NumMips}
    case (SRV, Texture3D) => {FirstMip, NumMips}
    case (SRV, _) => {FirstMip, NumMips, FirstSlice, NumSlices}
    case (DSV, Texture3D) => {}
    case (_, Texture1D) => {FirstMip}
    case (_, Texture2D) => {FirstMip}
    case (_, _) => {FirstMip, FirstSlice, NumSlices}
  }

  /** All fields a view of `r` can set: the element range for buffer views other than DSV. */
  function ViewFields(v: ViewType, r: ResourceType): (fs: set<Field>)
  {
    if r == Buffer then (if v == DSV then {} else {FirstElement, NumElements})
    else TextureFields(v, r)
  }

  /** Which views have which fields, as the pointer tables lay them out. */
  lemma ViewFieldsShape(v: ViewType, r: ResourceType)
    ensures (FirstElement in ViewFields(v, r) || NumElements in ViewFields(v, r)) <==> r == Buffer && v != DSV
    ensures NumMips in ViewFields(v, r) <==> v == SRV && r in {Texture1D, Texture1DArray, Texture2D, Texture2DArray, Texture3D}
    ensures NumMips in ViewFields(v, r) ==> FirstMip in ViewFields(v, r)
    ensures NumSlices in ViewFields(v, r) <==> FirstSlice in ViewFields(v, r)
    ensures NumSlices in ViewFields(v, r) <==>
      r in {Texture1DArray, Texture2DArray} || (r == Texture2DMSArray && v != UAV) || (r == Texture3D && v in {RTV, UAV})
  {
  }

  /** The initial field values: zero, except every mip-count and slice-count of a texture view is ~0U. */
  function InitialFields(v: ViewType, r: ResourceType): (m: map<Field, u32>)
    ensures m.Keys == ViewFields(v, r)
    ensures forall f :: f in m ==> m[f] == (if r != Buffer && f in {NumMips, NumSlices} then U32Max else 0)
  {
    map f | f in ViewFields(v, r) :: if r != Buffer && f in {NumMips, NumSlices} then U32Max else 0
  }

  /** Builder for a view description of one resource. */
  class ViewCreator {
    const viewType: ViewType
    const resType: ResourceType
    var format: nat
    var dimension: Dimension
    var fields: map<Field, u32>
    var dsvFlags: bv32
    var rawFlag: bool
    /** TEST_FATAL has ended the process. */
    var exited: bool

    ghost predicate Valid()
      reads this
    {
      fields.Keys == ViewFields(viewType, resType) &&
      (dimension == ViewDimension(viewType, resType) || (dimension == BufferEx && resType == Buffer))
    }

    /**
     * The constructors and `SetupDescriptors`: a view with no dimension for
     * its resource ends the process; a texture view then takes the
     * texture's format.
     */
    constructor (v: ViewType, r: ResourceType, resourceFormat: nat)
      ensures Valid() && viewType == v && resType == r
      ensures exited <==> ViewDimension(v, r) == Unknown && v in {DSV, UAV}
      ensures !exited ==> dimension == ViewDimension(v, r) && fields == InitialFields(v, r) && dsvFlags == 0 && !rawFlag
      ensures !exited ==> format == if r == Buffer then FORMAT_UNKNOWN else resourceFormat
    {
      viewType, resType := v, r;
      format, dimension, dsvFlags, rawFlag := 0, ViewDimension(v, r), 0, false;
      fields := InitialFields(v, r);
      exited := (v == DSV || v == UAV) && ViewDimension(v, r) == Unknown;
      new;
      if !exited && r != Buffer {
        format := resourceFormat;
      }
    }

    method Format(f: nat)
      modifies this`format
      ensures format == f
    {
      format := f;
    }

    /**
     * The five field setters. A field this view lacks is left alone; except
     * for `FirstElement` that is reported as an error (`reported`).
     */
    method SetField(f: Field, value: u32) returns (reported: bool)
      requires Valid()
      modifies this`fields
      ensures Valid()
      ensures fields == if f in old(fields) then old(fields)[f := value] else old(fields)
      ensures reported <==> f !in old(fields) && f != FirstElement
    {
      if f in fields {
        fields := fields[f := value];
        reported := false;
      } else {
        reported := f != FirstElement;
      }
    }

    method ReadOnlyDepth()
      modifies this`dsvFlags
      ensures dsvFlags == old(dsvFlags) | DSV_READ_ONLY_DEPTH
    {
      dsvFlags := dsvFlags | DSV_READ_ONLY_DEPTH;
    }

    method ReadOnlyStencil()
      modifies this`dsvFlags
      ensures dsvFlags == old(dsvFlags) | DSV_READ_ONLY_STENCIL
    {
      dsvFlags := dsvFlags | DSV_READ_ONLY_STENCIL;
    }

    /**
     * Completing a shader-resource or unordered-access view of a buffer:
     * raw-view buffers get the raw flag (and, for SRVs, the extended
     * dimension); a buffer with no stride viewed with no format ends the
     * process; an element count of 0 is derived from the byte width.
     */
    method CompleteBufferView(buf: BufferDesc) returns (exit: bool)
      requires Valid() && viewType in {SRV, UAV} && dimension == Dim(Buffer) && format < FormatCount
      modifies this`dimension, this`rawFlag, this`fields
      ensures Valid()
      ensures exit <==> buf.structureByteStride == 0 && format == FORMAT_UNKNOWN
      ensures rawFlag == (old(rawFlag) || buf.miscFlags & MISC_BUFFER_ALLOW_RAW_VIEWS != 0)
      ensures dimension == if viewType == SRV && buf.miscFlags & MISC_BUFFER_ALLOW_RAW_VIEWS != 0 then BufferEx else Dim(Buffer)
      ensures exit ==> fields == old(fields)
      ensures !exit ==> fields == old(fields)[NumElements :=
        if old(fields)[NumElements] == 0 then ElementCount(buf.byteWidth, ViewStride(buf, format))
        else old(fields)[NumElements]]
    {
      if buf.miscFlags & MISC_BUFFER_ALLOW_RAW_VIEWS != 0 {
        if viewType == SRV {
          dimension := BufferEx;
        }
        rawFlag := true;
      }
      var elementStride := buf.structureByteStride;
      if buf.structureByteStride == 0 && format == FORMAT_UNKNOWN {
        return true;
      }
      if format != FORMAT_UNKNOWN {
        elementStride := FormatStride(format);
      }
      if fields[NumElements] == 0 {
        fields := fields[NumElements := ElementCount(buf.byteWidth, elementStride)];
      }
      return false;
    }
  }

  /** The element size a buffer view uses: the format's when it has one, else the buffer's stride. */
  function ViewStride(buf: BufferDesc, format: nat): (s: nat)
    requires format < FormatCount
    ensures format == FORMAT_UNKNOWN ==> s == buf.structureByteStride
    ensures format != FORMAT_UNKNOWN ==> s == FormatStride(format)
  {
    if format != FORMAT_UNKNOWN then FormatStride(format) else buf.structureByteStride
  }

  /** `byteWidth / max(stride, 1)`. */
  function ElementCount(byteWidth: u32, stride: nat): (n: u32)
  {
    byteWidth / Max(stride, 1)
  }

  /** The derived count is the most whole elements that fit in the buffer. */
  lemma ElementCountFits(byteWidth: u32, stride: nat)
    ensures ElementCount(byteWidth, stride) * Max(stride, 1) <= byteWidth
    ensures byteWidth < (ElementCount(byteWidth, stride) + 1) * Max(stride, 1)
    ensures stride <= 1 ==> ElementCount(byteWidth, stride) == byteWidth
  {
  }
}
