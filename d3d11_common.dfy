// Buffer and texture creation in the D3D11 test framework, and reading a
// buffer back to the CPU.
module D3D11Common {
  import opened Common
  import opened D3D11Helpers

  // `BufType` values: the major type lives in the low byte, the UAV kind in 0xf00.
  const eCBuffer: bv32 := 0x0
  const eStageBuffer: bv32 := 0x1
  const eVBuffer: bv32 := 0x2
  const eIBuffer: bv32 := 0x4
  const eBuffer: bv32 := 0x8
  const eCompBuffer: bv32 := 0x10
  const eSOBuffer: bv32 := 0x20
  const BufMajorType: bv32 := 0xff
  const eAppend: bv32 := 0x100
  const BufUAVType: bv32 := 0xf00
  const BUFFER_UAV_FLAG_APPEND: bv32 := 0x2

  /** Bind flags, CPU access and usage of a buffer. */
  datatype Access = Access(bind: bv32, cpu: bv32, usage: Usage)

  /** The switch on the major type; `None` for a value it has no case for. */
  function MajorTypeAccess(major: bv32): (a: Option<Access>)
    ensures a.Some? <==> major in {eCBuffer, eStageBuffer, eVBuffer, eIBuffer, eBuffer, eSOBuffer, eCompBuffer}
    ensures a.Some? && a.value.usage == UsageDynamic ==> a.value.cpu == CPU_ACCESS_WRITE
    ensures a.Some? && a.value.usage == UsageDefault ==> a.value.cpu == 0
  {
    if major == eCBuffer then Some(Access(BIND_CONSTANT_BUFFER, 0, UsageDefault))
    else if major == eStageBuffer then Some(Access(0, CPU_ACCESS_READ | CPU_ACCESS_WRITE, UsageStaging))
    else if major == eVBuffer then Some(Access(BIND_VERTEX_BUFFER, CPU_ACCESS_WRITE, UsageDynamic))
    else if major == eIBuffer then Some(Access(BIND_INDEX_BUFFER, CPU_ACCESS_WRITE, UsageDynamic))
    else if major == eBuffer then Some(Access(BIND_SHADER_RESOURCE, CPU_ACCESS_WRITE, UsageDynamic))
    else if major == eSOBuffer then Some(Access(BIND_STREAM_OUTPUT, 0, UsageDefault))
    else if major == eCompBuffer then Some(Access(BIND_UNORDERED_ACCESS, 0, UsageDefault))
    else None
  }

  /** A buffer view: its format, first element and element count (and, for UAVs, its flags). */
  datatype BufferView = BufferView(format: nat, firstElement: u32, numElements: u32, flags: bv32)

  datatype BufferSetup =
    | BadStructSize
    | Created(desc: BufferDesc, pitch: u32, srv: Option<BufferView>, uav: Option<BufferView>, rtv: Option<BufferView>)

  /**
   * `MakeBuffer`. `uninit` stands for whatever bind flags, CPU access and
   * usage the uninitialised description holds when the major type has no
   * case in the switch. A stride that does not divide the size ends the
   * process (`BadStructSize`).
   */
  method MakeBuffer(bufType: bv32, flags: bv32, byteSize: u32, structSize: u32, fmt: nat,
                    wantSrv: bool, wantUav: bool, wantRtv: bool, uninit: Access)
    returns (r: BufferSetup)
    ensures var size := BufferSize(bufType, byteSize);
      structSize > 0 && size % structSize != 0 ==> r == BadStructSize
    ensures var size := BufferSize(bufType, byteSize);
      !(structSize > 0 && size % structSize != 0) ==>
        r.Created? && r.desc.byteWidth == size && r.pitch == size &&
        r.desc.structureByteStride == (if structSize > 0 && fmt == FORMAT_UNKNOWN then structSize else 0) &&
        r.desc.miscFlags == (if structSize > 0 && fmt == FORMAT_UNKNOWN then flags | MISC_BUFFER_STRUCTURED else flags) &&
        (r.srv.Some? <==> wantSrv) && (r.uav.Some? <==> wantUav) && (r.rtv.Some? <==> wantRtv) &&
        (r.srv.Some? ==> r.srv.value == BufferView(fmt, 0, SrvElements(size, structSize), 0)) &&
        (r.uav.Some? ==> r.uav.value == BufferView(fmt, 0, ElementCount(size, structSize),
                                                   if bufType & BufUAVType == eAppend then BUFFER_UAV_FLAG_APPEND else 0)) &&
        (r.rtv.Some? ==> r.rtv.value == BufferView(fmt, 0, ElementCount(size, structSize), 0))
    ensures r.Created? ==>
      var base := if MajorTypeAccess(bufType & BufMajorType).Some? then MajorTypeAccess(bufType & BufMajorType).value else uninit;
      r.desc.cpuAccessFlags == base.cpu && r.desc.usage == base.usage &&
      r.desc.bindFlags == RequestedBinds(base.bind, wantSrv, wantUav, wantRtv)
  {
    var size := byteSize;
    if bufType & BufMajorType == eCBuffer {
      size := Align16(size);
    }
    var misc := flags;
    var stride := structSize;
    if structSize > 0 && fmt == FORMAT_UNKNOWN {
      misc := misc | MISC_BUFFER_STRUCTURED;
    } else {
      stride := 0;
    }
    if structSize > 0 && size % structSize != 0 {
      return BadStructSize;
    }
    var access := BufferAccess(bufType & BufMajorType, uninit);
    var bind := ViewBinds(access.bind, wantSrv, wantUav, wantRtv);
    var desc := BufferDesc(size, access.usage, bind, access.cpu, misc, stride);
    var srv, uav, rtv := BufferViews(bufType, size, structSize, fmt, wantSrv, wantUav, wantRtv);
    return Created(desc, size, srv, uav, rtv);
  }

  /** The switch on the major type, falling back to the uninitialised values. */
  method BufferAccess(major: bv32, uninit: Access) returns (access: Access)
    ensures MajorTypeAccess(major).Some? ==> access == MajorTypeAccess(major).value
    ensures MajorTypeAccess(major).None? ==> access == uninit
  {
    access := uninit;
    if major == eCBuffer {
      access := Access(BIND_CONSTANT_BUFFER, 0, UsageDefault);
    } else if major == eStageBuffer {
      access := Access(0, CPU_ACCESS_READ | CPU_ACCESS_WRITE, UsageStaging);
    } else if major == eVBuffer {
      access := Access(BIND_VERTEX_BUFFER, CPU_ACCESS_WRITE, UsageDynamic);
    } else if major == eIBuffer {
      access := Access(BIND_INDEX_BUFFER, CPU_ACCESS_WRITE, UsageDynamic);
    } else if major == eBuffer {
      access := Access(BIND_SHADER_RESOURCE, CPU_ACCESS_WRITE, UsageDynamic);
    } else if major == eSOBuffer {
      access := Access(BIND_STREAM_OUTPUT, 0, UsageDefault);
    } else if major == eCompBuffer {
      access := Access(BIND_UNORDERED_ACCESS, 0, UsageDefault);
    }
  }

  /** Adds a bind bit for each view asked for. */
  method ViewBinds(base: bv32, wantSrv: bool, wantUav: bool, wantRtv: bool) returns (bind: bv32)
    ensures bind == RequestedBinds(base, wantSrv, wantUav, wantRtv)
  {
    var views: bv32 := 0;
    if wantSrv {
      views := views | BIND_SHADER_RESOURCE;
    }
    if wantUav {
      views := views | BIND_UNORDERED_ACCESS;
    }
    if wantRtv {
      views := views | BIND_RENDER_TARGET;
    }
    bind := base | views;
  }

  /** The view descriptions for a buffer of `size` bytes. */
  method BufferViews(bufType: bv32, size: u32, structSize: u32, fmt: nat, wantSrv: bool, wantUav: bool, wantRtv: bool)
    returns (srv: Option<BufferView>, uav: Option<BufferView>, rtv: Option<BufferView>)
    ensures srv.Some? <==> wantSrv
    ensures uav.Some? <==> wantUav
    ensures rtv.Some? <==> wantRtv
    ensures srv.Some? ==> srv.value == BufferView(fmt, 0, SrvElements(size, structSize), 0)
    ensures uav.Some? ==> uav.value == BufferView(fmt, 0, ElementCount(size, structSize),
                                                  if bufType & BufUAVType == eAppend then BUFFER_UAV_FLAG_APPEND else 0)
    ensures rtv.Some? ==> rtv.value == BufferView(fmt, 0, ElementCount(size, structSize), 0)
  {
    srv, uav, rtv := None, None, None;
    if wantSrv {
      var n := size / Max(structSize, 1);
      if structSize == 0 {
        n := size / 16;
      }
      srv := Some(BufferView(fmt, 0, n, 0));
    }
    if wantUav {
      var uavFlags: bv32 := if bufType & BufUAVType == eAppend then BUFFER_UAV_FLAG_APPEND else 0;
      uav := Some(BufferView(fmt, 0, size / Max(structSize, 1), uavFlags));
    }
    if wantRtv {
      rtv := Some(BufferView(fmt, 0, size / Max(structSize, 1), 0));
    }
  }

  /** The byte width: constant buffers are rounded up to a multiple of 16. */
  function BufferSize(bufType: bv32, byteSize: u32): (size: u32)
    ensures bufType & BufMajorType == eCBuffer ==> size == Align16(byteSize)
    ensures bufType & BufMajorType != eCBuffer ==> size == byteSize
  {
    if bufType & BufMajorType == eCBuffer then Align16(byteSize) else byteSize
  }

  /** The table's bind flags plus a bit for each view asked for. */
  function RequestedBinds(base: bv32, srv: bool, uav: bool, rtv: bool): (b: bv32)
  {
    base | (if srv then BIND_SHADER_RESOURCE else 0) | (if uav then BIND_UNORDERED_ACCESS else 0)
      | (if rtv then BIND_RENDER_TARGET else 0)
  }

  /** Each view asked for gets its bind bit, and none of the table's bits is dropped. */
  lemma RequestedBindsSetsViewBits(base: bv32, srv: bool, uav: bool, rtv: bool)
    ensures var b := RequestedBinds(base, srv, uav, rtv);
      (srv ==> b & BIND_SHADER_RESOURCE != 0) && (uav ==> b & BIND_UNORDERED_ACCESS != 0) &&
      (rtv ==> b & BIND_RENDER_TARGET != 0) && b & base == base
  {
  }

  /** The SRV element count: by the struct size, or by 16 bytes for an unstructured buffer. */
  function SrvElements(size: u32, structSize: u32): u32
  {
    if structSize == 0 then size / 16 else size / Max(structSize, 1)
  }

  /** A constant buffer's size is a multiple of 16 and, short of the 32-bit limit, the least one not below the request. */
  lemma ConstantBufferSizeRounded(byteSize: u32, structSize: u32, fmt: nat, flags: bv32)
    requires byteSize <= U32Max - 15
    ensures Align16(byteSize) % 16 == 0 && byteSize <= Align16(byteSize) < byteSize + 16
    ensures byteSize % 16 == 0 ==> Align16(byteSize) == byteSize
  {
  }

  /** Views of a structured buffer cover it exactly: element count times struct size is the byte size. */
  lemma StructuredViewsCoverBuffer(size: u32, structSize: u32)
    requires structSize > 0 && size % structSize == 0
    ensures SrvElements(size, structSize) * structSize == size
    ensures ElementCount(size, structSize) * structSize == size
  {
  }

  /** An output pointer: null, the sentinel 0x1 ("bind only, no view"), or a real pointer. */
  datatype OutPtr = Null | Sentinel | Ptr

  /** A texture view: its dimension and format (mip fields fixed at one level from mip 0). */
  datatype TextureView = TextureView(dimension: Dimension, format: nat)

  datatype TextureSetup = TextureSetup(desc: TextureDesc, srv: Option<TextureView>, uav: Option<TextureView>,
                                       rtv: Option<TextureView>, dsv: Option<TextureView>)

  /**
   * `MakeTexture2DMS`. Any non-null view pointer asks for the bind flag; the
   * sentinel suppresses creating the SRV, RTV and DSV, but not the UAV, which
   * is created whenever its pointer is not null and the texture has one sample.
   */
  method MakeTexture2DMS(w: u32, h: u32, mips: u32, sampleCount: u32, fmt: nat,
                         srv: OutPtr, uav: OutPtr, rtv: OutPtr, dsv: OutPtr)
    returns (r: TextureSetup)
    ensures r.desc.width == w && r.desc.height == h && r.desc.arraySize == 1 && r.desc.mipLevels == mips
    ensures r.desc.sampleCount == sampleCount && r.desc.sampleQuality == 0 && r.desc.format == fmt
    ensures r.desc.usage == UsageDefault && r.desc.cpuAccessFlags == 0 && r.desc.miscFlags == 0
    ensures (r.desc.bindFlags & BIND_SHADER_RESOURCE != 0) <==> srv != Null
    ensures (r.desc.bindFlags & BIND_UNORDERED_ACCESS != 0) <==> uav != Null
    ensures (r.desc.bindFlags & BIND_RENDER_TARGET != 0) <==> rtv != Null
    ensures (r.desc.bindFlags & BIND_DEPTH_STENCIL != 0) <==> dsv != Null
    ensures r.srv.Some? <==> srv == Ptr
    ensures r.rtv.Some? <==> rtv == Ptr
    ensures r.dsv.Some? <==> dsv == Ptr
    ensures r.uav.Some? <==> uav != Null && sampleCount == 1
    ensures var d := if sampleCount > 1 then Dim(Texture2DMS) else Dim(Texture2D);
      (r.srv.Some? ==> r.srv.value == TextureView(d, fmt)) &&
      (r.rtv.Some? ==> r.rtv.value == TextureView(d, fmt)) &&
      (r.dsv.Some? ==> r.dsv.value == TextureView(d, fmt)) &&
      (r.uav.Some? ==> r.uav.value == TextureView(Dim(Texture2D), fmt))
  {
    var bind: bv32 := 0;
    if srv != Null {
      bind := bind | BIND_SHADER_RESOURCE;
    }
    if rtv != Null {
      bind := bind | BIND_RENDER_TARGET;
    }
    if dsv != Null {
      bind := bind | BIND_DEPTH_STENCIL;
    }
    if uav != Null {
      bind := bind | BIND_UNORDERED_ACCESS;
    }
    var desc := TextureDesc(w, h, 1, mips, 1, fmt, sampleCount, 0, UsageDefault, bind, 0, 0);
    var dim := if sampleCount > 1 then Dim(Texture2DMS) else Dim(Texture2D);
    var srvView: Option<TextureView> := None;
    var uavView: Option<TextureView> := None;
    var rtvView: Option<TextureView> := None;
    var dsvView: Option<TextureView> := None;
    if srv != Null && srv != Sentinel {
      srvView := Some(TextureView(dim, fmt));
    }
    if uav != Null && sampleCount == 1 {
      uavView := Some(TextureView(Dim(Texture2D), fmt));
    }
    if rtv != Null && rtv != Sentinel {
      rtvView := Some(TextureView(dim, fmt));
    }
    if dsv != Null && dsv != Sentinel {
      dsvView := Some(TextureView(dim, fmt));
    }
    return TextureSetup(desc, srvView, uavView, rtvView, dsvView);
  }

  /** `MakeTexture2D`: the single-sampled case. */
  method MakeTexture2D(w: u32, h: u32, mips: u32, fmt: nat, srv: OutPtr, uav: OutPtr, rtv: OutPtr, dsv: OutPtr)
    returns (r: TextureSetup)
    ensures r.desc.sampleCount == 1
    ensures r.uav.Some? <==> uav != Null
    ensures r.srv.Some? ==> r.srv.value.dimension == Dim(Texture2D)
  {
    r := MakeTexture2DMS(w, h, mips, 1, fmt, srv, uav, rtv, dsv);
  }

  // ---- Reading a buffer back ------------------------------------------------

  /**
   * The read length as written: 0 means "to the end"; a longer read is
   * clamped, but both `ByteWidth - offset` and the end test
   * `offset + len > ByteWidth` are done in 32-bit arithmetic. A sum that
   * wraps past 2^32 escapes the clamp, and an offset past the end makes
   * "what is left" wrap to nearly 2^32.
   */
  function ReadLengthAsWritten(byteWidth: u32, offset: u32, len: u32): (l: u32)
    ensures len == 0 ==> l == Wrap32(byteWidth - offset)
    ensures offset <= byteWidth && offset + len < TWO32 ==> l <= byteWidth - offset
    ensures offset <= byteWidth && offset + len >= TWO32 ==> l == len
    ensures offset > byteWidth && len > 0 ==> l == Min(len, TWO32 + byteWidth - offset)
  {
    var left := Wrap32(byteWidth - offset);
    var l := if len == 0 then left else len;
    if l > 0 && Wrap32(offset + l) > byteWidth then Min(l, left) else l
  }

  /** The read length with the end test done without wrap-around. */
  function ReadLength(byteWidth: u32, offset: u32, len: u32): (l: u32)
    requires offset <= byteWidth
    ensures l <= byteWidth - offset
    ensures len == 0 ==> l == byteWidth - offset
    ensures 0 < len <= byteWidth - offset ==> l == len
    ensures len > byteWidth - offset ==> l == byteWidth - offset
  {
    var l := if len == 0 then byteWidth - offset else len;
    if l > byteWidth - offset then byteWidth - offset else l
  }

  /** The two agree whenever `offset + len` fits in 32 bits. */
  lemma ReadLengthAgreesWithoutWrap(byteWidth: u32, offset: u32, len: u32)
    requires offset <= byteWidth && offset + len < TWO32
    ensures ReadLengthAsWritten(byteWidth, offset, len) == ReadLength(byteWidth, offset, len)
  {
  }

  /** A length whose sum with the offset wraps is not clamped: a 32-byte buffer read from 16 keeps length 0xFFFFFFFF. */
  lemma WrappedLengthEscapesClamp()
    ensures ReadLengthAsWritten(32, 16, U32Max) == U32Max
    ensures ReadLength(32, 16, U32Max) == 16
  {
  }

  /**
   * An offset past the end wraps "what is left": a 32-byte buffer read
   * from offset 48 to the end asks for 2^32 - 16 bytes, which the end
   * test lets through, so the read runs off the buffer.
   */
  lemma OffsetPastEndOverReads(contents: seq<byte>)
    requires |contents| == 32
    ensures ReadLengthAsWritten(32, 48, 0) == TWO32 - 16
    ensures ReadAsWritten(contents, 48, 0) == Error(OverRead)
  {
  }

  datatype ReadError = OverRead

  /**
   * What `GetBufferData` returns, as written: the copy starts at the
   * beginning of the mapped buffer whatever the offset, and a length larger
   * than the buffer reads past its end.
   */
  function ReadAsWritten(contents: seq<byte>, offset: u32, len: u32): (r: Result<seq<byte>, ReadError>)
    requires |contents| < TWO32
    ensures r.Error? <==> ReadLengthAsWritten(|contents|, offset, len) > |contents|
    ensures r.Ok? ==> |r.value| == ReadLengthAsWritten(|contents|, offset, len)
    ensures r.Ok? ==> r.value == contents[..|r.value|]
  {
    var l := ReadLengthAsWritten(|contents|, offset, len);
    if l > |contents| then Error(OverRead) else Ok(contents[..l])
  }

  /** The bytes `[offset, offset + length)` of the buffer, length clamped to its end. */
  function ReadRange(contents: seq<byte>, offset: u32, len: u32): (r: seq<byte>)
    requires |contents| < TWO32 && offset <= |contents|
    ensures |r| == ReadLength(|contents|, offset, len)
    ensures forall i :: 0 <= i < |r| ==> r[i] == contents[offset + i]
    ensures len == 0 ==> r == contents[offset..]
  {
    contents[offset..offset + ReadLength(|contents|, offset, len)]
  }

  /** The copy ignores the offset: reading 16 bytes from offset 16 of 0, 1, .., 31 gives 0 .. 15, not 16 .. 31. */
  lemma CopyIgnoresOffset()
    ensures var c := seq(32, i requires 0 <= i < 32 => i as byte);
      ReadAsWritten(c, 16, 16) == Ok(c[..16]) && ReadRange(c, 16, 16) == c[16..] && c[..16] != c[16..]
  {
    var c := seq(32, i requires 0 <= i < 32 => i as byte);
    assert c[..16][0] == 0 && c[16..][0] == 16;
  }

  /** With offset 0 and no wrap the code as written returns exactly the intended bytes. */
  lemma ReadAsWrittenAtOffsetZero(contents: seq<byte>, len: u32)
    requires |contents| < TWO32
    ensures ReadAsWritten(contents, 0, len) == Ok(ReadRange(contents, 0, len))
  {
    ReadLengthAgreesWithoutWrap(|contents|, 0, len);
  }

  /**
   * `GetBufferData(buffer, offset, len)` on a buffer holding `contents`:
   * adjusts `len`, sizes the result, and copies `len` bytes from the start
   * of the mapped copy.
   */
  method GetBufferData(contents: seq<byte>, offset: u32, len: u32) returns (r: Result<seq<byte>, ReadError>)
    requires |contents| < TWO32
    ensures r == ReadAsWritten(contents, offset, len)
  {
    var byteWidth: u32 := |contents|;
    var l := len;
    if l == 0 {
      l := Wrap32(byteWidth - offset);
    }
    if l > 0 && Wrap32(offset + l) > byteWidth {
      l := Min(l, Wrap32(byteWidth - offset));
    }
    if l > byteWidth {
      return Error(OverRead);
    }
    var ret := contents[..l];
    return Ok(ret);
  }
}
