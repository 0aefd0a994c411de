# autotest-renderdoc harness core in Dafny

This project models the deterministic core of the autotest-renderdoc GPU regression-test harness:

- **C++ demo and test programs** (D3D11 and Vulkan):
  - the descriptor builders;
  - buffer readback clamping;
  - the device and swapchain selection rules;
  - the command-buffer pool;
  - the test registry and command-line dispatch.
- **Python runner**:
  - the logger's indentation state machine;
  - test discovery order, the skip filter, return-code classification and the exit status;
  - the deterministic rewrite of a capture's chunk metadata.

Everything a graphics API, the operating system or a child process decides is a parameter of the model. This covers whether a DLL loads, whether a fence is signalled, whether a regular expression matches, and a child's exit code. The model states which choice the harness makes for every such outcome.

There is one module per source file:

| module | file | source |
|---|---|---|
| `Common` | `common.dfy` | 32-bit unsigned wrap-around, `Option`/`Result`, `Min`/`Max` |
| `Sorting` | `sorting.dfy` | insertion sort by a strict order (stands in for `std::sort` and `list.sort`) |
| `TestCommon` | `test_common.dfy` | `tests/test_common.h` |
| `DemosMain` | `demos_main.dfy` | `demos/main.cpp` |
| `TestsMain` | `tests_main.dfy` | `tests/main.cpp` |
| `GraphicsTestCommon` | `graphics_test.dfy` | `demos/test_common.cpp` |
| `D3D11Helpers` | `d3d11_helpers.dfy` | `demos/d3d11/d3d11_helpers.cpp` |
| `D3D11Common` | `d3d11_common.dfy` | `tests/d3d11_common.cpp` |
| `D3D11Test` | `d3d11_test.dfy` | `tests/d3d11/d3d11_test.cpp` |
| `VkHelpers` | `vk_helpers.dfy` | `demos/vk/vk_helpers.h` |
| `VkTest` | `vk_test.dfy` | `tests/vk/vk_test.cpp` |
| `VkCommon` | `vk_common.dfy` | `tests/vk_common.cpp` |
| `VkCommonHeader` | `vk_common_h.dfy` | `tests/vk_common.h` |
| `RdLogging` | `rdtest_logging.dfy` | `rdtest/logging.py` |
| `RdRunner` | `rdtest_runner.dfy` | `rdtest/runner.py` |
| `RdTestCase` | `rdtest_testcase.dfy` | `rdtest/testcase.py` |

Objects whose fields the source updates in place are classes:

- the D3D11 buffer, texture and view creators;
- the render-pass and pipeline creators;
- both `VulkanGraphicsTest` command-buffer pools;
- the registries;
- the demo picker;
- `GraphicsTest`;
- the logger.

The loops of the source are methods with loop invariants. Each is proved against a specification function, and the properties are lemmas about those functions.

Integer widths:

- 32-bit unsigned quantities (`u32`) wrap explicitly where the source's arithmetic can overflow (`Common.Wrap32`).
- Flags are `bv32`.

## Model

| member | source | states |
|---|---|---|
| Common.Wrap32 | tests/d3d11_common.cpp:267 | `uint32_t` addition: a value in range is kept, one just past 2^32 loses 2^32 |
| Sorting.SortBy | tests/test_common.h:170-180 | the sort used for the registries: its output is sorted by the given strict order and is a permutation of its input |
| Sorting.Insert | tests/test_common.h:170-180 | inserting into a sorted list keeps it sorted and adds exactly the new element |
| Sorting.InsertKeepsTies | rdtest/runner.py:26 | inserting an element puts it after every element of equal key already in the list and moves none of them |
| Sorting.SortByKeepsTies | rdtest/runner.py:26 | the sort is stable, as Python's `list.sort` is: the elements of each key come out in the order they went in |
| TestCommon.ApiValue | tests/test_common.h:144-149 | the enumerators have the values 0, 1, 2 in declaration order (D3D11 first, OpenGL last) |
| TestCommon.APIName | tests/test_common.h:158-168 | each API is named "D3D11", "VK" or "GL"; the "???" fallback is unreachable for the three enumerators |
| TestCommon.APINameInjective | tests/test_common.h:158-168 | distinct APIs have distinct names |
| TestCommon.StrCmp | tests/test_common.h:175-177 | `strcmp` reduced to its sign |
| TestCommon.StrCmpZeroIffEqual | tests/test_common.h:175-177 | `strcmp` is zero exactly for equal names |
| TestCommon.StrCmpAntisymmetric | tests/test_common.h:175-177 | swapping the operands negates the comparison |
| TestCommon.StrCmpTransitive | tests/test_common.h:175-177 | the name order is transitive |
| TestCommon.LessTotal | tests/test_common.h:170-180 | two entries that differ in API, name or test pointer are ordered one way and not both |
| TestCommon.Less | tests/test_common.h:170-180 | different APIs order by enumerator value; same API and name order by test address; a smaller entry never has a larger API |
| TestCommon.LessIsStrictOrder | tests/test_common.h:170-180 | `operator<` (API value, then name, then pointer) is irreflexive and transitive |
| TestCommon.LessTransitive | tests/test_common.h:170-180 | `operator<` is transitive across the three keys |
| TestCommon.Registration | tests/test_common.h:185-202 | `REGISTER_TEST` records the type's name, API and description and the test's address |
| TestCommon.RegistrationsStrictlyOrdered | tests/test_common.h:179-202 | two registrations at different addresses are strictly ordered, even with the same API and name |
| TestCommon.MacroEffect | tests/test_common.h:214-250 | `TEST_FATAL` and `TEST_UNIMPLEMENTED` exit with status 0; `TEST_ERROR` and a failed `TEST_ASSERT` break without exiting; `TEST_LOG`/`TEST_WARN` only print |
| DemosMain.SortedTests | demos/main.cpp:156 | the sorted test list is ordered by `operator<` and is a permutation of the registered tests |
| DemosMain.ListLines | demos/main.cpp:158-165 | `--list` prints one line per test, in list order |
| DemosMain.FindByName | demos/main.cpp:316-324 | finds the first test whose name equals the choice, or reports that none does |
| DemosMain.Registry.constructor | demos/main.cpp:141-145 | the static test list starts empty |
| DemosMain.Registry.RegisterTest | demos/main.cpp:147-150 | registration appends, preserving registration order |
| DemosMain.Registry.RunMain | demos/main.cpp:152-329 | sorts the list; `--list` prints every test and returns 1; an empty choice returns 0; otherwise the first test with that name runs and its result is returned; no match returns 2 |
| DemosMain.ToggleStep | demos/main.cpp:195-221 | one toggle leaves the number of filters unchanged; the guard and the frame are stated by `DemosMain.ToggleStepRefusesOnlyLast` |
| DemosMain.Toggled | demos/main.cpp:195-221 | the three toggles keep the number of filters |
| DemosMain.ToggleStepRefusesOnlyLast | demos/main.cpp:195-221 | a toggle keeps at least one API allowed, and is refused only when it would disable the last enabled filter |
| DemosMain.ToggledKeepsOneAllowed | demos/main.cpp:195-221 | after all toggles at least one API is still allowed |
| DemosMain.Picker.constructor | demos/main.cpp:176-183 | every API filter starts enabled and the first test is current |
| DemosMain.Picker.ApplyToggles | demos/main.cpp:195-221 | the filters become the result of the three guarded toggles, and one stays enabled |
| DemosMain.Picker.Reselect | demos/main.cpp:223-234 | an allowed current test stays; a disallowed one moves to the first allowed test; with none allowed nothing changes |
| DemosMain.Picker.Pick | demos/main.cpp:243-250 | a click selects a test only when its API is allowed |
| TestsMain.FullNameDeterminesApiAndName | tests/main.cpp:106-119 | equal "API::Name" strings mean the same API and name, so dispatch by full name is unambiguous |
| TestsMain.UsageLines | tests/main.cpp:93-94 | the usage output lists every test's full name and description, one entry per test, in order |
| TestsMain.UsageError | tests/main.cpp:89 | the usage error names the program (`argv[0]`) after "Invalid usage: " |
| TestsMain.UsageMode | tests/main.cpp:87 | fewer than two arguments always mean usage; two or more with a program name other than `--list` never do |
| TestsMain.FullName | tests/main.cpp:106-109 | the dispatch key is the API name, `::`, then the test name, each at its own position |
| TestsMain.ListFlagIsATestName | tests/main.cpp:87 | `--list` given as the first argument does not select usage mode, because the check reads the program name |
| TestsMain.FindByFullName | tests/main.cpp:106-119 | finds the first test whose "API::Name" equals the argument, or reports that none does |
| TestsMain.TestList.constructor | tests/main.cpp:71 | the list does not exist before the first registration |
| TestsMain.TestList.RegisterTest | tests/main.cpp:73-78 | the list is created on first use, and each registration appends in order |
| TestsMain.TestList.RunMain | tests/main.cpp:80-125 | usage mode reports the usage error, then prints an empty line and the test list, and returns 1; otherwise the first matching test runs and its result is returned; no match returns 2 |
| GraphicsTestCommon.DigitRun | demos/test_common.cpp:156-160 | the leading digits `atoi` reads: all digits, followed by a non-digit or the end |
| Common.Decimal | demos/test_common.cpp:156-160 | a number's decimal form is a nonempty run of digits |
| Common.DigitsValueOfDecimal | demos/test_common.cpp:156-160 | reading a number's decimal digits gives the number back |
| GraphicsTestCommon.DigitRunAll | demos/test_common.cpp:156-160 | an all-digit string is read in full |
| GraphicsTestCommon.AtoiOfDecimal | demos/test_common.cpp:156-160 | `atoi` inverts decimal formatting, with and without a minus sign |
| GraphicsTestCommon.Atoi | demos/test_common.cpp:156-160 | `atoi` of an empty string, or of one starting with neither white space, sign nor digit, is 0 |
| GraphicsTestCommon.TrailingFramesFlagIgnored | demos/test_common.cpp:156-160 | a frame-count flag that is the last argument changes nothing |
| GraphicsTestCommon.NoFramesFlagNoChange | demos/test_common.cpp:148-161 | without a frame-count flag the frame limit keeps its value |
| GraphicsTestCommon.GraphicsTest.constructor | tests/test_common.h:123-141 | 1280x720, windowed, no debug device, not headless, no frame limit |
| GraphicsTestCommon.GraphicsTest.Init | demos/test_common.cpp:143-181 | any of the four debug spellings turns the debug device on; the frame limit is `atoi` of the argument after the last frame-count flag that has one |
| GraphicsTestCommon.GraphicsTest.FrameLimit | demos/test_common.cpp:183-190 | with limit N > 0 the first N-1 calls continue and the Nth and later stop; N <= 0 never stops |
| GraphicsTestCommon.StageNamesDistinct | demos/test_common.cpp:82-90 | each shader stage has its own glslc stage name |
| GraphicsTestCommon.StageName | demos/test_common.cpp:82-90 | each stage's glslc name is a lower-case word of at least four letters |
| GraphicsTestCommon.GlslcCommandLine | demos/test_common.cpp:72-100 | the glslc command line: debug info, no optimisation, entry point, language flag, stage, output file, input file |
| GraphicsTestCommon.SpirvWordCount | demos/test_common.cpp:119-135 | no words unless glslc started, exited 0 and its output was read; otherwise the byte count divided by 4 |
| D3D11Helpers.FormatStride | demos/d3d11/d3d11_helpers.cpp:88-205 | every stride in the format table is at most 16 bytes |
| D3D11Helpers.FormatStrideRows | demos/d3d11/d3d11_helpers.cpp:88-205 | sample rows: 4-component floats are 16 bytes, RGBA8 is 4, block-compressed and packed formats are 0 |
| D3D11Helpers.BindFlagIsOneBit | demos/d3d11/d3d11_helpers.cpp:217-251 | each bind setter's flag is a single bit |
| D3D11Helpers.BindFlagsDisjoint | demos/d3d11/d3d11_helpers.cpp:217-251 | different setters set different bits |
| D3D11Helpers.Align16 | demos/d3d11/d3d11_helpers.cpp:291-301 | `AlignUp16` is a multiple of 16 within 15 above its input, and wraps to 0 at the top of the 32-bit range |
| D3D11Helpers.BufferCreator.constructor | demos/d3d11/d3d11_helpers.cpp:207-215 | a default-usage buffer with no size, flags, stride or initial data |
| D3D11Helpers.BufferCreator.Bind | demos/d3d11/d3d11_helpers.cpp:217-251 | `Vertex`/`Index`/`Constant`/`StreamOut`/`SRV`/`UAV` each OR in their one bit and leave the others |
| D3D11Helpers.BufferCreator.Structured | demos/d3d11/d3d11_helpers.cpp:253-261 | fatal when the stride does not divide the current width; otherwise sets the stride and ORs in the structured flag |
| D3D11Helpers.BufferCreator.ByteAddressed | demos/d3d11/d3d11_helpers.cpp:263-267 | ORs in the raw-views flag |
| D3D11Helpers.BufferCreator.Mappable | demos/d3d11/d3d11_helpers.cpp:269-274 | overwrites CPU access and usage with write/dynamic |
| D3D11Helpers.BufferCreator.Staging | demos/d3d11/d3d11_helpers.cpp:276-281 | overwrites CPU access and usage with read-write/staging |
| D3D11Helpers.BufferCreator.Data | demos/d3d11/d3d11_helpers.cpp:283-289 | records the data pointer, NULL included, with pitches that are the current byte width |
| D3D11Helpers.BufferCreator.Size | demos/d3d11/d3d11_helpers.cpp:291-301 | the width is rounded up to 16 only if the constant-buffer bit is already set; the pitches follow the width |
| D3D11Helpers.BufferCreator.Desc | demos/d3d11/d3d11_helpers.cpp:303-308 | the descriptor carries every field the builder set: byte width, usage, binds, CPU access, misc flags and stride |
| D3D11Helpers.BufferCreator.InitialData | demos/d3d11/d3d11_helpers.cpp:306 | initial data is passed exactly when the recorded pointer is non-null, with the recorded pitches |
| D3D11Helpers.SizeBeforeOrAfterConstant | demos/d3d11/d3d11_helpers.cpp:229-233 | `Constant().Size(20)` gives 32 while `Size(20).Constant()` gives 20 |
| D3D11Helpers.TextureCreator.constructor | demos/d3d11/d3d11_helpers.cpp:310-318 | format, width and height are kept; depth keeps its default 1 because of the self-assignment; one mip, one slice, one sample |
| D3D11Helpers.TextureCreator.Mips | demos/d3d11/d3d11_helpers.cpp:320-324 | sets the mip count |
| D3D11Helpers.TextureCreator.Array | demos/d3d11/d3d11_helpers.cpp:326-330 | sets the array size |
| D3D11Helpers.TextureCreator.Multisampled | demos/d3d11/d3d11_helpers.cpp:332-337 | sets sample count and quality |
| D3D11Helpers.TextureCreator.Bind | demos/d3d11/d3d11_helpers.cpp:339-361 | `SRV`/`UAV`/`RTV`/`DSV` each OR in their one bit and leave the others |
| D3D11Helpers.TextureCreator.Mappable | demos/d3d11/d3d11_helpers.cpp:363-368 | overwrites CPU access and usage with write/dynamic |
| D3D11Helpers.TextureCreator.Staging | demos/d3d11/d3d11_helpers.cpp:370-375 | overwrites CPU access and usage with read-write/staging |
| D3D11Helpers.TextureCreator.Desc1D | demos/d3d11/d3d11_helpers.cpp:377-393 | the 1D descriptor carries width, slices, mips, format, binds, usage, CPU access and misc flags |
| D3D11Helpers.TextureCreator.Desc2D | demos/d3d11/d3d11_helpers.cpp:395-414 | the 2D descriptor carries width, height, slices, mips, format, binds, usage, CPU access, misc flags and the sample count and quality |
| D3D11Helpers.TextureCreator.Desc3D | demos/d3d11/d3d11_helpers.cpp:416-433 | the 3D descriptor's depth is the height, as written; mips, format, binds, usage, CPU access and misc flags are carried |
| D3D11Helpers.Texture1DResourceType | demos/d3d11/d3d11_helpers.cpp:441-455 | a 1D texture is an array exactly when it has more than one slice |
| D3D11Helpers.Texture2DResourceType | demos/d3d11/d3d11_helpers.cpp:457-481 | multisampled exactly when the sample count exceeds 1; array exactly when the array size exceeds 1 |
| D3D11Helpers.ViewDimension | demos/d3d11/d3d11_helpers.cpp:498-574 | the view dimension is unknown exactly for a DSV on a buffer or 3D texture and a UAV on a multisampled texture; otherwise it is the resource's own |
| D3D11Helpers.TextureFields | demos/d3d11/d3d11_helpers.cpp:583-709 | a texture view exposes only mip and slice fields |
| D3D11Helpers.ViewFieldsShape | demos/d3d11/d3d11_helpers.cpp:583-722 | element fields exist exactly for buffer SRV/UAV/RTV; mip counts only for non-multisampled SRVs; slice fields come in pairs, exactly for array and 3D resources |
| D3D11Helpers.InitialFields | demos/d3d11/d3d11_helpers.cpp:711-722 | the fields a view has are set: mip and slice counts to `~0U` for textures, everything else to 0 |
| D3D11Helpers.ViewCreator.constructor | demos/d3d11/d3d11_helpers.cpp:435-574 | an unknown DSV or UAV dimension is fatal; otherwise the dimension, the initial fields and the format (unknown for buffers) |
| D3D11Helpers.ViewCreator.Format | demos/d3d11/d3d11_helpers.cpp:725-730 | sets the view format |
| D3D11Helpers.ViewCreator.SetField | demos/d3d11/d3d11_helpers.cpp:732-782 | a field the view has is set; a missing one is reported, except `FirstElement`, which is silently ignored |
| D3D11Helpers.ViewCreator.ReadOnlyDepth | demos/d3d11/d3d11_helpers.cpp:784-788 | ORs in the read-only-depth flag |
| D3D11Helpers.ViewCreator.ReadOnlyStencil | demos/d3d11/d3d11_helpers.cpp:790-794 | ORs in the read-only-stencil flag |
| D3D11Helpers.ViewCreator.CompleteBufferView | demos/d3d11/d3d11_helpers.cpp:796-857 | a raw buffer makes an SRV buffer-ex; with no stride and no format it is fatal; otherwise a zero element count becomes the width divided by the stride |
| D3D11Helpers.ViewStride | demos/d3d11/d3d11_helpers.cpp:812-818 | the stride is the format's table entry when a format is set, else the structure stride |
| D3D11Helpers.ElementCountFits | demos/d3d11/d3d11_helpers.cpp:817-818 | the element count is the largest count of whole elements that fits in the buffer |
| D3D11Common.MajorTypeAccess | tests/d3d11_common.cpp:321-358 | the table keyed on the major type: exactly the seven buffer kinds have an entry; dynamic buffers are CPU-writable, default ones not CPU-accessible |
| D3D11Common.BufferAccess | tests/d3d11_common.cpp:321-358 | the switch picks the table entry, and leaves the descriptor's fields as they were for a type outside it |
| D3D11Common.ViewBinds | tests/d3d11_common.cpp:360-365 | the requested views OR in their bind bits |
| D3D11Common.RequestedBindsSetsViewBits | tests/d3d11_common.cpp:360-365 | each requested view's bind bit is set and the table's bits are kept |
| D3D11Common.BufferViews | tests/d3d11_common.cpp:384-419 | a view is made exactly when requested; the SRV counts 16-byte elements when there is no structure size; the UAV carries the append flag |
| D3D11Common.BufferSize | tests/d3d11_common.cpp:303-306 | constant buffers are rounded up to 16 bytes, other buffers keep their size |
| D3D11Common.ConstantBufferSizeRounded | tests/d3d11_common.cpp:303-306 | the rounded size is the least multiple of 16 not below the request |
| D3D11Common.StructuredViewsCoverBuffer | tests/d3d11_common.cpp:387-390 | for a structure size that divides the buffer, the SRV and UAV elements cover the buffer exactly |
| D3D11Common.MakeBuffer | tests/d3d11_common.cpp:300-422 | a stride that does not divide the size is fatal; otherwise size, structured flag, stride, access and binds follow the rules above |
| D3D11Common.MakeTexture2DMS | tests/d3d11_common.cpp:431-520 | any non-null out-pointer requests its bind bit; the sentinel `0x1` suppresses the view; a UAV only without multisampling |
| D3D11Common.MakeTexture2D | tests/d3d11_common.cpp:424-429 | a single-sampled texture, for which a requested UAV is made |
| D3D11Common.ReadLength | tests/d3d11_common.cpp:264-271 | the intended clamp: 0 means to the end, a read past the end stops at the end, and the length never exceeds what is left |
| D3D11Common.ReadLengthAsWritten | tests/d3d11_common.cpp:264-271 | as written, for any offset: 0 means to the end of the buffer, computed modulo 2^32; for an offset within the buffer the clamp holds while `offset+len` fits in 32 bits, and a wrapping length is kept unclamped; past the end the length is capped only by the wrapped remainder |
| D3D11Common.OffsetPastEndOverReads | tests/d3d11_common.cpp:264-271 | a 32-byte buffer read to the end from offset 48 asks for 2^32-16 bytes and over-reads |
| D3D11Common.ReadAsWritten | tests/d3d11_common.cpp:264-292 | as written, for any offset: the bytes always come from the start of the buffer, and a length past the end is an over-read |
| D3D11Common.ReadLengthAgreesWithoutWrap | tests/d3d11_common.cpp:264-271 | the code as written clamps correctly when offset+len does not overflow 32 bits |
| D3D11Common.WrappedLengthEscapesClamp | tests/d3d11_common.cpp:267-271 | offset 16 and length 0xFFFFFFFF on a 32-byte buffer pass the guard unclamped |
| D3D11Common.ReadRange | tests/d3d11_common.cpp:253-298 | the intended readback: the clamped number of bytes, starting at the offset |
| D3D11Common.CopyIgnoresOffset | tests/d3d11_common.cpp:292 | as written, a read at offset 16 returns the buffer's first bytes |
| D3D11Common.ReadAsWrittenAtOffsetZero | tests/d3d11_common.cpp:253-298 | at offset 0 the code as written returns the intended bytes |
| D3D11Common.GetBufferData | tests/d3d11_common.cpp:253-298 | the readback as written, for any offset: the wrapped clamp, and a copy from the start of the buffer |
| D3D11Test.LoadCompiler | tests/d3d11/d3d11_test.cpp:41-56 | the compiler DLLs are tried from 47 down to 43; the first that loads is used, and none loading is reported |
| D3D11Test.RequestedLevel | tests/d3d11/d3d11_test.cpp:66-70 | feature level 11_1 exactly when `d3d11_1` is set, else 11_0 |
| D3D11Test.Init | tests/d3d11/d3d11_test.cpp:33-174 | missing DLLs fail first; drivers are tried hardware, WARP, reference, stopping at the first success; headless at level 11_0 tries hardware only; a failed last creation is a device failure, and a windowed run whose back buffer or view fails after the device is created is a back-buffer failure |
| D3D11Test.DefaultInputLayout | tests/d3d11/d3d11_test.cpp:379-388 | POSITION, COLOR, TEXCOORD in that order, starting at offset 0 |
| D3D11Test.DefaultInputLayoutPacked | tests/d3d11/d3d11_test.cpp:381-385 | each element starts where the previous one ends: offsets 0, 12 and 28 |
| D3D11Test.LittleEndian | tests/d3d11/d3d11_test.cpp:364 | a field's in-memory bytes have the field's width |
| D3D11Test.LittleEndianRoundTrip | tests/d3d11/d3d11_test.cpp:364 | reading back a field's little-endian bytes gives the field |
| D3D11Test.GuidBytes | tests/d3d11/d3d11_test.cpp:356-364 | a GUID is 16 bytes in memory and ends with its `Data4` bytes |
| D3D11Test.MagicGuidBytes | tests/d3d11_common.cpp:33-36 | the shader-debug magic GUID's 16 bytes |
| D3D11Test.BlobPathPayload | tests/d3d11/d3d11_test.cpp:352-370 | the blob part is the 16 GUID bytes, the name, and the terminator that the `size()+1` length includes |
| D3D11Test.BlobPathNameRecoverable | tests/d3d11/d3d11_test.cpp:352-370 | two payloads are equal exactly when their names are |
| D3D11Test.PrivateDataPayload | tests/d3d11/d3d11_test.cpp:372-377 | the private data is the name followed by its terminator |
| VkHelpers.Max1 | demos/vk/vk_helpers.h:401-403 | `max(1U, x)`: at least 1, and x itself when x is positive |
| VkHelpers.MakeImageCreateInfo | demos/vk/vk_helpers.h:387-424 | every extent is at least 1; the type is 3D when depth > 0, else 2D when height > 0, else 1D; the other fields are copied |
| VkHelpers.ImageTypeFromRawArguments | demos/vk/vk_helpers.h:414-420 | the type follows the raw arguments: a zero height and depth give a 1D image even though the extent says 1 |
| VkHelpers.MakeAttachmentDescription | demos/vk/vk_helpers.h:544-571 | load/store ops left at MAX_ENUM become LOAD/STORE; unset stencil ops copy the resolved colour ops; other values are kept |
| VkHelpers.AttachmentDefaultsIdempotent | demos/vk/vk_helpers.h:560-569 | building from an already-resolved description changes nothing |
| VkHelpers.MakeWriteDescriptorSet | demos/vk/vk_helpers.h:638-707 | the count is the number of infos, and exactly one of the image, buffer and texel-view pointers is set |
| VkHelpers.WriteDescriptorSetRoundTrip | demos/vk/vk_helpers.h:638-707 | the infos can be recovered from the write |
| VkHelpers.MakeDeviceCreateInfo | demos/vk/vk_helpers.h:235-261 | each count equals the length of its list |
| VkHelpers.FakeAddress | demos/vk/vk_helpers.h:1146-1149 | the temporary pointer `(k+1)*sizeof` is nonzero and a whole number of references |
| VkHelpers.RealPointerOfFakeAddress | demos/vk/vk_helpers.h:1146-1153 | rebasing a temporary pointer gives the reference it stood for |
| VkHelpers.DepthRefs | demos/vk/vk_helpers.h:1067-1093 | an unused depth attachment adds no reference, a used one adds one |
| VkHelpers.BakePtr | demos/vk/vk_helpers.h:1123-1144 | baking turns a temporary pointer into a real one at the same slot, and leaves null as null |
| VkHelpers.BakeSubpassKeepsGroups | demos/vk/vk_helpers.h:1123-1144 | after baking, each subpass still designates its own groups, and no temporary pointer is left |
| VkHelpers.BakeSubpass | demos/vk/vk_helpers.h:1123-1144 | baking keeps the counts and each pointer null or on the same slot |
| VkHelpers.BakeSubpassIdempotent | demos/vk/vk_helpers.h:1123-1144 | baking an already-baked subpass changes nothing |
| VkHelpers.DesignatesAfterAppend | demos/vk/vk_helpers.h:1061-1109 | later appends do not move an earlier group's slot |
| VkHelpers.PtrAtDesignates | demos/vk/vk_helpers.h:1061-1109 | a group stored at slot k is designated by the pointer to slot k, or by null when it is empty |
| VkHelpers.NewSubpassMatches | demos/vk/vk_helpers.h:1061-1109 | the new subpass points at its colour, depth, resolve and input groups, with counts equal to the list sizes |
| VkHelpers.MatchesAfterAppend | demos/vk/vk_helpers.h:1061-1109 | appending references keeps every earlier subpass's groups |
| VkHelpers.AllMatchUpdate | demos/vk/vk_helpers.h:1123-1144 | replacing one subpass with one that matches its request keeps them all matching |
| VkHelpers.AppendedSubpassMatches | demos/vk/vk_helpers.h:1061-1109 | after `addSubpass` every subpass matches its request |
| VkHelpers.RenderPassCreator.constructor | demos/vk/vk_helpers.h:1047-1052 | all lists start empty |
| VkHelpers.RenderPassCreator.MakeTempPtr | demos/vk/vk_helpers.h:1146-1149 | the temporary pointer names the next free slot |
| VkHelpers.RenderPassCreator.AppendRefs | demos/vk/vk_helpers.h:1061-1109 | a group is appended and its pointer names its first slot, or is null when it is empty |
| VkHelpers.RenderPassCreator.AddSubpass | demos/vk/vk_helpers.h:1061-1109 | references are appended in the order colour, depth, resolve, input; exactly one subpass is added, and it matches its request |
| VkHelpers.RenderPassCreator.Bake | demos/vk/vk_helpers.h:1123-1144 | every temporary pointer is rebased; the counts are the list sizes |
| VkTest.InstanceExtensions | tests/vk/vk_test.cpp:64-71 | the surface extension first, the Win32 surface on Windows, debug report only when debugging |
| VkTest.ValidationLayers | tests/vk/vk_test.cpp:78-88 | the validation layer is enabled only when debugging and only when it is supported |
| VkTest.SelectLayers | tests/vk/vk_test.cpp:78-88 | the layer search enables at most the first match |
| VkTest.FindMissing | tests/vk/vk_test.cpp:93-110 | reports a required extension that is not supported, the first in order, or none when all are present |
| VkTest.FirstQueueFamily | tests/vk/vk_test.cpp:140-158 | the first family with both graphics and compute, or none |
| VkTest.FindQueueFamily | tests/vk/vk_test.cpp:140-158 | as written: the first qualifying family, else the index keeps whatever value it held before the loop |
| VkTest.GarbageQueueIndexPassesGuard | tests/vk/vk_test.cpp:154 | with no qualifying family and a stale index of 0, the `~0U` guard does not fire |
| VkTest.FeatureCheckAsWritten | tests/vk/vk_test.cpp:172-188 | as written, the feature check always passes |
| VkTest.CheckFeatures | tests/vk/vk_test.cpp:172-188 | the intended check: passes exactly when every requested feature is supported |
| VkTest.UnsupportedFeatureExample | tests/vk/vk_test.cpp:172-188 | a requested feature that is not supported fails the intended check |
| VkTest.Init | tests/vk/vk_test.cpp:47-261 | as written: succeeds exactly when volk and glslc load, every instance extension is supported, a device exists, a graphics-and-compute family exists or the index held something other than `~0U` before the search, a surface exists and the swapchain extension is present; never refuses for features; the device uses the first qualifying family, else the stale index |
| VkTest.InitIntended | tests/vk/vk_test.cpp:47-261 | as intended: succeeds exactly when, in addition, a graphics-and-compute family exists and the requested features are supported; the device uses the first qualifying family |
| VkTest.InitAgreesWhenInitialised | tests/vk/vk_test.cpp:147-158 | from `~0U` and with supported features, the code as written succeeds exactly when the intended code does |
| VkTest.InitAsWrittenAcceptsMore | tests/vk/vk_test.cpp:147-188 | whatever the intended code accepts, the code as written accepts |
| VkTest.InitAsWrittenAcceptsBadDevice | tests/vk/vk_test.cpp:147-188 | a graphics-only device lacking a requested feature is accepted as written, from the zeroed index, and refused as intended |
| VkTest.SubmitSync | tests/vk/vk_test.cpp:358-386 | only index 0 waits (with its stage mask) and only the last index signals |
| VkTest.FrameWaitsOnceAndSignalsOnce | tests/vk/vk_test.cpp:358-386 | over a frame's submits exactly one waits and exactly one signals |
| VkTest.Tagged | tests/vk/vk_test.cpp:376-383 | every submitted command buffer is paired with the one new fence |
| VkTest.RecycleStep | tests/vk/vk_test.cpp:397-417 | one more pending entry is freed when its fence signalled and stays pending otherwise |
| VkTest.RecyclePartitions | tests/vk/vk_test.cpp:397-417 | each pending buffer ends up either free or still pending |
| VkTest.CmdsSnoc | tests/vk/vk_test.cpp:397-417 | one more pending entry adds its command buffer, once, to the buffers of the list |
| VkTest.RecycleSplitsBySignal | tests/vk/vk_test.cpp:397-417 | what stays pending is unsignalled; every destroyed fence was signalled and pending |
| VkTest.RecycleKeepsLiveFences | tests/vk/vk_test.cpp:397-417 | the fences of buffers still pending are not destroyed |
| VkTest.RecycleFinished | tests/vk/vk_test.cpp:397-417 | signalled entries move in order to the free list and lose their fences; the rest stay pending in order |
| VkTest.ChosenSurfaceFormat | tests/vk/vk_test.cpp:582-597 | BGRA8 sRGB when offered, else the first format, with UNDEFINED replaced by BGRA8; never UNDEFINED |
| VkTest.ChooseSurfaceFormat | tests/vk/vk_test.cpp:582-597 | the format loop picks the chosen format |
| VkTest.ChoosePresentMode | tests/vk/vk_test.cpp:602-607 | IMMEDIATE exactly when supported, else FIFO |
| VkTest.ClampExtent | tests/vk/vk_test.cpp:614-622 | `max(min(cur, max), min)`: at least the minimum, the current size when it is in range |
| VkTest.ClampExtentIdempotent | tests/vk/vk_test.cpp:614-622 | clamping twice is clamping once |
| VkTest.CreateSwap | tests/vk/vk_test.cpp:563-660 | no swapchain without formats; otherwise the chosen format, mode and clamped size |
| VkTest.VulkanGraphicsTest.constructor | tests/vk/vk_test.h:180-197 | no fences, buffers or descriptor pools |
| VkTest.VulkanGraphicsTest.Submit | tests/vk/vk_test.cpp:358-386 | the submit's semaphores, one new fence, and the buffers appended to the pending list |
| VkTest.VulkanGraphicsTest.Present | tests/vk/vk_test.cpp:388-420 | the pool after recycling: finished buffers freed, their fences gone, the rest pending |
| VkTest.VulkanGraphicsTest.GetCommandBuffer | tests/vk/vk_test.cpp:448-461 | an empty free list is refilled with 4 buffers; the last free buffer is removed and returned |
| VkTest.VulkanGraphicsTest.AllocateDescriptorSet | tests/vk/vk_test.cpp:463-502 | the last pool is used when it succeeds; otherwise a new pool is appended and used |
| VkCommon.SeparateBitsTest | tests/vk_common.cpp:173-178 | testing the two bits separately agrees with the combined mask test |
| VkCommon.FindQueueFamilyIndex | tests/vk_common.cpp:171-179 | the first family with compute and graphics, else the number of families |
| VkCommon.DeviceQueue | tests/vk_common.cpp:212-213 | the device queue is family 0, count 1 |
| VkCommon.DeviceQueueIgnoresSearch | tests/vk_common.cpp:171-213 | the device is created on family 0 even when the search chose another family |
| VkCommon.Init | tests/vk_common.cpp:69-282 | as written: succeeds exactly when volk, glslc and GLFW load, Vulkan is supported, and the instance, devices, window, surface and device are created; the feature check never refuses; validation is searched for even without debugging; the debug report extension is added to GLFW's; the device uses family 0 whatever the search found |
| VkCommon.CommonInitIgnoresSupportedFeatures | tests/vk_common.cpp:215-230 | whether `Init` succeeds does not depend on the device's supported features |
| VkCommon.CommonSubmitSync | tests/vk_common.cpp:350-370 | the stage mask is always set; index 0 waits and the last index signals |
| VkCommon.SubmitSyncDiffersOnlyInMask | tests/vk_common.cpp:350-370 | differs from the other harness's submit only in the stage mask being set for every index |
| VkCommon.CreateSwap | tests/vk_common.cpp:445-544 | a swapchain exactly when the queries and the creation succeed and formats exist; the size is the window size clamped to the surface limits |
| VkCommon.VulkanGraphicsTest.constructor | tests/vk_common.h:260-263 | no fences and empty buffer lists |
| VkCommon.VulkanGraphicsTest.Submit | tests/vk_common.cpp:350-370 | the submit's semaphores, one new fence, and the buffers appended to the pending list |
| VkCommon.VulkanGraphicsTest.Present | tests/vk_common.cpp:372-405 | signalled buffers move in order to the free list and their fences are destroyed; the rest stay pending |
| VkCommon.VulkanGraphicsTest.GetCommandBuffer | tests/vk_common.cpp:424-436 | an empty free list is refilled with 4 and a failed allocation is reported; the last free buffer is popped |
| VkCommon.PipelineCreator.constructor | tests/vk_common.cpp:570-593 | dynamic viewport and scissor with one of each; triangle list, no culling, depth clamp on; one alpha-blend attachment |
| VkCommon.PipelineCreator.AddShader | tests/vk_common.h:56-59 | appends one stage |
| VkCommon.PipelineCreator.ClearShaders | tests/vk_common.h:54 | removes all stages |
| VkCommon.PipelineCreator.Bake | tests/vk_common.cpp:595-619 | every count equals its list's size |
| VkCommonHeader.SubpassDepthPtrAsWritten | tests/vk_common.h:107 | as written, the depth pointer is set exactly when the attachment is unused |
| VkCommonHeader.SubpassDepthPtr | tests/vk_common.h:98-108 | the intended pointer is set exactly when depth is used |
| VkCommonHeader.DepthPtrInverted | tests/vk_common.h:107 | the two are opposite for every attachment value |
| VkCommonHeader.DepthPtrDesignatesUsedAttachment | tests/vk_common.h:98-108 | the intended pointer names this subpass's stored depth reference exactly when depth is used |
| VkCommonHeader.RenderPassCreator.constructor | tests/vk_common.h:85-117 | all lists start empty |
| VkCommonHeader.RenderPassCreator.AddSub | tests/vk_common.h:98-108 | stores the colour list and a depth reference (even when unused), and appends one subpass pointing at the stored copies |
| VkCommonHeader.RenderPassCreator.Bake | tests/vk_common.h:87-96 | every count equals its list's size |
| VkCommonHeader.ResultChecker.constructor | tests/vk_common.h:170-181 | starts with the value and a success result |
| VkCommonHeader.ResultChecker.Assign | tests/vk_common.h:183-187 | assignment copies both the result and the value |
| VkCommonHeader.ResultChecker.Destroy | tests/vk_common.h:173-181 | a non-success result is reported on destruction |
| VkCommonHeader.CheckResult | tests/vk_common.h:170-197 | the checked expression stores the value and reports exactly a non-success result |
| VkCommonHeader.Map | tests/vk_common.h:134-143 | `map` returns null exactly when mapping fails |
| RdLogging.Split | rdtest/logging.py:39 | `str.split('\n')`: at least one piece, none containing the separator |
| RdLogging.JoinSplit | rdtest/logging.py:39 | joining the pieces gives the line back |
| RdLogging.SplitJoin | rdtest/logging.py:39 | splitting joined separator-free pieces gives the pieces back |
| RdLogging.JoinExtendLast | rdtest/logging.py:39 | extending the last piece extends the joined string |
| RdLogging.SplitAppend | rdtest/logging.py:39 | a separator and one more piece add one piece |
| RdLogging.SplitNoSeparator | rdtest/logging.py:39 | a line without newlines is one piece |
| RdLogging.Spaces | rdtest/logging.py:40-41 | n spaces |
| RdLogging.Pad | rdtest/logging.py:40-41 | the indentation written before each piece: none unless the indentation is positive |
| RdLogging.Indented | rdtest/logging.py:39-43 | each piece is prefixed by the indentation |
| RdLogging.RenderPiecesJoin | rdtest/logging.py:39-43 | the written text is the indented pieces joined by newlines, with a final newline |
| RdLogging.IndentedNoNewline | rdtest/logging.py:39-43 | indentation adds no newline, so each written piece stays one line |
| RdLogging.RenderedLines | rdtest/logging.py:34-45 | the written text's lines are the message's lines, each indented |
| RdLogging.RenderedUnindented | rdtest/logging.py:34-45 | without indentation the line is written followed by a newline |
| RdLogging.Written | rdtest/logging.py:35-37 | stdout is skipped when `with_stdout` is false; every other output receives the rendered line |
| RdLogging.HeaderLines | rdtest/logging.py:47-48 | a header is a blank line, `### text ###`, and a blank line |
| RdLogging.HeaderLine | rdtest/logging.py:47-48 | the header text is a newline, `### text ###`, and a newline |
| RdLogging.BeginLine | rdtest/logging.py:56-58 | `>> Begin test 'name'`, one line when the name is |
| RdLogging.EndLine | rdtest/logging.py:61-63 | `<< End test 'name'`, one line when the name is |
| RdLogging.SuccessLine | rdtest/logging.py:66-67 | `== ` followed by the message |
| RdLogging.FailureLine | rdtest/logging.py:69-70 | the failure line is 16 characters longer than the test name and exception text together |
| RdLogging.FailureLineParts | rdtest/logging.py:69-70 | `!! FAILURE in ` and the test name, ending with the exception text; one line when both are |
| RdLogging.FrameLine | rdtest/logging.py:73-74 | the line holds the file name, function name and the fixed text around them |
| RdLogging.FrameLineParts | rdtest/logging.py:73-74 | `!!   File "` and the file name first, the function name last; one line when file and function names are |
| RdLogging.FrameLineNumber | rdtest/logging.py:73-74 | the line number printed after `", line ` reads back as the frame's line number |
| RdLogging.Basename | rdtest/logging.py:79 | `os.path.basename`: a suffix of the path that holds no `/` |
| RdLogging.BasenameFollowsSlash | rdtest/logging.py:79 | the base name is the whole path or starts right after a `/`, so it is the part after the last separator |
| RdLogging.ArtifactNameParts | rdtest/logging.py:79 | two files of one test share an artifact name exactly when their basenames agree |
| RdLogging.ArtifactName | rdtest/logging.py:79 | the test name, `_`, then a part without `/` as long as the file's basename |
| RdLogging.ArtifactNames | rdtest/logging.py:76-81 | one artifact name per failure file, in order |
| RdLogging.TestFailureException.constructor | rdtest/logging.py:11-15 | keeps the message and the files as strings |
| RdLogging.TestFailureException.Str | rdtest/logging.py:17-18 | `str()` of the exception is its message |
| RdLogging.FromTestFailure | rdtest/logging.py:69-76 | the logger sees the message and the files of a test failure |
| RdLogging.FrameLines | rdtest/logging.py:72-74 | one line per traceback frame, in order, at the current indentation |
| RdLogging.FailureTranscriptShape | rdtest/logging.py:69-110 | the failure line, then the frames, then (for a test failure) the diff and compare lines |
| RdLogging.TestLogger.constructor | rdtest/logging.py:25-28 | no indentation, no test, stdout as the only output |
| RdLogging.TestLogger.AddOutput | rdtest/logging.py:30-32 | appends a file output that starts empty |
| RdLogging.TestLogger.Print | rdtest/logging.py:34-45 | each output receives the rendered line, stdout only with `with_stdout` |
| RdLogging.TestLogger.WriteLines | rdtest/logging.py:39-43 | the loop writes the indented pieces, each followed by a newline |
| RdLogging.TestLogger.Header | rdtest/logging.py:47-48 | prints the header at the current indentation |
| RdLogging.TestLogger.Indent | rdtest/logging.py:50-51 | indentation grows by 4 |
| RdLogging.TestLogger.Dedent | rdtest/logging.py:53-54 | indentation shrinks by 4, with no lower bound |
| RdLogging.TestLogger.BeginTest | rdtest/logging.py:56-59 | records the test, prints `>> Begin test` at the old indentation, then indents |
| RdLogging.TestLogger.EndTest | rdtest/logging.py:61-64 | dedents, prints `<< End test` at the new indentation, then clears the test |
| RdLogging.TestLogger.BeginThenEnd | rdtest/logging.py:56-64 | a begin/end pair restores the indentation and writes both lines at the outer level |
| RdLogging.TestLogger.Success | rdtest/logging.py:66-67 | prints `== message` |
| RdLogging.TestLogger.PrintNext | rdtest/logging.py:34-45 | successive prints extend every output's transcript by one line |
| RdLogging.TestLogger.PrintFrames | rdtest/logging.py:72-74 | prints the frame lines |
| RdLogging.TestLogger.ArtifactList | rdtest/logging.py:76-81 | the artifact names of the failure files |
| RdLogging.TestLogger.PrintCompare | rdtest/logging.py:83-110 | for two text files the indented diff between its markers, then the compare line; an unknown MIME type raises |
| RdLogging.TestLogger.Failure | rdtest/logging.py:69-110 | prints the failure transcript and restores the indentation; raises exactly as the MIME lookup does |
| RdRunner.Discovered | rdtest/runner.py:17-24 | exactly the test-case subclasses found in the modules |
| RdRunner.StrLessIrreflexive | rdtest/runner.py:26 | no name sorts before itself |
| RdRunner.StrLessTransitive | rdtest/runner.py:26 | the name order is transitive |
| RdRunner.KeyLessStrictOrder | rdtest/runner.py:26 | the key `(slow_test, name)` is a strict order |
| RdRunner.StrLessTotal | rdtest/runner.py:26 | two different names are ordered one way or the other |
| RdRunner.KeyLessTotal | rdtest/runner.py:26 | two classes whose slowness or name differ are ordered one way or the other |
| RdRunner.KeyLessStrictWeakOrder | rdtest/runner.py:26 | the key is a strict weak order, and two classes tie exactly when they have the same slowness and name |
| RdRunner.GetTests | rdtest/runner.py:17-28 | the discovered tests, sorted by the key and a permutation of them; classes with the same slowness and name keep their discovery order, so the first of them is the one `internal_run_test` runs |
| RdRunner.SlowTestsLast | rdtest/runner.py:26 | slow tests come after all others, and each group is in name order |
| RdRunner.Platform | rdtest/runner.py:164-166 | "win32" exactly for `nt`, `win32` or a Windows platform string; otherwise `os.name` |
| RdRunner.OsVersion | rdtest/runner.py:168-176 | 0 off Windows; the major version on Windows, with 6 counted as 7 |
| RdRunner.Windows6CountsAsSeven | rdtest/runner.py:173-174 | a Windows 7 test runs on major version 6, not on 5 |
| RdRunner.SkipReasonOf | rdtest/runner.py:178-200 | skips in order: unsupported platform, include miss, exclude match, slow test disabled |
| RdRunner.PlatformSupported | rdtest/runner.py:181-182 | an unrestricted test is supported everywhere; a supported test names this platform, if any, and a version not above this one, if any |
| RdRunner.Classify | rdtest/runner.py:105-120 | no return code is an internal error, 0 is clean, 1 is a failed test, anything else a crash |
| RdRunner.RunTest | rdtest/runner.py:105-120 | a missing return code kills the child; code 1 marks the test failed; codes other than 0 and 1 raise |
| RdRunner.VerdictOf | rdtest/runner.py:178-217 | skipped exactly when a skip reason applies; failed exactly when it runs and fails |
| RdRunner.Having | rdtest/runner.py:178-217 | the tests with one verdict, in order |
| RdRunner.VerdictsPartition | rdtest/runner.py:225-226 | skipped, failed and passed tests add up to all tests |
| RdRunner.RunOne | rdtest/runner.py:178-217 | one pass of the loop adds the test to the skipped list or the failed list exactly when its verdict is skipped or failed; it aborts, before the failed list grows, exactly when the failure report raises |
| RdRunner.AbortsRun | rdtest/runner.py:207-215 | a failure report raises only for a test that ran in this process and failed |
| RdRunner.Reached | rdtest/runner.py:178-217 | the run gets through every test before the first whose failure report raises, and stops at that one |
| RdRunner.ReachedAll | rdtest/runner.py:178-217 | a run is cut short exactly when some test's failure report raises, and never when no test fails |
| RdRunner.HavingStep | rdtest/runner.py:178-217 | one more test adds itself to the list of its own verdict and to no other |
| RdRunner.FailedListNonEmpty | rdtest/runner.py:235-238 | the failed list is nonempty exactly when some test failed |
| RdRunner.SummaryCounts | rdtest/runner.py:225-238 | in a completed run the tests neither skipped nor failed are the passed ones, and a failure is reported exactly when some test failed |
| RdRunner.RunLoop | rdtest/runner.py:178-217 | the loop stops exactly where the run is cut short, or at the end, with the skipped and failed lists of the tests it reached |
| RdRunner.RunTests | rdtest/runner.py:123-238 | the skipped and failed lists of the tests the run reaches; a failure report that raises ends the run with no summary; otherwise the passed/run/total counts, and exit 1 exactly when some test failed |
| RdRunner.FirstNamed | rdtest/runner.py:248-249 | the first test with the name, or none |
| RdRunner.InternalRunTest | rdtest/runner.py:241-269 | exits 0 or 1 for the named test's outcome; an unknown name does not exit |
| RdTestCase.PathJoin | rdtest/testcase.py:12 | `os.path.join`: an absolute second part replaces the first, and the result always ends with the second part |
| RdTestCase.GetRefPath | rdtest/testcase.py:11-12 | the reference path ends with the file name |
| RdTestCase.AsDir | rdtest/testcase.py:12 | the working directory as a prefix ends with `/` |
| RdTestCase.RefPathLayout | rdtest/testcase.py:11-12 | the reference path is `cwd/data/<class>/<name>` |
| RdTestCase.RefPathInjective | rdtest/testcase.py:11-12 | two files of one test share a reference path exactly when their names are equal |
| RdTestCase.Stamp | rdtest/testcase.py:92-96 | a copied chunk keeps its contents and gets duration 5, timestamp 123450 + 10·i and thread 999 |
| RdTestCase.StampAll | rdtest/testcase.py:89-97 | the chunks in order, each stamped with its position |
| RdTestCase.Stripped | rdtest/testcase.py:84-97 | the same version and chunk count, and no buffers |
| RdTestCase.StripMetadata | rdtest/testcase.py:84-97 | the loop produces the stripped file |
| RdTestCase.StrippedIgnoresTiming | rdtest/testcase.py:88-97 | captures that differ only in timing and threads strip to the same file |
| RdTestCase.StrippedIdempotent | rdtest/testcase.py:88-97 | stripping twice is stripping once |
| RdTestCase.StrippedTimestampsIncrease | rdtest/testcase.py:90-96 | the new timestamps increase with the chunks' order |
| RdTestCase.ExportStripped | rdtest/testcase.py:76-97 | a capture that does not open is an error carrying its status; otherwise the stripped data |

## Left out

- Windows, GLFW and the nuklear demo picker's drawing are not modelled. The picker's choices are parameters (`guiChoice`, the toggle states, the clicked index).
- Every foreign API result is a parameter of the model, not a call. This covers D3D11, DXGI, Vulkan, volk, `LoadLibrary`, `CreateProcess`/`popen` of glslc, `mimetypes`, `difflib`, `re` and `subprocess`.
- `CHECK_HR`/`CHECK_VKR` failures are not modelled; each call is taken to succeed unless its result is a parameter.
- Threads, timeouts and the runner's child-process watchdog are not modelled. Only the child's return code, or its absence, is.
- `os.makedirs`, file opening, `shutil.copyfile`/`move` and `flush` are not modelled. An output is the text written to it.
- The start time and duration in the run summary are not modelled: they are floating point and clock values.
- The log lines `run_tests` prints are not modelled, beyond the counts and lists they report.
- `rawprint` and `error`, which `rdtest/runner.py` calls on the logger, are not defined in `rdtest/logging.py`. They are not modelled.
- `begin_test`/`end_test` are called with `print_header`/`print_footer` arguments that `rdtest/logging.py` does not accept, so in Python those calls would raise a `TypeError`. The model ignores the mismatch: it takes the calls to succeed, as `rdtest/runner.py` intends, with the behaviour `logging.py` defines.
- D3D11Common.ReadLength: the intended readback is stated for offsets within the buffer only. What the code should do for an offset past the end is not evident from it.
- RdRunner.InternalRunTest: it returns no exit code for an unknown name. The `log.error` call that follows is not modelled.
- The `delete` of the lazily created list in `tests/main.cpp` is not modelled.
- tests/main.cpp builds the full name from `test.API`, an enum with no string conversion. The model uses `APIName`, which the demos' listing uses.
- `attrefs` reallocation and real addresses are not modelled. A pointer is a tagged slot (`Temp` or `Real`), and `bake` rebases it by slot.
- The `vk::AttachmentReference` vectors' storage addresses in `tests/vk_common.h` are list positions.
- ResultChecker reference aliasing is not modelled. The checked variable is returned as a new value.
- The feature checks read the feature structs as `VkBool32` arrays indexed by `sizeof` in bytes. That over-read is not modelled: the model compares one flag per feature.
- `swapRenderPass`, framebuffers, image views and semaphores created around the swapchain are not modelled.
- VkTest.VulkanGraphicsTest.GetCommandBuffer: the caller always supplies the 4 buffers a refill would allocate, even when the free list is not empty.
- VkCommon.VulkanGraphicsTest.GetCommandBuffer: same as above.
- `check_export` does not copy the buffers that its comment says it keeps. The model follows the code, so the stripped file has no buffers.
- The XML export, the conversions and the file comparison after the loop in `check_export` are not modelled.
- `mimetypes.guess_type` and the diff text are parameters (`Comparison`). A MIME type of `None` is modelled as the exception it raises.
- RdLogging.Basename: only `/` separators are modelled, as on POSIX.
- The header that declares `curFrame` and `maxFrameCount` for `demos/test_common.cpp` is not part of this model. Both are taken to start at 0.
- In `D3D11Helpers.ViewCreator`, the descriptor union means DSV flags and SRV fields share storage. The model keeps them as separate fields.
- The SPIR-V words themselves are not modelled, only their count.
- GraphicsTestCommon.GraphicsTest.Init: `atoi` overflow is not modelled; the value is the unbounded decimal number.
- VkCommon.Init: when the window is not created, tests/vk_common.cpp:191-194 passes the null window to three GLFW calls before the check at line 196. The model takes the intended path straight to `WindowFailed` and does not model those calls.
- Rendering, shaders, pixel readback and the per-test demo bodies are outside the core.

## Findings

| source | as written | input that shows it | evidently intended | confidence | as-written member | corrected member |
|---|---|---|---|---|---|---|
| tests/d3d11_common.cpp:292 | the readback copies from the start of the mapped buffer, ignoring `offset` (also tests/d3d11/d3d11_test.cpp:258) | a 32-byte buffer, offset 16, length 16 returns bytes 0..15 | copy from `offset` | not executed | D3D11Common.CopyIgnoresOffset | D3D11Common.ReadRange |
| tests/d3d11_common.cpp:267-271 | `offset+len` is computed in 32 bits, so a huge length wraps past the guard (also tests/d3d11/d3d11_test.cpp:230-237) | ByteWidth 32, offset 16, len 0xFFFFFFFF keeps len 0xFFFFFFFF | clamp to `ByteWidth-offset` | not executed | D3D11Common.WrappedLengthEscapesClamp | D3D11Common.ReadLength |
| tests/d3d11_common.cpp:264-271 | `ByteWidth-offset` is computed in 32 bits and `offset` is never checked, so an offset past the end wraps "what is left" and the read runs off the buffer (also tests/d3d11/d3d11_test.cpp:230-237) | ByteWidth 32, offset 48, len 0 sets len to 2^32-16, which passes the guard | refuse or clamp an offset past the end | not executed | D3D11Common.OffsetPastEndOverReads | D3D11Common.ReadLength |
| tests/vk/vk_test.cpp:175-188 | the requested features are compared with themselves, so the check never fails (also tests/vk_common.cpp:217-230); `VkTest.Init` and `VkCommon.Init` model this, `VkTest.InitIntended` the fix | one feature requested and not supported passes | compare against the device's supported features | not executed | VkTest.FeatureCheckAsWritten | VkTest.CheckFeatures |
| tests/vk/vk_test.cpp:154 | `queueFamilyIndex` is never initialised (tests/vk/vk_test.h:159) before the search, so the `~0U` guard reads a stale value, zero for the statically registered test object; `VkTest.Init` models this, `VkTest.InitIntended` the fix | only a graphics-only family and a stale index of 0 passes the guard | initialise to `~0U` | not executed | VkTest.GarbageQueueIndexPassesGuard | VkTest.FirstQueueFamily |
| tests/vk_common.h:107 | the depth pointer is set when the attachment is `VK_ATTACHMENT_UNUSED` and null otherwise | depth attachment 0 gets no depth pointer | set it when depth is used | not executed | VkCommonHeader.DepthPtrInverted | VkCommonHeader.SubpassDepthPtr |
