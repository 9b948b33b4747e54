# opencv-bow: the `cmake` argument list of `install`

The Homebrew formula `OpencvBow` builds a patched OpenCV. Its `install`
method starts from Homebrew's `std_cmake_args` and appends `-DKEY=VALUE`
definitions, then runs `cmake`, `make` and `make install`. The definitions
come in this order:

- eleven fixed base definitions, which also carry the jpeg and Python locations;
- the two test switches, when the build is without tests;
- eight ON/OFF toggles, one per `build.with?` query at lines 71-78: the optional dependencies qt, tbb, ffmpeg, gstreamer and libdc1394, the recommended openexr, and the java and quicktime options;
- the CUDA block;
- the OpenCL kill switch;
- OpenNI;
- the 32-bit block;
- the instruction-set flags, which only a clang build that is not a bottle gets.

This project models that list.

- Module `RubyString` covers the two Ruby string operations applied to the Python probes: `chomp`, and the inclusive slice `[0..2]`.
- Module `MacOSVersion` covers `MacOS.version < :lion`.
- Module `CMakeDefine` covers a definition `Define(name, value)` and its spelling `-Dname=value`, together with `Parse`, which reads a token back. It also proves facts about lists of definitions: names, uniqueness, adjacency and order.
- Module `OpencvBow` covers the build options, the host facts and the specification function `Synthesize(o, f)`, with spelling lemmas that tie every token to the formula's literal text.
  - The build options are the answers to `build.with?`, `build.without?`, `build.include?` and `build.bottle?`.
  - The host facts are the macOS version, the compiler, the CPU features, the jpeg paths and the two Python probe outputs.
  - `Synthesize(o, f)` returns the appended definitions in order.
  - The method `Install` builds `args` step by step from the formula's literal tokens, as the formula does. It is proved equal to `std_cmake_args ++ render(Synthesize(o, f))`.
- Module `OpencvBowBlocks` splits `Synthesize` into its eight blocks. Each block owns a disjoint set of keys, and every key is proved to occur at most once.
- Module `OpencvBowProperties` proves what each block promises, both about the definitions and about the tokens `install` appends after `std_cmake_args`.

## Model

| member | source | states |
|---|---|---|
| RubyString.Chomp | opencv-bow.rb:49 | `chomp` removes exactly one trailing "\r\n", "\n" or "\r" and nothing else: the result is a prefix, and each of the three lengths occurs exactly in its case |
| RubyString.ChompAppendedNewline | opencv-bow.rb:49 | chomping a probe's output gives back the line the command printed, without its newline, unless the line itself ends in a carriage return, which goes too |
| RubyString.SliceTo | opencv-bow.rb:50 | the inclusive slice `s[0..hi]` is a prefix of `s` of length `hi + 1`, or all of a shorter `s` |
| RubyString.SliceMajorMinor | opencv-bow.rb:50 | for a `sys.version` starting "d.d" followed by a non-digit, `py_version` is exactly "major.minor" |
| RubyString.SliceTwoDigitMinor | opencv-bow.rb:50 | with a two-digit minor version, the slice stops short: "3.10.4" gives "3.1" |
| MacOSVersion.Less | opencv-bow.rb:88 | the `<` of `MacOS.version < :lion`, compared component by component; it has no contract of its own, and `LessIsStrictTotalOrder` and `BelowLionExamples` state its properties |
| MacOSVersion.BelowLion | opencv-bow.rb:87-88 | the test `MacOS.version < :lion`; it has no contract of its own, and `BelowLionExamples` checks five sample releases |
| MacOSVersion.LessIsStrictTotalOrder | opencv-bow.rb:88 | the version comparison is irreflexive, transitive, total and asymmetric |
| MacOSVersion.BelowLionExamples | opencv-bow.rb:87-88 | 10.5 and 10.6 are below Lion; 10.7, 10.10 and 11.0 are not, because components compare as numbers |
| CMakeDefine.Render | opencv-bow.rb:53-110 | the spelling `-Dname=value` of every token; it has no contract of its own, and `ParseRender`, `RenderInjective` and the spelling lemmas of `OpencvBow` state its properties |
| CMakeDefine.Parse | opencv-bow.rb:53-65 | a token that parses is `-D` + name + `=` + value, with no '=' in the name; a token that does not parse lacks the `-D` prefix or an '=' |
| CMakeDefine.ParseRender | opencv-bow.rb:53-65 | parsing a rendered definition gives it back when its name has no '=' |
| CMakeDefine.RenderInjective | opencv-bow.rb:53-65 | two definitions with '='-free names render alike if and only if they are equal |
| OpencvBow.Synthesize | opencv-bow.rb:53-110 | the definitions `install` appends after `std_cmake_args`, in order; it has no contract of its own, and the lemmas of `OpencvBowBlocks` and `OpencvBowProperties` state its properties |
| OpencvBow.CMakeArgs | opencv-bow.rb:113 | the `args` passed to `cmake` after "..": `std_cmake_args` followed by the rendered definitions; it has no contract of its own, and `ArgsParse`, `ArgsKeysDistinct` and `ArgsCount` state its properties |
| OpencvBow.Install | opencv-bow.rb:47-110 | appending the formula's literal tokens block by block yields `std_cmake_args` followed by the rendered definitions of `Synthesize`, in order |
| OpencvBow.DeploymentSpelling | opencv-bow.rb:54 | the model's first fixed definition renders to the literal token `-DCMAKE_OSX_DEPLOYMENT_TARGET=` |
| OpencvBow.BundledSpelling | opencv-bow.rb:55-57 | the model's second to fourth fixed definitions render to `-DBUILD_ZLIB=OFF`, `-DBUILD_TIFF=OFF` and `-DBUILD_PNG=OFF` |
| OpencvBow.BundledImageSpelling | opencv-bow.rb:58-60 | the model's fifth to seventh fixed definitions render to `-DBUILD_OPENEXR=OFF`, `-DBUILD_JASPER=OFF` and `-DBUILD_JPEG=OFF` |
| OpencvBow.JpegLocationSpelling | opencv-bow.rb:61-62 | the keys of the model's two jpeg location definitions render to the literal prefixes `-DJPEG_INCLUDE_DIR=` and `-DJPEG_LIBRARY=` |
| OpencvBow.PythonLocationSpelling | opencv-bow.rb:63-64 | the keys of the model's two Python location definitions render to the literal prefixes `-DPYTHON_LIBRARY=` and `-DPYTHON_INCLUDE_DIR=` |
| OpencvBow.FixedTokens | opencv-bow.rb:54-60 | the seven fixed base definitions render to the seven literal tokens at the head of the `%W` list, in order |
| OpencvBow.LocationTokens | opencv-bow.rb:61-64 | the location definitions render to the four literal tokens, with the jpeg paths, the chomped Python prefix and the sliced version spliced in |
| OpencvBow.BaseTokens | opencv-bow.rb:53-65 | the base definitions render to the eleven literal tokens of the `%W` list, in order |
| OpencvBow.AppendTests | opencv-bow.rb:67-69 | appends the two test switches exactly when the build is without tests |
| OpencvBow.AppendToggles | opencv-bow.rb:71-78 | appends the eight toggle tokens in order |
| OpencvBow.ToggleSpelling | opencv-bow.rb:71-78 | each toggle key renders as the formula's literal prefix, such as `-DBUILD_opencv_java=` |
| OpencvBow.ToggleTokens | opencv-bow.rb:71-78 | the toggle block renders to the formula's eight tokens, in order, each being the literal prefix followed by ON when its option is selected and OFF otherwise |
| OpencvBow.TestSpelling | opencv-bow.rb:68 | the two test switches render as `-DBUILD_TESTS=OFF` and `-DBUILD_PERF_TESTS=OFF` |
| OpencvBow.CudaSpelling | opencv-bow.rb:80-85 | the CUDA switches render as `-DWITH_CUDA=ON` and `-DWITH_CUDA=OFF` |
| OpencvBow.AppendCuda | opencv-bow.rb:80-85 | appends CUDA ON and the libstdc++ flag, or CUDA OFF |
| OpencvBow.CompilerFlagSpelling | opencv-bow.rb:82 | the compiler-flag token is spelled `-DCMAKE_CXX_FLAGS=-stdlib=libstdc++`, with the '=' kept in the value |
| OpencvBow.OpenclOpenniSpelling | opencv-bow.rb:88-91 | the OpenCL and OpenNI definitions render as `-DWITH_OPENCL=OFF` and `-DWITH_OPENNI=ON` |
| OpencvBow.AppendOpencl | opencv-bow.rb:87-88 | appends OpenCL OFF exactly when the build is without OpenCL or the system is below Lion |
| OpencvBow.AppendOpenni | opencv-bow.rb:90-91 | appends OpenNI ON exactly when the build is with OpenNI |
| OpencvBow.ArchSpelling | opencv-bow.rb:100 | the architecture definition renders as `-DCMAKE_OSX_ARCHITECTURES=i386` |
| OpencvBow.ExtraCFlagsSpelling | opencv-bow.rb:101 | the 32-bit C flags render as `-DOPENCV_EXTRA_C_FLAGS='-arch i386 -m32'`, with the single quotes kept |
| OpencvBow.ExtraCxxFlagsSpelling | opencv-bow.rb:102 | the 32-bit C++ flags render as `-DOPENCV_EXTRA_CXX_FLAGS='-arch i386 -m32'`, with the single quotes kept |
| OpencvBow.AppendArch32 | opencv-bow.rb:99-103 | appends the architecture token and the two extra-flags tokens exactly for a 32-bit build |
| OpencvBow.SimdSpelling | opencv-bow.rb:106-109 | the four instruction-set definitions render as `-DENABLE_SSSE3=ON`, `-DENABLE_SSE41=ON`, `-DENABLE_SSE42=ON` and `-DENABLE_AVX=ON` |
| OpencvBow.AppendSimd | opencv-bow.rb:105-110 | for a clang build that is not a bottle, appends each instruction-set token the CPU supports, in order; otherwise appends nothing |
| OpencvBow.AppendIf | opencv-bow.rb:106-109 | `args << token if cond` appends the token exactly when the condition holds |
| OpencvBowBlocks.JoinIsSynthesized | opencv-bow.rb:53-110 | the definitions are the eight blocks, concatenated in the formula's order |
| OpencvBowBlocks.SynthesizedNamesUnique | opencv-bow.rb:53-110 | no key is appended twice after `std_cmake_args`, and every key comes from the formula's fixed key set |
| OpencvBowBlocks.SynthesizedPlain | opencv-bow.rb:53-110 | no key contains '=', so every token reads back unambiguously |
| OpencvBowProperties.PyVersionFirstThree | opencv-bow.rb:50 | `py_version` is the first three characters of the `sys.version` output, or all of a shorter output |
| OpencvBowProperties.BaseFlagsLead | opencv-bow.rb:53-65 | the list opens with the eleven base definitions |
| OpencvBowProperties.LocationFlags | opencv-bow.rb:61-64 | the jpeg paths come from the jpeg formula; both Python paths use the chomped prefix and the three-character version |
| OpencvBowProperties.TestFlags | opencv-bow.rb:67-69 | BUILD_TESTS=OFF and BUILD_PERF_TESTS=OFF occur, and their keys occur, if and only if the build is without tests; the second directly follows the first |
| OpencvBowProperties.ToggleValue | opencv-bow.rb:71-78 | within the toggle block, a toggle's key carries the value ON exactly when its option is selected, and OFF otherwise |
| OpencvBowProperties.ToggleFlags | opencv-bow.rb:71-78 | each toggle is ON in the list if and only if its option is selected, and OFF if and only if it is not |
| OpencvBowProperties.ToggleOnce | opencv-bow.rb:71-78 | each toggle occurs exactly once |
| OpencvBowProperties.ToggleAdjacent | opencv-bow.rb:71-78 | each toggle is directly followed by the next one in the formula's order |
| OpencvBowProperties.CudaSwitch | opencv-bow.rb:80-85 | WITH_CUDA=ON occurs if and only if CUDA is selected, and OFF if and only if it is not; exactly one of them occurs |
| OpencvBowProperties.CudaLibstdcxx | opencv-bow.rb:80-85 | the libstdc++ compiler flag and its key occur if and only if CUDA is selected, directly after WITH_CUDA=ON |
| OpencvBowProperties.OpenclFlag | opencv-bow.rb:87-88 | WITH_OPENCL=OFF occurs once if the build is without OpenCL or below 10.7, and otherwise not at all |
| OpencvBowProperties.OpenclKey | opencv-bow.rb:87-88 | the OpenCL key occurs only in that case, and WITH_OPENCL=ON never occurs |
| OpencvBowProperties.OpenniFlag | opencv-bow.rb:90-91 | WITH_OPENNI=ON occurs if and only if OpenNI is selected; the key never occurs otherwise, so there is no OFF |
| OpencvBowProperties.Arch32Flags | opencv-bow.rb:99-103 | each of the three 32-bit definitions occurs if and only if the build is 32-bit |
| OpencvBowProperties.Arch32Adjacent | opencv-bow.rb:99-103 | in a 32-bit build the three definitions are consecutive, in the formula's order |
| OpencvBowProperties.Arch32Absent | opencv-bow.rb:99-103 | in any other build none of the three keys occurs |
| OpencvBowProperties.SimdBlockHas | opencv-bow.rb:105-110 | an instruction-set flag is in its block if and only if clang builds a non-bottle on a CPU with the feature |
| OpencvBowProperties.SimdFlag | opencv-bow.rb:105-110 | the same holds for the whole list; a 32-bit build does not change it |
| OpencvBowProperties.SimdBlockOrder | opencv-bow.rb:105-110 | within the block, the instruction-set flags that occur keep the formula's order |
| OpencvBowProperties.SimdOrder | opencv-bow.rb:105-110 | any two instruction-set flags that occur are in the formula's order |
| OpencvBowProperties.ArgsParse | opencv-bow.rb:53-113 | the `args` passed to `cmake` after ".." are `std_cmake_args` unchanged, then one token per definition, and each of those tokens parses back to its definition |
| OpencvBowProperties.ArgsKeysDistinct | opencv-bow.rb:53-113 | among the tokens `install` appends after `std_cmake_args`, any two parse to different keys; `std_cmake_args` is an input and is not constrained |
| OpencvBowProperties.ArgsCount | opencv-bow.rb:53-113 | for a definition whose name has no '=', its token occurs after `std_cmake_args` exactly as often as the definition occurs in the list |
| OpencvBowProperties.ToggleTokenOnce | opencv-bow.rb:71-78 | among the tokens `install` appends after `std_cmake_args`, each toggle's token, spelled with ON or OFF according to the option, occurs exactly once |

## Left out

- The Python probes (`python-config --prefix` and `python -c "...sys.version"`, lines 49-50) are shell-outs. Their raw outputs are inputs (`Facts.pythonConfigPrefix`, `Facts.pythonSysVersion`); the model only applies `chomp` and the slice to them.
- The Homebrew queries are inputs, each as a boolean or a value already answered:
  - `build.with?`, `build.without?`, `build.include?` and `build.bottle?`;
  - `MacOS.version`, `ENV.compiler` and `Hardware::CPU`;
  - `Formula["jpeg"]`.
- `std_cmake_args` is an input list that the model passes through unchanged. The uniqueness and counting properties cover only the tokens `install` appends after it, because `std_cmake_args` could itself already hold one of the formula's keys.
- `ENV.cxx11` (line 52) changes the build environment, not the argument list, so it is not modelled.
- The `inreplace` of `cmake/OpenCVFindOpenNI.cmake` (lines 93-96) edits a file in the source tree. It is not modelled; only the OpenNI flag it accompanies is.
- `mkdir "macbuild"` and the `cmake`, `make` and `make install` calls (lines 112-116) run external processes, so they are left out. The model stops at the `args` passed to `cmake` after ".."; the ".." itself is not part of `args`.
- The embedded patch (`patch :DATA` and the diff after `__END__`) and the dependency and option declarations are not part of `install`'s logic.
- The formula has no option registry, no rule overrides with conflict errors, no patch applier of its own and no build invoker with failure reporting; none is modelled.
- A 32-bit build still gets the instruction-set flags: line 105 tests only the compiler and the bottle switch, and the model follows that code. `OpencvBowProperties.SimdFlag` proves that the flags depend only on the compiler, the bottle switch and the CPU.
- Ruby strings are modelled as sequences of characters, so Ruby's encoding-aware indexing is not modelled.
