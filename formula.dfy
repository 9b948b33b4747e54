/** The `install` method of the Homebrew formula `OpencvBow`: the `args` it
    passes to `cmake` after "..", built from the user's build options and
    facts about the host. */
module OpencvBow {
  import opened CMakeDefine
  import opened RubyString
  import opened MacOSVersion

  /** The answers to the build queries `install` makes: `build.with? x`,
      `build.without? x`, `build.include? "32-bit"` and `build.bottle?`. */
  datatype Options = Options(
    withJava: bool,        // build.with? "java"
    withOpenexr: bool,     // build.with? "openexr"
    withQt: bool,          // build.with? "qt"
    withTbb: bool,         // build.with? "tbb"
    withFfmpeg: bool,      // build.with? "ffmpeg"
    withGstreamer: bool,   // build.with? "gstreamer"
    withQuicktime: bool,   // build.with? "quicktime"
    withLibdc1394: bool,   // build.with? "libdc1394"
    withoutTests: bool,    // build.without? "tests"
    withCuda: bool,        // build.with? "cuda"
    withoutOpencl: bool,   // build.without? "opencl"
    withOpenni: bool,      // build.with? "openni"
    arch32: bool,          // build.include? "32-bit"
    bottle: bool)          // build.bottle?

  /** What `install` reads from the host and from other formulae. */
  datatype Facts = Facts(
    macos: Version,               // MacOS.version
    compilerIsClang: bool,        // ENV.compiler == :clang
    ssse3: bool,                  // Hardware::CPU.ssse3?
    sse4: bool,                   // Hardware::CPU.sse4?
    sse42: bool,                  // Hardware::CPU.sse4_2?
    avx: bool,                    // Hardware::CPU.avx?
    jpegOptInclude: string,       // Formula["jpeg"].opt_include
    jpegOptLib: string,           // Formula["jpeg"].opt_lib
    pythonConfigPrefix: string,   // output of `python-config --prefix`
    pythonSysVersion: string)     // output of `python -c "...print(sys.version)"`

  /** `py_prefix`: the probe's output with its line ending chomped. */
  function PyPrefix(f: Facts): string {
    Chomp(f.pythonConfigPrefix)
  }

  /** `py_version`: the first three characters of `sys.version`. */
  function PyVersion(f: Facts): string {
    SliceTo(f.pythonSysVersion, 2)
  }

  function OnOff(b: bool): string {
    if b then "ON" else "OFF"
  }

  // The fixed flags whose presence depends on a guard.
  const TestsOff := Define("BUILD_TESTS", "OFF")
  const PerfTestsOff := Define("BUILD_PERF_TESTS", "OFF")
  const CudaOn := Define("WITH_CUDA", "ON")
  const CudaOff := Define("WITH_CUDA", "OFF")
  const LibstdcxxFlags := Define("CMAKE_CXX_FLAGS", "-stdlib=libstdc++")
  const OpenclOff := Define("WITH_OPENCL", "OFF")
  const OpenniOn := Define("WITH_OPENNI", "ON")
  const ArchI386 := Define("CMAKE_OSX_ARCHITECTURES", "i386")
  const ExtraCFlags32 := Define("OPENCV_EXTRA_C_FLAGS", "'-arch i386 -m32'")
  const ExtraCxxFlags32 := Define("OPENCV_EXTRA_CXX_FLAGS", "'-arch i386 -m32'")
  const Ssse3On := Define("ENABLE_SSSE3", "ON")
  const Sse41On := Define("ENABLE_SSE41", "ON")
  const Sse42On := Define("ENABLE_SSE42", "ON")
  const AvxOn := Define("ENABLE_AVX", "ON")

  /** The definitions that always follow `std_cmake_args`: no deployment
      target, none of the bundled third-party libraries, and the jpeg and
      Python locations. */
  function BaseDefines(f: Facts): seq<Define> {
    FixedDefines() + LocationDefines(f)
  }

  function FixedDefines(): seq<Define> {
    [ Define("CMAKE_OSX_DEPLOYMENT_TARGET", ""),
      Define("BUILD_ZLIB", "OFF"),
      Define("BUILD_TIFF", "OFF"),
      Define("BUILD_PNG", "OFF"),
      Define("BUILD_OPENEXR", "OFF"),
      Define("BUILD_JASPER", "OFF"),
      Define("BUILD_JPEG", "OFF") ]
  }

  function LocationDefines(f: Facts): seq<Define> {
    [ Define("JPEG_INCLUDE_DIR", f.jpegOptInclude),
      Define("JPEG_LIBRARY", f.jpegOptLib + "/libjpeg.dylib"),
      Define("PYTHON_LIBRARY", PyPrefix(f) + "/lib/libpython" + PyVersion(f) + ".dylib"),
      Define("PYTHON_INCLUDE_DIR", PyPrefix(f) + "/include/python" + PyVersion(f)) ]
  }

  function TestDefines(o: Options): seq<Define> {
    if o.withoutTests then [TestsOff, PerfTestsOff] else []
  }

  /** The eight ON/OFF toggles, in the order `install` appends them. */
  const ToggleNames: seq<string> :=
    ["BUILD_opencv_java", "WITH_OPENEXR", "WITH_QT", "WITH_TBB",
     "WITH_FFMPEG", "WITH_GSTREAMER", "WITH_QUICKTIME", "WITH_1394"]

  function ToggleSelected(o: Options): (r: seq<bool>)
    ensures |r| == |ToggleNames|
  {
    [o.withJava, o.withOpenexr, o.withQt, o.withTbb,
     o.withFfmpeg, o.withGstreamer, o.withQuicktime, o.withLibdc1394]
  }

  /** Toggle `i` with the value its option selects. */
  function Toggle(o: Options, i: nat): Define
    requires i < |ToggleNames|
  {
    Define(ToggleNames[i], OnOff(ToggleSelected(o)[i]))
  }

  /** The eight toggles, in order. */
  function ToggleDefines(o: Options): (r: seq<Define>)
    ensures |r| == |ToggleNames|
  {
    seq(|ToggleNames|, i requires 0 <= i < |ToggleNames| => Toggle(o, i))
  }

  function CudaDefines(o: Options): seq<Define> {
    if o.withCuda then [CudaOn, LibstdcxxFlags] else [CudaOff]
  }

  /** OpenCL 1.1 is needed; releases before Lion ship 1.0. */
  predicate OpenclDisabled(o: Options, f: Facts) {
    o.withoutOpencl || BelowLion(f.macos)
  }

  function OpenclDefines(o: Options, f: Facts): seq<Define> {
    if OpenclDisabled(o, f) then [OpenclOff] else []
  }

  function OpenniDefines(o: Options): seq<Define> {
    if o.withOpenni then [OpenniOn] else []
  }

  function Arch32Defines(o: Options): seq<Define> {
    if o.arch32 then [ArchI386, ExtraCFlags32, ExtraCxxFlags32] else []
  }

  /** The instruction-set flags are considered only for clang and only when
      the build is not a bottle. */
  predicate SimdAllowed(o: Options, f: Facts) {
    f.compilerIsClang && !o.bottle
  }

  function When(b: bool, d: Define): seq<Define> {
    if b then [d] else []
  }

  function SimdDefines(o: Options, f: Facts): seq<Define> {
    if SimdAllowed(o, f) then
      When(f.ssse3, Ssse3On) + When(f.sse4, Sse41On) + When(f.sse42, Sse42On) + When(f.avx, AvxOn)
    else []
  }

  /** Everything `install` appends after `std_cmake_args`, in order. */
  function Synthesize(o: Options, f: Facts): seq<Define> {
    BaseDefines(f) + TestDefines(o) + ToggleDefines(o) + CudaDefines(o)
      + OpenclDefines(o, f) + OpenniDefines(o) + Arch32Defines(o) + SimdDefines(o, f)
  }

  /** The `args` that `install` passes to `cmake` after "..". */
  function CMakeArgs(o: Options, f: Facts, stdArgs: seq<string>): seq<string> {
    stdArgs + RenderAll(Synthesize(o, f))
  }

  // ---------------------------------------------------------------------
  // The tokens as the formula spells them
  // ---------------------------------------------------------------------

  /** The first fixed definition is the `%W` list's empty deployment target. */
  lemma DeploymentSpelling()
    ensures Render(FixedDefines()[0]) == "-DCMAKE_OSX_DEPLOYMENT_TARGET="
  {
  }

  /** The fixed definitions that turn off the bundled compression and
      image libraries. */
  lemma BundledSpelling()
    ensures Render(FixedDefines()[1]) == "-DBUILD_ZLIB=OFF"
    ensures Render(FixedDefines()[2]) == "-DBUILD_TIFF=OFF"
    ensures Render(FixedDefines()[3]) == "-DBUILD_PNG=OFF"
  {
  }

  /** The fixed definitions that turn off the remaining bundled image
      libraries. */
  lemma BundledImageSpelling()
    ensures Render(FixedDefines()[4]) == "-DBUILD_OPENEXR=OFF"
    ensures Render(FixedDefines()[5]) == "-DBUILD_JASPER=OFF"
    ensures Render(FixedDefines()[6]) == "-DBUILD_JPEG=OFF"
  {
  }

  /** The keys of the two jpeg location definitions, up to the spliced-in paths. */
  lemma JpegLocationSpelling(f: Facts)
    ensures "-D" + LocationDefines(f)[0].name + "=" == "-DJPEG_INCLUDE_DIR="
    ensures "-D" + LocationDefines(f)[1].name + "=" == "-DJPEG_LIBRARY="
  {
    assert LocationDefines(f)[0].name == "JPEG_INCLUDE_DIR";
    assert LocationDefines(f)[1].name == "JPEG_LIBRARY";
  }

  /** The keys of the two Python location definitions, up to the spliced-in
      paths. */
  lemma PythonLocationSpelling(f: Facts)
    ensures "-D" + LocationDefines(f)[2].name + "=" == "-DPYTHON_LIBRARY="
    ensures "-D" + LocationDefines(f)[3].name + "=" == "-DPYTHON_INCLUDE_DIR="
  {
    assert LocationDefines(f)[2].name == "PYTHON_LIBRARY";
    assert LocationDefines(f)[3].name == "PYTHON_INCLUDE_DIR";
  }

  /** The fixed tokens at the head of the `%W` list. */
  lemma FixedTokens()
    ensures RenderAll(FixedDefines()) == [
      "-DCMAKE_OSX_DEPLOYMENT_TARGET=",
      "-DBUILD_ZLIB=OFF",
      "-DBUILD_TIFF=OFF",
      "-DBUILD_PNG=OFF",
      "-DBUILD_OPENEXR=OFF",
      "-DBUILD_JASPER=OFF",
      "-DBUILD_JPEG=OFF"]
  {
    assert RenderAll(FixedDefines()) == [
      Render(Define("CMAKE_OSX_DEPLOYMENT_TARGET", "")),
      Render(Define("BUILD_ZLIB", "OFF")),
      Render(Define("BUILD_TIFF", "OFF")),
      Render(Define("BUILD_PNG", "OFF")),
      Render(Define("BUILD_OPENEXR", "OFF")),
      Render(Define("BUILD_JASPER", "OFF")),
      Render(Define("BUILD_JPEG", "OFF"))];
    DeploymentSpelling();
    BundledSpelling();
    BundledImageSpelling();
  }

  /** The location tokens, with the jpeg paths, the chomped Python prefix
      and the three-character Python version spliced in. */
  lemma LocationTokens(f: Facts)
    ensures RenderAll(LocationDefines(f)) == [
      "-DJPEG_INCLUDE_DIR=" + f.jpegOptInclude,
      "-DJPEG_LIBRARY=" + f.jpegOptLib + "/libjpeg.dylib",
      "-DPYTHON_LIBRARY=" + Chomp(f.pythonConfigPrefix) + "/lib/libpython"
        + SliceTo(f.pythonSysVersion, 2) + ".dylib",
      "-DPYTHON_INCLUDE_DIR=" + Chomp(f.pythonConfigPrefix) + "/include/python"
        + SliceTo(f.pythonSysVersion, 2)]
  {
    var p, v := Chomp(f.pythonConfigPrefix), SliceTo(f.pythonSysVersion, 2);
    assert RenderAll(LocationDefines(f)) == [
      Render(Define("JPEG_INCLUDE_DIR", f.jpegOptInclude)),
      Render(Define("JPEG_LIBRARY", f.jpegOptLib + "/libjpeg.dylib")),
      Render(Define("PYTHON_LIBRARY", p + "/lib/libpython" + v + ".dylib")),
      Render(Define("PYTHON_INCLUDE_DIR", p + "/include/python" + v))];
    JpegLocationSpelling(f);
    PythonLocationSpelling(f);
    assert Render(Define("JPEG_LIBRARY", f.jpegOptLib + "/libjpeg.dylib"))
      == "-DJPEG_LIBRARY=" + f.jpegOptLib + "/libjpeg.dylib";
    assert Render(Define("PYTHON_LIBRARY", p + "/lib/libpython" + v + ".dylib"))
      == "-DPYTHON_LIBRARY=" + p + "/lib/libpython" + v + ".dylib";
    assert Render(Define("PYTHON_INCLUDE_DIR", p + "/include/python" + v))
      == "-DPYTHON_INCLUDE_DIR=" + p + "/include/python" + v;
  }

  /** The base definitions render to the eleven tokens of the `%W` list. */
  lemma BaseTokens(f: Facts)
    ensures RenderAll(BaseDefines(f)) == [
      "-DCMAKE_OSX_DEPLOYMENT_TARGET=",
      "-DBUILD_ZLIB=OFF",
      "-DBUILD_TIFF=OFF",
      "-DBUILD_PNG=OFF",
      "-DBUILD_OPENEXR=OFF",
      "-DBUILD_JASPER=OFF",
      "-DBUILD_JPEG=OFF",
      "-DJPEG_INCLUDE_DIR=" + f.jpegOptInclude,
      "-DJPEG_LIBRARY=" + f.jpegOptLib + "/libjpeg.dylib",
      "-DPYTHON_LIBRARY=" + Chomp(f.pythonConfigPrefix) + "/lib/libpython"
        + SliceTo(f.pythonSysVersion, 2) + ".dylib",
      "-DPYTHON_INCLUDE_DIR=" + Chomp(f.pythonConfigPrefix) + "/include/python"
        + SliceTo(f.pythonSysVersion, 2)]
  {
    RenderAllAppend(FixedDefines(), LocationDefines(f));
    FixedTokens();
    LocationTokens(f);
  }

  /** The keys of the eight toggle tokens, up to their ON or OFF. */
  lemma ToggleSpelling()
    ensures "-D" + ToggleNames[0] + "=" == "-DBUILD_opencv_java="
    ensures "-D" + ToggleNames[1] + "=" == "-DWITH_OPENEXR="
    ensures "-D" + ToggleNames[2] + "=" == "-DWITH_QT="
    ensures "-D" + ToggleNames[3] + "=" == "-DWITH_TBB="
    ensures "-D" + ToggleNames[4] + "=" == "-DWITH_FFMPEG="
    ensures "-D" + ToggleNames[5] + "=" == "-DWITH_GSTREAMER="
    ensures "-D" + ToggleNames[6] + "=" == "-DWITH_QUICKTIME="
    ensures "-D" + ToggleNames[7] + "=" == "-DWITH_1394="
  {
  }

  /** The toggle definitions render to the formula's eight tokens, each
      ending in ON exactly when its option is selected. */
  lemma ToggleTokens(o: Options)
    ensures RenderAll(ToggleDefines(o)) == [
      "-DBUILD_opencv_java=" + OnOff(o.withJava),
      "-DWITH_OPENEXR=" + OnOff(o.withOpenexr),
      "-DWITH_QT=" + OnOff(o.withQt),
      "-DWITH_TBB=" + OnOff(o.withTbb),
      "-DWITH_FFMPEG=" + OnOff(o.withFfmpeg),
      "-DWITH_GSTREAMER=" + OnOff(o.withGstreamer),
      "-DWITH_QUICKTIME=" + OnOff(o.withQuicktime),
      "-DWITH_1394=" + OnOff(o.withLibdc1394)]
  {
    assert RenderAll(ToggleDefines(o)) == [
      Render(Toggle(o, 0)), Render(Toggle(o, 1)), Render(Toggle(o, 2)), Render(Toggle(o, 3)),
      Render(Toggle(o, 4)), Render(Toggle(o, 5)), Render(Toggle(o, 6)), Render(Toggle(o, 7))];
    ToggleSpelling();
  }

  lemma TestSpelling()
    ensures Render(TestsOff) == "-DBUILD_TESTS=OFF"
    ensures Render(PerfTestsOff) == "-DBUILD_PERF_TESTS=OFF"
  {
  }

  lemma CudaSpelling()
    ensures Render(CudaOn) == "-DWITH_CUDA=ON"
    ensures Render(CudaOff) == "-DWITH_CUDA=OFF"
  {
  }

  /** The compiler-flag token keeps the '=' inside its value. */
  lemma CompilerFlagSpelling()
    ensures Render(LibstdcxxFlags) == "-DCMAKE_CXX_FLAGS=-stdlib=libstdc++"
  {
  }

  lemma OpenclOpenniSpelling()
    ensures Render(OpenclOff) == "-DWITH_OPENCL=OFF"
    ensures Render(OpenniOn) == "-DWITH_OPENNI=ON"
  {
  }

  lemma ArchSpelling()
    ensures Render(ArchI386) == "-DCMAKE_OSX_ARCHITECTURES=i386"
  {
  }

  /** The 32-bit compiler flags keep their single quotes. */
  lemma ExtraCFlagsSpelling()
    ensures Render(ExtraCFlags32) == "-DOPENCV_EXTRA_C_FLAGS='-arch i386 -m32'"
  {
  }

  lemma ExtraCxxFlagsSpelling()
    ensures Render(ExtraCxxFlags32) == "-DOPENCV_EXTRA_CXX_FLAGS='-arch i386 -m32'"
  {
  }

  lemma SimdSpelling()
    ensures Render(Ssse3On) == "-DENABLE_SSSE3=ON"
    ensures Render(Sse41On) == "-DENABLE_SSE41=ON"
    ensures Render(Sse42On) == "-DENABLE_SSE42=ON"
    ensures Render(AvxOn) == "-DENABLE_AVX=ON"
  {
  }

  // ---------------------------------------------------------------------
  // `install`, appending the tokens as the formula writes them
  // ---------------------------------------------------------------------

  /** `install`, up to the call of `cmake`: `args` is `std_cmake_args`
      followed by the base flags, and every later block appends to it. */
  method Install(o: Options, f: Facts, stdArgs: seq<string>) returns (args: seq<string>)
    ensures args == CMakeArgs(o, f, stdArgs)
  {
    var pyPrefix := Chomp(f.pythonConfigPrefix);
    var pyVersion := SliceTo(f.pythonSysVersion, 2);

    args := stdArgs + [
      "-DCMAKE_OSX_DEPLOYMENT_TARGET=",
      "-DBUILD_ZLIB=OFF",
      "-DBUILD_TIFF=OFF",
      "-DBUILD_PNG=OFF",
      "-DBUILD_OPENEXR=OFF",
      "-DBUILD_JASPER=OFF",
      "-DBUILD_JPEG=OFF",
      "-DJPEG_INCLUDE_DIR=" + f.jpegOptInclude,
      "-DJPEG_LIBRARY=" + f.jpegOptLib + "/libjpeg.dylib",
      "-DPYTHON_LIBRARY=" + pyPrefix + "/lib/libpython" + pyVersion + ".dylib",
      "-DPYTHON_INCLUDE_DIR=" + pyPrefix + "/include/python" + pyVersion];
    BaseTokens(f);
    // `ds` holds the definitions appended so far: args == stdArgs + RenderAll(ds).
    ghost var ds := BaseDefines(f);

    args := AppendTests(args, o);
    RenderAllExtend(stdArgs, ds, TestDefines(o));
    ds := ds + TestDefines(o);

    args := AppendToggles(args, o);
    RenderAllExtend(stdArgs, ds, ToggleDefines(o));
    ds := ds + ToggleDefines(o);

    args := AppendCuda(args, o);
    RenderAllExtend(stdArgs, ds, CudaDefines(o));
    ds := ds + CudaDefines(o);

    args := AppendOpencl(args, o, f);
    RenderAllExtend(stdArgs, ds, OpenclDefines(o, f));
    ds := ds + OpenclDefines(o, f);

    args := AppendOpenni(args, o);
    RenderAllExtend(stdArgs, ds, OpenniDefines(o));
    ds := ds + OpenniDefines(o);

    args := AppendArch32(args, o);
    RenderAllExtend(stdArgs, ds, Arch32Defines(o));
    ds := ds + Arch32Defines(o);

    args := AppendSimd(args, o, f);
    RenderAllExtend(stdArgs, ds, SimdDefines(o, f));
  }

  method AppendTests(args: seq<string>, o: Options) returns (r: seq<string>)
    ensures r == args + RenderAll(TestDefines(o))
  {
    r := args;
    if o.withoutTests {
      r := r + ["-DBUILD_TESTS=OFF"] + ["-DBUILD_PERF_TESTS=OFF"];
      TestSpelling();
      assert RenderAll(TestDefines(o)) == [Render(TestsOff), Render(PerfTestsOff)];
    }
  }

  method AppendToggles(args: seq<string>, o: Options) returns (r: seq<string>)
    ensures r == args + RenderAll(ToggleDefines(o))
  {
    r := args;
    r := r + ["-DBUILD_opencv_java=" + OnOff(o.withJava)];
    r := r + ["-DWITH_OPENEXR=" + OnOff(o.withOpenexr)];
    r := r + ["-DWITH_QT=" + OnOff(o.withQt)];
    r := r + ["-DWITH_TBB=" + OnOff(o.withTbb)];
    r := r + ["-DWITH_FFMPEG=" + OnOff(o.withFfmpeg)];
    r := r + ["-DWITH_GSTREAMER=" + OnOff(o.withGstreamer)];
    r := r + ["-DWITH_QUICKTIME=" + OnOff(o.withQuicktime)];
    r := r + ["-DWITH_1394=" + OnOff(o.withLibdc1394)];
    ToggleTokens(o);
  }

  method AppendCuda(args: seq<string>, o: Options) returns (r: seq<string>)
    ensures r == args + RenderAll(CudaDefines(o))
  {
    CudaSpelling();
    if o.withCuda {
      r := args + ["-DWITH_CUDA=ON"];
      r := r + ["-DCMAKE_CXX_FLAGS=-stdlib=libstdc++"];
      CompilerFlagSpelling();
      assert RenderAll(CudaDefines(o)) == [Render(CudaOn), Render(LibstdcxxFlags)];
    } else {
      r := args + ["-DWITH_CUDA=OFF"];
      assert RenderAll(CudaDefines(o)) == [Render(CudaOff)];
    }
  }

  /** OpenCL is switched off on request, and on releases before Lion, which
      lack the OpenCL version the library needs. */
  method AppendOpencl(args: seq<string>, o: Options, f: Facts) returns (r: seq<string>)
    ensures r == args + RenderAll(OpenclDefines(o, f))
  {
    r := args;
    if o.withoutOpencl || Less(f.macos, Lion) {
      r := r + ["-DWITH_OPENCL=OFF"];
      OpenclOpenniSpelling();
      assert RenderAll(OpenclDefines(o, f)) == [Render(OpenclOff)];
    }
  }

  method AppendOpenni(args: seq<string>, o: Options) returns (r: seq<string>)
    ensures r == args + RenderAll(OpenniDefines(o))
  {
    r := args;
    if o.withOpenni {
      r := r + ["-DWITH_OPENNI=ON"];
      OpenclOpenniSpelling();
      assert RenderAll(OpenniDefines(o)) == [Render(OpenniOn)];
    }
  }

  method AppendArch32(args: seq<string>, o: Options) returns (r: seq<string>)
    ensures r == args + RenderAll(Arch32Defines(o))
  {
    r := args;
    if o.arch32 {
      r := r + ["-DCMAKE_OSX_ARCHITECTURES=i386"];
      r := r + ["-DOPENCV_EXTRA_C_FLAGS='-arch i386 -m32'"];
      r := r + ["-DOPENCV_EXTRA_CXX_FLAGS='-arch i386 -m32'"];
      ArchSpelling();
      ExtraCFlagsSpelling();
      ExtraCxxFlagsSpelling();
      assert RenderAll(Arch32Defines(o)) == [Render(ArchI386), Render(ExtraCFlags32), Render(ExtraCxxFlags32)];
    }
  }

  method AppendSimd(args: seq<string>, o: Options, f: Facts) returns (r: seq<string>)
    ensures r == args + RenderAll(SimdDefines(o, f))
  {
    r := args;
    if f.compilerIsClang && !o.bottle {
      SimdSpelling();
      r := AppendIf(r, f.ssse3, "-DENABLE_SSSE3=ON");
      r := AppendIf(r, f.sse4, "-DENABLE_SSE41=ON");
      r := AppendIf(r, f.sse42, "-DENABLE_SSE42=ON");
      r := AppendIf(r, f.avx, "-DENABLE_AVX=ON");
      var w1, w2, w3, w4 := When(f.ssse3, Ssse3On), When(f.sse4, Sse41On), When(f.sse42, Sse42On), When(f.avx, AvxOn);
      assert RenderAll(w1) == if f.ssse3 then ["-DENABLE_SSSE3=ON"] else [];
      assert RenderAll(w2) == if f.sse4 then ["-DENABLE_SSE41=ON"] else [];
      assert RenderAll(w3) == if f.sse42 then ["-DENABLE_SSE42=ON"] else [];
      assert RenderAll(w4) == if f.avx then ["-DENABLE_AVX=ON"] else [];
      RenderAllExtend(args, w1, w2);
      RenderAllExtend(args, w1 + w2, w3);
      RenderAllExtend(args, w1 + w2 + w3, w4);
    }
  }

  /** `args << token if cond`. */
  method AppendIf(args: seq<string>, cond: bool, token: string) returns (r: seq<string>)
    ensures r == if cond then args + [token] else args
  {
    r := args;
    if cond {
      r := r + [token];
    }
  }
}
