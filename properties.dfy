/** What the formula promises about the definitions `install` appends
    after `std_cmake_args`. */
module OpencvBowProperties {
  import opened CMakeDefine
  import opened MacOSVersion
  import opened RubyString
  import opened OpencvBow
  import opened OpencvBowBlocks

  // ---------------------------------------------------------------------
  // The properties of `install`'s argument list
  // ---------------------------------------------------------------------

  /** Ruby's `s[0..2]`: the first three characters, or all of a shorter string. */
  lemma PyVersionFirstThree(f: Facts)
    ensures PyVersion(f)
      == f.pythonSysVersion[..if |f.pythonSysVersion| < 3 then |f.pythonSysVersion| else 3]
  {
  }

  /** The list opens with the fixed definitions. */
  lemma BaseFlagsLead(o: Options, f: Facts)
    ensures |Synthesize(o, f)| >= |BaseDefines(f)| == 11
    ensures Synthesize(o, f)[..11] == BaseDefines(f)
  {
    JoinIsSynthesized(o, f);
    JoinExtends(Blocks(o, f), 1, |BlockKeys|);
    assert Join(Blocks(o, f), 1) == BaseDefines(f) by {
      assert [] + BaseDefines(f) == BaseDefines(f);
    }
  }

  /** The jpeg and Python locations: the Python version in both paths is
      the first three characters of `sys.version`, and the prefix is the
      `python-config --prefix` output without its trailing newline. */
  lemma LocationFlags(o: Options, f: Facts)
    ensures Synthesize(o, f)[7] == Define("JPEG_INCLUDE_DIR", f.jpegOptInclude)
    ensures Synthesize(o, f)[8] == Define("JPEG_LIBRARY", f.jpegOptLib + "/libjpeg.dylib")
    ensures var v := f.pythonSysVersion[..if |f.pythonSysVersion| < 3 then |f.pythonSysVersion| else 3];
      && Synthesize(o, f)[9]
         == Define("PYTHON_LIBRARY", Chomp(f.pythonConfigPrefix) + "/lib/libpython" + v + ".dylib")
      && Synthesize(o, f)[10]
         == Define("PYTHON_INCLUDE_DIR", Chomp(f.pythonConfigPrefix) + "/include/python" + v)
  {
    BaseFlagsLead(o, f);
    var b := BaseDefines(f);
    assert b[7..11] == LocationDefines(f);
    assert Synthesize(o, f)[7..11] == b[7..11];
    PyVersionFirstThree(f);
  }

  /** BUILD_TESTS=OFF and BUILD_PERF_TESTS=OFF appear, one right after the
      other, exactly when tests are not wanted; neither key appears otherwise. */
  lemma TestFlags(o: Options, f: Facts)
    ensures TestsOff in Synthesize(o, f) <==> o.withoutTests
    ensures PerfTestsOff in Synthesize(o, f) <==> o.withoutTests
    ensures "BUILD_TESTS" in Names(Synthesize(o, f)) <==> o.withoutTests
    ensures "BUILD_PERF_TESTS" in Names(Synthesize(o, f)) <==> o.withoutTests
    ensures o.withoutTests ==> Follows(Synthesize(o, f), TestsOff, PerfTestsOff)
  {
    InBlock(o, f, TestsOff, 1);
    InBlock(o, f, PerfTestsOff, 1);
    NameInBlock(o, f, "BUILD_TESTS", 1);
    NameInBlock(o, f, "BUILD_PERF_TESTS", 1);
    if o.withoutTests {
      assert TestDefines(o)[0] == TestsOff && TestDefines(o)[1] == PerfTestsOff;
      FollowsInBlock(o, f, 1, TestsOff, PerfTestsOff);
    }
  }

  /** Within the toggle block, toggle `i` has exactly the value its option selects. */
  lemma ToggleValue(o: Options, i: nat, v: string)
    requires i < |ToggleNames|
    ensures Define(ToggleNames[i], v) in ToggleDefines(o) <==> v == OnOff(ToggleSelected(o)[i])
  {
    var ts := ToggleDefines(o);
    ToggleBlockUnique(o);
    assert ts[i] == Toggle(o, i);
    if Define(ToggleNames[i], v) in ts {
      var j :| 0 <= j < |ts| && ts[j] == Define(ToggleNames[i], v);
      assert ts[i].name == ts[j].name;
      assert i == j;
    }
  }

  /** Each of the eight toggles is ON when its option is selected and OFF
      otherwise. */
  lemma ToggleFlags(o: Options, f: Facts, i: nat)
    requires i < |ToggleNames|
    ensures Define(ToggleNames[i], "ON") in Synthesize(o, f) <==> ToggleSelected(o)[i]
    ensures Define(ToggleNames[i], "OFF") in Synthesize(o, f) <==> !ToggleSelected(o)[i]
  {
    InBlock(o, f, Define(ToggleNames[i], "ON"), 2);
    InBlock(o, f, Define(ToggleNames[i], "OFF"), 2);
    assert Blocks(o, f)[2] == ToggleDefines(o);
    ToggleValue(o, i, "ON");
    ToggleValue(o, i, "OFF");
  }

  /** Each toggle appears exactly once. */
  lemma ToggleOnce(o: Options, f: Facts, i: nat)
    requires i < |ToggleNames|
    ensures multiset(Synthesize(o, f))[Toggle(o, i)] == 1
  {
    assert Blocks(o, f)[2] == ToggleDefines(o);
    assert ToggleDefines(o)[i] == Toggle(o, i);
    CountInBlock(o, f, Toggle(o, i), 2);
  }

  /** Each toggle comes right before the next one in `install`'s order. */
  lemma ToggleAdjacent(o: Options, f: Facts, i: nat)
    requires i + 1 < |ToggleNames|
    ensures Follows(Synthesize(o, f), Toggle(o, i), Toggle(o, i + 1))
  {
    var ts := ToggleDefines(o);
    assert ts[i] == Toggle(o, i) && ts[i + 1] == Toggle(o, i + 1);
    assert Follows(Blocks(o, f)[2], Toggle(o, i), Toggle(o, i + 1));
    FollowsInBlock(o, f, 2, Toggle(o, i), Toggle(o, i + 1));
  }

  /** Exactly one of WITH_CUDA=ON and WITH_CUDA=OFF appears, ON exactly with CUDA. */
  lemma CudaSwitch(o: Options, f: Facts)
    ensures CudaOn in Synthesize(o, f) <==> o.withCuda
    ensures CudaOff in Synthesize(o, f) <==> !o.withCuda
    ensures multiset(Synthesize(o, f))[CudaOn] + multiset(Synthesize(o, f))[CudaOff] == 1
  {
    assert Blocks(o, f)[3] == CudaDefines(o);
    assert CudaOn in CudaDefines(o) <==> o.withCuda;
    assert CudaOff in CudaDefines(o) <==> !o.withCuda;
    CountInBlock(o, f, CudaOn, 3);
    CountInBlock(o, f, CudaOff, 3);
    InBlock(o, f, CudaOn, 3);
    InBlock(o, f, CudaOff, 3);
  }

  /** The libstdc++ flag appears exactly with CUDA, right after WITH_CUDA=ON,
      and CMAKE_CXX_FLAGS is set by nothing else. */
  lemma CudaLibstdcxx(o: Options, f: Facts)
    ensures LibstdcxxFlags in Synthesize(o, f) <==> o.withCuda
    ensures "CMAKE_CXX_FLAGS" in Names(Synthesize(o, f)) <==> o.withCuda
    ensures o.withCuda ==> Follows(Synthesize(o, f), CudaOn, LibstdcxxFlags)
  {
    assert Blocks(o, f)[3] == CudaDefines(o);
    assert "CMAKE_CXX_FLAGS" in Names(CudaDefines(o)) <==> o.withCuda by {
      if "CMAKE_CXX_FLAGS" in Names(CudaDefines(o)) {
        var d :| d in CudaDefines(o) && d.name == "CMAKE_CXX_FLAGS";
      }
    }
    assert LibstdcxxFlags in CudaDefines(o) <==> o.withCuda;
    InBlock(o, f, LibstdcxxFlags, 3);
    NameInBlock(o, f, "CMAKE_CXX_FLAGS", 3);
    if o.withCuda {
      assert CudaDefines(o)[0] == CudaOn && CudaDefines(o)[1] == LibstdcxxFlags;
      FollowsInBlock(o, f, 3, CudaOn, LibstdcxxFlags);
    }
  }

  /** WITH_OPENCL=OFF appears once exactly when OpenCL is turned off or the
      system is older than Lion; WITH_OPENCL=ON never appears. */
  lemma OpenclFlag(o: Options, f: Facts)
    ensures multiset(Synthesize(o, f))[OpenclOff]
      == if o.withoutOpencl || Less(f.macos, Version(10, 7)) then 1 else 0
  {
    assert Blocks(o, f)[4] == OpenclDefines(o, f);
    assert OpenclDisabled(o, f) <==> o.withoutOpencl || Less(f.macos, Version(10, 7));
    assert OpenclOff in OpenclDefines(o, f) <==> OpenclDisabled(o, f);
    CountInBlock(o, f, OpenclOff, 4);
  }

  /** WITH_OPENCL is set only by that definition: never to ON. */
  lemma OpenclKey(o: Options, f: Facts)
    ensures "WITH_OPENCL" in Names(Synthesize(o, f)) <==> o.withoutOpencl || BelowLion(f.macos)
    ensures Define("WITH_OPENCL", "ON") !in Synthesize(o, f)
  {
    InBlock(o, f, Define("WITH_OPENCL", "ON"), 4);
    assert Blocks(o, f)[4] == OpenclDefines(o, f);
    assert OpenclOff in OpenclDefines(o, f) <==> OpenclDisabled(o, f);
    NameInBlock(o, f, "WITH_OPENCL", 4);
  }

  /** WITH_OPENNI=ON appears exactly with OpenNI; the key never appears
      otherwise, so WITH_OPENNI=OFF is never passed. */
  lemma OpenniFlag(o: Options, f: Facts)
    ensures OpenniOn in Synthesize(o, f) <==> o.withOpenni
    ensures "WITH_OPENNI" in Names(Synthesize(o, f)) <==> o.withOpenni
  {
    assert Blocks(o, f)[5] == OpenniDefines(o);
    assert OpenniOn in OpenniDefines(o) <==> o.withOpenni;
    InBlock(o, f, OpenniOn, 5);
    NameInBlock(o, f, "WITH_OPENNI", 5);
  }

  /** A 32-bit build adds the architecture and both extra-flag definitions. */
  lemma Arch32Flags(o: Options, f: Facts)
    ensures ArchI386 in Synthesize(o, f) <==> o.arch32
    ensures ExtraCFlags32 in Synthesize(o, f) <==> o.arch32
    ensures ExtraCxxFlags32 in Synthesize(o, f) <==> o.arch32
  {
    assert Blocks(o, f)[6] == Arch32Defines(o);
    InBlock(o, f, ArchI386, 6);
    InBlock(o, f, ExtraCFlags32, 6);
    InBlock(o, f, ExtraCxxFlags32, 6);
  }

  /** The three 32-bit definitions are consecutive. */
  lemma Arch32Adjacent(o: Options, f: Facts)
    requires o.arch32
    ensures Follows(Synthesize(o, f), ArchI386, ExtraCFlags32)
    ensures Follows(Synthesize(o, f), ExtraCFlags32, ExtraCxxFlags32)
  {
    var a := Arch32Defines(o);
    assert Blocks(o, f)[6] == a;
    assert a[0] == ArchI386 && a[1] == ExtraCFlags32 && a[2] == ExtraCxxFlags32;
    assert Follows(a, ArchI386, ExtraCFlags32) && Follows(a, ExtraCFlags32, ExtraCxxFlags32);
    FollowsInBlock(o, f, 6, ArchI386, ExtraCFlags32);
    FollowsInBlock(o, f, 6, ExtraCFlags32, ExtraCxxFlags32);
  }

  /** Without a 32-bit build, none of the three keys appears. */
  lemma Arch32Absent(o: Options, f: Facts)
    requires !o.arch32
    ensures Names(Synthesize(o, f)) !! Arch32Names
  {
    assert Blocks(o, f)[6] == [];
    forall n | n in Arch32Names ensures n !in Names(Synthesize(o, f)) {
      NameInBlock(o, f, n, 6);
    }
  }

  /** The instruction-set definitions, in `install`'s order, and the CPU
      feature each one needs. */
  const SimdFlags: seq<Define> := [Ssse3On, Sse41On, Sse42On, AvxOn]

  function SimdFeature(f: Facts, i: nat): bool
    requires i < |SimdFlags|
  {
    [f.ssse3, f.sse4, f.sse42, f.avx][i]
  }

  /** Within its block, an instruction-set definition is present exactly
      when clang builds a non-bottle on a CPU with that feature. */
  lemma SimdBlockHas(o: Options, f: Facts, i: nat)
    requires i < |SimdFlags|
    ensures SimdFlags[i] in SimdDefines(o, f) <==> SimdAllowed(o, f) && SimdFeature(f, i)
  {
    assert i in {0, 1, 2, 3};
  }

  /** ENABLE_SSSE3, ENABLE_SSE41, ENABLE_SSE42 and ENABLE_AVX each appear
      exactly when clang builds a non-bottle on a CPU with the feature; a
      32-bit build does not change that. */
  lemma SimdFlag(o: Options, f: Facts, i: nat)
    requires i < |SimdFlags|
    ensures SimdFlags[i] in Synthesize(o, f) <==> f.compilerIsClang && !o.bottle && SimdFeature(f, i)
  {
    assert SimdFlags[i].name in SimdNames by { assert i in {0, 1, 2, 3}; }
    assert Blocks(o, f)[7] == SimdDefines(o, f);
    SimdBlockHas(o, f, i);
    InBlock(o, f, SimdFlags[i], 7);
  }

  /** The instruction-set block, one piece per feature test. */
  function SimdPieces(f: Facts): (r: seq<seq<Define>>)
    ensures |r| == |SimdFlags|
  {
    [When(f.ssse3, Ssse3On), When(f.sse4, Sse41On), When(f.sse42, Sse42On), When(f.avx, AvxOn)]
  }

  /** When allowed, the block is its pieces joined in order. */
  lemma SimdJoin(o: Options, f: Facts)
    requires SimdAllowed(o, f)
    ensures Join(SimdPieces(f), 4) == SimdDefines(o, f)
  {
    var pieces := SimdPieces(f);
    assert Join(pieces, 1) == pieces[0] by { assert [] + pieces[0] == pieces[0]; }
    assert Join(pieces, 2) == pieces[0] + pieces[1];
    assert Join(pieces, 3) == pieces[0] + pieces[1] + pieces[2];
  }

  /** Each flag of the block comes from its own piece. */
  lemma SimdPiece(o: Options, f: Facts, i: nat)
    requires i < |SimdFlags| && SimdFlags[i] in SimdDefines(o, f)
    ensures SimdAllowed(o, f) && SimdFlags[i] in SimdPieces(f)[i]
  {
    SimdBlockHas(o, f, i);
    assert i in {0, 1, 2, 3};
  }

  /** Within its block, the instruction-set definitions keep their order. */
  lemma SimdBlockOrder(o: Options, f: Facts, i: nat, j: nat)
    requires i < j < |SimdFlags|
    requires SimdFlags[i] in SimdDefines(o, f) && SimdFlags[j] in SimdDefines(o, f)
    ensures Precedes(SimdDefines(o, f), SimdFlags[i], SimdFlags[j])
  {
    SimdPiece(o, f, i);
    SimdPiece(o, f, j);
    SimdJoin(o, f);
    JoinPrecedesAcross(SimdPieces(f), 4, i, j, SimdFlags[i], SimdFlags[j]);
  }

  /** Any two instruction-set definitions that both appear do so in
      `install`'s order. */
  lemma SimdOrder(o: Options, f: Facts, i: nat, j: nat)
    requires i < j < |SimdFlags|
    requires SimdFlags[i] in Synthesize(o, f) && SimdFlags[j] in Synthesize(o, f)
    ensures Precedes(Synthesize(o, f), SimdFlags[i], SimdFlags[j])
  {
    assert Blocks(o, f)[7] == SimdDefines(o, f);
    assert SimdFlags[i].name in SimdNames && SimdFlags[j].name in SimdNames by {
      assert i in {0, 1, 2} && j in {1, 2, 3};
    }
    InBlock(o, f, SimdFlags[i], 7);
    InBlock(o, f, SimdFlags[j], 7);
    SimdBlockOrder(o, f, i, j);
    PrecedesInBlock(o, f, 7, SimdFlags[i], SimdFlags[j]);
  }

  // ---------------------------------------------------------------------
  // The tokens `install` appends after `std_cmake_args`
  // ---------------------------------------------------------------------

  /** `std_cmake_args` is passed through unchanged, and every token after it
      reads back as the definition `install` meant, in the same position. */
  lemma ArgsParse(o: Options, f: Facts, stdArgs: seq<string>)
    ensures |CMakeArgs(o, f, stdArgs)| == |stdArgs| + |Synthesize(o, f)|
    ensures CMakeArgs(o, f, stdArgs)[..|stdArgs|] == stdArgs
    ensures forall i | 0 <= i < |Synthesize(o, f)| ::
      Parse(CMakeArgs(o, f, stdArgs)[|stdArgs| + i]) == Some(Synthesize(o, f)[i])
  {
    var ds := Synthesize(o, f);
    var args := CMakeArgs(o, f, stdArgs);
    SynthesizedPlain(o, f);
    forall i | 0 <= i < |ds| ensures Parse(args[|stdArgs| + i]) == Some(ds[i]) {
      assert ds[i] in ds;
      assert args[|stdArgs| + i] == Render(ds[i]);
      ParseRender(ds[i]);
    }
  }

  /** Among the tokens `install` appends after `std_cmake_args`, no key
      occurs twice. `std_cmake_args` itself is an input and may repeat one. */
  lemma ArgsKeysDistinct(o: Options, f: Facts, stdArgs: seq<string>, i: nat, j: nat)
    requires |stdArgs| <= i < j < |CMakeArgs(o, f, stdArgs)|
    ensures Parse(CMakeArgs(o, f, stdArgs)[i]).Some?
    ensures Parse(CMakeArgs(o, f, stdArgs)[j]).Some?
    ensures Parse(CMakeArgs(o, f, stdArgs)[i]).value.name
      != Parse(CMakeArgs(o, f, stdArgs)[j]).value.name
  {
    SynthesizedPlain(o, f);
    SynthesizedNamesUnique(o, f);
    RenderedKeysDistinct(stdArgs, Synthesize(o, f), i, j);
  }

  /** An argument occurs after `std_cmake_args` as often as its definition
      occurs in what `install` appends. */
  lemma ArgsCount(o: Options, f: Facts, stdArgs: seq<string>, d: Define)
    requires '=' !in d.name
    ensures multiset(CMakeArgs(o, f, stdArgs)[|stdArgs|..])[Render(d)]
      == multiset(Synthesize(o, f))[d]
  {
    SynthesizedPlain(o, f);
    assert CMakeArgs(o, f, stdArgs)[|stdArgs|..] == RenderAll(Synthesize(o, f));
    RenderedCount(Synthesize(o, f), d);
  }

  /** Among the tokens `install` appends after `std_cmake_args`, each
      toggle's token occurs exactly once, spelled ON exactly when the option
      is selected. */
  lemma ToggleTokenOnce(o: Options, f: Facts, stdArgs: seq<string>, i: nat)
    requires i < |ToggleNames|
    ensures multiset(CMakeArgs(o, f, stdArgs)[|stdArgs|..])
      ["-D" + ToggleNames[i] + "=" + OnOff(ToggleSelected(o)[i])] == 1
  {
    var d := Define(ToggleNames[i], OnOff(ToggleSelected(o)[i]));
    assert ToggleNames[i] in ToggleNameSet;
    BlockKeysPlain(2, ToggleNames[i]);
    ToggleOnce(o, f, i);
    ArgsCount(o, f, stdArgs, d);
  }
}
