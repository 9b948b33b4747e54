/** The list `install` appends after `std_cmake_args`, viewed as eight
    blocks, one per group of statements in `install`. Every block assigns
    keys of its own, so a question about one key is a question about one
    block. */
module OpencvBowBlocks {
  import opened CMakeDefine
  import opened MacOSVersion
  import opened OpencvBow

  // ---------------------------------------------------------------------
  // The blocks of `install` and the keys each may assign
  // ---------------------------------------------------------------------

  const BaseNames: set<string> := {
    "CMAKE_OSX_DEPLOYMENT_TARGET", "BUILD_ZLIB", "BUILD_TIFF", "BUILD_PNG", "BUILD_OPENEXR",
    "BUILD_JASPER", "BUILD_JPEG", "JPEG_INCLUDE_DIR", "JPEG_LIBRARY", "PYTHON_LIBRARY",
    "PYTHON_INCLUDE_DIR"}
  const TestNames: set<string> := {"BUILD_TESTS", "BUILD_PERF_TESTS"}
  const ToggleNameSet: set<string> := set i | 0 <= i < |ToggleNames| :: ToggleNames[i]
  const CudaNames: set<string> := {"WITH_CUDA", "CMAKE_CXX_FLAGS"}
  const Arch32Names: set<string> := {"CMAKE_OSX_ARCHITECTURES", "OPENCV_EXTRA_C_FLAGS", "OPENCV_EXTRA_CXX_FLAGS"}
  const SimdNames: set<string> := {"ENABLE_SSSE3", "ENABLE_SSE41", "ENABLE_SSE42", "ENABLE_AVX"}

  /** The keys of each block, in the order `install` appends the blocks. */
  const BlockKeys: seq<set<string>> :=
    [BaseNames, TestNames, ToggleNameSet, CudaNames, {"WITH_OPENCL"}, {"WITH_OPENNI"}, Arch32Names, SimdNames]

  /** The blocks of the list, in the order `install` appends them. */
  function Blocks(o: Options, f: Facts): (r: seq<seq<Define>>)
    ensures |r| == |BlockKeys|
  {
    [BaseDefines(f), TestDefines(o), ToggleDefines(o), CudaDefines(o),
     OpenclDefines(o, f), OpenniDefines(o), Arch32Defines(o), SimdDefines(o, f)]
  }

  /** All eight blocks joined are the whole list. */
  lemma JoinIsSynthesized(o: Options, f: Facts)
    ensures Join(Blocks(o, f), |BlockKeys|) == Synthesize(o, f)
  {
    var bs := Blocks(o, f);
    assert Join(bs, 1) == bs[0] by { assert [] + bs[0] == bs[0]; }
    assert Join(bs, 2) == bs[0] + bs[1];
    assert Join(bs, 3) == bs[0] + bs[1] + bs[2];
    assert Join(bs, 4) == bs[0] + bs[1] + bs[2] + bs[3];
    assert Join(bs, 5) == bs[0] + bs[1] + bs[2] + bs[3] + bs[4];
    assert Join(bs, 6) == bs[0] + bs[1] + bs[2] + bs[3] + bs[4] + bs[5];
    assert Join(bs, 7) == bs[0] + bs[1] + bs[2] + bs[3] + bs[4] + bs[5] + bs[6];
  }

  // ---------------------------------------------------------------------
  // Each block on its own
  // ---------------------------------------------------------------------

  lemma BaseBlockUnique(f: Facts)
    ensures UniqueNames(BaseDefines(f))
  {
  }

  lemma BaseBlockNames(f: Facts)
    ensures Names(BaseDefines(f)) <= BaseNames
  {
  }

  lemma TestBlockNames(o: Options)
    ensures UniqueNames(TestDefines(o))
    ensures Names(TestDefines(o)) <= TestNames
  {
  }

  /** The eight toggles have eight different names. */
  lemma ToggleNamesDistinct()
    ensures forall i, j | 0 <= i < j < |ToggleNames| :: ToggleNames[i] != ToggleNames[j]
  {
  }

  lemma ToggleBlockUnique(o: Options)
    ensures UniqueNames(ToggleDefines(o))
  {
    ToggleNamesDistinct();
  }

  lemma ToggleBlockNames(o: Options)
    ensures Names(ToggleDefines(o)) <= ToggleNameSet
  {
  }

  lemma OptionalBlockNames(o: Options, f: Facts)
    ensures UniqueNames(CudaDefines(o)) && Names(CudaDefines(o)) <= CudaNames
    ensures Names(OpenclDefines(o, f)) <= {"WITH_OPENCL"}
    ensures Names(OpenniDefines(o)) <= {"WITH_OPENNI"}
    ensures UniqueNames(Arch32Defines(o)) && Names(Arch32Defines(o)) <= Arch32Names
  {
  }

  lemma SimdBlockUnique(o: Options, f: Facts)
    ensures UniqueNames(SimdDefines(o, f))
  {
  }

  lemma SimdBlockNames(o: Options, f: Facts)
    ensures Names(SimdDefines(o, f)) <= SimdNames
  {
  }

  /** Block `k` assigns no key twice, and only keys of its own. */
  lemma BlockNames(o: Options, f: Facts, k: nat)
    requires k < |BlockKeys|
    ensures UniqueNames(Blocks(o, f)[k]) && Names(Blocks(o, f)[k]) <= BlockKeys[k]
  {
    if k == 0 { BaseBlockUnique(f); BaseBlockNames(f); }
    else if k == 1 { TestBlockNames(o); }
    else if k == 2 { ToggleBlockUnique(o); ToggleBlockNames(o); }
    else if k < 7 { OptionalBlockNames(o, f); }
    else { SimdBlockUnique(o, f); SimdBlockNames(o, f); }
  }

  /** No two blocks share a key. */
  lemma BlockKeysDisjoint(i: nat, j: nat)
    requires i < j < |BlockKeys|
    ensures BlockKeys[i] !! BlockKeys[j]
  {
  }

  /** No key of the formula contains '='. */
  lemma BaseKeysPlain(n: string)
    requires n in BaseNames
    ensures '=' !in n
  {
  }

  lemma ToggleKeysPlain(n: string)
    requires n in ToggleNameSet
    ensures '=' !in n
  {
  }

  lemma LaterKeysPlain(n: string)
    requires n in TestNames + CudaNames + {"WITH_OPENCL", "WITH_OPENNI"} + Arch32Names + SimdNames
    ensures '=' !in n
  {
  }

  lemma BlockKeysPlain(k: nat, n: string)
    requires k < |BlockKeys| && n in BlockKeys[k]
    ensures '=' !in n
  {
    if k == 0 { BaseKeysPlain(n); }
    else if k == 2 { ToggleKeysPlain(n); }
    else { LaterKeysPlain(n); }
  }

  // ---------------------------------------------------------------------
  // From blocks to the whole list
  // ---------------------------------------------------------------------

  lemma BlocksDisjoint()
    ensures forall i, j | 0 <= i < j < |BlockKeys| :: BlockKeys[i] !! BlockKeys[j]
  {
    forall i, j | 0 <= i < j < |BlockKeys| ensures BlockKeys[i] !! BlockKeys[j] {
      BlockKeysDisjoint(i, j);
    }
  }

  lemma AllBlockNames(o: Options, f: Facts)
    ensures forall k | 0 <= k < |BlockKeys| ::
      UniqueNames(Blocks(o, f)[k]) && Names(Blocks(o, f)[k]) <= BlockKeys[k]
  {
    forall k | 0 <= k < |BlockKeys|
      ensures UniqueNames(Blocks(o, f)[k]) && Names(Blocks(o, f)[k]) <= BlockKeys[k]
    {
      BlockNames(o, f, k);
    }
  }

  /** No key is appended twice after `std_cmake_args`, and every key is
      one of the formula's own. */
  lemma SynthesizedNamesUnique(o: Options, f: Facts)
    ensures UniqueNames(Synthesize(o, f))
    ensures Names(Synthesize(o, f)) <= UnionOf(BlockKeys)
  {
    JoinIsSynthesized(o, f);
    AllBlockNames(o, f);
    BlocksDisjoint();
    JoinUnique(Blocks(o, f), BlockKeys, |BlockKeys|);
    assert BlockKeys[..|BlockKeys|] == BlockKeys;
  }

  /** A definition whose key belongs to block `k` is in the list exactly
      when block `k` holds it. */
  lemma InBlock(o: Options, f: Facts, d: Define, k: nat)
    requires k < |BlockKeys| && d.name in BlockKeys[k]
    ensures d in Synthesize(o, f) <==> d in Blocks(o, f)[k]
  {
    JoinIsSynthesized(o, f);
    AllBlockNames(o, f);
    BlocksDisjoint();
    JoinInBlock(Blocks(o, f), BlockKeys, d, k);
  }

  /** Likewise for a key alone. */
  lemma NameInBlock(o: Options, f: Facts, n: string, k: nat)
    requires k < |BlockKeys| && n in BlockKeys[k]
    ensures n in Names(Synthesize(o, f)) <==> n in Names(Blocks(o, f)[k])
  {
    if n in Names(Synthesize(o, f)) {
      var d :| d in Synthesize(o, f) && d.name == n;
      InBlock(o, f, d, k);
    }
    if n in Names(Blocks(o, f)[k]) {
      var d :| d in Blocks(o, f)[k] && d.name == n;
      InBlock(o, f, d, k);
    }
  }

  /** With unique keys, a definition occurs at most once. */
  lemma CountInBlock(o: Options, f: Facts, d: Define, k: nat)
    requires k < |BlockKeys| && d.name in BlockKeys[k]
    ensures multiset(Synthesize(o, f))[d] == if d in Blocks(o, f)[k] then 1 else 0
  {
    SynthesizedNamesUnique(o, f);
    OccursOnce(Synthesize(o, f), d);
    InBlock(o, f, d, k);
  }

  lemma FollowsInBlock(o: Options, f: Facts, k: nat, x: Define, y: Define)
    requires k < |BlockKeys| && Follows(Blocks(o, f)[k], x, y)
    ensures Follows(Synthesize(o, f), x, y)
  {
    JoinIsSynthesized(o, f);
    JoinFollows(Blocks(o, f), |BlockKeys|, k, x, y);
  }

  lemma PrecedesInBlock(o: Options, f: Facts, k: nat, x: Define, y: Define)
    requires k < |BlockKeys| && Precedes(Blocks(o, f)[k], x, y)
    ensures Precedes(Synthesize(o, f), x, y)
  {
    JoinIsSynthesized(o, f);
    JoinPrecedes(Blocks(o, f), |BlockKeys|, k, x, y);
  }

  /** No key `install` writes contains '='. */
  lemma SynthesizedPlain(o: Options, f: Facts)
    ensures PlainNames(Synthesize(o, f))
  {
    JoinIsSynthesized(o, f);
    AllBlockNames(o, f);
    forall d | d in Synthesize(o, f) ensures '=' !in d.name {
      JoinMembers(Blocks(o, f), |BlockKeys|, d);
      var k :| 0 <= k < |BlockKeys| && d in Blocks(o, f)[k];
      assert d.name in Names(Blocks(o, f)[k]);
      BlockKeysPlain(k, d.name);
    }
  }
}
