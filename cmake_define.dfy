/** CMake cache definitions as `install` passes them on the command line:
    `-D<name>=<value>`. The value may itself contain '=' (as in
    `-DCMAKE_CXX_FLAGS=-stdlib=libstdc++`); the name may not. */
module CMakeDefine {

  datatype Option<T> = None | Some(value: T)

  datatype Define = Define(name: string, value: string)

  /** The command-line token for one definition. */
  function Render(d: Define): string {
    "-D" + d.name + "=" + d.value
  }

  /** Splits `s` at the first occurrence of `sep`. */
  function SplitAt(s: string, sep: char): (r: Option<(string, string)>)
    ensures r.None? <==> sep !in s
    ensures r.Some? ==> sep !in r.value.0 && s == r.value.0 + [sep] + r.value.1
  {
    if s == [] then None
    else if s[0] == sep then Some(([], s[1..]))
    else match SplitAt(s[1..], sep)
      case None => None
      case Some(p) => Some(([s[0]] + p.0, p.1))
  }

  /** Reads a `-D<name>=<value>` token back; the name ends at the first '='. */
  function Parse(s: string): (r: Option<Define>)
    ensures r.Some? ==> '=' !in r.value.name && Render(r.value) == s
    ensures r.None? ==> |s| < 2 || s[..2] != "-D" || '=' !in s[2..]
  {
    if |s| < 2 || s[..2] != "-D" then None
    else match SplitAt(s[2..], '=')
      case None => None
      case Some(p) =>
        assert s == s[..2] + s[2..];
        Some(Define(p.0, p.1))
  }

  /** A split before the first separator is the only one. */
  lemma {:induction false} SplitAtFirst(a: string, sep: char, b: string)
    requires sep !in a
    ensures SplitAt(a + [sep] + b, sep) == Some((a, b))
  {
    if a != [] {
      assert (a + [sep] + b)[1..] == a[1..] + [sep] + b;
      SplitAtFirst(a[1..], sep, b);
      assert [a[0]] + a[1..] == a;
    }
  }

  /** Parse undoes Render whenever the name is free of '='. */
  lemma ParseRender(d: Define)
    requires '=' !in d.name
    ensures Parse(Render(d)) == Some(d)
  {
    var s := Render(d);
    assert s[..2] == "-D";
    assert s[2..] == d.name + ['='] + d.value;
    SplitAtFirst(d.name, '=', d.value);
  }

  /** Two definitions with '='-free names render alike only if they are equal. */
  lemma RenderInjective(d: Define, e: Define)
    requires '=' !in d.name && '=' !in e.name
    ensures Render(d) == Render(e) <==> d == e
  {
    if Render(d) == Render(e) {
      ParseRender(d);
      ParseRender(e);
    }
  }

  /** The tokens for a list of definitions, in order. */
  function RenderAll(ds: seq<Define>): (r: seq<string>)
    ensures |r| == |ds|
    ensures forall i | 0 <= i < |ds| :: r[i] == Render(ds[i])
  {
    if ds == [] then [] else [Render(ds[0])] + RenderAll(ds[1..])
  }

  lemma RenderAllAppend(a: seq<Define>, b: seq<Define>)
    ensures RenderAll(a + b) == RenderAll(a) + RenderAll(b)
  {
  }

  /** Appending the tokens of `more` to a rendered list renders `ds + more`. */
  lemma RenderAllExtend(prefix: seq<string>, ds: seq<Define>, more: seq<Define>)
    ensures prefix + RenderAll(ds) + RenderAll(more) == prefix + RenderAll(ds + more)
  {
    RenderAllAppend(ds, more);
  }

  /** Rendered after any prefix, definitions with distinct '='-free names
      read back as definitions with distinct names. */
  lemma RenderedKeysDistinct(prefix: seq<string>, ds: seq<Define>, i: nat, j: nat)
    requires PlainNames(ds) && UniqueNames(ds)
    requires |prefix| <= i < j < |prefix| + |ds|
    ensures Parse((prefix + RenderAll(ds))[i]).Some?
    ensures Parse((prefix + RenderAll(ds))[j]).Some?
    ensures Parse((prefix + RenderAll(ds))[i]).value.name
      != Parse((prefix + RenderAll(ds))[j]).value.name
  {
    var x, y := ds[i - |prefix|], ds[j - |prefix|];
    assert x in ds && y in ds;
    ParseRender(x);
    ParseRender(y);
  }

  /** Every name in the list is free of '='. */
  predicate PlainNames(ds: seq<Define>) {
    forall d | d in ds :: '=' !in d.name
  }

  function Names(ds: seq<Define>): set<string> {
    set d | d in ds :: d.name
  }

  /** No name is assigned twice. */
  predicate UniqueNames(ds: seq<Define>) {
    forall i, j | 0 <= i < j < |ds| :: ds[i].name != ds[j].name
  }

  /** `x` is immediately followed by `y` somewhere in the list. */
  predicate Follows(ds: seq<Define>, x: Define, y: Define) {
    exists i | 0 <= i < |ds| - 1 :: ds[i] == x && ds[i + 1] == y
  }

  /** Some occurrence of `x` comes before some occurrence of `y`. */
  predicate Precedes(ds: seq<Define>, x: Define, y: Define) {
    exists i, j | 0 <= i < j < |ds| :: ds[i] == x && ds[j] == y
  }

  /** Rendering keeps the number of occurrences of every definition. */
  lemma {:induction false} RenderedCount(ds: seq<Define>, d: Define)
    requires PlainNames(ds) && '=' !in d.name
    ensures multiset(RenderAll(ds))[Render(d)] == multiset(ds)[d]
  {
    if ds != [] {
      assert ds == [ds[0]] + ds[1..];
      RenderedCount(ds[1..], d);
      RenderInjective(ds[0], d);
      assert RenderAll(ds) == [Render(ds[0])] + RenderAll(ds[1..]);
    }
  }

  /** With unique names, a definition that is present occurs exactly once. */
  lemma {:induction false} OccursOnce(ds: seq<Define>, d: Define)
    requires UniqueNames(ds)
    ensures multiset(ds)[d] == if d in ds then 1 else 0
  {
    if ds != [] {
      assert ds == [ds[0]] + ds[1..];
      OccursOnce(ds[1..], d);
      if ds[0] == d {
        assert d !in ds[1..] by {
          forall k | 0 <= k < |ds| - 1 ensures ds[1..][k] != d {
            assert ds[0].name != ds[k + 1].name;
          }
        }
      }
    }
  }

  lemma NamesAppend(a: seq<Define>, b: seq<Define>)
    ensures Names(a + b) == Names(a) + Names(b)
  {
    forall n | n in Names(a + b) ensures n in Names(a) + Names(b) {
      var d :| d in a + b && d.name == n;
    }
    forall n | n in Names(a) + Names(b) ensures n in Names(a + b) {
      var d :| (d in a || d in b) && d.name == n;
      assert d in a + b;
    }
  }

  /** Lists that use disjoint names join into one without repeated names. */
  lemma UniqueNamesAppend(a: seq<Define>, b: seq<Define>)
    requires UniqueNames(a) && UniqueNames(b) && Names(a) !! Names(b)
    ensures UniqueNames(a + b)
  {
    forall i, j | 0 <= i < j < |a + b| ensures (a + b)[i].name != (a + b)[j].name {
      if i < |a| && |a| <= j {
        assert a[i] in a && b[j - |a|] in b;
        assert a[i].name in Names(a) && b[j - |a|].name in Names(b);
      }
    }
  }

  lemma FollowsAppend(a: seq<Define>, b: seq<Define>, x: Define, y: Define)
    ensures Follows(a, x, y) ==> Follows(a + b, x, y)
    ensures Follows(b, x, y) ==> Follows(a + b, x, y)
  {
    if Follows(a, x, y) {
      var i :| 0 <= i < |a| - 1 && a[i] == x && a[i + 1] == y;
      assert (a + b)[i] == x && (a + b)[i + 1] == y;
    }
    if Follows(b, x, y) {
      var i :| 0 <= i < |b| - 1 && b[i] == x && b[i + 1] == y;
      assert (a + b)[|a| + i] == x && (a + b)[|a| + i + 1] == y;
    }
  }

  lemma PrecedesAppend(a: seq<Define>, b: seq<Define>, x: Define, y: Define)
    ensures Precedes(a, x, y) ==> Precedes(a + b, x, y)
    ensures Precedes(b, x, y) ==> Precedes(a + b, x, y)
    ensures x in a && y in b ==> Precedes(a + b, x, y)
  {
    if Precedes(a, x, y) {
      var i, j :| 0 <= i < j < |a| && a[i] == x && a[j] == y;
      assert (a + b)[i] == x && (a + b)[j] == y;
    }
    if Precedes(b, x, y) {
      var i, j :| 0 <= i < j < |b| && b[i] == x && b[j] == y;
      assert (a + b)[|a| + i] == x && (a + b)[|a| + j] == y;
    }
    if x in a && y in b {
      var i :| 0 <= i < |a| && a[i] == x;
      var j :| 0 <= j < |b| && b[j] == y;
      assert (a + b)[i] == x && (a + b)[|a| + j] == y;
    }
  }

  /** The union of a list of key sets. */
  function UnionOf(keys: seq<set<string>>): set<string> {
    if keys == [] then {} else UnionOf(keys[..|keys| - 1]) + keys[|keys| - 1]
  }

  lemma {:induction false} UnionOfDisjoint(keys: seq<set<string>>, k: set<string>)
    requires forall i | 0 <= i < |keys| :: keys[i] !! k
    ensures UnionOf(keys) !! k
  {
    if keys != [] {
      UnionOfDisjoint(keys[..|keys| - 1], k);
    }
  }

  /** Appending a block whose names lie outside those used so far keeps
      the names unique and adds the block's names. */
  lemma UniqueNamesExtend(a: seq<Define>, b: seq<Define>, na: set<string>, nb: set<string>)
    requires UniqueNames(a) && Names(a) <= na
    requires UniqueNames(b) && Names(b) <= nb
    requires na !! nb
    ensures UniqueNames(a + b) && Names(a + b) <= na + nb
  {
    NamesAppend(a, b);
    UniqueNamesAppend(a, b);
  }

  /** The first `m` blocks of a list of blocks, joined in order. */
  function Join(blocks: seq<seq<Define>>, m: nat): seq<Define>
    requires m <= |blocks|
  {
    if m == 0 then [] else Join(blocks, m - 1) + blocks[m - 1]
  }

  /** Blocks that each assign unique names from pairwise disjoint key sets
      join into a list that assigns no name twice. */
  lemma {:induction false} JoinUnique(blocks: seq<seq<Define>>, keys: seq<set<string>>, m: nat)
    requires |blocks| == |keys| && m <= |blocks|
    requires forall k | 0 <= k < |blocks| :: UniqueNames(blocks[k]) && Names(blocks[k]) <= keys[k]
    requires forall i, j | 0 <= i < j < |keys| :: keys[i] !! keys[j]
    ensures UniqueNames(Join(blocks, m)) && Names(Join(blocks, m)) <= UnionOf(keys[..m])
  {
    if m > 0 {
      var n := m - 1;
      JoinUnique(blocks, keys, n);
      UnionOfDisjoint(keys[..n], keys[n]);
      UniqueNamesExtend(Join(blocks, n), blocks[n], UnionOf(keys[..n]), keys[n]);
      assert keys[..m][..n] == keys[..n];
    }
  }

  /** A definition is in the joined list exactly when one of the blocks holds it. */
  lemma {:induction false} JoinMembers(blocks: seq<seq<Define>>, m: nat, d: Define)
    requires m <= |blocks|
    ensures d in Join(blocks, m) <==> exists k | 0 <= k < m :: d in blocks[k]
  {
    if m > 0 {
      JoinMembers(blocks, m - 1, d);
    }
  }

  lemma {:induction false} JoinFollows(blocks: seq<seq<Define>>, m: nat, k: nat, x: Define, y: Define)
    requires k < m <= |blocks| && Follows(blocks[k], x, y)
    ensures Follows(Join(blocks, m), x, y)
  {
    if k < m - 1 {
      JoinFollows(blocks, m - 1, k, x, y);
    }
    FollowsAppend(Join(blocks, m - 1), blocks[m - 1], x, y);
  }

  lemma {:induction false} JoinPrecedes(blocks: seq<seq<Define>>, m: nat, k: nat, x: Define, y: Define)
    requires k < m <= |blocks| && Precedes(blocks[k], x, y)
    ensures Precedes(Join(blocks, m), x, y)
  {
    if k < m - 1 {
      JoinPrecedes(blocks, m - 1, k, x, y);
    }
    PrecedesAppend(Join(blocks, m - 1), blocks[m - 1], x, y);
  }

  /** When blocks draw their names from pairwise disjoint key sets, a
      definition whose name belongs to block `k`'s keys can only come from
      block `k`. */
  lemma JoinInBlock(blocks: seq<seq<Define>>, keys: seq<set<string>>, d: Define, k: nat)
    requires |blocks| == |keys| && k < |blocks| && d.name in keys[k]
    requires forall i | 0 <= i < |blocks| :: Names(blocks[i]) <= keys[i]
    requires forall i, j | 0 <= i < j < |keys| :: keys[i] !! keys[j]
    ensures d in Join(blocks, |blocks|) <==> d in blocks[k]
  {
    JoinMembers(blocks, |blocks|, d);
    if d in Join(blocks, |blocks|) {
      var j :| 0 <= j < |blocks| && d in blocks[j];
      assert d.name in Names(blocks[j]);
    }
  }

  /** Joining more blocks only extends the list. */
  lemma {:induction false} JoinExtends(blocks: seq<seq<Define>>, i: nat, m: nat)
    requires i <= m <= |blocks|
    ensures Join(blocks, i) <= Join(blocks, m)
  {
    if i < m {
      JoinExtends(blocks, i, m - 1);
    }
  }

  /** A definition from an earlier block precedes one from a later block. */
  lemma {:induction false} JoinPrecedesAcross(blocks: seq<seq<Define>>, m: nat, i: nat, j: nat, x: Define, y: Define)
    requires i < j < m <= |blocks|
    requires x in blocks[i] && y in blocks[j]
    ensures Precedes(Join(blocks, m), x, y)
  {
    if j < m - 1 {
      JoinPrecedesAcross(blocks, m - 1, i, j, x, y);
    } else {
      JoinMembers(blocks, m - 1, x);
    }
    PrecedesAppend(Join(blocks, m - 1), blocks[m - 1], x, y);
  }
}
