/**
 The deep merge of the Go, Python and Rust loaders. Each language's function is written with
 its own branches; the algebra is proved for the Go one, the reference implementation, and
 carried over to the other two.
 */
module DeepMerge {
  import opened Wrappers
  import opened ConfigTree

  /** Go: null values of the source are skipped. */
  function GoMerge(dst: Value, src: Value): (r: Value)
    requires dst.Map? && src.Map?
    ensures r.Map?
    decreases src
  {
    var d, s := dst.entries, src.entries;
    Map(map k | k in d.Keys + s.Keys && (k in d || s[k] != Null) ::
      if k !in s || s[k] == Null then d[k]
      else if s[k].Map? && k in d && d[k].Map? then GoMerge(d[k], s[k])
      else s[k])
  }

  /** Python: null overwrites like any other value. */
  function PythonMerge(dst: Value, src: Value): (r: Value)
    requires dst.Map? && src.Map?
    ensures r.Map?
    decreases src
  {
    var d, s := dst.entries, src.entries;
    Map(map k | k in d.Keys + s.Keys ::
      if k !in s then d[k]
      else if s[k].Map? && k in d && d[k].Map? then PythonMerge(d[k], s[k])
      else s[k])
  }

  /**
   Rust: defined on all pairs; a key present on both sides with a mapping in the source recurses
   whatever the destination holds.
   */
  function RustMerge(dst: Value, src: Value): Value
    decreases src
  {
    if dst.Map? && src.Map? then
      var d, s := dst.entries, src.entries;
      Map(map k | k in d.Keys + s.Keys ::
        if k !in s then d[k]
        else if k !in d || !s[k].Map? then s[k]
        else RustMerge(d[k], s[k]))
    else src
  }

  /** The Rust loop. `&mut` borrows are exclusive, so the destination is a value that the call replaces. */
  method RustDeepMerge(dst: Value, src: Value) returns (r: Value)
    ensures r == RustMerge(dst, src)
    decreases src
  {
    if dst.Map? && src.Map? {
      var dstMap, todo := dst.entries, src.entries.Keys;
      ghost var merged := RustMerge(dst, src).entries;
      while todo != {}
        invariant todo <= src.entries.Keys
        invariant forall k :: k in dstMap <==> k in dst.entries || (k in src.entries && k !in todo)
        invariant forall k <- dstMap ::
          dstMap[k] == if k in src.entries && k !in todo then merged[k] else dst.entries[k]
        decreases todo
      {
        var k :| k in todo;
        todo := todo - {k};
        var v := src.entries[k];
        if k !in dstMap || !v.Map? {
          dstMap := dstMap[k := v];
        } else {
          var sub := RustDeepMerge(dstMap[k], v);
          dstMap := dstMap[k := sub];
        }
      }
      assert dstMap == merged;
      r := Map(dstMap);
    } else {
      r := src;
    }
  }

  /** The Python loop, on the tree that the destination dictionary represents. */
  method PythonDeepMerge(dst: Value, src: Value) returns (r: Value)
    requires dst.Map? && src.Map?
    ensures r == PythonMerge(dst, src)
    decreases src
  {
    var dstMap, todo := dst.entries, src.entries.Keys;
    ghost var merged := PythonMerge(dst, src).entries;
    while todo != {}
      invariant todo <= src.entries.Keys
      invariant forall k :: k in dstMap <==> k in dst.entries || (k in src.entries && k !in todo)
      invariant forall k <- dstMap :: dstMap[k] == if k in src.entries && k !in todo then merged[k] else dst.entries[k]
      decreases todo
    {
      var key :| key in todo;
      todo := todo - {key};
      var value := src.entries[key];
      if value.Map? && key in dstMap && dstMap[key].Map? {
        var sub := PythonDeepMerge(dstMap[key], value);
        dstMap := dstMap[key := sub];
      } else {
        dstMap := dstMap[key := value];
      }
    }
    assert dstMap == merged;
    r := Map(dstMap);
  }

  // ------------------------------------------------------------------ the three languages

  lemma {:induction false} RustMergesLikePython(dst: Value, src: Value)
    requires dst.Map? && src.Map?
    ensures RustMerge(dst, src) == PythonMerge(dst, src)
    decreases src
  {
    var r, p := RustMerge(dst, src).entries, PythonMerge(dst, src).entries;
    forall k | k in r ensures r[k] == p[k] {
      if k in src.entries && src.entries[k].Map? && k in dst.entries && dst.entries[k].Map? {
        RustMergesLikePython(dst.entries[k], src.entries[k]);
      } else if k in src.entries && src.entries[k].Map? && k in dst.entries {
        assert RustMerge(dst.entries[k], src.entries[k]) == src.entries[k];
      }
    }
    assert r == p;
  }

  /** Wherever the two trees are merged rather than replaced, each null of the source meets a null. */
  predicate NullsMeetNulls(dst: Value, src: Value)
    requires dst.Map? && src.Map?
    decreases src
  {
    var d, s := dst.entries, src.entries;
    forall k <- s ::
      && (s[k].Null? ==> k in d && d[k].Null?)
      && (s[k].Map? && k in d && d[k].Map? ==> NullsMeetNulls(d[k], s[k]))
  }

  /** Go and Python (hence Rust) agree exactly when no null of the source would overwrite something. */
  lemma {:induction false} LanguagesAgreeIff(dst: Value, src: Value)
    requires dst.Map? && src.Map?
    ensures GoMerge(dst, src) == PythonMerge(dst, src) <==> NullsMeetNulls(dst, src)
    decreases src
  {
    var d, s := dst.entries, src.entries;
    var g, p := GoMerge(dst, src).entries, PythonMerge(dst, src).entries;
    forall k | k in s && s[k].Map? && k in d && d[k].Map?
      ensures GoMerge(d[k], s[k]) == PythonMerge(d[k], s[k]) <==> NullsMeetNulls(d[k], s[k])
    {
      LanguagesAgreeIff(d[k], s[k]);
    }
    if NullsMeetNulls(dst, src) {
      assert g.Keys == p.Keys;
      forall k | k in p ensures g[k] == p[k] {
      }
      assert g == p;
    } else {
      var k :| k in s && ((s[k].Null? && !(k in d && d[k].Null?))
                          || (s[k].Map? && k in d && d[k].Map? && !NullsMeetNulls(d[k], s[k])));
      assert k in p;
      assert k !in g || g[k] != p[k];
    }
  }

  lemma {:induction false} NullFreeNeverConflicts(dst: Value, src: Value)
    requires dst.Map? && src.Map? && NullFree(src)
    ensures NullsMeetNulls(dst, src)
    decreases src
  {
    forall k | k in src.entries && src.entries[k].Map? && k in dst.entries && dst.entries[k].Map?
      ensures NullsMeetNulls(dst.entries[k], src.entries[k])
    {
      NullFreeNeverConflicts(dst.entries[k], src.entries[k]);
    }
  }

  /** The parity promise: on every null-free source the three languages compute the same tree. */
  lemma LanguagesAgreeOnNullFree(dst: Value, src: Value)
    requires dst.Map? && src.Map? && NullFree(src)
    ensures GoMerge(dst, src) == PythonMerge(dst, src) == RustMerge(dst, src)
  {
    NullFreeNeverConflicts(dst, src);
    LanguagesAgreeIff(dst, src);
    RustMergesLikePython(dst, src);
  }

  // ------------------------------------------------------------------ the lookup law

  /**
   The lookup law: at every path the source's value wins; a leaf of the source on the way hides
   what is below; elsewhere the destination shows through.
   */
  lemma {:induction false} MergeLaw(dst: Value, src: Value, p: Path)
    requires dst.Map? && src.Map?
    ensures ViewAt(GoMerge(dst, src), p) ==
            if ViewAt(src, p) != Absent then ViewAt(src, p)
            else if Blocked(src, p) then Absent
            else ViewAt(dst, p)
    decreases p
  {
    if p != [] {
      var k := p[0];
      if k in src.entries && src.entries[k].Map? && k in dst.entries && dst.entries[k].Map? {
        MergeLaw(dst.entries[k], src.entries[k], p[1..]);
      } else if k in src.entries && src.entries[k].Map? {
        UnblockedMapping(src.entries[k], p[1..]);
      }
    }
  }

  /** A mapping blocks a path only through a view that is absent there. */
  lemma {:induction false} UnblockedMapping(v: Value, p: Path)
    ensures Blocked(v, p) ==> ViewAt(v, p) == Absent
    decreases p
  {
    if p != [] && v.Map? && p[0] in v.entries {
      UnblockedMapping(v.entries[p[0]], p[1..]);
    }
  }

  // ------------------------------------------------------------------ algebra

  lemma {:induction false} MergeIsIdempotent(dst: Value, src: Value)
    requires dst.Map? && src.Map?
    ensures GoMerge(GoMerge(dst, src), src) == GoMerge(dst, src)
    ensures GoMerge(src, src) == src
    decreases src
  {
    var once := GoMerge(dst, src).entries;
    var twice := GoMerge(GoMerge(dst, src), src).entries;
    forall k | k in src.entries && src.entries[k].Map?
      ensures GoMerge(src.entries[k], src.entries[k]) == src.entries[k]
      ensures k in dst.entries && dst.entries[k].Map? ==>
                GoMerge(GoMerge(dst.entries[k], src.entries[k]), src.entries[k])
                    == GoMerge(dst.entries[k], src.entries[k])
    {
      if k in dst.entries && dst.entries[k].Map? {
        MergeIsIdempotent(dst.entries[k], src.entries[k]);
      } else {
        MergeIsIdempotent(src.entries[k], src.entries[k]);
      }
    }
    assert twice == once;
    assert GoMerge(src, src).entries == src.entries;
  }

  /** Three layers disagree on what `q` is: a mapping, then a leaf, then a mapping again. */
  predicate Flips(a: Value, b: Value, c: Value, q: Path) {
    ViewAt(a, q).Mapping? && ViewAt(b, q).Leaf? && ViewAt(c, q).Mapping?
  }

  lemma {:induction false} NonAbsentHasMappingPrefixes(v: Value, p: Path, i: nat)
    requires i < |p| && ViewAt(v, p) != Absent
    ensures ViewAt(v, p[..i]).Mapping?
    decreases p
  {
    if i > 0 {
      assert p[..i][1..] == p[1..][..i - 1];
      NonAbsentHasMappingPrefixes(v.entries[p[0]], p[1..], i - 1);
    }
  }

  /** On the way to a path, a tree has a leaf at one prefix at most. */
  lemma OneLeafOnTheWay(v: Value, p: Path, i: nat, j: nat)
    requires i < j <= |p| && ViewAt(v, p[..i]).Leaf?
    ensures ViewAt(v, p[..j]) == Absent
  {
    if ViewAt(v, p[..j]) != Absent {
      assert p[..j][..i] == p[..i];
      NonAbsentHasMappingPrefixes(v, p[..j], i);
    }
  }

  lemma MergeLawBefore(b: Value, c: Value, p: Path, i: nat)
    requires b.Map? && c.Map? && i <= |p| && !Blocked(c, p)
    ensures ViewAt(GoMerge(b, c), p[..i])
         == if ViewAt(c, p[..i]) != Absent then ViewAt(c, p[..i]) else ViewAt(b, p[..i])
  {
    MergeLaw(b, c, p[..i]);
    BlockedIff(c, p[..i]);
    BlockedIff(c, p);
    if j :| 0 <= j < |p[..i]| && ViewAt(c, p[..i][..j]).Leaf? {
      assert p[..i][..j] == p[..j];
    }
  }

  /** What blocks a path in a merged tree. */
  lemma BlockedMerge(b: Value, c: Value, p: Path)
    requires b.Map? && c.Map?
    ensures Blocked(GoMerge(b, c), p) <==>
            Blocked(c, p) || exists i :: 0 <= i < |p| && ViewAt(b, p[..i]).Leaf? && ViewAt(c, p[..i]).Absent?
  {
    BlockedIff(GoMerge(b, c), p);
    BlockedIff(c, p);
    if Blocked(c, p) {
      var i :| 0 <= i < |p| && ViewAt(c, p[..i]).Leaf?;
      MergeLaw(b, c, p[..i]);
      assert ViewAt(GoMerge(b, c), p[..i]).Leaf?;
    } else {
      forall i | 0 <= i < |p|
        ensures ViewAt(GoMerge(b, c), p[..i]).Leaf? <==> ViewAt(b, p[..i]).Leaf? && ViewAt(c, p[..i]).Absent?
      {
        MergeLawBefore(b, c, p, i);
      }
    }
  }

  /** Where the two groupings differ at a path. */
  predicate ViewsDiffer(a: Value, b: Value, c: Value, p: Path)
    requires a.Map? && b.Map? && c.Map?
  {
    ViewAt(GoMerge(GoMerge(a, b), c), p) != ViewAt(GoMerge(a, GoMerge(b, c)), p)
  }

  /** Unless the third layer decides the path, a leaf of the second decides the left grouping, a flip the right one. */
  lemma ViewsDifferIff(a: Value, b: Value, c: Value, p: Path)
    requires a.Map? && b.Map? && c.Map?
    ensures ViewsDiffer(a, b, c, p) <==>
      && ViewAt(c, p) == Absent && !Blocked(c, p) && ViewAt(b, p) == Absent
      && Blocked(b, p) && !Blocked(GoMerge(b, c), p) && ViewAt(a, p) != Absent
  {
    MergeLaw(a, b, p);
    MergeLaw(b, c, p);
    MergeLaw(GoMerge(a, b), c, p);
    MergeLaw(a, GoMerge(b, c), p);
    BlockedIff(b, p);
    BlockedMerge(b, c, p);
  }

  /** The two ways to merge three layers, seen at one path. */
  lemma AssociativeAt(a: Value, b: Value, c: Value, p: Path)
    requires a.Map? && b.Map? && c.Map?
    ensures ViewsDiffer(a, b, c, p) <==>
      && (exists i :: 0 <= i < |p| && Flips(a, b, c, p[..i]))
      && ViewAt(a, p) != Absent && ViewAt(c, p) == Absent && !Blocked(c, p)
  {
    ViewsDifferIff(a, b, c, p);
    BlockedIff(b, p);
    BlockedMerge(b, c, p);
    if i :| 0 <= i < |p| && ViewAt(b, p[..i]).Leaf? {
      LeafDecides(a, b, c, p, i);
    }
  }

  lemma LeafDecides(a: Value, b: Value, c: Value, p: Path, i: nat)
    requires i < |p| && ViewAt(b, p[..i]).Leaf?
    ensures ViewAt(b, p) == Absent
    ensures forall j :: 0 <= j < |p| && ViewAt(b, p[..j]).Leaf? ==> j == i
    ensures ViewAt(a, p) != Absent ==> ViewAt(a, p[..i]).Mapping?
    ensures !Blocked(c, p) ==> !ViewAt(c, p[..i]).Leaf?
  {
    OneLeafOnTheWay(b, p, i, |p|);
    assert p[..|p|] == p;
    forall j | 0 <= j < |p| && ViewAt(b, p[..j]).Leaf? ensures j == i {
      if i < j { OneLeafOnTheWay(b, p, i, j); }
      if j < i { OneLeafOnTheWay(b, p, j, i); }
    }
    if ViewAt(a, p) != Absent {
      NonAbsentHasMappingPrefixes(a, p, i);
    }
    BlockedIff(c, p);
  }

  /**
   Merging `c` over `a` gives `c` alone: `c` decides everything that `a` has, and brings no null
   that `a` would not keep.
   */
  predicate AddsNothing(a: Value, c: Value)
    requires a.Map? && c.Map?
    decreases c
  {
    && a.entries.Keys <= c.entries.Keys
    && forall k <- c.entries ::
         && (c.entries[k].Null? ==> k in a.entries && a.entries[k].Null?)
         && (c.entries[k].Map? && k in a.entries && a.entries[k].Map? ==> AddsNothing(a.entries[k], c.entries[k]))
  }

  lemma {:induction false} AddsNothingIff(a: Value, c: Value)
    requires a.Map? && c.Map?
    ensures GoMerge(a, c) == c <==> AddsNothing(a, c)
    decreases c
  {
    var r := GoMerge(a, c).entries;
    forall k | k in c.entries && c.entries[k].Map? && k in a.entries && a.entries[k].Map?
      ensures GoMerge(a.entries[k], c.entries[k]) == c.entries[k] <==> AddsNothing(a.entries[k], c.entries[k])
    {
      AddsNothingIff(a.entries[k], c.entries[k]);
    }
    if AddsNothing(a, c) {
      assert r == c.entries;
    } else if k :| k in a.entries && k !in c.entries {
      assert k in r;
    } else {
      var k :| k in c.entries && ((c.entries[k].Null? && !(k in a.entries && a.entries[k].Null?))
                                  || (c.entries[k].Map? && k in a.entries && a.entries[k].Map?
                                      && !AddsNothing(a.entries[k], c.entries[k])));
      assert k !in r || r[k] != c.entries[k];
    }
  }

  /** At every flip below the three mappings, the first layer adds nothing to the third. */
  predicate FlipsAbsorbed(a: Value, b: Value, c: Value)
    requires a.Map? && b.Map? && c.Map?
    decreases c
  {
    forall k <- c.entries ::
      k in a.entries && k in b.entries && a.entries[k].Map? && c.entries[k].Map? ==>
        && (IsLeaf(b.entries[k]) ==> AddsNothing(a.entries[k], c.entries[k]))
        && (b.entries[k].Map? ==> FlipsAbsorbed(a.entries[k], b.entries[k], c.entries[k]))
  }

  /** The first and the third layer have mappings under the key, so the second decides whether the groupings differ. */
  predicate Contested(a: Value, b: Value, c: Value, k: string)
    requires a.Map? && b.Map? && c.Map?
  {
    k in a.entries && k in b.entries && k in c.entries && a.entries[k].Map? && c.entries[k].Map?
  }

  lemma SameKeys(a: Value, b: Value, c: Value)
    requires a.Map? && b.Map? && c.Map?
    ensures GoMerge(GoMerge(a, b), c).entries.Keys == GoMerge(a, GoMerge(b, c)).entries.Keys
  {
  }

  lemma UncontestedKey(a: Value, b: Value, c: Value, k: string)
    requires a.Map? && b.Map? && c.Map? && !Contested(a, b, c, k)
    requires k in GoMerge(GoMerge(a, b), c).entries && k in GoMerge(a, GoMerge(b, c)).entries
    ensures GoMerge(GoMerge(a, b), c).entries[k] == GoMerge(a, GoMerge(b, c)).entries[k]
  {
  }

  lemma ContestedKey(a: Value, b: Value, c: Value, k: string)
    requires a.Map? && b.Map? && c.Map? && Contested(a, b, c, k)
    ensures var left, right := GoMerge(GoMerge(a, b), c).entries, GoMerge(a, GoMerge(b, c)).entries;
            var x, y, z := a.entries[k], b.entries[k], c.entries[k];
            && k in left && k in right
            && (y.Null? ==> left[k] == right[k])
            && (IsLeaf(y) ==> left[k] == z && right[k] == GoMerge(x, z))
            && (y.Map? ==> left[k] == GoMerge(GoMerge(x, y), z) && right[k] == GoMerge(x, GoMerge(y, z)))
  {
  }

  lemma {:induction false} AssociativeIffAbsorbed(a: Value, b: Value, c: Value)
    requires a.Map? && b.Map? && c.Map?
    ensures GoMerge(GoMerge(a, b), c) == GoMerge(a, GoMerge(b, c)) <==> FlipsAbsorbed(a, b, c)
    decreases c
  {
    SameKeys(a, b, c);
    forall k | Contested(a, b, c, k)
      ensures k in GoMerge(GoMerge(a, b), c).entries && k in GoMerge(a, GoMerge(b, c)).entries
      ensures GoMerge(GoMerge(a, b), c).entries[k] == GoMerge(a, GoMerge(b, c)).entries[k] <==>
        && (IsLeaf(b.entries[k]) ==> AddsNothing(a.entries[k], c.entries[k]))
        && (b.entries[k].Map? ==> FlipsAbsorbed(a.entries[k], b.entries[k], c.entries[k]))
    {
      ContestedKey(a, b, c, k);
      AddsNothingIff(a.entries[k], c.entries[k]);
      if b.entries[k].Map? {
        AssociativeIffAbsorbed(a.entries[k], b.entries[k], c.entries[k]);
      }
    }
    if FlipsAbsorbed(a, b, c) {
      SameEntries(a, b, c);
    }
  }

  lemma SameEntries(a: Value, b: Value, c: Value)
    requires a.Map? && b.Map? && c.Map?
    requires GoMerge(GoMerge(a, b), c).entries.Keys == GoMerge(a, GoMerge(b, c)).entries.Keys
    requires forall k :: Contested(a, b, c, k) ==>
      && k in GoMerge(GoMerge(a, b), c).entries && k in GoMerge(a, GoMerge(b, c)).entries
      && GoMerge(GoMerge(a, b), c).entries[k] == GoMerge(a, GoMerge(b, c)).entries[k]
    ensures GoMerge(GoMerge(a, b), c) == GoMerge(a, GoMerge(b, c))
  {
    var left, right := GoMerge(GoMerge(a, b), c).entries, GoMerge(a, GoMerge(b, c)).entries;
    forall k | k in left ensures left[k] == right[k] {
      if !Contested(a, b, c, k) { UncontestedKey(a, b, c, k); }
    }
    assert left == right;
  }

  /** At the path, both layers have mappings, and the first adds nothing to the third. */
  predicate AbsorbedAt(a: Value, c: Value, q: Path) {
    var x, y := Get(a, q), Get(c, q);
    x.Some? && x.value.Map? && y.Some? && y.value.Map? && AddsNothing(x.value, y.value)
  }

  lemma OnlyMappingsHaveMore(v: Value, q: Path)
    ensures ViewAt(v, q).Mapping? ==> v.Map?
    ensures ViewAt(v, q).Leaf? && !v.Map? ==> IsLeaf(v) && q == []
  {
  }

  lemma {:induction false} FlipsAbsorbedAt(a: Value, b: Value, c: Value, q: Path)
    requires a.Map? && b.Map? && c.Map? && FlipsAbsorbed(a, b, c) && Flips(a, b, c, q)
    ensures AbsorbedAt(a, c, q)
    decreases q
  {
    var k := q[0];
    OnlyMappingsHaveMore(a.entries[k], q[1..]);
    OnlyMappingsHaveMore(b.entries[k], q[1..]);
    OnlyMappingsHaveMore(c.entries[k], q[1..]);
    if b.entries[k].Map? {
      FlipsAbsorbedAt(a.entries[k], b.entries[k], c.entries[k], q[1..]);
    }
  }

  lemma {:induction false} AbsorbedEverywhere(a: Value, b: Value, c: Value)
    requires a.Map? && b.Map? && c.Map? && forall q: Path :: Flips(a, b, c, q) ==> AbsorbedAt(a, c, q)
    ensures FlipsAbsorbed(a, b, c)
    decreases c
  {
    forall k | k in c.entries && k in a.entries && k in b.entries && a.entries[k].Map? && c.entries[k].Map?
      ensures IsLeaf(b.entries[k]) ==> AddsNothing(a.entries[k], c.entries[k])
      ensures b.entries[k].Map? ==> FlipsAbsorbed(a.entries[k], b.entries[k], c.entries[k])
    {
      var x, y, z := a.entries[k], b.entries[k], c.entries[k];
      forall q: Path
        ensures Flips(a, b, c, [k] + q) == Flips(x, y, z, q) && AbsorbedAt(a, c, [k] + q) == AbsorbedAt(x, z, q)
      {
        assert ([k] + q)[1..] == q;
      }
      if IsLeaf(y) {
        assert Flips(x, y, z, []);
        assert AbsorbedAt(x, z, []);
      } else if y.Map? {
        AbsorbedEverywhere(x, y, z);
      }
    }
  }

  /**
   Merging three layers is associative exactly if, wherever they flip, the first adds nothing to
   the third; nulls included.
   */
  lemma AssociativeIff(a: Value, b: Value, c: Value)
    requires a.Map? && b.Map? && c.Map?
    ensures GoMerge(GoMerge(a, b), c) == GoMerge(a, GoMerge(b, c))
       <==> forall q: Path :: Flips(a, b, c, q) ==> AbsorbedAt(a, c, q)
  {
    AssociativeIffAbsorbed(a, b, c);
    if FlipsAbsorbed(a, b, c) {
      forall q: Path | Flips(a, b, c, q) ensures AbsorbedAt(a, c, q) {
        FlipsAbsorbedAt(a, b, c, q);
      }
    } else if forall q: Path :: Flips(a, b, c, q) ==> AbsorbedAt(a, c, q) {
      AbsorbedEverywhere(a, b, c);
    }
  }

  /** In particular the order of grouping never matters for layers that agree on which paths are mappings. */
  lemma AssociativeWithoutFlips(a: Value, b: Value, c: Value)
    requires a.Map? && b.Map? && c.Map?
    requires forall q: Path :: !Flips(a, b, c, q)
    ensures GoMerge(GoMerge(a, b), c) == GoMerge(a, GoMerge(b, c))
  {
    AssociativeIff(a, b, c);
  }

  // ------------------------------------------------------------------ the algebra of Python and Rust

  /** The tree with null turned into one more leaf, which is what null is to Python and Rust. */
  function Solid(v: Value): Value {
    match v
    case Null => Opaque(0)
    case Opaque(id) => Opaque(id + 1)
    case Map(entries) => Map(map k | k in entries :: Solid(entries[k]))
    case _ => v
  }

  lemma {:induction false} SolidIsInjective(x: Value, y: Value)
    requires Solid(x) == Solid(y)
    ensures x == y
    decreases x
  {
    if x.Map? {
      var s := Solid(x).entries;
      assert x.entries.Keys == s.Keys == y.entries.Keys;
      forall k | k in x.entries ensures x.entries[k] == y.entries[k] {
        assert s[k] == Solid(x.entries[k]) == Solid(y.entries[k]);
        SolidIsInjective(x.entries[k], y.entries[k]);
      }
      assert x.entries == y.entries;
    }
  }

  lemma SolidMergeKey(dst: Value, src: Value, k: string)
    requires dst.Map? && src.Map? && k in PythonMerge(dst, src).entries
    requires k in src.entries && src.entries[k].Map? && k in dst.entries && dst.entries[k].Map? ==>
      Solid(PythonMerge(dst.entries[k], src.entries[k])) == GoMerge(Solid(dst.entries[k]), Solid(src.entries[k]))
    ensures k in GoMerge(Solid(dst), Solid(src)).entries
    ensures Solid(PythonMerge(dst, src).entries[k]) == GoMerge(Solid(dst), Solid(src)).entries[k]
  {
  }

  /** Python merges as Go merges trees without nulls. */
  lemma {:induction false} SolidMerge(dst: Value, src: Value)
    requires dst.Map? && src.Map?
    ensures Solid(PythonMerge(dst, src)) == GoMerge(Solid(dst), Solid(src))
    decreases src
  {
    var p, g := PythonMerge(dst, src).entries, GoMerge(Solid(dst), Solid(src)).entries;
    forall k | k in p ensures k in g && Solid(p[k]) == g[k] {
      if k in src.entries && src.entries[k].Map? && k in dst.entries && dst.entries[k].Map? {
        SolidMerge(dst.entries[k], src.entries[k]);
      }
      SolidMergeKey(dst, src, k);
    }
    assert g.Keys == p.Keys;
    assert Solid(PythonMerge(dst, src)).entries == g;
  }

  /** The lookup law of Python and Rust: as Go's, with null as a leaf that wins and hides like any other. */
  lemma PythonMergeLaw(dst: Value, src: Value, p: Path)
    requires dst.Map? && src.Map?
    ensures ViewAt(Solid(PythonMerge(dst, src)), p) ==
            if ViewAt(Solid(src), p) != Absent then ViewAt(Solid(src), p)
            else if Blocked(Solid(src), p) then Absent
            else ViewAt(Solid(dst), p)
  {
    SolidMerge(dst, src);
    MergeLaw(Solid(dst), Solid(src), p);
  }

  lemma {:induction false} PythonMergeIsIdempotent(dst: Value, src: Value)
    requires dst.Map? && src.Map?
    ensures PythonMerge(PythonMerge(dst, src), src) == PythonMerge(dst, src)
    ensures PythonMerge(src, src) == src
  {
    SolidMerge(dst, src);
    SolidMerge(PythonMerge(dst, src), src);
    SolidMerge(src, src);
    MergeIsIdempotent(Solid(dst), Solid(src));
    SolidIsInjective(PythonMerge(PythonMerge(dst, src), src), PythonMerge(dst, src));
    SolidIsInjective(PythonMerge(src, src), src);
  }

  /** Associativity for Python on all mappings, nulls included: the same exact condition, with null as a leaf. */
  lemma PythonAssociativeIff(a: Value, b: Value, c: Value)
    requires a.Map? && b.Map? && c.Map?
    ensures PythonMerge(PythonMerge(a, b), c) == PythonMerge(a, PythonMerge(b, c))
       <==> forall q: Path :: Flips(Solid(a), Solid(b), Solid(c), q) ==> AbsorbedAt(Solid(a), Solid(c), q)
  {
    SolidMerge(a, b);
    SolidMerge(b, c);
    SolidMerge(PythonMerge(a, b), c);
    SolidMerge(a, PythonMerge(b, c));
    AssociativeIff(Solid(a), Solid(b), Solid(c));
    var left, right := PythonMerge(PythonMerge(a, b), c), PythonMerge(a, PythonMerge(b, c));
    if Solid(left) == Solid(right) {
      SolidIsInjective(left, right);
    }
  }

  lemma PythonAssociativeWithoutFlips(a: Value, b: Value, c: Value)
    requires a.Map? && b.Map? && c.Map?
    requires forall q: Path :: !Flips(Solid(a), Solid(b), Solid(c), q)
    ensures PythonMerge(PythonMerge(a, b), c) == PythonMerge(a, PythonMerge(b, c))
  {
    PythonAssociativeIff(a, b, c);
  }

  /** The Rust merge is idempotent on all pairs of values. */
  lemma RustMergeIsIdempotent(dst: Value, src: Value)
    ensures RustMerge(RustMerge(dst, src), src) == RustMerge(dst, src)
    ensures RustMerge(src, src) == src
  {
    if src.Map? {
      RustMergesLikePython(src, src);
      PythonMergeIsIdempotent(src, src);
      if dst.Map? {
        RustMergesLikePython(dst, src);
        RustMergesLikePython(RustMerge(dst, src), src);
        PythonMergeIsIdempotent(dst, src);
      }
    }
  }

  lemma RustAssociativeIffOnMappings(a: Value, b: Value, c: Value)
    requires a.Map? && b.Map? && c.Map?
    ensures RustMerge(RustMerge(a, b), c) == RustMerge(a, RustMerge(b, c))
       <==> forall q: Path :: Flips(Solid(a), Solid(b), Solid(c), q) ==> AbsorbedAt(Solid(a), Solid(c), q)
  {
    RustMergesLikePython(a, b);
    RustMergesLikePython(b, c);
    RustMergesLikePython(PythonMerge(a, b), c);
    RustMergesLikePython(a, PythonMerge(b, c));
    PythonAssociativeIff(a, b, c);
  }

  /** Unless all three layers are mappings, they flip at the root or nowhere. */
  lemma FlipsOnlyAtRoot(a: Value, b: Value, c: Value, q: Path)
    requires !(a.Map? && b.Map? && c.Map?) && Flips(a, b, c, q)
    ensures a.Map? && IsLeaf(b) && c.Map? && q == []
  {
  }

  lemma RustReplacesLeaf(a: Value, b: Value, c: Value)
    requires a.Map? && !b.Map? && c.Map?
    ensures RustMerge(RustMerge(a, b), c) == RustMerge(a, RustMerge(b, c))
       <==> AbsorbedAt(Solid(a), Solid(c), [])
  {
    RustMergesLikePython(a, c);
    SolidMerge(a, c);
    AddsNothingIff(Solid(a), Solid(c));
    if Solid(PythonMerge(a, c)) == Solid(c) {
      SolidIsInjective(PythonMerge(a, c), c);
    }
  }

  /** Rust merges any three values, a scalar file included, under the same exact condition. */
  lemma RustAssociativeIff(a: Value, b: Value, c: Value)
    ensures RustMerge(RustMerge(a, b), c) == RustMerge(a, RustMerge(b, c))
       <==> forall q: Path :: Flips(Solid(a), Solid(b), Solid(c), q) ==> AbsorbedAt(Solid(a), Solid(c), q)
  {
    if a.Map? && b.Map? && c.Map? {
      RustAssociativeIffOnMappings(a, b, c);
    } else {
      forall q: Path | Flips(Solid(a), Solid(b), Solid(c), q) ensures a.Map? && !b.Map? && c.Map? && q == [] {
        FlipsOnlyAtRoot(Solid(a), Solid(b), Solid(c), q);
      }
      if a.Map? && !b.Map? && c.Map? {
        RustReplacesLeaf(a, b, c);
        assert Flips(Solid(a), Solid(b), Solid(c), []);
      } else {
        assert RustMerge(RustMerge(a, b), c) == RustMerge(a, RustMerge(b, c));
      }
    }
  }

  lemma RustAssociativeWithoutFlips(a: Value, b: Value, c: Value)
    requires forall q: Path :: !Flips(Solid(a), Solid(b), Solid(c), q)
    ensures RustMerge(RustMerge(a, b), c) == RustMerge(a, RustMerge(b, c))
  {
    RustAssociativeIff(a, b, c);
  }
}
