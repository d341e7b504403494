/** Dotted-path reads and writes on the tree of the Rust configuration object, and their laws. */
module DottedPath {
  import opened Wrappers
  import opened ConfigTree
  import opened Text

  function EntriesOrNone(v: Value): map<string, Value> {
    if v.Map? then v.entries else map[]
  }

  /** The tree after a write: whatever is not a mapping on the way becomes one. */
  function Set(v: Value, p: Path, x: Value): Value
    requires p != []
    decreases p, 1
  {
    Map(EntriesOrNone(v)[p[0] := Written(v, p, x)])
  }

  function NextOf(v: Value, k: string): Value {
    if v.Map? && k in v.entries then v.entries[k] else Map(map[])
  }

  /** What a write stores under the first key of its path. */
  function Written(v: Value, p: Path, x: Value): Value
    requires p != []
    decreases p, 0
  {
    if |p| == 1 then x else Set(NextOf(v, p[0]), p[1..], x)
  }

  /** The parts of the dotted path `capabilities.<capability>`. */
  function CapPath(capability: string): Path {
    ["capabilities"] + Split(capability, '.')
  }

  lemma SplitDotted(first: string, rest: string)
    requires '.' !in first
    ensures Split(first + "." + rest, '.') == [first] + Split(rest, '.')
  {
    SplitPlain(first, '.');
    SplitAppend(first, rest, '.');
    assert first + ['.'] + rest == first + "." + rest;
  }

  lemma PrefixWithDot(first: string, dotted: string, rest: string)
    requires dotted == first + "."
    ensures dotted + rest == first + "." + rest
  {
  }

  /** How the formatted paths split, whatever dots the capability's own name contains. */
  lemma CapPathSplits(capability: string)
    ensures Split("capabilities." + capability, '.') == CapPath(capability)
  {
    PrefixWithDot("capabilities", "capabilities.", capability);
    SplitDotted("capabilities", capability);
  }

  predicate Incomparable(p: Path, q: Path) {
    !(p <= q) && !(q <= p)
  }

  // ------------------------------------------------------------------ the laws of reads and writes

  /** Reading at or below what was just written reads inside the written value. */
  lemma {:induction false} GetAfterSet(v: Value, p: Path, q: Path, x: Value)
    requires p != []
    ensures Get(Set(v, p, x), p + q) == Get(x, q)
    decreases p
  {
    assert (p + q)[1..] == p[1..] + q;
    if |p| == 1 {
      assert p[1..] + q == q;
    } else {
      GetAfterSet(NextOf(v, p[0]), p[1..], q, x);
    }
  }

  /** Reading above the written path sees the old value with the write made inside it. */
  lemma {:induction false} GetAboveSet(v: Value, p: Path, q: Path, x: Value)
    requires q != []
    ensures var was := Get(v, p);
            Get(Set(v, p + q, x), p) == Some(Set(if was.Some? then was.value else Map(map[]), q, x))
    decreases p
  {
    if p == [] {
      assert p + q == q;
    } else {
      assert (p + q)[1..] == p[1..] + q;
      GetAboveSet(NextOf(v, p[0]), p[1..], q, x);
      GetFromEmpty(p[1..]);
    }
  }

  lemma GetFromEmpty(p: Path)
    ensures Get(Map(map[]), p) == if p == [] then Some(Map(map[])) else None
  {
  }

  /** A write changes no read at an incomparable path, even when it replaces scalars on its way. */
  lemma {:induction false} SetLeavesOthers(v: Value, p: Path, q: Path, x: Value)
    requires p != [] && Incomparable(p, q)
    ensures Get(Set(v, p, x), q) == Get(v, q)
    decreases p
  {
    if p[0] == q[0] {
      assert p == [p[0]] + p[1..] && q == [q[0]] + q[1..];
      assert Incomparable(p[1..], q[1..]);
      SetLeavesOthers(NextOf(v, p[0]), p[1..], q[1..], x);
    }
  }

  /** The second write at a path wins. */
  lemma {:induction false} SecondSetWins(v: Value, p: Path, x: Value, y: Value)
    requires p != []
    ensures Set(Set(v, p, x), p, y) == Set(v, p, y)
    decreases p
  {
    var m := EntriesOrNone(v);
    if |p| == 1 {
      assert m[p[0] := x][p[0] := y] == m[p[0] := y];
    } else {
      var next := NextOf(v, p[0]);
      SecondSetWins(next, p[1..], x, y);
      assert m[p[0] := Set(next, p[1..], x)][p[0] := Set(next, p[1..], y)] == m[p[0] := Set(next, p[1..], y)];
    }
  }

  lemma SetAfterDistantSet(v: Value, p: Path, q: Path, x: Value, y: Value)
    requires p != [] && q != [] && p[0] != q[0]
    ensures Set(Set(v, p, x), q, y) == Map(EntriesOrNone(v)[p[0] := Written(v, p, x)][q[0] := Written(v, q, y)])
  {
    assert Written(Set(v, p, x), q, y) == Written(v, q, y);
  }

  lemma SetAfterNearSet(v: Value, p: Path, q: Path, x: Value, y: Value)
    requires |p| > 1 && |q| > 1 && p[0] == q[0]
    ensures Set(Set(v, p, x), q, y) == Map(EntriesOrNone(v)[p[0] := Set(Set(NextOf(v, p[0]), p[1..], x), q[1..], y)])
  {
    var m := EntriesOrNone(v);
    var first := Set(NextOf(v, p[0]), p[1..], x);
    assert NextOf(Set(v, p, x), q[0]) == first;
    assert m[p[0] := first][q[0] := Set(first, q[1..], y)] == m[p[0] := Set(first, q[1..], y)];
  }

  lemma IncomparableTails(p: Path, q: Path)
    requires p != [] && q != [] && p[0] == q[0] && Incomparable(p, q)
    ensures |p| > 1 && |q| > 1 && Incomparable(p[1..], q[1..])
  {
    assert p == [p[0]] + p[1..] && q == [q[0]] + q[1..];
  }

  lemma DistantSetsCommute(v: Value, p: Path, q: Path, x: Value, y: Value)
    requires p != [] && q != [] && p[0] != q[0]
    ensures Set(Set(v, p, x), q, y) == Set(Set(v, q, y), p, x)
  {
    SetAfterDistantSet(v, p, q, x, y);
    SetAfterDistantSet(v, q, p, y, x);
    var m, xp, yq := EntriesOrNone(v), Written(v, p, x), Written(v, q, y);
    assert m[p[0] := xp][q[0] := yq] == m[q[0] := yq][p[0] := xp];
  }

  /** Writes at incomparable paths commute. */
  lemma {:induction false} SetsCommute(v: Value, p: Path, q: Path, x: Value, y: Value)
    requires p != [] && q != [] && Incomparable(p, q)
    ensures Set(Set(v, p, x), q, y) == Set(Set(v, q, y), p, x)
    decreases p
  {
    if p[0] == q[0] {
      IncomparableTails(p, q);
      SetsCommute(NextOf(v, p[0]), p[1..], q[1..], x, y);
      SetAfterNearSet(v, p, q, x, y);
      SetAfterNearSet(v, q, p, y, x);
    } else {
      DistantSetsCommute(v, p, q, x, y);
    }
  }

  // ------------------------------------------------------------------ the cursor of set_value

  /** The tree that a `&mut` cursor on `v` was borrowed from; `spine` lists the enclosing maps, outermost first. */
  ghost function Plug(spine: seq<(map<string, Value>, string)>, v: Value): Value
    decreases |spine|
  {
    if spine == [] then v
    else
      var (m, k) := spine[|spine| - 1];
      Plug(spine[..|spine| - 1], Map(m[k := v]))
  }

  /** One step of the cursor: a write below a map is the map with the write made under its key. */
  lemma CursorStep(v: Value, m: map<string, Value>, p: Path, x: Value)
    requires |p| > 1 && m == EntriesOrNone(v)[p[0] := NextOf(v, p[0])]
    ensures Set(v, p, x) == Map(m[p[0] := Set(m[p[0]], p[1..], x)])
  {
    var next := Set(NextOf(v, p[0]), p[1..], x);
    assert m[p[0] := next] == EntriesOrNone(v)[p[0] := next];
  }

  lemma PlugLast(spine: seq<(map<string, Value>, string)>, m: map<string, Value>, k: string, v: Value)
    ensures Plug(spine + [(m, k)], v) == Plug(spine, Map(m[k := v]))
  {
    assert (spine + [(m, k)])[..|spine|] == spine;
  }

  method SetValue(data: Value, path: string, x: Value) returns (r: Value)
    ensures r == Set(data, Split(path, '.'), x)
  {
    var parts := Split(path, '.');
    var current := data;
    var spine: seq<(map<string, Value>, string)> := [];
    for i := 0 to |parts| - 1
      invariant |spine| == i
      invariant Plug(spine, Set(current, parts[i..], x)) == Set(data, parts, x)
    {
      var key := parts[i];
      if !current.Map? {
        current := Map(map[]);
      }
      var m := current.entries;
      if key !in m {
        m := m[key := Map(map[])];
      }
      assert parts[i..][0] == key && parts[i..][1..] == parts[i + 1..];
      CursorStep(current, m, parts[i..], x);
      PlugLast(spine, m, key, Set(m[key], parts[i + 1..], x));
      spine := spine + [(m, key)];
      current := m[key];
    }
    var last := parts[|parts| - 1];
    r := Map((if current.Map? then current.entries else map[])[last := x]);
    assert parts[|parts| - 1..] == [last];
    // the borrows end: every enclosing map holds the value written through the cursor
    while spine != []
      invariant Plug(spine, r) == Set(data, parts, x)
      decreases |spine|
    {
      var (m, k) := spine[|spine| - 1];
      r := Map(m[k := r]);
      spine := spine[..|spine| - 1];
    }
  }

  method GetValue(data: Value, path: string) returns (r: Option<Value>)
    ensures r == Get(data, Split(path, '.'))
  {
    var parts := Split(path, '.');
    var current := data;
    for i := 0 to |parts|
      invariant Get(data, parts) == Get(current, parts[i..])
    {
      if !current.Map? || parts[i] !in current.entries {
        return None;
      }
      current := current.entries[parts[i]];
      assert parts[i..][1..] == parts[i + 1..];
    }
    return Some(current);
  }
}
