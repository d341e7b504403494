/** Configuration trees: what the YAML decoders of Go, Python and Rust produce, restricted to string keys. */
module ConfigTree {
  import opened Wrappers

  /**
   `Float` carries the text that its number is printed as; `Opaque` stands for the leaves that the
   modelled code only copies: booleans and lists.
   */
  datatype Value =
    | Null
    | Str(text: string)
    | Num(number: int)
    | Float(printed: string)
    | Opaque(id: nat)
    | Map(entries: map<string, Value>)

  type Path = seq<string>

  predicate IsLeaf(v: Value) {
    !v.Null? && !v.Map?
  }

  predicate NullFree(v: Value) {
    !v.Null? && (v.Map? ==> forall k <- v.entries :: NullFree(v.entries[k]))
  }

  /** The value at a path, if every step is a key of a mapping. */
  function Get(v: Value, p: Path): Option<Value>
    decreases p
  {
    if p == [] then Some(v)
    else if v.Map? && p[0] in v.entries then Get(v.entries[p[0]], p[1..])
    else None
  }

  /** What a reader finds at a path when null counts as absent. */
  datatype View = Absent | Leaf(value: Value) | Mapping

  function ViewAt(v: Value, p: Path): View
    decreases p
  {
    if p == [] then
      if v.Null? then Absent else if v.Map? then Mapping else Leaf(v)
    else if v.Map? && p[0] in v.entries then ViewAt(v.entries[p[0]], p[1..])
    else Absent
  }

  /** A proper prefix of the path is a leaf. */
  predicate Blocked(v: Value, p: Path)
    decreases p
  {
    p != [] && (IsLeaf(v) || (v.Map? && p[0] in v.entries && Blocked(v.entries[p[0]], p[1..])))
  }

  lemma {:induction false} BlockedIff(v: Value, p: Path)
    ensures Blocked(v, p) <==> exists i :: 0 <= i < |p| && ViewAt(v, p[..i]).Leaf?
    decreases p
  {
    if p == [] {
    } else if !v.Map? {
      assert ViewAt(v, p[..0]).Leaf? <==> IsLeaf(v);
      forall i | 0 < i < |p| ensures ViewAt(v, p[..i]).Absent? {
      }
    } else if p[0] !in v.entries {
      forall i | 0 <= i < |p| ensures !ViewAt(v, p[..i]).Leaf? {
      }
    } else {
      var sub := v.entries[p[0]];
      BlockedIff(sub, p[1..]);
      forall i | 0 < i < |p| ensures ViewAt(v, p[..i]) == ViewAt(sub, p[1..][..i - 1]) {
        assert p[..i][1..] == p[1..][..i - 1];
      }
      if i :| 0 <= i < |p[1..]| && ViewAt(sub, p[1..][..i]).Leaf? {
        assert ViewAt(v, p[..i + 1]).Leaf?;
      }
      if i :| 0 <= i < |p| && ViewAt(v, p[..i]).Leaf? {
        assert i > 0;
        assert ViewAt(sub, p[1..][..i - 1]).Leaf?;
      }
    }
  }
}
