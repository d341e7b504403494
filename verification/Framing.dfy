/**
 Port interpolation into a service's framing text: C++ and Rust replace the first `%s` of the
 text by the first available port, again and again.
 */
module Framing {
  import opened Text
  import opened Wrappers

  // ------------------------------------------------------------------ placeholders

  predicate PlaceholderAt(s: string, i: int) {
    0 <= i < |s| - 1 && s[i] == '%' && s[i + 1] == 's'
  }

  /** The number of positions at which `%s` occurs. */
  function Placeholders(s: string): nat {
    if s == "" then 0 else (if PlaceholderAt(s, 0) then 1 else 0) + Placeholders(s[1..])
  }

  /** `std::string::find("%s", pos)`. */
  function FindFrom(s: string, pos: nat): (r: Option<nat>)
    requires pos <= |s|
    ensures r.Some? ==> pos <= r.value && PlaceholderAt(s, r.value)
    ensures r.Some? ==> forall i :: pos <= i < r.value ==> !PlaceholderAt(s, i)
    ensures r.None? ==> forall i :: pos <= i ==> !PlaceholderAt(s, i)
    decreases |s| - pos
  {
    if pos == |s| then None
    else if PlaceholderAt(s, pos) then Some(pos)
    else FindFrom(s, pos + 1)
  }

  lemma {:induction false} NoPlaceholders(s: string)
    ensures Placeholders(s) == 0 <==> FindFrom(s, 0).None?
  {
    if s != "" {
      NoPlaceholders(s[1..]);
      assert forall i :: PlaceholderAt(s[1..], i) ==> PlaceholderAt(s, i + 1);
      assert forall i :: 0 <= i && PlaceholderAt(s, i + 1) ==> PlaceholderAt(s[1..], i);
      assert FindFrom(s[1..], 0).None? && FindFrom(s, 0).Some? ==> FindFrom(s, 0).value == 0 by {
        if FindFrom(s, 0).Some? && FindFrom(s, 0).value > 0 {
          assert PlaceholderAt(s[1..], FindFrom(s, 0).value - 1);
        }
      }
      if FindFrom(s[1..], 0).Some? {
        assert PlaceholderAt(s, FindFrom(s[1..], 0).value + 1);
      }
    }
  }

  /** Placeholders add up over a concatenation whose seam does not make one. */
  lemma {:induction false} PlaceholdersAppend(a: string, b: string)
    requires !PlaceholderAt(a + b, |a| - 1)
    ensures Placeholders(a + b) == Placeholders(a) + Placeholders(b)
  {
    if a == "" {
      assert a + b == b;
    } else {
      assert (a + b)[1..] == a[1..] + b;
      assert PlaceholderAt(a[1..] + b, |a| - 2) ==> PlaceholderAt(a + b, |a| - 1);
      PlaceholdersAppend(a[1..], b);
    }
  }

  /** What find-first finds splits the text into a plain part, the placeholder and the rest. */
  lemma SplitAtFirst(s: string, p: nat)
    requires FindFrom(s, 0) == Some(p)
    ensures s == s[..p] + "%s" + s[p + 2..]
    ensures Placeholders(s[..p]) == 0
    ensures Placeholders(s) == 1 + Placeholders(s[p + 2..])
  {
    var a, b := s[..p], s[p..];
    assert s == a + b && b == "%s" + s[p + 2..];
    assert Placeholders(a) == 0 by {
      assert forall i :: PlaceholderAt(a, i) ==> PlaceholderAt(s, i);
      NoPlaceholders(a);
    }
    PlaceholdersAppend(a, b);
    assert b[1..][1..] == s[p + 2..];
  }

  // ------------------------------------------------------------------ the loops

  function ReplaceFirst(s: string, port: string): string {
    match FindFrom(s, 0)
    case Some(p) => s[..p] + port + s[p + 2..]
    case None => s
  }

  /** Find and replace once for every port, in order. */
  function ReplaceTimes(s: string, ports: seq<string>): string
    decreases |ports|
  {
    if ports == [] then s else ReplaceTimes(ReplaceFirst(s, ports[0]), ports[1..])
  }

  method CountPlaceholders(framing: string) returns (count: nat)
    ensures count == Placeholders(framing)
  {
    count := 0;
    var pos := 0;
    assert framing[0..] == framing;
    while true
      invariant pos <= |framing|
      invariant count + Placeholders(framing[pos..]) == Placeholders(framing)
      decreases |framing| - pos
    {
      var found := FindFrom(framing, pos);
      FindInSuffix(framing, pos);
      match found
      case None =>
        NoPlaceholders(framing[pos..]);
        return;
      case Some(p) =>
        SplitAtFirst(framing[pos..], p - pos);
        assert framing[pos..][p - pos + 2..] == framing[p + 2..];
        count := count + 1;
        pos := p + 2;
    }
  }

  lemma FindInSuffix(s: string, pos: nat)
    requires pos <= |s|
    ensures FindFrom(s, pos).None? <==> FindFrom(s[pos..], 0).None?
    ensures FindFrom(s, pos).Some? ==> FindFrom(s[pos..], 0) == Some(FindFrom(s, pos).value - pos)
  {
    var t := s[pos..];
    assert forall i :: PlaceholderAt(t, i) ==> PlaceholderAt(s, i + pos);
    assert forall i :: i >= pos && PlaceholderAt(s, i) ==> PlaceholderAt(t, i - pos);
    if FindFrom(s, pos).Some? { assert PlaceholderAt(t, FindFrom(s, pos).value - pos); }
    if FindFrom(t, 0).Some? { assert PlaceholderAt(s, FindFrom(t, 0).value + pos); }
  }

  function AvailablePorts(tcp: string, rest: string, grpc: string): (ports: seq<string>)
    ensures forall p :: p in ports <==> p != "" && p in {tcp, rest, grpc}
    ensures tcp != "" ==> ports != [] && ports[0] == tcp
    ensures grpc != "" ==> ports != [] && ports[|ports| - 1] == grpc
    ensures |ports| == (if tcp != "" then 1 else 0) + (if rest != "" then 1 else 0) + (if grpc != "" then 1 else 0)
  {
    (if tcp != "" then [tcp] else []) + (if rest != "" then [rest] else []) + (if grpc != "" then [grpc] else [])
  }

  /** C++ and Rust; the error carries the number of placeholders. */
  method InterpolatePorts(base: string, tcp: string, rest: string, grpc: string) returns (r: Result<string, nat>)
    ensures r.Err? <==> |AvailablePorts(tcp, rest, grpc)| < Placeholders(base)
    ensures r.Err? ==> r.error == Placeholders(base)
    ensures r.Ok? ==> r.value == ReplaceTimes(base, AvailablePorts(tcp, rest, grpc)[..Placeholders(base)])
  {
    var framing := base;
    var available := AvailablePorts(tcp, rest, grpc);
    NoPlaceholders(base);
    if FindFrom(framing, 0).Some? {
      var count := CountPlaceholders(framing);
      if |available| < count {
        return Err(count);
      }
      ghost var used := available[..count];
      assert used[0..] == used;
      for i := 0 to count
        invariant ReplaceTimes(framing, used[i..]) == ReplaceTimes(base, used)
      {
        assert used[i..][0] == available[i] && used[i..][1..] == used[i + 1..];
        var p := FindFrom(framing, 0);
        if p.Some? {
          framing := framing[..p.value] + available[i] + framing[p.value + 2..];
        }
      }
      assert used[count..] == [];
    }
    return Ok(framing);
  }

  // ------------------------------------------------------------------ the meaning

  /** The literal text around the placeholders. */
  function Literals(s: string): (ls: seq<string>)
    ensures |ls| > 0
    decreases |s|
  {
    match FindFrom(s, 0)
    case Some(p) => [s[..p]] + Literals(s[p + 2..])
    case None => [s]
  }

  /** Literals and fillings alternating. */
  function Interleave(literals: seq<string>, fillings: seq<string>): string
    requires |literals| == |fillings| + 1
  {
    if fillings == [] then literals[0]
    else literals[0] + fillings[0] + Interleave(literals[1..], fillings[1..])
  }

  lemma {:induction false} LiteralsCount(s: string)
    ensures |Literals(s)| == Placeholders(s) + 1
    decreases |s|
  {
    match FindFrom(s, 0)
    case Some(p) =>
      SplitAtFirst(s, p);
      LiteralsCount(s[p + 2..]);
    case None =>
      NoPlaceholders(s);
  }

  function Holes(n: nat): (h: seq<string>)
    ensures |h| == n
  {
    if n == 0 then [] else ["%s"] + Holes(n - 1)
  }

  /** The literals hold no placeholder, and with `%s` put back between them they are the text. */
  lemma {:induction false} LiteralsRejoin(s: string)
    ensures forall l <- Literals(s) :: Placeholders(l) == 0
    ensures Interleave(Literals(s), Holes(|Literals(s)| - 1)) == s
    decreases |s|
  {
    match FindFrom(s, 0)
    case Some(p) =>
      SplitAtFirst(s, p);
      var rest := s[p + 2..];
      LiteralsRejoin(rest);
      assert Literals(s)[0] == s[..p] && Literals(s)[1..] == Literals(rest);
      assert Holes(|Literals(rest)|)[1..] == Holes(|Literals(rest)| - 1);
    case None =>
      NoPlaceholders(s);
  }

  /** A port that can neither contain a placeholder nor complete one with its neighbours. */
  predicate PlainPort(port: string) {
    port != "" && Placeholders(port) == 0 && port[0] != 's' && port[|port| - 1] != '%'
  }

  lemma {:induction false} NumeralsArePlain(port: string)
    requires IsNumeral(port)
    ensures PlainPort(port)
  {
    assert forall i :: 0 <= i < |port| ==> IsDigit(port[i]);
    NoPlaceholders(port);
  }

  /** A prefix without placeholders that cannot make one with the text after it does not change what is found. */
  lemma FindAfterPrefix(prefix: string, s: string)
    requires Placeholders(prefix) == 0 && !PlaceholderAt(prefix + s, |prefix| - 1)
    ensures FindFrom(s, 0).Some? ==> FindFrom(prefix + s, 0) == Some(|prefix| + FindFrom(s, 0).value)
  {
    if FindFrom(s, 0).Some? {
      var p := FindFrom(s, 0).value;
      forall i | 0 <= i < |prefix| + p ensures !PlaceholderAt(prefix + s, i) {
        NoneBefore(prefix, s, p, i);
      }
      assert PlaceholderAt(prefix + s, |prefix| + p);
      FirstIs(prefix + s, |prefix| + p);
    }
  }

  lemma FirstIs(s: string, p: nat)
    requires PlaceholderAt(s, p) && forall i :: 0 <= i < p ==> !PlaceholderAt(s, i)
    ensures FindFrom(s, 0) == Some(p)
  {
  }

  lemma NoneBefore(prefix: string, s: string, p: nat, i: nat)
    requires Placeholders(prefix) == 0 && !PlaceholderAt(prefix + s, |prefix| - 1)
    requires FindFrom(s, 0) == Some(p) && i < |prefix| + p
    ensures !PlaceholderAt(prefix + s, i)
  {
    NoPlaceholders(prefix);
    if i < |prefix| - 1 {
      assert PlaceholderAt(prefix + s, i) ==> PlaceholderAt(prefix, i);
    } else if i >= |prefix| {
      assert PlaceholderAt(prefix + s, i) ==> PlaceholderAt(s, i - |prefix|);
    }
  }

  /** A filled-in port closes a prefix without opening a new placeholder. */
  lemma PortExtendsPrefix(prefix: string, literal: string, port: string, rest: string)
    requires PlainPort(port) && Placeholders(prefix + literal) == 0
    ensures Placeholders(prefix + literal + port) == 0
    ensures !PlaceholderAt(prefix + literal + port + rest, |prefix + literal + port| - 1)
  {
    PlaceholdersAppend(prefix + literal, port);
  }

  lemma PrefixKeepsLiteralPlain(prefix: string, s: string, p: nat)
    requires Placeholders(prefix) == 0 && !PlaceholderAt(prefix + s, |prefix| - 1)
    requires FindFrom(s, 0) == Some(p)
    ensures Placeholders(prefix + s[..p]) == 0
  {
    SplitAtFirst(s, p);
    assert PlaceholderAt(prefix + s[..p], |prefix| - 1) ==> PlaceholderAt(prefix + s, |prefix| - 1);
    PlaceholdersAppend(prefix, s[..p]);
  }

  lemma ReplaceFirstAfterPrefix(prefix: string, s: string, port: string)
    requires Placeholders(prefix) == 0 && !PlaceholderAt(prefix + s, |prefix| - 1)
    requires FindFrom(s, 0).Some?
    ensures ReplaceFirst(prefix + s, port)
         == prefix + s[..FindFrom(s, 0).value] + port + s[FindFrom(s, 0).value + 2..]
  {
    var t, p := prefix + s, FindFrom(s, 0).value;
    FindAfterPrefix(prefix, s);
    assert ReplaceFirst(t, port) == t[..|prefix| + p] + port + t[|prefix| + p + 2..];
    SliceAfterPrefix(prefix, s, p);
  }

  /** One iteration moves the first literal and its port into the finished prefix. */
  lemma FillOne(prefix: string, s: string, port: string)
    requires Placeholders(prefix) == 0 && !PlaceholderAt(prefix + s, |prefix| - 1)
    requires Placeholders(s) > 0 && PlainPort(port)
    ensures FindFrom(s, 0).Some?
    ensures var next, rest := prefix + s[..FindFrom(s, 0).value] + port, s[FindFrom(s, 0).value + 2..];
      && ReplaceFirst(prefix + s, port) == next + rest
      && Placeholders(next) == 0 && !PlaceholderAt(next + rest, |next| - 1)
      && Placeholders(rest) == Placeholders(s) - 1
  {
    NoPlaceholders(s);
    var p := FindFrom(s, 0).value;
    SplitAtFirst(s, p);
    ReplaceFirstAfterPrefix(prefix, s, port);
    PrefixKeepsLiteralPlain(prefix, s, p);
    PortExtendsPrefix(prefix, s[..p], port, s[p + 2..]);
  }

  lemma SliceAfterPrefix(prefix: string, s: string, p: nat)
    requires p + 2 <= |s|
    ensures (prefix + s)[..|prefix| + p] == prefix + s[..p]
    ensures (prefix + s)[|prefix| + p + 2..] == s[p + 2..]
  {
  }

  lemma Regroup(a: string, b: string, c: string, d: string)
    ensures a + b + c + d == a + (b + c + d)
  {
  }

  lemma {:induction false} FillFromLeft(prefix: string, s: string, ports: seq<string>)
    requires Placeholders(prefix) == 0 && !PlaceholderAt(prefix + s, |prefix| - 1)
    requires |ports| == Placeholders(s) && forall p <- ports :: PlainPort(p)
    ensures |Literals(s)| == |ports| + 1
    ensures ReplaceTimes(prefix + s, ports) == prefix + Interleave(Literals(s), ports)
    decreases |ports|
  {
    LiteralsCount(s);
    if ports == [] {
      NoPlaceholders(s);
    } else {
      FillOne(prefix, s, ports[0]);
      var p := FindFrom(s, 0).value;
      var rest := s[p + 2..];
      FillFromLeft(prefix + s[..p] + ports[0], rest, ports[1..]);
      assert Literals(s)[0] == s[..p] && Literals(s)[1..] == Literals(rest);
      Regroup(prefix, s[..p], ports[0], Interleave(Literals(rest), ports[1..]));
    }
  }

  /** The find-and-replace loop puts the ports into all placeholders at once. */
  lemma ReplacingIsInterleaving(framing: string, ports: seq<string>)
    requires |ports| == Placeholders(framing) && forall p <- ports :: PlainPort(p)
    ensures |Literals(framing)| == |ports| + 1
    ensures ReplaceTimes(framing, ports) == Interleave(Literals(framing), ports)
  {
    assert "" + framing == framing;
    FillFromLeft("", framing, ports);
    assert "" + Interleave(Literals(framing), ports) == Interleave(Literals(framing), ports);
  }

  /** Every iteration removes exactly one placeholder. */
  lemma EachIterationRemovesOne(s: string, port: string)
    requires PlainPort(port) && Placeholders(s) > 0
    ensures Placeholders(ReplaceFirst(s, port)) == Placeholders(s) - 1
  {
    NoPlaceholders(s);
    var p := FindFrom(s, 0).value;
    SplitAtFirst(s, p);
    assert "" + s[..p] == s[..p];
    PortExtendsPrefix("", s[..p], port, s[p + 2..]);
    PlaceholdersAppend(s[..p] + port, s[p + 2..]);
  }

  lemma {:induction false} NoneRemain(s: string, ports: seq<string>)
    requires |ports| <= Placeholders(s) && forall p <- ports :: PlainPort(p)
    ensures Placeholders(ReplaceTimes(s, ports)) == Placeholders(s) - |ports|
    decreases |ports|
  {
    if ports != [] {
      EachIterationRemovesOne(s, ports[0]);
      NoneRemain(ReplaceFirst(s, ports[0]), ports[1..]);
    }
  }

  /** Numeric ports: the result of the loop, in tcp, rest, grpc order, and no placeholder is left. */
  lemma NumericPortsAreInterleaved(framing: string, tcp: string, rest: string, grpc: string)
    requires forall p <- [tcp, rest, grpc] :: p == "" || IsNumeral(p)
    requires Placeholders(framing) <= |AvailablePorts(tcp, rest, grpc)|
    ensures var used := AvailablePorts(tcp, rest, grpc)[..Placeholders(framing)];
      && |Literals(framing)| == |used| + 1
      && ReplaceTimes(framing, used) == Interleave(Literals(framing), used)
      && Placeholders(ReplaceTimes(framing, used)) == 0
  {
    var ports := AvailablePorts(tcp, rest, grpc);
    var used := ports[..Placeholders(framing)];
    forall p <- used ensures PlainPort(p) {
      assert p in ports && p in [tcp, rest, grpc];
      NumeralsArePlain(p);
    }
    ReplacingIsInterleaving(framing, used);
    NoneRemain(framing, used);
  }

  lemma FirstOfPlaceholder(rest: string)
    ensures FindFrom("%s" + rest, 0) == Some(0)
    ensures forall port :: ReplaceFirst("%s" + rest, port) == port + rest
  {
    var s := "%s" + rest;
    assert PlaceholderAt(s, 0) && s[2..] == rest;
    forall port: string ensures ReplaceFirst(s, port) == port + rest {
      assert s[..0] + port == port;
    }
  }

  lemma InterleaveOne(s: string, port: string)
    requires Placeholders(s) == 1
    ensures |Literals(s)| == 2 && Interleave(Literals(s), [port]) == ReplaceFirst(s, port)
  {
    LiteralsCount(s);
    NoPlaceholders(s);
    var p := FindFrom(s, 0).value;
    SplitAtFirst(s, p);
    NoPlaceholders(s[p + 2..]);
    assert Literals(s) == [s[..p], s[p + 2..]];
    assert [s[..p], s[p + 2..]][1..] == [s[p + 2..]] && [port][1..] == [];
  }

  lemma ReplaceTwo(s: string, a: string, b: string)
    ensures ReplaceTimes(s, [a, b]) == ReplaceFirst(ReplaceFirst(s, a), b)
  {
    assert [a, b][1..] == [b] && [b][1..] == [];
    assert ReplaceTimes(ReplaceFirst(s, a), [b]) == ReplaceFirst(ReplaceFirst(s, a), b);
  }

  lemma FoundInPort(port: string, rest: string, next: string)
    requires Placeholders(port) > 0
    ensures ReplaceFirst(port + rest, next) == ReplaceFirst(port, next) + rest
  {
    NoPlaceholders(port);
    var t, i := port + rest, FindFrom(port, 0).value;
    assert PlaceholderAt(t, i) && forall j :: 0 <= j < i ==> (PlaceholderAt(t, j) <==> PlaceholderAt(port, j));
    FirstIs(t, i);
    assert t[..i] == port[..i] && t[i + 2..] == port[i + 2..] + rest;
  }

  /**
   When the first port contains a placeholder, the second port goes into that one, whatever the
   rest of the framing is, and the framing's own placeholder stays.
   */
  lemma PlaceholderInPortIsFilledInstead(rest: string, port: string, next: string)
    requires Placeholders(port) > 0
    ensures ReplaceTimes("%s" + rest, [port, next]) == ReplaceFirst(port, next) + rest
  {
    FirstOfPlaceholder(rest);
    ReplaceTwo("%s" + rest, port, next);
    FoundInPort(port, rest, next);
  }

  // ------------------------------------------------------------------ exactly which ports are safe

  /** The loop puts `port` and then a zero where the two placeholders of the framing are. */
  predicate FillsBoth(framing: string, port: string) {
    && |Literals(framing)| == 3
    && ReplaceTimes(framing, [port, "0"]) == Interleave(Literals(framing), [port, "0"])
  }

  /** If something in `t` is taken for a placeholder before the last one, the last one stays. */
  lemma EarlierHoleLeavesLast(x: string, port: string)
    requires FindFrom(x + "%s", 0).Some? && FindFrom(x + "%s", 0).value < |x|
    ensures var r := ReplaceFirst(x + "%s", port); r != "" && r[|r| - 1] == 's'
  {
    var t := x + "%s";
    var p := FindFrom(t, 0).value;
    assert t[|x|] == '%';
    assert t[p + 2..][|t| - p - 3] == t[|t| - 1];
  }

  lemma PlaceholderComesFirst(t: string, i: nat)
    requires PlaceholderAt(t, i)
    ensures FindFrom(t, 0).Some? && FindFrom(t, 0).value <= i
  {
  }

  /**
   The loop and the interleaving on a framing whose first placeholder stands after `before` and
   whose rest has one more.
   */
  lemma TwoPlaceholders(before: string, rest: string, port: string)
    requires FindFrom(before + "%s" + rest, 0) == Some(|before|) && Placeholders(rest) == 1
    ensures var framing := before + "%s" + rest;
      && Placeholders(framing) == 2 && |Literals(framing)| == 3
      && ReplaceTimes(framing, [port, "0"]) == ReplaceFirst(before + port + rest, "0")
      && Interleave(Literals(framing), [port, "0"]) == before + port + ReplaceFirst(rest, "0")
  {
    var framing := before + "%s" + rest;
    SplitAtFirst(framing, |before|);
    assert framing[..|before|] == before && framing[|before| + 2..] == rest;
    ReplaceTwo(framing, port, "0");
    InterleaveOne(rest, "0");
    assert Literals(framing)[1..] == Literals(rest) && [port, "0"][1..] == ["0"];
  }

  /** An earlier hole in the text after the first iteration makes the loop miss the framing's own placeholder. */
  lemma EarlierHoleDiffers(before: string, middle: string, port: string, i: nat)
    requires FindFrom(before + "%s" + (middle + "%s"), 0) == Some(|before|) && Placeholders(middle + "%s") == 1
    requires FindFrom(middle + "%s", 0) == Some(|middle|)
    requires i < |before + port + middle| && PlaceholderAt(before + port + middle + "%s", i)
    ensures Placeholders(before + "%s" + (middle + "%s")) == 2 && !FillsBoth(before + "%s" + (middle + "%s"), port)
  {
    TwoPlaceholders(before, middle + "%s", port);
    assert before + port + (middle + "%s") == before + port + middle + "%s";
    PlaceholderComesFirst(before + port + middle + "%s", i);
    EarlierHoleLeavesLast(before + port + middle, "0");
    var filled := ReplaceFirst(middle + "%s", "0");
    assert (middle + "%s")[..|middle|] == middle && (middle + "%s")[|middle| + 2..] == "";
    assert filled == middle + "0" + "";
    assert (before + port + filled)[|before + port + filled| - 1] == '0';
  }

  lemma PercentFramings()
    ensures FindFrom("" + "%s" + ("" + "%s"), 0) == Some(0)
    ensures FindFrom("" + "%s", 0) == Some(0) && Placeholders("" + "%s") == 1
    ensures FindFrom("%" + "%s" + ("" + "%s"), 0) == Some(1)
    ensures FindFrom("" + "%s" + ("s" + "%s"), 0) == Some(0)
    ensures FindFrom("s" + "%s", 0) == Some(1) && Placeholders("s" + "%s") == 1
  {
    assert PlaceholderAt("" + "%s" + ("" + "%s"), 0) && PlaceholderAt("" + "%s", 0);
    assert PlaceholderAt("%" + "%s" + ("" + "%s"), 1);
    assert PlaceholderAt("" + "%s" + ("s" + "%s"), 0) && PlaceholderAt("s" + "%s", 1);
    assert ("" + "%s")[1..] == "s" && "s"[1..] == "";
    assert ("s" + "%s")[1..] == "%s" && "%s"[1..] == "s";
  }

  /** For every port that is not plain, one of the framings `%s%s`, `%%s%s` and `%ss%s` goes wrong. */
  lemma UnplainPortFails(port: string) returns (framing: string)
    requires port != "" && !PlainPort(port)
    ensures Placeholders(framing) == 2 && !FillsBoth(framing, port)
  {
    PercentFramings();
    if Placeholders(port) != 0 {
      NoPlaceholders(port);
      var i := FindFrom(port, 0).value;
      assert PlaceholderAt("" + port + "" + "%s", i);
      EarlierHoleDiffers("", "", port, i);
      framing := "" + "%s" + ("" + "%s");
    } else if port[0] == 's' {
      assert PlaceholderAt("%" + port + "" + "%s", 0);
      EarlierHoleDiffers("%", "", port, 0);
      framing := "%" + "%s" + ("" + "%s");
    } else {
      assert PlaceholderAt("" + port + "s" + "%s", |port| - 1);
      EarlierHoleDiffers("", "s", port, |port| - 1);
      framing := "" + "%s" + ("s" + "%s");
    }
  }

  /** Plain ports are exactly those that the loop puts in place whatever the framing is. */
  lemma PlainPortIff(port: string)
    requires port != ""
    ensures PlainPort(port) <==> forall framing: string :: Placeholders(framing) == 2 ==> FillsBoth(framing, port)
  {
    if PlainPort(port) {
      NumeralsArePlain("0");
      forall framing: string | Placeholders(framing) == 2 ensures FillsBoth(framing, port) {
        ReplacingIsInterleaving(framing, [port, "0"]);
      }
    } else {
      var framing := UnplainPortFails(port);
      assert !FillsBoth(framing, port);
    }
  }
}
