/**
 The repair of a corrupted settings file: find the `mcpServers` key, scan its object with a
 brace counter that knows strings and escapes, and splice an empty object in its place.
 */
module BraceScanner {
  import opened Wrappers

  // ------------------------------------------------------------------ the texts the repair is for

  /** A character inside a string, escaped or not (section 7 of RFC 8259). */
  datatype StringChar = Raw(c: char) | Escaped(c: char)

  datatype Piece = Plain(c: char) | Quoted(chars: seq<StringChar>) | Block(body: seq<Piece>)

  predicate WellFormedChars(chars: seq<StringChar>) {
    forall x <- chars :: x.Raw? ==> x.c != '"' && x.c != '\\'
  }

  predicate WellFormed(p: Piece)
    decreases p
  {
    match p
    case Plain(c) => c != '"' && c != '\\' && c != '{' && c != '}'
    case Quoted(chars) => WellFormedChars(chars)
    case Block(body) => WellFormedAll(body)
  }

  predicate WellFormedAll(ps: seq<Piece>)
    decreases ps
  {
    ps == [] || (WellFormed(ps[0]) && WellFormedAll(ps[1..]))
  }

  function RenderChars(chars: seq<StringChar>): string {
    if chars == [] then ""
    else (if chars[0].Raw? then [chars[0].c] else ['\\', chars[0].c]) + RenderChars(chars[1..])
  }

  function Render(p: Piece): string
    decreases p
  {
    match p
    case Plain(c) => [c]
    case Quoted(chars) => ['"'] + RenderChars(chars) + ['"']
    case Block(body) => ['{'] + RenderAll(body) + ['}']
  }

  function RenderAll(ps: seq<Piece>): string
    decreases ps
  {
    if ps == [] then "" else Render(ps[0]) + RenderAll(ps[1..])
  }

  // ------------------------------------------------------------------ the scanner

  datatype Scan = Scan(braces: int, inString: bool, escape: bool)

  const START := Scan(0, false, false)

  function Feed(st: Scan, c: char): Scan {
    if st.escape then st.(escape := false)
    else if c == '\\' then st.(escape := true)
    else if c == '"' then st.(inString := !st.inString)
    else if st.inString then st
    else if c == '{' then st.(braces := st.braces + 1)
    else if c == '}' then st.(braces := st.braces - 1)
    else st
  }

  predicate Stops(st: Scan, c: char) {
    !st.escape && !st.inString && c == '}' && st.braces == 1
  }

  /** The index at which the scanner stops, reading from `i` on. */
  function ScanFrom(text: string, i: nat, st: Scan): (r: Option<nat>)
    requires i <= |text|
    ensures r.Some? ==> i <= r.value < |text|
    decreases |text| - i
  {
    if i == |text| then None
    else if Stops(st, text[i]) then Some(i)
    else ScanFrom(text, i + 1, Feed(st, text[i]))
  }

  /** The loop of the repair, with its three variables. */
  method ScanObject(text: string, braceStart: nat) returns (r: Option<nat>)
    requires braceStart <= |text|
    ensures r == ScanFrom(text, braceStart, START)
  {
    var braceCount, inString, escape := 0, false, false;
    for i := braceStart to |text|
      invariant ScanFrom(text, braceStart, START) == ScanFrom(text, i, Scan(braceCount, inString, escape))
    {
      var c := text[i];
      if escape { escape := false; continue; }
      if c == '\\' { escape := true; continue; }
      if c == '"' { inString := !inString; continue; }
      if !inString {
        if c == '{' {
          braceCount := braceCount + 1;
        } else if c == '}' {
          braceCount := braceCount - 1;
          if braceCount == 0 { return Some(i); }
        }
      }
    }
    return None;
  }

  // ------------------------------------------------------------------ it stops at the matching brace

  /** The scanner passes over `s` from state `st` to state `st'` without stopping. */
  ghost predicate Passes(st: Scan, s: string, st': Scan)
    decreases s
  {
    if s == "" then st == st'
    else !Stops(st, s[0]) && Passes(Feed(st, s[0]), s[1..], st')
  }

  lemma {:induction false} PassesAppend(st: Scan, a: string, mid: Scan, b: string, st': Scan)
    requires Passes(st, a, mid) && Passes(mid, b, st')
    ensures Passes(st, a + b, st')
    decreases a
  {
    if a == "" {
      assert a + b == b;
    } else {
      assert (a + b)[1..] == a[1..] + b;
      PassesAppend(Feed(st, a[0]), a[1..], mid, b, st');
    }
  }

  lemma {:induction false} StringPasses(chars: seq<StringChar>, braces: int)
    requires WellFormedChars(chars)
    ensures var st := Scan(braces, true, false); Passes(st, RenderChars(chars), st)
    decreases chars
  {
    if chars != [] {
      var st := Scan(braces, true, false);
      StringPasses(chars[1..], braces);
      var first := if chars[0].Raw? then [chars[0].c] else ['\\', chars[0].c];
      if chars[0].Escaped? {
        assert first[1..] == [chars[0].c];
        assert [chars[0].c][1..] == "";
        assert Passes(Feed(st, '\\'), [chars[0].c], st);
      } else {
        assert first[1..] == "";
      }
      PassesAppend(st, first, st, RenderChars(chars[1..]), st);
    }
  }

  lemma PassOne(st: Scan, c: char)
    requires !Stops(st, c)
    ensures Passes(st, [c], Feed(st, c))
  {
    assert [c][1..] == "";
  }

  /** Inside an object, every piece is passed over and leaves the counter where it was. */
  lemma {:induction false} PiecePasses(p: Piece, braces: int)
    requires WellFormed(p) && braces >= 1
    ensures var st := Scan(braces, false, false); Passes(st, Render(p), st)
    decreases p, 0
  {
    var st := Scan(braces, false, false);
    match p
    case Plain(c) =>
      PassOne(st, c);
    case Quoted(chars) =>
      var inside := st.(inString := true);
      PassOne(st, '"');
      StringPasses(chars, braces);
      PassOne(inside, '"');
      PassesAppend(st, ['"'], inside, RenderChars(chars), inside);
      PassesAppend(st, ['"'] + RenderChars(chars), inside, ['"'], st);
    case Block(body) =>
      var inside := st.(braces := braces + 1);
      PassOne(st, '{');
      PiecesPass(body, braces + 1);
      PassOne(inside, '}');
      PassesAppend(st, ['{'], inside, RenderAll(body), inside);
      PassesAppend(st, ['{'] + RenderAll(body), inside, ['}'], st);
  }

  lemma {:induction false} PiecesPass(ps: seq<Piece>, braces: int)
    requires WellFormedAll(ps) && braces >= 1
    ensures var st := Scan(braces, false, false); Passes(st, RenderAll(ps), st)
    decreases ps, 1
  {
    if ps != [] {
      var st := Scan(braces, false, false);
      PiecePasses(ps[0], braces);
      PiecesPass(ps[1..], braces);
      PassesAppend(st, Render(ps[0]), st, RenderAll(ps[1..]), st);
    }
  }

  lemma {:induction false} ScanSkips(text: string, i: nat, s: string, st: Scan, st': Scan)
    requires i + |s| <= |text| && text[i..i + |s|] == s && Passes(st, s, st')
    ensures ScanFrom(text, i, st) == ScanFrom(text, i + |s|, st')
    decreases s
  {
    if s != "" {
      assert text[i] == text[i..i + |s|][0];
      assert text[i + 1..i + 1 + |s[1..]|] == s[1..];
      ScanSkips(text, i + 1, s[1..], Feed(st, s[0]), st');
    }
  }

  /**
   Started on the opening brace of an object, the scanner stops exactly on the brace that closes
   it, for any nesting, any strings and escapes, and whatever comes before and after.
   */
  lemma ScanStopsAtMatchingBrace(before: string, body: seq<Piece>, after: string)
    requires WellFormedAll(body)
    ensures var obj := Render(Block(body));
            ScanFrom(before + obj + after, |before|, START) == Some(|before| + |obj| - 1)
  {
    var obj := Render(Block(body));
    var text := before + obj + after;
    var inside := Scan(1, false, false);
    PassOne(START, '{');
    PiecesPass(body, 1);
    PassesAppend(START, ['{'], inside, RenderAll(body), inside);
    var open := ['{'] + RenderAll(body);
    assert obj == open + ['}'];
    assert text[|before|..|before| + |open|] == open;
    ScanSkips(text, |before|, open, START, inside);
    assert text[|before| + |open|] == '}';
  }

  /** An object that is never closed is not mistaken for a shorter one: the scanner finds no end. */
  lemma UnclosedObjectHasNoEnd(before: string, body: seq<Piece>)
    requires WellFormedAll(body)
    ensures ScanFrom(before + (['{'] + RenderAll(body)), |before|, START) == None
  {
    var open := ['{'] + RenderAll(body);
    var inside := Scan(1, false, false);
    PassOne(START, '{');
    PiecesPass(body, 1);
    PassesAppend(START, ['{'], inside, RenderAll(body), inside);
    assert (before + open)[|before|..|before| + |open|] == open;
    ScanSkips(before + open, |before|, open, START, inside);
  }

  // ------------------------------------------------------------------ the splice

  predicate IsSpace(c: char) {
    9 <= c as int <= 13 || 28 <= c as int <= 32 || c as int == 0x85 || c as int == 0xA0
  }

  const KEY := "\"mcpServers\""
  const EMPTIED := "\"mcpServers\": {}"

  function SkipSpaces(text: string, i: nat): (r: nat)
    requires i <= |text|
    ensures i <= r <= |text|
    ensures r < |text| ==> !IsSpace(text[r])
    decreases |text| - i
  {
    if i < |text| && IsSpace(text[i]) then SkipSpaces(text, i + 1) else i
  }

  /** Where a match of the key, a colon and the white space around it ends, if one starts at `i`. */
  function MatchEnd(text: string, i: nat, key: string): (r: Option<nat>)
    ensures r.Some? ==> i < r.value <= |text|
  {
    if i + |key| > |text| || text[i..i + |key|] != key then None
    else
      var j := SkipSpaces(text, i + |key|);
      if j < |text| && text[j] == ':' then Some(SkipSpaces(text, j + 1)) else None
  }

  /** The leftmost match at or after `i`. */
  function Search(text: string, i: nat, key: string): (r: Option<nat>)
    requires i <= |text|
    ensures r.Some? ==> i <= r.value && MatchEnd(text, r.value, key).Some?
    ensures forall j :: i <= j < (if r.Some? then r.value else |text|) ==> MatchEnd(text, j, key).None?
    decreases |text| - i
  {
    if i == |text| then None
    else if MatchEnd(text, i, key).Some? then Some(i)
    else Search(text, i + 1, key)
  }

  /** The index of the brace that closes the object of the match at `s`. */
  function Closing(text: string, s: nat, key: string): (r: Option<nat>)
    requires MatchEnd(text, s, key).Some?
    ensures r.Some? ==> s < r.value < |text|
  {
    var b := MatchEnd(text, s, key).value;
    if b < |text| && text[b] == '{' then ScanFrom(text, b, START) else None
  }

  /** The splice that the repair makes when the key is found with an object whose end the scanner finds. */
  function Repaired(text: string, key: string): string {
    match Search(text, 0, key)
    case None => text
    case Some(s) =>
      match Closing(text, s, key)
      case None => text
      case Some(end) => text[..s] + EMPTIED + text[end + 1..]
  }

  /** The search, scan and splice; the program's key is `KEY`. */
  method Repair(text: string, key: string) returns (cleaned: string)
    ensures cleaned == Repaired(text, key)
  {
    cleaned := text;
    var start := Search(text, 0, key);
    if start.Some? {
      var braceStart := MatchEnd(text, start.value, key).value;
      if braceStart < |text| && text[braceStart] == '{' {
        var end := ScanObject(text, braceStart);
        if end.Some? {
          cleaned := text[..start.value] + EMPTIED + text[end.value + 1..];
        }
      }
    }
  }

  lemma {:induction false} SkipsExactly(text: string, i: nat, gap: string)
    requires i + |gap| < |text| && text[i..i + |gap|] == gap
    requires (forall c <- gap :: IsSpace(c)) && !IsSpace(text[i + |gap|])
    ensures SkipSpaces(text, i) == i + |gap|
    decreases gap
  {
    if gap != "" {
      assert text[i] == text[i..i + |gap|][0];
      assert text[i + 1..i + 1 + |gap[1..]|] == gap[1..];
      SkipsExactly(text, i + 1, gap[1..]);
    }
  }

  function Head(before: string, gap1: string, gap2: string): string {
    before + (KEY + gap1 + ":" + gap2)
  }

  /** The text of a settings file with the key, its colon and its object in it. */
  function Settings(before: string, gap1: string, gap2: string, body: seq<Piece>, after: string): string {
    Head(before, gap1, gap2) + Render(Block(body)) + after
  }

  lemma MatchIs(before: string, key: string, gap1: string, gap2: string, rest: string)
    requires key != "" && rest != "" && !IsSpace(rest[0])
    requires (forall c <- gap1 :: IsSpace(c)) && (forall c <- gap2 :: IsSpace(c))
    ensures MatchEnd(before + (key + gap1 + ":" + gap2) + rest, |before|, key)
        == Some(|before| + |key| + |gap1| + 1 + |gap2|)
  {
    var text := before + (key + gap1 + ":" + gap2) + rest;
    var k := |before| + |key|;
    assert text[|before|..k] == key;
    assert text[k..k + |gap1|] == gap1 && text[k + |gap1|] == ':';
    SkipsExactly(text, k, gap1);
    var g := k + |gap1| + 1;
    assert text[g..g + |gap2|] == gap2 && text[g + |gap2|] == rest[0];
    SkipsExactly(text, g, gap2);
  }

  lemma HeadMatches(before: string, gap1: string, gap2: string, body: seq<Piece>, after: string)
    requires (forall c <- gap1 :: IsSpace(c)) && (forall c <- gap2 :: IsSpace(c))
    ensures MatchEnd(Settings(before, gap1, gap2, body, after), |before|, KEY) == Some(|Head(before, gap1, gap2)|)
  {
    var key, obj := KEY, Render(Block(body));
    assert before + (key + gap1 + ":" + gap2) + (obj + after) == Settings(before, gap1, gap2, body, after);
    MatchIs(before, key, gap1, gap2, obj + after);
  }

  lemma ObjectCloses(head: string, body: seq<Piece>, after: string)
    requires WellFormedAll(body)
    ensures var text := head + Render(Block(body)) + after;
            var end := ScanFrom(text, |head|, START);
            text[|head|] == '{' && end.Some? && text[end.value + 1..] == after
  {
    ScanStopsAtMatchingBrace(head, body, after);
    var text := head + Render(Block(body)) + after;
    assert text[|head| + |Render(Block(body))|..] == after;
    assert text[|head|] == Render(Block(body))[0];
  }

  lemma HeadStartsWith(before: string, gap1: string, gap2: string, rest: string)
    ensures (Head(before, gap1, gap2) + rest)[..|before|] == before
  {
  }

  predicate NoMatchBefore(text: string, n: nat, key: string) {
    forall j :: 0 <= j < n ==> MatchEnd(text, j, key).None?
  }

  lemma FirstMatchIs(text: string, n: nat, key: string)
    requires n <= |text| && NoMatchBefore(text, n, key) && MatchEnd(text, n, key).Some?
    ensures Search(text, 0, key) == Some(n)
  {
  }

  /**
   The repair empties the object of the first `mcpServers` key and preserves every character
   before the key and after the object's closing brace.
   */
  lemma RepairPreservesTheRest(before: string, gap1: string, gap2: string, body: seq<Piece>, after: string)
    requires WellFormedAll(body)
    requires (forall c <- gap1 :: IsSpace(c)) && (forall c <- gap2 :: IsSpace(c))
    requires NoMatchBefore(Settings(before, gap1, gap2, body, after), |before|, KEY)
    ensures Repaired(Settings(before, gap1, gap2, body, after), KEY) == before + EMPTIED + after
  {
    HeadMatches(before, gap1, gap2, body, after);
    FirstMatchIs(Settings(before, gap1, gap2, body, after), |before|, KEY);
    ObjectCloses(Head(before, gap1, gap2), body, after);
    HeadStartsWith(before, gap1, gap2, Render(Block(body)) + after);
    assert Head(before, gap1, gap2) + (Render(Block(body)) + after) == Settings(before, gap1, gap2, body, after);
  }

  /** A text in which no key is found is kept. */
  lemma KeylessTextIsKept(text: string, key: string)
    requires NoMatchBefore(text, |text|, key)
    ensures Repaired(text, key) == text
  {
  }

  /** So is a text that ends inside the object of its first key. */
  lemma UnclosedObjectIsKept(before: string, gap1: string, gap2: string, body: seq<Piece>)
    requires WellFormedAll(body)
    requires (forall c <- gap1 :: IsSpace(c)) && (forall c <- gap2 :: IsSpace(c))
    requires NoMatchBefore(Head(before, gap1, gap2) + (['{'] + RenderAll(body)), |before|, KEY)
    ensures Repaired(Head(before, gap1, gap2) + (['{'] + RenderAll(body)), KEY)
         == Head(before, gap1, gap2) + (['{'] + RenderAll(body))
  {
    var key, open := KEY, ['{'] + RenderAll(body);
    var head, text := Head(before, gap1, gap2), Head(before, gap1, gap2) + open;
    assert before + (key + gap1 + ":" + gap2) + open == text;
    MatchIs(before, key, gap1, gap2, open);
    assert MatchEnd(text, |before|, key) == Some(|head|);
    FirstMatchIs(text, |before|, key);
    UnclosedObjectHasNoEnd(head, body);
  }
}
