/**
 Expansion of `${VAR}` and `${VAR:default}` in configuration files: Python substitutes all
 tokens in one pass, Rust replaces the text of each captured token everywhere, one token after
 the other. Both use the pattern "dollar, open brace, one or more characters other than a close
 brace, close brace".
 */
module EnvExpansion {
  import opened Text
  import opened Wrappers

  type Env = map<string, string>

  // ------------------------------------------------------------------ tokens

  predicate OpensToken(s: string) {
    |s| >= 2 && s[0] == '$' && s[1] == '{'
  }

  /** The token that the pattern matches at the start of `s`. */
  function TokenAtStart(s: string): (r: Option<string>)
    ensures r.Some? ==> r.value != "" && '}' !in r.value && |s| >= |r.value| + 3
  {
    if !OpensToken(s) then None
    else
      var rest := s[2..];
      var j := IndexOf(rest, '}');
      if 0 < j < |rest| then Some(rest[..j]) else None
  }

  function Written(token: string): string {
    ['$', '{'] + token + ['}']
  }

  /** The value of the variable before the first colon, or the default after it. */
  function ValueOf(token: string, env: Env): string {
    var j := IndexOf(token, ':');
    var name := token[..j];
    if name in env then env[name] else if j < |token| then token[j + 1..] else ""
  }

  // ------------------------------------------------------------------ the two expansions

  /** Python: `re.sub` with the expander. */
  function PythonExpand(s: string, env: Env): string {
    if s == "" then ""
    else match TokenAtStart(s)
      case Some(t) => ValueOf(t, env) + PythonExpand(s[|t| + 3..], env)
      case None => [s[0]] + PythonExpand(s[1..], env)
  }

  /** Rust: `captures_iter`, the tokens from left to right. */
  function Captures(s: string): seq<string> {
    if s == "" then []
    else match TokenAtStart(s)
      case Some(t) => [t] + Captures(s[|t| + 3..])
      case None => Captures(s[1..])
  }

  /** Rust: `str::replace`, every non-overlapping occurrence from left to right. */
  function ReplaceAll(s: string, pattern: string, value: string): string
    requires pattern != ""
    decreases |s|
  {
    if s == "" then ""
    else if pattern <= s then value + ReplaceAll(s[|pattern|..], pattern, value)
    else [s[0]] + ReplaceAll(s[1..], pattern, value)
  }

  function ReplaceEach(s: string, tokens: seq<string>, env: Env): string
    decreases |tokens|
  {
    if tokens == [] then s
    else
      var last := tokens[|tokens| - 1];
      ReplaceAll(ReplaceEach(s, tokens[..|tokens| - 1], env), Written(last), ValueOf(last, env))
  }

  lemma ReplaceEachStep(s: string, tokens: seq<string>, i: nat, env: Env)
    requires i < |tokens|
    ensures ReplaceEach(s, tokens[..i + 1], env)
         == ReplaceAll(ReplaceEach(s, tokens[..i], env), Written(tokens[i]), ValueOf(tokens[i], env))
  {
    var some := tokens[..i + 1];
    assert some[..|some| - 1] == tokens[..i] && some[|some| - 1] == tokens[i];
  }

  /** The Rust loop. */
  method RustExpand(content: string, env: Env) returns (expanded: string)
    ensures expanded == ReplaceEach(content, Captures(content), env)
  {
    expanded := content;
    var captures := Captures(content);
    for i := 0 to |captures|
      invariant expanded == ReplaceEach(content, captures[..i], env)
    {
      ReplaceEachStep(content, captures, i, env);
      expanded := ReplaceAll(expanded, Written(captures[i]), ValueOf(captures[i], env));
    }
    assert captures[..|captures|] == captures;
  }

  // ------------------------------------------------------------------ where they agree

  datatype Piece = Literal(c: char) | Token(body: string)

  /** Every dollar sign of the document starts a token, and none stands inside one. */
  predicate DollarsStartTokens(s: string) {
    s == "" ||
    match TokenAtStart(s)
    case Some(t) => '$' !in t && DollarsStartTokens(s[|t| + 3..])
    case None => s[0] != '$' && DollarsStartTokens(s[1..])
  }

  function Pieces(s: string): seq<Piece> {
    if s == "" then []
    else match TokenAtStart(s)
      case Some(t) => [Token(t)] + Pieces(s[|t| + 3..])
      case None => [Literal(s[0])] + Pieces(s[1..])
  }

  /** The value from its `i`-th character on starts a token, or does once text is appended to it. */
  predicate OpensAt(value: string, i: nat)
    requires i < |value|
  {
    value[i] == '$' &&
    (i + 1 == |value| ||
     (value[i + 1] == '{' &&
      var rest := value[i + 2..];
      var body := rest[..IndexOf(rest, '}')];
      '$' !in body && (body != "" || |body| == |rest|)))
  }

  /** Some dollar of the value can open a token, in the value or together with what follows it. */
  predicate CanOpen(value: string) {
    exists i :: 0 <= i < |value| && OpensAt(value, i)
  }

  predicate Clean(p: Piece) {
    match p
    case Literal(c) => c != '$'
    case Token(t) => t != "" && '$' !in t && '}' !in t
  }

  /** A piece as it stands once the tokens in `done` are replaced by their values. */
  function Show(p: Piece, done: set<string>, env: Env): string {
    match p
    case Literal(c) => [c]
    case Token(t) => if t in done then ValueOf(t, env) else Written(t)
  }

  /** The document in which the tokens in `done` are replaced by their values and the others still written out. */
  function Partly(ps: seq<Piece>, done: set<string>, env: Env): string {
    if ps == [] then "" else Show(ps[0], done, env) + Partly(ps[1..], done, env)
  }

  lemma CanOpenLater(v: string)
    requires v != "" && CanOpen(v[1..])
    ensures CanOpen(v)
  {
    var i :| 0 <= i < |v| - 1 && OpensAt(v[1..], i);
    if i + 1 < |v| - 1 { assert v[1..][i + 2..] == v[i + 3..]; }
    assert OpensAt(v, i + 1);
  }

  lemma PrefixAfterTwo(a: string, b: string)
    requires |a| >= 2 && a <= b
    ensures a[2..] <= b[2..]
  {
  }

  /** A written token that starts inside a value makes the value open a token there. */
  lemma MatchMeansOpen(v: string, s: string, t: string)
    requires v != "" && Clean(Token(t)) && Written(t) <= v + s
    ensures OpensAt(v, 0)
  {
    assert (v + s)[0] == Written(t)[0] && (v + s)[1] == Written(t)[1];
    if |v| > 1 {
      PrefixAfterTwo(Written(t), v + s);
      WrittenTail(t);
      assert (v + s)[2..] == v[2..] + s;
      WrittenBody(t, v[2..], s);
    }
  }

  lemma WrittenTail(t: string)
    ensures Written(t)[2..] == t + ['}']
  {
  }

  lemma WrittenBody(t: string, rest: string, s: string)
    requires Clean(Token(t)) && t + ['}'] <= rest + s
    ensures var body := rest[..IndexOf(rest, '}')]; '$' !in body && (body != "" || |body| == |rest|)
  {
    var text := rest + s;
    assert text[..|t|] == t && text[|t|] == '}';
    if |t| < |rest| {
      assert rest[..|t|] == t && rest[|t|] == '}';
      IndexOfIs(rest, '}', |t|);
    } else {
      assert rest == t[..|rest|];
      assert '}' !in rest && '$' !in rest;
      assert IndexOf(rest, '}') == |rest|;
    }
  }

  lemma {:induction false} ReplaceSkips(v: string, s: string, t: string, value: string)
    requires Clean(Token(t)) && !CanOpen(v)
    ensures ReplaceAll(v + s, Written(t), value) == v + ReplaceAll(s, Written(t), value)
    decreases |v|
  {
    if v == "" {
      assert v + s == s;
    } else {
      assert (v + s)[1..] == v[1..] + s;
      if Written(t) <= v + s { MatchMeansOpen(v, s, t); }
      if CanOpen(v[1..]) { CanOpenLater(v); }
      ReplaceSkips(v[1..], s, t, value);
    }
  }

  /** A written token is a prefix of another one only if they are the same token. */
  lemma WrittenIsPrefixOnlyOfItself(t: string, u: string, s: string)
    requires '}' !in t && '}' !in u && Written(t) <= Written(u) + s
    ensures t == u
  {
    var text := (Written(u) + s)[2..];
    assert text[|u|] == '}' && text[..|u|] == u;
    assert text[|t|] == Written(t)[|t| + 2] && text[..|t|] == Written(t)[2..][..|t|] == t;
    IndexOfIs(text, '}', |t|);
    IndexOfIs(text, '}', |u|);
  }

  lemma DollarFreeCannotOpen(v: string)
    requires '$' !in v
    ensures !CanOpen(v)
  {
  }

  lemma SkipWritten(u: string, rest: string, t: string, value: string)
    requires Clean(Token(t)) && '$' !in u && !(Written(t) <= Written(u) + rest)
    ensures ReplaceAll(Written(u) + rest, Written(t), value) == Written(u) + ReplaceAll(rest, Written(t), value)
  {
    var tail := ['{'] + u + ['}'];
    assert Written(u) == ['$'] + tail;
    assert (Written(u) + rest)[1..] == tail + rest;
    DollarFreeCannotOpen(tail);
    ReplaceSkips(tail, rest, t, value);
  }

  lemma ReplaceInPiece(p: Piece, done: set<string>, env: Env, t: string, rest: string)
    requires Clean(p) && Clean(Token(t))
    requires forall u <- done :: !CanOpen(ValueOf(u, env))
    ensures ReplaceAll(Show(p, done, env) + rest, Written(t), ValueOf(t, env))
         == Show(p, done + {t}, env) + ReplaceAll(rest, Written(t), ValueOf(t, env))
  {
    var pattern, value := Written(t), ValueOf(t, env);
    match p
    case Literal(c) =>
      DollarFreeCannotOpen([c]);
      ReplaceSkips([c], rest, t, value);
    case Token(u) =>
      if u in done {
        ReplaceSkips(ValueOf(u, env), rest, t, value);
      } else if u == t {
        assert pattern <= pattern + rest && (pattern + rest)[|pattern|..] == rest;
      } else {
        if pattern <= Written(u) + rest {
          WrittenIsPrefixOnlyOfItself(t, u, rest);
        }
        SkipWritten(u, rest, t, value);
      }
  }

  /** Replacing one token everywhere, also when its value already stands in the text. */
  lemma {:induction false} ReplaceOneToken(ps: seq<Piece>, done: set<string>, env: Env, t: string)
    requires (forall p <- ps :: Clean(p)) && Clean(Token(t))
    requires forall u <- done :: !CanOpen(ValueOf(u, env))
    ensures ReplaceAll(Partly(ps, done, env), Written(t), ValueOf(t, env)) == Partly(ps, done + {t}, env)
  {
    if ps != [] {
      ReplaceOneToken(ps[1..], done, env, t);
      ReplaceInPiece(ps[0], done, env, t, Partly(ps[1..], done, env));
    }
  }

  function Members(tokens: seq<string>): set<string> {
    set t | t in tokens
  }

  lemma MembersOfLast(tokens: seq<string>)
    requires tokens != []
    ensures Members(tokens) == Members(tokens[..|tokens| - 1]) + {tokens[|tokens| - 1]}
  {
    var init := tokens[..|tokens| - 1];
    assert tokens == init + [tokens[|tokens| - 1]];
  }

  lemma {:induction false} ReplaceEachIsPartly(ps: seq<Piece>, tokens: seq<string>, env: Env)
    requires forall p <- ps :: Clean(p)
    requires forall t <- tokens :: Clean(Token(t)) && !CanOpen(ValueOf(t, env))
    ensures ReplaceEach(Partly(ps, {}, env), tokens, env) == Partly(ps, Members(tokens), env)
    decreases |tokens|
  {
    if tokens == [] {
      assert Members(tokens) == {};
    } else {
      var init, last := tokens[..|tokens| - 1], tokens[|tokens| - 1];
      assert forall t <- init :: t in tokens;
      ReplaceEachIsPartly(ps, init, env);
      MembersOfLast(tokens);
      ReplaceOneToken(ps, Members(init), env, last);
    }
  }

  lemma TokenSplitsText(s: string)
    requires TokenAtStart(s).Some?
    ensures s == Written(TokenAtStart(s).value) + s[|TokenAtStart(s).value| + 3..]
  {
    var t := TokenAtStart(s).value;
    assert t == s[2..][..|t|] == s[2..|t| + 2];
    assert s[2..][|t|] == s[|t| + 2] == '}';
    assert s[..2] == ['$', '{'];
    assert Written(t) == s[..|t| + 3];
  }

  lemma {:induction false} PiecesAreClean(s: string)
    requires DollarsStartTokens(s)
    ensures forall p <- Pieces(s) :: Clean(p)
    ensures forall t <- Captures(s) :: Clean(Token(t))
    decreases |s|
  {
    if s != "" {
      match TokenAtStart(s)
      case Some(t) => PiecesAreClean(s[|t| + 3..]);
      case None => PiecesAreClean(s[1..]);
    }
  }

  lemma {:induction false} PiecesWrittenOut(s: string, env: Env)
    ensures Partly(Pieces(s), {}, env) == s
    decreases |s|
  {
    if s != "" {
      match TokenAtStart(s)
      case Some(t) =>
        TokenSplitsText(s);
        PiecesWrittenOut(s[|t| + 3..], env);
      case None =>
        PiecesWrittenOut(s[1..], env);
        assert s == [s[0]] + s[1..];
    }
  }

  lemma CapturesOfToken(s: string, t: string)
    requires TokenAtStart(s) == Some(t)
    ensures t in Captures(s) && forall u <- Captures(s[|t| + 3..]) :: u in Captures(s)
  {
    assert Captures(s) == [t] + Captures(s[|t| + 3..]);
  }

  lemma {:induction false} PiecesExpanded(s: string, all: set<string>, env: Env)
    requires forall t <- Captures(s) :: t in all
    ensures Partly(Pieces(s), all, env) == PythonExpand(s, env)
    decreases |s|
  {
    if s != "" {
      match TokenAtStart(s)
      case Some(t) =>
        CapturesOfToken(s, t);
        PiecesExpanded(s[|t| + 3..], all, env);
      case None =>
        PiecesExpanded(s[1..], all, env);
    }
  }

  /**
   Rust's repeated global replacement computes what Python's single pass does, for every document
   whose dollar signs only start tokens and every environment whose substituted values cannot
   open a token.
   */
  lemma RustExpandsLikePython(content: string, env: Env)
    requires DollarsStartTokens(content)
    requires forall t <- Captures(content) :: !CanOpen(ValueOf(t, env))
    ensures ReplaceEach(content, Captures(content), env) == PythonExpand(content, env)
  {
    PiecesAreClean(content);
    PiecesWrittenOut(content, env);
    ReplaceEachIsPartly(Pieces(content), Captures(content), env);
    PiecesExpanded(content, Members(Captures(content)), env);
  }

  lemma ReplaceAtStart(pattern: string, rest: string, value: string)
    requires pattern != ""
    ensures ReplaceAll(pattern + rest, pattern, value) == value + ReplaceAll(rest, pattern, value)
  {
    assert (pattern + rest)[|pattern|..] == rest;
  }

  lemma ReplaceEachTwo(s: string, t: string, u: string, env: Env)
    ensures ReplaceEach(s, [t, u], env)
         == ReplaceAll(ReplaceAll(s, Written(t), ValueOf(t, env)), Written(u), ValueOf(u, env))
  {
    assert [t, u][..1] == [t] && [t][..0] == [];
    assert ReplaceEach(s, [t], env) == ReplaceAll(ReplaceEach(s, [], env), Written(t), ValueOf(t, env));
  }

  // ------------------------------------------------------------------ what a token expands to

  lemma OneToken(t: string, rest: string, env: Env)
    requires t != "" && '}' !in t
    ensures TokenAtStart(Written(t) + rest) == Some(t)
    ensures Captures(Written(t) + rest) == [t] + Captures(rest)
    ensures PythonExpand(Written(t) + rest, env) == ValueOf(t, env) + PythonExpand(rest, env)
  {
    var s := Written(t) + rest;
    assert s[2..] == t + ['}'] + rest && s[|t| + 3..] == rest;
    assert s[2..][|t|] == '}' && s[2..][..|t|] == t;
    IndexOfIs(s[2..], '}', |t|);
  }

  /** What a token is replaced by: the variable before its first colon if it is set, or else what follows the colon. */
  lemma TokenValue(name: string, default: string, env: Env)
    requires ':' !in name
    ensures ValueOf(name + ":" + default, env) == if name in env then env[name] else default
    ensures ValueOf(name, env) == if name in env then env[name] else ""
  {
    var token := name + ":" + default;
    assert token[..|name|] == name && token[|name| + 1..] == default;
    IndexOfIs(token, ':', |name|);
    assert name[..|name|] == name;
  }

  function WithDefault(name: string, default: string): string {
    "${" + name + ":" + default + "}"
  }

  lemma WrittenWithDefault(name: string, default: string)
    ensures WithDefault(name, default) == Written(name + ":" + default)
  {
  }

  /**
   In Python a token with a default expands to the variable if it is set, or else to the default,
   which may hold further colons; the rest of the document is expanded on its own.
   */
  lemma PythonExpandsDefault(name: string, default: string, rest: string, env: Env)
    requires ':' !in name && '}' !in name && '}' !in default
    ensures PythonExpand(WithDefault(name, default) + rest, env)
         == (if name in env then env[name] else default) + PythonExpand(rest, env)
  {
    var token := name + ":" + default;
    TokenValue(name, default, env);
    OneToken(token, rest, env);
    WrittenWithDefault(name, default);
  }

  /** A token without a colon expands to the variable, or to nothing if it is not set. */
  lemma PythonExpandsVariable(name: string, rest: string, env: Env)
    requires name != "" && ':' !in name && '}' !in name
    ensures PythonExpand(Written(name) + rest, env)
         == (if name in env then env[name] else "") + PythonExpand(rest, env)
  {
    TokenValue(name, "", env);
    OneToken(name, rest, env);
  }

  lemma NoTokenFirst(literal: string, s: string)
    requires literal != "" && '$' !in literal
    ensures TokenAtStart(literal + s) == None && (literal + s)[0] == literal[0] != '$'
    ensures (literal + s)[1..] == literal[1..] + s
  {
    assert literal[0] in literal;
  }

  lemma HeadFirst(s: string, rest: string)
    requires s != ""
    ensures [s[0]] + (s[1..] + rest) == s + rest
  {
  }

  /** Text without a dollar sign is kept. */
  lemma {:induction false} PythonKeepsText(text: string, rest: string, env: Env)
    requires '$' !in text
    ensures PythonExpand(text + rest, env) == text + PythonExpand(rest, env)
    decreases |text|
  {
    if text == "" {
      assert text + rest == rest;
    } else {
      NoTokenFirst(text, rest);
      PythonKeepsText(text[1..], rest, env);
      HeadFirst(text, PythonExpand(rest, env));
    }
  }

  /** Braces with nothing between them are no token. */
  lemma EmptyTokenIsKept(rest: string, env: Env)
    ensures PythonExpand(Written("") + rest, env) == Written("") + PythonExpand(rest, env)
  {
    var braces := ['{'] + ['}'];
    assert Written("") + rest == ['$'] + (braces + rest);
    DollarIsKept(braces + rest, env);
    PythonKeepsText(braces, rest, env);
  }

  lemma DollarIsKept(rest: string, env: Env)
    requires TokenAtStart(['$'] + rest).None?
    ensures PythonExpand(['$'] + rest, env) == ['$'] + PythonExpand(rest, env)
  {
    assert (['$'] + rest)[1..] == rest;
  }

  /** A document whose braces never close is kept as it is. */
  lemma {:induction false} PythonKeepsUnclosed(s: string, env: Env)
    requires '}' !in s
    ensures PythonExpand(s, env) == s
    decreases |s|
  {
    if s != "" {
      assert TokenAtStart(s).None?;
      PythonKeepsUnclosed(s[1..], env);
      assert s == [s[0]] + s[1..];
    }
  }

  lemma {:induction false} LiteralCapturesNothing(literal: string, s: string)
    requires '$' !in literal
    ensures Captures(literal + s) == Captures(s)
  {
    if literal == "" {
      assert literal + s == s;
    } else {
      NoTokenFirst(literal, s);
      LiteralCapturesNothing(literal[1..], s);
    }
  }

  lemma {:induction false} RustKeepsText(text: string, rest: string, t: string, value: string)
    requires '$' !in text
    ensures ReplaceAll(text + rest, Written(t), value) == text + ReplaceAll(rest, Written(t), value)
    decreases |text|
  {
    if text == "" {
      assert text + rest == rest;
    } else {
      var s := text + rest;
      assert s[0] != '$' && s[1..] == text[1..] + rest;
      assert Written(t)[0] == '$';
      RustKeepsText(text[1..], rest, t, value);
    }
  }

  lemma RustReplacesToken(before: string, token: string, after: string, env: Env)
    requires token != "" && '}' !in token && '$' !in before && '$' !in after
    ensures var content := before + (Written(token) + after);
            ReplaceEach(content, Captures(content), env) == before + ValueOf(token, env) + after
  {
    var value, written := ValueOf(token, env), Written(token) + after;
    OneToken(token, after, env);
    LiteralCapturesNothing(before, written);
    LiteralCapturesNothing(after, "");
    RustKeepsText(before, written, token, value);
    RustKeepsText(after, "", token, value);
    assert after + "" == after;
    ReplaceAtStart(Written(token), after, value);
    assert [token][..0] == [];
    assert ReplaceEach(before + written, [], env) == before + written;
  }

  /** The same token alone in a document for Rust, whatever the value and the default contain. */
  lemma RustExpandsDefault(before: string, name: string, default: string, after: string, env: Env)
    requires ':' !in name && '}' !in name && '}' !in default && '$' !in before && '$' !in after
    ensures var content := before + (WithDefault(name, default) + after);
            ReplaceEach(content, Captures(content), env)
            == before + (if name in env then env[name] else default) + after
  {
    var token := name + ":" + default;
    TokenValue(name, default, env);
    RustReplacesToken(before, token, after, env);
    WrittenWithDefault(name, default);
  }

  lemma RustExpandsVariable(before: string, name: string, after: string, env: Env)
    requires name != "" && ':' !in name && '}' !in name && '$' !in before && '$' !in after
    ensures var content := before + (Written(name) + after);
            ReplaceEach(content, Captures(content), env) == before + (if name in env then env[name] else "") + after
  {
    TokenValue(name, "", env);
    RustReplacesToken(before, name, after, env);
  }

  // ------------------------------------------------------------------ exactly which values are safe

  predicate OccursAt(s: string, t: string, p: nat) {
    p + |t| + 3 <= |s| && s[p..p + |t| + 3] == Written(t)
  }

  lemma OccursLater(s: string, t: string, p: nat, k: nat)
    requires OccursAt(s, t, p) && k <= p
    ensures OccursAt(s[k..], t, p - k)
  {
    assert s[k..][p - k..p - k + |t| + 3] == s[p..p + |t| + 3];
  }

  /** A clean token does not overlap with itself. */
  lemma NoOverlap(s: string, t: string, p: nat)
    requires Clean(Token(t)) && Written(t) <= s && OccursAt(s, t, p) && p > 0
    ensures p >= |t| + 3
  {
    assert s[p] == s[p..p + |t| + 3][0] == '$';
    assert forall k :: 0 <= k < |t| + 3 ==> s[k] == Written(t)[k];
    assert forall k :: 0 < k < |t| + 3 ==> Written(t)[k] != '$';
  }

  lemma {:induction false} NeverGrows(s: string, t: string, w: string)
    requires |w| <= |t| + 3
    ensures |ReplaceAll(s, Written(t), w)| <= |s|
    decreases |s|
  {
    if s != "" {
      if Written(t) <= s {
        NeverGrows(s[|t| + 3..], t, w);
      } else {
        NeverGrows(s[1..], t, w);
      }
    }
  }

  lemma {:induction false} ShrinksOnce(s: string, t: string, w: string, p: nat)
    requires OccursAt(s, t, p) && |w| <= |t| + 3
    ensures |ReplaceAll(s, Written(t), w)| <= |s| - (|t| + 3 - |w|)
    decreases |s|
  {
    if Written(t) <= s {
      NeverGrows(s[|t| + 3..], t, w);
    } else {
      assert p > 0;
      OccursLater(s, t, p, 1);
      ShrinksOnce(s[1..], t, w, p - 1);
    }
  }

  lemma {:induction false} ShrinksTwice(s: string, t: string, w: string, p: nat, q: nat)
    requires Clean(Token(t)) && OccursAt(s, t, p) && OccursAt(s, t, q) && p + |t| + 3 <= q && |w| <= |t| + 3
    ensures |ReplaceAll(s, Written(t), w)| <= |s| - 2 * (|t| + 3 - |w|)
    decreases |s|
  {
    if Written(t) <= s {
      var other := if p == 0 then q else p;
      NoOverlap(s, t, other);
      OccursLater(s, t, other, |t| + 3);
      ShrinksOnce(s[|t| + 3..], t, w, other - |t| - 3);
    } else {
      assert p > 0;
      OccursLater(s, t, p, 1);
      OccursLater(s, t, q, 1);
      ShrinksTwice(s[1..], t, w, p - 1, q - 1);
    }
  }

  /** The token that a value opens at `i`, and the literal text that completes it. */
  lemma Complete(v: string, i: nat) returns (u: string, literal: string)
    requires i < |v| && OpensAt(v, i)
    ensures Clean(Token(u)) && '$' !in literal && OccursAt(v + literal, u, i)
  {
    if i + 1 == |v| {
      u, literal := "x", "{x}";
    } else {
      var rest := v[i + 2..];
      var j := IndexOf(rest, '}');
      if j < |rest| {
        u, literal := rest[..j], "";
        assert v + literal == v;
        assert v[i..i + |u| + 3] == Written(u);
      } else {
        u, literal := rest + "x", "x}";
        assert rest[..j] == rest;
        assert (v + literal)[i..] == Written(u);
      }
    }
  }

  lemma {:induction false} LiteralStartsNoToken(literal: string, s: string)
    requires '$' !in literal
    ensures DollarsStartTokens(literal + s) == DollarsStartTokens(s)
  {
    if literal == "" {
      assert literal + s == s;
    } else {
      NoTokenFirst(literal, s);
      LiteralStartsNoToken(literal[1..], s);
    }
  }

  lemma ValueOfUnset(u: string, env: Env)
    requires '$' !in u && u[..IndexOf(u, ':')] !in env
    ensures |ValueOf(u, env)| <= |u| && '$' !in ValueOf(u, env)
  {
  }

  /** A variable name other than the token's own. */
  function OtherName(u: string): (a: string)
    ensures Clean(Token(a)) && ':' !in a && a != u && a != u[..IndexOf(u, ':')]
  {
    if u[..IndexOf(u, ':')] == "A" then "B"
    else
      assert u == "A" ==> IndexOf(u, ':') == 1;
      "A"
  }

  function Document(a: string, literal: string, u: string): string {
    Written(a) + (literal + Written(u))
  }

  lemma DocumentReads(a: string, literal: string, u: string, env: Env)
    requires Clean(Token(a)) && Clean(Token(u)) && '$' !in literal
    ensures DollarsStartTokens(Document(a, literal, u)) && Captures(Document(a, literal, u)) == [a, u]
    ensures PythonExpand(Document(a, literal, u), env) == ValueOf(a, env) + (literal + ValueOf(u, env))
  {
    assert Written(u) + "" == Written(u) && ValueOf(u, env) + "" == ValueOf(u, env);
    OneToken(u, "", env);
    LiteralStartsNoToken(literal, Written(u));
    LiteralCapturesNothing(literal, Written(u));
    PythonKeepsText(literal, Written(u), env);
    OneToken(a, literal + Written(u), env);
    assert Written(u)[|u| + 3..] == "";
    assert Document(a, literal, u)[|a| + 3..] == literal + Written(u);
  }

  lemma RustReplacesFirst(a: string, literal: string, u: string, v: string)
    requires Clean(Token(a)) && Clean(Token(u)) && a != u && '$' !in literal
    ensures ReplaceAll(Document(a, literal, u), Written(a), v) == v + (literal + Written(u))
  {
    ReplaceAtStart(Written(a), literal + Written(u), v);
    DollarFreeCannotOpen(literal);
    ReplaceSkips(literal, Written(u), a, v);
    assert Written(u) + "" == Written(u);
    if Written(a) <= Written(u) + "" { WrittenIsPrefixOnlyOfItself(a, u, ""); }
    SkipWritten(u, "", a, v);
  }

  lemma SecondReplacementShrinks(v: string, i: nat, u: string, literal: string, w: string)
    requires Clean(Token(u)) && OccursAt(v + literal, u, i) && |w| <= |u|
    ensures |ReplaceAll(v + (literal + Written(u)), Written(u), w)| < |v + (literal + w)|
  {
    var s := v + literal + Written(u);
    assert v + (literal + Written(u)) == s;
    assert s[i..i + |u| + 3] == (v + literal)[i..i + |u| + 3];
    assert s[|v + literal|..] == Written(u);
    ShrinksTwice(s, u, w, i, |v + literal|);
  }

  /** A document and an environment on which a value that can open a token is expanded differently. */
  lemma OpenValueDiffers(v: string) returns (content: string, env: Env)
    requires CanOpen(v)
    ensures DollarsStartTokens(content)
    ensures forall t <- Captures(content) :: ValueOf(t, env) == v || !CanOpen(ValueOf(t, env))
    ensures |ReplaceEach(content, Captures(content), env)| < |PythonExpand(content, env)|
  {
    var i :| 0 <= i < |v| && OpensAt(v, i);
    var u, literal := Complete(v, i);
    var a := OtherName(u);
    content, env := Document(a, literal, u), map[a := v];
    var w := ValueOf(u, env);
    TokenValue(a, "", env);
    ValueOfUnset(u, env);
    DollarFreeCannotOpen(w);
    DocumentReads(a, literal, u, env);
    ReplaceEachTwo(content, a, u, env);
    RustReplacesFirst(a, literal, u, v);
    SecondReplacementShrinks(v, i, u, literal, w);
  }

  /** Rust and Python agree on every document whose captured values are `v` or cannot open a token. */
  ghost predicate AgreeFor(v: string) {
    forall content: string, env: Env ::
      DollarsStartTokens(content)
      && (forall t <- Captures(content) :: ValueOf(t, env) == v || !CanOpen(ValueOf(t, env)))
      ==> ReplaceEach(content, Captures(content), env) == PythonExpand(content, env)
  }

  /** The values for which repeated replacement is a single pass are exactly those that cannot open a token. */
  lemma AgreeIff(v: string)
    ensures AgreeFor(v) <==> !CanOpen(v)
  {
    if CanOpen(v) {
      var content, env := OpenValueDiffers(v);
      assert ReplaceEach(content, Captures(content), env) != PythonExpand(content, env);
    } else {
      forall content: string, env: Env
        | DollarsStartTokens(content)
          && forall t <- Captures(content) :: ValueOf(t, env) == v || !CanOpen(ValueOf(t, env))
        ensures ReplaceEach(content, Captures(content), env) == PythonExpand(content, env)
      {
        RustExpandsLikePython(content, env);
      }
    }
  }
}
