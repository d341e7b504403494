/** The C++ command-line parser: flags with a following value or a value after an equals sign. */
module CommandLine {
  import opened Text
  import opened Wrappers

  // ------------------------------------------------------------------ data

  datatype Field = Name | Host | Port | GrpcHost | GrpcPort | Conf | LogLevel | Key | Profile

  /** What a flag sets: a field of the record, or an entry of `extras`. */
  datatype Target = Builtin(field: Field) | Extra(name: string)

  datatype Flag = Flag(text: string, target: Target)

  datatype CLIArgs = CLIArgs(name: string, host: string, port: int, grpcHost: string, grpcPort: int, conf: string,
                             logLevel: string, key: string, profile: string, extras: map<string, string>)

  const EMPTY := CLIArgs("", "", 0, "", 0, "", "", "", "", map[])

  function FlagOf(field: Field): string {
    match field
    case Name => "--name"
    case Host => "--host"
    case Port => "--port"
    case GrpcHost => "--grpc_host"
    case GrpcPort => "--grpc_port"
    case Conf => "--conf"
    case LogLevel => "--log_level"
    case Key => "--key"
    case Profile => "--profile"
  }

  function LongFlag(field: Field): Flag {
    Flag(FlagOf(field), Builtin(field))
  }

  const SHORT_PROFILE := Flag("-p", Builtin(Profile))

  /** The order in which the parser tries the flags; the caller's specific flags come after these. */
  const BUILTINS := [LongFlag(Name), LongFlag(Host), LongFlag(Port), LongFlag(GrpcHost), LongFlag(GrpcPort),
                     LongFlag(Conf), LongFlag(LogLevel), LongFlag(Key), LongFlag(Profile), SHORT_PROFILE]

  function Specifics(names: seq<string>): (flags: seq<Flag>)
    ensures |flags| == |names|
    ensures forall i :: 0 <= i < |names| ==> flags[i] == Flag("--" + names[i], Extra(names[i]))
  {
    seq(|names|, i requires 0 <= i < |names| => Flag("--" + names[i], Extra(names[i])))
  }

  // ------------------------------------------------------------------ the parser

  function Assign(args: CLIArgs, target: Target, value: string): CLIArgs {
    match target
    case Extra(name) => args.(extras := args.extras[name := value])
    case Builtin(field) =>
      match field
      case Name => args.(name := value)
      case Host => args.(host := value)
      case Port => if Stoi(value).Some? then args.(port := Stoi(value).value) else args
      case GrpcHost => args.(grpcHost := value)
      case GrpcPort => if Stoi(value).Some? then args.(grpcPort := Stoi(value).value) else args
      case Conf => args.(conf := value)
      case LogLevel => args.(logLevel := value)
      case Key => args.(key := value)
      case Profile => args.(profile := value)
  }

  datatype Hit = Hit(target: Target, value: string, used: nat)

  /** Does the flag match the first argument, and which value does it take? */
  function MatchFlag(argv: seq<string>, flag: Flag): (r: Option<Hit>)
    requires argv != []
    ensures r.Some? ==> 1 <= r.value.used <= |argv|
  {
    if argv[0] == flag.text && |argv| > 1 then Some(Hit(flag.target, argv[1], 2))
    else if flag.text + "=" <= argv[0] then Some(Hit(flag.target, argv[0][|flag.text| + 1..], 1))
    else None
  }

  function FirstHit(argv: seq<string>, flags: seq<Flag>): (r: Option<Hit>)
    requires argv != []
    ensures r.Some? ==> 1 <= r.value.used <= |argv|
  {
    if flags == [] then None
    else if MatchFlag(argv, flags[0]).Some? then MatchFlag(argv, flags[0])
    else FirstHit(argv, flags[1..])
  }

  predicate AsksForHelp(arg: string) { arg == "--help" || arg == "-h" }

  /** None when the parser prints the help text and exits. */
  function Parsed(argv: seq<string>, flags: seq<Flag>, args: CLIArgs): Option<CLIArgs>
    decreases |argv|
  {
    if argv == [] then Some(args)
    else if AsksForHelp(argv[0]) then None
    else match FirstHit(argv, flags)
      case Some(hit) => Parsed(argv[hit.used..], flags, Assign(args, hit.target, hit.value))
      case None => Parsed(argv[1..], flags, args)
  }

  function Named(args: CLIArgs, program: string): CLIArgs {
    if args.name == "" then args.(name := Basename(program)) else args
  }

  predicate IsSlash(c: char) { c == '/' || c == '\\' }

  /** The part after the last slash of either kind. */
  function Basename(path: string): (base: string)
    ensures |base| <= |path| && path[|path| - |base|..] == base
    ensures forall c <- base :: !IsSlash(c)
    ensures |base| < |path| ==> IsSlash(path[|path| - |base| - 1])
  {
    if path == "" || IsSlash(path[|path| - 1]) then ""
    else
      var init := Basename(path[..|path| - 1]);
      assert path == path[..|path| - 1] + [path[|path| - 1]];
      init + [path[|path| - 1]]
  }

  /** Tries the flags in order, as the chain of tests does. */
  method FindFlag(argv: seq<string>, i: nat, flags: seq<Flag>) returns (r: Option<Hit>)
    requires i < |argv|
    ensures r == FirstHit(argv[i..], flags)
  {
    assert flags[0..] == flags;
    for k := 0 to |flags|
      invariant FirstHit(argv[i..], flags[k..]) == FirstHit(argv[i..], flags)
    {
      assert flags[k..][0] == flags[k] && flags[k..][1..] == flags[k + 1..];
      var arg, flag := argv[i], flags[k];
      if arg == flag.text && i + 1 < |argv| {
        return Some(Hit(flag.target, argv[i + 1], 2));
      }
      if flag.text + "=" <= arg {
        return Some(Hit(flag.target, arg[|flag.text| + 1..], 1));
      }
    }
    return None;
  }

  method Parse(program: string, argv: seq<string>, specificFlags: seq<string>) returns (r: Option<CLIArgs>)
    ensures var parsed := Parsed(argv, BUILTINS + Specifics(specificFlags), EMPTY);
      r == if parsed.Some? then Some(Named(parsed.value, program)) else None
  {
    var flags := BUILTINS + Specifics(specificFlags);
    var args := EMPTY;
    var i := 0;
    assert argv[0..] == argv;
    while i < |argv|
      invariant i <= |argv|
      invariant Parsed(argv[i..], flags, args) == Parsed(argv, flags, EMPTY)
    {
      if AsksForHelp(argv[i]) { return None; }
      var hit := FindFlag(argv, i, flags);
      match hit
      case Some(h) =>
        assert argv[i..][h.used..] == argv[i + h.used..];
        args := Assign(args, h.target, h.value);
        i := i + h.used;
      case None =>
        assert argv[i..][1..] == argv[i + 1..];
        i := i + 1;
    }
    if args.name == "" {
      args := args.(name := Basename(program));
    }
    return Some(args);
  }

  // ------------------------------------------------------------------ rendering

  /** What can stand on a command line: a flag with its value in either style, or a word that no flag takes. */
  datatype Item = Spaced(flag: Flag, value: string) | Joined(flag: Flag, value: string) | Word(text: string)

  function Written(item: Item): (words: seq<string>)
    ensures words != []
  {
    match item
    case Spaced(flag, value) => [flag.text, value]
    case Joined(flag, value) => [flag.text + "=" + value]
    case Word(text) => [text]
  }

  function Render(items: seq<Item>): seq<string> {
    if items == [] then [] else Written(items[0]) + Render(items[1..])
  }

  function Applied(args: CLIArgs, items: seq<Item>): CLIArgs
    decreases |items|
  {
    if items == [] then args
    else
      var before, last := Applied(args, items[..|items| - 1]), items[|items| - 1];
      if last.Word? then before else Assign(before, last.flag.target, last.value)
  }

  /**
   No flag asks for help, the same text never means two targets, and no flag followed by an equals
   sign starts another one.
   */
  predicate Unambiguous(flags: seq<Flag>) {
    && (forall f <- flags :: !AsksForHelp(f.text))
    && (forall f <- flags, g <- flags :: f.text == g.text ==> f.target == g.target)
    && (forall f <- flags, g <- flags :: !(f.text + "=" <= g.text))
  }

  predicate Taken(text: string, flags: seq<Flag>) {
    AsksForHelp(text) || exists f <- flags :: f.text == text || f.text + "=" <= text
  }

  predicate Fits(item: Item, flags: seq<Flag>) {
    if item.Word? then !Taken(item.text, flags) else item.flag in flags
  }

  lemma ShorterPrefix(a: string, b: string, text: string)
    requires a <= text && b <= text && |a| <= |b|
    ensures a <= b
  {
  }

  /** Flags that do not start one another cannot both be read off one argument. */
  lemma EqualsEndsFlag(f: string, g: string, value: string)
    requires !(f + "=" <= g) && !(g + "=" <= f) && f + "=" <= g + "=" + value
    ensures f == g
  {
    var text := g + "=" + value;
    assert g + "=" <= text && g <= text && f <= f + "=" <= text;
    if |f| < |g| {
      ShorterPrefix(f + "=", g, text);
    } else if |g| < |f| {
      ShorterPrefix(g + "=", f, text);
    } else {
      ShorterPrefix(f, g, text);
    }
  }

  lemma UnambiguousRest(flags: seq<Flag>)
    requires flags != [] && Unambiguous(flags)
    ensures Unambiguous(flags[1..])
  {
    assert forall f <- flags[1..] :: f in flags;
  }

  lemma {:induction false} SpacedIsFound(flag: Flag, value: string, rest: seq<string>, flags: seq<Flag>)
    requires flag in flags && Unambiguous(flags)
    ensures FirstHit([flag.text, value] + rest, flags) == Some(Hit(flag.target, value, 2))
  {
    var argv := [flag.text, value] + rest;
    if flags[0].text != flag.text {
      assert flags[0] in flags && argv[0] == flag.text;
      UnambiguousRest(flags);
      SpacedIsFound(flag, value, rest, flags[1..]);
    }
  }

  lemma {:induction false} JoinedIsFound(flag: Flag, value: string, rest: seq<string>, flags: seq<Flag>)
    requires flag in flags && Unambiguous(flags)
    ensures FirstHit([flag.text + "=" + value] + rest, flags) == Some(Hit(flag.target, value, 1))
  {
    var argv := [flag.text + "=" + value] + rest;
    assert flag.text + "=" <= argv[0] && argv[0][|flag.text| + 1..] == value;
    assert flags[0] in flags && argv[0] != flags[0].text;
    if flags[0].text != flag.text {
      if flags[0].text + "=" <= argv[0] { EqualsEndsFlag(flags[0].text, flag.text, value); }
      UnambiguousRest(flags);
      JoinedIsFound(flag, value, rest, flags[1..]);
    }
  }

  lemma {:induction false} WordIsSkipped(text: string, rest: seq<string>, flags: seq<Flag>)
    requires !Taken(text, flags)
    ensures FirstHit([text] + rest, flags) == None
  {
    if flags != [] {
      assert flags[0] in flags;
      WordIsSkipped(text, rest, flags[1..]);
    }
  }

  lemma HelpIsNotJoined(flag: string, value: string)
    ensures !AsksForHelp(flag + "=" + value)
  {
    assert '=' in flag + "=" + value by { assert (flag + "=" + value)[|flag|] == '='; }
  }

  /** One item at the head of a command line does what it says, and the rest is parsed after it. */
  lemma ParseOne(item: Item, rest: seq<string>, flags: seq<Flag>, args: CLIArgs)
    requires Unambiguous(flags) && Fits(item, flags)
    ensures Parsed(Written(item) + rest, flags, args)
         == Parsed(rest, flags, if item.Word? then args else Assign(args, item.flag.target, item.value))
  {
    var argv := Written(item) + rest;
    match item
    case Spaced(flag, value) =>
      SpacedIsFound(flag, value, rest, flags);
      assert argv[2..] == rest;
    case Joined(flag, value) =>
      JoinedIsFound(flag, value, rest, flags);
      HelpIsNotJoined(flag.text, value);
      assert argv[1..] == rest;
    case Word(text) =>
      WordIsSkipped(text, rest, flags);
      assert argv[1..] == rest;
  }

  lemma {:induction false} AppliedFirst(args: CLIArgs, items: seq<Item>)
    requires items != []
    ensures Applied(args, items)
         == Applied(if items[0].Word? then args else Assign(args, items[0].flag.target, items[0].value), items[1..])
    decreases |items|
  {
    var n := |items| - 1;
    if n > 0 {
      assert items[..n][1..] == items[1..][..n - 1];
      AppliedFirst(args, items[..n]);
    }
  }

  /** Rendering settings in either style, with unrelated words between them, and parsing them applies them in order. */
  lemma {:induction false} ParseRender(items: seq<Item>, flags: seq<Flag>, args: CLIArgs)
    requires Unambiguous(flags) && forall item <- items :: Fits(item, flags)
    ensures Parsed(Render(items), flags, args) == Some(Applied(args, items))
    decreases |items|
  {
    if items != [] {
      var item := items[0];
      ParseOne(item, Render(items[1..]), flags, args);
      AppliedFirst(args, items);
      ParseRender(items[1..], flags, if item.Word? then args else Assign(args, item.flag.target, item.value));
    }
  }

  // ------------------------------------------------------------------ the table of flags

  lemma {:induction false} EarlierFlagsFirst(argv: seq<string>, a: seq<Flag>, b: seq<Flag>)
    requires argv != [] && FirstHit(argv, a).Some?
    ensures FirstHit(argv, a + b) == FirstHit(argv, a)
  {
    assert (a + b)[0] == a[0] && (a + b)[1..] == a[1..] + b;
    if MatchFlag(argv, a[0]).None? { EarlierFlagsFirst(argv, a[1..], b); }
  }

  lemma BuiltinsAreUnambiguous()
    ensures Unambiguous(BUILTINS)
  {
    OwnFlagsAreUnambiguous([]);
    assert BUILTINS + Specifics([]) == BUILTINS;
  }

  /** A built-in flag is read in either style, whatever flags of its own the program adds. */
  lemma BuiltinIsRead(flag: Flag, value: string, rest: seq<string>, names: seq<string>, args: CLIArgs)
    requires flag in BUILTINS
    ensures var flags := BUILTINS + Specifics(names);
            && Parsed([flag.text, value] + rest, flags, args)
            == Parsed(rest, flags, Assign(args, flag.target, value))
            && Parsed([flag.text + "=" + value] + rest, flags, args)
            == Parsed(rest, flags, Assign(args, flag.target, value))
  {
    var spaced, joined := [flag.text, value] + rest, [flag.text + "=" + value] + rest;
    BuiltinsAreUnambiguous();
    BuiltinsArePlain(flag);
    SpacedIsFound(flag, value, rest, BUILTINS);
    JoinedIsFound(flag, value, rest, BUILTINS);
    HelpIsNotJoined(flag.text, value);
    EarlierFlagsFirst(spaced, BUILTINS, Specifics(names));
    EarlierFlagsFirst(joined, BUILTINS, Specifics(names));
    assert spaced[2..] == rest && joined[1..] == rest;
  }

  lemma LongFlagsAreBuiltin(field: Field)
    ensures LongFlag(field) in BUILTINS
  {
    var i := match field
      case Name => 0 case Host => 1 case Port => 2 case GrpcHost => 3 case GrpcPort => 4
      case Conf => 5 case LogLevel => 6 case Key => 7 case Profile => 8;
    assert BUILTINS[i] == LongFlag(field);
  }

  /** What the usage text says about the built-in flags. A port that `std::stoi` does not accept changes nothing. */
  predicate Means(text: string, value: string, before: CLIArgs, after: CLIArgs) {
    || (text == "--name" && after == before.(name := value))
    || (text == "--host" && after == before.(host := value))
    || (text == "--port" && after == if Stoi(value).Some? then before.(port := Stoi(value).value) else before)
    || (text == "--grpc_host" && after == before.(grpcHost := value))
    || (text == "--grpc_port" && after == if Stoi(value).Some? then before.(grpcPort := Stoi(value).value) else before)
    || (text == "--conf" && after == before.(conf := value))
    || (text == "--log_level" && after == before.(logLevel := value))
    || (text == "--key" && after == before.(key := value))
    || ((text == "--profile" || text == "-p") && after == before.(profile := value))
  }

  lemma MeaningIsAssigned(text: string, value: string, before: CLIArgs, after: CLIArgs) returns (flag: Flag)
    requires Means(text, value, before, after)
    ensures flag in BUILTINS && flag.text == text && after == Assign(before, flag.target, value)
  {
    if text == "-p" {
      assert BUILTINS[9] == SHORT_PROFILE;
      flag := SHORT_PROFILE;
    } else {
      var field := if text == "--name" then Name else if text == "--host" then Host else if text == "--port" then Port
        else if text == "--grpc_host" then GrpcHost else if text == "--grpc_port" then GrpcPort
        else if text == "--conf" then Conf else if text == "--log_level" then LogLevel
        else if text == "--key" then Key else Profile;
      LongFlagsAreBuiltin(field);
      flag := LongFlag(field);
    }
  }

  /** In either style, a built-in flag at the head of a command line does what it means before the rest is parsed. */
  lemma FlagsMeanWhatTheySay(
    text: string, value: string, rest: seq<string>, names: seq<string>, before: CLIArgs, after: CLIArgs)
    requires Means(text, value, before, after)
    ensures var flags := BUILTINS + Specifics(names);
            && Parsed([text, value] + rest, flags, before) == Parsed(rest, flags, after)
            && Parsed([text + "=" + value] + rest, flags, before) == Parsed(rest, flags, after)
  {
    var flag := MeaningIsAssigned(text, value, before, after);
    BuiltinIsRead(flag, value, rest, names, before);
  }

  /** A request for help after any settings ends the parse, whatever follows. */
  lemma {:induction false} HelpStops(items: seq<Item>, help: string, rest: seq<string>, flags: seq<Flag>, args: CLIArgs)
    requires Unambiguous(flags) && (forall item <- items :: Fits(item, flags)) && help in {"--help", "-h"}
    ensures Parsed(Render(items) + ([help] + rest), flags, args) == None
    decreases |items|
  {
    var tail := [help] + rest;
    if items == [] {
      assert Render(items) + tail == tail;
    } else {
      var item := items[0];
      assert Render(items) + tail == Written(item) + (Render(items[1..]) + tail);
      ParseOne(item, Render(items[1..]) + tail, flags, args);
      HelpStops(items[1..], help, rest, flags,
          if item.Word? then args else Assign(args, item.flag.target, item.value));
    }
  }

  /** A flag that ends the command line without a value is ignored. */
  lemma {:induction false} TrailingFlagIsIgnored(items: seq<Item>, flag: Flag, flags: seq<Flag>, args: CLIArgs)
    requires Unambiguous(flags) && (forall item <- items :: Fits(item, flags)) && flag in flags
    ensures Parsed(Render(items) + [flag.text], flags, args) == Some(Applied(args, items))
    decreases |items|
  {
    var last := [flag.text];
    if items == [] {
      BareFlagIsMissed(flag.text, flags);
      assert Render(items) + last == last && last[1..] == [];
    } else {
      var item := items[0];
      assert Render(items) + last == Written(item) + (Render(items[1..]) + last);
      ParseOne(item, Render(items[1..]) + last, flags, args);
      AppliedFirst(args, items);
      TrailingFlagIsIgnored(items[1..], flag, flags,
          if item.Word? then args else Assign(args, item.flag.target, item.value));
    }
  }

  lemma {:induction false} BareFlagIsMissed(text: string, flags: seq<Flag>)
    requires forall f <- flags :: !(f.text + "=" <= text)
    ensures FirstHit([text], flags) == None
  {
    if flags != [] {
      assert flags[0] in flags;
      BareFlagIsMissed(text, flags[1..]);
    }
  }

  /** Without a name on the command line the program's own name is taken, without its directory. */
  lemma ProgramNamesItself(args: CLIArgs, directory: string, slash: char, base: string)
    requires slash in {'/', '\\'} && (forall c <- base :: c !in {'/', '\\'})
    ensures Named(args, directory + [slash] + base) == if args.name == "" then args.(name := base) else args
  {
    BasenameIs(directory + [slash], base);
  }

  lemma {:induction false} BasenameIs(front: string, base: string)
    requires front != "" && IsSlash(front[|front| - 1]) && forall c <- base :: !IsSlash(c)
    ensures Basename(front + base) == base
    decreases |base|
  {
    if base == "" {
      assert front + base == front;
    } else {
      var init := base[..|base| - 1];
      assert base == init + [base[|base| - 1]] && (front + base)[..|front + base| - 1] == front + init;
      assert (front + base)[|front + base| - 1] == base[|base| - 1];
      BasenameIs(front, init);
    }
  }

  // ------------------------------------------------------------------ last one wins

  predicate Sets(item: Item, target: Target) {
    !item.Word? && item.flag.target == target
  }

  /** The last item that sets the target. */
  function LastSetting(items: seq<Item>, target: Target): (r: Option<string>)
    ensures r.None? <==> forall item <- items :: !Sets(item, target)
    decreases |items|
  {
    if items == [] then None
    else if Sets(items[|items| - 1], target) then Some(items[|items| - 1].value)
    else
      assert items == items[..|items| - 1] + [items[|items| - 1]];
      LastSetting(items[..|items| - 1], target)
  }

  /** The last item that sets the target to something `std::stoi` accepts. */
  function LastNumber(items: seq<Item>, target: Target): Option<int>
    decreases |items|
  {
    if items == [] then None
    else
      var last := items[|items| - 1];
      if Sets(last, target) && Stoi(last.value).Some? then Stoi(last.value)
      else LastNumber(items[..|items| - 1], target)
  }

  function TextOf(args: CLIArgs, target: Target): Option<string>
    requires target != Builtin(Port) && target != Builtin(GrpcPort)
  {
    match target
    case Extra(name) => if name in args.extras then Some(args.extras[name]) else None
    case Builtin(field) =>
      Some(match field
           case Name => args.name
           case Host => args.host
           case GrpcHost => args.grpcHost
           case Conf => args.conf
           case LogLevel => args.logLevel
           case Key => args.key
           case Profile => args.profile)
  }

  function NumberOf(args: CLIArgs, target: Target): int
    requires target == Builtin(Port) || target == Builtin(GrpcPort)
  {
    if target == Builtin(Port) then args.port else args.grpcPort
  }

  lemma AssignSetsText(args: CLIArgs, at: Target, value: string, target: Target)
    requires target != Builtin(Port) && target != Builtin(GrpcPort)
    ensures TextOf(Assign(args, at, value), target) == if at == target then Some(value) else TextOf(args, target)
  {
  }

  lemma AssignSetsNumber(args: CLIArgs, at: Target, value: string, target: Target)
    requires target == Builtin(Port) || target == Builtin(GrpcPort)
    ensures NumberOf(Assign(args, at, value), target)
         == if at == target && Stoi(value).Some? then Stoi(value).value else NumberOf(args, target)
  {
  }

  /** Every text field and extra has its last setting. */
  lemma {:induction false} LastTextWins(args: CLIArgs, items: seq<Item>, target: Target)
    requires target != Builtin(Port) && target != Builtin(GrpcPort)
    ensures TextOf(Applied(args, items), target)
         == if LastSetting(items, target).Some? then LastSetting(items, target) else TextOf(args, target)
    decreases |items|
  {
    if items != [] {
      var before, last := items[..|items| - 1], items[|items| - 1];
      LastTextWins(args, before, target);
      if !last.Word? {
        AssignSetsText(Applied(args, before), last.flag.target, last.value, target);
      }
    }
  }

  /** A port has its last readable setting. */
  lemma {:induction false} LastNumberWins(args: CLIArgs, items: seq<Item>, target: Target)
    requires target == Builtin(Port) || target == Builtin(GrpcPort)
    ensures NumberOf(Applied(args, items), target)
         == if LastNumber(items, target).Some? then LastNumber(items, target).value else NumberOf(args, target)
    decreases |items|
  {
    if items != [] {
      var before, last := items[..|items| - 1], items[|items| - 1];
      LastNumberWins(args, before, target);
      if !last.Word? {
        AssignSetsNumber(Applied(args, before), last.flag.target, last.value, target);
      }
    }
  }

  // ------------------------------------------------------------------ exactly which tables round-trip

  /** Every list of items that fits the table comes back from its rendering. */
  ghost predicate RoundTrips(flags: seq<Flag>) {
    forall items: seq<Item> :: (forall item <- items :: Fits(item, flags)) ==>
      Parsed(Render(items), flags, EMPTY) == Some(Applied(EMPTY, items))
  }

  lemma RenderOne(item: Item)
    ensures Render([item]) == Written(item)
    ensures !item.Word? ==> Applied(EMPTY, [item]) == Assign(EMPTY, item.flag.target, item.value)
  {
    assert [item][1..] == [] && [item][..0] == [];
    assert Written(item) + [] == Written(item);
  }

  lemma RenderWithWord(item: Item, word: string)
    requires !item.Word?
    ensures Render([item, Word(word)]) == Written(item) + [word]
    ensures Applied(EMPTY, [item, Word(word)]) == Assign(EMPTY, item.flag.target, item.value)
  {
    assert [item, Word(word)][1..] == [Word(word)] && [item, Word(word)][..1] == [item];
    RenderOne(Word(word));
    RenderOne(item);
  }

  function Filler(n: nat): (s: string)
    ensures |s| == n && '=' !in s && (n > 0 ==> s[0] == 'z')
  {
    seq(n, _ => 'z')
  }

  function Longest(flags: seq<Flag>): (n: nat)
    ensures forall f <- flags :: |f.text| <= n
  {
    if flags == [] then 0
    else if |flags[0].text| > Longest(flags[1..]) then |flags[0].text| else Longest(flags[1..])
  }

  /** A word that no flag of the table takes and that `std::stoi` reads as the digit. */
  function FreshWord(digit: nat, flags: seq<Flag>): string
    requires digit < 10
  {
    Decimal(digit) + Filler(Longest(flags) + 1)
  }

  lemma FreshWordIsFree(digit: nat, flags: seq<Flag>)
    requires digit < 10
    ensures !Taken(FreshWord(digit, flags), flags) && Stoi(FreshWord(digit, flags)) == Some(digit)
  {
    var word, filler := FreshWord(digit, flags), Filler(Longest(flags) + 1);
    JunkIsIgnoredByStoi(digit, filler);
    assert forall c <- Digits(digit) :: IsDigit(c);
    assert '=' !in word && IsDigit(word[0]);
    forall f <- flags ensures f.text != word && !(f.text + "=" <= word) {
      assert (f.text + "=")[|f.text|] == '=';
    }
  }

  predicate IsNumber(target: Target) {
    target == Builtin(Port) || target == Builtin(GrpcPort)
  }

  /** Words that read as different digits leave different records, whatever they are assigned to. */
  lemma AssignDiffers(target: Target, v: string, w: string)
    requires Stoi(v).Some? && Stoi(w).Some? && Stoi(v) != Stoi(w)
    ensures Assign(EMPTY, target, v) != Assign(EMPTY, target, w)
  {
    if IsNumber(target) {
      AssignSetsNumber(EMPTY, target, v, target);
      AssignSetsNumber(EMPTY, target, w, target);
    } else {
      AssignSetsText(EMPTY, target, v, target);
      AssignSetsText(EMPTY, target, w, target);
    }
  }

  /** A non-zero number leaves its mark at its target alone. */
  lemma AssignTells(s: Target, t: Target, v: string)
    requires v != "" && Stoi(v) == Some(1) && Assign(EMPTY, s, v) == Assign(EMPTY, t, v)
    ensures s == t
  {
    if IsNumber(s) {
      AssignSetsNumber(EMPTY, s, v, s);
      AssignSetsNumber(EMPTY, t, v, s);
    } else {
      AssignSetsText(EMPTY, s, v, s);
      AssignSetsText(EMPTY, t, v, s);
    }
  }

  lemma HelpFlagFails(flags: seq<Flag>, f: Flag)
    requires RoundTrips(flags) && f in flags
    ensures !AsksForHelp(f.text)
  {
    var item := Spaced(f, "");
    RenderOne(item);
    assert forall i <- [item] :: Fits(i, flags);
    assert Parsed(Render([item]), flags, EMPTY) == Some(Applied(EMPTY, [item]));
  }

  lemma SameTextSameTarget(flags: seq<Flag>, f: Flag, g: Flag)
    requires RoundTrips(flags) && f in flags && g in flags && f.text == g.text
    ensures f.target == g.target
  {
    var word := FreshWord(1, flags);
    FreshWordIsFree(1, flags);
    var x, y := Spaced(f, word), Spaced(g, word);
    RenderOne(x);
    RenderOne(y);
    assert forall i <- [x] :: Fits(i, flags);
    assert forall i <- [y] :: Fits(i, flags);
    AssignTells(f.target, g.target, word);
  }

  /** The same words, as one flag with its value and a stray word, or as another flag and its value. */
  lemma ReadTwoWays(flags: seq<Flag>, f: Flag, g: Flag, digit: nat)
    requires RoundTrips(flags) && f in flags && g in flags && f.text + "=" <= g.text && digit < 10
    ensures Assign(EMPTY, f.target, g.text[|f.text| + 1..]) == Assign(EMPTY, g.target, FreshWord(digit, flags))
  {
    var word, value := FreshWord(digit, flags), g.text[|f.text| + 1..];
    FreshWordIsFree(digit, flags);
    assert g.text == f.text + "=" + value;
    var x, y := Joined(f, value), Spaced(g, word);
    RenderWithWord(x, word);
    RenderOne(y);
    assert forall i <- [x, Word(word)] :: Fits(i, flags);
    assert forall i <- [y] :: Fits(i, flags);
    assert Written(x) + [word] == Written(y);
  }

  lemma NoFlagStartsAnother(flags: seq<Flag>, f: Flag, g: Flag)
    requires RoundTrips(flags) && f in flags && g in flags
    ensures !(f.text + "=" <= g.text)
  {
    if f.text + "=" <= g.text {
      ReadTwoWays(flags, f, g, 1);
      ReadTwoWays(flags, f, g, 2);
      FreshWordIsFree(1, flags);
      FreshWordIsFree(2, flags);
      AssignDiffers(g.target, FreshWord(1, flags), FreshWord(2, flags));
    }
  }

  /** The round trip holds for exactly the unambiguous tables. */
  lemma RoundTripsIff(flags: seq<Flag>)
    ensures RoundTrips(flags) <==> Unambiguous(flags)
  {
    if Unambiguous(flags) {
      forall items: seq<Item> | forall item <- items :: Fits(item, flags)
        ensures Parsed(Render(items), flags, EMPTY) == Some(Applied(EMPTY, items))
      {
        ParseRender(items, flags, EMPTY);
      }
    }
    if RoundTrips(flags) {
      forall f <- flags ensures !AsksForHelp(f.text) { HelpFlagFails(flags, f); }
      forall f <- flags, g <- flags | f.text == g.text ensures f.target == g.target { SameTextSameTarget(flags, f, g); }
      forall f <- flags, g <- flags ensures !(f.text + "=" <= g.text) { NoFlagStartsAnother(flags, f, g); }
    }
  }

  // ------------------------------------------------------------------ the parser's own table

  /**
   The specific flag is not the help flag, no built-in one, and does not start with a built-in one
   and an equals sign.
   */
  predicate OwnFlag(name: string) {
    && !AsksForHelp("--" + name)
    && forall f <- BUILTINS :: f.text != "--" + name && !(f.text + "=" <= "--" + name)
  }

  /** The specific flags are the caller's own, and none starts another. */
  predicate OwnFlags(names: seq<string>) {
    (forall name <- names :: OwnFlag(name)) && (forall m <- names, n <- names :: !(m + "=" <= n))
  }

  lemma LongFlagIsPlain(field: Field)
    ensures var t := FlagOf(field); '=' !in t && !AsksForHelp(t) && |t| > 2 && t[1] == '-'
  {
  }

  lemma LongFlagsDiffer(x: Field, y: Field)
    requires FlagOf(x) == FlagOf(y)
    ensures x == y
  {
    assert FlagOf(x)[2] == FlagOf(y)[2] && |FlagOf(x)| == |FlagOf(y)|;
  }

  lemma BuiltinIs(f: Flag)
    requires f in BUILTINS
    ensures f == SHORT_PROFILE || (f.target.Builtin? && f == LongFlag(f.target.field))
  {
  }

  lemma BuiltinsArePlain(f: Flag)
    requires f in BUILTINS
    ensures f.target.Builtin? && '=' !in f.text && !AsksForHelp(f.text)
  {
    BuiltinIs(f);
    if f != SHORT_PROFILE { LongFlagIsPlain(f.target.field); }
  }

  lemma BuiltinsAreDistinct(f: Flag, g: Flag)
    requires f in BUILTINS && g in BUILTINS && f.text == g.text
    ensures f.target == g.target
  {
    BuiltinIs(f);
    BuiltinIs(g);
    if f != SHORT_PROFILE { LongFlagIsPlain(f.target.field); }
    if g != SHORT_PROFILE { LongFlagIsPlain(g.target.field); }
    if f != SHORT_PROFILE && g != SHORT_PROFILE {
      LongFlagsDiffer(f.target.field, g.target.field);
    }
  }

  lemma SpecificIs(names: seq<string>, f: Flag)
    requires f in Specifics(names)
    ensures f.target.Extra? && f.target.name in names && f.text == "--" + f.target.name
    ensures f.text[2..] == f.target.name
  {
    var i :| 0 <= i < |names| && Specifics(names)[i] == f;
    assert names[i] in names;
  }

  lemma DashesKeepPrefix(m: string, n: string)
    ensures "--" + m + "=" <= "--" + n <==> m + "=" <= n
  {
    var long, short := "--" + m + "=", m + "=";
    assert long == "--" + short;
    assert forall i :: 0 <= i < |short| ==> long[i + 2] == short[i];
    assert forall i :: 0 <= i < |n| ==> ("--" + n)[i + 2] == n[i];
    if long <= "--" + n {
      assert forall i :: 0 <= i < |short| ==> short[i] == long[i + 2] == ("--" + n)[i + 2] == n[i];
    }
  }

  lemma BuiltinsStartNothing(f: Flag, text: string)
    requires f in BUILTINS
    ensures !(text + "=" <= f.text)
  {
    BuiltinsArePlain(f);
    assert (text + "=")[|text|] == '=';
  }

  lemma OwnFlagsAreUnambiguous(names: seq<string>)
    requires OwnFlags(names)
    ensures Unambiguous(BUILTINS + Specifics(names))
  {
    var own := Specifics(names);
    forall f <- BUILTINS + own ensures !AsksForHelp(f.text) {
      if f in BUILTINS { BuiltinsArePlain(f); } else { SpecificIs(names, f); }
    }
    forall f <- BUILTINS + own, g <- BUILTINS + own
      ensures (f.text == g.text ==> f.target == g.target) && !(f.text + "=" <= g.text)
    {
      OwnFlagsDoNotClash(names, f, g);
    }
  }

  lemma OwnFlagsDoNotClash(names: seq<string>, f: Flag, g: Flag)
    requires OwnFlags(names) && f in BUILTINS + Specifics(names) && g in BUILTINS + Specifics(names)
    ensures (f.text == g.text ==> f.target == g.target) && !(f.text + "=" <= g.text)
  {
    if g in BUILTINS {
      BuiltinsStartNothing(g, f.text);
      if f in BUILTINS {
        if f.text == g.text { BuiltinsAreDistinct(f, g); }
      } else {
        SpecificIs(names, f);
      }
    } else {
      SpecificIs(names, g);
      if f !in BUILTINS {
        SpecificIs(names, f);
        DashesKeepPrefix(f.target.name, g.target.name);
      }
    }
  }

  lemma UnambiguousFlagIsOwn(names: seq<string>, i: nat)
    requires i < |names| && Unambiguous(BUILTINS + Specifics(names))
    ensures OwnFlag(names[i])
  {
    var flags, flag := BUILTINS + Specifics(names), Specifics(names)[i];
    assert flag in Specifics(names) && flag in flags;
    forall f <- BUILTINS ensures f.text != flag.text && !(f.text + "=" <= flag.text) {
      assert f in flags;
      BuiltinsArePlain(f);
    }
  }

  lemma UnambiguousFlagsDoNotStart(names: seq<string>, i: nat, j: nat)
    requires i < |names| && j < |names| && Unambiguous(BUILTINS + Specifics(names))
    ensures !(names[i] + "=" <= names[j])
  {
    var flags, own := BUILTINS + Specifics(names), Specifics(names);
    assert own[i] in own && own[j] in own && own[i] in flags && own[j] in flags;
    DashesKeepPrefix(names[i], names[j]);
  }

  lemma UnambiguousFlagsAreOwn(names: seq<string>)
    requires Unambiguous(BUILTINS + Specifics(names))
    ensures OwnFlags(names)
  {
    forall i | 0 <= i < |names| ensures OwnFlag(names[i]) {
      UnambiguousFlagIsOwn(names, i);
    }
    forall i, j | 0 <= i < |names| && 0 <= j < |names| ensures !(names[i] + "=" <= names[j]) {
      UnambiguousFlagsDoNotStart(names, i, j);
    }
  }

  /**
   The parser's table of flags is unambiguous exactly if the specific flags are the caller's own
   and none starts another.
   */
  lemma TableIsUnambiguousIff(names: seq<string>)
    ensures Unambiguous(BUILTINS + Specifics(names)) <==> OwnFlags(names)
  {
    if Unambiguous(BUILTINS + Specifics(names)) {
      UnambiguousFlagsAreOwn(names);
    } else if OwnFlags(names) {
      OwnFlagsAreUnambiguous(names);
    }
  }

  /**
   The round trip for a whole program: settings rendered in either style, with unrelated words
   between them, are always parsed to the record in which every target has its last setting,
   exactly if the specific flags are the caller's own and none starts another.
   */
  lemma ParseRenderRoundTripIff(names: seq<string>)
    ensures RoundTrips(BUILTINS + Specifics(names)) <==> OwnFlags(names)
  {
    TableIsUnambiguousIff(names);
    RoundTripsIff(BUILTINS + Specifics(names));
  }
}
