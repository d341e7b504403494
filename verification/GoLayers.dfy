/**
 The layering of the Go loader: base capabilities, then the file's, merged deeply, then the
 command-line flags. Strings and numbers use Go's zero values for absent flags.
 */
module GoLayers {
  import opened Wrappers
  import opened ConfigTree
  import opened DeepMerge
  import opened Text
  import DottedPath
  import Endpoints

  type Capabilities = map<string, Value>

  datatype CliArgs = CliArgs(name: string, host: string, port: int, grpcHost: string, grpcPort: int)

  function Target(commonName: string, args: CliArgs): string {
    if args.name != "" then args.name else if commonName != "" then commonName else "config_server"
  }

  function StrFlag(s: string): Option<string> {
    if s != "" then Some(s) else None
  }

  function IntFlag(n: int): Option<string> {
    if n != 0 then Some(Decimal(n)) else None
  }

  /** What the flags say about a field of the target capability. */
  function FlagValue(args: CliArgs, field: string): Option<string> {
    if field == "ip" then StrFlag(args.host)
    else if field == "port" then IntFlag(args.port)
    else if field == "grpc_ip" then StrFlag(args.grpcHost)
    else if field == "grpc_port" then IntFlag(args.grpcPort)
    else None
  }

  predicate IsMapAt(caps: Capabilities, key: string) {
    key in caps && caps[key].Map?
  }

  /** `ensurePath("capabilities." + target)`: only the part of the target before its first dot is looked at. */
  function EnsurePath(caps: Capabilities, target: string): Capabilities {
    var first := Split(target, '.')[0];
    if IsMapAt(caps, first) then caps else caps[first := Map(map[])]
  }

  function WithField(cap: map<string, Value>, field: string, x: Option<string>): map<string, Value> {
    if x.Some? then cap[field := Str(x.value)] else cap
  }

  /** One pair of flags; `None` is the panic of the type assertion on `Capabilities[target]`. */
  function WriteFlags(caps: Capabilities, target: string,
                      hostKey: string, host: Option<string>, portKey: string, port: Option<string>)
    : Option<Capabilities>
  {
    if host.None? && port.None? then Some(caps)
    else
      var ensured := EnsurePath(caps, target);
      if !IsMapAt(ensured, target) then None
      else Some(ensured[target := Map(WithField(WithField(ensured[target].entries, hostKey, host), portKey, port))])
  }

  function WriteTcp(caps: Capabilities, target: string, args: CliArgs): Option<Capabilities> {
    WriteFlags(caps, target, "ip", StrFlag(args.host), "port", IntFlag(args.port))
  }

  function WriteGrpc(caps: Capabilities, target: string, args: CliArgs): Option<Capabilities> {
    WriteFlags(caps, target, "grpc_ip", StrFlag(args.grpcHost), "grpc_port", IntFlag(args.grpcPort))
  }

  /** All three layers, for any file and any flags. */
  function Layered(base: Capabilities, file: Capabilities, target: string, args: CliArgs): Option<Capabilities> {
    match WriteTcp(GoMerge(Map(base), Map(file)).entries, target, args)
    case None => None
    case Some(caps) => WriteGrpc(caps, target, args)
  }

  /** A file without capabilities leaves the base as it is. */
  lemma NothingToMerge(base: Capabilities)
    ensures GoMerge(Map(base), Map(map[])).entries == base
  {
  }

  class AppConfig {
    var capabilities: Capabilities
    var commonName: string

    constructor (base: Capabilities, commonName: string)
      ensures capabilities == base && this.commonName == commonName
    {
      capabilities := base;
      this.commonName := commonName;
    }

    /** The sections of the decoded file that the override reads; a section that is not a map counts as missing. */
    method ApplyFileOverride(fileCaps: Option<Capabilities>, fileName: Option<string>)
      modifies this
      ensures capabilities == if fileCaps.Some?
          then GoMerge(Map(old(capabilities)), Map(fileCaps.value)).entries else old(capabilities)
      ensures commonName == if fileName.Some? then fileName.value else old(commonName)
    {
      if fileCaps.Some? {
        capabilities := GoMerge(Map(capabilities), Map(fileCaps.value)).entries;
      }
      if fileName.Some? {
        commonName := fileName.value;
      }
    }

    method EnsurePathOf(target: string)
      modifies this`capabilities
      ensures capabilities == EnsurePath(old(capabilities), target)
    {
      DottedPath.CapPathSplits(target);
      var parts := Split("capabilities." + target, '.');
      if |parts| < 2 { return; }
      if parts[0] == "capabilities" {
        if !(parts[1] in capabilities && capabilities[parts[1]].Map?) {
          capabilities := capabilities[parts[1] := Map(map[])];
        }
      }
    }

    /** The common body of the two override functions. */
    method Overwrite(target: string, hostKey: string, host: Option<string>, portKey: string, port: Option<string>)
        returns (panicked: bool)
      modifies this`capabilities
      ensures panicked <==> WriteFlags(old(capabilities), target, hostKey, host, portKey, port).None?
      ensures !panicked ==> Some(capabilities) == WriteFlags(old(capabilities), target, hostKey, host, portKey, port)
    {
      panicked := false;
      if host.Some? || port.Some? {
        EnsurePathOf(target);
        if !(target in capabilities && capabilities[target].Map?) { return true; }
        var cap := capabilities[target].entries;
        if host.Some? { cap := cap[hostKey := Str(host.value)]; }
        if port.Some? { cap := cap[portKey := Str(port.value)]; }
        capabilities := capabilities[target := Map(cap)];
      }
    }

    method ApplyCLIOverrides(args: CliArgs) returns (panicked: bool)
      modifies this
      ensures commonName == if args.name != "" then args.name else old(commonName)
      ensures panicked <==> WriteTcp(old(capabilities), Target(old(commonName), args), args).None?
      ensures !panicked ==> Some(capabilities) == WriteTcp(old(capabilities), Target(old(commonName), args), args)
    {
      if args.name != "" { commonName := args.name; }
      var target := args.name;
      if target == "" { target := commonName; }
      if target == "" { target := "config_server"; }
      panicked := Overwrite(target, "ip", StrFlag(args.host), "port", IntFlag(args.port));
    }

    method ApplyCLIGRPCOverrides(args: CliArgs) returns (panicked: bool)
      modifies this`capabilities
      ensures panicked <==> WriteGrpc(old(capabilities), Target(commonName, args), args).None?
      ensures !panicked ==> Some(capabilities) == WriteGrpc(old(capabilities), Target(commonName, args), args)
    {
      var target := args.name;
      if target == "" { target := commonName; }
      if target == "" { target := "config_server"; }
      panicked := Overwrite(target, "grpc_ip", StrFlag(args.grpcHost), "grpc_port", IntFlag(args.grpcPort));
    }

    /**
     The phases of loading after the base: the file override, the TCP flags and the gRPC flags.
     The target is resolved with the name that the file leaves.
     */
    method LoadLayers(fileCaps: Option<Capabilities>, fileName: Option<string>, args: CliArgs) returns (panicked: bool)
      modifies this
      ensures var name := if fileName.Some? then fileName.value else old(commonName);
              var file := if fileCaps.Some? then fileCaps.value else map[];
              var layered := Layered(old(capabilities), file, Target(name, args), args);
              && (panicked <==> layered.None?)
              && (!panicked ==> capabilities == layered.value)
              && commonName == if args.name != "" then args.name else name
      ensures !panicked && PortsFit(args) ==>
        var name := if fileName.Some? then fileName.value else old(commonName);
        var file := if fileCaps.Some? then fileCaps.value else map[];
        FlagsFindTarget(capabilities, GoMerge(Map(old(capabilities)), Map(file)).entries, name, args)
    {
      NothingToMerge(capabilities);
      ghost var name := if fileName.Some? then fileName.value else commonName;
      ghost var file := if fileCaps.Some? then fileCaps.value else map[];
      if PortsFit(args) { FlagsReachTarget(capabilities, file, name, args); }
      ApplyFileOverride(fileCaps, fileName);
      panicked := ApplyCLIOverrides(args);
      if !panicked {
        panicked := ApplyCLIGRPCOverrides(args);
      }
    }
  }

  // ------------------------------------------------------------------ the priority order

  lemma {:induction false} FirstPart(s: string)
    ensures Split(s, '.')[0] == s <==> '.' !in s
  {
    if s != "" {
      FirstPart(s[1..]);
      assert s == [s[0]] + s[1..];
      var rest := Split(s[1..], '.');
      if s[0] != '.' {
        assert Split(s, '.')[0][1..] == rest[0];
      }
    }
  }

  /** The flags panic exactly when one is given for a dotted target that is not already a mapping. */
  lemma WriteFlagsPanicsIff(caps: Capabilities, target: string,
                            hostKey: string, host: Option<string>, portKey: string, port: Option<string>)
    ensures WriteFlags(caps, target, hostKey, host, portKey, port).None? <==>
              (host.Some? || port.Some?) && '.' in target && !IsMapAt(caps, target)
  {
    FirstPart(target);
  }

  lemma TwoSteps(caps: Capabilities, cap: string, field: string, rest: Path)
    ensures ViewAt(Map(caps), [cap, field] + rest) ==
            if IsMapAt(caps, cap) && field in caps[cap].entries then ViewAt(caps[cap].entries[field], rest) else Absent
  {
    var p := [cap, field] + rest;
    assert p[1..] == [field] + rest && p[1..][1..] == rest;
  }

  /** What a flag shows at and below its field. */
  function FlagView(text: string, rest: Path): View {
    if rest == [] then Leaf(Str(text)) else Absent
  }

  /**
   A pair of flags that does not panic sets its two fields of the target and changes no view at or
   below any other field, dotted targets included.
   */
  lemma WriteFlagsLaw(caps: Capabilities, target: string, hostKey: string, host: Option<string>,
                      portKey: string, port: Option<string>, cap: string, field: string, rest: Path)
    requires hostKey != portKey
    ensures var r := WriteFlags(caps, target, hostKey, host, portKey, port);
            r.Some? ==>
              ViewAt(Map(r.value), [cap, field] + rest) ==
                if cap == target && field == hostKey && host.Some? then FlagView(host.value, rest)
                else if cap == target && field == portKey && port.Some? then FlagView(port.value, rest)
                else ViewAt(Map(caps), [cap, field] + rest)
  {
    var r := WriteFlags(caps, target, hostKey, host, portKey, port);
    if r.Some? {
      TwoSteps(caps, cap, field, rest);
      TwoSteps(r.value, cap, field, rest);
    }
  }

  predicate AnyFlag(args: CliArgs) {
    args.host != "" || args.port != 0 || args.grpcHost != "" || args.grpcPort != 0
  }

  /** Loading panics exactly when a flag is given for a dotted target that base and file do not make a mapping. */
  lemma LayeringPanicsIff(base: Capabilities, file: Capabilities, target: string, args: CliArgs)
    ensures Layered(base, file, target, args).None? <==>
              AnyFlag(args) && '.' in target && !IsMapAt(GoMerge(Map(base), Map(file)).entries, target)
  {
    var merged := GoMerge(Map(base), Map(file)).entries;
    WriteFlagsPanicsIff(merged, target, "ip", StrFlag(args.host), "port", IntFlag(args.port));
    if WriteTcp(merged, target, args).Some? {
      WriteFlagsPanicsIff(WriteTcp(merged, target, args).value, target, "grpc_ip", StrFlag(args.grpcHost),
          "grpc_port", IntFlag(args.grpcPort));
    }
  }

  /**
   The strict priority order: at and below each field of each capability, the view is that of the
   highest layer that sets it: flags over file over base.
   */
  lemma HighestLayerWins(
    base: Capabilities, file: Capabilities, target: string, args: CliArgs, cap: string, field: string, rest: Path)
    ensures var r, p := Layered(base, file, target, args), [cap, field] + rest;
            r.Some? ==>
              ViewAt(Map(r.value), p) ==
                if cap == target && FlagValue(args, field).Some? then FlagView(FlagValue(args, field).value, rest)
                else if ViewAt(Map(file), p) != Absent then ViewAt(Map(file), p)
                else if Blocked(Map(file), p) then Absent
                else ViewAt(Map(base), p)
  {
    var merged := GoMerge(Map(base), Map(file)).entries;
    MergeLaw(Map(base), Map(file), [cap, field] + rest);
    var host, port := StrFlag(args.host), IntFlag(args.port);
    WriteFlagsLaw(merged, target, "ip", host, "port", port, cap, field, rest);
    if WriteTcp(merged, target, args).Some? {
      var caps := WriteTcp(merged, target, args).value;
      var grpcHost, grpcPort := StrFlag(args.grpcHost), IntFlag(args.grpcPort);
      WriteFlagsLaw(caps, target, "grpc_ip", grpcHost, "grpc_port", grpcPort, cap, field, rest);
    }
  }

  // ------------------------------------------------------------------ which capability the flags reach

  const MAX_INT64 := Endpoints.MAX_INT64

  /** The ports are values of Go's `int`. */
  predicate PortsFit(args: CliArgs) {
    -MAX_INT64 - 1 <= args.port <= MAX_INT64 && -MAX_INT64 - 1 <= args.grpcPort <= MAX_INT64
  }

  /** A text that `strconv.Atoi` reads back as the number. */
  predicate ShowsNumber(v: View, n: int) {
    v.Leaf? && v.value.Str? && Endpoints.Atoi(v.value.text) == Some(n)
  }

  /** Every given flag stands in its own field of the capability. */
  predicate ShowsFlags(caps: Capabilities, cap: string, args: CliArgs) {
    && (args.host != "" ==> ViewAt(Map(caps), [cap, "ip"]) == Leaf(Str(args.host)))
    && (args.port != 0 ==> ShowsNumber(ViewAt(Map(caps), [cap, "port"]), args.port))
    && (args.grpcHost != "" ==> ViewAt(Map(caps), [cap, "grpc_ip"]) == Leaf(Str(args.grpcHost)))
    && (args.grpcPort != 0 ==> ShowsNumber(ViewAt(Map(caps), [cap, "grpc_port"]), args.grpcPort))
  }

  predicate GivenFor(args: CliArgs, field: string) {
    || (field == "ip" && args.host != "") || (field == "port" && args.port != 0)
    || (field == "grpc_ip" && args.grpcHost != "") || (field == "grpc_port" && args.grpcPort != 0)
  }

  /** At and below all fields, `caps` shows what `merged` does, except for the given flags of `cap`. */
  ghost predicate KeepsTheRest(caps: Capabilities, merged: Capabilities, cap: string, args: CliArgs) {
    forall c: string, field: string, rest: Path :: c != cap || !GivenFor(args, field) ==>
      ViewAt(Map(caps), [c, field] + rest) == ViewAt(Map(merged), [c, field] + rest)
  }

  ghost predicate FlagsGoTo(caps: Capabilities, merged: Capabilities, cap: string, args: CliArgs) {
    ShowsFlags(caps, cap, args) && KeepsTheRest(caps, merged, cap, args)
  }

  /**
   The flags go to the capability named on the command line; without one, to the capability of the
   common name that base and file leave; without either, to `config_server`.
   */
  ghost predicate FlagsFindTarget(caps: Capabilities, merged: Capabilities, name: string, args: CliArgs) {
    && (args.name != "" ==> FlagsGoTo(caps, merged, args.name, args))
    && (args.name == "" && name != "" ==> FlagsGoTo(caps, merged, name, args))
    && (args.name == "" && name == "" ==> FlagsGoTo(caps, merged, "config_server", args))
  }

  lemma FieldView(caps: Capabilities, cap: string, field: string)
    ensures ViewAt(Map(caps), [cap, field] + []) == ViewAt(Map(caps), [cap, field])
  {
    assert [cap, field] + [] == [cap, field];
  }

  lemma LayersShowFlags(base: Capabilities, file: Capabilities, target: string, args: CliArgs)
    requires PortsFit(args)
    ensures var r := Layered(base, file, target, args); r.Some? ==> ShowsFlags(r.value, target, args)
  {
    var r := Layered(base, file, target, args);
    if r.Some? {
      var fields := ["ip", "port", "grpc_ip", "grpc_port"];
      forall i | 0 <= i < 4 && FlagValue(args, fields[i]).Some?
        ensures ViewAt(Map(r.value), [target, fields[i]]) == Leaf(Str(FlagValue(args, fields[i]).value))
      {
        HighestLayerWins(base, file, target, args, target, fields[i], []);
        FieldView(r.value, target, fields[i]);
      }
      Endpoints.DecimalIsRead(args.port);
      Endpoints.DecimalIsRead(args.grpcPort);
      assert fields[0] == "ip" && fields[1] == "port" && fields[2] == "grpc_ip" && fields[3] == "grpc_port";
    }
  }

  lemma LayersKeepTheRest(base: Capabilities, file: Capabilities, target: string, args: CliArgs)
    ensures var r := Layered(base, file, target, args);
            r.Some? ==> KeepsTheRest(r.value, GoMerge(Map(base), Map(file)).entries, target, args)
  {
    var r := Layered(base, file, target, args);
    if r.Some? {
      forall c: string, field: string, rest: Path | c != target || !GivenFor(args, field)
        ensures ViewAt(Map(r.value), [c, field] + rest) == ViewAt(GoMerge(Map(base), Map(file)), [c, field] + rest)
      {
        HighestLayerWins(base, file, target, args, c, field, rest);
        MergeLaw(Map(base), Map(file), [c, field] + rest);
      }
    }
  }

  /** What base, file and flags leave, for every common name and every flag. */
  lemma FlagsReachTarget(base: Capabilities, file: Capabilities, name: string, args: CliArgs)
    requires PortsFit(args)
    ensures var r := Layered(base, file, Target(name, args), args);
            r.Some? ==> FlagsFindTarget(r.value, GoMerge(Map(base), Map(file)).entries, name, args)
  {
    LayersShowFlags(base, file, Target(name, args), args);
    LayersKeepTheRest(base, file, Target(name, args), args);
  }

  // ------------------------------------------------------------------ the other capabilities

  function Entry(caps: Capabilities, key: string): Option<Value> {
    if key in caps then Some(caps[key]) else None
  }

  /**
   The other capabilities stay as they are, with one exception: for a dotted target the part before
   the first dot becomes an empty mapping if it is not one.
   */
  lemma OtherEntriesStay(caps: Capabilities, target: string, hostKey: string, host: Option<string>,
                         portKey: string, port: Option<string>, cap: string)
    requires cap != target
    ensures var r := WriteFlags(caps, target, hostKey, host, portKey, port);
            r.Some? ==>
              Entry(r.value, cap) ==
                if (host.Some? || port.Some?) && cap == target[..IndexOf(target, '.')] && !IsMapAt(caps, cap)
                then Some(Map(map[])) else Entry(caps, cap)
  {
    FirstPartIs(target);
  }

  lemma {:induction false} FirstPartIs(s: string)
    ensures Split(s, '.')[0] == s[..IndexOf(s, '.')]
  {
    if s != "" && s[0] != '.' {
      FirstPartIs(s[1..]);
      assert s[..1 + IndexOf(s[1..], '.')] == [s[0]] + s[1..][..IndexOf(s[1..], '.')];
    }
  }

  /** So loading changes no capability but the target and, for a dotted target, its first part. */
  lemma OtherCapabilitiesStay(base: Capabilities, file: Capabilities, target: string, args: CliArgs, cap: string)
    requires cap != target
    ensures var r, merged := Layered(base, file, target, args), GoMerge(Map(base), Map(file)).entries;
            r.Some? ==>
              Entry(r.value, cap) ==
                if AnyFlag(args) && cap == target[..IndexOf(target, '.')] && !IsMapAt(merged, cap)
                then Some(Map(map[])) else Entry(merged, cap)
  {
    var merged := GoMerge(Map(base), Map(file)).entries;
    OtherEntriesStay(merged, target, "ip", StrFlag(args.host), "port", IntFlag(args.port), cap);
    if WriteTcp(merged, target, args).Some? {
      OtherEntriesStay(WriteTcp(merged, target, args).value, target, "grpc_ip", StrFlag(args.grpcHost),
          "grpc_port", IntFlag(args.grpcPort), cap);
    }
  }
}
