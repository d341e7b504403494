/** Command-line overrides and address resolution of the Rust `AppConfig`. */
module RustConfig {
  import opened Wrappers
  import opened ConfigTree
  import opened Text
  import opened DottedPath

  datatype CliArgs = CliArgs(
    name: Option<string>,
    host: Option<string>,
    port: Option<nat>,
    grpcHost: Option<string>,
    grpcPort: Option<nat>)

  datatype AddrError = CapabilityNotFound | HostMissing | PortMissing

  const NAME_PATH: Path := ["common", "name"]

  function Field(v: Value, key: string): Option<Value> {
    Get(v, [key])
  }

  function StrAt(v: Value, key: string): Option<string> {
    match Field(v, key)
    case Some(Str(s)) => Some(s)
    case _ => None
  }

  function HostIn(cap: Value, hostKey: string): Option<string> {
    if StrAt(cap, hostKey).Some? then StrAt(cap, hostKey)
    else if hostKey != "ip" then StrAt(cap, "ip")
    else None
  }

  function PortIn(cap: Value, portKey: string): Option<string> {
    match Field(cap, portKey)
    case Some(Str(s)) => Some(s)
    case Some(Num(n)) => Some(Decimal(n))
    case Some(Float(printed)) => Some(printed)
    case _ => None
  }

  function GetAddr(data: Value, capability: string, hostKey: string, portKey: string): Result<string, AddrError> {
    match Get(data, CapPath(capability))
    case None => Err(CapabilityNotFound)
    case Some(cap) =>
      if HostIn(cap, hostKey).None? then Err(HostMissing)
      else if PortIn(cap, portKey).None? then Err(PortMissing)
      else Ok(HostIn(cap, hostKey).value + ":" + PortIn(cap, portKey).value)
  }

  /** The capability that the network flags override: `--name`, else the configured name, else a default. */
  function Target(data: Value, args: CliArgs): string {
    if args.name.Some? then args.name.value
    else match Get(data, NAME_PATH)
      case Some(Str(s)) => s
      case _ => "config_server"
  }

  function NumberText(n: Option<nat>): Option<string> {
    if n.Some? then Some(Decimal(n.value)) else None
  }

  /** The four fields that flags can set, in the order in which they are written. */
  const FIELDS: seq<string> := ["ip", "port", "grpc_ip", "grpc_port"]

  function FlagValue(args: CliArgs, field: string): Option<string> {
    if field == "ip" then args.host
    else if field == "port" then NumberText(args.port)
    else if field == "grpc_ip" then args.grpcHost
    else if field == "grpc_port" then NumberText(args.grpcPort)
    else None
  }

  function SetField(data: Value, target: string, field: string, x: Option<string>): Value {
    if x.Some? then Set(data, CapPath(target) + [field], Str(x.value)) else data
  }

  function SetName(data: Value, args: CliArgs): Value {
    if args.name.Some? then Set(data, NAME_PATH, Str(args.name.value)) else data
  }

  /** The tree after the first `n` fields were written. */
  function SetFields(data: Value, target: string, args: CliArgs, n: nat): Value
    requires n <= |FIELDS|
  {
    if n == 0 then data
    else SetField(SetFields(data, target, args, n - 1), target, FIELDS[n - 1], FlagValue(args, FIELDS[n - 1]))
  }

  function Override(data: Value, args: CliArgs): Value {
    SetFields(SetName(data, args), Target(data, args), args, |FIELDS|)
  }

  class AppConfig {
    var data: Value
    const cliArgs: CliArgs

    constructor (data: Value, cliArgs: CliArgs)
      ensures this.data == data && this.cliArgs == cliArgs
    {
      this.data := data;
      this.cliArgs := cliArgs;
    }

    /** `set_value("capabilities.<target>.<field>", x)`, when the flag was given. */
    method OverrideField(target: string, field: string, x: Option<string>)
      requires '.' !in field
      modifies this
      ensures data == SetField(old(data), target, field, x)
    {
      if x.Some? {
        FieldPathSplits(target, field);
        data := SetValue(data, "capabilities." + target + "." + field, Str(x.value));
      }
    }

    method OverrideName()
      modifies this
      ensures data == SetName(old(data), cliArgs)
    {
      NamePathSplits();
      if cliArgs.name.Some? {
        data := SetValue(data, "common.name", Str(cliArgs.name.value));
      }
    }

    method ResolveTarget() returns (target: string)
      ensures target == Target(data, cliArgs)
    {
      NamePathSplits();
      if cliArgs.name.Some? { return cliArgs.name.value; }
      var configured := GetValue(data, "common.name");
      if configured.Some? && configured.value.Str? { return configured.value.text; }
      return "config_server";
    }

    method ApplyCliOverrides()
      modifies this
      ensures data == Override(old(data), cliArgs)
    {
      ghost var named := SetName(data, cliArgs);
      OverrideName();
      var target := ResolveTarget();
      assert target == Target(old(data), cliArgs);
      OverrideField(target, "ip", cliArgs.host);
      assert data == SetFields(named, target, cliArgs, 1);
      OverrideField(target, "port", NumberText(cliArgs.port));
      assert data == SetFields(named, target, cliArgs, 2);
      OverrideField(target, "grpc_ip", cliArgs.grpcHost);
      assert data == SetFields(named, target, cliArgs, 3);
      OverrideField(target, "grpc_port", NumberText(cliArgs.grpcPort));
    }

    /** `get_addr`, which the TCP, gRPC and REST getters call with their own keys. */
    method ResolveAddr(capability: string, hostKey: string, portKey: string) returns (r: Result<string, AddrError>)
      ensures r == GetAddr(data, capability, hostKey, portKey)
    {
      CapPathSplits(capability);
      var cap := GetValue(data, "capabilities." + capability);
      if cap.None? { return Err(CapabilityNotFound); }
      var host, port := HostIn(cap.value, hostKey), PortIn(cap.value, portKey);
      if host.None? { return Err(HostMissing); }
      if port.None? { return Err(PortMissing); }
      return Ok(host.value + ":" + port.value);
    }
  }

  lemma NamePathSplits()
    ensures Split("common.name", '.') == NAME_PATH
  {
    SplitDotted("common", "name");
    SplitPlain("name", '.');
    PrefixWithDot("common", "common.", "name");
    assert "common." + "name" == "common.name";
  }

  lemma FieldPathSplits(capability: string, field: string)
    requires '.' !in field
    ensures Split("capabilities." + capability + "." + field, '.') == CapPath(capability) + [field]
  {
    CapPathSplits(capability);
    SplitPlain(field, '.');
    SplitAppend("capabilities." + capability, field, '.');
  }

  // ------------------------------------------------------------------ what the overrides do

  lemma {:induction false} FieldsAfter(data: Value, target: string, args: CliArgs, n: nat, field: string)
    requires n <= |FIELDS|
    ensures Get(SetFields(data, target, args, n), CapPath(target) + [field]) ==
            if field in FIELDS[..n] && FlagValue(args, field).Some? then Some(Str(FlagValue(args, field).value))
            else Get(data, CapPath(target) + [field])
  {
    if n > 0 {
      FieldsAfter(data, target, args, n - 1, field);
      var before, last := SetFields(data, target, args, n - 1), FIELDS[n - 1];
      assert FIELDS[..n] == FIELDS[..n - 1] + [last];
      if FlagValue(args, last).Some? {
        var p, q := CapPath(target) + [last], CapPath(target) + [field];
        if field == last {
          assert p + [] == p;
          GetAfterSet(before, p, [], Str(FlagValue(args, last).value));
        } else {
          assert p[|p| - 1] == last && q[|q| - 1] == field;
          SetLeavesOthers(before, p, q, Str(FlagValue(args, last).value));
        }
      }
    }
  }

  /** Every field of the target is what its flag says, or what it was when the flag is absent. */
  lemma FlagsDecideFields(data: Value, args: CliArgs, field: string)
    ensures Get(Override(data, args), CapPath(Target(data, args)) + [field]) ==
            if FlagValue(args, field).Some? then Some(Str(FlagValue(args, field).value))
            else Get(data, CapPath(Target(data, args)) + [field])
  {
    var q := CapPath(Target(data, args)) + [field];
    FieldsAfter(SetName(data, args), Target(data, args), args, |FIELDS|, field);
    assert FIELDS[..|FIELDS|] == FIELDS;
    if args.name.Some? {
      assert NAME_PATH[0] != q[0];
      SetLeavesOthers(data, NAME_PATH, q, Str(args.name.value));
    }
  }

  lemma {:induction false} GetBelow(v: Value, p: Path, q: Path)
    ensures Get(v, p + q) == if Get(v, p).Some? then Get(Get(v, p).value, q) else None
    decreases p
  {
    if p == [] {
      assert p + q == q;
    } else if v.Map? && p[0] in v.entries {
      assert (p + q)[1..] == p[1..] + q;
      GetBelow(v.entries[p[0]], p[1..], q);
    }
  }

  /** A host and a port on the command line determine the target's address, whatever the files said. */
  lemma FlagsDecideAddress(data: Value, args: CliArgs)
    ensures var data', target := Override(data, args), Target(data, args);
            && (args.host.Some? && args.port.Some? ==>
                  GetAddr(data', target, "ip", "port") == Ok(args.host.value + ":" + Decimal(args.port.value)))
            && (args.grpcHost.Some? && args.grpcPort.Some? ==>
                  GetAddr(data', target, "grpc_ip", "grpc_port")
                      == Ok(args.grpcHost.value + ":" + Decimal(args.grpcPort.value)))
  {
    var data', target := Override(data, args), Target(data, args);
    forall f: string ensures Get(data', CapPath(target) + [f]) ==
              if Get(data', CapPath(target)).Some? then Field(Get(data', CapPath(target)).value, f) else None
    {
      GetBelow(data', CapPath(target), [f]);
    }
    FlagsDecideFields(data, args, "ip");
    FlagsDecideFields(data, args, "port");
    FlagsDecideFields(data, args, "grpc_ip");
    FlagsDecideFields(data, args, "grpc_port");
  }

  lemma {:induction false} FieldsLeaveOthers(data: Value, target: string, args: CliArgs, n: nat, q: Path)
    requires n <= |FIELDS| && Incomparable(CapPath(target), q)
    ensures Get(SetFields(data, target, args, n), q) == Get(data, q)
  {
    if n > 0 {
      FieldsLeaveOthers(data, target, args, n - 1, q);
      var p := CapPath(target) + [FIELDS[n - 1]];
      assert p[..|CapPath(target)|] == CapPath(target);
      assert Incomparable(p, q);
      if FlagValue(args, FIELDS[n - 1]).Some? {
        SetLeavesOthers(SetFields(data, target, args, n - 1), p, q, Str(FlagValue(args, FIELDS[n - 1]).value));
      }
    }
  }

  /**
   The overrides leave every address of every other capability as it was, provided neither name
   is a dotted prefix of the other.
   */
  lemma OtherCapabilitiesKeepAddresses(data: Value, args: CliArgs, capability: string, hostKey: string, portKey: string)
    requires Incomparable(Split(Target(data, args), '.'), Split(capability, '.'))
    ensures GetAddr(Override(data, args), capability, hostKey, portKey) == GetAddr(data, capability, hostKey, portKey)
  {
    var target, q := Target(data, args), CapPath(capability);
    assert CapPath(target)[1..] == Split(target, '.') && q[1..] == Split(capability, '.');
    assert Incomparable(CapPath(target), q);
    FieldsLeaveOthers(SetName(data, args), target, args, |FIELDS|, q);
    if args.name.Some? {
      assert NAME_PATH[0] != q[0];
      SetLeavesOthers(data, NAME_PATH, q, Str(args.name.value));
    }
  }

  /** In particular for names without dots: only the target itself is affected. */
  lemma DotFreeCapabilitiesKeepAddresses(data: Value, args: CliArgs, capability: string, hostKey: string,
      portKey: string)
    requires '.' !in capability && '.' !in Target(data, args) && capability != Target(data, args)
    ensures GetAddr(Override(data, args), capability, hostKey, portKey) == GetAddr(data, capability, hostKey, portKey)
  {
    SplitPlain(capability, '.');
    SplitPlain(Target(data, args), '.');
    assert Split(capability, '.')[0] != Split(Target(data, args), '.')[0];
    OtherCapabilitiesKeepAddresses(data, args, capability, hostKey, portKey);
  }

  // ------------------------------------------------------------------ which capability the flags reach

  predicate ShowsNumber(v: Option<Value>, n: nat) {
    v.Some? && v.value.Str? && IsNumeral(v.value.text) && NumeralValue(v.value.text) == n
  }

  predicate ShowsText(v: Option<Value>, flag: Option<string>) {
    flag.Some? ==> v == Some(Str(flag.value))
  }

  /** Every given flag stands in its own field under the path. */
  predicate ShowsFlags(data: Value, path: Path, args: CliArgs) {
    && ShowsText(Get(data, path + ["ip"]), args.host)
    && (args.port.Some? ==> ShowsNumber(Get(data, path + ["port"]), args.port.value))
    && ShowsText(Get(data, path + ["grpc_ip"]), args.grpcHost)
    && (args.grpcPort.Some? ==> ShowsNumber(Get(data, path + ["grpc_port"]), args.grpcPort.value))
  }

  lemma NameAfterOverride(data: Value, args: CliArgs)
    ensures Get(Override(data, args), ["common", "name"])
         == if args.name.Some? then Some(Str(args.name.value)) else Get(data, ["common", "name"])
  {
    var p := CapPath(Target(data, args));
    assert p[0] != NAME_PATH[0];
    FieldsLeaveOthers(SetName(data, args), Target(data, args), args, |FIELDS|, NAME_PATH);
    if args.name.Some? {
      assert NAME_PATH + [] == NAME_PATH;
      GetAfterSet(data, NAME_PATH, [], Str(args.name.value));
    }
  }

  lemma TargetShowsFlags(data: Value, args: CliArgs)
    ensures ShowsFlags(Override(data, args), CapPath(Target(data, args)), args)
  {
    FlagsDecideFields(data, args, "ip");
    FlagsDecideFields(data, args, "port");
    FlagsDecideFields(data, args, "grpc_ip");
    FlagsDecideFields(data, args, "grpc_port");
    if args.port.Some? { DigitsValue(args.port.value); }
    if args.grpcPort.Some? { DigitsValue(args.grpcPort.value); }
  }

  /**
   The flags go to the capability named on the command line, which also becomes the common name;
   without one, to the capability that the configured common name names; otherwise, also when
   the common name is no string, to `config_server`.
   */
  lemma FlagsReachTarget(data: Value, args: CliArgs)
    ensures var data', name := Override(data, args), Get(data, ["common", "name"]);
            && (args.name.Some? ==>
                  && ShowsFlags(data', CapPath(args.name.value), args)
                  && Get(data', ["common", "name"]) == Some(Str(args.name.value)))
            && (args.name.None? ==> Get(data', ["common", "name"]) == name)
            && (args.name.None? && name.Some? && name.value.Str? ==>
                  ShowsFlags(data', CapPath(name.value.text), args))
            && (args.name.None? && (name.None? || !name.value.Str?) ==>
                  ShowsFlags(data', CapPath("config_server"), args))
  {
    TargetShowsFlags(data, args);
    NameAfterOverride(data, args);
  }

  // ------------------------------------------------------------------ what an address is read from

  predicate IsText(fields: map<string, Value>, key: string, s: string) {
    key in fields && fields[key] == Str(s)
  }

  predicate NoText(fields: map<string, Value>, key: string) {
    key in fields ==> !fields[key].Str?
  }

  /** The host comes from its own key, or else from `ip`; without a text at either the address has no host. */
  predicate HostIs(fields: map<string, Value>, hostKey: string, host: string) {
    IsText(fields, hostKey, host) || (NoText(fields, hostKey) && IsText(fields, "ip", host))
  }

  /** The port is a text, an integer or another number. */
  predicate PortIs(fields: map<string, Value>, portKey: string, port: string) {
    portKey in fields &&
    match fields[portKey]
    case Str(s) => port == s
    case Num(n) => port == Decimal(n)
    case Float(printed) => port == printed
    case _ => false
  }

  predicate HasPort(fields: map<string, Value>, portKey: string) {
    portKey in fields && (fields[portKey].Str? || fields[portKey].Num? || fields[portKey].Float?)
  }

  lemma FieldOf(fields: map<string, Value>, key: string)
    ensures Field(Map(fields), key) == if key in fields then Some(fields[key]) else None
  {
    if key in fields {
      assert [key][1..] == [] && Get(fields[key], []) == Some(fields[key]);
    }
  }

  /** An address is a host, a colon and a port. */
  lemma AddressIsRead(data: Value, capability: string, fields: map<string, Value>, hostKey: string, portKey: string,
                      host: string)
    requires Get(data, CapPath(capability)) == Some(Map(fields))
    requires HostIs(fields, hostKey, host) && HasPort(fields, portKey)
    ensures var r := GetAddr(data, capability, hostKey, portKey);
            && r.Ok? && host + ":" <= r.value && PortIs(fields, portKey, r.value[|host| + 1..])
  {
    FieldOf(fields, hostKey);
    FieldOf(fields, "ip");
    FieldOf(fields, portKey);
    var port := PortIn(Map(fields), portKey).value;
    assert (host + ":" + port)[|host| + 1..] == port;
  }

  /** The three ways not to get an address, in the order in which they are looked for. */
  lemma AddressFails(data: Value, capability: string, hostKey: string, portKey: string)
    ensures var r, cap := GetAddr(data, capability, hostKey, portKey), Get(data, CapPath(capability));
            && (cap.None? <==> r == Err(CapabilityNotFound))
            && (cap.Some? && !cap.value.Map? ==> r == Err(HostMissing))
            && (cap.Some? && cap.value.Map? ==>
                  var fields := cap.value.entries;
                  var hostless := NoText(fields, hostKey) && NoText(fields, "ip");
                  && (hostless <==> r == Err(HostMissing))
                  && (!hostless && !HasPort(fields, portKey) <==> r == Err(PortMissing)))
  {
    var cap := Get(data, CapPath(capability));
    if cap.Some? && cap.value.Map? {
      FieldOf(cap.value.entries, hostKey);
      FieldOf(cap.value.entries, "ip");
      FieldOf(cap.value.entries, portKey);
    }
  }
}
