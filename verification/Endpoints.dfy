/**
 Unique-endpoint validation of the Go, Rust and C++ loaders, and the splitting of printed
 addresses that it and the spec publishers rely on.
 */
module Endpoints {
  import opened Wrappers
  import opened Text

  datatype Endpoint = Endpoint(ip: string, port: int)

  // ------------------------------------------------------------------ reading an address

  const MAX_INT64 := 0x7FFF_FFFF_FFFF_FFFF

  /** `strconv.Atoi`: an optional sign, decimal digits, within the 64-bit range. */
  function Atoi(s: string): Option<int> {
    var digits := if s != "" && (s[0] == '+' || s[0] == '-') then s[1..] else s;
    if !IsNumeral(digits) then None
    else
      var magnitude: int := NumeralValue(digits);
      var n := if s[0] == '-' then -magnitude else magnitude;
      if -MAX_INT64 - 1 <= n <= MAX_INT64 then Some(n) else None
  }

  function Lower(c: char): char {
    if 'A' <= c <= 'Z' then (c as int + 32) as char else c
  }

  function ToLower(s: string): string {
    seq(|s|, i requires 0 <= i < |s| => Lower(s[i]))
  }

  predicate IsSpace(c: char) {
    9 <= c as int <= 13 || c as int == 32 || c as int == 0x85 || c as int == 0xA0
  }

  function TrimLeft(s: string): string {
    if s != "" && IsSpace(s[0]) then TrimLeft(s[1..]) else s
  }

  function TrimRight(s: string): string {
    if s != "" && IsSpace(s[|s| - 1]) then TrimRight(s[..|s| - 1]) else s
  }

  function NormalizeIP(ip: string): string {
    var s := TrimRight(TrimLeft(ToLower(ip)));
    if s == "localhost" then "127.0.0.1" else s
  }

  /** C++ lowers the case but does not trim. */
  function CppNormalizeIP(ip: string): string {
    var s := ToLower(ip);
    if s == "localhost" then "127.0.0.1" else s
  }

  /** The three validators run the same loop and differ in how they read an address. */
  datatype Language = Go | Rust | Cpp

  /**
   The endpoint that an address counts as. Go and C++ skip ports that are not positive, Rust does
   not; C++ reads a numeric prefix of 32 bits and skips empty hosts.
   */
  function EndpointIn(language: Language, addr: string): (r: Option<Endpoint>)
    ensures ':' !in addr ==> r.None?
  {
    match LastIndex(addr, ':')
    case None => None
    case Some(i) =>
      var host, text := addr[..i], addr[i + 1..];
      match language
      case Go => if Atoi(text).Some? && Atoi(text).value > 0
          then Some(Endpoint(NormalizeIP(host), Atoi(text).value)) else None
      case Rust => if Atoi(text).Some? then Some(Endpoint(NormalizeIP(host), Atoi(text).value)) else None
      case Cpp =>
        if Stoi(text).Some? && Stoi(text).value > 0 && host != ""
        then Some(Endpoint(CppNormalizeIP(host), Stoi(text).value)) else None
  }

  predicate Conflict(e: Endpoint, f: Endpoint) {
    e.port == f.port && (e.ip == f.ip || e.ip == "0.0.0.0" || f.ip == "0.0.0.0")
  }

  // ------------------------------------------------------------------ the validation

  datatype Kind = TCP | GRPC | REST

  /** One of the three addresses of a capability. */
  datatype Slot = Slot(capability: string, kind: Kind)

  const KINDS: seq<Kind> := [TCP, GRPC, REST]

  /** The addresses that the resolver returns without an error. */
  type Addresses = map<Slot, string>

  type Endpoints = map<Slot, Endpoint>

  /** The slots whose address counts as an endpoint. */
  function Resolved(language: Language, addresses: Addresses): Endpoints {
    map slot | slot in addresses && EndpointIn(language, addresses[slot]).Some? ::
        EndpointIn(language, addresses[slot]).value
  }

  predicate SlotsConflict(endpoints: Endpoints, a: Slot, b: Slot) {
    a != b && a in endpoints && b in endpoints && Conflict(endpoints[a], endpoints[b])
  }

  /** The promise of the validation, with no order in it: no two endpoints of the configured capabilities conflict. */
  ghost predicate AllUnique(capabilities: set<string>, endpoints: Endpoints) {
    forall a: Slot, b: Slot :: a.capability in capabilities && b.capability in capabilities ==>
        !SlotsConflict(endpoints, a, b)
  }

  /** `seen` is the exact index of the visited slots that have an endpoint: each endpoint once, under its own slot. */
  ghost predicate Indexes(seen: map<Endpoint, Slot>, visited: set<Slot>, endpoints: Endpoints) {
    && (forall e <- seen :: seen[e] in visited && seen[e] in endpoints && endpoints[seen[e]] == e)
    && (forall a <- visited :: a in endpoints ==> endpoints[a] in seen && seen[endpoints[a]] == a)
    && (forall a <- visited, b <- visited :: !SlotsConflict(endpoints, a, b))
  }

  datatype Verdict = Accepted | Duplicate(slot: Slot, earlier: Slot)

  /** The inner loop of `checkAndAdd`: compares with every endpoint seen so far, in any order. */
  method FindConflict(seen: map<Endpoint, Slot>, e: Endpoint) returns (found: Option<Endpoint>)
    ensures found.Some? ==> found.value in seen && Conflict(e, found.value)
    ensures found.None? ==> forall f <- seen :: !Conflict(e, f)
  {
    var todo := seen.Keys;
    while todo != {}
      invariant todo <= seen.Keys
      invariant forall f <- seen :: f !in todo ==> !Conflict(e, f)
      decreases todo
    {
      var f :| f in todo;
      todo := todo - {f};
      if f.port == e.port {
        if e.ip == f.ip || e.ip == "0.0.0.0" || f.ip == "0.0.0.0" { return Some(f); }
      }
    }
    return None;
  }

  lemma IndexGrows(seen: map<Endpoint, Slot>, visited: set<Slot>, endpoints: Endpoints, slot: Slot)
    requires Indexes(seen, visited, endpoints) && slot !in visited
    requires slot in endpoints ==> forall f <- seen :: !Conflict(endpoints[slot], f)
    ensures Indexes(if slot in endpoints then seen[endpoints[slot] := slot] else seen, visited + {slot}, endpoints)
    ensures slot in endpoints ==> endpoints[slot] !in seen
  {
    forall a | a in visited ensures !SlotsConflict(endpoints, a, slot) && !SlotsConflict(endpoints, slot, a) {
    }
  }

  /** The closure `checkAndAdd`. An accepted endpoint is always a new key: no entry of `seen` is ever overwritten. */
  method CheckAndAdd(language: Language, seen: map<Endpoint, Slot>, slot: Slot, addr: string,
                     ghost visited: set<Slot>, ghost addresses: Addresses)
    returns (verdict: Verdict, seen': map<Endpoint, Slot>)
    requires Indexes(seen, visited, Resolved(language, addresses)) && slot !in visited
    requires slot in addresses && addresses[slot] == addr
    ensures verdict.Accepted? ==> Indexes(seen', visited + {slot}, Resolved(language, addresses))
    ensures forall e <- seen :: e in seen' && seen'[e] == seen[e]
    ensures verdict.Duplicate? ==>
              verdict.slot == slot && verdict.earlier in visited
                  && SlotsConflict(Resolved(language, addresses), slot, verdict.earlier)
  {
    seen' := seen;
    ghost var endpoints := Resolved(language, addresses);
    var parsed := EndpointIn(language, addr);
    if parsed.Some? {
      var found := FindConflict(seen, parsed.value);
      if found.Some? { return Duplicate(slot, seen[found.value]), seen'; }
      seen' := seen[parsed.value := slot];
    }
    IndexGrows(seen, visited, endpoints, slot);
    verdict := Accepted;
  }

  method ValidateUniquePorts(language: Language, capabilities: set<string>, addresses: Addresses)
      returns (verdict: Verdict)
    ensures verdict.Accepted? <==> AllUnique(capabilities, Resolved(language, addresses))
    ensures verdict.Duplicate? ==>
              && verdict.slot.capability in capabilities && verdict.earlier.capability in capabilities
              && SlotsConflict(Resolved(language, addresses), verdict.slot, verdict.earlier)
  {
    var seen: map<Endpoint, Slot> := map[];
    ghost var visited: set<Slot> := {};
    var todo := capabilities;
    while todo != {}
      invariant todo <= capabilities
      invariant Indexes(seen, visited, Resolved(language, addresses))
      invariant forall a: Slot :: a in visited <==> a.capability in capabilities - todo && a in addresses
      decreases todo
    {
      var name :| name in todo;
      for i := 0 to |KINDS|
        invariant Indexes(seen, visited, Resolved(language, addresses))
        invariant forall a: Slot :: a in visited <==>
          a in addresses && (a.capability in capabilities - todo || (a.capability == name && a.kind in KINDS[..i]))
      {
        var slot := Slot(name, KINDS[i]);
        assert KINDS[..i + 1] == KINDS[..i] + [KINDS[i]];
        if slot in addresses {
          verdict, seen := CheckAndAdd(language, seen, slot, addresses[slot], visited, addresses);
          if verdict.Duplicate? { return; }
          visited := visited + {slot};
        }
      }
      assert forall k: Kind :: k in KINDS[..|KINDS|] by { AllKinds(); }
      todo := todo - {name};
    }
    verdict := Accepted;
    forall a: Slot, b: Slot | a.capability in capabilities && b.capability in capabilities
      ensures !SlotsConflict(Resolved(language, addresses), a, b)
    {
    }
  }

  lemma AllKinds()
    ensures forall k: Kind :: k in KINDS[..|KINDS|]
  {
    assert KINDS[..|KINDS|] == KINDS;
    assert KINDS[0] == TCP && KINDS[1] == GRPC && KINDS[2] == REST;
    forall k: Kind ensures k in KINDS {
      match k case TCP => case GRPC => case REST =>
    }
  }

  // ------------------------------------------------------------------ printing and splitting

  /** Splitting a printed address at its last colon gives back the host and the port, for any host, colons included. */
  lemma PrintedAddressSplits(host: string, port: string)
    requires ':' !in port
    ensures var addr := host + ":" + port;
            && LastIndex(addr, ':') == Some(|host|)
            && addr[..|host|] == host && addr[|host| + 1..] == port
  {
    var addr := host + ":" + port;
    assert addr[|host| + 1..] == port && addr[..|host|] == host;
    LastIndexIs(addr, ':', |host|);
  }

  lemma DecimalIsRead(n: int)
    ensures Atoi(Decimal(n)) == if -MAX_INT64 - 1 <= n <= MAX_INT64 then Some(n) else None
  {
    var magnitude: nat := if n < 0 then -n else n;
    DigitsValue(magnitude);
    assert IsDigit(Digits(magnitude)[0]);
    if n < 0 {
      assert Decimal(n)[1..] == Digits(magnitude);
    }
  }

  predicate Trimmed(host: string) {
    host != "" ==> !IsSpace(host[0]) && !IsSpace(host[|host| - 1])
  }

  lemma {:induction false} TrimLeftIs(s: string)
    ensures TrimLeft(s) == "" || !IsSpace(TrimLeft(s)[0])
    ensures |TrimLeft(s)| <= |s| && (TrimLeft(s) == s <==> s == "" || !IsSpace(s[0]))
  {
    if s != "" && IsSpace(s[0]) { TrimLeftIs(s[1..]); }
  }

  lemma {:induction false} TrimRightIs(s: string)
    ensures TrimRight(s) == "" || !IsSpace(TrimRight(s)[|TrimRight(s)| - 1])
    ensures TrimRight(s) <= s && (TrimRight(s) == s <==> s == "" || !IsSpace(s[|s| - 1]))
  {
    if s != "" && IsSpace(s[|s| - 1]) { TrimRightIs(s[..|s| - 1]); }
  }

  /** Without trimming, a host is normalised as with it exactly if there is nothing to trim. */
  lemma CppNormalizesLikeGoIff(host: string)
    ensures CppNormalizeIP(host) == NormalizeIP(host) <==> Trimmed(host)
  {
    var s := ToLower(host);
    assert host != "" ==> (IsSpace(s[0]) <==> IsSpace(host[0])) && (IsSpace(s[|s| - 1]) <==> IsSpace(host[|host| - 1]));
    TrimLeftIs(s);
    TrimRightIs(TrimLeft(s));
  }

  // ------------------------------------------------------------------ validating records

  /** A host and a port, as the configuration holds them before they are printed. */
  datatype Record = Record(host: string, port: int)

  function Print(r: Record): string {
    r.host + ":" + Decimal(r.port)
  }

  /** The records that count as endpoints. */
  predicate Counts(language: Language, r: Record) {
    match language
    case Go => 0 < r.port <= MAX_INT64
    case Rust => -MAX_INT64 - 1 <= r.port <= MAX_INT64
    case Cpp => 0 < r.port <= MAX_INT32 && r.host != ""
  }

  function RecordEndpoint(language: Language, r: Record): Endpoint {
    Endpoint(if language.Cpp? then CppNormalizeIP(r.host) else NormalizeIP(r.host), r.port)
  }

  lemma DecimalHasNoColon(n: int)
    ensures ':' !in Decimal(n)
  {
    var magnitude: nat := if n < 0 then -n else n;
    assert forall c <- Digits(magnitude) :: IsDigit(c);
  }

  /** Each language reads back exactly the printed records that count for it, hosts with colons included. */
  lemma PrintedRecordIsRead(language: Language, r: Record)
    ensures EndpointIn(language, Print(r)) == if Counts(language, r) then Some(RecordEndpoint(language, r)) else None
  {
    DecimalHasNoColon(r.port);
    PrintedAddressSplits(r.host, Decimal(r.port));
    DecimalIsRead(r.port);
    PrintedIntIsRead(r.port);
  }

  type Records = map<Slot, Record>

  function PrintAll(records: Records): Addresses {
    map slot | slot in records :: Print(records[slot])
  }

  function RecordEndpoints(language: Language, records: Records): Endpoints {
    map slot | slot in records && Counts(language, records[slot]) :: RecordEndpoint(language, records[slot])
  }

  lemma SameEndpointsSameVerdict(capabilities: set<string>, ex: Endpoints, ey: Endpoints)
    requires forall slot: Slot :: slot.capability in capabilities ==>
      (slot in ex <==> slot in ey) && (slot in ex ==> ex[slot] == ey[slot])
    ensures AllUnique(capabilities, ex) <==> AllUnique(capabilities, ey)
  {
    assert forall a: Slot, b: Slot :: a.capability in capabilities && b.capability in capabilities ==>
      (SlotsConflict(ex, a, b) <==> SlotsConflict(ey, a, b));
  }

  /** Validating printed addresses is validating the records, in every language and for any hosts and ports. */
  lemma ValidatesRecords(language: Language, capabilities: set<string>, records: Records)
    ensures AllUnique(capabilities, Resolved(language, PrintAll(records)))
       <==> AllUnique(capabilities, RecordEndpoints(language, records))
  {
    var read, meant := Resolved(language, PrintAll(records)), RecordEndpoints(language, records);
    forall slot: Slot
      ensures slot in read <==> slot in meant
      ensures slot in read ==> read[slot] == meant[slot]
    {
      if slot in records { PrintedRecordIsRead(language, records[slot]); }
    }
    SameEndpointsSameVerdict(capabilities, read, meant);
  }

  /**
   A record that all three languages read alike: a port that the C++ integer holds, a host that
   trimming would not change.
   */
  predicate Portable(r: Record) {
    0 < r.port <= MAX_INT32 && r.host != "" && Trimmed(r.host)
  }

  lemma PortableRecordIsRead(language: Language, r: Record)
    requires Portable(r)
    ensures EndpointIn(language, Print(r)) == Some(Endpoint(NormalizeIP(r.host), r.port))
  {
    PrintedRecordIsRead(language, r);
    CppNormalizesLikeGoIff(r.host);
  }

  /** On printed portable records the three languages reach the same verdict. */
  lemma LanguagesValidateAlike(x: Language, y: Language, capabilities: set<string>, records: Records)
    requires forall slot <- records :: slot.capability in capabilities ==> Portable(records[slot])
    ensures AllUnique(capabilities, Resolved(x, PrintAll(records)))
       <==> AllUnique(capabilities, Resolved(y, PrintAll(records)))
  {
    var ex, ey := Resolved(x, PrintAll(records)), Resolved(y, PrintAll(records));
    forall slot: Slot | slot.capability in capabilities
      ensures slot in ex <==> slot in ey
      ensures slot in ex ==> ex[slot] == ey[slot]
    {
      if slot in records {
        PortableRecordIsRead(x, records[slot]);
        PortableRecordIsRead(y, records[slot]);
      }
    }
    SameEndpointsSameVerdict(capabilities, ex, ey);
  }

  // ------------------------------------------------------------------ which hosts are the same

  /** `localhost` in any mixture of upper and lower case. */
  predicate IsLocalhost(host: string) {
    && |host| == 9
    && host[0] in {'l', 'L'} && host[1] in {'o', 'O'} && host[2] in {'c', 'C'} && host[3] in {'a', 'A'}
    && host[4] in {'l', 'L'} && host[5] in {'h', 'H'} && host[6] in {'o', 'O'} && host[7] in {'s', 'S'}
    && host[8] in {'t', 'T'}
  }

  /** Equal up to the case of the letters A to Z. */
  predicate SameLetters(a: string, b: string) {
    |a| == |b| && forall i :: 0 <= i < |a| ==>
      a[i] == b[i] || ('A' <= a[i] <= 'Z' && a[i] as int + 32 == b[i] as int)
                   || ('A' <= b[i] <= 'Z' && b[i] as int + 32 == a[i] as int)
  }

  predicate Blank(s: string) {
    forall c <- s :: IsSpace(c)
  }

  lemma {:induction false} LeftPadding(pad: string, s: string)
    requires Blank(pad) && s != "" && !IsSpace(s[0])
    ensures TrimLeft(pad + s) == s
  {
    if pad == "" {
      assert pad + s == s;
    } else {
      assert (pad + s)[1..] == pad[1..] + s;
      LeftPadding(pad[1..], s);
    }
  }

  lemma {:induction false} RightPadding(s: string, pad: string)
    requires Blank(pad) && s != "" && !IsSpace(s[|s| - 1])
    ensures TrimRight(s + pad) == s
    decreases |pad|
  {
    if pad == "" {
      assert s + pad == s;
    } else {
      var init := pad[..|pad| - 1];
      assert (s + pad)[..|s + pad| - 1] == s + init && (s + pad)[|s + pad| - 1] == pad[|pad| - 1];
      RightPadding(s, init);
    }
  }

  lemma LowerPadded(left: string, host: string, right: string)
    requires Blank(left) && Blank(right)
    ensures ToLower(left + host + right) == left + (ToLower(host) + right)
  {
    assert forall c: char :: IsSpace(c) ==> Lower(c) == c;
    assert forall i :: 0 <= i < |left| ==> IsSpace(left[i]);
    assert forall i :: 0 <= i < |right| ==> IsSpace(right[i]);
  }

  lemma Unpadded(left: string, host: string, right: string)
    requires Blank(left) && Blank(right) && host != "" && Trimmed(host)
    ensures NormalizeIP(left + host + right) == if ToLower(host) == "localhost" then "127.0.0.1" else ToLower(host)
  {
    var s := ToLower(host);
    LowerPadded(left, host, right);
    LeftPadding(left, s + right);
    RightPadding(s, right);
  }

  lemma NormalizedTrimmed(host: string)
    requires host != "" && Trimmed(host)
    ensures NormalizeIP(host) == CppNormalizeIP(host)
    ensures NormalizeIP(host) == if ToLower(host) == "localhost" then "127.0.0.1" else ToLower(host)
  {
    Unpadded("", host, "");
    assert "" + host + "" == host;
  }

  /** `localhost` is the loopback address in any case, in Go and Rust with any white space around it. */
  lemma LocalhostIsLoopback(left: string, host: string, right: string)
    requires IsLocalhost(host) && Blank(left) && Blank(right)
    ensures NormalizeIP(left + host + right) == "127.0.0.1" && CppNormalizeIP(host) == "127.0.0.1"
  {
    var s := ToLower(host);
    assert s[0] == 'l' && s[1] == 'o' && s[2] == 'c' && s[3] == 'a' && s[4] == 'l';
    assert s[5] == 'h' && s[6] == 'o' && s[7] == 's' && s[8] == 't';
    assert s == "localhost";
    Unpadded(left, host, right);
  }

  lemma SameLettersLower(a: string, b: string)
    requires SameLetters(a, b)
    ensures ToLower(a) == ToLower(b)
  {
    assert forall i :: 0 <= i < |a| ==> Lower(a[i]) == Lower(b[i]);
  }

  /** The case of letters never tells two hosts apart, and padding does not in Go and Rust. */
  lemma CaseIsIgnored(left: string, a: string, right: string, b: string)
    requires SameLetters(a, b) && Blank(left) && Blank(right) && a != "" && Trimmed(a)
    ensures NormalizeIP(left + a + right) == NormalizeIP(b) && CppNormalizeIP(a) == CppNormalizeIP(b)
  {
    SameLettersLower(a, b);
    assert a[0] == b[0] || (!IsSpace(a[0]) && !IsSpace(b[0]));
    Unpadded(left, a, right);
    NormalizedTrimmed(a);
    NormalizedTrimmed(b);
  }

  /** A host that normalisation keeps: nothing to lower, to trim or to resolve. */
  predicate IsPlainHost(host: string) {
    host != "" && Trimmed(host) && host != "localhost" && forall c <- host :: !('A' <= c <= 'Z')
  }

  lemma PlainHostIsKept(host: string)
    requires IsPlainHost(host)
    ensures NormalizeIP(host) == host && CppNormalizeIP(host) == host
  {
    assert ToLower(host) == host by {
      forall i | 0 <= i < |host| ensures Lower(host[i]) == host[i] { assert host[i] in host; }
    }
    NormalizedTrimmed(host);
  }

  lemma PlainRecordIsRead(language: Language, r: Record)
    requires Counts(language, r) && IsPlainHost(r.host)
    ensures EndpointIn(language, Print(r)) == Some(Endpoint(r.host, r.port))
  {
    PrintedRecordIsRead(language, r);
    PlainHostIsKept(r.host);
  }

  lemma UniquePair(a: Slot, e: Endpoint, b: Slot, f: Endpoint, endpoints: Endpoints)
    requires a != b && endpoints.Keys <= {a, b}
    requires a in endpoints && b in endpoints && endpoints[a] == e && endpoints[b] == f
    ensures AllUnique({a.capability, b.capability}, endpoints) <==> !Conflict(e, f)
  {
    if Conflict(e, f) {
      assert SlotsConflict(endpoints, a, b);
    } else {
      assert !SlotsConflict(endpoints, a, b) && !SlotsConflict(endpoints, b, a);
    }
  }

  lemma ResolvedAt(language: Language, addresses: Addresses, slot: Slot, e: Endpoint)
    requires slot in addresses && EndpointIn(language, addresses[slot]) == Some(e)
    ensures slot in Resolved(language, addresses) && Resolved(language, addresses)[slot] == e
  {
  }

  lemma ResolvedIsSubset(language: Language, addresses: Addresses)
    ensures Resolved(language, addresses).Keys <= addresses.Keys
  {
  }

  lemma TwoAddressesConflictIff(language: Language, a: Slot, e: Endpoint, b: Slot, f: Endpoint, addresses: Addresses)
    requires a != b && addresses.Keys == {a, b}
    requires EndpointIn(language, addresses[a]) == Some(e) && EndpointIn(language, addresses[b]) == Some(f)
    ensures AllUnique({a.capability, b.capability}, Resolved(language, addresses)) <==> !Conflict(e, f)
  {
    ResolvedAt(language, addresses, a, e);
    ResolvedAt(language, addresses, b, f);
    ResolvedIsSubset(language, addresses);
    UniquePair(a, e, b, f, Resolved(language, addresses));
  }

  /** Two printed records are rejected exactly if they share a port and a host, where `0.0.0.0` is every host. */
  lemma TwoRecordsConflictIff(language: Language, a: Slot, r: Record, b: Slot, q: Record, addresses: Addresses)
    requires a != b && addresses.Keys == {a, b} && addresses[a] == Print(r) && addresses[b] == Print(q)
    requires Counts(language, r) && Counts(language, q) && IsPlainHost(r.host) && IsPlainHost(q.host)
    ensures !AllUnique({a.capability, b.capability}, Resolved(language, addresses))
       <==> r.port == q.port && (r.host == q.host || r.host == "0.0.0.0" || q.host == "0.0.0.0")
  {
    PlainRecordIsRead(language, r);
    PlainRecordIsRead(language, q);
    TwoAddressesConflictIff(language, a, Endpoint(r.host, r.port), b, Endpoint(q.host, q.port), addresses);
  }

  // ------------------------------------------------------------------ the port in an address

  function GoExtractPort(addr: string): string {
    if addr == "" then ""
    else
      var parts := Split(addr, ':');
      if |parts| >= 2 then parts[|parts| - 1] else addr
  }

  function RustExtractPort(addr: string): string {
    if addr == "" then ""
    else match LastIndex(addr, ':')
      case Some(i) => addr[i + 1..]
      case None => addr
  }

  function CppExtractPort(addr: string): string {
    match LastIndex(addr, ':')
    case Some(i) => addr[i + 1..]
    case None => ""
  }

  /** Go takes the last piece of a split, Rust the text after the last colon: the same text for every address. */
  lemma GoExtractsLikeRust(addr: string)
    ensures GoExtractPort(addr) == RustExtractPort(addr)
  {
    match LastIndex(addr, ':')
    case None =>
      SplitPlain(addr, ':');
    case Some(i) =>
      assert addr == addr[..i] + [':'] + addr[i + 1..];
      SplitAppend(addr[..i], addr[i + 1..], ':');
      SplitPlain(addr[i + 1..], ':');
  }

  /** An address without a colon is its own port in Go and Rust and has none in C++. */
  lemma ColonlessAddress(addr: string)
    requires ':' !in addr
    ensures GoExtractPort(addr) == addr && RustExtractPort(addr) == addr && CppExtractPort(addr) == ""
  {
    GoExtractsLikeRust(addr);
  }

  /** C++ agrees with them exactly on addresses that are empty or contain a colon. */
  lemma CppExtractsLikeGoIff(addr: string)
    ensures CppExtractPort(addr) == GoExtractPort(addr) <==> addr == "" || ':' in addr
  {
    GoExtractsLikeRust(addr);
  }

  /** On a printed address all three languages recover the port. */
  lemma ExtractedPortIsPrintedPort(host: string, port: string)
    requires ':' !in port
    ensures var addr := host + ":" + port;
            GoExtractPort(addr) == port && RustExtractPort(addr) == port && CppExtractPort(addr) == port
  {
    PrintedAddressSplits(host, port);
    GoExtractsLikeRust(host + ":" + port);
  }
}
