/** Where the endpoint validations of Go, Rust and C++ part ways: on which addresses, and with which verdicts. */
module EndpointVerdicts {
  import opened Wrappers
  import opened Text
  import opened Endpoints

  // ------------------------------------------------------------------ one address, counted by one language

  function Pair(x: string, first: string, y: string, second: string): Addresses {
    map[Slot(x, TCP) := first, Slot(y, TCP) := second]
  }

  predicate AddressesConflict(language: Language, first: string, second: string) {
    var e, f := EndpointIn(language, first), EndpointIn(language, second);
    e.Some? && f.Some? && Conflict(e.value, f.value)
  }

  lemma OnlyTwoSlots(endpoints: Endpoints, a: Slot, b: Slot)
    requires endpoints.Keys <= {a, b} && a != b
    ensures AllUnique({a.capability, b.capability}, endpoints) <==> !SlotsConflict(endpoints, a, b)
  {
    assert SlotsConflict(endpoints, a, b) <==> SlotsConflict(endpoints, b, a);
  }

  /** Two capabilities with one address each are a duplicate exactly if the addresses conflict. */
  lemma PairIsUniqueIff(language: Language, x: string, first: string, y: string, second: string)
    requires x != y
    ensures AllUnique({x, y}, Resolved(language, Pair(x, first, y, second)))
        <==> !AddressesConflict(language, first, second)
  {
    var a, b := Slot(x, TCP), Slot(y, TCP);
    var addresses := Pair(x, first, y, second);
    assert addresses[a] == first && addresses[b] == second;
    OnlyTwoSlots(Resolved(language, addresses), a, b);
  }

  function Shared(x: string, y: string, addr: string): Addresses {
    Pair(x, addr, y, addr)
  }

  /**
   Two capabilities that share an address which only one of two languages counts are a duplicate
   for that one alone.
   */
  lemma SharedAddressDiffers(counting: Language, skipping: Language, x: string, y: string, addr: string)
    requires x != y && EndpointIn(counting, addr).Some? && EndpointIn(skipping, addr).None?
    ensures !AllUnique({x, y}, Resolved(counting, Shared(x, y, addr)))
    ensures AllUnique({x, y}, Resolved(skipping, Shared(x, y, addr)))
  {
    PairIsUniqueIff(counting, x, addr, y, addr);
    PairIsUniqueIff(skipping, x, addr, y, addr);
  }

  // ------------------------------------------------------------------ Rust against Go

  /** The number after the last colon of an address, if it is one. */
  function PortNumber(addr: string): Option<int> {
    match LastIndex(addr, ':')
    case None => None
    case Some(i) => Atoi(addr[i + 1..])
  }

  predicate NonPositivePort(addr: string) {
    PortNumber(addr).Some? && PortNumber(addr).value <= 0
  }

  /** Rust and Go read an address differently exactly when it carries a port that is zero or negative. */
  lemma RustReadsLikeGoIff(addr: string)
    ensures EndpointIn(Rust, addr) == EndpointIn(Go, addr) <==> !NonPositivePort(addr)
  {
  }

  /** Two configured slots with zero or negative ports whose endpoints conflict. */
  ghost predicate NonPositiveConflict(capabilities: set<string>, addresses: Addresses) {
    exists a: Slot, b: Slot ::
      && a.capability in capabilities && b.capability in capabilities && a in addresses && b in addresses
      && NonPositivePort(addresses[a]) && NonPositivePort(addresses[b])
      && SlotsConflict(Resolved(Rust, addresses), a, b)
  }

  lemma RustConflictIs(addresses: Addresses, a: Slot, b: Slot)
    ensures SlotsConflict(Resolved(Rust, addresses), a, b) <==>
      || SlotsConflict(Resolved(Go, addresses), a, b)
      || (a in addresses && b in addresses && NonPositivePort(addresses[a]) && NonPositivePort(addresses[b])
          && SlotsConflict(Resolved(Rust, addresses), a, b))
  {
    if a in addresses { RustReadsLikeGoIff(addresses[a]); }
    if b in addresses { RustReadsLikeGoIff(addresses[b]); }
  }

  /** Rust rejects what Go rejects, and besides exactly the conflicts among ports that are not positive. */
  lemma RustAcceptsIff(capabilities: set<string>, addresses: Addresses)
    ensures AllUnique(capabilities, Resolved(Rust, addresses))
       <==> AllUnique(capabilities, Resolved(Go, addresses)) && !NonPositiveConflict(capabilities, addresses)
  {
    forall a: Slot, b: Slot
      ensures SlotsConflict(Resolved(Rust, addresses), a, b) <==>
        || SlotsConflict(Resolved(Go, addresses), a, b)
        || (a in addresses && b in addresses && NonPositivePort(addresses[a]) && NonPositivePort(addresses[b])
            && SlotsConflict(Resolved(Rust, addresses), a, b))
    {
      RustConflictIs(addresses, a, b);
    }
  }

  /** The verdicts of Rust and Go agree exactly if no such conflict hides in what Go accepts. */
  lemma RustVerdictAgreesIff(capabilities: set<string>, addresses: Addresses)
    ensures var rust := AllUnique(capabilities, Resolved(Rust, addresses));
            var go := AllUnique(capabilities, Resolved(Go, addresses));
            (rust <==> go) <==> (go ==> !NonPositiveConflict(capabilities, addresses))
  {
    RustAcceptsIff(capabilities, addresses);
  }

  /** Two capabilities at port zero of any host, such as 0.0.0.0: accepted by Go, a duplicate for Rust. */
  lemma ZeroPortsDiffer(x: string, y: string, host: string)
    requires x != y
    ensures var addresses := Shared(x, y, Print(Record(host, 0)));
            AllUnique({x, y}, Resolved(Go, addresses)) && !AllUnique({x, y}, Resolved(Rust, addresses))
  {
    PrintedRecordIsRead(Rust, Record(host, 0));
    PrintedRecordIsRead(Go, Record(host, 0));
    SharedAddressDiffers(Rust, Go, x, y, Print(Record(host, 0)));
  }

  // ------------------------------------------------------------------ C++ against Go

  /** A full numeral within 64 bits is what `std::stoi` reads, if it also fits in 32 bits. */
  lemma StoiOfAtoi(text: string)
    requires Atoi(text).Some?
    ensures Stoi(text) == if MIN_INT32 <= Atoi(text).value <= MAX_INT32 then Atoi(text) else None
  {
    var signed := text[0] == '+' || text[0] == '-';
    var digits := if signed then text[1..] else text;
    assert forall c <- digits :: IsDigit(c);
    assert IsDigit(digits[0]);
    DigitPrefixOfNumeral(digits);
  }

  /** Where C++ and Go count an address as the same endpoint, or both as none. */
  predicate CppAgrees(host: string, text: string) {
    match Atoi(text)
    case Some(n) => n <= 0 || (n <= MAX_INT32 && host != "" && Trimmed(host))
    case None => host == "" || Stoi(text).None? || Stoi(text).value <= 0
  }

  /**
   C++ reads an address like Go exactly if it has no colon, or its port is a numeral that is not
   positive or fits in 32 bits behind a trimmed host, or its port is no numeral and C++ finds no
   positive one at its start either.
   */
  lemma CppReadsLikeGoIff(addr: string)
    ensures EndpointIn(Cpp, addr) == EndpointIn(Go, addr) <==>
      match LastIndex(addr, ':')
      case None => true
      case Some(i) => CppAgrees(addr[..i], addr[i + 1..])
  {
    match LastIndex(addr, ':')
    case None =>
    case Some(i) =>
      CppNormalizesLikeGoIff(addr[..i]);
      if Atoi(addr[i + 1..]).Some? { StoiOfAtoi(addr[i + 1..]); }
  }

  lemma JunkIsNoNumeral(port: nat, junk: string)
    requires junk != "" && !IsDigit(junk[0])
    ensures Atoi(Decimal(port) + junk) == None
  {
    var text := Decimal(port) + junk;
    assert IsDigit(Digits(port)[0]) && text[0] == Digits(port)[0];
    assert text[|Digits(port)|] == junk[0] && text[|Digits(port)|] in text;
  }

  /**
   C++ counts a port with text behind it, such as 8x, and Go does not: two capabilities that share
   it get different verdicts.
   */
  lemma TrailingTextDiffers(x: string, y: string, host: string, port: nat, junk: string)
    requires x != y && host != "" && 0 < port <= MAX_INT32
    requires junk != "" && !IsDigit(junk[0]) && ':' !in junk
    ensures var addr := host + ":" + (Decimal(port) + junk);
            && EndpointIn(Cpp, addr) == Some(Endpoint(CppNormalizeIP(host), port))
            && EndpointIn(Go, addr) == None
            && !AllUnique({x, y}, Resolved(Cpp, Shared(x, y, addr)))
            && AllUnique({x, y}, Resolved(Go, Shared(x, y, addr)))
  {
    DecimalHasNoColon(port);
    PrintedAddressSplits(host, Decimal(port) + junk);
    JunkIsIgnoredByStoi(port, junk);
    JunkIsNoNumeral(port, junk);
    SharedAddressDiffers(Cpp, Go, x, y, host + ":" + (Decimal(port) + junk));
  }

  // ------------------------------------------------------------------ exactly which addresses are safe in C++

  predicate ReadAlike(addr: string) {
    EndpointIn(Cpp, addr) == EndpointIn(Go, addr)
  }

  /** Both languages count the address, and its host is nothing but white space. */
  predicate BlankHost(addr: string) {
    EndpointIn(Cpp, addr).Some? && EndpointIn(Go, addr).Some? && EndpointIn(Go, addr).value.ip == ""
  }

  predicate IsLower(s: string) {
    forall c <- s :: Lower(c) == c
  }

  lemma {:induction false} TrimLeftKeepsLower(s: string)
    requires IsLower(s)
    ensures IsLower(TrimLeft(s))
  {
    if s != "" && IsSpace(s[0]) { TrimLeftKeepsLower(s[1..]); }
  }

  lemma {:induction false} TrimRightKeeps(s: string)
    requires IsLower(s) && (s == "" || !IsSpace(s[0]))
    ensures IsLower(TrimRight(s)) && (TrimRight(s) == "" || !IsSpace(TrimRight(s)[0]))
  {
    if s != "" && IsSpace(s[|s| - 1]) { TrimRightKeeps(s[..|s| - 1]); }
  }

  lemma LowerStays(s: string)
    requires IsLower(s)
    ensures ToLower(s) == s
  {
    assert forall i :: 0 <= i < |s| ==> s[i] in s;
  }

  /** A normalised host has nothing to trim and normalises to itself. */
  lemma NormalizedStays(host: string)
    ensures Trimmed(NormalizeIP(host)) && NormalizeIP(NormalizeIP(host)) == NormalizeIP(host)
  {
    var lower := ToLower(host);
    var s := TrimRight(TrimLeft(lower));
    assert IsLower(lower);
    TrimLeftKeepsLower(lower);
    TrimLeftIs(lower);
    TrimRightKeeps(TrimLeft(lower));
    TrimRightIs(TrimLeft(lower));
    TrimmedStays(s);
    LoopbackStays();
  }

  lemma TrimmedStays(s: string)
    requires IsLower(s) && Trimmed(s)
    ensures NormalizeIP(s) == if s == "localhost" then "127.0.0.1" else s
  {
    LowerStays(s);
  }

  lemma LoopbackStays()
    ensures Trimmed("127.0.0.1") && NormalizeIP("127.0.0.1") == "127.0.0.1"
  {
    TrimmedStays("127.0.0.1");
  }

  /** An address that both count, but differently, carries one port behind a host that C++ does not trim. */
  lemma CountedDifferently(addr: string)
    requires !ReadAlike(addr) && EndpointIn(Cpp, addr).Some? && EndpointIn(Go, addr).Some?
    ensures var cpp, go := EndpointIn(Cpp, addr).value, EndpointIn(Go, addr).value;
            && cpp.port == go.port && 0 < go.port <= MAX_INT32
            && !Trimmed(cpp.ip) && cpp.ip != go.ip && NormalizeIP(go.ip) == go.ip && Trimmed(go.ip)
  {
    var i := LastIndex(addr, ':').value;
    var host := addr[..i];
    StoiOfAtoi(addr[i + 1..]);
    CppNormalizesLikeGoIff(host);
    NormalizedStays(host);
    assert !Trimmed(host) ==> !Trimmed(ToLower(host));
  }

  /** A host that both languages read alike and that only Go takes to be in conflict with `ip`. */
  lemma OtherHost(ip: string) returns (host: string)
    requires ip != "" && Trimmed(ip) && NormalizeIP(ip) == ip
    ensures host != "" && Trimmed(host) && NormalizeIP(host) == host != "0.0.0.0"
    ensures host == ip || ip == "0.0.0.0"
  {
    host := if ip == "0.0.0.0" then "h" else ip;
    TrimmedStays("h");
  }

  /** The configurations in which this address stands beside addresses that both languages read alike. */
  ghost predicate BesideAlike(addr: string, addresses: Addresses) {
    forall slot <- addresses :: addresses[slot] == addr || ReadAlike(addresses[slot])
  }

  ghost predicate VerdictsAgree(addr: string) {
    forall capabilities: set<string>, addresses: Addresses :: BesideAlike(addr, addresses) ==>
      (AllUnique(capabilities, Resolved(Cpp, addresses)) <==> AllUnique(capabilities, Resolved(Go, addresses)))
  }

  /** A second address that both read alike and that conflicts with a differently counted one for Go alone. */
  lemma RivalAddress(addr: string) returns (rival: string)
    requires !ReadAlike(addr) && !BlankHost(addr) && EndpointIn(Cpp, addr).Some? && EndpointIn(Go, addr).Some?
    ensures ReadAlike(rival) && AddressesConflict(Go, addr, rival) && !AddressesConflict(Cpp, addr, rival)
  {
    CountedDifferently(addr);
    var go := EndpointIn(Go, addr).value;
    var host := OtherHost(go.ip);
    rival := Print(Record(host, go.port));
    PortableRecordIsRead(Cpp, Record(host, go.port));
    PortableRecordIsRead(Go, Record(host, go.port));
    assert Trimmed("0.0.0.0");
  }

  /** A configuration of two capabilities on which an address that is not safe splits the verdicts. */
  lemma UnsafeAddressSplits(addr: string, x: string, y: string) returns (addresses: Addresses)
    requires x != y && !ReadAlike(addr) && !BlankHost(addr)
    ensures BesideAlike(addr, addresses)
    ensures AllUnique({x, y}, Resolved(Cpp, addresses)) != AllUnique({x, y}, Resolved(Go, addresses))
  {
    addresses := Shared(x, y, addr);
    if EndpointIn(Cpp, addr).None? {
      SharedAddressDiffers(Go, Cpp, x, y, addr);
    } else if EndpointIn(Go, addr).None? {
      SharedAddressDiffers(Cpp, Go, x, y, addr);
    } else {
      var rival := RivalAddress(addr);
      addresses := Pair(x, addr, y, rival);
      PairIsUniqueIff(Cpp, x, addr, y, rival);
      PairIsUniqueIff(Go, x, addr, y, rival);
    }
  }

  lemma AlikeIsTrimmed(addr: string)
    requires ReadAlike(addr) && EndpointIn(Go, addr).Some?
    ensures EndpointIn(Go, addr).value.ip != "" && Trimmed(EndpointIn(Go, addr).value.ip)
  {
    var host := addr[..LastIndex(addr, ':').value];
    CppNormalizesLikeGoIff(host);
    NormalizedStays(host);
    assert |ToLower(host)| == |host|;
  }

  lemma SafeConflictsAlike(addr: string, first: string, second: string)
    requires ReadAlike(addr) || BlankHost(addr)
    requires first == addr || ReadAlike(first)
    requires second == addr || ReadAlike(second)
    ensures EndpointIn(Cpp, first).Some? <==> EndpointIn(Go, first).Some?
    ensures EndpointIn(Cpp, second).Some? <==> EndpointIn(Go, second).Some?
    ensures EndpointIn(Go, first).Some? && EndpointIn(Go, second).Some? ==>
      (Conflict(EndpointIn(Cpp, first).value, EndpointIn(Cpp, second).value)
       <==> Conflict(EndpointIn(Go, first).value, EndpointIn(Go, second).value))
  {
    if !ReadAlike(addr) { CountedDifferently(addr); }
    if ReadAlike(first) && EndpointIn(Go, first).Some? { AlikeIsTrimmed(first); }
    if ReadAlike(second) && EndpointIn(Go, second).Some? { AlikeIsTrimmed(second); }
    assert Trimmed("0.0.0.0");
  }

  lemma SafeAddressAgrees(addr: string, capabilities: set<string>, addresses: Addresses)
    requires (ReadAlike(addr) || BlankHost(addr)) && BesideAlike(addr, addresses)
    ensures AllUnique(capabilities, Resolved(Cpp, addresses)) <==> AllUnique(capabilities, Resolved(Go, addresses))
  {
    forall a: Slot, b: Slot
      ensures SlotsConflict(Resolved(Cpp, addresses), a, b) <==> SlotsConflict(Resolved(Go, addresses), a, b)
    {
      if a in addresses && b in addresses {
        SafeConflictsAlike(addr, addresses[a], addresses[b]);
      }
    }
  }

  /**
   C++ and Go reach the same verdict on every configuration in which the address stands beside
   addresses that both read alike, exactly if they read this one alike too, or both count it with
   a blank host, which then conflicts with the same addresses for both.
   */
  lemma VerdictsAgreeIff(addr: string)
    ensures VerdictsAgree(addr) <==> ReadAlike(addr) || BlankHost(addr)
  {
    if ReadAlike(addr) || BlankHost(addr) {
      forall capabilities: set<string>, addresses: Addresses | BesideAlike(addr, addresses)
        ensures AllUnique(capabilities, Resolved(Cpp, addresses)) <==> AllUnique(capabilities, Resolved(Go, addresses))
      {
        SafeAddressAgrees(addr, capabilities, addresses);
      }
    } else {
      var addresses := UnsafeAddressSplits(addr, "x", "y");
      assert AllUnique({"x", "y"}, Resolved(Cpp, addresses)) != AllUnique({"x", "y"}, Resolved(Go, addresses));
    }
  }
}
