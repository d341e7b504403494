/** The string operations that the three languages share: splitting, searching from the right, decimal numerals. */
module Text {
  import opened Wrappers

  /** `strings.Split`, `str.split`: the pieces between the separators, at least one. */
  function Split(s: string, sep: char): (parts: seq<string>)
    ensures |parts| > 0
  {
    if s == "" then [""]
    else
      var rest := Split(s[1..], sep);
      if s[0] == sep then [""] + rest else [[s[0]] + rest[0]] + rest[1..]
  }

  lemma {:induction false} SplitPlain(s: string, sep: char)
    requires sep !in s
    ensures Split(s, sep) == [s]
  {
    if s != "" {
      SplitPlain(s[1..], sep);
      assert s == [s[0]] + s[1..];
    }
  }

  lemma {:induction false} SplitAppend(a: string, b: string, sep: char)
    ensures Split(a + [sep] + b, sep) == Split(a, sep) + Split(b, sep)
  {
    var s := a + [sep] + b;
    if a == "" {
      assert s[1..] == b;
    } else {
      assert s[1..] == a[1..] + [sep] + b;
      SplitAppend(a[1..], b, sep);
    }
  }

  /** The first position of the character, or the length. */
  function IndexOf(s: string, c: char): (i: nat)
    ensures i <= |s|
    ensures c !in s[..i]
    ensures i < |s| ==> s[i] == c
  {
    if s == "" || s[0] == c then 0
    else
      assert s[..1 + IndexOf(s[1..], c)] == [s[0]] + s[1..][..IndexOf(s[1..], c)];
      1 + IndexOf(s[1..], c)
  }

  lemma {:induction false} IndexOfIs(s: string, c: char, i: nat)
    requires i < |s| && s[i] == c && c !in s[..i]
    ensures IndexOf(s, c) == i
  {
    if i > 0 {
      assert s[0] in s[..i] && s[1..][..i - 1] == s[1..i];
      assert forall x <- s[1..i] :: x in s[..i];
      IndexOfIs(s[1..], c, i - 1);
    }
  }

  /** The last position of the character below `n`. */
  function LastIndexBelow(s: string, c: char, n: nat): (r: Option<nat>)
    requires n <= |s|
    ensures r.None? ==> forall i :: 0 <= i < n ==> s[i] != c
    ensures r.Some? ==> r.value < n && s[r.value] == c && forall i :: r.value < i < n ==> s[i] != c
  {
    if n == 0 then None
    else if s[n - 1] == c then Some(n - 1)
    else LastIndexBelow(s, c, n - 1)
  }

  /** `strings.LastIndex`, `rfind`. */
  function LastIndex(s: string, c: char): (r: Option<nat>)
    ensures r.None? <==> c !in s
    ensures r.Some? ==> r.value < |s| && s[r.value] == c && c !in s[r.value + 1..]
  {
    LastIndexBelow(s, c, |s|)
  }

  lemma AbsentAfter(s: string, c: char, i: nat, k: nat)
    requires i < k < |s| && c !in s[i + 1..]
    ensures s[k] != c
  {
    assert s[i + 1..][k - i - 1] == s[k];
  }

  lemma LastIndexIs(s: string, c: char, i: nat)
    requires i < |s| && s[i] == c && c !in s[i + 1..]
    ensures LastIndex(s, c) == Some(i)
  {
    var j := LastIndex(s, c).value;
    forall k | i < k < |s| ensures s[k] != c { AbsentAfter(s, c, i, k); }
    forall k | j < k < |s| ensures s[k] != c { AbsentAfter(s, c, j, k); }
  }

  // ------------------------------------------------------------------ decimal numerals

  predicate IsDigit(c: char) { '0' <= c <= '9' }

  predicate IsNumeral(s: string) {
    s != "" && forall c <- s :: IsDigit(c)
  }

  function Digits(n: nat): (s: string)
    ensures IsNumeral(s)
  {
    var last := [('0' as int + n % 10) as char];
    if n < 10 then last else Digits(n / 10) + last
  }

  /** `fmt.Sprintf("%d", n)`, `to_string`. */
  function Decimal(n: int): string {
    if n < 0 then "-" + Digits(-n) else Digits(n)
  }

  function DigitValue(c: char): nat
    requires IsDigit(c)
  {
    c as int - '0' as int
  }

  function NumeralValue(s: string): nat
    requires forall c <- s :: IsDigit(c)
  {
    if s == "" then 0 else 10 * NumeralValue(s[..|s| - 1]) + DigitValue(s[|s| - 1])
  }

  lemma {:induction false} DigitsValue(n: nat)
    ensures NumeralValue(Digits(n)) == n
  {
    if n >= 10 {
      DigitsValue(n / 10);
      assert Digits(n)[..|Digits(n)| - 1] == Digits(n / 10);
    } else {
      assert Digits(n)[..0] == "";
    }
  }

  // ------------------------------------------------------------------ std::stoi

  const MIN_INT32 := -0x8000_0000
  const MAX_INT32 := 0x7FFF_FFFF

  /** The white space of the C locale. */
  predicate IsCSpace(c: char) { c == ' ' || '\t' <= c <= '\r' }

  function DigitPrefix(s: string): (digits: string)
    ensures digits <= s && forall c <- digits :: IsDigit(c)
    ensures |digits| < |s| ==> !IsDigit(s[|digits|])
  {
    if s == "" || !IsDigit(s[0]) then "" else [s[0]] + DigitPrefix(s[1..])
  }

  /** `std::stoi`: leading white space, an optional sign and digits; the rest is ignored. None when it throws. */
  function Stoi(s: string): (r: Option<int>)
    ensures r.Some? ==> MIN_INT32 <= r.value <= MAX_INT32
    decreases |s|
  {
    if s != "" && IsCSpace(s[0]) then Stoi(s[1..])
    else
      var signed := s != "" && (s[0] == '-' || s[0] == '+');
      var digits := DigitPrefix(if signed then s[1..] else s);
      var magnitude: int := NumeralValue(digits);
      var value := if signed && s[0] == '-' then -magnitude else magnitude;
      if digits == "" || !(MIN_INT32 <= value <= MAX_INT32) then None else Some(value)
  }

  lemma {:induction false} DigitPrefixOfNumeral(s: string)
    requires forall c <- s :: IsDigit(c)
    ensures DigitPrefix(s) == s
  {
    if s != "" { DigitPrefixOfNumeral(s[1..]); }
  }

  lemma NumeralIsRead(digits: string, n: int)
    requires IsNumeral(digits) && n == NumeralValue(digits)
    ensures Stoi(digits) == if n <= MAX_INT32 then Some(n) else None
  {
    DigitPrefixOfNumeral(digits);
    assert IsDigit(digits[0]);
  }

  lemma NegatedNumeralIsRead(digits: string, n: int)
    requires IsNumeral(digits) && n == NumeralValue(digits)
    ensures Stoi("-" + digits) == if -n >= MIN_INT32 then Some(-n) else None
  {
    DigitPrefixOfNumeral(digits);
    assert ("-" + digits)[1..] == digits;
  }

  /** A printed integer is read back exactly if it fits in 32 bits. */
  lemma PrintedIntIsRead(n: int)
    ensures Stoi(Decimal(n)) == if MIN_INT32 <= n <= MAX_INT32 then Some(n) else None
  {
    if n < 0 {
      DigitsValue(-n);
      NegatedNumeralIsRead(Digits(-n), -n);
    } else {
      DigitsValue(n);
      NumeralIsRead(Digits(n), n);
    }
  }

  lemma {:induction false} DigitsEndAt(digits: string, junk: string)
    requires (forall c <- digits :: IsDigit(c)) && (junk == "" || !IsDigit(junk[0]))
    ensures DigitPrefix(digits + junk) == digits
  {
    if digits == "" {
      assert digits + junk == junk;
    } else {
      assert (digits + junk)[1..] == digits[1..] + junk;
      DigitsEndAt(digits[1..], junk);
    }
  }

  lemma JunkIsIgnoredByStoi(n: nat, junk: string)
    requires n <= MAX_INT32 && junk != "" && !IsDigit(junk[0])
    ensures Stoi(Decimal(n) + junk) == Some(n)
  {
    var text := Decimal(n) + junk;
    DigitsValue(n);
    assert forall c <- Digits(n) :: IsDigit(c);
    assert IsDigit(Digits(n)[0]) && text[0] == Digits(n)[0];
    DigitsEndAt(Digits(n), junk);
  }
}
