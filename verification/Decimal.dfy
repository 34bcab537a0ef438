/** Decimal numbers as text: what "%d", "%u", operator<< and std::format print, and what atoi
    and std::from_chars read back. */
module Decimal {
  import opened Arithmetic
  import opened Options

  const INT_MIN: int := -0x8000_0000
  const INT_MAX: int := 0x7fff_ffff

  type int32 = x: int | INT_MIN <= x <= INT_MAX
  type uint32 = x: int | 0 <= x < 0x1_0000_0000
  type uint16 = x: int | 0 <= x < 0x1_0000

  predicate IsDigit(c: char) {
    '0' <= c <= '9'
  }

  predicate AllDigits(s: string) {
    forall k | 0 <= k < |s| :: IsDigit(s[k])
  }

  function DigitChar(d: nat): (c: char)
    requires d < 10
    ensures IsDigit(c) && DigitValue(c) == d
  {
    '0' + d as char
  }

  function DigitValue(c: char): (d: nat)
    requires IsDigit(c)
    ensures d < 10
  {
    (c - '0') as nat
  }

  function NatText(n: nat): (s: string)
    ensures s != [] && AllDigits(s)
  {
    if n < 10 then [DigitChar(n)] else NatText(n / 10) + [DigitChar(n % 10)]
  }

  function Magnitude(i: int): nat {
    if i < 0 then -i else i
  }

  function IntText(i: int): string {
    (if i < 0 then "-" else "") + NatText(Magnitude(i))
  }

  function NatValue(s: string): nat
    requires AllDigits(s)
  {
    if s == [] then 0 else NatValue(s[..|s| - 1]) * 10 + DigitValue(s[|s| - 1])
  }

  /** The number of leading digits. */
  function LeadingDigits(s: string): (n: nat)
    ensures n <= |s| && AllDigits(s[..n])
    ensures n < |s| ==> !IsDigit(s[n])
  {
    if s == [] || !IsDigit(s[0]) then 0
    else
      var n := LeadingDigits(s[1..]);
      assert s[..n + 1] == [s[0]] + s[1..][..n];
      n + 1
  }

  function Spaces(s: string): (n: nat)
    ensures n <= |s|
  {
    if s == [] || !(s[0] == ' ' || '\t' <= s[0] <= '\r') then 0 else Spaces(s[1..]) + 1
  }

  /** A number from an optional sign and the digits that follow it. */
  function Signed(negative: bool, digits: string): int
    requires AllDigits(digits)
  {
    var n: int := NatValue(digits);
    if negative then -n else n
  }

  /** A sign or none, and the digits after it; no digits read as zero. */
  function SignedPrefix(t: string): int {
    var signed := t != [] && (t[0] == '-' || t[0] == '+');
    var u := if signed then t[1..] else t;
    Signed(signed && t[0] == '-', u[..LeadingDigits(u)])
  }

  /** atoi: white space, an optional sign, digits; anything after them is ignored. A value
      that does not fit is undefined in C: None. */
  function Atoi(s: string): Option<int32> {
    var v := SignedPrefix(s[Spaces(s)..]);
    if INT_MIN <= v <= INT_MAX then Some(v) else None
  }

  /** std::from_chars for int: an optional minus sign and at least one digit; what follows is
      ignored, and a value that does not fit is an error. */
  function FromChars(s: string): Option<int32> {
    var negative := s != [] && s[0] == '-';
    var u := if negative then s[1..] else s;
    var n := LeadingDigits(u);
    if n == 0 then None
    else
      var v := Signed(negative, u[..n]);
      if INT_MIN <= v <= INT_MAX then Some(v) else None
  }

  lemma {:induction false} NatRoundTrip(n: nat)
    ensures NatValue(NatText(n)) == n
  {
    if n >= 10 {
      NatRoundTrip(n / 10);
      var s := NatText(n);
      assert s[..|s| - 1] == NatText(n / 10);
    } else {
      assert NatText(n)[..0] == [];
    }
  }

  function Pow10(k: nat): (p: nat)
    ensures p > 0
  {
    if k == 0 then 1 else 10 * Pow10(k - 1)
  }

  /** A number below ten to the k prints in at most k digits. */
  lemma {:induction false} NatTextLength(n: nat, k: nat)
    requires 0 < k && n < Pow10(k)
    ensures |NatText(n)| <= k
  {
    if n >= 10 {
      assert k > 1;
      NatTextLength(n / 10, k - 1);
    }
  }

  /** And in no more digits exactly when it is below ten to the k. */
  lemma {:induction false} NatTextLengthIs(n: nat, k: nat)
    requires 0 < k
    ensures |NatText(n)| <= k <==> n < Pow10(k)
  {
    if n >= 10 {
      if k == 1 {
        assert |NatText(n / 10)| > 0;
        assert Pow10(0) == 1;
      } else {
        NatTextLengthIs(n / 10, k - 1);
      }
    } else {
      PowTen(k);
    }
  }

  lemma {:induction false} PowTen(k: nat)
    requires 0 < k
    ensures Pow10(k) >= 10
  {
    if k > 1 {
      PowTen(k - 1);
    }
  }

  lemma Uint16Length(n: uint16)
    ensures |NatText(n)| <= 5
  {
    assert Pow10(3) == 1000;
    assert Pow10(5) == 100000;
    NatTextLength(n, 5);
  }

  lemma Uint32Length(n: uint32)
    ensures |NatText(n)| <= 10
  {
    assert Pow10(3) == 1000;
    assert Pow10(6) == 1000000;
    assert Pow10(9) == 1000000000;
    assert Pow10(10) == 10000000000;
    NatTextLength(n, 10);
  }

  lemma Int32Length(i: int32)
    ensures |IntText(i)| <= 11
  {
    Uint32Length(Magnitude(i));
  }

  /** Text that does not start with a digit ends a number. */
  ghost predicate Ends(rest: string) {
    rest == [] || !IsDigit(rest[0])
  }

  lemma {:induction false} LeadingDigitsOf(digits: string, rest: string)
    requires AllDigits(digits) && Ends(rest)
    ensures LeadingDigits(digits + rest) == |digits|
  {
    if digits != [] {
      assert (digits + rest)[1..] == digits[1..] + rest;
      LeadingDigitsOf(digits[1..], rest);
    } else {
      assert digits + rest == rest;
    }
  }

  /** Every int prints as text that from_chars reads back, whatever follows the number. */
  lemma FromCharsRoundTrip(i: int32, rest: string)
    requires Ends(rest)
    ensures FromChars(IntText(i) + rest) == Some(i)
  {
    hide NatText, NatValue, LeadingDigits;
    var digits := NatText(Magnitude(i));
    var s := IntText(i) + rest;
    NatRoundTrip(Magnitude(i));
    LeadingDigitsOf(digits, rest);
    if i < 0 {
      assert s[1..] == digits + rest;
    } else {
      assert s == digits + rest && IsDigit(s[0]);
    }
    assert (digits + rest)[..|digits|] == digits;
  }

  /** Every int prints as text that atoi reads back, whatever follows the number. */
  lemma AtoiRoundTrip(i: int32, rest: string)
    requires Ends(rest)
    ensures Atoi(IntText(i) + rest) == Some(i)
  {
    hide NatText, NatValue, LeadingDigits;
    var digits := NatText(Magnitude(i));
    var s := IntText(i) + rest;
    NatRoundTrip(Magnitude(i));
    LeadingDigitsOf(digits, rest);
    assert Spaces(s) == 0;
    assert s[0..] == s;
    if i < 0 {
      assert s[1..] == digits + rest;
    } else {
      assert s == digits + rest && IsDigit(s[0]);
    }
    assert (digits + rest)[..|digits|] == digits;
  }

  // ----- the texts themselves

  lemma DigitIs(d: nat)
    requires d < 10
    ensures DigitChar(d) == "0123456789"[d] && DigitValue("0123456789"[d]) == d
  {
  }

  /** The digits of a number by their places, and no zero in front. */
  lemma {:induction false} DigitAt(n: nat, k: nat)
    requires k < |NatText(n)|
    ensures NatText(n)[|NatText(n)| - 1 - k] == "0123456789"[n / Pow10(k) % 10]
  {
    DigitIs(n % 10);
    if k > 0 {
      DigitAt(n / 10, k - 1);
      DivideByTens(n, Pow10(k - 1));
    } else {
      assert Pow10(0) == 1;
    }
  }

  lemma DivideByTens(n: nat, p: nat)
    requires p > 0
    ensures n / 10 / p == n / (10 * p)
  {
    var q, r := n / 10 / p, n / 10 % p;
    assert n / 10 == q * p + r;
    QuotientIs(n, 10 * p, q, 10 * r + n % 10);
  }

  lemma QuotientIs(n: nat, d: nat, q: nat, r: nat)
    requires d > 0 && n == q * d + r && r < d
    ensures n / d == q
  {
    var p := n / d;
    assert n == p * d + n % d;
    if p < q {
      MulMonotone(p + 1, q, d);
    } else if q < p {
      MulMonotone(q + 1, p, d);
    }
  }

  lemma {:induction false} NoLeadingZero(n: nat)
    requires n > 0
    ensures NatText(n)[0] != '0'
  {
    if n >= 10 {
      NoLeadingZero(n / 10);
    }
  }

  /** A minus sign and nothing else marks a negative number. */
  lemma IntTextIs(i: int)
    ensures i >= 0 ==> IntText(i) == NatText(i)
    ensures i < 0 ==> IntText(i) == "-" + NatText(-i)
  {
  }

  /** Digits count by their places. */
  lemma {:induction false} ValueAppend(a: string, b: string)
    requires AllDigits(a) && AllDigits(b)
    ensures AllDigits(a + b) && NatValue(a + b) == NatValue(a) * Pow10(|b|) + NatValue(b)
  {
    if b == [] {
      assert a + b == a;
    } else {
      var n := |b| - 1;
      assert (a + b)[..|a + b| - 1] == a + b[..n];
      ValueAppend(a, b[..n]);
      OnePlaceMore(NatValue(a), Pow10(n), NatValue(b[..n]), DigitValue(b[n]));
    }
  }

  lemma OnePlaceMore(v: nat, p: nat, w: nat, d: nat)
    ensures (v * p + w) * 10 + d == v * (10 * p) + (w * 10 + d)
  {
  }

  lemma ValueOfDigit(d: nat)
    requires d < 10
    ensures AllDigits(["0123456789"[d]]) && NatValue(["0123456789"[d]]) == d
  {
    DigitIs(d);
    assert ["0123456789"[d]][..0] == [];
  }

  /** What isspace skips. */
  predicate White(c: char) {
    c in {' ', '\t', '\n', 11 as char, 12 as char, '\r'}
  }

  function Fitting(v: int): Option<int32> {
    if -2147483648 <= v <= 2147483647 then Some(v) else None
  }

  lemma {:induction false} SpacesOf(white: string, rest: string)
    requires (forall k | 0 <= k < |white| :: White(white[k])) && (rest == [] || !White(rest[0]))
    ensures Spaces(white + rest) == |white|
  {
    if white != [] {
      assert (white + rest)[1..] == white[1..] + rest;
      SpacesOf(white[1..], rest);
    } else {
      assert white + rest == rest;
    }
  }

  /** Any text atoi accepts: white space, at most one sign, digits, and whatever follows. */
  lemma AtoiReads(white: string, sign: string, digits: string, rest: string)
    requires (forall k | 0 <= k < |white| :: White(white[k])) && sign in {"", "+", "-"}
    requires AllDigits(digits) && Ends(rest)
    requires sign == "" && digits == "" && rest != "" ==> !White(rest[0]) && rest[0] != '+' && rest[0] != '-'
    ensures Atoi(white + sign + digits + rest)
            == Fitting(if sign == "-" then -(NatValue(digits) as int) else NatValue(digits))
  {
    hide Signed, NatValue, LeadingDigits, SignedPrefix, Spaces;
    var tail := sign + digits + rest;
    assert white + sign + digits + rest == white + tail;
    SpacesOf(white, tail);
    assert (white + tail)[|white|..] == tail;
    SignedPrefixReads(sign, digits, rest);
  }

  lemma SignedPrefixReads(sign: string, digits: string, rest: string)
    requires sign in {"", "+", "-"} && AllDigits(digits) && Ends(rest)
    requires sign == "" && digits == "" && rest != "" ==> rest[0] != '+' && rest[0] != '-'
    ensures SignedPrefix(sign + digits + rest) == if sign == "-" then -(NatValue(digits) as int) else NatValue(digits)
  {
    hide NatValue, LeadingDigits;
    var tail := sign + digits + rest;
    LeadingDigitsOf(digits, rest);
    assert (digits + rest)[..|digits|] == digits;
    if sign == "" {
      assert tail == digits + rest;
    } else {
      assert tail[1..] == digits + rest;
    }
  }

  /** Any text from_chars accepts: a minus sign or none, digits, and whatever follows; without
      digits, and so behind white space or a plus sign, it refuses. */
  lemma FromCharsReads(sign: string, digits: string, rest: string)
    requires sign in {"", "-"} && AllDigits(digits) && Ends(rest)
    requires sign == "" && digits == "" && rest != "" ==> rest[0] != '-'
    ensures FromChars(sign + digits + rest)
            == if digits == "" then None
               else Fitting(if sign == "-" then -(NatValue(digits) as int) else NatValue(digits))
  {
    hide NatValue, LeadingDigits;
    var s := sign + digits + rest;
    LeadingDigitsOf(digits, rest);
    assert (digits + rest)[..|digits|] == digits;
    if sign == "" {
      assert s == digits + rest;
    } else {
      assert s[1..] == digits + rest;
    }
  }
}
