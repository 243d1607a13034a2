/** The integer widths, and std::to_string, std::from_chars and atoll on the strings the services exchange. */
module Decimal {
  datatype Option<T> = None | Some(value: T)

  const U32 := 0x1_0000_0000
  const U64 := 0x1_0000_0000_0000_0000
  const I32_MIN := -0x8000_0000
  const I32_MAX := 0x7FFF_FFFF

  type int32 = x: int | I32_MIN <= x <= I32_MAX

  predicate IsDigit(c: char) { '0' <= c <= '9' }

  function DigitValue(c: char): nat
    requires IsDigit(c)
  {
    c as int - '0' as int
  }

  function DigitChar(d: nat): char
    requires d < 10
  {
    ('0' as int + d) as char
  }

  function Digits(n: nat): (s: string)
    ensures s != [] && forall i :: 0 <= i < |s| ==> IsDigit(s[i])
  {
    if n < 10 then [DigitChar(n)] else Digits(n / 10) + [DigitChar(n % 10)]
  }

  /** std::to_string */
  function ToString(n: int): string { if n < 0 then "-" + Digits(-n) else Digits(n) }

  /** Length of the longest prefix of digits. */
  function DigitRun(s: string): (n: nat)
    ensures n <= |s| && forall i :: 0 <= i < n ==> IsDigit(s[i])
    ensures n < |s| ==> !IsDigit(s[n])
  {
    if s != [] && IsDigit(s[0]) then 1 + DigitRun(s[1..]) else 0
  }

  function Value(s: string): nat
    requires forall i :: 0 <= i < |s| ==> IsDigit(s[i])
  {
    if s == [] then 0 else Value(s[..|s| - 1]) * 10 + DigitValue(s[|s| - 1])
  }

  /** The integer written at the front of s: an optional minus sign and a run of digits. */
  function LeadingInteger(s: string): Option<int> {
    var negative := s != [] && s[0] == '-';
    var body := if negative then s[1..] else s;
    var n := DigitRun(body);
    if n == 0 then None else Some((if negative then -1 else 1) * Value(body[..n]))
  }

  /** std::from_chars into an int32_t: it ignores what follows the number and refuses overflow. */
  function FromChars(s: string): Option<int32> {
    match LeadingInteger(s)
    case Some(v) => if I32_MIN <= v <= I32_MAX then Some(v) else None
    case None => None
  }

  predicate IsSpace(c: char) { c == ' ' || '\t' <= c <= '\r' }

  /** atoll: skips blanks, accepts a plus sign, and yields 0 where there is no number. */
  function Atoll(s: string): int {
    if s != [] && IsSpace(s[0]) then
      Atoll(s[1..])
    else
      var body := if |s| > 1 && s[0] == '+' && IsDigit(s[1]) then s[1..] else s;
      match LeadingInteger(body)
      case Some(v) => v
      case None => 0
  }

  lemma {:induction false} ValueOfDigits(n: nat)
    ensures Value(Digits(n)) == n
  {
    if n < 10 {
      assert Digits(n)[..0] == [];
    } else {
      ValueOfDigits(n / 10);
      assert Digits(n)[..|Digits(n)| - 1] == Digits(n / 10);
    }
  }

  lemma {:induction false} WholeRun(s: string)
    requires forall i :: 0 <= i < |s| ==> IsDigit(s[i])
    ensures DigitRun(s) == |s|
  {
    if s != [] {
      WholeRun(s[1..]);
    }
  }

  /** Reading back a printed integer yields it. */
  lemma LeadingIntegerInvertsToString(n: int)
    ensures LeadingInteger(ToString(n)) == Some(n)
  {
    var digits := Digits(if n < 0 then -n else n);
    ValueOfDigits(if n < 0 then -n else n);
    WholeRun(digits);
    assert digits[..|digits|] == digits;
    if n < 0 {
      assert ToString(n)[1..] == digits;
    }
  }

  lemma ToStringIsInjective(n: int, m: int)
    requires ToString(n) == ToString(m)
    ensures n == m
  {
    LeadingIntegerInvertsToString(n);
    LeadingIntegerInvertsToString(m);
  }

  lemma AtollInvertsToString(n: int)
    ensures Atoll(ToString(n)) == n
  {
    LeadingIntegerInvertsToString(n);
    assert ToString(n)[0] == '-' || IsDigit(ToString(n)[0]);
  }

  // ---------- what follows the number ----------

  /** The text does not go on with a digit. */
  predicate Ends(rest: string) { rest == "" || !IsDigit(rest[0]) }

  lemma {:induction false} RunEnds(s: string, rest: string)
    requires Ends(rest) && forall i :: 0 <= i < |s| ==> IsDigit(s[i])
    ensures DigitRun(s + rest) == |s|
  {
    if s == [] {
      assert s + rest == rest;
    } else {
      RunEnds(s[1..], rest);
      assert (s + rest)[1..] == s[1..] + rest;
    }
  }

  lemma DigitsAreRead(digits: string, rest: string)
    requires Ends(rest) && digits != "" && forall i :: 0 <= i < |digits| ==> IsDigit(digits[i])
    ensures LeadingInteger(digits + rest) == Some(Value(digits))
  {
    RunEnds(digits, rest);
    assert (digits + rest)[..|digits|] == digits;
    assert (digits + rest)[0] == digits[0];
  }

  lemma NegativeIsRead(s: string, digits: string, rest: string)
    requires Ends(rest) && digits != "" && forall i :: 0 <= i < |digits| ==> IsDigit(digits[i])
    requires s != "" && s[0] == '-' && s[1..] == digits + rest
    ensures LeadingInteger(s) == Some(-1 * Value(digits))
  {
    RunEnds(digits, rest);
    assert (digits + rest)[..|digits|] == digits;
  }

  lemma AfterSign(x: string)
    ensures "-" + x != "" && ("-" + x)[0] == '-' && ("-" + x)[1..] == x
  {
  }

  lemma Regroup(a: string, b: string, c: string)
    ensures (a + b) + c == a + (b + c)
  {
  }

  lemma SignedIsRead(digits: string, rest: string)
    requires Ends(rest) && digits != "" && forall i :: 0 <= i < |digits| ==> IsDigit(digits[i])
    ensures LeadingInteger(("-" + digits) + rest) == Some(-1 * Value(digits))
  {
    AfterSign(digits + rest);
    NegativeIsRead("-" + (digits + rest), digits, rest);
    Regroup("-", digits, rest);
  }

  /** A printed integer is read whatever follows it, but another digit. */
  lemma LeadingIntegerTakesPrefix(n: int, rest: string)
    requires Ends(rest)
    ensures LeadingInteger(ToString(n) + rest) == Some(n)
  {
    var m := if n < 0 then -n else n;
    ValueOfDigits(m);
    if n < 0 {
      SignedIsRead(Digits(m), rest);
    } else {
      DigitsAreRead(Digits(m), rest);
    }
  }

  lemma {:induction false} AtollSkipsBlanks(blanks: string, text: string)
    requires forall i :: 0 <= i < |blanks| ==> IsSpace(blanks[i])
    ensures Atoll(blanks + text) == Atoll(text)
  {
    if blanks == "" {
      assert blanks + text == text;
    } else {
      AtollSkipsBlanks(blanks[1..], text);
      assert (blanks + text)[1..] == blanks[1..] + text;
    }
  }

  lemma AtollOfNumber(s: string, n: int)
    requires s != "" && (s[0] == '-' || IsDigit(s[0])) && LeadingInteger(s) == Some(n)
    ensures Atoll(s) == n
    ensures IsDigit(s[0]) ==> Atoll("+" + s) == n
  {
    assert ("+" + s)[1..] == s;
  }

  lemma PrintedFront(n: int, rest: string)
    ensures
      var s := ToString(n) + rest;
      s != "" && (s[0] == '-' || IsDigit(s[0])) && (n >= 0 ==> IsDigit(s[0]))
  {
    assert (ToString(n) + rest)[0] == ToString(n)[0];
  }

  /** atoll reads a printed integer, with a plus sign where it is not negative, whatever follows. */
  lemma AtollTakesPrefix(n: int, rest: string)
    requires Ends(rest)
    ensures Atoll(ToString(n) + rest) == n
    ensures n >= 0 ==> Atoll("+" + (ToString(n) + rest)) == n
  {
    LeadingIntegerTakesPrefix(n, rest);
    PrintedFront(n, rest);
    AtollOfNumber(ToString(n) + rest, n);
  }
}
