/** Digits and the numbers they stand for. */
module Numerals {
  /** The value of `c` as a digit, 16 if it is none. */
  function Digit(c: char): nat {
    if '0' <= c <= '9' then c as int - '0' as int
    else if 'a' <= c <= 'f' then c as int - 'a' as int + 10
    else if 'A' <= c <= 'F' then c as int - 'A' as int + 10
    else 16
  }

  predicate AllDigits(t: string, b: nat) {
    forall i | 0 <= i < |t| :: Digit(t[i]) < b
  }

  /** The longest prefix made of digits. */
  function DigitsOf(t: string, b: nat): string {
    if t == [] || Digit(t[0]) >= b then [] else [t[0]] + DigitsOf(t[1..], b)
  }

  lemma {:induction false} DigitsOfDigits(t: string, b: nat)
    requires AllDigits(t, b)
    ensures DigitsOf(t, b) == t
  {
    if t != [] {
      DigitsOfDigits(t[1..], b);
    }
  }

  /** Reading digits stops at the first character that is none. */
  lemma {:induction false} DigitsStop(t: string, rest: string, b: nat)
    requires AllDigits(t, b) && (rest == "" || Digit(rest[0]) >= b)
    ensures DigitsOf(t + rest, b) == t
  {
    if t == "" {
      assert t + rest == rest;
    } else {
      assert (t + rest)[1..] == t[1..] + rest;
      DigitsStop(t[1..], rest, b);
    }
  }

  function Value(t: string, b: nat): nat {
    if t == [] then 0 else Value(t[..|t| - 1], b) * b + Digit(t[|t| - 1])
  }

  const DIGITS := "0123456789abcdef"

  /** Which characters are digits, and for what. */
  lemma DigitsAre(c: char)
    ensures forall d | 0 <= d < 16 :: Digit(DIGITS[d]) == d && Digit("0123456789ABCDEF"[d]) == d
    ensures Digit(c) != 16 ==> Digit(c) < 16 && (c == DIGITS[Digit(c)] || c == "0123456789ABCDEF"[Digit(c)])
  {
  }

  /** `n` written with base `b`. */
  function InBase(n: nat, b: nat): string
    requires 2 <= b <= 16
  {
    (if n < b then [] else InBase(n / b, b)) + [DIGITS[n % b]]
  }

  function Decimal(n: nat): string {
    InBase(n, 10)
  }

  lemma OneMore(t: string, d: nat, b: nat)
    requires d < b <= 16 && AllDigits(t, b)
    ensures AllDigits(t + [DIGITS[d]], b) && Value(t + [DIGITS[d]], b) == Value(t, b) * b + d
  {
    DigitsAre(DIGITS[d]);
    assert (t + [DIGITS[d]])[..|t|] == t;
    hide Digit;
  }

  lemma Quotients(n: nat, b: nat)
    requires 2 <= b <= n
    ensures 0 < n / b < n && n == (n / b) * b + n % b
  {
  }

  lemma Remainder(n: nat, b: nat)
    requires n < b
    ensures n % b == n
  {
  }

  lemma Written(n: nat, b: nat)
    requires 2 <= b <= 16
    ensures n >= b ==> InBase(n, b) == InBase(n / b, b) + [DIGITS[n % b]]
    ensures n < b ==> InBase(n, b) == [DIGITS[n % b]]
  {
  }

  lemma LastDigit(n: nat, b: nat) returns (k: nat, d: nat)
    requires 2 <= b <= 16 && b <= n
    ensures 0 < k < n && d < b && n == k * b + d && InBase(n, b) == InBase(k, b) + [DIGITS[d]]
  {
    Quotients(n, b);
    Written(n, b);
    hide InBase;
    k, d := n / b, n % b;
  }

  lemma FirstDigit(d: nat)
    requires d < 16
    ensures DIGITS[d] == '0' <==> d == 0
  {
  }

  lemma NoDigits(b: nat)
    ensures AllDigits([], b) && Value([], b) == 0
  {
  }

  lemma OneDigit(n: nat, b: nat)
    requires 2 <= b <= 16 && n < b
    ensures InBase(n, b) == [DIGITS[n]] && (DIGITS[n] == '0' <==> n == 0)
  {
    hide InBase;
    FirstDigit(n);
    Remainder(n, b);
    Written(n, b);
  }

  /** The value of what is written is the number. */
  lemma {:induction false} InBaseDigits(n: nat, b: nat)
    requires 2 <= b <= 16
    ensures InBase(n, b) != [] && AllDigits(InBase(n, b), b) && Value(InBase(n, b), b) == n
    ensures |InBase(n, b)| == 1 || InBase(n, b)[0] != '0'
    ensures InBase(n, b)[0] == '0' <==> n == 0
  {
    hide Digit, InBase, AllDigits, Value;
    if n >= b {
      var k, d := LastDigit(n, b);
      InBaseDigits(k, b);
      OneMore(InBase(k, b), d, b);
    } else {
      OneDigit(n, b);
      NoDigits(b);
      OneMore([], n, b);
      assert InBase(n, b) == [] + [DIGITS[n]];
    }
  }

  lemma DecimalDigits(n: nat)
    ensures Decimal(n) != [] && AllDigits(Decimal(n), 10) && Value(Decimal(n), 10) == n
    ensures forall i | 0 <= i < |Decimal(n)| :: '0' <= Decimal(n)[i] <= '9'
    ensures |Decimal(n)| == 1 || Decimal(n)[0] != '0'
    ensures Decimal(n)[0] == '0' <==> n == 0
  {
    InBaseDigits(n, 10);
    hide Value, InBase;
  }
}
