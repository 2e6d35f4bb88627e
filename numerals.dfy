/** Decimal integers as Ruby writes and reads them: `Integer#to_s` and
    `String#to_i`, the two halves of `is_fixnum?` (main.rb:342-344) and of
    `Warp::Model::Fixnum` (main.rb:93-99). Ruby integers are unbounded, as
    Dafny's `int` is. */
module Numerals {

  predicate IsDigit(c: char) {
    '0' <= c <= '9'
  }

  function DigitChar(d: nat): (c: char)
    requires d < 10
    ensures IsDigit(c) && c as int - '0' as int == d
  {
    (d + '0' as int) as char
  }

  /** `Integer#to_s` of a natural number: no sign, no leading zero. */
  function Digits(n: nat): (s: string)
    ensures |s| >= 1
    ensures forall i :: 0 <= i < |s| ==> IsDigit(s[i])
    ensures s[0] == '0' <==> n == 0
    ensures n == 0 ==> s == "0"
  {
    if n < 10 then [DigitChar(n)] else Digits(n / 10) + [DigitChar(n % 10)]
  }

  /** `Integer#to_s`: a minus sign for negative numbers, then the digits. */
  function Decimal(n: int): (s: string)
    ensures s != []
    ensures forall i :: 0 <= i < |s| ==> IsDigit(s[i]) || (i == 0 && s[i] == '-')
  {
    if n < 0 then "-" + Digits(-n) else Digits(n)
  }

  /** The number a string of digits denotes. */
  function DigitsValue(ds: string): nat
    requires forall i :: 0 <= i < |ds| ==> IsDigit(ds[i])
  {
    if ds == [] then 0
    else
      assert IsDigit(ds[|ds| - 1]);
      DigitsValue(ds[..|ds| - 1]) * 10 + (ds[|ds| - 1] as int - '0' as int)
  }

  /** Length of the run of digits at the head of `s`. */
  function LeadingDigits(s: string): (n: nat)
    ensures n <= |s|
    ensures forall i :: 0 <= i < n ==> IsDigit(s[i])
    ensures n == |s| || !IsDigit(s[n])
  {
    if s != [] && IsDigit(s[0]) then 1 + LeadingDigits(s[1..]) else 0
  }

  /** `String#to_i` restricted to a sign and digits: an optional sign and
      the digits after it, 0 without digits. Ruby's `to_i` also skips leading
      whitespace and reads `_` between digits; neither changes `is_fixnum?`,
      since `Integer#to_s` never prints a space or a `_`. */
  function ToI(s: string): int {
    if s != [] && (s[0] == '-' || s[0] == '+') then
      var body := s[1..];
      var v: int := DigitsValue(body[..LeadingDigits(body)]);
      if s[0] == '-' then -v else v
    else DigitsValue(s[..LeadingDigits(s)])
  }

  /** `is_fixnum?`: reading the token as an integer and writing it back
      gives the token. */
  predicate IsFixnum(tok: string) {
    Decimal(ToI(tok)) == tok
  }

  lemma {:induction false} DigitsValueOfDigits(n: nat)
    ensures DigitsValue(Digits(n)) == n
    decreases n
  {
    if n >= 10 {
      var ds := Digits(n);
      DigitsValueOfDigits(n / 10);
      assert ds[..|ds| - 1] == Digits(n / 10);
    }
  }

  lemma LeadingDigitsAll(ds: string)
    requires forall i :: 0 <= i < |ds| ==> IsDigit(ds[i])
    ensures LeadingDigits(ds) == |ds|
  {
  }

  /** Reading back what `Integer#to_s` wrote gives the number. */
  lemma ToIOfDecimal(n: int)
    ensures ToI(Decimal(n)) == n
  {
    var m := if n < 0 then -n else n;
    var ds := Digits(m);
    DigitsValueOfDigits(m);
    LeadingDigitsAll(ds);
    if n < 0 {
      assert Decimal(n)[1..] == ds;
    }
    assert ds[..|ds|] == ds;
  }

  /** `is_fixnum?` accepts exactly the canonical decimal numerals. */
  lemma FixnumIsCanonical(tok: string)
    ensures IsFixnum(tok) <==> exists n :: Decimal(n) == tok
  {
    if exists n :: Decimal(n) == tok {
      var n :| Decimal(n) == tok;
      ToIOfDecimal(n);
    }
  }

  /** Every integer's text passes `is_fixnum?`, and `Fixnum.new(tok).to_s`
      gives the token back. */
  lemma FixnumRoundTrip(n: int)
    ensures IsFixnum(Decimal(n))
    ensures ToI(Decimal(n)) == n
  {
    ToIOfDecimal(n);
  }
}
