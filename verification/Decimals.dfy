/** Numbers in decimal, as strconv writes and reads them. */
module Decimals {
  predicate Digit(c: char) { '0' <= c <= '9' }

  predicate AllDigits(s: string) { forall i :: 0 <= i < |s| ==> Digit(s[i]) }

  /** strconv.Itoa. */
  function Decimal(n: nat): (s: string)
    ensures s != "" && AllDigits(s)
  {
    var digit := ['0', '1', '2', '3', '4', '5', '6', '7', '8', '9'][n % 10];
    if n < 10 then [digit] else Decimal(n / 10) + [digit]
  }

  function Number(s: string): nat
    requires AllDigits(s)
  {
    assert s != [] ==> Digit(s[|s| - 1]);
    if s == [] then 0 else Number(s[..|s| - 1]) * 10 + (s[|s| - 1] as int - '0' as int)
  }

  function Zeros(k: nat): (s: string)
    ensures |s| == k && AllDigits(s)
  {
    seq(k, _ => '0')
  }

  lemma NumberMore(s: string, c: char)
    requires AllDigits(s) && Digit(c)
    ensures AllDigits(s + [c]) && Number(s + [c]) == Number(s) * 10 + (c as int - '0' as int)
  {
    assert (s + [c])[..|s|] == s;
  }

  /** What is written reads back, whatever zeros stand before it. */
  lemma {:induction false} ReadsBack(k: nat, n: nat)
    ensures AllDigits(Zeros(k) + Decimal(n)) && Number(Zeros(k) + Decimal(n)) == n
    decreases n, k
  {
    hide Decimal, Number, Zeros;
    var c := DigitOf(n);
    if n < 10 {
      ZerosAreNothing(k);
      NumberMore(Zeros(k), c);
    } else {
      ReadsBack(k, n / 10);
      NumberMore(Zeros(k) + Decimal(n / 10), c);
      assert Zeros(k) + Decimal(n) == (Zeros(k) + Decimal(n / 10)) + [c];
    }
  }

  lemma DigitOf(n: nat) returns (c: char)
    ensures Digit(c) && c as int - '0' as int == n % 10 && Decimal(n) == if n < 10 then [c] else Decimal(n / 10) + [c]
  {
    c := ['0', '1', '2', '3', '4', '5', '6', '7', '8', '9'][n % 10];
  }

  lemma {:induction false} ZerosAreNothing(k: nat)
    ensures Number(Zeros(k)) == 0
  {
    if k > 0 {
      ZerosAreNothing(k - 1);
      assert Zeros(k) == Zeros(k - 1) + ['0'];
      NumberMore(Zeros(k - 1), '0');
    }
  }

  /** And any digits are what would be written of their number, after some zeros. */
  lemma {:induction false} WritesBack(s: string) returns (k: nat)
    requires AllDigits(s) && s != ""
    ensures s == Zeros(k) + Decimal(Number(s))
    decreases |s|
  {
    hide Number, Decimal, Zeros;
    var n := |s| - 1;
    var before, c := s[..n], s[n];
    var d := c as int - '0' as int;
    assert s == before + [c] && Digit(c);
    NumberMore(before, c);
    OneDigit(c);
    if before == "" {
      k := 0;
      assert s == [c];
    } else {
      k := WritesBack(before);
      var m := Number(before);
      if m == 0 {
        ZeroMore(k);
        k := k + 1;
        assert before == Zeros(k) && Decimal(d) == [c];
      } else {
        DecimalMore(m, c);
        assert Zeros(k) + (Decimal(m) + [c]) == Zeros(k) + Decimal(m) + [c];
      }
    }
  }

  lemma OneDigit(c: char)
    requires Digit(c)
    ensures var d := c as int - '0' as int; Decimal(d) == [c] && Number([c]) == d && Zeros(0) + Decimal(d) == [c]
  {
    assert [c][..0] == "" && ['0', '1', '2', '3', '4', '5', '6', '7', '8', '9'][c as int - '0' as int] == c;
  }

  lemma ZeroMore(k: nat)
    ensures Zeros(k) + Decimal(0) == Zeros(k + 1)
  {
    assert Decimal(0) == ['0'];
  }

  lemma DecimalMore(m: nat, c: char)
    requires m > 0 && Digit(c)
    ensures var d := c as int - '0' as int; Decimal(m * 10 + d) == Decimal(m) + [c]
  {
    var d := c as int - '0' as int;
    assert (m * 10 + d) / 10 == m && (m * 10 + d) % 10 == d && m * 10 + d >= 10;
  }
}
