/** Numbers as decimal text: what `{}` prints and `parse::<u64>` reads. */
module Decimals {
  import opened Common

  predicate IsDigit(c: char) { '0' <= c <= '9' }

  predicate AllDigits(s: Bytes) { forall i :: 0 <= i < |s| ==> IsDigit(s[i]) }

  function Digit(d: nat): char
    requires d < 10
  {
    '0' + d as char
  }

  function Print(n: nat): (s: Bytes)
    ensures s != [] && AllDigits(s)
    ensures |s| > 1 ==> s[0] != '0'
  {
    if n < 10 then [Digit(n)] else Print(n / 10) + [Digit(n % 10)]
  }

  function Value(s: Bytes): nat {
    if s == [] then 0
    else
      var c := s[|s| - 1];
      10 * Value(s[..|s| - 1]) + (if IsDigit(c) then (c - '0') as nat else 0)
  }

  /** `str::parse::<u64>`: an optional plus sign, then digits only, within range. */
  function ParseU64(s: Bytes): Option<u64> {
    var digits := if s != [] && s[0] == '+' then s[1..] else s;
    if digits == [] || !AllDigits(digits) then None
    else if Value(digits) >= U64_RANGE then None
    else Some(Value(digits))
  }

  lemma {:induction false} ValueOfPrint(n: nat)
    ensures Value(Print(n)) == n
  {
    if n >= 10 {
      ValueOfPrint(n / 10);
      assert Print(n)[..|Print(n)| - 1] == Print(n / 10);
    }
  }

  /** Printing is undone by parsing, exactly within the range of u64. */
  lemma ParseOfPrint(n: nat)
    ensures ParseU64(Print(n)) == if n < U64_RANGE then Some(n) else None
  {
    ValueOfPrint(n);
    assert IsDigit(Print(n)[0]);
  }

  function Zeros(k: nat): Bytes { seq(k, i => '0') }

  lemma PrintGrows(n: nat, d: nat)
    requires d < 10
    ensures Print(10 * n + d) == (if n == 0 then [] else Print(n)) + [Digit(d)]
  {
    if n > 0 {
      assert (10 * n + d) / 10 == n && (10 * n + d) % 10 == d;
    }
  }

  lemma LastDigit(s: Bytes)
    requires s != [] && IsDigit(s[|s| - 1])
    ensures var d := (s[|s| - 1] - '0') as nat;
      d < 10 && Digit(d) == s[|s| - 1] && Value(s) == 10 * Value(s[..|s| - 1]) + d && s == s[..|s| - 1] + [Digit(d)]
  {}

  /** Digits are some zeros and then the number as it is printed. */
  lemma {:induction false} DigitsArePrinted(s: Bytes) returns (k: nat)
    requires s != [] && AllDigits(s)
    ensures s == Zeros(k) + Print(Value(s))
  {
    var front, d := s[..|s| - 1], (s[|s| - 1] - '0') as nat;
    LastDigit(s);
    PrintGrows(Value(front), d);
    hide Value, Print;
    k := 0;
    if front != [] {
      k := DigitsArePrinted(front);
      if Value(front) == 0 {
        PrintsZero();
        k := k + 1;
      }
    } else {
      ValueOfNothing();
    }
  }

  lemma PrintsZero()
    ensures Print(0) == Zeros(1)
  {}

  lemma ValueOfNothing()
    ensures Value([]) == 0
  {}

  lemma {:induction false} ZerosCountNothing(k: nat, n: nat)
    ensures AllDigits(Zeros(k) + Print(n)) && Value(Zeros(k) + Print(n)) == n
    decreases k + n
  {
    var s := Zeros(k) + Print(n);
    if n >= 10 {
      ZerosCountNothing(k, n / 10);
      assert s[..|s| - 1] == Zeros(k) + Print(n / 10);
    } else if k > 0 {
      ZerosCountNothing(k - 1, 0);
      assert s[..|s| - 1] == Zeros(k - 1) + Print(0);
    }
  }

  /** Exactly these texts are parsed as `n`: its digits, behind any zeros, behind a plus sign or none. */
  lemma ParseIff(s: Bytes, n: u64)
    ensures ParseU64(s) == Some(n) <==>
      exists k: nat :: s == Zeros(k) + Print(n) || s == "+" + (Zeros(k) + Print(n))
  {
    var digits := if s != [] && s[0] == '+' then s[1..] else s;
    if ParseU64(s) == Some(n) {
      var k := DigitsArePrinted(digits);
      assert s == digits || s == "+" + digits;
    }
    if k: nat :| s == Zeros(k) + Print(n) || s == "+" + (Zeros(k) + Print(n)) {
      ZerosCountNothing(k, n);
      assert IsDigit((Zeros(k) + Print(n))[0]);
      assert digits == Zeros(k) + Print(n);
    }
  }
}
