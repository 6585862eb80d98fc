/** JavaScript's rendering of non-negative integers as digit strings
    (`Number.prototype.toString(radix)` for radix 2 to 10), `padStart`, and the
    parsers that read such strings back, which is what makes the renderings
    injective. */
module Numerals {

  function Pow2(n: nat): (r: nat)
    ensures r >= 1
  {
    if n == 0 then 1 else 2 * Pow2(n - 1)
  }

  function DigitChar(d: nat): (c: char)
    requires d < 10
  {
    ('0' as int + d) as char
  }

  function DigitValue(c: char): int
  {
    c as int - '0' as int
  }

  /** Every character of `s` is a digit of base `b`. */
  predicate IsDigits(s: string, b: nat)
  {
    forall i :: 0 <= i < |s| ==> 0 <= DigitValue(s[i]) < b
  }

  /** `n.toString(b)`: most significant digit first, no leading zero except for 0 itself. */
  function ToBase(n: nat, b: nat): (r: string)
    requires 2 <= b <= 10
    ensures |r| >= 1 && IsDigits(r, b)
    ensures r[0] == '0' <==> n == 0
    ensures n < b <==> |r| == 1
    decreases n
  {
    if n < b then [DigitChar(n)]
    else
      DivStep(n, b);
      ToBase(n / b, b) + [DigitChar(n % b)]
  }

  /** The facts about one division step that the digit recursion rests on. */
  lemma DivStep(n: nat, b: nat)
    requires 2 <= b <= n
    ensures 1 <= n / b < n && 0 <= n % b < b && n == (n / b) * b + n % b
  {
    var q, r := n / b, n % b;
    assert n == q * b + r && 0 <= r < b;
    MulAtLeastDouble(q, b);
  }

  lemma {:induction false} MulAtLeastDouble(q: nat, b: nat)
    requires 2 <= b
    ensures q * b >= 2 * q
    decreases q
  {
    if q > 0 {
      MulAtLeastDouble(q - 1, b);
      assert q * b == (q - 1) * b + b;
    }
  }

  /** Reads a digit string of base `b`, most significant digit first; "" reads as 0. */
  function FromBase(s: string, b: nat): int
    decreases |s|
  {
    if s == [] then 0 else FromBase(s[..|s| - 1], b) * b + DigitValue(s[|s| - 1])
  }

  lemma {:induction false} FromToBase(n: nat, b: nat)
    requires 2 <= b <= 10
    ensures FromBase(ToBase(n, b), b) == n
    decreases n
  {
    var s := ToBase(n, b);
    if n < b {
      assert s[..|s| - 1] == [];
    } else {
      DivStep(n, b);
      assert s[..|s| - 1] == ToBase(n / b, b);
      FromToBase(n / b, b);
    }
  }

  /** Distinct numbers have distinct renderings. */
  lemma ToBaseInjective(m: nat, n: nat, b: nat)
    requires 2 <= b <= 10
    ensures ToBase(m, b) == ToBase(n, b) <==> m == n
  {
    FromToBase(m, b);
    FromToBase(n, b);
  }

  /** A number below 2^k has at most k binary digits. */
  lemma {:induction false} BinaryLength(n: nat, k: nat)
    requires 1 <= k && n < Pow2(k)
    ensures |ToBase(n, 2)| <= k
    decreases k
  {
    if n >= 2 {
      BinaryLength(n / 2, k - 1);
    }
  }

  /** `s.padStart(len, c)`: `s` prefixed with copies of `c` up to length `len`. */
  function PadStart(s: string, len: nat, c: char): (r: string)
    ensures |r| == if |s| < len then len else |s|
    ensures r[|r| - |s|..] == s
    ensures forall i :: 0 <= i < |r| - |s| ==> r[i] == c
  {
    if |s| >= len then s else seq(len - |s|, _ => c) + s
  }

  lemma {:induction false} FromBaseZeros(z: nat, b: nat)
    ensures FromBase(seq(z, _ => '0'), b) == 0
  {
    if z > 0 {
      assert seq(z, _ => '0')[..z - 1] == seq(z - 1, _ => '0');
      FromBaseZeros(z - 1, b);
    }
  }

  /** Leading zeros do not change the value read. */
  lemma {:induction false} FromBaseLeadingZeros(z: nat, s: string, b: nat)
    ensures FromBase(seq(z, _ => '0') + s, b) == FromBase(s, b)
    decreases |s|
  {
    var zs := seq(z, _ => '0');
    if s == [] {
      assert zs + s == zs;
      FromBaseZeros(z, b);
    } else {
      var t := zs + s;
      assert t[..|t| - 1] == zs + s[..|s| - 1];
      assert t[|t| - 1] == s[|s| - 1];
      FromBaseLeadingZeros(z, s[..|s| - 1], b);
    }
  }

  /** `String(x)` for an integer `x` below 10^21 in magnitude, such as a qubit
      index, where JavaScript still writes plain decimal digits. */
  function IntToDecimal(x: int): (r: string)
    ensures |r| >= 1
    ensures r[0] == '-' <==> x < 0
  {
    if x < 0 then "-" + ToBase(-x, 10) else ToBase(x, 10)
  }

  /** Reads an optionally signed decimal numeral. */
  function ParseDecimal(s: string): int
  {
    if |s| > 0 && s[0] == '-' then -FromBase(s[1..], 10) else FromBase(s, 10)
  }

  lemma DecimalRoundTrip(x: int)
    ensures ParseDecimal(IntToDecimal(x)) == x
  {
    var s := IntToDecimal(x);
    if x < 0 {
      var t := ToBase(-x, 10);
      assert s == "-" + t;
      assert s[1..] == t;
      FromToBase(-x, 10);
      assert ParseDecimal(s) == -FromBase(t, 10);
    } else {
      var t := ToBase(x, 10);
      assert s == t;
      assert IsDigits(t, 10);
      assert s[0] != '-';
      FromToBase(x, 10);
      assert ParseDecimal(s) == FromBase(t, 10);
    }
  }
}
