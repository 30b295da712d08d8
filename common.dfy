/** Small value types and the decimal text helpers that several parts of the
    system share: Python's `str(int)`, `str.zfill`, the `PCB%03d` naming scheme
    and the digit run that `re.match(r"combination(\d+)", ...)` captures. */
module Common {

  datatype Option<+T> = None | Some(value: T)

  /** The outcome of an operation that can raise: `Err` carries the exception text. */
  datatype Result<+T> = Ok(value: T) | Err(error: string)

  predicate IsDigit(c: char) { '0' <= c <= '9' }

  predicate AllDigits(s: string) { forall i :: 0 <= i < |s| ==> IsDigit(s[i]) }

  function DigitChar(d: nat): (c: char)
    requires d < 10
    ensures IsDigit(c) && c as int - '0' as int == d
  {
    ('0' as int + d) as char
  }

  function DigitValue(c: char): (d: nat)
    requires IsDigit(c)
    ensures d < 10 && DigitChar(d) == c
  {
    c as int - '0' as int
  }

  /** Decimal text of a natural number, without leading zeros (Python `str(n)` for n >= 0). */
  function NatToString(n: nat): (s: string)
    ensures |s| > 0 && AllDigits(s)
    ensures n < 10 <==> |s| == 1
    ensures s[0] == '0' ==> n == 0
    decreases n
  {
    if n < 10 then [DigitChar(n)] else NatToString(n / 10) + [DigitChar(n % 10)]
  }

  /** Python `str(n)` for any integer. */
  function IntToString(n: int): (s: string)
    ensures |s| > 0
    ensures n >= 0 ==> AllDigits(s)
    ensures n < 0 ==> s[0] == '-' && AllDigits(s[1..])
  {
    if n >= 0 then NatToString(n) else "-" + NatToString(-n)
  }

  /** Value of a run of decimal digits; leading zeros are allowed (Python `int("007") == 7`). */
  function DigitsValue(s: string): nat
    requires AllDigits(s)
  {
    if s == [] then 0 else DigitsValue(s[..|s| - 1]) * 10 + DigitValue(s[|s| - 1])
  }

  lemma {:induction false} NatToStringRoundTrip(n: nat)
    ensures DigitsValue(NatToString(n)) == n
    decreases n
  {
    if n >= 10 {
      NatToStringRoundTrip(n / 10);
      var s := NatToString(n);
      assert s[..|s| - 1] == NatToString(n / 10);
    }
  }

  function Zeros(k: nat): (z: string)
    ensures |z| == k && AllDigits(z)
    ensures forall i :: 0 <= i < k ==> z[i] == '0'
  {
    seq(k, _ => '0')
  }

  lemma {:induction false} LeadingZerosValue(k: nat, s: string)
    requires AllDigits(s)
    ensures AllDigits(Zeros(k) + s) && DigitsValue(Zeros(k) + s) == DigitsValue(s)
    decreases |s|, k
  {
    var t := Zeros(k) + s;
    if s == [] {
      assert t == Zeros(k);
      if k > 0 {
        assert t[..|t| - 1] == Zeros(k - 1);
        LeadingZerosValue(k - 1, []);
        assert Zeros(k - 1) + [] == Zeros(k - 1);
      }
    } else {
      assert t[..|t| - 1] == Zeros(k) + s[..|s| - 1];
      LeadingZerosValue(k, s[..|s| - 1]);
    }
  }

  /** Python `str.zfill(width)`: pad with '0' on the left, after a leading sign. */
  function ZFill(s: string, width: nat): (r: string)
    ensures |r| == if |s| >= width then |s| else width
    ensures |s| >= width ==> r == s
    ensures |s| < width && |s| > 0 && (s[0] == '-' || s[0] == '+') ==>
      r == [s[0]] + Zeros(width - |s|) + s[1..]
    ensures |s| < width && (|s| == 0 || (s[0] != '-' && s[0] != '+')) ==>
      r == Zeros(width - |s|) + s
  {
    if |s| >= width then s
    else if |s| > 0 && (s[0] == '-' || s[0] == '+') then [s[0]] + Zeros(width - |s|) + s[1..]
    else Zeros(width - |s|) + s
  }

  /** The identifier the system gives PCB number `n`: `f"PCB{n:03d}"`, which is the
      same text as `"PCB" + str(n).zfill(3)`. */
  function PcbName(n: int): string
  {
    "PCB" + ZFill(IntToString(n), 3)
  }

  /** The number written after the "PCB" prefix of a non-negative PCB's name is the number itself. */
  lemma PcbNameDigits(n: nat)
    ensures var name := PcbName(n);
      |name| >= 6 && name[..3] == "PCB" && AllDigits(name[3..]) && DigitsValue(name[3..]) == n
  {
    var s := NatToString(n);
    NatToStringRoundTrip(n);
    var name := PcbName(n);
    assert name[3..] == ZFill(s, 3);
    if |s| < 3 {
      LeadingZerosValue(3 - |s|, s);
    }
  }

  /** Distinct PCB numbers get distinct names, so keying a dictionary by name loses no PCB. */
  lemma PcbNameInjective(a: nat, b: nat)
    requires PcbName(a) == PcbName(b)
    ensures a == b
  {
    PcbNameDigits(a);
    PcbNameDigits(b);
  }

  /** For the numbers the system accepts (1..50) the name has exactly six characters. */
  lemma PcbNameWidth(n: int)
    requires 1 <= n <= 50
    ensures |PcbName(n)| == 6
  {
    assert |NatToString(n)| <= 2 by {
      if n >= 10 { assert |NatToString(n / 10)| == 1; }
    }
  }

  /** The maximal run of ASCII digits at the front of `s`. */
  function LeadingDigits(s: string): (d: string)
    ensures AllDigits(d) && d <= s
    ensures |d| < |s| ==> !IsDigit(s[|d|])
  {
    if s == [] || !IsDigit(s[0]) then [] else [s[0]] + LeadingDigits(s[1..])
  }
}
