/** Text helpers: searching, and decimal numbers as they are printed and parsed. */
module Text {
  datatype Option<+T> = None | Some(value: T)

  /** The first position of `c` at or after `from`, or -1. */
  function Find(s: string, c: char, from: nat): (pos: int)
    ensures -1 <= pos < |s|
    ensures pos >= 0 ==> from <= pos && s[pos] == c
    decreases |s| - from
  {
    if from >= |s| then -1 else if s[from] == c then from else Find(s, c, from + 1)
  }

  predicate Without(s: string, c: char, from: nat, to: nat)
    requires to <= |s|
  {
    forall i :: from <= i < to ==> s[i] != c
  }

  lemma {:induction false} FindIsFirst(s: string, c: char, from: nat)
    ensures var pos := Find(s, c, from); Without(s, c, from, if pos >= 0 then pos else |s|)
    decreases |s| - from
  {
    if from < |s| && s[from] != c {
      FindIsFirst(s, c, from + 1);
    }
  }

  lemma {:induction false} FindFirst(s: string, c: char, from: nat, pos: nat)
    requires from <= pos <= |s| && Without(s, c, from, pos)
    ensures pos < |s| && s[pos] == c ==> Find(s, c, from) == pos
    ensures pos == |s| ==> Find(s, c, from) == -1
    decreases pos - from
  {
    if from < pos {
      FindFirst(s, c, from + 1, pos);
    }
  }

  lemma HasFirst(s: string, c: char)
    ensures Find(s, c, 0) >= 0 <==> c in s
  {
    FindIsFirst(s, c, 0);
  }

  /** Where the first separator after a separator-free part is found. */
  lemma FindAfter(before: string, part: string, c: char, rest: string)
    requires c !in part
    ensures Find(before + part + [c] + rest, c, |before|) == |before| + |part|
    ensures Find(before + part, c, |before|) == -1
  {
    var s := before + part + [c] + rest;
    assert s[|before| + |part|] == c;
    forall i | |before| <= i < |before| + |part|
      ensures s[i] != c && (before + part)[i] != c
    {
      assert s[i] == part[i - |before|] == (before + part)[i];
    }
    FindFirst(s, c, |before|, |before| + |part|);
    FindFirst(before + part, c, |before|, |before| + |part|);
  }

  lemma Regroup(a: string, b: string, c: string)
    ensures (a + b) + c == a + (b + c)
  {
  }

  predicate IsDigit(c: char) { '0' <= c <= '9' }

  predicate IsDigits(s: string) { forall i :: 0 <= i < |s| ==> IsDigit(s[i]) }

  lemma DigitsHoldNo(s: string, c: char)
    requires IsDigits(s) && !IsDigit(c)
    ensures c !in s
  {
    forall i | 0 <= i < |s|
      ensures s[i] != c
    {
      assert IsDigit(s[i]);
    }
  }

  function Digit(d: nat): (c: char)
    requires d < 10
    ensures IsDigit(c)
  {
    ('0' as int + d) as char
  }

  function Print(n: nat): (s: string)
    ensures s != [] && IsDigits(s)
  {
    if n < 10 then [Digit(n)] else Print(n / 10) + [Digit(n % 10)]
  }

  /** Printed with leading zeros to at least `width` digits. */
  function PrintPadded(n: nat, width: nat): (s: string)
    ensures IsDigits(s) && |s| >= width
  {
    if |Print(n)| >= width then Print(n)
    else Zeros(width - |Print(n)|) + Print(n)
  }

  function Zeros(n: nat): (s: string)
    ensures |s| == n && IsDigits(s)
  {
    if n == 0 then [] else ['0'] + Zeros(n - 1)
  }

  function ValueOf(s: string): nat
    requires IsDigits(s)
  {
    if s == [] then 0 else 10 * ValueOf(s[..|s| - 1]) + (s[|s| - 1] as int - '0' as int)
  }

  lemma {:induction false} PrintThenValue(n: nat)
    ensures ValueOf(Print(n)) == n
  {
    if n < 10 {
      assert Print(n)[..0] == [];
    } else {
      PrintThenValue(n / 10);
      assert Print(n)[..|Print(n)| - 1] == Print(n / 10);
    }
  }

  lemma PrintInjective(m: nat, n: nat)
    requires Print(m) == Print(n)
    ensures m == n
  {
    PrintThenValue(m);
    PrintThenValue(n);
  }

  lemma {:induction false} ValueOfZeros(k: nat, s: string)
    requires IsDigits(s)
    ensures ValueOf(Zeros(k) + s) == ValueOf(s)
  {
    if s == [] {
      assert Zeros(k) + s == Zeros(k);
      if k > 0 {
        ZerosLast(k);
        ValueOfZeros(k - 1, []);
        assert Zeros(k - 1) + [] == Zeros(k - 1);
      }
    } else {
      var all := Zeros(k) + s;
      assert all[..|all| - 1] == Zeros(k) + s[..|s| - 1];
      ValueOfZeros(k, s[..|s| - 1]);
    }
  }

  lemma {:induction false} ZerosLast(k: nat)
    requires k > 0
    ensures Zeros(k)[..k - 1] == Zeros(k - 1) && Zeros(k)[k - 1] == '0'
  {
    if k > 1 {
      ZerosLast(k - 1);
    }
  }

  lemma PaddedThenValue(n: nat, width: nat)
    ensures ValueOf(PrintPadded(n, width)) == n
  {
    var digits := Print(n);
    assert ValueOf(digits) == n by {
      PrintThenValue(n);
    }
    if |digits| < width {
      assert PrintPadded(n, width) == Zeros(width - |digits|) + digits;
      ValueOfZeros(width - |digits|, digits);
    }
  }

  /** A number below 10^width takes no more than `width` digits. */
  lemma {:induction false} PrintLength(n: nat, width: nat)
    requires width > 0 && n < Power10(width)
    ensures |Print(n)| <= width
  {
    if n >= 10 {
      assert width > 1 by {
        assert Power10(1) == 10 * Power10(0);
      }
      PrintLength(n / 10, width - 1);
    }
  }

  function Power10(n: nat): (p: nat)
    ensures p > 0
  {
    if n == 0 then 1 else 10 * Power10(n - 1)
  }

  lemma PaddedLength(n: nat, width: nat)
    requires width > 0 && n < Power10(width)
    ensures |PrintPadded(n, width)| == width
  {
    PrintLength(n, width);
  }
}
