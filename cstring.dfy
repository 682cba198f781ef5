/**
 * C string and number helpers used throughout the per-process cache:
 * the NUL-terminated view of a byte buffer, the ctype classifications,
 * atoi(3) and the "%d" / "%06d" renderings of sprintf(3).
 */
module CString {

  const NUL: char := '\0'

  datatype Option<T> = None | Some(value: T)

  /** The first index at or after `from` where s holds c (strchr over a known extent). */
  function Find(s: seq<char>, c: char, from: nat): (r: Option<nat>)
    requires from <= |s|
    ensures r.Some? ==> from <= r.value < |s| && s[r.value] == c
    ensures r.Some? ==> forall i :: from <= i < r.value ==> s[i] != c
    ensures r.None? ==> forall i :: from <= i < |s| ==> s[i] != c
    decreases |s| - from
  {
    if from == |s| then None
    else if s[from] == c then Some(from)
    else Find(s, c, from + 1)
  }

  /** isspace(3) in the C locale. */
  predicate IsSpace(c: char) {
    c == ' ' || c == '\t' || c == '\n' || c == '\U{B}' || c == '\U{C}' || c == '\r'
  }

  /** isdigit(3). */
  predicate IsDigit(c: char) {
    '0' <= c <= '9'
  }

  /** True when s holds no NUL byte, so that it can stand for a C string's text. */
  predicate NoNul(s: seq<char>) {
    forall i :: 0 <= i < |s| ==> s[i] != NUL
  }

  /** The C string stored at the front of a buffer: everything before the first NUL. */
  function CStr(s: seq<char>): (r: seq<char>)
    ensures |r| <= |s| && r == s[..|r|]
    ensures NoNul(r)
    ensures |r| < |s| ==> s[|r|] == NUL
  {
    if s == [] then []
    else if s[0] == NUL then []
    else [s[0]] + CStr(s[1..])
  }

  lemma {:induction false} CStrOfNoNul(s: seq<char>)
    requires NoNul(s)
    ensures CStr(s) == s
  {
    if s != [] {
      CStrOfNoNul(s[1..]);
    }
  }

  lemma {:induction false} CStrStopsAtNul(s: seq<char>, t: seq<char>)
    requires NoNul(s)
    ensures CStr(s + [NUL] + t) == s
  {
    if s == [] {
    } else {
      assert (s + [NUL] + t)[1..] == s[1..] + [NUL] + t;
      CStrStopsAtNul(s[1..], t);
    }
  }

  /** A NUL-free prefix is part of the C string. */
  lemma {:induction false} CStrAppend(a: seq<char>, s: seq<char>)
    requires NoNul(a)
    ensures CStr(a + s) == a + CStr(s)
  {
    if a == [] {
      assert a + s == s;
    } else {
      assert (a + s)[0] == a[0] != NUL;
      assert (a + s)[1..] == a[1..] + s;
      CStrAppend(a[1..], s);
      assert a == [a[0]] + a[1..];
    }
  }

  /** Whatever follows a NUL is not part of the C string. */
  lemma {:induction false} CStrNulAfter(x: seq<char>, r: seq<char>)
    ensures CStr(x + [NUL] + r) == CStr(x)
  {
    if x != [] && x[0] != NUL {
      assert (x + [NUL] + r)[1..] == x[1..] + [NUL] + r;
      CStrNulAfter(x[1..], r);
    }
  }

  /** Where the C string in a buffer ends: the index of its first NUL. */
  lemma {:induction false} CStrEnd(b: seq<char>)
    requires NUL in b
    ensures |CStr(b)| < |b| && b[|CStr(b)|] == NUL
  {
    if b[0] != NUL {
      assert NUL in b[1..];
      CStrEnd(b[1..]);
    }
  }

  /** A slice of the C string in a buffer is that slice of the buffer. */
  lemma {:induction false} CStrSlice(b: seq<char>, i: nat, j: nat)
    requires i <= j <= |CStr(b)|
    ensures b[i..j] == CStr(b)[i..j]
  {
    assert CStr(b) == b[..|CStr(b)|];
  }

  /** The C string of s is s[..n] when s[..n] holds no NUL and s ends or holds a NUL at n. */
  lemma {:induction false} CStrIs(s: seq<char>, n: nat)
    requires n <= |s| && NoNul(s[..n]) && (n < |s| ==> s[n] == NUL)
    ensures CStr(s) == s[..n]
  {
    if n > 0 {
      assert s[0] == s[..n][0];
      assert s[1..][..n - 1] == s[..n][1..];
      CStrIs(s[1..], n - 1);
      assert s[..n] == [s[0]] + s[1..][..n - 1];
    }
  }

  /** Decimal digits of a natural number, most significant first, no leading zeros. */
  function Digits(n: nat): (r: string)
    ensures 0 < |r|
    ensures forall i :: 0 <= i < |r| ==> IsDigit(r[i])
  {
    if n < 10 then [DigitChar(n)] else Digits(n / 10) + [DigitChar(n % 10)]
  }

  function DigitChar(d: nat): (c: char)
    requires d < 10
    ensures IsDigit(c) && DigitValue(c) == d
  {
    (48 + d) as char
  }

  function DigitValue(c: char): (d: nat)
    requires IsDigit(c)
    ensures d < 10
  {
    c as int - 48
  }

  /** sprintf(buf, "%d", n). */
  function Decimal(n: int): (r: string)
    ensures 0 < |r| && NoNul(r)
  {
    if n < 0 then "-" + Digits(-n) else Digits(n)
  }

  function Zeros(k: nat): (r: string)
    ensures |r| == k
    ensures forall i :: 0 <= i < k ==> r[i] == '0'
  {
    if k == 0 then [] else "0" + Zeros(k - 1)
  }

  /** Right-justify s in a field of width w, padding with zeros on the left. */
  function ZeroPad(s: string, w: nat): (r: string)
    ensures |r| == if |s| >= w then |s| else w
  {
    if |s| >= w then s else Zeros(w - |s|) + s
  }

  /** sprintf(buf, "%06d", n): width 6, zero padded after the sign. */
  function Pad6(n: int): (r: string)
    ensures 6 <= |r| && NoNul(r)
  {
    if n < 0 then "-" + ZeroPad(Digits(-n), 5) else ZeroPad(Digits(n), 6)
  }

  /** The value of a run of decimal digits. */
  function DigitsValue(ds: string): (v: nat)
    requires forall i :: 0 <= i < |ds| ==> IsDigit(ds[i])
  {
    if ds == [] then 0 else DigitsValue(ds[..|ds| - 1]) * 10 + DigitValue(ds[|ds| - 1])
  }

  /** The longest prefix of s made of decimal digits. */
  function LeadingDigits(s: string): (r: string)
    ensures |r| <= |s| && r == s[..|r|]
    ensures forall i :: 0 <= i < |r| ==> IsDigit(r[i])
    ensures |r| < |s| ==> !IsDigit(s[|r|])
  {
    if s == [] || !IsDigit(s[0]) then [] else [s[0]] + LeadingDigits(s[1..])
  }

  function DropSpaces(s: string): (r: string)
    ensures |r| <= |s|
    ensures r != [] ==> !IsSpace(r[0])
  {
    if s != [] && IsSpace(s[0]) then DropSpaces(s[1..]) else s
  }

  /**
   * atoi(3): optional white space, an optional sign, then decimal digits;
   * anything else ends the number.  Overflow (undefined in C) is not modelled.
   */
  function Atoi(s: string): int {
    var t := DropSpaces(s);
    if t != [] && t[0] == '-' then 0 - DigitsValue(LeadingDigits(t[1..])) as int
    else if t != [] && t[0] == '+' then DigitsValue(LeadingDigits(t[1..]))
    else DigitsValue(LeadingDigits(t))
  }

  lemma {:induction false} DigitsValueOfDigits(n: nat)
    ensures DigitsValue(Digits(n)) == n
  {
    if n >= 10 {
      var ds := Digits(n);
      assert ds[..|ds| - 1] == Digits(n / 10);
      DigitsValueOfDigits(n / 10);
    }
  }

  lemma {:induction false} LeadingDigitsOfDigitRun(s: string)
    requires forall i :: 0 <= i < |s| ==> IsDigit(s[i])
    ensures LeadingDigits(s) == s
  {
    if s != [] {
      LeadingDigitsOfDigitRun(s[1..]);
    }
  }

  lemma {:induction false} DigitsValueLeadingZeros(k: nat, ds: string)
    requires forall i :: 0 <= i < |ds| ==> IsDigit(ds[i])
    ensures forall i :: 0 <= i < |Zeros(k) + ds| ==> IsDigit((Zeros(k) + ds)[i])
    ensures DigitsValue(Zeros(k) + ds) == DigitsValue(ds)
  {
    var z := Zeros(k) + ds;
    assert forall i :: 0 <= i < |z| ==> IsDigit(z[i]) by {
      forall i | 0 <= i < |z| ensures IsDigit(z[i]) {
        if i < k { assert z[i] == '0'; } else { assert z[i] == ds[i - k]; }
      }
    }
    if ds == [] {
      DigitsValueZeros(k);
      assert z == Zeros(k);
    } else {
      var zs := Zeros(k) + ds[..|ds| - 1];
      assert z[..|z| - 1] == zs;
      DigitsValueLeadingZeros(k, ds[..|ds| - 1]);
    }
  }

  lemma {:induction false} DigitsValueZeros(k: nat)
    ensures forall i :: 0 <= i < |Zeros(k)| ==> IsDigit(Zeros(k)[i])
    ensures DigitsValue(Zeros(k)) == 0
  {
    if k > 0 {
      var z := Zeros(k);
      assert z[..k - 1] == Zeros(k - 1) by {
        assert forall i :: 0 <= i < k - 1 ==> z[i] == '0';
      }
      DigitsValueZeros(k - 1);
    }
  }

  /** atoi undoes "%d". */
  lemma {:induction false} AtoiDecimal(n: int)
    ensures Atoi(Decimal(n)) == n
  {
    var m: nat := if n < 0 then -n else n;
    var ds := Digits(m);
    LeadingDigitsOfDigitRun(ds);
    DigitsValueOfDigits(m);
    var d := Decimal(n);
    assert !IsSpace(d[0]);
    assert DropSpaces(d) == d;
    if n < 0 {
      assert d[1..] == ds;
    } else {
      assert d == ds;
    }
  }

  /** atoi undoes "%06d" for the non-negative identifiers the cache holds. */
  lemma {:induction false} AtoiPad6(n: nat)
    ensures Atoi(Pad6(n)) == n
  {
    var ds := Digits(n);
    var k := if |ds| >= 6 then 0 else 6 - |ds|;
    var z := Zeros(k) + ds;
    assert Pad6(n) == z;
    DigitsValueLeadingZeros(k, ds);
    AtoiOfDigitRun(z);
    DigitsValueOfDigits(n);
  }

  /** atoi reads a non-empty run of digits as its value. */
  lemma {:induction false} AtoiOfDigitRun(s: string)
    requires 0 < |s|
    requires forall i :: 0 <= i < |s| ==> IsDigit(s[i])
    ensures Atoi(s) == DigitsValue(s)
  {
    LeadingDigitsOfDigitRun(s);
    assert !IsSpace(s[0]) && s[0] != '-' && s[0] != '+';
    assert DropSpaces(s) == s;
  }

  /** "%06d" of an identifier below one million is exactly six digits. */
  lemma {:induction false} Pad6Width(n: nat)
    requires n < 1000000
    ensures |Pad6(n)| == 6
  {
    DigitsLength(n, 6);
  }

  lemma {:induction false} DigitsLength(n: nat, w: nat)
    requires n < Pow10(w)
    ensures |Digits(n)| <= if w == 0 then 1 else w
  {
    if n >= 10 {
      if w <= 1 { assert false; }
      DigitsLength(n / 10, w - 1);
    }
  }

  lemma {:induction false} DigitsLengthMin(n: nat, w: nat)
    requires n >= Pow10(w)
    ensures |Digits(n)| >= w + 1
  {
    if w > 0 {
      DigitsLengthMin(n / 10, w - 1);
    }
  }

  /** "%06d" of a seven-digit identifier is seven digits: the width is a minimum. */
  lemma {:induction false} Pad6Seven(n: nat)
    requires 1000000 <= n < 10000000
    ensures |Pad6(n)| == 7
  {
    assert Pow10(6) == 1000000 && Pow10(7) == 10000000;
    DigitsLengthMin(n, 6);
    DigitsLength(n, 7);
  }

  function Pow10(w: nat): (r: nat)
    ensures r >= 1
  {
    if w == 0 then 1 else 10 * Pow10(w - 1)
  }
}
