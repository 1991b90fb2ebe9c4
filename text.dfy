/** The string formatting the program uses to name files and to fill
    metadata columns: `str.join`, `str.split` (its inverse), and the
    `{i:04d}` format of a non-negative index. */
module Text {

  /** `sep.join(parts)` for a one-character separator: the first piece
      leads. */
  function Join(sep: char, parts: seq<string>): (s: string)
    ensures |parts| >= 1 ==> parts[0] <= s
    decreases |parts|
  {
    if |parts| == 0 then ""
    else if |parts| == 1 then parts[0]
    else parts[0] + [sep] + Join(sep, parts[1..])
  }

  /** `s.split(sep)` for a one-character separator: the pieces between
      separators, empty pieces included, so the result is never empty. */
  function Split(sep: char, s: string): (parts: seq<string>)
    ensures |parts| >= 1
    decreases |s|
  {
    if s == [] then [""]
    else
      var rest := Split(sep, s[1..]);
      if s[0] == sep then [""] + rest
      else [[s[0]] + rest[0]] + rest[1..]
  }

  /** A piece without the separator splits into itself. */
  lemma {:induction false} SplitPiece(sep: char, x: string)
    requires sep !in x
    ensures Split(sep, x) == [x]
  {
    if x != [] {
      SplitPiece(sep, x[1..]);
      assert [x[0]] + x[1..] == x;
    }
  }

  /** Splitting stops at the first separator. */
  lemma {:induction false} SplitFirstPiece(sep: char, x: string, rest: string)
    requires sep !in x
    ensures Split(sep, x + [sep] + rest) == [x] + Split(sep, rest)
  {
    var s := x + [sep] + rest;
    if x == [] {
      assert s[1..] == rest;
    } else {
      assert s[1..] == x[1..] + [sep] + rest;
      SplitFirstPiece(sep, x[1..], rest);
      assert [x[0]] + x[1..] == x;
    }
  }

  /** Splitting a joined list gives the list back, provided it is not empty
      and no piece holds the separator. */
  lemma {:induction false} SplitJoin(sep: char, parts: seq<string>)
    requires |parts| >= 1
    requires forall i :: 0 <= i < |parts| ==> sep !in parts[i]
    ensures Split(sep, Join(sep, parts)) == parts
  {
    if |parts| == 1 {
      SplitPiece(sep, parts[0]);
    } else {
      SplitJoin(sep, parts[1..]);
      SplitFirstPiece(sep, parts[0], Join(sep, parts[1..]));
    }
  }

  /** Joining the pieces of a split gives the string back, whatever it holds. */
  lemma {:induction false} JoinSplit(sep: char, s: string)
    ensures Join(sep, Split(sep, s)) == s
    decreases |s|
  {
    if s != [] {
      var rest := Split(sep, s[1..]);
      JoinSplit(sep, s[1..]);
      if s[0] == sep {
        assert Split(sep, s) == [""] + rest;
        assert ([""] + rest)[1..] == rest;
        assert s == [sep] + s[1..];
      } else {
        var parts := [[s[0]] + rest[0]] + rest[1..];
        assert Split(sep, s) == parts;
        if |rest| == 1 {
          assert s == [s[0]] + s[1..];
        } else {
          assert parts[1..] == rest[1..];
          assert s == [s[0]] + s[1..];
        }
      }
    }
  }

  predicate IsDigit(c: char) {
    '0' <= c <= '9'
  }

  predicate AllDigits(s: string) {
    forall i :: 0 <= i < |s| ==> IsDigit(s[i])
  }

  function DigitChar(d: nat): (c: char)
    requires d < 10
    ensures IsDigit(c)
  {
    ('0' as int + d) as char
  }

  function DigitValue(c: char): (d: nat)
    requires IsDigit(c)
    ensures d < 10
  {
    c as int - '0' as int
  }

  /** `str(n)` for a non-negative integer: its decimal digits, most
      significant first, with no leading zero. */
  function Decimal(n: nat): (s: string)
    ensures |s| >= 1 && AllDigits(s)
    ensures n == 0 <==> s == "0"
    ensures n > 0 ==> s[0] != '0'
  {
    if n < 10 then [DigitChar(n)] else Decimal(n / 10) + [DigitChar(n % 10)]
  }

  /** The value of a string of decimal digits. */
  function ParseDecimal(s: string): nat
    requires AllDigits(s)
  {
    if s == [] then 0 else 10 * ParseDecimal(s[..|s| - 1]) + DigitValue(s[|s| - 1])
  }

  /** `s` right-aligned in a field of `width` characters filled with '0'. */
  function ZeroPad(s: string, width: nat): string {
    if |s| >= width then s else seq(width - |s|, _ => '0') + s
  }

  /** The `{n:04d}` format: at least four digits, zero-filled on the left. */
  function Pad4(n: nat): string {
    ZeroPad(Decimal(n), 4)
  }

  /** The longest prefix of `s` made of digits. */
  function LeadingDigits(s: string): (d: string)
    ensures AllDigits(d) && d <= s
  {
    if s == [] || !IsDigit(s[0]) then [] else [s[0]] + LeadingDigits(s[1..])
  }

  /** Parsing undoes printing. */
  lemma {:induction false} ParseDecimalOfDecimal(n: nat)
    ensures ParseDecimal(Decimal(n)) == n
  {
    if n >= 10 {
      ParseDecimalOfDecimal(n / 10);
      var s := Decimal(n);
      assert s[..|s| - 1] == Decimal(n / 10);
    }
  }

  /** A leading zero does not change the value. */
  lemma {:induction false} ParseLeadingZero(s: string)
    requires AllDigits(s)
    ensures AllDigits(['0'] + s) && ParseDecimal(['0'] + s) == ParseDecimal(s)
  {
    if s != [] {
      var z := ['0'] + s;
      assert z[..|z| - 1] == ['0'] + s[..|s| - 1];
      ParseLeadingZero(s[..|s| - 1]);
    }
  }

  lemma {:induction false} ParseLeadingZeros(k: nat, s: string)
    requires AllDigits(s)
    ensures AllDigits(seq(k, _ => '0') + s)
    ensures ParseDecimal(seq(k, _ => '0') + s) == ParseDecimal(s)
  {
    if k > 0 {
      ParseLeadingZeros(k - 1, s);
      var z := seq(k - 1, _ => '0') + s;
      ParseLeadingZero(z);
      assert seq(k, _ => '0') + s == ['0'] + z;
    } else {
      assert seq(k, _ => '0') + s == s;
    }
  }

  /** A number below 10^k has at most k digits. */
  lemma {:induction false} DecimalLength(n: nat, k: nat)
    requires 1 <= k && n < Pow10(k)
    ensures |Decimal(n)| <= k
  {
    if n >= 10 {
      DecimalLength(n / 10, k - 1);
    }
  }

  /** A number of at least 10^k has more than k digits. */
  lemma {:induction false} DecimalLengthAtLeast(n: nat, k: nat)
    requires Pow10(k) <= n
    ensures |Decimal(n)| >= k + 1
  {
    if k > 0 {
      DecimalLengthAtLeast(n / 10, k - 1);
    }
  }

  function Pow10(k: nat): nat {
    if k == 0 then 1 else 10 * Pow10(k - 1)
  }

  /** `{n:04d}` is made of digits, is at least four characters wide (exactly
      four below 10000), and reads back as `n`; from 1000 on it is `str(n)`
      unchanged, and below 1000 it starts with a filling zero. */
  lemma Pad4Format(n: nat)
    ensures AllDigits(Pad4(n))
    ensures |Pad4(n)| >= 4
    ensures n < 10000 ==> |Pad4(n)| == 4
    ensures |Pad4(n)| == if n < 10000 then 4 else |Decimal(n)|
    ensures n >= 1000 ==> Pad4(n) == Decimal(n)
    ensures n < 1000 ==> Pad4(n)[0] == '0'
    ensures ParseDecimal(Pad4(n)) == n
  {
    var d := Decimal(n);
    ParseDecimalOfDecimal(n);
    if |d| < 4 {
      ParseLeadingZeros(4 - |d|, d);
    }
    assert Pow10(3) == 1000 && Pow10(4) == 10000 by {
      assert Pow10(1) == 10;
      assert Pow10(2) == 100;
    }
    if n < 1000 {
      DecimalLength(n, 3);
    } else {
      DecimalLengthAtLeast(n, 3);
    }
    if n < 10000 {
      DecimalLength(n, 4);
    }
  }

  /** The digits before the first non-digit are exactly the digit run. */
  lemma {:induction false} LeadingDigitsStop(d: string, c: char, rest: string)
    requires AllDigits(d) && !IsDigit(c)
    ensures LeadingDigits(d + [c] + rest) == d
  {
    var s := d + [c] + rest;
    if d != [] {
      assert s[1..] == d[1..] + [c] + rest;
      LeadingDigitsStop(d[1..], c, rest);
      assert [d[0]] + d[1..] == d;
    }
  }
}
