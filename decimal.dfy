/**
 * Decimal text of Go's `int` on a 64-bit platform: `strconv.Itoa`, which
 * writes the pid file, and `strconv.Atoi`, which reads it back and which
 * `GetInt` uses on option values.
 */
module Decimal {
  import opened Wrappers
  import Text

  const MIN_INT64: int := -0x8000_0000_0000_0000
  const MAX_INT64: int := 0x7FFF_FFFF_FFFF_FFFF
  const MAX_UINT64: int := 0xFFFF_FFFF_FFFF_FFFF

  predicate IsInt64(n: int) {
    MIN_INT64 <= n <= MAX_INT64
  }

  /** The two failures `strconv` reports: `ErrSyntax` and `ErrRange`. */
  datatype NumErrorKind = ErrSyntax | ErrRange

  predicate IsDigit(c: char) {
    '0' <= c <= '9'
  }

  predicate AllDigits(s: string) {
    forall i :: 0 <= i < |s| ==> IsDigit(s[i])
  }

  function DigitValue(c: char): (d: nat)
    requires IsDigit(c)
    ensures d < 10
  {
    c as int - '0' as int
  }

  function DigitChar(d: nat): (c: char)
    requires d < 10
    ensures IsDigit(c) && DigitValue(c) == d
  {
    ('0' as int + d) as char
  }

  /** The number a string of decimal digits denotes, most significant digit first. */
  function Value(s: string): nat
    requires AllDigits(s)
  {
    if s == [] then 0 else Value(s[..|s| - 1]) * 10 + DigitValue(s[|s| - 1])
  }

  /** The shortest decimal digits of `n`: non-empty, and with no leading zero unless `n` is 0. */
  function NatDigits(n: nat): (r: string)
    ensures |r| > 0 && AllDigits(r)
    ensures Value(r) == n
    ensures r[0] == '0' ==> r == "0"
  {
    if n < 10 then [DigitChar(n)]
    else
      var prefix := NatDigits(n / 10);
      var r := prefix + [DigitChar(n % 10)];
      assert r[..|r| - 1] == prefix;
      r
  }

  /** Go's `strconv.Itoa`: a '-' for negative numbers, then the digits of the magnitude. */
  function Itoa(n: int): (r: string)
    ensures |r| > 0
    ensures n < 0 <==> r[0] == '-'
  {
    if n < 0 then "-" + NatDigits(-n) else NatDigits(n)
  }

  /** The number of leading decimal digits of `s`. */
  function DigitRun(s: string): (k: nat)
    ensures k <= |s| && AllDigits(s[..k])
    ensures k < |s| ==> !IsDigit(s[k])
  {
    if s == [] || !IsDigit(s[0]) then 0
    else
      var k := 1 + DigitRun(s[1..]);
      assert s[..k] == [s[0]] + s[1..][..k - 1];
      k
  }

  /**
   * `strconv.ParseUint(s, 10, 64)`. Go scans left to right: a non-digit is a
   * syntax error, and the accumulated value passing 2^64 - 1 is a range error
   * at once, before any later character is looked at. Since the accumulated
   * value only grows, a range error is reported exactly when the leading run
   * of digits already denotes more than 2^64 - 1.
   */
  function ParseUint(s: string): (r: Result<nat, NumErrorKind>)
    ensures r.Ok? <==> s != [] && AllDigits(s) && Value(s) <= MAX_UINT64
    ensures r.Ok? ==> r.value == Value(s)
    ensures r.Err? ==> (r.error == ErrRange <==> Value(s[..DigitRun(s)]) > MAX_UINT64)
  {
    if s == [] then Err(ErrSyntax)
    else
      var k := DigitRun(s);
      if Value(s[..k]) > MAX_UINT64 then
        assert AllDigits(s) ==> s[..k] == s;
        Err(ErrRange)
      else if k < |s| then Err(ErrSyntax)
      else
        assert s[..k] == s;
        Ok(Value(s))
  }

  /** The text left after the optional sign that `Atoi` accepts. */
  function Unsigned(s: string): string {
    if s != [] && (s[0] == '+' || s[0] == '-') then s[1..] else s
  }

  /** The number a sign and a magnitude denote. */
  function Signed(negative: bool, magnitude: nat): int {
    if negative then -(magnitude as int) else magnitude
  }

  /**
   * Go's `strconv.Atoi` for a 64-bit `int`: an optional '+' or '-', then one or
   * more decimal digits, within [-2^63, 2^63 - 1]. Anything else fails.
   */
  function Atoi(s: string): (r: Result<int, NumErrorKind>)
    ensures r.Ok? ==> IsInt64(r.value)
    ensures r.Ok? <==> |Unsigned(s)| > 0 && AllDigits(Unsigned(s)) && IsInt64(Signed(s[0] == '-', Value(Unsigned(s))))
    ensures r.Ok? ==> r.value == Signed(s[0] == '-', Value(Unsigned(s)))
    ensures var u := Unsigned(s);
            r.Err? ==> (r.error == ErrRange <==>
                        s != [] && (Value(u[..DigitRun(u)]) > MAX_UINT64
                                    || (|u| > 0 && AllDigits(u) && !IsInt64(Signed(s[0] == '-', Value(u))))))
  {
    if s == [] then Err(ErrSyntax)
    else
      var neg := s[0] == '-';
      match ParseUint(Unsigned(s))
      case Err(kind) => Err(kind)
      case Ok(u) =>
        if !neg && u > MAX_INT64 then Err(ErrRange)
        else if neg && u > -MIN_INT64 then Err(ErrRange)
        else Ok(Signed(neg, u))
  }

  /** A string of digits that does not start with a zero (other than "0" itself) is what NatDigits writes. */
  lemma {:induction false} NatDigitsOfValue(s: string)
    requires |s| > 0 && AllDigits(s)
    requires s[0] == '0' ==> s == "0"
    ensures NatDigits(Value(s)) == s
  {
    if |s| == 1 {
      assert Value(s) == Value([]) * 10 + DigitValue(s[0]);
    } else {
      var prefix, d := s[..|s| - 1], DigitValue(s[|s| - 1]);
      NatDigitsOfValue(prefix);
      ValueOfLeadingNonZero(prefix);
      var v := Value(prefix);
      assert Value(s) == v * 10 + d;
      assert Value(s) / 10 == v && Value(s) % 10 == d;
      assert NatDigits(Value(s)) == NatDigits(v) + [DigitChar(d)];
      assert s == prefix + [s[|s| - 1]];
    }
  }

  /** A digit string that starts with a non-zero digit denotes a positive number. */
  lemma {:induction false} ValueOfLeadingNonZero(s: string)
    requires |s| > 0 && AllDigits(s) && s[0] != '0'
    ensures Value(s) >= 1
  {
    if |s| > 1 {
      ValueOfLeadingNonZero(s[..|s| - 1]);
    }
  }

  /** The text Itoa writes contains no white space. */
  lemma ItoaNoSpace(n: int)
    ensures Text.NoSpace(Itoa(n))
  {
    var r := Itoa(n);
    forall i | 0 <= i < |r|
      ensures !Text.IsSpace(r[i])
    {
      if n < 0 && i > 0 {
        assert r[i] == NatDigits(-n)[i - 1];
      }
    }
  }

  /** Atoi reads back every 64-bit integer that Itoa writes. */
  lemma AtoiItoa(n: int)
    requires IsInt64(n)
    ensures Atoi(Itoa(n)) == Ok(n)
  {
    var s := Itoa(n);
    if n < 0 {
      assert Unsigned(s) == NatDigits(-n);
    } else {
      assert Unsigned(s) == NatDigits(n);
    }
  }

  /**
   * Conversely, a text Atoi accepts is what Itoa writes for its value exactly
   * when it is canonical: no '+', no leading zero and no "-0".
   */
  lemma ItoaAtoi(s: string)
    requires Atoi(s).Ok?
    requires s[0] != '+'
    requires Unsigned(s)[0] == '0' ==> s == "0"
    ensures Itoa(Atoi(s).value) == s
  {
    var u := Unsigned(s);
    NatDigitsOfValue(u);
    if s[0] == '-' {
      ValueOfLeadingNonZero(u);
      assert s == "-" + u;
    }
  }
}
