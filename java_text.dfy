/**
 * The two pieces of the Java library that shape the generated Dockerfile text:
 * the decimal rendering of an `int` (`StringBuilder.append(int)`, `String.valueOf`)
 * and the last name element of a Unix path (`Paths.get(p).getFileName()`).
 */
module JavaText {
  import opened Wrappers

  predicate IsDigit(c: char) {
    '0' <= c <= '9'
  }

  predicate AllDigits(s: string) {
    forall i :: 0 <= i < |s| ==> IsDigit(s[i])
  }

  function DigitValue(c: char): (d: nat)
    requires IsDigit(c)
    ensures d < 10
  {
    c as int - '0' as int
  }

  function DigitChar(d: nat): (c: char)
    requires d < 10
    ensures IsDigit(c) && DigitValue(c) == d
  {
    ('0' as int + d) as char
  }

  /** Decimal digits of `n`, most significant first. */
  function NatToDecimal(n: nat): string
    decreases n
  {
    if n < 10 then [DigitChar(n)] else NatToDecimal(n / 10) + [DigitChar(n % 10)]
  }

  /** The decimal form of `n` is a non-empty run of digits without a leading zero. */
  lemma {:induction false} NatToDecimalDigits(n: nat)
    ensures var s := NatToDecimal(n);
      |s| > 0 && AllDigits(s) && (s[0] == '0' ==> n == 0)
    decreases n
  {
    if n >= 10 {
      NatToDecimalDigits(n / 10);
    }
  }

  /** The number a string of decimal digits denotes. */
  function DecimalValue(s: string): nat
    requires AllDigits(s)
  {
    if s == [] then 0 else DecimalValue(s[..|s| - 1]) * 10 + DigitValue(s[|s| - 1])
  }

  lemma {:induction false} DecimalRoundTrip(n: nat)
    ensures AllDigits(NatToDecimal(n)) && DecimalValue(NatToDecimal(n)) == n
    decreases n
  {
    NatToDecimalDigits(n);
    if n >= 10 {
      var s := NatToDecimal(n);
      DecimalRoundTrip(n / 10);
      assert s[..|s| - 1] == NatToDecimal(n / 10);
    }
  }

  /** Java's rendering of an `int`: an optional minus sign, then the decimal digits. */
  function IntToString(i: int): string {
    if i < 0 then "-" + NatToDecimal(-i) else NatToDecimal(i)
  }

  /** The rendering is non-empty, holds no space, and starts with '-' exactly for negatives. */
  lemma {:induction false} IntToStringShape(i: int)
    ensures var s := IntToString(i);
      |s| > 0 && ' ' !in s && (i < 0 <==> s[0] == '-')
  {
    var n := if i < 0 then -i else i;
    NatToDecimalDigits(n);
  }

  /** Reads an integer back: an optional minus sign followed by at least one digit. */
  function ParseInt(s: string): Option<int> {
    if |s| > 1 && s[0] == '-' && AllDigits(s[1..]) then Some(-(DecimalValue(s[1..]) as int))
    else if |s| > 0 && AllDigits(s) then Some(DecimalValue(s))
    else None
  }

  lemma {:induction false} IntToStringRoundTrip(i: int)
    ensures ParseInt(IntToString(i)) == Some(i)
  {
    if i < 0 {
      DecimalRoundTrip(-i);
      assert IntToString(i)[1..] == NatToDecimal(-i);
    } else {
      DecimalRoundTrip(i);
      NatToDecimalDigits(i);
    }
  }

  /**
   * The text after the last '/' of a path: what `Paths.get(path).getFileName()`
   * renders as on a Unix file system, for a non-empty path that does not end in '/'.
   */
  function FileName(path: string): string {
    if path == [] || path[|path| - 1] == '/' then []
    else FileName(path[..|path| - 1]) + [path[|path| - 1]]
  }

  /**
   * The file name is the last element of the path: it holds no '/', it is a suffix
   * of the path that is the whole path or follows a '/', and it is empty only when
   * the path is empty or ends in '/'.
   */
  lemma {:induction false} FileNameIsLastElement(path: string)
    ensures var name := FileName(path);
      && '/' !in name
      && |name| <= |path| && path[|path| - |name|..] == name
      && (|name| < |path| ==> path[|path| - |name| - 1] == '/')
      && (name == [] <==> path == [] || path[|path| - 1] == '/')
    decreases |path|
  {
    if path != [] && path[|path| - 1] != '/' {
      var init := path[..|path| - 1];
      FileNameIsLastElement(init);
      var name := FileName(init);
      assert path[|path| - |name| - 1..] == init[|init| - |name|..] + [path[|path| - 1]];
    }
  }

  /** A path made of a directory, a '/' and a name without '/' has that name as its file name. */
  lemma {:induction false} FileNameOfJoin(dir: string, name: string)
    requires '/' !in name
    ensures FileName(dir + "/" + name) == name
    decreases |name|
  {
    var path := dir + "/" + name;
    if name != [] {
      var init := name[..|name| - 1];
      assert path[..|path| - 1] == dir + "/" + init;
      FileNameOfJoin(dir, init);
      assert name == init + [name[|name| - 1]];
    }
  }
}
