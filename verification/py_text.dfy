/** The two pieces of Python text handling the cohort SDK relies on:
    `str.join` and the decimal rendering of an `int` by `str()` / `format`. */
module PyText {

  /** `sep.join(parts)`: the parts in order with `sep` between neighbours. */
  function Join(sep: string, parts: seq<string>): (joined: string)
  {
    if |parts| == 0 then ""
    else if |parts| == 1 then parts[0]
    else parts[0] + sep + Join(sep, parts[1..])
  }

  /** Where part `i` starts inside `Join(sep, parts)`: the lengths of the parts before it
      plus one separator after each of them. */
  function PartOffset(sep: string, parts: seq<string>, i: nat): (offset: nat)
    requires i <= |parts|
  {
    if i == 0 then 0 else PartOffset(sep, parts, i - 1) + |parts[i - 1]| + |sep|
  }

  /** Total length of all parts, separators not included. */
  function TotalLength(parts: seq<string>): (total: nat)
  {
    if |parts| == 0 then 0 else |parts[0]| + TotalLength(parts[1..])
  }

  lemma {:induction false} PartOffsetShift(sep: string, parts: seq<string>, i: nat)
    requires 1 <= i <= |parts|
    ensures PartOffset(sep, parts, i) == |parts[0]| + |sep| + PartOffset(sep, parts[1..], i - 1)
  {
    if i > 1 {
      PartOffsetShift(sep, parts, i - 1);
    }
  }

  /** The joined text has one separator fewer than there are parts. */
  lemma {:induction false} JoinLength(sep: string, parts: seq<string>)
    requires |parts| > 0
    ensures |Join(sep, parts)| == TotalLength(parts) + (|parts| - 1) * |sep|
  {
    if |parts| > 1 {
      JoinLength(sep, parts[1..]);
    }
  }

  lemma SliceAfterPrefix(a: string, b: string, x: nat, y: nat)
    requires x <= y <= |b|
    ensures (a + b)[|a| + x..|a| + y] == b[x..y]
  {
  }

  /** Every part appears, in order, at its offset: the joined text lists exactly `parts` in
      their given order. */
  lemma {:induction false} JoinPartAt(sep: string, parts: seq<string>, i: nat)
    requires i < |parts|
    ensures PartOffset(sep, parts, i) + |parts[i]| <= |Join(sep, parts)|
    ensures Join(sep, parts)[PartOffset(sep, parts, i)..PartOffset(sep, parts, i) + |parts[i]|] == parts[i]
  {
    if |parts| > 1 {
      var rest := Join(sep, parts[1..]);
      if i == 0 {
        assert Join(sep, parts) == parts[0] + (sep + rest);
      } else {
        JoinPartAt(sep, parts[1..], i - 1);
        PartOffsetShift(sep, parts, i);
        var o := PartOffset(sep, parts[1..], i - 1);
        assert parts[1..][i - 1] == parts[i];
        assert Join(sep, parts) == (parts[0] + sep) + rest;
        SliceAfterPrefix(parts[0] + sep, rest, o, o + |parts[i]|);
      }
    }
  }

  /** Between a part and the next one stands exactly one separator. */
  lemma {:induction false} JoinSeparatorAfter(sep: string, parts: seq<string>, i: nat)
    requires i + 1 < |parts|
    ensures PartOffset(sep, parts, i + 1) <= |Join(sep, parts)|
    ensures Join(sep, parts)[PartOffset(sep, parts, i) + |parts[i]|..PartOffset(sep, parts, i + 1)] == sep
  {
    var rest := Join(sep, parts[1..]);
    if i == 0 {
      assert Join(sep, parts) == parts[0] + (sep + rest);
      SliceAfterPrefix(parts[0], sep + rest, 0, |sep|);
    } else {
      JoinSeparatorAfter(sep, parts[1..], i - 1);
      PartOffsetShift(sep, parts, i);
      PartOffsetShift(sep, parts, i + 1);
      var o := PartOffset(sep, parts[1..], i - 1);
      var o' := PartOffset(sep, parts[1..], i);
      assert parts[1..][i - 1] == parts[i];
      assert Join(sep, parts) == (parts[0] + sep) + rest;
      SliceAfterPrefix(parts[0] + sep, rest, o + |parts[i]|, o');
    }
  }

  /** Joining splits at any part boundary: the two halves, joined, with one separator
      between them. */
  lemma {:induction false} JoinSplit(sep: string, parts: seq<string>, k: nat)
    requires 0 < k < |parts|
    ensures Join(sep, parts) == Join(sep, parts[..k]) + sep + Join(sep, parts[k..])
  {
    if k > 1 {
      JoinSplit(sep, parts[1..], k - 1);
      assert parts[1..][..k - 1] == parts[..k][1..];
      assert parts[1..][k - 1..] == parts[k..];
    }
  }

  function DigitChar(d: nat): (c: char)
    requires d < 10
  {
    "0123456789"[d]
  }

  /** The decimal digits of a natural number, most significant first. */
  function DecimalDigits(n: nat): (s: string)
    ensures |s| >= 1
    ensures forall k :: 0 <= k < |s| ==> '0' <= s[k] <= '9'
    ensures s[0] == '0' ==> n == 0
  {
    if n < 10 then [DigitChar(n)] else DecimalDigits(n / 10) + [DigitChar(n % 10)]
  }

  /** `str(i)` of a Python int: an optional minus sign, then the digits. */
  function IntToDecimal(i: int): (text: string)
  {
    if i < 0 then "-" + DecimalDigits(-i) else DecimalDigits(i)
  }

  ghost predicate AllDigits(s: string)
  {
    forall k :: 0 <= k < |s| ==> '0' <= s[k] <= '9'
  }

  /** The value a string of decimal digits denotes. */
  function DigitsValue(s: string): (n: nat)
    requires AllDigits(s)
  {
    if s == [] then 0 else DigitsValue(s[..|s| - 1]) * 10 + (s[|s| - 1] as int - '0' as int)
  }

  /** Reading back the digits of `n` gives `n`. */
  lemma {:induction false} DecimalDigitsRoundTrip(n: nat)
    ensures DigitsValue(DecimalDigits(n)) == n
  {
    var s := DecimalDigits(n);
    if n >= 10 {
      DecimalDigitsRoundTrip(n / 10);
      assert s[..|s| - 1] == DecimalDigits(n / 10);
    }
  }

  /** `int(s)` for the texts `IntToDecimal` produces: an optional minus sign, then digits. */
  function ParseDecimal(s: string): (i: int)
    requires |s| >= 1
    requires s[0] == '-' ==> AllDigits(s[1..])
    requires s[0] != '-' ==> AllDigits(s)
  {
    if s[0] == '-' then 0 - DigitsValue(s[1..]) as int else DigitsValue(s)
  }

  /** Parsing the rendering of an int gives the int back: `int(str(i)) == i`. */
  lemma IntToDecimalRoundTrip(i: int)
    ensures |IntToDecimal(i)| >= 1
    ensures IntToDecimal(i)[0] == '-' ==> AllDigits(IntToDecimal(i)[1..])
    ensures IntToDecimal(i)[0] != '-' ==> AllDigits(IntToDecimal(i))
    ensures ParseDecimal(IntToDecimal(i)) == i
  {
    if i < 0 {
      var d := DecimalDigits(-i);
      assert IntToDecimal(i) == "-" + d;
      assert ("-" + d)[1..] == d;
      DecimalDigitsRoundTrip(-i);
    } else {
      var d := DecimalDigits(i);
      assert IntToDecimal(i) == d;
      assert d[0] != '-';
      DecimalDigitsRoundTrip(i);
    }
  }
}
