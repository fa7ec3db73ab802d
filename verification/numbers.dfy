/**
 * The numeric side of the pricing reply: Python's `int()` applied to a price
 * after `.replace('₹', '').replace(',', '')`, `min(...)` over the prices that
 * parsed, and the `{n:,}` format that prints the minimum with a comma every
 * three digits.
 */
module Numbers {
  import opened Wrappers

  predicate IsDigit(c: char) { '0' <= c <= '9' }

  predicate AllDigits(s: string) { forall i :: 0 <= i < |s| ==> IsDigit(s[i]) }

  function DigitChar(d: nat): (c: char)
    requires d < 10
    ensures IsDigit(c) && c as int - '0' as int == d
  {
    ('0' as int + d) as char
  }

  function DigitValue(c: char): nat
    requires IsDigit(c)
  {
    c as int - '0' as int
  }

  /** `str(n)` for a natural number. */
  function Decimal(n: nat): (s: string)
    ensures |s| > 0 && AllDigits(s)
  {
    if n < 10 then [DigitChar(n)] else Decimal(n / 10) + [DigitChar(n % 10)]
  }

  /** The number a string of decimal digits denotes (leading zeros allowed). */
  function ValueOf(s: string): nat
    requires AllDigits(s)
  {
    if s == [] then 0 else ValueOf(s[..|s| - 1]) * 10 + DigitValue(s[|s| - 1])
  }

  /** Reading back the digits of n gives n. */
  lemma {:induction false} ValueOfDecimal(n: nat)
    ensures ValueOf(Decimal(n)) == n
  {
    if n >= 10 {
      var s := Decimal(n);
      assert s[..|s| - 1] == Decimal(n / 10);
      ValueOfDecimal(n / 10);
    }
  }

  /** The `,` format specification applied to a string of digits: a comma before every group of three, counted from the right. */
  function GroupDigits(ds: string): (r: string)
  {
    if |ds| <= 3 then ds else GroupDigits(ds[..|ds| - 3]) + "," + ds[|ds| - 3..]
  }

  /** Position i of g holds a comma exactly when it lies a multiple of four from the right end, and a digit otherwise. */
  predicate GroupedAt(g: string, i: nat)
    requires i < |g|
  {
    (g[i] == ',' <==> (|g| - i) % 4 == 0) && (g[i] != ',' ==> IsDigit(g[i]))
  }

  predicate CommaEveryThreeDigits(g: string) {
    forall i :: 0 <= i < |g| ==> GroupedAt(g, i)
  }

  /** Where `{:,}` puts its commas: exactly at the positions a multiple of four from the right end; the rest are the digits. */
  lemma {:induction false} GroupDigitsCommas(ds: string)
    requires AllDigits(ds)
    ensures CommaEveryThreeDigits(GroupDigits(ds))
    ensures |ds| > 0 ==> GroupDigits(ds)[0] == ds[0]
    decreases |ds|
  {
    var g := GroupDigits(ds);
    if |ds| > 3 {
      var head, tail := ds[..|ds| - 3], ds[|ds| - 3..];
      var gh := GroupDigits(head);
      GroupDigitsCommas(head);
      assert g == gh + "," + tail;
      assert |g| == |gh| + 4;
      assert g[0] == gh[0] == head[0];
      forall i | 0 <= i < |g|
        ensures GroupedAt(g, i)
      {
        if i < |gh| {
          assert g[i] == gh[i];
          assert GroupedAt(gh, i);
          assert |g| - i == (|gh| - i) + 4;
        } else if i == |gh| {
          assert g[i] == ',';
        } else {
          var k := i - |gh| - 1;
          assert 0 <= k < 3;
          assert g[i] == tail[k] == ds[|ds| - 3 + k];
          assert |g| - i == 3 - k;
        }
      }
    }
  }

  /** `str(n)` never starts with a zero, except for 0 itself. */
  lemma {:induction false} DecimalLeadingDigit(n: nat)
    ensures Decimal(n)[0] == '0' <==> n == 0
  {
    if n >= 10 {
      DecimalLeadingDigit(n / 10);
      assert Decimal(n)[0] == Decimal(n / 10)[0];
    }
  }

  /** `f"{n:,}"` for an integer n. */
  function FormatThousands(n: int): (r: string)
  {
    if n < 0 then "-" + GroupDigits(Decimal(-n)) else GroupDigits(Decimal(n))
  }

  /**
   * The shape of `f"{n:,}"`: a minus sign exactly for a negative n, then
   * digit groups with a comma every three digits from the right, starting
   * with a digit (never a comma), and with a zero only when n is 0.
   */
  lemma FormatThousandsShape(n: int)
    ensures var f := FormatThousands(n);
      |f| > 0 && (f[0] == '-' <==> n < 0) &&
      var g := if n < 0 then f[1..] else f;
      |g| > 0 && CommaEveryThreeDigits(g) && IsDigit(g[0]) && (g[0] == '0' <==> n == 0)
  {
    var m: nat := if n < 0 then -n else n;
    var ds := Decimal(m);
    GroupDigitsCommas(ds);
    DecimalLeadingDigit(m);
    var g := GroupDigits(ds);
    var f := FormatThousands(n);
    if n < 0 {
      assert f == "-" + g;
      assert f[1..] == g;
    }
    assert g[0] == ds[0];
  }

  predicate IsPriceMark(c: char) { c == '₹' || c == ',' }

  /** `s.replace('₹', '').replace(',', '')`. */
  function StripPriceMarks(s: string): (r: string)
    ensures forall i :: 0 <= i < |r| ==> !IsPriceMark(r[i])
  {
    if s == [] then [] else (if IsPriceMark(s[0]) then [] else [s[0]]) + StripPriceMarks(s[1..])
  }

  /** Every character other than `₹` and `,` is kept, as often as it occurs. */
  lemma {:induction false} StripKeepsOthers(s: string, c: char)
    requires !IsPriceMark(c)
    ensures multiset(StripPriceMarks(s))[c] == multiset(s)[c]
  {
    if s != [] {
      StripKeepsOthers(s[1..], c);
      assert s == [s[0]] + s[1..];
    }
  }

  lemma {:induction false} StripAppend(a: string, b: string)
    ensures StripPriceMarks(a + b) == StripPriceMarks(a) + StripPriceMarks(b)
  {
    if a == [] {
      assert a + b == b;
    } else {
      assert (a + b)[1..] == a[1..] + b;
      StripAppend(a[1..], b);
    }
  }

  /** Text free of `₹` and `,` is left as it is. */
  lemma {:induction false} StripUnmarked(s: string)
    requires forall i :: 0 <= i < |s| ==> !IsPriceMark(s[i])
    ensures StripPriceMarks(s) == s
  {
    if s != [] {
      StripUnmarked(s[1..]);
    }
  }

  lemma StripSeparator()
    ensures StripPriceMarks(",") == []
  {
    assert ","[1..] == [];
  }

  /** Stripping a group separator followed by plain digits keeps just the digits. */
  lemma StripJoined(g: string, tail: string)
    requires AllDigits(tail)
    ensures StripPriceMarks(g + "," + tail) == StripPriceMarks(g) + tail
  {
    StripAppend(g + ",", tail);
    StripAppend(g, ",");
    StripSeparator();
    StripUnmarked(tail);
  }

  lemma SplitDigits(ds: string, k: nat)
    requires AllDigits(ds) && k <= |ds|
    ensures AllDigits(ds[..k]) && AllDigits(ds[k..]) && ds[..k] + ds[k..] == ds
  {
  }

  /** Removing the separators from grouped digits gives the digits back. */
  lemma {:induction false} StripGrouped(ds: string)
    requires AllDigits(ds)
    ensures StripPriceMarks(GroupDigits(ds)) == ds
    decreases |ds|
  {
    if |ds| <= 3 {
      StripUnmarked(ds);
    } else {
      var head, tail := ds[..|ds| - 3], ds[|ds| - 3..];
      SplitDigits(ds, |ds| - 3);
      StripGrouped(head);
      StripJoined(GroupDigits(head), tail);
    }
  }

  /** The ASCII whitespace `int()` ignores around a number: space, `\t`, `\n`, `\v`, `\f` and `\r`. */
  predicate IsSpace(c: char) {
    c == ' ' || c == '\t' || c == '\n' || c == '\r' || c == '\U{B}' || c == '\U{C}'
  }

  function TrimLeft(s: string): (r: string)
    ensures |r| <= |s| && r == s[|s| - |r|..]
    ensures r == [] || !IsSpace(r[0])
    ensures forall i :: 0 <= i < |s| - |r| ==> IsSpace(s[i])
  {
    if |s| > 0 && IsSpace(s[0]) then TrimLeft(s[1..]) else s
  }

  function TrimRight(s: string): (r: string)
    ensures |r| <= |s| && r == s[..|r|]
    ensures r == [] || !IsSpace(r[|r| - 1])
    ensures forall i :: |r| <= i < |s| ==> IsSpace(s[i])
  {
    if |s| > 0 && IsSpace(s[|s| - 1]) then TrimRight(s[..|s| - 1]) else s
  }

  /** The text `int()` reads: s without its surrounding whitespace. */
  function Trim(s: string): (r: string)
    ensures forall i :: 0 <= i < |r| ==> r[i] in s
  {
    var l := TrimLeft(s);
    var r := TrimRight(l);
    assert forall i :: 0 <= i < |l| ==> l[i] in s by {
      assert l == s[|s| - |l|..];
    }
    assert forall i :: 0 <= i < |r| ==> r[i] == l[i];
    r
  }

  /**
   * CPython's default limit on the number of decimal digits `int()` reads
   * and `str()` writes (`sys.get_int_max_str_digits()`); beyond it both
   * raise `ValueError`.
   */
  const MaxStrDigits: nat := 4300

  function Magnitude(n: int): nat {
    if n < 0 then -n else n
  }

  /** `str(n)` is within the digit limit. */
  predicate WithinStrLimit(n: int) {
    |Decimal(Magnitude(n))| <= MaxStrDigits
  }

  function Pow10(k: nat): nat {
    if k == 0 then 1 else 10 * Pow10(k - 1)
  }

  /** k digits denote a number below 10^k. */
  lemma {:induction false} ValueOfBelowPow10(ds: string)
    requires AllDigits(ds)
    ensures ValueOf(ds) < Pow10(|ds|)
  {
    if ds != [] {
      var init := ds[..|ds| - 1];
      ValueOfBelowPow10(init);
      assert ValueOf(ds) == ValueOf(init) * 10 + DigitValue(ds[|ds| - 1]);
      assert ValueOf(init) * 10 <= (Pow10(|init|) - 1) * 10;
    }
  }

  /** A number below 10^k has at most k decimal digits. */
  lemma {:induction false} DecimalLength(n: nat, k: nat)
    requires 0 < k && n < Pow10(k)
    ensures |Decimal(n)| <= k
  {
    if n >= 10 {
      assert Pow10(1) == 10;
      DecimalLength(n / 10, k - 1);
    }
  }

  /** A run of one or more ASCII digits, no more than the limit allows, read as a number. */
  function ParseUnsigned(ds: string): (r: Option<int>)
    ensures r.Some? ==> r.value >= 0
  {
    if |ds| > 0 && AllDigits(ds) && |ds| <= MaxStrDigits then Some(ValueOf(ds)) else None
  }

  /** An optional `+` or `-` followed by digits. */
  function ParseSigned(t: string): (r: Option<int>)
    ensures r.Some? ==> |t| > 0 && IsDigit(t[|t| - 1])
  {
    if |t| > 0 && t[0] == '-' then
      match ParseUnsigned(t[1..])
      case Some(v) => Some(-v)
      case None => None
    else if |t| > 0 && t[0] == '+' then ParseUnsigned(t[1..])
    else ParseUnsigned(t)
  }

  /**
   * `int(s)` in base 10: surrounding whitespace, then an optional `+` or `-`,
   * then one or more ASCII digits; anything else is `None`, the `ValueError`
   * the caller swallows.
   */
  function ParseInt(s: string): Option<int> {
    ParseSigned(Trim(s))
  }

  /** Every number `int()` accepts converts back with `str()` within the limit. */
  lemma ParseSignedWithinLimit(t: string)
    requires ParseSigned(t).Some?
    ensures WithinStrLimit(ParseSigned(t).value)
  {
    var ds := if |t| > 0 && (t[0] == '-' || t[0] == '+') then t[1..] else t;
    assert ParseUnsigned(ds).Some?;
    ValueOfBelowPow10(ds);
    DecimalLength(ValueOf(ds), |ds|);
    assert Magnitude(ParseSigned(t).value) == ValueOf(ds);
  }

  /** A run of digits longer than the limit is refused: as a price it is skipped. */
  lemma TooManyDigitsSkipped(ds: string)
    requires AllDigits(ds) && |ds| > MaxStrDigits
    ensures ParsePrice(ds) == None
  {
    assert IsDigit(ds[0]) && IsDigit(ds[|ds| - 1]);
    StripUnmarked(ds);
    TrimNoSpace(ds);
    assert ParseInt(ds) == ParseSigned(ds);
    assert ParseSigned(ds) == ParseUnsigned(ds);
  }

  /** `int()` only succeeds on text holding a digit. */
  lemma ParseIntNeedsDigit(s: string)
    requires ParseInt(s).Some?
    ensures exists i :: 0 <= i < |s| && IsDigit(s[i])
  {
    var t := Trim(s);
    assert t[|t| - 1] in s;
  }

  /** The integer a price string stands for, if any: its `₹` and `,` removed, then `int()`. */
  function ParsePrice(price: string): Option<int> {
    ParseInt(StripPriceMarks(price))
  }

  /** A price that parses can be printed again: its `str()` is within the digit limit. */
  lemma ParsePriceWithinLimit(price: string)
    requires ParsePrice(price).Some?
    ensures WithinStrLimit(ParsePrice(price).value)
  {
    ParseSignedWithinLimit(Trim(StripPriceMarks(price)));
  }

  lemma {:induction false} StripKeepsNoDigit(s: string)
    requires forall i :: 0 <= i < |s| ==> !IsDigit(s[i])
    ensures forall i :: 0 <= i < |StripPriceMarks(s)| ==> !IsDigit(StripPriceMarks(s)[i])
  {
    if s != [] {
      StripKeepsNoDigit(s[1..]);
    }
  }

  /** A price with no digit in it is never counted. */
  lemma NoDigitNoPrice(price: string)
    requires forall i :: 0 <= i < |price| ==> !IsDigit(price[i])
    ensures ParsePrice(price) == None
  {
    var stripped := StripPriceMarks(price);
    StripKeepsNoDigit(price);
    var t := Trim(stripped);
    if |t| > 1 {
      assert t[1] in stripped;
    }
    if |t| > 0 {
      assert t[0] in stripped;
    }
  }

  /** Text without surrounding whitespace is what `int()` reads as it is. */
  lemma TrimNoSpace(s: string)
    requires s == [] || (!IsSpace(s[0]) && !IsSpace(s[|s| - 1]))
    ensures Trim(s) == s
  {
  }

  /** `str(n)` for an integer n. */
  function Show(n: int): string {
    if n < 0 then "-" + Decimal(-n) else Decimal(n)
  }

  lemma ParseDecimal(m: nat)
    requires |Decimal(m)| <= MaxStrDigits
    ensures ParseSigned(Decimal(m)) == Some(m)
  {
    ValueOfDecimal(m);
    var ds := Decimal(m);
    assert IsDigit(ds[0]);
  }

  lemma TrimDecimal(sign: string, m: nat)
    requires sign == "" || sign == "-"
    ensures Trim(sign + Decimal(m)) == sign + Decimal(m)
  {
    var ds := Decimal(m);
    assert IsDigit(ds[0]) && IsDigit(ds[|ds| - 1]);
    TrimNoSpace(sign + ds);
  }

  lemma ParseMinusDecimal(m: nat)
    requires m > 0 && |Decimal(m)| <= MaxStrDigits
    ensures ParseSigned("-" + Decimal(m)) == Some(-(m as int))
  {
    var ds := Decimal(m);
    var t := "-" + ds;
    assert t[0] == '-' && t[1..] == ds;
    ValueOfDecimal(m);
  }

  /** `int(str(n)) == n`, for every n whose `str()` is within the digit limit (beyond it `str(n)` raises). */
  lemma ParseShow(n: int)
    requires WithinStrLimit(n)
    ensures ParseInt(Show(n)) == Some(n)
  {
    var s := Show(n);
    if n < 0 {
      var m: nat := -n;
      assert s == "-" + Decimal(m);
      TrimDecimal("-", m);
      ParseMinusDecimal(m);
      assert ParseInt(s) == ParseSigned(s);
    } else {
      var m: nat := n;
      assert s == "" + Decimal(m);
      TrimDecimal("", m);
      ParseDecimal(m);
      assert ParseInt(s) == ParseSigned(Decimal(m));
    }
  }

  /** Removing `₹` and `,` from a grouped figure gives `str(n)`. */
  lemma StripFormatted(n: int)
    ensures StripPriceMarks("₹" + FormatThousands(n)) == Show(n)
  {
    var m: nat := if n < 0 then -n else n;
    var ds := Decimal(m);
    StripGrouped(ds);
    assert StripPriceMarks("₹") == [];
    if n < 0 {
      StripAppend("₹", "-" + GroupDigits(ds));
      StripAppend("-", GroupDigits(ds));
      assert StripPriceMarks("-") == "-";
    } else {
      StripAppend("₹", GroupDigits(ds));
    }
  }

  /** What the pricing reply prints, read back as a price, is the number printed. */
  lemma PriceRoundTrip(n: int)
    requires WithinStrLimit(n)
    ensures ParsePrice("₹" + FormatThousands(n)) == Some(n)
  {
    StripFormatted(n);
    ParseShow(n);
  }

  /** Python's `min(xs)`: the smallest element. */
  function MinOf(xs: seq<int>): (m: int)
    requires |xs| > 0
    ensures m in xs
    ensures forall i :: 0 <= i < |xs| ==> m <= xs[i]
  {
    if |xs| == 1 then xs[0]
    else
      var rest := MinOf(xs[1..]);
      if xs[0] <= rest then xs[0] else rest
  }
}
