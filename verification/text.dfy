/** Character-level vocabulary shared by the renderer and its parser:
    prefixes, '<'-free text runs and decimal numerals as Python's `str(int)`
    writes them. */
module Text {

  import opened Wrappers

  predicate StartsWith(s: string, p: string) {
    |p| <= |s| && s[..|p|] == p
  }

  /** Text that cannot be mistaken for the start of a tag: no '<'. */
  predicate Plain(s: string) {
    forall k :: 0 <= k < |s| ==> s[k] != '<'
  }

  /** Length of the longest '<'-free prefix of `s`. */
  function TextSpan(s: string): (n: nat)
    ensures n <= |s|
    ensures Plain(s[..n])
    ensures n < |s| ==> s[n] == '<'
  {
    if |s| == 0 || s[0] == '<' then 0
    else
      var m := TextSpan(s[1..]);
      assert s[1..][..m] == s[1..m + 1];
      1 + m
  }

  /** A plain text followed by a tag (or by nothing) is read back whole. */
  lemma {:induction false} TextSpanOf(t: string, tail: string)
    requires Plain(t)
    requires |tail| == 0 || tail[0] == '<'
    ensures TextSpan(t + tail) == |t|
    decreases |t|
  {
    if |t| > 0 {
      assert (t + tail)[1..] == t[1..] + tail;
      TextSpanOf(t[1..], tail);
    }
  }

  // ---------------------------------------------------------------------
  // Decimal numerals
  // ---------------------------------------------------------------------

  predicate IsDigit(ch: char) {
    '0' <= ch <= '9'
  }

  predicate AllDigits(s: string) {
    forall k :: 0 <= k < |s| ==> IsDigit(s[k])
  }

  function DigitChar(d: nat): (ch: char)
    requires d < 10
    ensures IsDigit(ch)
    ensures ch as int - '0' as int == d
  {
    (('0' as int) + d) as char
  }

  /** The decimal numeral of `n`, as Python's `str` writes a non-negative int:
      at least one digit and no leading zero. */
  function NatToString(n: nat): (s: string)
    ensures |s| > 0
    ensures AllDigits(s)
    ensures |s| > 1 ==> s[0] != '0'
    ensures n < 10 <==> |s| == 1
    decreases n
  {
    if n < 10 then [DigitChar(n)]
    else NatToString(n / 10) + [DigitChar(n % 10)]
  }

  /** The number a string of decimal digits denotes. */
  function DigitsValue(s: string): nat
    requires AllDigits(s)
  {
    if |s| == 0 then 0
    else DigitsValue(s[..|s| - 1]) * 10 + (s[|s| - 1] as int - '0' as int)
  }

  /** Reading a numeral back yields the number it was written from. */
  lemma {:induction false} NatToStringRoundTrip(n: nat)
    ensures DigitsValue(NatToString(n)) == n
    decreases n
  {
    var s := NatToString(n);
    if n >= 10 {
      assert s[..|s| - 1] == NatToString(n / 10);
      NatToStringRoundTrip(n / 10);
    }
  }

  /** A numeral without leading zero is the numeral of the number it
      denotes, so a reader that refuses leading zeros reads only what
      `NatToString` writes. */
  lemma {:induction false} CanonicalDigits(ds: string)
    requires |ds| > 0 && AllDigits(ds)
    requires |ds| == 1 || ds[0] != '0'
    ensures NatToString(DigitsValue(ds)) == ds
    decreases |ds|
  {
    if |ds| > 1 {
      var front := ds[..|ds| - 1];
      CanonicalDigits(front);
      DigitsValuePositive(front);
      var d := ds[|ds| - 1] as int - '0' as int;
      var v := DigitsValue(ds);
      assert v == DigitsValue(front) * 10 + d;
      assert v / 10 == DigitsValue(front) && v % 10 == d;
      assert ds == front + [DigitChar(d)];
    }
  }

  lemma {:induction false} DigitsValuePositive(ds: string)
    requires |ds| > 0 && AllDigits(ds) && ds[0] != '0'
    ensures DigitsValue(ds) > 0
    decreases |ds|
  {
    if |ds| > 1 {
      DigitsValuePositive(ds[..|ds| - 1]);
    }
  }

  /** Length of the longest all-digit prefix of `s`. */
  function DigitSpan(s: string): (n: nat)
    ensures n <= |s|
    ensures AllDigits(s[..n])
    ensures n < |s| ==> !IsDigit(s[n])
  {
    if |s| == 0 || !IsDigit(s[0]) then 0
    else
      var m := DigitSpan(s[1..]);
      assert s[1..][..m] == s[1..m + 1];
      1 + m
  }

  lemma {:induction false} DigitSpanOf(ds: string, tail: string)
    requires AllDigits(ds)
    requires |tail| == 0 || !IsDigit(tail[0])
    ensures DigitSpan(ds + tail) == |ds|
    decreases |ds|
  {
    if |ds| > 0 {
      assert (ds + tail)[1..] == ds[1..] + tail;
      DigitSpanOf(ds[1..], tail);
    }
  }

  /** Python's `str(n)` for an int: a '-' sign before the numeral of |n|. */
  function IntToString(n: int): (s: string)
    ensures |s| > 0
    ensures Plain(s)
    ensures s[0] == '-' <==> n < 0
  {
    if n < 0 then "-" + NatToString(-n) else NatToString(n)
  }

  /** Reads an optional '-' followed by one or more digits, and nothing else. */
  function ParseInt(s: string): Option<int> {
    if |s| > 0 && s[0] == '-' then
      var ds := s[1..];
      if |ds| > 0 && AllDigits(ds) then Some(-(DigitsValue(ds) as int)) else None
    else if |s| > 0 && AllDigits(s) then Some(DigitsValue(s) as int)
    else None
  }

  /** An integer cell's text denotes exactly that integer. */
  lemma IntToStringRoundTrip(n: int)
    ensures ParseInt(IntToString(n)) == Some(n)
  {
    var s := IntToString(n);
    if n < 0 {
      var ds := NatToString(-n);
      assert s == "-" + ds;
      assert s[1..] == ds;
      NatToStringRoundTrip(-n);
      assert ParseInt(s) == Some(-(DigitsValue(ds) as int));
    } else {
      NatToStringRoundTrip(n);
      assert s[0] != '-';
    }
  }
}
