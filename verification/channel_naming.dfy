/**
  The channel name written for one binding:
    glyph + " - " + decimal player count + " " + suffix
  exactly as the template literal concatenates them. The configured suffixes
  already begin with a space, so the usual result has two spaces before the
  suffix text.
 */
module ChannelNaming {

  import opened Wrappers
  import opened StatusIndicator

  predicate IsDigit(c: char)
  {
    '0' <= c <= '9'
  }

  predicate AllDigits(s: string)
  {
    forall k :: 0 <= k < |s| ==> IsDigit(s[k])
  }

  /** A decimal numeral as JavaScript prints a non-negative integer below 10^21: no sign, no leading zero. */
  predicate Canonical(s: string)
  {
    |s| >= 1 && AllDigits(s) && (s[0] == '0' ==> |s| == 1)
  }

  function DigitChar(d: nat): (c: char)
    requires d < 10
    ensures IsDigit(c)
  {
    ('0' as int + d) as char
  }

  function DigitValue(c: char): (d: nat)
    requires IsDigit(c)
    ensures d < 10 && DigitChar(d) == c
  {
    c as int - '0' as int
  }

  /** Decimal rendering of the player count (`${num_players}`). */
  function Decimal(n: nat): (s: string)
    ensures Canonical(s)
    ensures n >= 10 ==> s[0] != '0'
    decreases n
  {
    if n < 10 then [DigitChar(n)] else Decimal(n / 10) + [DigitChar(n % 10)]
  }

  /** The value of a string of decimal digits, most significant first. */
  function ParseDecimal(s: string): nat
    requires AllDigits(s)
    decreases |s|
  {
    if s == [] then 0 else ParseDecimal(s[..|s| - 1]) * 10 + DigitValue(s[|s| - 1])
  }

  lemma {:induction false} DecimalRoundTrip(n: nat)
    ensures ParseDecimal(Decimal(n)) == n
    decreases n
  {
    if n >= 10 {
      var s := Decimal(n);
      assert s[..|s| - 1] == Decimal(n / 10);
      DecimalRoundTrip(n / 10);
    }
  }

  /** A digit string whose value is zero consists of zeros only. */
  lemma {:induction false} ParseDecimalZero(s: string)
    requires AllDigits(s) && ParseDecimal(s) == 0
    ensures forall k :: 0 <= k < |s| ==> s[k] == '0'
    decreases |s|
  {
    if s != [] {
      var init := s[..|s| - 1];
      assert AllDigits(init) by {
        forall k | 0 <= k < |init| ensures IsDigit(init[k]) { assert init[k] == s[k]; }
      }
      ParseDecimalZero(init);
      forall k | 0 <= k < |s| ensures s[k] == '0' {
        if k < |s| - 1 { assert s[k] == init[k]; }
      }
    }
  }

  /** Every canonical numeral is the rendering of its own value. */
  lemma {:induction false} CanonicalRoundTrip(s: string)
    requires Canonical(s)
    ensures Decimal(ParseDecimal(s)) == s
    decreases |s|
  {
    var init, last := s[..|s| - 1], s[|s| - 1];
    assert AllDigits(init) by {
      forall k | 0 <= k < |init| ensures IsDigit(init[k]) { assert init[k] == s[k]; }
    }
    if init == [] {
      assert s == [last];
      assert ParseDecimal(s) == DigitValue(last);
    } else {
      assert init[0] == s[0];
      assert Canonical(init);
      var v := ParseDecimal(init);
      if v == 0 {
        ParseDecimalZero(init);
        assert false;
      }
      var n := ParseDecimal(s);
      assert n == v * 10 + DigitValue(last);
      assert n / 10 == v && n % 10 == DigitValue(last);
      CanonicalRoundTrip(init);
      assert Decimal(n) == Decimal(v) + [DigitChar(DigitValue(last))];
      assert s == init + [last];
    }
  }

  /** Length of the longest run of digits at the start of `s`. */
  function DigitRun(s: string): (k: nat)
    ensures k <= |s|
    ensures AllDigits(s[..k])
    ensures k < |s| ==> !IsDigit(s[k])
    decreases |s|
  {
    if s == [] || !IsDigit(s[0]) then 0
    else
      var k := 1 + DigitRun(s[1..]);
      assert s[..k] == [s[0]] + s[1..][..k - 1];
      k
  }

  /** The digit run of a numeral followed by a non-digit is exactly the numeral. */
  lemma {:induction false} DigitRunOf(d: string, rest: string)
    requires AllDigits(d)
    requires rest != [] && !IsDigit(rest[0])
    ensures DigitRun(d + rest) == |d|
    decreases |d|
  {
    if d == [] {
      assert d + rest == rest;
    } else {
      assert (d + rest)[1..] == d[1..] + rest;
      assert AllDigits(d[1..]) by {
        forall k | 0 <= k < |d[1..]| ensures IsDigit(d[1..][k]) { assert d[1..][k] == d[k + 1]; }
      }
      DigitRunOf(d[1..], rest);
    }
  }

  /** The new channel name computed for one binding. */
  function ChannelName(ind: Indicator, count: nat, suffix: string): (r: string)
    ensures |r| == 5 + |Decimal(count)| + |suffix|
    ensures r[0] == Glyph(ind) && r[1..4] == " - "
    ensures r[|r| - |suffix|..] == suffix
  {
    [Glyph(ind)] + " - " + Decimal(count) + " " + suffix
  }

  datatype NameParts = NameParts(indicator: Indicator, count: nat, suffix: string)

  /**
    Reads a channel name back into its indicator, count and suffix; `None`
    when the name is not one `ChannelName` produces.
   */
  function ParseChannelName(name: string): (r: Option<NameParts>)
  {
    if |name| < 4 || IndicatorOfGlyph(name[0]).None? || name[1..4] != " - " then None
    else
      var rest := name[4..];
      var k := DigitRun(rest);
      if k == 0 || k == |rest| || rest[k] != ' ' || (rest[0] == '0' && k > 1) then None
      else Some(NameParts(IndicatorOfGlyph(name[0]).value, ParseDecimal(rest[..k]), rest[k + 1..]))
  }

  /** Every name the reconciler writes parses back to what it was built from. */
  lemma ChannelNameRoundTrip(ind: Indicator, count: nat, suffix: string)
    ensures ParseChannelName(ChannelName(ind, count, suffix)) == Some(NameParts(ind, count, suffix))
  {
    var name := ChannelName(ind, count, suffix);
    var d := Decimal(count);
    var rest := name[4..];
    assert rest == d + (" " + suffix);
    DigitRunOf(d, " " + suffix);
    assert rest[..|d|] == d;
    assert rest[|d| + 1..] == suffix;
    DecimalRoundTrip(count);
  }

  /** Every name that parses is exactly the name built from its parts. */
  lemma ParsedNameRebuilds(name: string)
    requires ParseChannelName(name).Some?
    ensures var p := ParseChannelName(name).value; ChannelName(p.indicator, p.count, p.suffix) == name
  {
    var p := ParseChannelName(name).value;
    var rest := name[4..];
    var k := DigitRun(rest);
    assert Canonical(rest[..k]);
    CanonicalRoundTrip(rest[..k]);
    assert rest == rest[..k] + " " + rest[k + 1..];
    assert name == [name[0]] + name[1..4] + rest;
  }

  /** Different indicators, counts or suffixes never produce the same name. */
  lemma ChannelNameInjective(i1: Indicator, n1: nat, s1: string, i2: Indicator, n2: nat, s2: string)
    requires ChannelName(i1, n1, s1) == ChannelName(i2, n2, s2)
    ensures i1 == i2 && n1 == n2 && s1 == s2
  {
    ChannelNameRoundTrip(i1, n1, s1);
    ChannelNameRoundTrip(i2, n2, s2);
  }

  /** Seven players, Medium, suffix " - Server 1": two spaces before the dash of the suffix. */
  lemma MediumSevenExample()
    ensures ChannelName(Medium, 7, " - Server 1") == "\U{1F7E1} - 7  - Server 1"
  {
  }
}
