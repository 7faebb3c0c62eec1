/** The dotted-quad check `_check_data`, which both programs carry with identical
    logic: split the address text on ".", demand exactly four segments, and demand
    that `int()` of every segment succeeds and lies in [0, 255]. Any failure is a
    `ValueError`, so the check is modelled as one predicate, `ValidIPv4`, that holds
    exactly when `_check_data` returns without raising.

    Python's `int()` on text is modelled as an optional sign followed by one or more
    ASCII digits. The further forms `int()` accepts (surrounding whitespace, single
    underscores between digits, non-ASCII decimal digits) are not modelled: for
    such text `ParseInt` answers `None` where Python would produce a number. */
module AddressCheck {
  import opened Wrappers

  // ---------------------------------------------------------------------------
  // str.split with an explicit one-character separator
  // ---------------------------------------------------------------------------

  /** The inverse of `Split`: the parts glued back together with `sep`. */
  function Join(parts: seq<string>, sep: char): string
    requires |parts| >= 1
  {
    if |parts| == 1 then parts[0] else parts[0] + [sep] + Join(parts[1..], sep)
  }

  /** How often `c` occurs in `s`. */
  function Occurrences(s: string, c: char): nat
  {
    if s == [] then 0 else (if s[0] == c then 1 else 0) + Occurrences(s[1..], c)
  }

  /** Python's `s.split(sep)`: the maximal separator-free pieces between the
      separators, so there is always one more piece than there are separators and
      the empty text splits into one empty piece. */
  function Split(s: string, sep: char): (parts: seq<string>)
    ensures |parts| == Occurrences(s, sep) + 1
    ensures forall i | 0 <= i < |parts| :: sep !in parts[i]
    ensures Join(parts, sep) == s
    decreases |s|
  {
    if s == [] then [[]]
    else
      var rest := Split(s[1..], sep);
      if s[0] == sep then
        [[]] + rest
      else
        var parts := [[s[0]] + rest[0]] + rest[1..];
        assert parts[1..] == rest[1..];
        assert |rest| > 1 ==> Join(rest, sep) == rest[0] + [sep] + Join(rest[1..], sep);
        parts
  }

  /** Splitting text that holds no separator gives the text back as the only piece. */
  lemma {:induction false} SplitWithoutSeparator(x: string, sep: char)
    requires sep !in x
    ensures Split(x, sep) == [x]
  {
    if x != [] {
      assert sep !in x[1..];
      SplitWithoutSeparator(x[1..], sep);
      assert [x[0]] + x[1..] == x;
    }
  }

  /** A separator-free head is split off as the first piece. */
  lemma {:induction false} SplitAfterFirstSeparator(x: string, sep: char, y: string)
    requires sep !in x
    ensures Split(x + [sep] + y, sep) == [x] + Split(y, sep)
  {
    if x == [] {
      assert (x + [sep] + y)[1..] == y;
    } else {
      assert (x + [sep] + y)[1..] == x[1..] + [sep] + y;
      assert sep !in x[1..];
      SplitAfterFirstSeparator(x[1..], sep, y);
      assert [x[0]] + x[1..] == x;
    }
  }

  /** `Split` undoes `Join` whenever no part holds the separator. */
  lemma {:induction false} SplitOfJoin(parts: seq<string>, sep: char)
    requires |parts| >= 1
    requires forall i | 0 <= i < |parts| :: sep !in parts[i]
    ensures Split(Join(parts, sep), sep) == parts
  {
    if |parts| == 1 {
      SplitWithoutSeparator(parts[0], sep);
    } else {
      SplitOfJoin(parts[1..], sep);
      SplitAfterFirstSeparator(parts[0], sep, Join(parts[1..], sep));
      assert [parts[0]] + parts[1..] == parts;
    }
  }

  // ---------------------------------------------------------------------------
  // int() on a segment
  // ---------------------------------------------------------------------------

  predicate IsDigit(c: char) { '0' as int <= c as int <= '9' as int }

  predicate IsSign(c: char) { c == '+' || c == '-' }

  predicate AllDigits(d: string) { forall i | 0 <= i < |d| :: IsDigit(d[i]) }

  /** The text `int()` accepts in this model: an optional sign, then one or more
      ASCII digits. */
  predicate IsIntegerText(p: string)
  {
    var digits := if |p| > 0 && IsSign(p[0]) then p[1..] else p;
    |digits| > 0 && AllDigits(digits)
  }

  function DigitValue(c: char): (v: nat)
    requires IsDigit(c)
    ensures v < 10
  {
    (c as int) - ('0' as int)
  }

  /** The value of a run of decimal digits, most significant first (leading zeros
      allowed, as `int()` allows them); `None` for empty text or any non-digit. */
  function ParseDigits(d: string): (r: Option<nat>)
    ensures r.Some? <==> |d| > 0 && AllDigits(d)
    decreases |d|
  {
    if d == [] || !IsDigit(d[|d| - 1]) then None
    else if |d| == 1 then Some(DigitValue(d[0]))
    else
      assert forall i | 0 <= i < |d| - 1 :: d[..|d| - 1][i] == d[i];
      match ParseDigits(d[..|d| - 1])
      case None => None
      case Some(v) => Some(10 * v + DigitValue(d[|d| - 1]))
  }

  /** `int(p)`: `None` stands for the `ValueError` that `int()` raises. */
  function ParseInt(p: string): (r: Option<int>)
    ensures r.Some? <==> IsIntegerText(p)
  {
    if |p| > 0 && IsSign(p[0]) then
      match ParseDigits(p[1..])
      case None => None
      case Some(v) => Some(if p[0] == '-' then -(v as int) else v as int)
    else
      ParseDigits(p)
  }

  /** A segment survives the loop body of `_check_data`: `int(p)` does not raise
      and neither `int(p) < 0` nor `int(p) > 255` holds. */
  predicate IsOctetText(p: string): (ok: bool)
    ensures ok ==> IsIntegerText(p)
    ensures ok && p[0] == '-' ==> ParseInt(p) == Some(0)
  {
    var n := ParseInt(p);
    n.Some? && 0 <= n.value <= 255
  }

  /** `_check_data` returns without raising `ValueError`. */
  predicate ValidIPv4(ip: string): (ok: bool)
    ensures ok ==> Occurrences(ip, '.') == 3
    ensures ok ==> forall i | 0 <= i < 4 :: IsIntegerText(Split(ip, '.')[i])
  {
    var parts := Split(ip, '.');
    |parts| == 4 && forall i | 0 <= i < |parts| :: IsOctetText(parts[i])
  }

  // ---------------------------------------------------------------------------
  // Canonical decimal text, used to state what the check accepts
  // ---------------------------------------------------------------------------

  function DigitChar(k: nat): (c: char)
    requires k < 10
    ensures IsDigit(c) && DigitValue(c) == k
  {
    ('0' as int + k) as char
  }

  /** The decimal text `str(n)` of a natural number. */
  function Decimal(n: nat): (s: string)
    ensures |s| > 0 && AllDigits(s)
  {
    if n < 10 then [DigitChar(n)] else Decimal(n / 10) + [DigitChar(n % 10)]
  }

  /** `int()` reads back what `str()` writes. */
  lemma {:induction false} ParseDecimal(n: nat)
    ensures ParseDigits(Decimal(n)) == Some(n)
    ensures ParseInt(Decimal(n)) == Some(n)
  {
    var d := Decimal(n);
    if n >= 10 {
      ParseDecimal(n / 10);
      assert d[..|d| - 1] == Decimal(n / 10);
    }
  }

  /** A sign in front of a run of digits is read as Python reads it. */
  lemma ParseSigned(sign: char, d: string)
    requires IsSign(sign) && ParseDigits(d).Some?
    ensures ParseInt([sign] + d)
         == Some(if sign == '-' then -(ParseDigits(d).value as int) else ParseDigits(d).value as int)
  {
    assert ([sign] + d)[0] == sign && ([sign] + d)[1..] == d;
  }

  /** ... so `int()` also reads back signed decimal text. */
  lemma ParseSignedDecimal(n: nat)
    ensures ParseInt("+" + Decimal(n)) == Some(n as int)
    ensures ParseInt("-" + Decimal(n)) == Some(-(n as int))
  {
    ParseDecimal(n);
    ParseSigned('+', Decimal(n));
    ParseSigned('-', Decimal(n));
  }

  /** The four bytes written in dotted-quad form, `"a.b.c.d"`. */
  function DottedQuad(a: nat, b: nat, c: nat, d: nat): string
  {
    Join([Decimal(a), Decimal(b), Decimal(c), Decimal(d)], '.')
  }

  // ---------------------------------------------------------------------------
  // What the check accepts and rejects
  // ---------------------------------------------------------------------------

  /** The check accepts four dot-free texts joined with dots exactly when each of
      the four is an integer text with value in [0, 255]. */
  lemma FourSegmentsIff(t: seq<string>)
    requires |t| == 4
    requires forall i | 0 <= i < 4 :: '.' !in t[i]
    ensures ValidIPv4(Join(t, '.')) <==> forall i | 0 <= i < 4 :: IsOctetText(t[i])
  {
    SplitOfJoin(t, '.');
  }

  /** Every byte quadruple in canonical dotted-quad form is accepted, and its
      segments read back as the four bytes. */
  lemma DottedQuadAccepted(a: nat, b: nat, c: nat, d: nat)
    requires a <= 255 && b <= 255 && c <= 255 && d <= 255
    ensures ValidIPv4(DottedQuad(a, b, c, d))
    ensures Split(DottedQuad(a, b, c, d), '.') == [Decimal(a), Decimal(b), Decimal(c), Decimal(d)]
  {
    var parts := [Decimal(a), Decimal(b), Decimal(c), Decimal(d)];
    forall i | 0 <= i < 4 ensures '.' !in parts[i] {
      assert AllDigits(parts[i]);
    }
    SplitOfJoin(parts, '.');
    FourSegmentsIff(parts);
    forall i | 0 <= i < 4 ensures IsOctetText(parts[i]) {
      var n := [a, b, c, d][i];
      assert parts[i] == Decimal(n);
      ParseDecimal(n);
    }
  }

  /** Any number of dots other than three gives a segment count other than four,
      which the check rejects before looking at a segment. */
  lemma WrongSegmentCountRejected(ip: string)
    requires Occurrences(ip, '.') != 3
    ensures !ValidIPv4(ip)
  {
  }

  /** A segment that `int()` reads but that lies outside [0, 255] is rejected. */
  lemma OutOfRangeSegmentRejected(ip: string, i: nat)
    requires i < |Split(ip, '.')|
    requires ParseInt(Split(ip, '.')[i]).Some?
    requires ParseInt(Split(ip, '.')[i]).value < 0 || ParseInt(Split(ip, '.')[i]).value > 255
    ensures !ValidIPv4(ip)
  {
  }

  /** An integer text is non-empty, made of digits and signs, and ends in a digit. */
  lemma IntegerTextChars(p: string)
    requires IsIntegerText(p)
    ensures |p| > 0 && IsDigit(p[|p| - 1])
    ensures forall k | 0 <= k < |p| :: IsDigit(p[k]) || IsSign(p[k])
  {
    if IsSign(p[0]) {
      assert p[|p| - 1] == p[1..][|p| - 2];
      forall k | 1 <= k < |p| ensures IsDigit(p[k]) {
        assert p[k] == p[1..][k - 1];
      }
    }
  }

  /** The text of integer segments joined with a separator holds only digits, signs
      and separators, never two separators in a row, and neither starts nor ends
      with a separator. */
  lemma {:induction false} JoinOfIntegerTexts(parts: seq<string>, sep: char)
    requires !IsDigit(sep) && !IsSign(sep)
    requires |parts| >= 1
    requires forall i | 0 <= i < |parts| :: IsIntegerText(parts[i])
    ensures var s := Join(parts, sep);
            |s| > 0 && s[0] != sep && s[|s| - 1] != sep &&
            (forall k | 0 <= k < |s| :: IsDigit(s[k]) || IsSign(s[k]) || s[k] == sep) &&
            (forall k | 0 <= k < |s| - 1 :: s[k] == sep ==> s[k + 1] != sep)
  {
    var p := parts[0];
    IntegerTextChars(p);
    if |parts| > 1 {
      var tail := parts[1..];
      JoinOfIntegerTexts(tail, sep);
      var t := Join(tail, sep);
      var s := p + [sep] + t;
      assert s == Join(parts, sep);
      forall k | |p| < k < |s| ensures s[k] == t[k - |p| - 1] {
      }
    }
  }

  /** Accepted text is made only of digits, signs and dots, with no empty segment:
      so a letter anywhere (`"a.b.c.d"`), a leading or trailing dot, or two dots in
      a row (`"1..2.3"`) is rejected through the `ValueError` of `int()`. */
  lemma AcceptedCharacters(ip: string)
    requires ValidIPv4(ip)
    ensures |ip| > 0 && ip[0] != '.' && ip[|ip| - 1] != '.'
    ensures forall k | 0 <= k < |ip| :: IsDigit(ip[k]) || IsSign(ip[k]) || ip[k] == '.'
    ensures forall k | 0 <= k < |ip| - 1 :: ip[k] == '.' ==> ip[k + 1] != '.'
  {
    JoinOfIntegerTexts(Split(ip, '.'), '.');
  }

  /** A segment in canonical decimal form passes exactly when its value is at
      most 255; with a plus sign in front, likewise. */
  lemma DecimalSegment(n: nat)
    ensures IsOctetText(Decimal(n)) <==> n <= 255
    ensures IsOctetText("+" + Decimal(n)) <==> n <= 255
  {
    ParseDecimal(n);
    ParseSignedDecimal(n);
  }

  /** The sign quirk inherited from `int()`: a minus sign in front of a decimal
      segment passes only for zero, so `"-0"` is accepted and `"-1"` is read as -1
      and then rejected by the `< 0` test. */
  lemma NegativeSegment(n: nat)
    ensures IsOctetText("-" + Decimal(n)) <==> n == 0
  {
    ParseSignedDecimal(n);
  }

  /** Leading zeros do not change the value `int()` reads: one more zero in
      front of a run of digits reads as the run itself. */
  lemma {:induction false} ZeroPrefix(d: string)
    requires |d| > 0 && AllDigits(d)
    ensures ParseDigits("0" + d) == ParseDigits(d)
  {
    var z := "0" + d;
    assert z[..|z| - 1] == "0" + d[..|d| - 1];
    if |d| > 1 {
      assert forall i | 0 <= i < |d| - 1 :: d[..|d| - 1][i] == d[i];
      ZeroPrefix(d[..|d| - 1]);
    } else {
      assert z[..|z| - 1] == "0";
    }
  }

  /** `k` zero characters. */
  function Zeros(k: nat): (z: string)
    ensures |z| == k && AllDigits(z)
  {
    if k == 0 then "" else "0" + Zeros(k - 1)
  }

  /** Any number of leading zeros in front of a run of digits reads as the run
      itself, and `int()` reads the padded text as an unsigned number. */
  lemma {:induction false} ZeroPadded(k: nat, d: string)
    requires |d| > 0 && AllDigits(d)
    ensures ParseDigits(Zeros(k) + d) == ParseDigits(d)
    ensures ParseInt(Zeros(k) + d) == ParseDigits(d)
  {
    var p := Zeros(k) + d;
    assert IsDigit(p[0]);
    if k > 0 {
      var r := Zeros(k - 1) + d;
      assert p == "0" + r;
      assert AllDigits(r);
      ZeroPadded(k - 1, d);
      ZeroPrefix(r);
    } else {
      assert p == d;
    }
  }

  /** A zero-padded decimal segment (`"010"`, `"0256"`) passes exactly when its
      value is at most 255: padding never changes the verdict. */
  lemma ZeroPaddedSegment(k: nat, n: nat)
    ensures ParseInt(Zeros(k) + Decimal(n)) == Some(n as int)
    ensures IsOctetText(Zeros(k) + Decimal(n)) <==> n <= 255
  {
    ZeroPadded(k, Decimal(n));
    ParseDecimal(n);
  }

  /** Four dot-free texts joined with dots split back into the same four. */
  lemma SplitFour(a: string, b: string, c: string, d: string)
    requires '.' !in a && '.' !in b && '.' !in c && '.' !in d
    ensures Split(a + "." + b + "." + c + "." + d, '.') == [a, b, c, d]
  {
    var cd := c + "." + d;
    var bcd := b + "." + cd;
    assert a + "." + b + "." + c + "." + d == a + ['.'] + bcd;
    SplitAfterFirstSeparator(a, '.', bcd);
    SplitAfterFirstSeparator(b, '.', cd);
    SplitAfterFirstSeparator(c, '.', d);
    SplitWithoutSeparator(d, '.');
  }

  lemma UsualSegments()
    ensures IsOctetText("192") && IsOctetText("168") && IsOctetText("1")
  {
    assert IsOctetText("192") by {
      assert Decimal(192) == "192";
      DecimalSegment(192);
    }
    assert IsOctetText("168") by {
      assert Decimal(168) == "168";
      DecimalSegment(168);
    }
    assert Decimal(1) == "1";
    DecimalSegment(1);
  }

  /** An address of the usual form is accepted. */
  lemma AcceptedExample(ip: string)
    requires ip == "192.168.1.1"
    ensures ValidIPv4(ip)
  {
    assert ip == "192" + "." + "168" + "." + "1" + "." + "1";
    SplitFour("192", "168", "1", "1");
    UsualSegments();
  }

  lemma ZeroSegments()
    ensures IsOctetText("0") && IsOctetText("-0")
  {
    DecimalSegment(0);
    NegativeSegment(0);
    assert Decimal(0) == "0" && "-" + Decimal(0) == "-0";
  }

  /** `"-0"` is accepted as a segment. */
  lemma NegativeZeroExample(ip: string)
    requires ip == "-0.0.0.0"
    ensures ValidIPv4(ip)
  {
    assert ip == "-0" + "." + "0" + "." + "0" + "." + "0";
    SplitFour("-0", "0", "0", "0");
    ZeroSegments();
  }

  /** `"-1"` is read by `int()` and then rejected as below 0. */
  lemma NegativeOneExample(ip: string)
    requires ip == "-1.0.0.0"
    ensures !ValidIPv4(ip)
  {
    assert ip == "-1" + "." + "0" + "." + "0" + "." + "0";
    SplitFour("-1", "0", "0", "0");
    NegativeSegment(1);
    assert "-" + Decimal(1) == "-1";
  }

  /** `"256"` is read by `int()` and then rejected as above 255. */
  lemma AboveRangeExample(ip: string)
    requires ip == "256.1.1.1"
    ensures !ValidIPv4(ip)
  {
    assert ip == "256" + "." + "1" + "." + "1" + "." + "1";
    SplitFour("256", "1", "1", "1");
    DecimalSegment(256);
    assert Decimal(256) == "256";
  }

  lemma PaddedSegments()
    ensures IsOctetText("010") && IsOctetText("001") && IsOctetText("000")
    ensures IsOctetText("255")
  {
    ZeroPaddedSegment(1, 10);
    ZeroPaddedSegment(2, 1);
    ZeroPaddedSegment(2, 0);
    ZeroPaddedSegment(0, 255);
    assert Zeros(1) + Decimal(10) == "010" && Zeros(2) + Decimal(1) == "001";
    assert Zeros(2) + Decimal(0) == "000" && Zeros(0) + Decimal(255) == "255";
  }

  /** Zero-padded segments are accepted with the value they spell. */
  lemma PaddedExample(ip: string)
    requires ip == "010.001.000.255"
    ensures ValidIPv4(ip)
  {
    assert ip == "010" + "." + "001" + "." + "000" + "." + "255";
    SplitFour("010", "001", "000", "255");
    PaddedSegments();
  }

  /** Padding does not rescue a value above 255. */
  lemma PaddedAboveRangeExample(ip: string)
    requires ip == "0256.1.1.1"
    ensures !ValidIPv4(ip)
  {
    assert ip == "0256" + "." + "1" + "." + "1" + "." + "1";
    SplitFour("0256", "1", "1", "1");
    ZeroPaddedSegment(1, 256);
    assert Zeros(1) + Decimal(256) == "0256";
  }

  /** Too few or too many segments, and the empty text, are rejected. */
  lemma SegmentCountExamples()
    ensures !ValidIPv4("1.2.3")
    ensures !ValidIPv4("1.2.3.4.5")
    ensures !ValidIPv4("")
  {
    assert Join(["1", "2", "3"], '.') == "1.2.3";
    SplitOfJoin(["1", "2", "3"], '.');
    assert Join(["1", "2", "3", "4", "5"], '.') == "1.2.3.4.5";
    SplitOfJoin(["1", "2", "3", "4", "5"], '.');
    assert Split("", '.') == [""];
  }

  /** Letters and an empty segment are rejected through the `ValueError` of `int()`. */
  lemma NonNumericExamples()
    ensures !ValidIPv4("a.b.c.d")
    ensures !ValidIPv4("1..2.3")
  {
  }
}
