/** `formatTime` of the sound player: a count of seconds written as
    `MM:SS`, each field the decimal text of a number left-padded with '0'
    to two characters (`toString().padStart(2, '0')`). A reader for that
    text is given so that the round trip can be stated. */
module TimeFormat {
  import opened Optional

  predicate IsDigit(c: char)
  {
    '0' <= c <= '9'
  }

  predicate AllDigits(s: string)
  {
    forall i :: 0 <= i < |s| ==> IsDigit(s[i])
  }

  function DigitChar(d: nat): (c: char)
    requires d < 10
    ensures IsDigit(c)
  {
    ('0' as int + d) as char
  }

  function DigitValue(c: char): (d: nat)
    requires IsDigit(c)
    ensures d < 10
  {
    c as int - '0' as int
  }

  /** The decimal text of a non-negative integer, as `Number.prototype.toString()` writes it. */
  function Decimal(n: nat): (r: string)
    ensures |r| >= 1 && AllDigits(r)
    ensures |r| == 1 <==> n < 10
    ensures r[0] == '0' <==> n == 0
  {
    if n < 10 then [DigitChar(n)] else Decimal(n / 10) + [DigitChar(n % 10)]
  }

  /** A seconds field is exactly two characters wide. */
  lemma TwoDigitDecimal(n: nat)
    requires n < 60
    ensures |PadStart(Decimal(n), 2, '0')| == 2
  {
  }

  /** The number a string of decimal digits denotes. */
  function ValueOf(s: string): nat
    requires AllDigits(s)
  {
    if s == [] then 0 else ValueOf(s[..|s| - 1]) * 10 + DigitValue(s[|s| - 1])
  }

  /** `s.padStart(width, fill)` for a one-character fill. */
  function PadStart(s: string, width: nat, fill: char): (r: string)
    ensures |r| == if |s| < width then width else |s|
    ensures r[|r| - |s|..] == s
    ensures forall i :: 0 <= i < |r| - |s| ==> r[i] == fill
  {
    if |s| < width then seq(width - |s|, _ => fill) + s else s
  }

  /** Padding digits with '0' keeps them digits. */
  lemma PadDigits(s: string, width: nat)
    requires AllDigits(s)
    ensures AllDigits(PadStart(s, width, '0'))
  {
  }

  /** One field of `formatTime`: `n.toString().padStart(2, '0')`. */
  function Field(n: nat): (r: string)
    ensures |r| >= 2 && AllDigits(r)
  {
    PadDigits(Decimal(n), 2);
    PadStart(Decimal(n), 2, '0')
  }

  /** Two digit fields joined by a colon: every character but the colon is a digit. */
  function Join(mm: string, ss: string): (r: string)
    requires AllDigits(mm) && AllDigits(ss)
    ensures |r| == |mm| + 1 + |ss| && r[|mm|] == ':'
    ensures forall i :: 0 <= i < |r| && i != |mm| ==> IsDigit(r[i])
  {
    var r := mm + ":" + ss;
    assert forall i :: |mm| < i < |r| ==> r[i] == ss[i - |mm| - 1];
    r
  }

  /** Lines 212-216: whole minutes, a colon, then the remaining seconds,
      each at least two digits wide. */
  function FormatTime(seconds: nat): (r: string)
    ensures |r| >= 5 && r[|r| - 3] == ':'
    ensures forall i :: 0 <= i < |r| && i != |r| - 3 ==> IsDigit(r[i])
  {
    TwoDigitDecimal(seconds % 60);
    Join(Field(seconds / 60), Field(seconds % 60))
  }

  /** Position of the first `c` in `s`. */
  function IndexOf(s: string, c: char): (r: Option<nat>)
    ensures r.Some? ==> r.value < |s| && s[r.value] == c && c !in s[..r.value]
    ensures r.None? ==> c !in s
  {
    if s == [] then None
    else if s[0] == c then Some(0)
    else
      match IndexOf(s[1..], c)
      case None => None
      case Some(k) => (assert s[..k + 1] == [s[0]] + s[1..][..k]; Some(k + 1))
  }

  /** Reads `MM:SS` back: at least two minute digits, exactly two second
      digits, seconds below 60. */
  function ParseTime(s: string): Option<nat>
  {
    match IndexOf(s, ':')
    case None => None
    case Some(i) => ParseFields(s[..i], s[i + 1..])
  }

  function ParseFields(mm: string, ss: string): Option<nat>
  {
    if |mm| >= 2 && |ss| == 2 && AllDigits(mm) && AllDigits(ss) && ValueOf(ss) < 60
    then Some(ValueOf(mm) * 60 + ValueOf(ss))
    else None
  }

  lemma {:induction false} DecimalValue(n: nat)
    ensures ValueOf(Decimal(n)) == n
  {
    var d := Decimal(n);
    if n < 10 {
      assert d[..0] == [];
    } else {
      assert d[..|d| - 1] == Decimal(n / 10);
      DecimalValue(n / 10);
    }
  }

  lemma {:induction false} ZerosValue(k: nat)
    ensures AllDigits(seq(k, _ => '0')) && ValueOf(seq(k, _ => '0')) == 0
  {
    if k > 0 {
      assert seq(k, _ => '0')[..k - 1] == seq(k - 1, _ => '0');
      ZerosValue(k - 1);
    }
  }

  /** Leading zeros do not change the value of a digit string. */
  lemma {:induction false} LeadingZeros(k: nat, s: string)
    requires AllDigits(s)
    ensures AllDigits(seq(k, _ => '0') + s)
    ensures ValueOf(seq(k, _ => '0') + s) == ValueOf(s)
  {
    var z := seq(k, _ => '0');
    if s == [] {
      assert z + s == z;
      ZerosValue(k);
    } else {
      var init := s[..|s| - 1];
      assert (z + s)[..|z + s| - 1] == z + init;
      LeadingZeros(k, init);
    }
  }

  /** A field reads back as its number, and below 60 it is exactly two digits. */
  lemma FieldValue(n: nat)
    ensures ValueOf(Field(n)) == n
    ensures n < 60 ==> |Field(n)| == 2
  {
    if n < 60 {
      TwoDigitDecimal(n);
    }
    var d := Decimal(n);
    DecimalValue(n);
    if |d| < 2 {
      LeadingZeros(2 - |d|, d);
    }
  }

  /** The first `c` of `a + [c] + b` is the one after `a` when `a` has none. */
  lemma {:induction false} IndexOfAfter(a: string, c: char, b: string)
    requires c !in a
    ensures IndexOf(a + [c] + b, c) == Some(|a|)
  {
    var s := a + [c] + b;
    if a != [] {
      assert s[0] == a[0];
      assert s[1..] == a[1..] + [c] + b;
      IndexOfAfter(a[1..], c, b);
    }
  }

  /** Splitting at the colon recovers both fields. */
  lemma SplitJoined(mm: string, ss: string)
    requires AllDigits(mm) && AllDigits(ss)
    ensures ParseTime(Join(mm, ss)) == ParseFields(mm, ss)
  {
    var r := Join(mm, ss);
    assert r == mm + ":" + ss;
    assert ':' !in mm by {
      forall i | 0 <= i < |mm| ensures mm[i] != ':' { assert IsDigit(mm[i]); }
    }
    IndexOfAfter(mm, ':', ss);
    assert r[..|mm|] == mm;
    assert r[|mm| + 1..] == ss;
  }

  /** Fields of the right widths, seconds below 60, read as minutes * 60 + seconds. */
  lemma FieldsRead(mm: string, ss: string, total: nat)
    requires |mm| >= 2 && AllDigits(mm)
    requires |ss| == 2 && AllDigits(ss) && ValueOf(ss) < 60
    requires ValueOf(mm) * 60 + ValueOf(ss) == total
    ensures ParseFields(mm, ss) == Some(total)
  {
  }

  lemma ParseJoined(mm: string, ss: string, total: nat)
    requires |mm| >= 2 && AllDigits(mm)
    requires |ss| == 2 && AllDigits(ss) && ValueOf(ss) < 60
    requires ValueOf(mm) * 60 + ValueOf(ss) == total
    ensures ParseTime(Join(mm, ss)) == Some(total)
  {
    SplitJoined(mm, ss);
    FieldsRead(mm, ss, total);
  }

  lemma DivMod60(n: nat)
    ensures n % 60 < 60 && (n / 60) * 60 + n % 60 == n
  {
  }

  /** Whole minutes and the seconds left over, written as fields, read
      back as the count of seconds they came from. */
  lemma ParseFieldsOf(seconds: nat)
    ensures ParseTime(Join(Field(seconds / 60), Field(seconds % 60))) == Some(seconds)
  {
    var m, sec := seconds / 60, seconds % 60;
    DivMod60(seconds);
    FieldValue(m);
    FieldValue(sec);
    ParseJoined(Field(m), Field(sec), seconds);
  }

  /** The text `formatTime` writes reads back as the same number of seconds. */
  lemma FormatTimeRoundTrip(seconds: nat)
    ensures ParseTime(FormatTime(seconds)) == Some(seconds)
  {
    ParseFieldsOf(seconds);
    assert FormatTime(seconds) == Join(Field(seconds / 60), Field(seconds % 60));
  }
}
