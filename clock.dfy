/**
 * The three renderings of a `datetime` the logger uses: `strftime('%H:%M:%S')`
 * for incremental lines, `isoformat()` for stored entries, and
 * `strftime('%Y%m%d_%H%M%S')` for the default file name.
 */
module Clock {

  /** A naive `datetime.datetime`, as `datetime.now()` returns it. */
  datatype Timestamp = Timestamp(
    year: nat, month: nat, day: nat,
    hour: nat, minute: nat, second: nat, microsecond: nat)
  {
    /** The ranges `datetime` enforces on its fields. */
    predicate Valid() {
      1 <= year <= 9999 && 1 <= month <= 12 && 1 <= day <= 31
      && hour < 24 && minute < 60 && second < 60 && microsecond < 1000000
    }
  }

  function Pow10(n: nat): (r: nat)
    ensures r >= 1
  {
    if n == 0 then 1 else 10 * Pow10(n - 1)
  }

  predicate IsDigit(c: char) {
    '0' <= c <= '9'
  }

  predicate AllDigits(s: string) {
    forall i :: 0 <= i < |s| ==> IsDigit(s[i])
  }

  function Digit(d: nat): (c: char)
    requires d < 10
    ensures IsDigit(c)
  {
    ('0' as int + d) as char
  }

  /** `'%0{width}d' % n` for `n < 10^width`: the last `width` decimal digits of `n`. */
  function PadDigits(n: nat, width: nat): (r: string)
    ensures |r| == width
    ensures AllDigits(r)
  {
    if width == 0 then "" else PadDigits(n / 10, width - 1) + [Digit(n % 10)]
  }

  /** The number a string of decimal digits denotes. */
  function DigitsValue(s: string): nat
    requires AllDigits(s)
  {
    if s == [] then 0
    else DigitsValue(s[..|s| - 1]) * 10 + (s[|s| - 1] as int - '0' as int)
  }

  /** Zero padding loses nothing: reading the digits back gives the number. */
  lemma {:induction false} PadDigitsReadsBack(n: nat, width: nat)
    requires n < Pow10(width)
    ensures DigitsValue(PadDigits(n, width)) == n
  {
    if width > 0 {
      var p := PadDigits(n / 10, width - 1);
      assert n / 10 < Pow10(width - 1);
      PadDigitsReadsBack(n / 10, width - 1);
      assert (p + [Digit(n % 10)])[..|p|] == p;
    }
  }

  lemma PadDigitsInjective(a: nat, b: nat, width: nat)
    requires a < Pow10(width) && b < Pow10(width)
    requires PadDigits(a, width) == PadDigits(b, width)
    ensures a == b
  {
    PadDigitsReadsBack(a, width);
    PadDigitsReadsBack(b, width);
  }

  /** `strftime('%H:%M:%S')`: always eight characters, whatever the fields. */
  function Hms(t: Timestamp): (r: string)
    ensures |r| == 8
  {
    PadDigits(t.hour, 2) + ":" + PadDigits(t.minute, 2) + ":" + PadDigits(t.second, 2)
  }

  /**
   * `isoformat()` of a naive datetime: the microseconds appear only when
   * non-zero, so the result is 19 or 26 characters long.
   */
  function Iso(t: Timestamp): (r: string)
    ensures |r| == (if t.microsecond == 0 then 19 else 26)
  {
    PadDigits(t.year, 4) + "-" + PadDigits(t.month, 2) + "-" + PadDigits(t.day, 2)
    + "T" + Hms(t)
    + (if t.microsecond == 0 then "" else "." + PadDigits(t.microsecond, 6))
  }

  /** `HH:MM:SS`: eight characters, colons at 2 and 5, digits elsewhere. */
  lemma HmsShape(t: Timestamp)
    ensures var r := Hms(t);
            |r| == 8 && r[2] == ':' && r[5] == ':'
            && forall i :: 0 <= i < 8 && i != 2 && i != 5 ==> IsDigit(r[i])
  {
  }

  /**
   * `YYYY-MM-DDTHH:MM:SS`, followed by `.ffffff` exactly when there are
   * microseconds.
   */
  lemma IsoShape(t: Timestamp)
    ensures var r := Iso(t);
            |r| == (if t.microsecond == 0 then 19 else 26)
            && r[4] == '-' && r[7] == '-' && r[10] == 'T' && r[13] == ':' && r[16] == ':'
            && (t.microsecond != 0 ==> r[19] == '.')
            && forall i :: 0 <= i < |r| && i != 4 && i != 7 && i != 10 && i != 13 && i != 16 && i != 19
                 ==> IsDigit(r[i])
  {
  }

  /** The clock time inside an ISO timestamp is exactly the `HH:MM:SS` rendering. */
  lemma IsoContainsHms(t: Timestamp)
    ensures Iso(t)[11..19] == Hms(t)
  {
  }

  /**
   * `strftime('%Y%m%d_%H%M%S')`, the stamp in a default transcript file name:
   * fifteen characters, the underscore at position 8 and digits elsewhere.
   */
  function FileStamp(t: Timestamp): (r: string)
    ensures |r| == 15 && r[8] == '_'
    ensures forall i :: 0 <= i < 15 && i != 8 ==> IsDigit(r[i])
  {
    PadDigits(t.year, 4) + (PadDigits(t.month, 2) + (PadDigits(t.day, 2) + ("_"
    + (PadDigits(t.hour, 2) + (PadDigits(t.minute, 2) + PadDigits(t.second, 2))))))
  }

  /** If `x1 + y1 == x2 + y2` and the first parts have equal length, the parts are equal. */
  lemma SplitEqual(x1: string, y1: string, x2: string, y2: string)
    requires x1 + y1 == x2 + y2 && |x1| == |x2|
    ensures x1 == x2 && y1 == y2
  {
    assert x1 == (x1 + y1)[..|x1|];
    assert y1 == (x1 + y1)[|x1|..];
  }

  lemma FieldBounds()
    ensures Pow10(2) == 100 && Pow10(4) == 10000
  {
  }

  /** Two valid times one second or more apart have different file stamps. */
  lemma FileStampInjective(t1: Timestamp, t2: Timestamp)
    requires t1.Valid() && t2.Valid()
    requires FileStamp(t1) == FileStamp(t2)
    ensures t1.year == t2.year && t1.month == t2.month && t1.day == t2.day
    ensures t1.hour == t2.hour && t1.minute == t2.minute && t1.second == t2.second
  {
    FieldBounds();
    assert |FileStamp(t1)| == 15;
    var y1, y2 := PadDigits(t1.year, 4), PadDigits(t2.year, 4);
    var mo1, mo2 := PadDigits(t1.month, 2), PadDigits(t2.month, 2);
    var d1, d2 := PadDigits(t1.day, 2), PadDigits(t2.day, 2);
    var h1, h2 := PadDigits(t1.hour, 2), PadDigits(t2.hour, 2);
    var mi1, mi2 := PadDigits(t1.minute, 2), PadDigits(t2.minute, 2);
    var s1, s2 := PadDigits(t1.second, 2), PadDigits(t2.second, 2);
    SplitEqual(y1, mo1 + (d1 + ("_" + (h1 + (mi1 + s1)))), y2, mo2 + (d2 + ("_" + (h2 + (mi2 + s2)))));
    SplitEqual(mo1, d1 + ("_" + (h1 + (mi1 + s1))), mo2, d2 + ("_" + (h2 + (mi2 + s2))));
    SplitEqual(d1, "_" + (h1 + (mi1 + s1)), d2, "_" + (h2 + (mi2 + s2)));
    SplitEqual("_", h1 + (mi1 + s1), "_", h2 + (mi2 + s2));
    SplitEqual(h1, mi1 + s1, h2, mi2 + s2);
    SplitEqual(mi1, s1, mi2, s2);
    PadDigitsInjective(t1.year, t2.year, 4);
    PadDigitsInjective(t1.month, t2.month, 2);
    PadDigitsInjective(t1.day, t2.day, 2);
    PadDigitsInjective(t1.hour, t2.hour, 2);
    PadDigitsInjective(t1.minute, t2.minute, 2);
    PadDigitsInjective(t1.second, t2.second, 2);
  }
}
