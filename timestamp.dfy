/**
 * `Timestamp` from Sources/MediaUtility/Timestamp.swift: an instant held as a
 * UInt64 count of nanoseconds, with the strict `HH:MM:SS.mmm` parser, the
 * millisecond formatter, the ordering and the trapping arithmetic.
 */
module Timestamps {
  import opened Wrappers
  import opened Text

  const U64_LIMIT: int := 0x1_0000_0000_0000_0000
  type u64 = x: int | 0 <= x < U64_LIMIT

  const NS_PER_MS: nat := 1_000_000
  const NS_PER_SECOND: nat := 1_000_000_000

  datatype Timestamp = Timestamp(value: u64)

  /** The nanosecond count the field initializer and the strict parser compute. */
  function FieldsValue(hour: nat, minute: nat, second: nat, millisecond: nat): nat
  {
    ((hour * 3600 + minute * 60 + second) * 1000 + millisecond) * 1_000_000
  }

  /**
   * `init(hour:minute:second:milesecond:)`.  The arithmetic is UInt64 and
   * traps on overflow, so callers must keep the result in range; minutes and
   * seconds beyond 59 are not rejected, they simply carry.
   */
  function FromFields(hour: u64, minute: u64, second: u64, millisecond: u64): (t: Timestamp)
    requires FieldsValue(hour, minute, second, millisecond) < U64_LIMIT
    ensures t.value % NS_PER_MS == 0
    ensures minute < 60 && second < 60 && millisecond < 1000 ==>
              Components(t) == Clock(hour, minute, second, millisecond, 0)
  {
    var t := Timestamp(FieldsValue(hour, minute, second, millisecond));
    if minute < 60 && second < 60 && millisecond < 1000 then
      ComponentsOfFields(hour, minute, second, millisecond);
      t
    else
      t
  }

  /** The decomposition `description` performs with `/` and `%`. */
  datatype Clock = Clock(hours: nat, minutes: nat, seconds: nat, milliseconds: nat, nanoseconds: nat)

  function Components(t: Timestamp): (c: Clock)
    ensures c.minutes < 60 && c.seconds < 60 && c.milliseconds < 1000 && c.nanoseconds < NS_PER_MS
  {
    var ms := t.value / NS_PER_MS;
    var s := ms / 1000;
    var m := s / 60;
    Clock(m / 60, m % 60, s % 60, ms % 1000, t.value % NS_PER_MS)
  }

  /** The components put back together give the raw value: nothing is lost but the sub-millisecond part. */
  lemma ComponentsRecompose(t: Timestamp)
    ensures var c := Components(t);
            FieldsValue(c.hours, c.minutes, c.seconds, c.milliseconds) + c.nanoseconds == t.value
  {
    var ms := t.value / NS_PER_MS;
    var s := ms / 1000;
    var m := s / 60;
    var h := m / 60;
    assert t.value == ms * 1_000_000 + t.value % NS_PER_MS;
    assert ms == s * 1000 + ms % 1000;
    assert s == m * 60 + s % 60;
    assert m == h * 60 + m % 60;
    assert h * 3600 + (m % 60) * 60 + s % 60 == s;
  }

  /** Fields inside their clock ranges are exactly what the decomposition recovers. */
  lemma ComponentsOfFields(hour: nat, minute: nat, second: nat, millisecond: nat)
    requires minute < 60 && second < 60 && millisecond < 1000
    requires FieldsValue(hour, minute, second, millisecond) < U64_LIMIT
    ensures Components(Timestamp(FieldsValue(hour, minute, second, millisecond)))
            == Clock(hour, minute, second, millisecond, 0)
  {
    var v := FieldsValue(hour, minute, second, millisecond);
    var ms := (hour * 3600 + minute * 60 + second) * 1000 + millisecond;
    var s := hour * 3600 + minute * 60 + second;
    var m := hour * 60 + minute;
    DivModUnique(v, NS_PER_MS, ms, 0);
    DivModUnique(ms, 1000, s, millisecond);
    DivModUnique(s, 60, m, second);
    DivModUnique(m, 60, hour, minute);
  }

  /**
   * `description`: `%02d:%02d:%02d.%03d` of hours, minutes, seconds and
   * milliseconds; hours are not bounded, so 100 hours or more widen the first field.
   */
  function Description(t: Timestamp): (s: string)
  {
    var c := Components(t);
    ZeroPad(c.hours, 2) + ":" + ZeroPad(c.minutes, 2) + ":" + ZeroPad(c.seconds, 2) + "." + ZeroPad(c.milliseconds, 3)
  }

  /** Below 100 hours the text has the fixed 12-character shape with `.` before the milliseconds. */
  lemma DescriptionShape(t: Timestamp)
    requires Components(t).hours < 100
    ensures var s := Description(t);
            |s| == 12 && s[2] == ':' && s[5] == ':' && s[8] == '.'
            && AllDigits(s[0..2]) && AllDigits(s[3..5]) && AllDigits(s[6..8]) && AllDigits(s[9..12])
            && DigitsValue(s[0..2]) == Components(t).hours
            && DigitsValue(s[3..5]) == Components(t).minutes
            && DigitsValue(s[6..8]) == Components(t).seconds
            && DigitsValue(s[9..12]) == Components(t).milliseconds
  {
    var c := Components(t);
    ZeroPadFits(c.hours, 2);
    ZeroPadFits(c.minutes, 2);
    ZeroPadFits(c.seconds, 2);
    ZeroPadFits(c.milliseconds, 3);
    ClockTextSlices(ZeroPad(c.hours, 2), ZeroPad(c.minutes, 2), ZeroPad(c.seconds, 2), ZeroPad(c.milliseconds, 3));
  }

  lemma ClockTextSlices(h: string, m: string, s: string, ms: string)
    requires |h| == 2 && |m| == 2 && |s| == 2 && |ms| == 3
    ensures var t := h + ":" + m + ":" + s + "." + ms;
            |t| == 12 && t[0..2] == h && t[2] == ':' && t[3..5] == m && t[5] == ':'
            && t[6..8] == s && t[8] == '.' && t[9..12] == ms
  {
  }

  /** Every character of a description is a digit or a separator; in particular it holds no newline. */
  lemma DescriptionCharacters(t: Timestamp)
    ensures forall i :: 0 <= i < |Description(t)| ==>
              IsDigit(Description(t)[i]) || Description(t)[i] == ':' || Description(t)[i] == '.'
  {
    var c := Components(t);
    ZeroPadValue(c.hours, 2);
    ZeroPadValue(c.minutes, 2);
    ZeroPadValue(c.seconds, 2);
    ZeroPadValue(c.milliseconds, 3);
  }

  /**
   * The characters an unescaped `.` of an ICU regular expression refuses:
   * the line terminators LF, VT, FF, CR, NEL, LS and PS.
   */
  predicate IsLineTerminator(c: char)
  {
    c == '\n' || c == '\U{000B}' || c == '\U{000C}' || c == '\r' || c == '\U{0085}' || c == '\U{2028}' || c == '\U{2029}'
  }

  /**
   * The guard of the strict parser: exactly 12 characters matching
   * `\d\d:\d\d:\d\d.\d\d\d`, where the `.` is an unescaped wildcard.
   */
  predicate StrictShape(s: string)
  {
    |s| == 12 && AllDigits(s[0..2]) && s[2] == ':' && AllDigits(s[3..5]) && s[5] == ':'
    && AllDigits(s[6..8]) && !IsLineTerminator(s[8]) && AllDigits(s[9..12])
  }

  /** `init?(_ description: String)`, the strict parser. */
  function Parse(s: string): (r: Option<Timestamp>)
    ensures r.Some? <==> StrictShape(s)
    ensures r.Some? ==> r.value.value % NS_PER_MS == 0
                        && r.value.value == FieldsValue(DigitsValue(s[0..2]), DigitsValue(s[3..5]),
                                                        DigitsValue(s[6..8]), DigitsValue(s[9..12]))
  {
    if StrictShape(s) then
      DigitsValueBound(s[0..2]);
      DigitsValueBound(s[3..5]);
      DigitsValueBound(s[6..8]);
      DigitsValueBound(s[9..12]);
      Some(Timestamp(FieldsValue(DigitsValue(s[0..2]), DigitsValue(s[3..5]), DigitsValue(s[6..8]), DigitsValue(s[9..12]))))
    else
      None
  }

  /** A timestamp its description renders exactly: whole milliseconds and under 100 hours. */
  predicate Canonical(t: Timestamp)
  {
    t.value % NS_PER_MS == 0 && Components(t).hours < 100
  }

  /** Formatting then parsing is the identity on whole milliseconds below 100 hours. */
  lemma ParseDescription(t: Timestamp)
    requires Canonical(t)
    ensures Parse(Description(t)) == Some(t)
  {
    DescriptionShape(t);
    ComponentsRecompose(t);
  }

  /** Parsing then formatting is the identity on canonical text: a `.` separator and minutes, seconds below 60. */
  lemma DescriptionParse(s: string)
    requires StrictShape(s) && s[8] == '.'
    requires DigitsValue(s[3..5]) < 60 && DigitsValue(s[6..8]) < 60
    ensures Parse(s).Some? && Description(Parse(s).value) == s
  {
    var h, m, sec, ms := DigitsValue(s[0..2]), DigitsValue(s[3..5]), DigitsValue(s[6..8]), DigitsValue(s[9..12]);
    DigitsValueBound(s[0..2]);
    DigitsValueBound(s[9..12]);
    ComponentsOfFields(h, m, sec, ms);
    ZeroPadOfDigits(s[0..2]);
    ZeroPadOfDigits(s[3..5]);
    ZeroPadOfDigits(s[6..8]);
    ZeroPadOfDigits(s[9..12]);
    assert s == s[0..2] + ":" + s[3..5] + ":" + s[6..8] + "." + s[9..12];
  }

  /** `<` of `Comparable`: by raw value. */
  predicate Less(a: Timestamp, b: Timestamp)
  {
    a.value < b.value
  }

  /** `Less` is a strict total order whose equivalence is equality of the whole value. */
  lemma LessIsStrictTotalOrder(a: Timestamp, b: Timestamp, c: Timestamp)
    ensures !Less(a, a)
    ensures Less(a, b) && Less(b, c) ==> Less(a, c)
    ensures Less(a, b) || Less(b, a) || a == b
    ensures a == b <==> a.value == b.value
  {
  }

  const Second: Timestamp := Timestamp(1_000_000_000)
  const Minute: Timestamp := Timestamp(60_000_000_000)
  const Hour: Timestamp := Timestamp(3600_000_000_000)

  /** `static func *`: UInt64 multiplication, which traps on overflow. */
  function Scale(t: Timestamp, k: u64): (r: Timestamp)
    requires t.value * k < U64_LIMIT
    ensures k >= 1 ==> !Less(r, t)
    ensures k == 0 ==> r.value == 0
  {
    MulMono(t.value, k);
    Timestamp(t.value * k)
  }

  lemma MulMono(a: nat, k: nat)
    ensures k >= 1 ==> a * k >= a
  {
    if k >= 1 {
      assert a * k == a + a * (k - 1);
    }
  }

  /**
   * Scaling by `k` is adding the timestamp `k` times: a factor of 1 keeps it,
   * and each further unit of the factor adds the timestamp once more.
   */
  lemma ScaleStep(t: Timestamp, k: u64)
    requires k >= 1 && t.value * k < U64_LIMIT
    ensures Scale(t, 1) == t
    ensures t.value * (k - 1) < U64_LIMIT && t.value * (k - 1) + t.value < U64_LIMIT
    ensures Scale(t, k) == Add(Scale(t, k - 1), t)
  {
    assert t.value * k == t.value * (k - 1) + t.value;
    MulMono(t.value, k);
  }

  /** `static func +`: UInt64 addition, which traps on overflow. */
  function Add(a: Timestamp, b: Timestamp): (r: Timestamp)
    requires a.value + b.value < U64_LIMIT
    ensures !Less(r, a) && !Less(r, b)
    ensures Sub(r, b) == a
  {
    Timestamp(a.value + b.value)
  }

  /** `static func -`: UInt64 subtraction, which traps when the right side is larger. */
  function Sub(a: Timestamp, b: Timestamp): (r: Timestamp)
    requires !Less(a, b)
    ensures !Less(a, r)
    ensures r.value + b.value == a.value
  {
    Timestamp(a.value - b.value)
  }

  /** `+=`: the left operand, passed `inout`, becomes the sum. */
  method AddAssign(lhs: Timestamp, rhs: Timestamp) returns (updated: Timestamp)
    requires lhs.value + rhs.value < U64_LIMIT
    ensures updated == Add(lhs, rhs)
    ensures Sub(updated, rhs) == lhs
  {
    updated := lhs;
    updated := updated.(value := updated.value + rhs.value);
  }

  /** `-=`: the left operand, passed `inout`, becomes the difference. */
  method SubAssign(lhs: Timestamp, rhs: Timestamp) returns (updated: Timestamp)
    requires !Less(lhs, rhs)
    ensures updated == Sub(lhs, rhs)
    ensures Add(updated, rhs) == lhs
  {
    updated := lhs;
    updated := updated.(value := updated.value - rhs.value);
  }

  /** The unit constants agree with one another and with the clock decomposition. */
  lemma UnitConstants()
    ensures Hour == Scale(Second, 3600) && Minute == Scale(Second, 60) && Hour == Scale(Minute, 60)
    ensures Components(Hour) == Clock(1, 0, 0, 0, 0)
    ensures Components(Minute) == Clock(0, 1, 0, 0, 0)
    ensures Components(Second) == Clock(0, 0, 1, 0, 0)
    ensures Description(Hour) == "01:00:00.000"
  {
    ComponentsOfFields(1, 0, 0, 0);
    ComponentsOfFields(0, 1, 0, 0);
    ComponentsOfFields(0, 0, 1, 0);
    assert ZeroPad(1, 2) == "01";
    assert ZeroPad(0, 2) == "00";
    assert ZeroPad(0, 3) == "000";
  }
}
