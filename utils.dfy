// The formatting helpers of the client library: a study time in minutes
// rendered as hours and minutes, a completion percentage, and a text
// shortened with an ellipsis.
module Utils {
  import opened Wrappers
  import opened Strings

  // ---------------------------------------------------------------------------
  // formatStudyTime

  /**
   * `a % b` in JavaScript for a positive b: the remainder of the division
   * truncated toward zero, so it takes the sign of a.
   */
  function JsRem(a: int, b: int): (r: int)
    requires b > 0
    ensures a >= 0 ==> 0 <= r < b
    ensures a < 0 ==> -b < r <= 0
    ensures a >= 0 ==> r == a % b
    ensures a == b * (if a >= 0 then a / b else -((-a) / b)) + r
  {
    if a >= 0 then a % b else -((-a) % b)
  }

  /** JavaScript's `-7 % 5` is -2, where the Euclidean remainder is 3. */
  lemma JsRemOfNegative()
    ensures JsRem(-7, 5) == -2 && -7 % 5 == 3
  {
  }

  /** The plural suffix a count takes: none for exactly one. */
  function Plural(n: int): string {
    if n != 1 then "s" else ""
  }

  /** `${n} unit${n !== 1 ? 's' : ''}`. */
  function Quantity(n: int, unit: string): string {
    IntToString(n) + ((" " + unit) + Plural(n))
  }

  /**
   * `formatStudyTime`: whole hours (`Math.floor(minutes / 60)`) and the
   * remaining minutes (`minutes % 60`); a zero hour count shows only the
   * minutes and a zero minute count only the hours.
   */
  function FormatStudyTime(minutes: int): (r: string)
    ensures r != ""
    ensures 0 <= minutes < 60 ==> r == Quantity(minutes, "min")
    ensures minutes >= 60 && minutes % 60 == 0 ==> r == Quantity(minutes / 60, "hr")
  {
    // Dafny's division by a positive divisor rounds down, as Math.floor does.
    StudyTimeText(minutes / 60, JsRem(minutes, 60))
  }

  /** The text for a count of hours and of remaining minutes. */
  function StudyTimeText(hours: int, mins: int): string {
    if hours == 0 then Quantity(mins, "min")
    else if mins == 0 then Quantity(hours, "hr")
    else Quantity(hours, "hr") + (" " + Quantity(mins, "min"))
  }

  /** The three shapes of a non-negative study time. */
  lemma {:induction false} FormatStudyTimeShapes(minutes: nat)
    ensures minutes < 60 ==> FormatStudyTime(minutes) == NatToString(minutes) + (if minutes == 1 then " min" else " mins")
    ensures minutes >= 60 && minutes % 60 == 0 ==>
              FormatStudyTime(minutes) == NatToString(minutes / 60) + (if minutes == 60 then " hr" else " hrs")
    ensures minutes >= 60 && minutes % 60 != 0 ==>
              FormatStudyTime(minutes) == Quantity(minutes / 60, "hr") + (" " + Quantity(minutes % 60, "min"))
  {
  }

  // Reading a formatted study time back.

  predicate IsDigit(c: char) {
    '0' <= c <= '9'
  }

  /** The length of the run of decimal digits s starts with. */
  function DigitRun(s: string): (n: nat)
    ensures n <= |s|
    ensures IsDigits(s[..n])
    ensures n < |s| ==> !IsDigit(s[n])
  {
    if s != [] && IsDigit(s[0]) then
      var n := 1 + DigitRun(s[1..]);
      assert s[..n] == [s[0]] + s[1..][..n - 1];
      n
    else 0
  }

  /** What follows a unit once its plural "s", if any, is dropped. */
  function DropPlural(tail: string): string {
    if tail != [] && tail[0] == 's' then tail[1..] else tail
  }

  /**
   * Reads "<digits> <unit>" with an optional plural "s" from the front of s,
   * returning the digits and what follows.
   */
  function ReadQuantity(s: string, unit: string): (r: Option<(string, string)>)
    ensures r.Some? ==> IsDigits(r.value.0)
  {
    var d := DigitRun(s);
    var tag := " " + unit;
    if d == 0 || d + |tag| > |s| || s[d..d + |tag|] != tag then None
    else Some((s[..d], DropPlural(s[d + |tag|..])))
  }

  /** The number of minutes a string rendered by FormatStudyTime denotes. */
  function ParseStudyTime(text: string): Option<nat> {
    match ReadQuantity(text, "hr")
    case Some((hours, rest)) =>
      if rest == [] then Some(DigitsValue(hours) * 60)
      else if rest[0] != ' ' then None
      else (
        match ReadQuantity(rest[1..], "min")
        case Some((mins, tail)) => if tail == [] then Some(DigitsValue(hours) * 60 + DigitsValue(mins)) else None
        case None => None)
    case None =>
      match ReadQuantity(text, "min")
      case Some((mins, tail)) => if tail == [] then Some(DigitsValue(mins)) else None
      case None => None
  }

  lemma {:induction false} DigitRunOf(d: string, t: string)
    requires IsDigits(d)
    requires t == [] || !IsDigit(t[0])
    ensures DigitRun(d + t) == |d|
  {
    if d != [] {
      assert (d + t)[1..] == d[1..] + t;
      DigitRunOf(d[1..], t);
    } else {
      assert d + t == t;
    }
  }

  lemma {:induction false} Regroup(a: string, b: string, c: string, d: string)
    ensures (a + (b + c)) + d == a + (b + (c + d))
  {
  }

  lemma {:induction false} ReadQuantityAt(digits: string, unit: string, tail: string)
    requires digits != [] && IsDigits(digits)
    ensures ReadQuantity(digits + ((" " + unit) + tail), unit) == Some((digits, DropPlural(tail)))
  {
    var tag := " " + unit;
    var s := digits + (tag + tail);
    DigitRunOf(digits, tag + tail);
    assert s[..|digits|] == digits;
    assert s[|digits|..|digits| + |tag|] == tag;
    assert s[|digits| + |tag|..] == tail;
  }

  /** A rendered count followed by a space or nothing reads back as its numeral. */
  lemma {:induction false} ReadQuantityOf(n: nat, unit: string, rest: string)
    requires rest == [] || rest[0] == ' '
    ensures ReadQuantity(Quantity(n, unit) + rest, unit) == Some((NatToString(n), rest))
  {
    var digits := NatToString(n);
    Regroup(digits, " " + unit, Plural(n), rest);
    ReadQuantityAt(digits, unit, Plural(n) + rest);
    if n != 1 {
      assert (Plural(n) + rest)[1..] == rest;
    }
  }

  lemma {:induction false} ReadQuantityMismatch(digits: string, after: string, unit: string)
    requires digits != [] && IsDigits(digits)
    requires |after| > 1 && after[0] == ' ' && unit != [] && after[1] != unit[0]
    ensures ReadQuantity(digits + after, unit) == None
  {
    var s := digits + after;
    var tag := " " + unit;
    DigitRunOf(digits, after);
    if |digits| + |tag| <= |s| {
      assert s[|digits|..|digits| + |tag|][1] == after[1];
    }
  }

  /** A count of minutes does not read as a count of hours. */
  lemma {:induction false} ReadMinutesAsHours(n: nat, rest: string)
    ensures ReadQuantity(Quantity(n, "min") + rest, "hr") == None
  {
    var after := (" " + "min") + (Plural(n) + rest);
    Regroup(NatToString(n), " " + "min", Plural(n), rest);
    ReadQuantityMismatch(NatToString(n), after, "hr");
  }

  lemma {:induction false} ParseMinutesOnly(mins: nat)
    ensures ParseStudyTime(Quantity(mins, "min")) == Some(mins)
  {
    var text := Quantity(mins, "min");
    assert text + [] == text;
    ReadMinutesAsHours(mins, []);
    ReadQuantityOf(mins, "min", []);
    NatToStringValue(mins);
  }

  lemma {:induction false} ParseHoursOnly(hours: nat)
    ensures ParseStudyTime(Quantity(hours, "hr")) == Some(hours * 60)
  {
    var text := Quantity(hours, "hr");
    assert text + [] == text;
    ReadQuantityOf(hours, "hr", []);
    NatToStringValue(hours);
  }

  lemma {:induction false} ParseBoth(text: string, hours: string, rest: string, mins: string)
    requires ReadQuantity(text, "hr") == Some((hours, rest))
    requires rest != [] && rest[0] == ' '
    requires ReadQuantity(rest[1..], "min") == Some((mins, []))
    ensures ParseStudyTime(text) == Some(DigitsValue(hours) * 60 + DigitsValue(mins))
  {
  }

  /** "<h> hr[s] <m> min[s]" over any two numerals reads back as h * 60 + m. */
  lemma {:induction false} ParseHoursAndMinutesShape(dh: string, ph: string, dm: string, pm: string)
    requires dh != [] && IsDigits(dh) && dm != [] && IsDigits(dm)
    requires ph == "" || ph == "s"
    requires pm == "" || pm == "s"
    ensures ParseStudyTime((dh + ((" " + "hr") + ph)) + (" " + (dm + ((" " + "min") + pm))))
         == Some(DigitsValue(dh) * 60 + DigitsValue(dm))
  {
    var rest := " " + (dm + ((" " + "min") + pm));
    Regroup(dh, " " + "hr", ph, rest);
    ReadQuantityAt(dh, "hr", ph + rest);
    assert DropPlural(ph + rest) == rest by {
      if ph == "s" {
        assert (ph + rest)[1..] == rest;
      }
    }
    assert rest[1..] == dm + ((" " + "min") + pm);
    ReadQuantityAt(dm, "min", pm);
    ParseBoth(dh + ((" " + "hr") + (ph + rest)), dh, rest, dm);
  }

  lemma {:induction false} ParseHoursAndMinutes(hours: nat, mins: nat)
    ensures ParseStudyTime(Quantity(hours, "hr") + (" " + Quantity(mins, "min"))) == Some(hours * 60 + mins)
  {
    ParseHoursAndMinutesShape(NatToString(hours), Plural(hours), NatToString(mins), Plural(mins));
    NatToStringValue(hours);
    NatToStringValue(mins);
  }

  /** Every non-negative study time reads back from its rendering. */
  lemma {:induction false} FormatStudyTimeRoundTrip(minutes: nat)
    ensures ParseStudyTime(FormatStudyTime(minutes)) == Some(minutes)
  {
    var h, m := minutes / 60, minutes % 60;
    assert h * 60 + m == minutes;
    assert FormatStudyTime(minutes) == StudyTimeText(h, m);
    ParseStudyTimeText(h, m);
  }

  lemma {:induction false} ParseStudyTimeText(hours: nat, mins: nat)
    ensures ParseStudyTime(StudyTimeText(hours, mins)) == Some(hours * 60 + mins)
  {
    if hours == 0 {
      assert hours * 60 + mins == mins;
      ParseMinutesOnly(mins);
    } else if mins == 0 {
      assert hours * 60 + mins == hours * 60;
      ParseHoursOnly(hours);
    } else {
      ParseHoursAndMinutes(hours, mins);
    }
  }

  /** Two different non-negative study times never render alike. */
  lemma {:induction false} FormatStudyTimeInjective(a: nat, b: nat)
    ensures FormatStudyTime(a) == FormatStudyTime(b) ==> a == b
  {
    FormatStudyTimeRoundTrip(a);
    FormatStudyTimeRoundTrip(b);
  }

  // ---------------------------------------------------------------------------
  // Multiplying by a positive factor keeps the order.

  lemma MulLess(x: int, y: int, t: int)
    requires t > 0 && x * t < y * t
    ensures x < y
  {
  }

  lemma MulMono(x: int, y: int, t: int)
    requires t > 0 && x <= y
    ensures x * t <= y * t
  {
  }

  // ---------------------------------------------------------------------------
  // calculateProgress

  function Abs(x: int): nat {
    if x < 0 then -x else x
  }

  function Sign(x: int): int {
    if x < 0 then -1 else if x > 0 then 1 else 0
  }

  /**
   * `Math.round(num / den)` on exact rationals: the nearest integer, a tie
   * going up (toward positive infinity).
   */
  function RoundHalfUp(num: int, den: int): (r: int)
    requires den != 0
    ensures (2 * r - 1) * Abs(den) <= 2 * num * Sign(den) < (2 * r + 1) * Abs(den)
  {
    var d := Abs(den);
    var n := num * Sign(den);
    var r := (2 * n + d) / (2 * d);
    assert 2 * d * r <= 2 * n + d < 2 * d * r + 2 * d;
    r
  }

  /** `calculateProgress`: current / total as a whole percentage, capped at 100. */
  function CalculateProgress(current: int, total: int): (r: int)
    ensures total == 0 ==> r == 0
    ensures r <= 100
    ensures total != 0 && r < 100 ==>
              (2 * r - 1) * Abs(total) <= 200 * current * Sign(total) < (2 * r + 1) * Abs(total)
    ensures total != 0 && r == 100 ==> 199 * Abs(total) <= 200 * current * Sign(total)
  {
    if total == 0 then 0
    else
      var p := RoundHalfUp(100 * current, total);
      if p < 100 then p else 100
  }

  /** Progress through a positive total runs from 0 at the start to 100 at the end. */
  lemma {:induction false} CalculateProgressBounds(current: int, total: int)
    requires 0 <= current <= total && total > 0
    ensures 0 <= CalculateProgress(current, total) <= 100
    ensures current == 0 ==> CalculateProgress(current, total) == 0
    ensures current == total ==> CalculateProgress(current, total) == 100
  {
  }

  /** More done out of the same positive total never shows less progress. */
  lemma {:induction false} CalculateProgressMonotone(a: int, b: int, total: int)
    requires a <= b && total > 0
    ensures CalculateProgress(a, total) <= CalculateProgress(b, total)
  {
    var ra := CalculateProgress(a, total);
    var rb := CalculateProgress(b, total);
    assert Abs(total) == total && Sign(total) == 1;
    assert (2 * ra - 1) * total <= 200 * a;
    if rb < 100 {
      assert 200 * b < (2 * rb + 1) * total;
      FactorLess(2 * ra - 1, 2 * rb + 1, total);
    }
  }

  lemma {:induction false} FactorLess(x: int, y: int, t: int)
    requires t > 0 && x * t < y * t
    ensures x < y
  {
  }

  // ---------------------------------------------------------------------------
  // truncateText

  /** Where `text.slice(0, end)` stops in a text of the given length. */
  function SliceEnd(length: nat, end: int): (r: nat)
    ensures r <= length
    ensures 0 <= end <= length ==> r == end
    ensures 0 < length && end < length ==> r < length
  {
    if end < 0 then (if length + end < 0 then 0 else length + end)
    else if end < length then end
    else length
  }

  /** `truncateText`: text that fits is kept; a longer one is cut and "..." is appended. */
  function TruncateText(text: string, maxLength: int): (r: string)
    ensures |text| <= maxLength ==> r == text
    ensures |text| > maxLength >= 0 ==> r == text[..maxLength] + "..." && |r| == maxLength + 3
    ensures |text| > maxLength ==> |r| >= 3 && r[..|r| - 3] <= text && r[|r| - 3..] == "..."
    ensures |text| > maxLength && text != [] ==> r[..|r| - 3] != text
  {
    if |text| <= maxLength then text
    else
      var kept := text[..SliceEnd(|text|, maxLength)];
      assert (kept + "...")[..|kept|] == kept;
      kept + "..."
  }

  /** Truncating to a non-negative length twice is the same as once. */
  lemma {:induction false} TruncateTextIdempotent(text: string, maxLength: int)
    requires maxLength >= 0
    ensures TruncateText(TruncateText(text, maxLength), maxLength) == TruncateText(text, maxLength)
  {
    var r := TruncateText(text, maxLength);
    if |text| > maxLength {
      assert r[..maxLength] == text[..maxLength];
    }
  }
}
