/**
 * The field formatter of the departures board: how one train record and the
 * wall-clock time become the strings that are drawn.
 *
 * A train record is the JSON object the arrivals feed sends for one train,
 * seen as a dictionary from key to string.
 */
module Formatting {
  import opened Wrappers

  type Hour = h: int | 0 <= h < 24
  type Minute = m: int | 0 <= m < 60

  /** One predicted train: `Line`, `Car`, `DestinationName`, `Min`, `LocationName`, ... */
  type Train = map<string, string>

  /** Longest destination drawn in full. */
  const MAX_DESTINATION := 14

  // ---------------------------------------------------------------------------
  // Missing keys
  // ---------------------------------------------------------------------------

  /** Python's `train.get(key, default)`. */
  function Get(train: Train, key: string, default: string): (r: string)
    ensures key in train ==> r == train[key]
    ensures key !in train ==> r == default
  {
    if key in train then train[key] else default
  }

  /** The four cells of one departures row, ready to draw. */
  datatype Row = Row(line: string, destination: string, car: string, arrival: string)

  /** The cells of the row for `train`. */
  function FormatRow(train: Train): Row
  {
    Row(Get(train, "Line", "--"),
        Truncate(Get(train, "DestinationName", "Unknown")),
        Get(train, "Car", "-"),
        ArrivalText(Get(train, "Min", "-")))
  }

  /**
   * A missing `Line`, `Car` or `DestinationName` is drawn as "--", "-" or
   * "Unknown", a missing `Min` as "-"; present values are drawn after
   * destination shortening and arrival formatting, and a destination cell
   * never exceeds MAX_DESTINATION characters.
   */
  lemma RowDefaults(train: Train)
    ensures FormatRow(train).line == (if "Line" in train then train["Line"] else "--")
    ensures FormatRow(train).car == (if "Car" in train then train["Car"] else "-")
    ensures "DestinationName" !in train ==> FormatRow(train).destination == "Unknown"
    ensures "DestinationName" in train ==> FormatRow(train).destination == Truncate(train["DestinationName"])
    ensures |FormatRow(train).destination| <= MAX_DESTINATION
    ensures "Min" !in train ==> FormatRow(train).arrival == "-"
    ensures "Min" in train ==> FormatRow(train).arrival == ArrivalText(train["Min"])
  {
  }

  // ---------------------------------------------------------------------------
  // Destination
  // ---------------------------------------------------------------------------

  /**
   * A destination longer than MAX_DESTINATION characters keeps its first
   * MAX_DESTINATION - 1 characters and gets a "." marker; a shorter one is
   * drawn as it is.
   */
  function Truncate(destination: string): (r: string)
    ensures |r| <= MAX_DESTINATION
    ensures |destination| > MAX_DESTINATION ==>
              |r| == MAX_DESTINATION && r[..MAX_DESTINATION - 1] == destination[..MAX_DESTINATION - 1]
              && r[MAX_DESTINATION - 1] == '.'
    ensures |destination| <= MAX_DESTINATION ==> r == destination
  {
    if |destination| > MAX_DESTINATION then destination[..MAX_DESTINATION - 1] + "." else destination
  }

  /** Shortening an already shortened destination changes nothing. */
  lemma TruncateIdempotent(destination: string)
    ensures Truncate(Truncate(destination)) == Truncate(destination)
  {
  }

  /** A destination is drawn unchanged exactly when it fits. */
  lemma TruncateFixesShort(destination: string)
    ensures Truncate(destination) == destination <==> |destination| <= MAX_DESTINATION
  {
  }

  // ---------------------------------------------------------------------------
  // Arrival
  // ---------------------------------------------------------------------------

  /** The `Min` values drawn without a unit: arriving, boarding and unknown. */
  predicate IsSentinel(minutes: string)
  {
    minutes == "ARR" || minutes == "BRD" || minutes == "-"
  }

  predicate EndsWith(s: string, suffix: string)
  {
    |suffix| <= |s| && s[|s| - |suffix|..] == suffix
  }

  const MINS_SUFFIX := " mins"

  /**
   * The arrival cell: a sentinel is drawn as it is, anything else gets the
   * " mins" unit, so the unit appears on exactly the non-sentinel values.
   */
  function ArrivalText(minutes: string): (r: string)
    ensures IsSentinel(minutes) ==> r == minutes
    ensures !IsSentinel(minutes) ==> r == minutes + MINS_SUFFIX
    ensures EndsWith(r, MINS_SUFFIX) <==> !IsSentinel(minutes)
  {
    if IsSentinel(minutes) then minutes else minutes + MINS_SUFFIX
  }

  /** Two different `Min` values never give the same arrival cell. */
  lemma ArrivalTextInjective(a: string, b: string)
    requires ArrivalText(a) == ArrivalText(b)
    ensures a == b
  {
    if !IsSentinel(a) && !IsSentinel(b) {
      var ra := ArrivalText(a);
      assert a == ra[..|ra| - |MINS_SUFFIX|];
      assert b == ra[..|ra| - |MINS_SUFFIX|];
    }
  }

  predicate IsDigit(c: char)
  {
    '0' <= c <= '9'
  }

  predicate IsNumeral(s: string)
  {
    |s| > 0 && forall i :: 0 <= i < |s| ==> IsDigit(s[i])
  }

  /** A countdown in minutes ("12") is always drawn with the unit ("12 mins"). */
  lemma NumeralGetsUnit(minutes: string)
    requires IsNumeral(minutes)
    ensures ArrivalText(minutes) == minutes + MINS_SUFFIX
  {
    assert IsDigit(minutes[0]);
  }

  // ---------------------------------------------------------------------------
  // Time of day
  // ---------------------------------------------------------------------------

  /** The hour on a 12-hour clock face: midnight and noon are 12. */
  function Hour12(hour: Hour): (r: int)
    ensures 1 <= r <= 12
    ensures r % 12 == hour % 12
  {
    if hour % 12 == 0 then 12 else hour % 12
  }

  /** `%p` in the C locale. */
  function Meridiem(hour: Hour): (r: string)
    ensures r == "AM" <==> hour < 12
    ensures r == "AM" || r == "PM"
  {
    if hour < 12 then "AM" else "PM"
  }

  function DigitChar(d: int): (c: char)
    requires 0 <= d < 10
    ensures IsDigit(c) && DigitValue(c) == d
  {
    ('0' as int + d) as char
  }

  function DigitValue(c: char): int
  {
    c as int - '0' as int
  }

  /** A number below 100 with a leading zero, as `%I` and `%M` print it. */
  function TwoDigits(n: int): (r: string)
    requires 0 <= n < 100
    ensures |r| == 2 && IsDigit(r[0]) && IsDigit(r[1])
    ensures 10 * DigitValue(r[0]) + DigitValue(r[1]) == n
  {
    [DigitChar(n / 10), DigitChar(n % 10)]
  }

  /** A number from 1 to 99 in decimal, without a leading zero. */
  function Decimal(n: int): (r: string)
    requires 1 <= n < 100
    ensures 1 <= |r| <= 2 && r[0] != '0'
    ensures forall i :: 0 <= i < |r| ==> IsDigit(r[i])
    ensures (if |r| == 1 then DigitValue(r[0]) else 10 * DigitValue(r[0]) + DigitValue(r[1])) == n
  {
    if n < 10 then [DigitChar(n)] else TwoDigits(n)
  }

  /** `strftime("%I:%M %p")`: "01:05 PM". */
  function Strftime12(hour: Hour, minute: Minute): string
  {
    TwoDigits(Hour12(hour)) + ":" + TwoDigits(minute) + " " + Meridiem(hour)
  }

  /** Python's `s.lstrip(c)`: every leading `c` removed. */
  function LStrip(s: string, c: char): (r: string)
    ensures |r| <= |s| && r == s[|s| - |r|..]
    ensures r == [] || r[0] != c
    ensures forall i :: 0 <= i < |s| - |r| ==> s[i] == c
    decreases |s|
  {
    if |s| > 0 && s[0] == c then LStrip(s[1..], c) else s
  }

  predicate OccursAt(s: string, pattern: string, i: int)
  {
    0 <= i && i + |pattern| <= |s| && s[i..i + |pattern|] == pattern
  }

  /** Python's `s.replace(pattern, replacement)`: left to right, without overlaps. */
  function ReplaceAll(s: string, pattern: string, replacement: string): string
    requires |pattern| > 0
    decreases |s|
  {
    if |s| < |pattern| then s
    else if s[..|pattern|] == pattern then replacement + ReplaceAll(s[|pattern|..], pattern, replacement)
    else [s[0]] + ReplaceAll(s[1..], pattern, replacement)
  }

  /** Replacing a pattern that does not occur leaves the string as it was. */
  lemma {:induction false} ReplaceAbsent(s: string, pattern: string, replacement: string)
    requires |pattern| > 0
    requires forall i :: !OccursAt(s, pattern, i)
    ensures ReplaceAll(s, pattern, replacement) == s
  {
    if |s| >= |pattern| {
      assert !OccursAt(s, pattern, 0);
      var t := s[1..];
      forall i ensures !OccursAt(t, pattern, i) {
        if OccursAt(t, pattern, i) {
          assert t[i..i + |pattern|] == s[i + 1..i + 1 + |pattern|];
          assert OccursAt(s, pattern, i + 1);
        }
      }
      ReplaceAbsent(t, pattern, replacement);
    }
  }

  /**
   * The header clock: `strftime("%I:%M %p").lstrip("0").replace(" 0", " ")`.
   */
  function TimeText(hour: Hour, minute: Minute): string
  {
    ReplaceAll(LStrip(Strftime12(hour, minute), '0'), " 0", " ")
  }

  /**
   * The clock reads the 12-hour hour without a leading zero (midnight and
   * noon read 12), a colon, the minute in two digits, a space and AM or PM;
   * in particular the `replace` step never changes anything.
   */
  lemma TimeTextShape(hour: Hour, minute: Minute)
    ensures TimeText(hour, minute) == Decimal(Hour12(hour)) + ":" + TwoDigits(minute) + " " + Meridiem(hour)
    ensures TimeText(hour, minute)[0] != '0'
  {
    var h := Hour12(hour);
    var rest := ":" + TwoDigits(minute) + " " + Meridiem(hour);
    assert Strftime12(hour, minute) == TwoDigits(h) + rest;
    StripHourZero(h, rest);
    var t := Decimal(h) + ":" + TwoDigits(minute) + " " + Meridiem(hour);
    assert t == Decimal(h) + rest;
    NoSpaceZero(Decimal(h), TwoDigits(minute), Meridiem(hour));
    ReplaceAbsent(t, " 0", " ");
  }

  /** `lstrip("0")` turns the padded hour of "%I" into the hour without a leading zero. */
  lemma StripHourZero(h: int, rest: string)
    requires 1 <= h <= 12
    requires |rest| > 0 && rest[0] == ':'
    ensures LStrip(TwoDigits(h) + rest, '0') == Decimal(h) + rest
  {
    var s := TwoDigits(h) + rest;
    if h < 10 {
      assert s[0] == '0' && s[1..] == [DigitChar(h)] + rest;
      assert LStrip(s, '0') == LStrip(s[1..], '0');
      assert s[1..][0] != '0';
    } else {
      assert s[0] == '1';
    }
  }

  /** In "H:MM XM" the only space is followed by A or P, never by 0. */
  lemma NoSpaceZero(h: string, mm: string, ap: string)
    requires forall i :: 0 <= i < |h| ==> IsDigit(h[i])
    requires |mm| == 2 && IsDigit(mm[0]) && IsDigit(mm[1])
    requires ap == "AM" || ap == "PM"
    ensures forall i :: !OccursAt(h + ":" + mm + " " + ap, " 0", i)
  {
    var t := h + ":" + mm + " " + ap;
    forall i ensures !OccursAt(t, " 0", i) {
      if 0 <= i && i + 2 <= |t| {
        assert t[i..i + 2] == [t[i], t[i + 1]];
        if i < |h| {
          assert t[i] == h[i];
        } else if i == |h| {
          assert t[i] == ':';
        } else if i < |h| + 3 {
          assert t[i] == mm[i - |h| - 1];
        } else if i == |h| + 3 {
          assert t[i + 1] == ap[0];
        } else {
          assert t[i] == ap[0];
        }
      }
    }
  }

  // ---------------------------------------------------------------------------
  // Reading the clock back
  // ---------------------------------------------------------------------------

  /** The hour of a 12-hour clock face, written without a leading zero. */
  function ParseHour12(s: string): (r: Option<int>)
    ensures r.Some? ==> 1 <= r.value <= 12
  {
    if |s| == 1 && '1' <= s[0] <= '9' then Some(DigitValue(s[0]))
    else if |s| == 2 && s[0] == '1' && '0' <= s[1] <= '2' then Some(10 + DigitValue(s[1]))
    else None
  }

  function To24(hour12: int, pm: bool): Hour
    requires 1 <= hour12 <= 12
  {
    if pm then (if hour12 == 12 then 12 else hour12 + 12)
    else (if hour12 == 12 then 0 else hour12)
  }

  /** Reads "H:MM AM" / "HH:MM PM" back into a 24-hour time. */
  function ParseTime(s: string): Option<(Hour, Minute)>
  {
    if |s| < 7 || |s| > 8 then None
    else
      var tail := s[|s| - 6..];
      if tail[0] != ':' || tail[3] != ' ' || tail[5] != 'M' || !IsDigit(tail[1]) || !IsDigit(tail[2])
         || (tail[4] != 'A' && tail[4] != 'P')
      then None
      else
        var minute := 10 * DigitValue(tail[1]) + DigitValue(tail[2]);
        match ParseHour12(s[..|s| - 6])
        case None => None
        case Some(h12) => if minute < 60 then Some((To24(h12, tail[4] == 'P'), minute)) else None
  }

  /** A clock hour written without its leading zero reads back as itself. */
  lemma ParseDecimalHour(n: int)
    requires 1 <= n <= 12
    ensures ParseHour12(Decimal(n)) == Some(n)
  {
    if n >= 10 {
      assert Decimal(n) == [DigitChar(1), DigitChar(n - 10)];
    }
  }

  /** The 12-hour reading and the half of the day give back the 24-hour hour. */
  lemma To24Hour12(hour: Hour)
    ensures To24(Hour12(hour), Meridiem(hour) == "PM") == hour
  {
  }

  /** "H:MM XM" reads back as the time it was written from. */
  lemma ParseClockFace(hour: Hour, minute: Minute)
    ensures ParseTime(Decimal(Hour12(hour)) + ":" + TwoDigits(minute) + " " + Meridiem(hour)) == Some((hour, minute))
  {
    var h := Decimal(Hour12(hour));
    var mm := TwoDigits(minute);
    var ap := Meridiem(hour);
    var s := h + ":" + mm + " " + ap;
    var tail := s[|s| - 6..];
    assert s[..|s| - 6] == h;
    assert tail == ":" + mm + " " + ap;
    assert tail[1] == mm[0] && tail[2] == mm[1] && tail[4] == ap[0] && tail[5] == 'M';
    assert (tail[4] == 'P') == (ap == "PM");
    ParseDecimalHour(Hour12(hour));
    To24Hour12(hour);
  }

  /** The clock text determines the time it shows. */
  lemma TimeTextRoundTrip(hour: Hour, minute: Minute)
    ensures ParseTime(TimeText(hour, minute)) == Some((hour, minute))
  {
    TimeTextShape(hour, minute);
    ParseClockFace(hour, minute);
  }

  /** Two different times of day never show the same clock text. */
  lemma TimeTextInjective(h1: Hour, m1: Minute, h2: Hour, m2: Minute)
    requires TimeText(h1, m1) == TimeText(h2, m2)
    ensures h1 == h2 && m1 == m2
  {
    TimeTextRoundTrip(h1, m1);
    TimeTextRoundTrip(h2, m2);
  }
}
