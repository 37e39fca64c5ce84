/** The activity annotation: printed by the monitor with `str(datetime.now())` (monitor/main.py:105-107),
    parsed by the apiserver and emitted again in ISO form (schema.py:160-169). */
module ActivityTime {
  import opened Outcomes
  import opened Numerals

  datatype DateTime = DateTime(year: nat, month: nat, day: nat, hour: nat, minute: nat, second: nat, micro: nat)

  function DaysInMonth(year: nat, month: nat): nat {
    if month == 2 then (if year % 4 == 0 && (year % 100 != 0 || year % 400 == 0) then 29 else 28)
    else if month in {4, 6, 9, 11} then 30
    else 31
  }

  /** What the `datetime` constructor accepts. */
  predicate Valid(t: DateTime) {
    && 1 <= t.year <= 9999 && 1 <= t.month <= 12 && 1 <= t.day <= DaysInMonth(t.year, t.month)
    && t.hour <= 23 && t.minute <= 59 && t.second <= 59 && t.micro <= 999_999
  }

  /** What `datetime.now()` returns. */
  type Moment = t: DateTime | Valid(t) witness DateTime(1970, 1, 1, 0, 0, 0, 0)

  function Fraction(micro: nat): string {
    if micro == 0 then "" else "." + Pad(micro, 6)
  }

  function Isoformat(t: DateTime, sep: char): string {
    Pad(t.year, 4) + ("-" + (Pad(t.month, 2) + ("-" + (Pad(t.day, 2) + ([sep] +
    (Pad(t.hour, 2) + (":" + (Pad(t.minute, 2) + (":" + (Pad(t.second, 2) + Fraction(t.micro)))))))))))
  }

  /** `str(t)`: no fraction at all when the microseconds are zero. */
  function Print(t: DateTime): string { Isoformat(t, ' ') }

  /** `t.isoformat()` of a time in UTC. */
  function IsoUtc(t: DateTime): string { Isoformat(t, 'T') + "+00:00" }

  // ---- strptime(text + "Z", "%Y-%m-%d %H:%M:%S.%f%z") ------------------------------------------------

  /** A field that has been read, and the text after it. */
  type Scan = Option<(nat, string)>

  function TakeFour(s: string): Scan {
    if |s| >= 4 && IsDigit(s[0]) && IsDigit(s[1]) && IsDigit(s[2]) && IsDigit(s[3]) then
      Some((1000 * DigitValue(s[0]) + 100 * DigitValue(s[1]) + 10 * DigitValue(s[2]) + DigitValue(s[3]), s[4..]))
    else None
  }

  /** Two digits within the bounds if possible, else one digit within the bounds. */
  function TakeUpToTwo(s: string, low: nat, high: nat): Scan {
    if |s| >= 2 && IsDigit(s[0]) && IsDigit(s[1]) && low <= 10 * DigitValue(s[0]) + DigitValue(s[1]) <= high then
      Some((10 * DigitValue(s[0]) + DigitValue(s[1]), s[2..]))
    else if |s| >= 1 && IsDigit(s[0]) && low <= DigitValue(s[0]) then Some((DigitValue(s[0]), s[1..]))
    else None
  }

  /** `%d` also accepts a blank and one digit. */
  function TakeDay(s: string): Scan {
    if TakeUpToTwo(s, 1, 31).Some? then TakeUpToTwo(s, 1, 31)
    else if |s| >= 2 && s[0] == ' ' && IsDigit(s[1]) && s[1] != '0' then Some((DigitValue(s[1]), s[2..]))
    else None
  }

  function TakeChar(s: string, c: char): Option<string> {
    if s != [] && s[0] == c then Some(s[1..]) else None
  }

  predicate IsBlank(c: char) { c == ' ' || 9 <= c as int <= 13 }

  function DropBlanks(s: string): string {
    if s != [] && IsBlank(s[0]) then DropBlanks(s[1..]) else s
  }

  /** A blank in the format stands for one or more blanks in the text. */
  function TakeBlanks(s: string): Option<string> {
    if s != [] && IsBlank(s[0]) then Some(DropBlanks(s)) else None
  }

  /** One to six digits, scaled to microseconds; `room` more may follow. */
  function TakeDigits(s: string, room: nat, value: nat): (nat, string)
    decreases room
  {
    if room == 0 || s == [] || !IsDigit(s[0]) then (Scale(value, room), s)
    else TakeDigits(s[1..], room - 1, 10 * value + DigitValue(s[0]))
  }

  function Scale(value: nat, zeros: nat): nat
    decreases zeros
  {
    if zeros == 0 then value else Scale(10 * value, zeros - 1)
  }

  function TakeFraction(s: string): Scan {
    if s != [] && IsDigit(s[0]) then Some(TakeDigits(s, 6, 0)) else None
  }

  function TakeCalendar(s: string): Option<(nat, nat, nat, string)> {
    var (year, s) :- TakeFour(s);
    var s :- TakeChar(s, '-');
    var (month, s) :- TakeUpToTwo(s, 1, 12);
    var s :- TakeChar(s, '-');
    var (day, s) :- TakeDay(s);
    Some((year, month, day, s))
  }

  function TakeClock(s: string): Option<(nat, nat, nat, nat, string)> {
    var (hour, s) :- TakeUpToTwo(s, 0, 23);
    var s :- TakeChar(s, ':');
    var (minute, s) :- TakeUpToTwo(s, 0, 59);
    var s :- TakeChar(s, ':');
    var (second, s) :- TakeUpToTwo(s, 0, 61);
    var s :- TakeChar(s, '.');
    var (micro, s) :- TakeFraction(s);
    Some((hour, minute, second, micro, s))
  }

  function Strptime(s: string): Option<DateTime> {
    var (year, month, day, s) :- TakeCalendar(s);
    var s :- TakeBlanks(s);
    var (hour, minute, second, micro, s) :- TakeClock(s);
    var t := DateTime(year, month, day, hour, minute, second, micro);
    if s == "Z" && Valid(t) then Some(t) else None
  }

  /** schema.py:165-167: the text gets a `Z` appended before it is parsed. */
  function ParseActivity(text: string): Option<DateTime> { Strptime(text + "Z") }

  // ---- reading back what was printed ------------------------------------------------

  lemma PadTwo(n: nat)
    requires n <= 99
    ensures Pad(n, 2) == [DigitChar(n / 10), DigitChar(n % 10)]
  {
    assert Pad(n, 2) == Pad(n / 10, 1) + [DigitChar(n % 10)];
    assert Pad(n / 10, 1) == Pad(n / 10 / 10, 0) + [DigitChar(n / 10 % 10)];
  }

  lemma TakePadTwo(n: nat, rest: string, low: nat, high: nat)
    requires low <= n <= high <= 99
    ensures TakeUpToTwo(Pad(n, 2) + rest, low, high) == Some((n, rest))
  {
    PadTwo(n);
    assert (Pad(n, 2) + rest)[2..] == rest;
  }

  lemma TakePadFour(n: nat, rest: string)
    requires n <= 9999
    ensures TakeFour(Pad(n, 4) + rest) == Some((n, rest))
  {
    PadTwo(n / 100);
    assert Pad(n, 4) == Pad(n / 10, 3) + [DigitChar(n % 10)];
    assert Pad(n / 10, 3) == Pad(n / 10 / 10, 2) + [DigitChar(n / 10 % 10)];
    assert n / 10 / 10 == n / 100;
    assert (Pad(n, 4) + rest)[4..] == rest;
  }

  lemma TakeSep(c: char, rest: string)
    ensures TakeChar([c] + rest, c) == Some(rest)
  {
    assert ([c] + rest)[1..] == rest;
  }

  function Power10(k: nat): nat { if k == 0 then 1 else 10 * Power10(k - 1) }

  /** Reading the padded digits of `n` on top of `value`. */
  lemma {:induction false} TakePadDigits(n: nat, width: nat, value: nat, room: nat, rest: string)
    requires Fits(n, width)
    ensures TakeDigits(Pad(n, width) + rest, room + width, value) == TakeDigits(rest, room, Power10(width) * value + n)
  {
    if width == 0 {
      assert Pad(n, 0) + rest == rest;
    } else {
      var last := DigitChar(n % 10);
      assert Pad(n, width) + rest == Pad(n / 10, width - 1) + ([last] + rest);
      TakePadDigits(n / 10, width - 1, value, room + 1, [last] + rest);
      assert ([last] + rest)[1..] == rest;
      assert Power10(width) * value + n == 10 * (Power10(width - 1) * value + n / 10) + n % 10;
    }
  }

  lemma {:induction false} DigitsFit(n: nat, width: nat)
    ensures Fits(n, width) <==> n < Power10(width)
  {
    if width > 0 {
      DigitsFit(n / 10, width - 1);
    }
  }

  lemma PowersOfTen()
    ensures Power10(2) == 100 && Power10(4) == 10_000 && Power10(6) == 1_000_000
  {
    assert Power10(1) == 10 * Power10(0) && Power10(2) == 10 * Power10(1) && Power10(3) == 10 * Power10(2);
    assert Power10(4) == 10 * Power10(3) && Power10(5) == 10 * Power10(4) && Power10(6) == 10 * Power10(5);
  }

  lemma SixDigitsFit(n: nat)
    ensures Fits(n, 6) <==> n <= 999_999
    ensures Fits(n, 4) <==> n <= 9999
    ensures Fits(n, 2) <==> n <= 99
  {
    PowersOfTen();
    DigitsFit(n, 6);
    DigitsFit(n, 4);
    DigitsFit(n, 2);
  }

  lemma TakePadFraction(micro: nat)
    requires micro <= 999_999
    ensures TakeFraction(Pad(micro, 6) + "Z") == Some((micro, "Z"))
  {
    SixDigitsFit(micro);
    TakePadDigits(micro, 6, 0, 0, "Z");
    assert (Pad(micro, 6) + "Z")[0] == Pad(micro, 6)[0];
  }

  /** The text the parser sees, split at its separators. */
  function Clock(t: DateTime, tail: string): string {
    Pad(t.hour, 2) + ([':'] + (Pad(t.minute, 2) + ([':'] + (Pad(t.second, 2) + tail))))
  }

  function Calendar(t: DateTime, tail: string): string {
    Pad(t.year, 4) + (['-'] + (Pad(t.month, 2) + (['-'] + (Pad(t.day, 2) + tail))))
  }

  lemma IsoformatSplits(t: DateTime, sep: char, tail: string)
    ensures Isoformat(t, sep) + tail == Calendar(t, [sep] + Clock(t, Fraction(t.micro) + tail))
  {
  }

  lemma TakePrintedClock(t: DateTime)
    requires Valid(t)
    ensures TakeClock(Clock(t, Fraction(t.micro) + "Z"))
            == if t.micro == 0 then None else Some((t.hour, t.minute, t.second, t.micro, "Z"))
  {
    var tail := Fraction(t.micro) + "Z";
    TakePadTwo(t.hour, [':'] + (Pad(t.minute, 2) + ([':'] + (Pad(t.second, 2) + tail))), 0, 23);
    TakeSep(':', Pad(t.minute, 2) + ([':'] + (Pad(t.second, 2) + tail)));
    TakePadTwo(t.minute, [':'] + (Pad(t.second, 2) + tail), 0, 59);
    TakeSep(':', Pad(t.second, 2) + tail);
    TakePadTwo(t.second, tail, 0, 61);
    if t.micro != 0 {
      assert tail == ['.'] + (Pad(t.micro, 6) + "Z");
      TakeSep('.', Pad(t.micro, 6) + "Z");
      TakePadFraction(t.micro);
    }
  }

  lemma TakePrintedCalendar(t: DateTime, rest: string)
    requires Valid(t)
    ensures TakeCalendar(Calendar(t, rest)) == Some((t.year, t.month, t.day, rest))
  {
    TakePadFour(t.year, ['-'] + (Pad(t.month, 2) + (['-'] + (Pad(t.day, 2) + rest))));
    TakeSep('-', Pad(t.month, 2) + (['-'] + (Pad(t.day, 2) + rest)));
    TakePadTwo(t.month, ['-'] + (Pad(t.day, 2) + rest), 1, 12);
    TakeSep('-', Pad(t.day, 2) + rest);
    TakePadTwo(t.day, rest, 1, 31);
  }

  /** The apiserver reads a printed time back to the same fields, unless its microseconds are zero:
      then the annotation has no fraction, the format demands one, and parsing fails. */
  lemma PrintedTimeParsesBack(t: DateTime)
    requires Valid(t)
    ensures ParseActivity(Print(t)) == if t.micro == 0 then None else Some(t)
  {
    var clock := Clock(t, Fraction(t.micro) + "Z");
    IsoformatSplits(t, ' ', "Z");
    TakePrintedCalendar(t, [' '] + clock);
    assert TakeBlanks([' '] + clock) == Some(clock) by {
      assert ([' '] + clock)[1..] == clock;
      assert clock[0] == Pad(t.hour, 2)[0] && IsDigit(clock[0]);
      assert DropBlanks(clock) == clock;
    }
    TakePrintedClock(t);
  }

  // ---- the form that is emitted ------------------------------------------------

  predicate Digits(s: string) { s != [] && forall i :: 0 <= i < |s| ==> IsDigit(s[i]) }

  function ValueOf(s: string): nat
    requires Digits(s)
  {
    (if |s| == 1 then 0 else 10 * ValueOf(s[..|s| - 1])) + DigitValue(s[|s| - 1])
  }

  predicate TwoDigits(s: string, low: nat, high: nat) {
    |s| == 2 && Digits(s) && low <= ValueOf(s) <= high
  }

  /** `full-date` of section 5.6 of RFC 3339. */
  predicate FullDate(s: string) {
    |s| == 10 && Digits(s[..4]) && s[4] == '-' && TwoDigits(s[5..7], 1, 12) && s[7] == '-' && TwoDigits(s[8..], 1, 31)
  }

  /** `partial-time` of section 5.6 of RFC 3339, with its fraction. */
  predicate PartialTime(s: string) {
    && |s| >= 8 && TwoDigits(s[..2], 0, 23) && s[2] == ':' && TwoDigits(s[3..5], 0, 59) && s[5] == ':'
    && TwoDigits(s[6..8], 0, 60)
    && (|s| == 8 || (s[8] == '.' && Digits(s[9..])))
  }

  /** `time-offset` of section 5.6 of RFC 3339. */
  predicate TimeOffset(s: string) {
    s == "Z" || (|s| == 6 && s[0] in "+-" && TwoDigits(s[1..3], 0, 23) && s[3] == ':' && TwoDigits(s[4..], 0, 59))
  }

  /** `date-time` of section 5.6 of RFC 3339. */
  ghost predicate Rfc3339(s: string) {
    && |s| > 11 && FullDate(s[..10]) && s[10] == 'T'
    && exists i :: 11 < i < |s| && PartialTime(s[11..i]) && TimeOffset(s[i..])
  }

  lemma PadTwoValue(n: nat, low: nat, high: nat)
    requires low <= n <= high <= 99
    ensures TwoDigits(Pad(n, 2), low, high)
  {
    PadTwo(n);
    assert ValueOf(Pad(n, 2)) == 10 * ValueOf(Pad(n, 2)[..1]) + n % 10;
  }

  lemma PrintedDateShape(t: DateTime)
    requires Valid(t)
    ensures FullDate(Calendar(t, ""))
  {
    var s := Calendar(t, "");
    assert s[..4] == Pad(t.year, 4) && s[5..7] == Pad(t.month, 2) && s[8..] == Pad(t.day, 2);
    PadTwoValue(t.month, 1, 12);
    PadTwoValue(t.day, 1, 31);
  }

  lemma PrintedTimeShape(t: DateTime)
    requires Valid(t)
    ensures PartialTime(Clock(t, Fraction(t.micro)))
  {
    var s := Clock(t, Fraction(t.micro));
    assert s[..2] == Pad(t.hour, 2) && s[3..5] == Pad(t.minute, 2) && s[6..8] == Pad(t.second, 2);
    PadTwoValue(t.hour, 0, 23);
    PadTwoValue(t.minute, 0, 59);
    PadTwoValue(t.second, 0, 60);
    if t.micro != 0 {
      assert s[9..] == Pad(t.micro, 6);
    }
  }

  lemma ZeroOffset()
    ensures TimeOffset("+00:00")
  {
    var zeros := "00";
    assert "+00:00"[1..3] == zeros && "+00:00"[4..] == zeros;
    assert ValueOf(zeros) == 10 * ValueOf(zeros[..1]) + 0;
  }

  lemma Assemble(date: string, clock: string, offset: string)
    requires FullDate(date) && PartialTime(clock) && TimeOffset(offset)
    ensures Rfc3339(date + (['T'] + (clock + offset)))
  {
    var s := date + (['T'] + (clock + offset));
    var i := 11 + |clock|;
    assert s[..10] == date && s[11..i] == clock && s[i..] == offset;
  }

  lemma EmittedParts(t: DateTime)
    ensures IsoUtc(t) == Calendar(t, "") + (['T'] + (Clock(t, Fraction(t.micro)) + "+00:00"))
  {
    IsoformatSplits(t, 'T', "+00:00");
  }

  /** What the apiserver emits for an activity time is a date-time of RFC 3339, for every valid time. */
  lemma EmittedTimeIsRfc3339(t: DateTime)
    requires Valid(t)
    ensures Rfc3339(IsoUtc(t))
  {
    PrintedDateShape(t);
    PrintedTimeShape(t);
    ZeroOffset();
    var date, clock := Calendar(t, ""), Clock(t, Fraction(t.micro));
    Assemble(date, clock, "+00:00");
    EmittedParts(t);
  }

  /** The emitted text is the printed one with a `T` between date and time and the UTC offset after it. */
  lemma EmittedFromPrinted(t: DateTime)
    requires Valid(t)
    ensures |Print(t)| > 11
    ensures IsoUtc(t) == Print(t)[..10] + "T" + Print(t)[11..] + "+00:00"
  {
    var date, clock := Calendar(t, ""), Clock(t, Fraction(t.micro));
    assert Print(t) == date + ([' '] + clock);
    assert IsoUtc(t) == date + (['T'] + clock) + "+00:00";
    assert Print(t)[..10] == date && Print(t)[11..] == clock;
  }

  // ---- order ------------------------------------------------

  /** Python's order on naive datetimes. */
  predicate Before(a: DateTime, b: DateTime) {
    || a.year < b.year
    || (a.year == b.year && (a.month < b.month
    || (a.month == b.month && (a.day < b.day
    || (a.day == b.day && (a.hour < b.hour
    || (a.hour == b.hour && (a.minute < b.minute
    || (a.minute == b.minute && (a.second < b.second
    || (a.second == b.second && a.micro < b.micro)))))))))))
  }

  lemma SameHead(c: char, x: string, y: string)
    ensures LexLess([c] + x, [c] + y) <==> LexLess(x, y)
  {
    assert ([c] + x)[1..] == x && ([c] + y)[1..] == y;
  }

  lemma FractionOrder(a: nat, b: nat)
    requires a <= 999_999 && b <= 999_999
    ensures LexLess(Fraction(a), Fraction(b)) <==> a < b
  {
    if a != 0 && b != 0 {
      SixDigitsFit(a);
      SixDigitsFit(b);
      SameHead('.', Pad(a, 6), Pad(b, 6));
      PaddedOrder(a, b, 6, "", "");
      assert Pad(a, 6) + "" == Pad(a, 6) && Pad(b, 6) + "" == Pad(b, 6);
    }
  }

  /** One separator and one two-digit field of the comparison. */
  lemma FieldOrder(c: char, a: nat, b: nat, x: string, y: string)
    requires a <= 99 && b <= 99
    ensures LexLess([c] + (Pad(a, 2) + x), [c] + (Pad(b, 2) + y)) <==> a < b || (a == b && LexLess(x, y))
  {
    SameHead(c, Pad(a, 2) + x, Pad(b, 2) + y);
    SixDigitsFit(a);
    SixDigitsFit(b);
    PaddedOrder(a, b, 2, x, y);
  }

  /** The printed annotations are ordered as strings exactly as the times are in time. */
  lemma PrintedOrder(a: DateTime, b: DateTime)
    requires Valid(a) && Valid(b)
    ensures LexLess(Print(a), Print(b)) <==> Before(a, b)
  {
    var x, y := Fraction(a.micro), Fraction(b.micro);
    FractionOrder(a.micro, b.micro);
    FieldOrder(':', a.second, b.second, x, y);
    x, y := [':'] + (Pad(a.second, 2) + x), [':'] + (Pad(b.second, 2) + y);
    FieldOrder(':', a.minute, b.minute, x, y);
    x, y := [':'] + (Pad(a.minute, 2) + x), [':'] + (Pad(b.minute, 2) + y);
    FieldOrder(' ', a.hour, b.hour, x, y);
    x, y := [' '] + (Pad(a.hour, 2) + x), [' '] + (Pad(b.hour, 2) + y);
    FieldOrder('-', a.day, b.day, x, y);
    x, y := ['-'] + (Pad(a.day, 2) + x), ['-'] + (Pad(b.day, 2) + y);
    FieldOrder('-', a.month, b.month, x, y);
    x, y := ['-'] + (Pad(a.month, 2) + x), ['-'] + (Pad(b.month, 2) + y);
    SixDigitsFit(a.year);
    SixDigitsFit(b.year);
    PaddedOrder(a.year, b.year, 4, x, y);
    assert Print(a) == Pad(a.year, 4) + x && Print(b) == Pad(b.year, 4) + y;
  }
}
