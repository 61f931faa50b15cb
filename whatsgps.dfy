/**
 * The WhatsGPS alarm record and its timestamp codec (whatsgps.go): timestamps travel
 * as JSON strings in the fixed layout "2006-01-02 15:04:05" (Go's reference-time
 * notation for YYYY-MM-DD hh:mm:ss), with the bare word null for the zero time.
 */
module WhatsGPS {
  import opened Wrappers
  import opened Text

  /** Calendar fields of a UTC instant with whole seconds. */
  datatype DateTime = DateTime(year: nat, month: nat, day: nat, hour: nat, minute: nat, second: nat)

  predicate IsLeap(y: nat) {
    y % 4 == 0 && (y % 100 != 0 || y % 400 == 0)
  }

  /** Length of a month in the proleptic Gregorian calendar. */
  function DaysIn(month: nat, year: nat): (n: nat)
    ensures 28 <= n <= 31
  {
    if month == 2 then (if IsLeap(year) then 29 else 28)
    else if month == 4 || month == 6 || month == 9 || month == 11 then 30
    else 31
  }

  /**
   * A real calendar instant with a four-digit year: exactly the values time.Parse
   * can produce with the layout below.
   */
  predicate ValidDateTime(t: DateTime) {
    t.year <= 9999 && 1 <= t.month <= 12 && 1 <= t.day <= DaysIn(t.month, t.year) &&
    t.hour < 24 && t.minute < 60 && t.second < 60
  }

  type Instant = t: DateTime | ValidDateTime(t) witness DateTime(1, 1, 1, 0, 0, 0)

  /** Go's zero time.Time: January 1, year 1, 00:00:00 UTC. */
  const ZeroTime: Instant := DateTime(1, 1, 1, 0, 0, 0)

  /** The raw alarm record of the WhatsGPS "data" list; Go's float64 fields are reals here. */
  datatype WhatsGPSAlarm = WhatsGPSAlarm(
    alarmTime: Instant,
    alarmType: int,
    carId: int,
    dir: int,
    lat: real,
    latc: real,
    lon: real,
    lonc: real,
    pointTime: Instant,
    pointType: int,
    remark: string,
    speed: int,
    userName: string)

  /** Days from 1970-01-01 to the given civil date (negative before it). */
  function DaysFromCivil(y: int, m: nat, d: nat): int {
    var y' := if m <= 2 then y - 1 else y;
    var era := y' / 400;
    var yoe := y' - era * 400;
    var mp := if m > 2 then m - 3 else m + 9;
    var doy := (153 * mp + 2) / 5 + d - 1;
    var doe := yoe * 365 + yoe / 4 - yoe / 100 + doy;
    era * 146097 + doe - 719468
  }

  /** time.Time.Unix(): seconds since 1970-01-01 00:00:00 UTC. */
  function UnixSeconds(t: Instant): int {
    DaysFromCivil(t.year, t.month, t.day) * 86400 + t.hour * 3600 + t.minute * 60 + t.second
  }

  /** A "null" alarm time converts to Go's zero-time Unix value. */
  lemma ZeroTimeUnix()
    ensures UnixSeconds(ZeroTime) == -62135596800
    ensures UnixSeconds(DateTime(1970, 1, 1, 0, 0, 0)) == 0
  {
    assert DaysFromCivil(1, 1, 1) == 306 - 719468;
    assert DaysFromCivil(1970, 1, 1) == 4 * 146097 + (369 * 365 + 92 - 3 + 306) - 719468;
  }

  /** Two digits with a leading zero, as the layout's 01, 02, 04 and 05 elements print. */
  function TwoDigits(n: nat): (r: string)
    requires n < 100
    ensures |r| == 2 && AllDigits(r)
  {
    [DigitChar(n / 10), DigitChar(n % 10)]
  }

  /** Four digits with leading zeros, as the layout's 2006 element prints a year below 10000. */
  function FourDigits(n: nat): (r: string)
    requires n < 10000
    ensures |r| == 4 && AllDigits(r)
  {
    [DigitChar(n / 1000), DigitChar(n / 100 % 10), DigitChar(n / 10 % 10), DigitChar(n % 10)]
  }

  /** The layout's date half, "2006-01-02". */
  function DateText(year: nat, month: nat, day: nat): (r: string)
    requires year < 10000 && month < 100 && day < 100
    ensures |r| == 10 && r[4] == '-' && r[7] == '-' && IsDigit(r[0])
  {
    FourDigits(year) + "-" + TwoDigits(month) + "-" + TwoDigits(day)
  }

  /** The layout's clock half, "15:04:05". */
  function ClockText(hour: nat, minute: nat, second: nat): (r: string)
    requires hour < 100 && minute < 100 && second < 100
    ensures |r| == 8 && r[2] == ':' && r[5] == ':' && IsDigit(r[7])
  {
    TwoDigits(hour) + ":" + TwoDigits(minute) + ":" + TwoDigits(second)
  }

  /** time.Time.Format("2006-01-02 15:04:05"). */
  function Format(t: Instant): (r: string)
    ensures |r| == 19 && r[4] == '-' && r[7] == '-' && r[10] == ' ' && r[13] == ':' && r[16] == ':'
    ensures IsDigit(r[0]) && IsDigit(r[18])
  {
    DateText(t.year, t.month, t.day) + " " + ClockText(t.hour, t.minute, t.second)
  }

  function Num2(a: char, b: char): nat
    requires IsDigit(a) && IsDigit(b)
  {
    10 * DigitValue(a) + DigitValue(b)
  }

  /**
   * The clock part after the date and its separating spaces: an hour of one or two
   * digits (the layout's 15 element), then ":" and two-digit minutes, ":" and
   * two-digit seconds, and nothing after.
   */
  function ParseClock(rest: string): (r: Result<(nat, nat, nat), string>)
    ensures r.Success? ==> r.value.0 < 24 && r.value.1 < 60 && r.value.2 < 60
  {
    if rest == [] || !IsDigit(rest[0]) then Failure("bad hour")
    else
      var twoDigitHour := |rest| >= 2 && IsDigit(rest[1]);
      var hour := if twoDigitHour then Num2(rest[0], rest[1]) else DigitValue(rest[0]);
      var tail := if twoDigitHour then rest[2..] else rest[1..];
      if |tail| != 6 || tail[0] != ':' || tail[3] != ':' then Failure("bad clock")
      else if !(IsDigit(tail[1]) && IsDigit(tail[2]) && IsDigit(tail[4]) && IsDigit(tail[5])) then Failure("bad clock")
      else
        var minute := Num2(tail[1], tail[2]);
        var second := Num2(tail[4], tail[5]);
        if hour >= 24 then Failure("hour out of range")
        else if minute >= 60 then Failure("minute out of range")
        else if second >= 60 then Failure("second out of range")
        else Success((hour, minute, second))
  }

  /**
   * time.Parse("2006-01-02 15:04:05", x): a four-digit year, "-", a two-digit month,
   * "-", a two-digit day, one or more spaces (a space in a Go layout matches a run of
   * spaces), then the clock part; month, day, hour, minute and second are range-checked.
   */
  function ParseLayout(x: string): (r: Result<Instant, string>)
    ensures r.Success? ==> |x| >= 17 && x[10] == ' '
  {
    if |x| < 11 || !AllDigits(x[..4]) || x[4] != '-' || x[7] != '-' || x[10] != ' ' then Failure("bad date")
    else if !(IsDigit(x[5]) && IsDigit(x[6]) && IsDigit(x[8]) && IsDigit(x[9])) then Failure("bad date")
    else
      var year := 1000 * DigitValue(x[0]) + 100 * DigitValue(x[1]) + 10 * DigitValue(x[2]) + DigitValue(x[3]);
      var month := Num2(x[5], x[6]);
      var day := Num2(x[8], x[9]);
      if month < 1 || month > 12 then Failure("month out of range")
      else
        match ParseClock(TrimLeft(x[10..], ' '))
        case Failure(e) => Failure(e)
        case Success(clock) =>
          if day < 1 || day > DaysIn(month, year) then Failure("day out of range")
          else Success(DateTime(year, month, day, clock.0, clock.1, clock.2))
  }

  /**
   * CustomTime.UnmarshalJSON: strip every leading and trailing double quote; the word
   * null gives the zero time without error, anything else goes through the layout parser.
   */
  function UnmarshalCustomTime(b: string): (r: Result<Instant, string>)
    ensures Trim(b, '"') == "null" ==> r == Success(ZeroTime)
    ensures Trim(b, '"') != "null" ==> r == ParseLayout(Trim(b, '"'))
  {
    var s := Trim(b, '"');
    if s == "null" then Success(ZeroTime) else ParseLayout(s)
  }

  /**
   * CustomTime.MarshalJSON: the zero time is written as null, any other instant in the
   * layout inside one pair of double quotes.
   */
  function MarshalCustomTime(t: Instant): (r: string)
    ensures t == ZeroTime <==> r == "null"
    ensures t != ZeroTime ==> |r| == 21 && r[0] == '"' && r[20] == '"' && r[1..20] == Format(t)
  {
    if t == ZeroTime then "null" else "\"" + Format(t) + "\""
  }

  /** The four decimal digits FourDigits prints recompose the number. */
  lemma SplitFour(n: nat)
    requires n < 10000
    ensures n / 1000 < 10 && n == 1000 * (n / 1000) + 100 * (n / 100 % 10) + 10 * (n / 10 % 10) + n % 10
  {
    var q1, q2, q3 := n / 10, n / 100, n / 1000;
    assert n == 10 * q1 + n % 10;
    assert q1 / 10 == q2 && q2 / 10 == q3;
    assert q1 == 10 * q2 + q1 % 10;
    assert q2 == 10 * q3 + q2 % 10;
  }

  /** Four decimal digits are what FourDigits prints for the number they compose. */
  lemma JoinFour(a: nat, b: nat, c: nat, d: nat)
    requires a < 10 && b < 10 && c < 10 && d < 10
    ensures var n := 1000 * a + 100 * b + 10 * c + d;
      n / 1000 == a && n / 100 % 10 == b && n / 10 % 10 == c && n % 10 == d
  {
    var n := 1000 * a + 100 * b + 10 * c + d;
    assert n / 10 == 100 * a + 10 * b + c;
    assert n / 100 == 10 * a + b;
    assert n / 1000 == a;
  }

  lemma DigitsOfFourDigits(n: nat)
    requires n < 10000
    ensures var s := FourDigits(n);
      1000 * DigitValue(s[0]) + 100 * DigitValue(s[1]) + 10 * DigitValue(s[2]) + DigitValue(s[3]) == n
  {
    SplitFour(n);
  }

  lemma DigitsOfTwoDigits(n: nat)
    requires n < 100
    ensures var s := TwoDigits(n); Num2(s[0], s[1]) == n
  {
  }

  /** The clock half of the layout is read back by the clock parser. */
  lemma ParseClockText(hour: nat, minute: nat, second: nat)
    requires hour < 24 && minute < 60 && second < 60
    ensures ParseClock(ClockText(hour, minute, second)) == Success((hour, minute, second))
  {
    var c := ClockText(hour, minute, second);
    DigitsOfTwoDigits(hour);
    DigitsOfTwoDigits(minute);
    DigitsOfTwoDigits(second);
    assert c[..2] == TwoDigits(hour) && c[2..] == ":" + TwoDigits(minute) + ":" + TwoDigits(second);
  }

  /** The digits of the date half spell its year, month and day. */
  lemma DateTextDigits(year: nat, month: nat, day: nat)
    requires year < 10000 && month < 100 && day < 100
    ensures var x := DateText(year, month, day);
      && AllDigits(x[..4]) && IsDigit(x[5]) && IsDigit(x[6]) && IsDigit(x[8]) && IsDigit(x[9])
      && 1000 * DigitValue(x[0]) + 100 * DigitValue(x[1]) + 10 * DigitValue(x[2]) + DigitValue(x[3]) == year
      && Num2(x[5], x[6]) == month && Num2(x[8], x[9]) == day
  {
    var x := DateText(year, month, day);
    DigitsOfFourDigits(year);
    DigitsOfTwoDigits(month);
    DigitsOfTwoDigits(day);
    assert x[..4] == FourDigits(year);
    assert x[5..7] == TwoDigits(month);
    assert x[8..10] == TwoDigits(day);
  }

  /** The layout parser accepts a text whose digits spell an instant and gives that instant. */
  lemma ParseLayoutOfFields(x: string, t: Instant)
    requires |x| >= 11 && x[4] == '-' && x[7] == '-' && x[10] == ' '
    requires AllDigits(x[..4]) && IsDigit(x[5]) && IsDigit(x[6]) && IsDigit(x[8]) && IsDigit(x[9])
    requires 1000 * DigitValue(x[0]) + 100 * DigitValue(x[1]) + 10 * DigitValue(x[2]) + DigitValue(x[3]) == t.year
    requires Num2(x[5], x[6]) == t.month && Num2(x[8], x[9]) == t.day
    requires ParseClock(TrimLeft(x[10..], ' ')) == Success((t.hour, t.minute, t.second))
    ensures ParseLayout(x) == Success(t)
  {
  }

  /** The layout parser reads back every formatted instant. */
  lemma ParseFormat(t: Instant)
    ensures ParseLayout(Format(t)) == Success(t)
  {
    var x := Format(t);
    var date := DateText(t.year, t.month, t.day);
    var clock := ClockText(t.hour, t.minute, t.second);
    assert x[..10] == date && x[11..] == clock;
    assert
      && AllDigits(x[..4]) && IsDigit(x[5]) && IsDigit(x[6]) && IsDigit(x[8]) && IsDigit(x[9])
      && 1000 * DigitValue(x[0]) + 100 * DigitValue(x[1]) + 10 * DigitValue(x[2]) + DigitValue(x[3]) == t.year
      && Num2(x[5], x[6]) == t.month && Num2(x[8], x[9]) == t.day
    by {
      DateTextDigits(t.year, t.month, t.day);
      assert x[..4] == date[..4];
    }
    assert ParseClock(TrimLeft(x[10..], ' ')) == Success((t.hour, t.minute, t.second)) by {
      assert x[10..][1..] == clock;
      ParseClockText(t.hour, t.minute, t.second);
    }
    ParseLayoutOfFields(x, t);
  }

  /** Round trip from instants: unmarshal(marshal(t)) == t for every instant but the zero time. */
  lemma UnmarshalMarshal(t: Instant)
    requires t != ZeroTime
    ensures UnmarshalCustomTime(MarshalCustomTime(t)) == Success(t)
  {
    var f := Format(t);
    assert MarshalCustomTime(t) == ['"'] + f + ['"'];
    TrimWrapped(f, '"');
    assert f != "null" by {
      assert IsDigit(f[0]);
    }
    ParseFormat(t);
  }

  /** The zero time survives the round trip too, by way of the word null. */
  lemma UnmarshalMarshalZero()
    ensures UnmarshalCustomTime(MarshalCustomTime(ZeroTime)) == Success(ZeroTime)
  {
    assert Trim("null", '"') == "null";
  }

  /** A text in the canonical form: nineteen characters, one separating space and a two-digit hour. */
  predicate Canonical(x: string) {
    |x| == 19 && x[10] == ' ' && IsDigit(x[11]) && IsDigit(x[12])
  }

  lemma TwoDigitsOfDigits(a: char, b: char)
    requires IsDigit(a) && IsDigit(b)
    ensures TwoDigits(Num2(a, b)) == [a, b]
  {
  }

  lemma FourDigitsOfDigits(a: char, b: char, c: char, d: char)
    requires IsDigit(a) && IsDigit(b) && IsDigit(c) && IsDigit(d)
    ensures FourDigits(1000 * DigitValue(a) + 100 * DigitValue(b) + 10 * DigitValue(c) + DigitValue(d)) == [a, b, c, d]
  {
    JoinFour(DigitValue(a), DigitValue(b), DigitValue(c), DigitValue(d));
  }

  /** A date half with digits where the layout has them is the date half of what it spells. */
  lemma DateTextOfDigits(x: string)
    requires |x| == 10 && AllDigits(x[..4]) && x[4] == '-' && x[7] == '-'
    requires IsDigit(x[5]) && IsDigit(x[6]) && IsDigit(x[8]) && IsDigit(x[9])
    ensures DateText(1000 * DigitValue(x[0]) + 100 * DigitValue(x[1]) + 10 * DigitValue(x[2]) + DigitValue(x[3]),
                     Num2(x[5], x[6]), Num2(x[8], x[9])) == x
  {
    assert IsDigit(x[0]) && IsDigit(x[1]) && IsDigit(x[2]) && IsDigit(x[3]) by {
      assert x[..4][0] == x[0] && x[..4][1] == x[1] && x[..4][2] == x[2] && x[..4][3] == x[3];
    }
    FourDigitsOfDigits(x[0], x[1], x[2], x[3]);
    TwoDigitsOfDigits(x[5], x[6]);
    TwoDigitsOfDigits(x[8], x[9]);
    assert x == [x[0], x[1], x[2], x[3]] + "-" + [x[5], x[6]] + "-" + [x[8], x[9]];
  }

  /** A clock half with digits where the layout has them is the clock half of what it spells. */
  lemma ClockTextOfDigits(x: string)
    requires |x| == 8 && x[2] == ':' && x[5] == ':'
    requires IsDigit(x[0]) && IsDigit(x[1]) && IsDigit(x[3]) && IsDigit(x[4]) && IsDigit(x[6]) && IsDigit(x[7])
    ensures ClockText(Num2(x[0], x[1]), Num2(x[3], x[4]), Num2(x[6], x[7])) == x
  {
    TwoDigitsOfDigits(x[0], x[1]);
    TwoDigitsOfDigits(x[3], x[4]);
    TwoDigitsOfDigits(x[6], x[7]);
    assert x == [x[0], x[1]] + ":" + [x[3], x[4]] + ":" + [x[6], x[7]];
  }

  /** The fields a canonical text parses to, read off its digits. */
  lemma ParsedFields(x: string)
    requires Canonical(x) && ParseLayout(x).Success?
    ensures AllDigits(x[..4]) && x[4] == '-' && x[7] == '-' && x[13] == ':' && x[16] == ':'
    ensures IsDigit(x[5]) && IsDigit(x[6]) && IsDigit(x[8]) && IsDigit(x[9])
    ensures IsDigit(x[14]) && IsDigit(x[15]) && IsDigit(x[17]) && IsDigit(x[18])
    ensures var t := ParseLayout(x).value;
      t.year == 1000 * DigitValue(x[0]) + 100 * DigitValue(x[1]) + 10 * DigitValue(x[2]) + DigitValue(x[3]) &&
      t.month == Num2(x[5], x[6]) && t.day == Num2(x[8], x[9]) &&
      t.hour == Num2(x[11], x[12]) && t.minute == Num2(x[14], x[15]) && t.second == Num2(x[17], x[18])
  {
    assert TrimLeft(x[10..], ' ') == x[11..] by {
      assert x[10..][1..] == x[11..];
    }
    var rest := x[11..];
    assert rest[2..] == x[13..];
  }

  /** A canonical text that parses is reproduced exactly by formatting what it parsed to. */
  lemma FormatParse(x: string)
    requires Canonical(x) && ParseLayout(x).Success?
    ensures Format(ParseLayout(x).value) == x
  {
    var t := ParseLayout(x).value;
    ParsedFields(x);
    var date, clock := x[..10], x[11..];
    assert date[..4] == x[..4];
    DateTextOfDigits(date);
    ClockTextOfDigits(clock);
    assert x == date + " " + clock;
  }

  /** Unmarshalling a quoted canonical text is parsing the text itself. */
  lemma UnmarshalQuoted(x: string)
    requires Canonical(x) && ParseLayout(x).Success?
    ensures UnmarshalCustomTime("\"" + x + "\"") == ParseLayout(x)
  {
    ParsedFields(x);
    assert IsDigit(x[0]) by {
      assert x[..4][0] == x[0];
    }
    TrimWrapped(x, '"');
    assert "\"" + x + "\"" == ['"'] + x + ['"'];
    assert x != "null";
  }

  /** The text of the zero time in the layout. */
  const ZeroText: string := "0001-01-01 00:00:00"

  lemma FormatZeroTime()
    ensures Format(ZeroTime) == ZeroText
  {
    assert DateText(1, 1, 1) == "0001-01-01" by {
      assert DigitChar(0) == '0' && DigitChar(1) == '1';
      assert FourDigits(1) == "0001" && TwoDigits(1) == "01";
    }
    assert ClockText(0, 0, 0) == "00:00:00" by {
      assert DigitChar(0) == '0';
      assert TwoDigits(0) == "00";
    }
  }

  lemma ZeroTextIsZeroTime()
    ensures Format(ZeroTime) == ZeroText
    ensures ParseLayout(ZeroText) == Success(ZeroTime)
  {
    FormatZeroTime();
    ParseFormat(ZeroTime);
  }

  /**
   * Round trip from text: a quoted canonical timestamp comes back unchanged, except the
   * text of the zero time (`ZeroText`, see `FormatZeroTime`), which comes back as null.
   */
  lemma MarshalUnmarshal(x: string)
    requires Canonical(x) && ParseLayout(x).Success?
    ensures UnmarshalCustomTime("\"" + x + "\"").Success?
    ensures MarshalCustomTime(UnmarshalCustomTime("\"" + x + "\"").value) ==
      if x == Format(ZeroTime) then "null" else "\"" + x + "\""
  {
    UnmarshalQuoted(x);
    FormatParse(x);
    var t := ParseLayout(x).value;
    if x == Format(ZeroTime) {
      ParseFormat(ZeroTime);
      assert t == ZeroTime;
    } else {
      assert t != ZeroTime;
    }
  }
}
