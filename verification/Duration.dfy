/** ISO 8601 durations of privileged role activations. */
module Duration {
  import opened Documents

  const DEFAULT_SECONDS := 8 * 3600

  /** A `timedelta` holds fewer seconds than this; 999999999 days are its most. */
  const TOO_LONG := 1_000_000_000 * 86400

  predicate IsDigit(c: char) {
    '0' <= c <= '9'
  }

  predicate AllDigits(s: string) {
    forall i | 0 <= i < |s| :: IsDigit(s[i])
  }

  /** The number a string of digits denotes. */
  function Value(s: string): nat
    requires AllDigits(s)
  {
    if s == "" then 0 else 10 * Value(s[..|s| - 1]) + (s[|s| - 1] as int - '0' as int)
  }

  /** The length of the leading run of digits. */
  function Run(s: string): (n: nat)
    ensures n <= |s| && AllDigits(s[..n]) && (n < |s| ==> !IsDigit(s[n]))
  {
    if s == "" || !IsDigit(s[0]) then 0 else 1 + Run(s[1..])
  }

  /** An optional `(\d+)X` group: its value, zero when absent, and what is left of the string. */
  function Component(s: string, designator: char): (r: (nat, string))
    ensures |r.1| <= |s|
  {
    var n := Run(s);
    if n > 0 && n < |s| && s[n] == designator then (Value(s[..n]), s[n + 1..]) else (0, s)
  }

  function SkipT(s: string): string {
    if s != "" && s[0] == 'T' then s[1..] else s
  }

  /** The seconds the groups of the pattern add up to. Anything behind the last group is ignored. */
  function Parse(s: string): nat {
    if s == "" || s[0] != 'P' then DEFAULT_SECONDS
    else
      var (days, afterDays) := Component(s[1..], 'D');
      days * 86400 + ParseTime(SkipT(afterDays))
  }

  function ParseTime(s: string): nat {
    var (hours, afterHours) := Component(s, 'H');
    var (minutes, afterMinutes) := Component(afterHours, 'M');
    var (seconds, _) := Component(afterMinutes, 'S');
    hours * 3600 + minutes * 60 + seconds
  }

  /** `_parse_iso_duration`, in seconds; `None` is the `OverflowError` of `timedelta`. */
  function ParseDuration(s: string): Option<nat> {
    Delta(Parse(s))
  }

  function Delta(seconds: nat): Option<nat> {
    if seconds < TOO_LONG then Some(seconds) else None
  }

  // ---- Printing ----

  /** The decimal digits of a number, without leading zeros. */
  function Digits(n: nat): (s: string)
    ensures s != "" && AllDigits(s)
  {
    var last := [('0' as int + n % 10) as char];
    if n < 10 then last else Digits(n / 10) + last
  }

  lemma {:induction false} DigitsValue(n: nat)
    ensures Value(Digits(n)) == n
    decreases n
  {
    var s := Digits(n);
    if n >= 10 {
      DigitsValue(n / 10);
      assert s[..|s| - 1] == Digits(n / 10);
    } else {
      assert s[..|s| - 1] == "";
    }
  }

  /** A printed component, or nothing. */
  function Part(digits: Option<string>, designator: char): string {
    if digits.Some? then digits.value + [designator] else ""
  }

  predicate Digital(digits: Option<string>) {
    digits.Some? ==> digits.value != "" && AllDigits(digits.value)
  }

  function Amount(digits: Option<string>): nat
    requires Digital(digits)
  {
    if digits.Some? then Value(digits.value) else 0
  }

  lemma {:induction false} RunOf(digits: string, rest: string)
    requires AllDigits(digits) && (rest != "" ==> !IsDigit(rest[0]))
    ensures Run(digits + rest) == |digits|
    decreases |digits|
  {
    var s := digits + rest;
    if digits == "" {
      assert s == rest;
    } else {
      assert s[1..] == digits[1..] + rest && s[0] == digits[0];
      RunOf(digits[1..], rest);
    }
  }

  /** What follows a component: its own printed form is read back, another component's is left alone. */
  predicate Follows(rest: string, designator: char) {
    rest == "" || !IsDigit(rest[0]) || (Run(rest) < |rest| && rest[Run(rest)] != designator)
  }

  lemma ReadPart(digits: Option<string>, designator: char, rest: string)
    requires Digital(digits) && !IsDigit(designator)
    requires digits.None? ==> Follows(rest, designator)
    ensures Component(Part(digits, designator) + rest, designator) == (Amount(digits), rest)
  {
    var s := Part(digits, designator) + rest;
    if digits.Some? {
      var d := digits.value;
      assert s == d + ([designator] + rest);
      RunOf(d, [designator] + rest);
      assert s[..|d|] == d && s[|d|] == designator && s[|d| + 1..] == rest;
    } else {
      assert s == rest;
    }
  }

  /** A printed list of components begins with the first one present. */
  lemma PartsFollow(digits: Option<string>, designator: char, rest: string, other: char)
    requires Digital(digits) && !IsDigit(designator) && designator != other && Follows(rest, other)
    ensures Follows(Part(digits, designator) + rest, other)
  {
    var s := Part(digits, designator) + rest;
    if digits.Some? {
      var d := digits.value;
      assert s == d + ([designator] + rest);
      RunOf(d, [designator] + rest);
      assert s[|d|] == designator;
    } else {
      assert s == rest;
    }
  }

  function PrintedTime(h: Option<string>, m: Option<string>, s: Option<string>): string {
    Part(h, 'H') + (Part(m, 'M') + (Part(s, 'S') + ""))
  }

  /** A designator string: days, then after the `T` hours, minutes and seconds, each present or not. */
  function Printed(d: Option<string>, h: Option<string>, m: Option<string>, s: Option<string>): string {
    "P" + (Part(d, 'D') + ("T" + PrintedTime(h, m, s)))
  }

  lemma ParsePrintedTime(h: Option<string>, m: Option<string>, s: Option<string>)
    requires Digital(h) && Digital(m) && Digital(s)
    ensures ParseTime(PrintedTime(h, m, s)) == Amount(h) * 3600 + Amount(m) * 60 + Amount(s)
  {
    var seconds := Part(s, 'S') + "";
    var minutes := Part(m, 'M') + seconds;
    PartsFollow(s, 'S', "", 'M');
    PartsFollow(s, 'S', "", 'H');
    PartsFollow(m, 'M', seconds, 'H');
    ReadPart(h, 'H', minutes);
    ReadPart(m, 'M', seconds);
    ReadPart(s, 'S', "");
  }

  lemma ParseSplit(days: string, rest: string)
    requires Component(days, 'D').1 == "T" + rest
    ensures Parse("P" + days) == Component(days, 'D').0 * 86400 + ParseTime(rest)
  {
    var s, t := "P" + days, "T" + rest;
    assert s != "" && s[0] == 'P' && s[1..] == days;
    assert SkipT(t) == rest;
  }

  lemma SecondsPrinted(d: Option<string>, h: Option<string>, m: Option<string>, s: Option<string>)
    requires Digital(d) && Digital(h) && Digital(m) && Digital(s)
    ensures Parse(Printed(d, h, m, s)) == Total(d, h, m, s)
  {
    var time := PrintedTime(h, m, s);
    ParsePrintedTime(h, m, s);
    ParseDays(d, time);
  }

  function Total(d: Option<string>, h: Option<string>, m: Option<string>, s: Option<string>): nat
    requires Digital(d) && Digital(h) && Digital(m) && Digital(s)
  {
    Amount(d) * 86400 + Amount(h) * 3600 + Amount(m) * 60 + Amount(s)
  }

  lemma DeltaOf(text: string, total: nat)
    requires Parse(text) == total
    ensures ParseDuration(text) == Delta(total)
  {
  }

  /** Every designator string is read as the amounts it names, leading zeros allowed, unless they add up to too much. */
  lemma ParsePrinted(d: Option<string>, h: Option<string>, m: Option<string>, s: Option<string>)
    requires Digital(d) && Digital(h) && Digital(m) && Digital(s)
    ensures ParseDuration(Printed(d, h, m, s)) == Delta(Total(d, h, m, s))
  {
    SecondsPrinted(d, h, m, s);
    DeltaOf(Printed(d, h, m, s), Total(d, h, m, s));
  }

  lemma ParseDays(d: Option<string>, time: string)
    requires Digital(d)
    ensures Parse("P" + (Part(d, 'D') + ("T" + time))) == Amount(d) * 86400 + ParseTime(time)
  {
    var rest := "T" + time;
    assert rest[0] == 'T' && Follows(rest, 'D');
    ReadPart(d, 'D', rest);
    ParseSplit(Part(d, 'D') + rest, time);
  }

  function Shown(n: nat, show: bool): Option<string> {
    if show then Some(Digits(n)) else None
  }

  lemma ShownAmount(n: nat, show: bool)
    requires show || n == 0
    ensures Digital(Shown(n, show)) && Amount(Shown(n, show)) == n
  {
    DigitsValue(n);
  }

  lemma ShownTotal(d: nat, h: nat, m: nat, s: nat, showD: bool, showH: bool, showM: bool, showS: bool)
    requires (showD || d == 0) && (showH || h == 0) && (showM || m == 0) && (showS || s == 0)
    ensures Digital(Shown(d, showD)) && Digital(Shown(h, showH)) && Digital(Shown(m, showM)) && Digital(Shown(s, showS))
    ensures Total(Shown(d, showD), Shown(h, showH), Shown(m, showM), Shown(s, showS)) ==
            d * 86400 + h * 3600 + m * 60 + s
  {
    ShownAmount(d, showD);
    ShownAmount(h, showH);
    ShownAmount(m, showM);
    ShownAmount(s, showS);
  }

  lemma PrintedTotal(d: Option<string>, h: Option<string>, m: Option<string>, s: Option<string>, total: nat)
    requires Digital(d) && Digital(h) && Digital(m) && Digital(s) && Total(d, h, m, s) == total
    ensures ParseDuration(Printed(d, h, m, s)) ==
            if total < 86_400_000_000_000 then Some(total) else None
  {
    ParsePrinted(d, h, m, s);
    DeltaBound(total);
  }

  /** Parsing undoes printing, whichever zero components the printed form omits, exactly for the durations a
      `timedelta` can hold; it raises for the others. */
  lemma ParseUndoesPrinting(d: nat, h: nat, m: nat, s: nat, showD: bool, showH: bool, showM: bool, showS: bool,
                            total: nat)
    requires (showD || d == 0) && (showH || h == 0) && (showM || m == 0) && (showS || s == 0)
    requires total == d * 86400 + h * 3600 + m * 60 + s
    ensures ParseDuration(Printed(Shown(d, showD), Shown(h, showH), Shown(m, showM), Shown(s, showS))) ==
            if total < 86_400_000_000_000 then Some(total) else None
  {
    ShownTotal(d, h, m, s, showD, showH, showM, showS);
    PrintedTotal(Shown(d, showD), Shown(h, showH), Shown(m, showM), Shown(s, showS), total);
  }

  lemma DeltaBound(total: nat)
    ensures Delta(total) == if total < 86_400_000_000_000 then Some(total) else None
  {
  }

  /** Digits with another designator behind them are no component of this one. */
  lemma NotThis(digits: string, unit: char, rest: string, designator: char)
    requires digits != "" && AllDigits(digits) && !IsDigit(unit) && unit != designator
    ensures Component(digits + ([unit] + rest), designator) == (0, digits + ([unit] + rest))
  {
    var s := digits + ([unit] + rest);
    RunOf(digits, [unit] + rest);
    assert s[|digits|] == unit;
  }

  lemma ThisOne(digits: string, unit: char, rest: string)
    requires digits != "" && AllDigits(digits) && !IsDigit(unit)
    ensures Component(digits + ([unit] + rest), unit) == (Value(digits), rest)
  {
    var s := digits + ([unit] + rest);
    RunOf(digits, [unit] + rest);
    assert s[..|digits|] == digits && s[|digits|] == unit && s[|digits| + 1..] == rest;
  }

  /** A duration that begins with a number and a designator. */
  function Leading(digits: string, unit: char, rest: string): string {
    "P" + (digits + ([unit] + rest))
  }

  /** If that designator is not the days', all of it is read as a time. */
  lemma OnlyTime(digits: string, unit: char, rest: string)
    requires digits != "" && AllDigits(digits) && !IsDigit(unit) && unit != 'D'
    ensures Parse(Leading(digits, unit, rest)) == ParseTime(digits + ([unit] + rest))
  {
    var s := digits + ([unit] + rest);
    NotThis(digits, unit, rest, 'D');
    assert ("P" + s)[1..] == s && IsDigit(s[0]);
    assert SkipT(s) == s;
  }

  lemma YearsTime(digits: string, unit: char, rest: string)
    requires digits != "" && AllDigits(digits) && (unit == 'W' || unit == 'Y')
    ensures ParseTime(digits + ([unit] + rest)) == 0
  {
    NotThis(digits, unit, rest, 'H');
    NotThis(digits, unit, rest, 'M');
    NotThis(digits, unit, rest, 'S');
  }

  /** A duration that begins with years or weeks counts as nothing, whatever follows them. */
  lemma YearsAndWeeks(digits: string, unit: char, rest: string)
    requires digits != "" && AllDigits(digits) && (unit == 'W' || unit == 'Y')
    ensures ParseDuration(Leading(digits, unit, rest)) == Delta(0)
  {
    OnlyTime(digits, unit, rest);
    YearsTime(digits, unit, rest);
    DeltaOf(Leading(digits, unit, rest), 0);
  }

  lemma MonthsTime(digits: string, rest: string, total: nat)
    requires digits != "" && AllDigits(digits) && total == Value(digits) * 60 + Component(rest, 'S').0
    ensures ParseTime(digits + (['M'] + rest)) == total
  {
    NotThis(digits, 'M', rest, 'H');
    ThisOne(digits, 'M', rest);
  }

  lemma MonthsParse(digits: string, rest: string, total: nat)
    requires digits != "" && AllDigits(digits) && ParseTime(digits + (['M'] + rest)) == total
    ensures ParseDuration(Leading(digits, 'M', rest)) == Delta(total)
  {
    OnlyTime(digits, 'M', rest);
    DeltaOf(Leading(digits, 'M', rest), total);
  }

  /** The part of a duration behind its months: days, then nothing or a `T` and anything. */
  predicate DaysAndTime(d: Option<string>, time: string) {
    Digital(d) && (time == "" || time[0] == 'T')
  }

  lemma NoSeconds(d: Option<string>, time: string)
    requires DaysAndTime(d, time)
    ensures Component(Part(d, 'D') + time, 'S').0 == 0
  {
    if d.Some? {
      assert Part(d, 'D') + time == d.value + (['D'] + time);
      NotThis(d.value, 'D', time, 'S');
    } else {
      assert Part(d, 'D') + time == time;
    }
  }

  /** Months are read as minutes, and the days and times behind them are not read at all. */
  lemma Months(digits: string, d: Option<string>, time: string, total: nat)
    requires digits != "" && AllDigits(digits) && DaysAndTime(d, time) && total == Value(digits) * 60
    ensures ParseDuration(Leading(digits, 'M', Part(d, 'D') + time)) == Delta(total)
  {
    var rest := Part(d, 'D') + time;
    NoSeconds(d, time);
    MonthsTime(digits, rest, total);
    MonthsParse(digits, rest, total);
  }

  /** A date part other than days at the front of a duration is misread and hides what follows it: years and weeks
      count as nothing, months as minutes, and the days and times behind them not at all. */
  lemma OtherDateParts(digits: string, unit: char, d: Option<string>, time: string)
    requires digits != "" && AllDigits(digits) && DaysAndTime(d, time)
    ensures unit == 'W' || unit == 'Y' ==> ParseDuration(Leading(digits, unit, Part(d, 'D') + time)) == Delta(0)
    ensures unit == 'M' ==> ParseDuration(Leading(digits, unit, Part(d, 'D') + time)) == Delta(Value(digits) * 60)
  {
    if unit == 'M' {
      Months(digits, d, time, Value(digits) * 60);
    } else if unit == 'W' || unit == 'Y' {
      YearsAndWeeks(digits, unit, Part(d, 'D') + time);
    }
  }

  // ---- Sessions ----

  /** A date a number of seconds later; `None` is the `OverflowError` behind the last date there is. */
  function Later(at: int, seconds: nat, latest: int): Option<int> {
    if at + seconds <= latest then Some(at + seconds) else None
  }

  /** The expiry of an activation, in seconds, `latest` being the last date there is. `end` is the text of an end
      date, if any, and `endTime` what it parses to. `None` is an `OverflowError`. */
  function Expiry(activation: int, latest: int, end: string, endTime: Option<int>, duration: string): Option<int> {
    if end != "" && endTime.Some? then endTime
    else if end == "" && duration != "" then
      match ParseDuration(duration)
      case Some(seconds) => Later(activation, seconds, latest)
      case None => None
    else Later(activation, DEFAULT_SECONDS, latest)
  }

  /** `int(x / 60)`: truncation toward zero. */
  function Minutes(seconds: int): int {
    if seconds >= 0 then seconds / 60 else -((-seconds) / 60)
  }

  /** The minutes are whole ones, dropped toward zero. */
  lemma MinutesTruncate(seconds: int)
    ensures seconds >= 0 ==> 60 * Minutes(seconds) <= seconds < 60 * Minutes(seconds) + 60
    ensures seconds <= 0 ==> 60 * Minutes(seconds) - 60 < seconds <= 60 * Minutes(seconds)
  {
  }

  /** A session expires before it is activated exactly when it has a readable end date before its activation:
      never on account of its duration. It lasts eight hours when its end date cannot be read, whatever its duration,
      when it has neither, or when it has a duration without the leading letter. */
  lemma ExpiresBeforeActivation(activation: int, latest: int, end: string, endTime: Option<int>, duration: string)
    ensures var expiry := Expiry(activation, latest, end, endTime, duration);
            expiry.Some? && expiry.value < activation <==> end != "" && endTime.Some? && endTime.value < activation
    ensures (end != "" && endTime.None?) || (end == "" && (duration == "" || duration[0] != 'P')) ==>
              Expiry(activation, latest, end, endTime, duration) ==
              if activation + 28800 <= latest then Some(activation + 28800) else None
    ensures end != "" && endTime.Some? ==> Expiry(activation, latest, end, endTime, duration) == endTime
  {
  }

  lemma MinutesOf(d: nat, h: nat, m: nat, s: nat)
    requires s < 60
    ensures Minutes(d * 86400 + h * 3600 + m * 60 + s) == d * 1440 + h * 60 + m
  {
  }

  lemma SessionOf(activation: int, latest: int, duration: string, total: nat)
    requires duration != "" && ParseDuration(duration) == Delta(total)
    ensures Expiry(activation, latest, "", None, duration) ==
            if total < TOO_LONG && activation + total <= latest then Some(activation + total) else None
  {
  }

  /** A designator string gives its own length, as far as dates go, and the session's minutes drop only the odd
      seconds. */
  lemma PrintedSession(activation: int, latest: int, d: Option<string>, h: Option<string>, m: Option<string>,
                       s: Option<string>, duration: string)
    requires Digital(d) && Digital(h) && Digital(m) && Digital(s) && Amount(s) < 60
    requires duration == Printed(d, h, m, s)
    ensures var total := Total(d, h, m, s);
            && Expiry(activation, latest, "", None, duration) ==
               (if total < TOO_LONG && activation + total <= latest then Some(activation + total) else None)
            && Minutes(total) == Amount(d) * 1440 + Amount(h) * 60 + Amount(m)
  {
    ParsePrinted(d, h, m, s);
    SessionOf(activation, latest, duration, Total(d, h, m, s));
    MinutesOf(Amount(d), Amount(h), Amount(m), Amount(s));
  }
}
