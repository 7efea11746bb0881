/** Deadline resolution in `postTask` and `putTask`: the task's `tillDate` and an
    `"HH:MM"` string become one instant, and the delay until it is computed.
    Instants are integer milliseconds since the epoch on one canonical local clock
    (no daylight-saving shifts); `None` is JavaScript's `NaN` time value. */
module Deadline {
  import opened Wrappers
  import opened Decimal

  const MsPerMinute := 60000
  const MsPerHour := 3600000
  const MsPerDay := 86400000
  /** Node clamps a `setTimeout` delay above this (2^31 - 1 ms) to 1 ms. */
  const MaxTimerDelay := 2147483647

  /** Local midnight of the calendar day holding instant `t`. */
  function DayStart(t: int): (d: int)
    ensures d <= t < d + MsPerDay && d % MsPerDay == 0
  {
    t - t % MsPerDay
  }

  /** `s.split(sep)` for a one-character separator. */
  function Split(s: string, sep: char): (parts: seq<string>)
    ensures |parts| >= 1
    ensures forall i :: 0 <= i < |parts| ==> sep !in parts[i]
    decreases |s|
  {
    if s == [] then [""]
    else
      var rest := Split(s[1..], sep);
      if s[0] == sep then [""] + rest else [[s[0]] + rest[0]] + rest[1..]
  }

  /** `parts.join(sep)`, the inverse of `Split`. */
  function Join(parts: seq<string>, sep: char): string
    requires |parts| >= 1
    decreases |parts|
  {
    if |parts| == 1 then parts[0] else parts[0] + [sep] + Join(parts[1..], sep)
  }

  lemma {:induction false} JoinSplit(s: string, sep: char)
    ensures Join(Split(s, sep), sep) == s
    decreases |s|
  {
    if s != [] {
      JoinSplit(s[1..], sep);
      var rest := Split(s[1..], sep);
      if s[0] != sep && |rest| > 1 {
        assert ([[s[0]] + rest[0]] + rest[1..])[1..] == rest[1..];
      }
    }
  }

  lemma {:induction false} SplitJoin(parts: seq<string>, sep: char)
    requires |parts| >= 1
    requires forall i :: 0 <= i < |parts| ==> sep !in parts[i]
    ensures Split(Join(parts, sep), sep) == parts
    decreases |parts|, |parts[0]|
  {
    var p := parts[0];
    if p == [] {
      if |parts| > 1 {
        SplitJoin(parts[1..], sep);
        assert Join(parts, sep) == [sep] + Join(parts[1..], sep);
        assert [sep] + Join(parts[1..], sep) != [];
        assert ([sep] + Join(parts[1..], sep))[1..] == Join(parts[1..], sep);
        assert [""] + parts[1..] == parts;
      }
    } else {
      var shorter := parts[0 := p[1..]];
      assert sep !in p[1..] by { assert forall c :: c in p[1..] ==> c in p; }
      SplitJoin(shorter, sep);
      if |parts| == 1 {
        assert Join(parts, sep)[1..] == Join(shorter, sep);
      } else {
        assert shorter[1..] == parts[1..];
        assert Join(parts, sep)[1..] == Join(shorter, sep);
      }
      assert p[0] != sep by { assert p[0] in p; }
      assert [p[0]] + p[1..] == p;
      assert [[p[0]] + p[1..]] + parts[1..] == parts;
    }
  }

  /** A string without the separator splits into itself alone. */
  lemma SplitWhole(s: string, sep: char)
    ensures sep !in s ==> Split(s, sep) == [s]
  {
    if sep !in s {
      assert Join([s], sep) == s;
      SplitJoin([s], sep);
    }
  }

  /** `Number(s)` on a piece of the time string: a digit string (the empty one
      reads as 0) gives its value, anything else is `NaN`. */
  function NumberOf(s: string): (r: Option<int>)
    ensures r.Some? <==> AllDigits(s)
    ensures r.Some? ==> r.value >= 0
  {
    if AllDigits(s) then Some(ParseDigits(s)) else None
  }

  /** `const [hours, minutes] = atWhatTime.split(":").map(Number)`: a missing
      second piece is `undefined`, which `setHours` reads as `NaN`. */
  function ParseClock(atWhatTime: string): (hm: (Option<int>, Option<int>))
    ensures ':' !in atWhatTime ==> hm == (NumberOf(atWhatTime), None)
    ensures hm.0.Some? ==> hm.0.value >= 0
    ensures hm.1.Some? ==> hm.1.value >= 0
  {
    var parts := Split(atWhatTime, ':');
    SplitWhole(atWhatTime, ':');
    (NumberOf(parts[0]), if |parts| >= 2 then NumberOf(parts[1]) else None)
  }

  /** `targetDate.setHours(hours, minutes, 0, 0)` on the date `tillDate`: the
      day's midnight plus the hours and minutes, seconds and milliseconds zero.
      Hours or minutes out of range roll over into neighbouring days, as the
      Date arithmetic does; a `NaN` piece makes the whole instant `NaN`. */
  function ResolveDeadline(tillDate: int, atWhatTime: string): (target: Option<int>)
    ensures target.Some? <==> ParseClock(atWhatTime).0.Some? && ParseClock(atWhatTime).1.Some?
    ensures target.Some? ==> target.value % MsPerMinute == 0
  {
    var (hours, minutes) := ParseClock(atWhatTime);
    if hours.Some? && minutes.Some? then
      Some(DayStart(tillDate) + hours.value * MsPerHour + minutes.value * MsPerMinute)
    else None
  }

  /** `timeout = targetDate.getTime() - Date.now()`; `NaN` stays `NaN`. */
  function Timeout(target: Option<int>, now: int): (timeout: Option<int>)
    ensures timeout.Some? <==> target.Some?
    ensures timeout.Some? ==> target.value == now + timeout.value
  {
    match target
    case None => None
    case Some(t) => Some(t - now)
  }

  /** The `timeout > 0` guard of `postTask`; `NaN > 0` is false. */
  predicate IsPositive(timeout: Option<int>) {
    timeout.Some? && timeout.value > 0
  }

  /** The delay Node's `setTimeout` actually waits: `NaN`, values below 1 and
      values above 2^31 - 1 all become 1 ms. */
  function TimerDelay(timeout: Option<int>): (d: int)
    ensures 1 <= d <= MaxTimerDelay
    ensures timeout.Some? && 1 <= timeout.value <= MaxTimerDelay <==> timeout.Some? && d == timeout.value
  {
    if timeout.Some? && 1 <= timeout.value <= MaxTimerDelay then timeout.value else 1
  }

  lemma NoColonInDigits(s: string)
    requires AllDigits(s)
    ensures ':' !in s
  {
  }

  /** The text `"HH:MM"` an `<input type="time">` submits for hour `h`, minute `m`. */
  function ClockText(h: nat, m: nat): string
    requires h < 24 && m < 60
  {
    PadStart2(ShowNat(h)) + ":" + PadStart2(ShowNat(m))
  }

  lemma ParseClockDigits(hh: string, mm: string)
    requires AllDigits(hh) && AllDigits(mm)
    ensures ParseClock(hh + ":" + mm) == (Some(ParseDigits(hh) as int), Some(ParseDigits(mm) as int))
  {
    NoColonInDigits(hh);
    NoColonInDigits(mm);
    assert Join([hh, mm], ':') == hh + ":" + mm;
    SplitJoin([hh, mm], ':');
  }

  lemma ParseClockText(h: nat, m: nat)
    requires h < 24 && m < 60
    ensures ParseClock(ClockText(h, m)) == (Some(h as int), Some(m as int))
  {
    TwoDigitRoundTrip(h);
    TwoDigitRoundTrip(m);
    ParseClockDigits(PadStart2(ShowNat(h)), PadStart2(ShowNat(m)));
  }

  /** Quotient and remainder are the unique pair with `a == q * n + r`. */
  lemma DivModUnique(a: int, n: int, q: int, r: int)
    requires 0 < n && 0 <= r < n && a == q * n + r
    ensures a / n == q && a % n == r
  {
    var q0, r0 := a / n, a % n;
    assert (q - q0) * n == r0 - r;
    if q > q0 {
      MulAtLeast(q - q0, n);
    } else if q < q0 {
      MulAtLeast(q0 - q, n);
    }
  }

  lemma MulAtLeast(x: int, n: int)
    requires x >= 1 && n > 0
    ensures x * n >= n
  {
    assert x * n == (x - 1) * n + n;
  }

  /** For an in-range hour and minute the resolved instant lies on the same
      calendar day as `tillDate`, at exactly that hour and minute, with zero
      seconds and milliseconds. */
  lemma ResolvedInstant(tillDate: int, h: nat, m: nat)
    requires h < 24 && m < 60
    ensures var t := DayStart(tillDate) + h * MsPerHour + m * MsPerMinute;
      && DayStart(t) == DayStart(tillDate)
      && t % MsPerMinute == 0
      && (t - DayStart(t)) / MsPerHour == h
      && (t - DayStart(t)) % MsPerHour / MsPerMinute == m
  {
    var d := DayStart(tillDate);
    var k := d / MsPerDay;
    DivModUnique(d, MsPerDay, k, 0);
    var off := h * MsPerHour + m * MsPerMinute;
    assert 0 <= off < MsPerDay;
    var t := d + off;
    DivModUnique(t, MsPerDay, k, off);
    assert DayStart(t) == d;
    DivModUnique(t, MsPerMinute, k * 1440 + h * 60 + m, 0);
    DivModUnique(off, MsPerHour, h, m * MsPerMinute);
    DivModUnique(m * MsPerMinute, MsPerMinute, m, 0);
  }

  /** End to end: a task due on `tillDate` at `"HH:MM"` resolves to that day at
      that hour and minute. */
  lemma ResolveClockText(tillDate: int, h: nat, m: nat)
    requires h < 24 && m < 60
    ensures var target := ResolveDeadline(tillDate, ClockText(h, m));
      && target.Some?
      && DayStart(target.value) == DayStart(tillDate)
      && (target.value - DayStart(target.value)) / MsPerHour == h
      && (target.value - DayStart(target.value)) % MsPerHour / MsPerMinute == m
  {
    ParseClockText(h, m);
    ResolvedInstant(tillDate, h, m);
  }
}
