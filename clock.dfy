/** The countdown arithmetic of the chain watcher: remaining time, the alarm zone it
    falls in, and the "MM:SS" text shown on the time label and the diagnostics box. */
module Clock {

  import opened Optional

  /** The three zones of the countdown; the window turns red, yellow or neutral. */
  datatype Zone = Normal | PreAlarm | Alarm

  /** How urgent a zone is. */
  function Severity(z: Zone): nat {
    match z
    case Normal => 0
    case PreAlarm => 1
    case Alarm => 2
  }

  /** Python's `max(0, x)`: the countdowns never go below zero. */
  function ClampZero(x: int): (r: nat)
    ensures r >= x
    ensures r == 0 || r == x
  {
    if x > 0 then x else 0
  }

  /** The zone for a remaining time: the alarm threshold is tested first, and both
      thresholds are inclusive. */
  function Classify(remaining: int, alarmAt: int, preAlarmAt: int): (z: Zone)
    ensures z == Alarm <==> remaining <= alarmAt
    ensures z == PreAlarm <==> alarmAt < remaining <= preAlarmAt
    ensures z == Normal <==> alarmAt < remaining && preAlarmAt < remaining
  {
    if remaining <= alarmAt then Alarm
    else if remaining <= preAlarmAt then PreAlarm
    else Normal
  }

  /** A larger remaining time is never in a more urgent zone, whatever the thresholds. */
  lemma ClassifyMonotone(r1: int, r2: int, alarmAt: int, preAlarmAt: int)
    requires r1 <= r2
    ensures Severity(Classify(r2, alarmAt, preAlarmAt)) <= Severity(Classify(r1, alarmAt, preAlarmAt))
  {
  }

  /** With the thresholds the wrong way round the alarm zone swallows the pre-alarm zone. */
  lemma MisorderedThresholds(remaining: int, alarmAt: int, preAlarmAt: int)
    requires preAlarmAt <= alarmAt
    ensures Classify(remaining, alarmAt, preAlarmAt) != PreAlarm
  {
  }

  /** As the clock advances with no new end time, the remaining time does not grow and the
      zone does not become less urgent. */
  lemma CountdownEscalates(chainEndTime: int, now1: int, now2: int, alarmAt: int, preAlarmAt: int)
    requires now1 <= now2
    ensures ClampZero(chainEndTime - now2) <= ClampZero(chainEndTime - now1)
    ensures Severity(Classify(ClampZero(chainEndTime - now1), alarmAt, preAlarmAt))
         <= Severity(Classify(ClampZero(chainEndTime - now2), alarmAt, preAlarmAt))
  {
  }

  // Decimal text

  predicate IsDigit(c: char) {
    '0' <= c <= '9'
  }

  predicate AllDigits(s: string) {
    forall i :: 0 <= i < |s| ==> IsDigit(s[i])
  }

  function DigitValue(c: char): nat
    requires IsDigit(c)
  {
    c as int - '0' as int
  }

  function DigitChar(d: nat): (c: char)
    requires d < 10
    ensures IsDigit(c) && DigitValue(c) == d
  {
    ('0' as int + d) as char
  }

  /** The decimal digits of `n` with no leading zero, as Python's `str(n)`. */
  function Decimal(n: nat): (s: string)
    ensures 1 <= |s| && AllDigits(s)
    ensures n < 10 <==> |s| == 1
    ensures 0 < n ==> s[0] != '0'
  {
    if n < 10 then [DigitChar(n)] else Decimal(n / 10) + [DigitChar(n % 10)]
  }

  /** Python's `f"{n:02}"`: the decimal digits of `n`, zero-padded to at least two. */
  function PadTwo(n: nat): (s: string)
    ensures 2 <= |s| && AllDigits(s)
    ensures n < 100 <==> |s| == 2
    ensures 10 <= n ==> s[0] != '0'
  {
    if n < 10 then "0" + Decimal(n) else Decimal(n)
  }

  /** The value of a string of decimal digits; the reference reading of the texts above. */
  function ParseDecimal(s: string): nat
    requires AllDigits(s)
  {
    if s == [] then 0 else ParseDecimal(s[..|s| - 1]) * 10 + DigitValue(s[|s| - 1])
  }

  lemma {:induction false} DecimalRoundTrip(n: nat)
    ensures ParseDecimal(Decimal(n)) == n
  {
    if n >= 10 {
      var s := Decimal(n);
      assert s[..|s| - 1] == Decimal(n / 10);
      DecimalRoundTrip(n / 10);
    }
  }

  lemma {:induction false} LeadingZero(s: string)
    requires AllDigits(s)
    ensures AllDigits("0" + s) && ParseDecimal("0" + s) == ParseDecimal(s)
  {
    if s != [] {
      var t := "0" + s;
      assert t[..|t| - 1] == "0" + s[..|s| - 1];
      LeadingZero(s[..|s| - 1]);
    }
  }

  /** Padding loses nothing: the padded text reads back as the number. */
  lemma PadTwoRoundTrip(n: nat)
    ensures ParseDecimal(PadTwo(n)) == n
  {
    DecimalRoundTrip(n);
    if n < 10 {
      LeadingZero(Decimal(n));
    }
  }

  // The MM:SS display

  const TimerPrefix: string := "T-: "
  const BackupPrefix: string := "Backup Timer: "
  const BackupDisabledText: string := "Backup Timer: Disabled"

  /** `divmod(t, 60)` shown as "MM:SS", each part zero-padded to two digits. */
  function ClockText(t: nat): (c: string)
    ensures 5 <= |c| && c[|c| - 3] == ':' && AllDigits(c[|c| - 2..])
    ensures t < 6000 <==> |c| == 5
    ensures 600 <= t ==> c[0] != '0'
  {
    PadTwo(t / 60) + ":" + PadTwo(t % 60)
  }

  /** The time label: "T-: 00:00" once nothing is left, otherwise the prefix and "MM:SS". */
  function TimerText(remaining: int): (t: string)
    ensures 9 <= |t| && t[..|TimerPrefix|] == TimerPrefix
  {
    if remaining <= 0 then "T-: 00:00" else TimerPrefix + ClockText(remaining)
  }

  /** The diagnostics box text for the backup countdown; enabled or not, it starts with
      "Backup Timer: ". */
  function BackupText(enabled: bool, backup: nat): (t: string)
    ensures |BackupPrefix| < |t| && t[..|BackupPrefix|] == BackupPrefix
    ensures !enabled ==> t[|BackupPrefix|..] == "Disabled"
  {
    if enabled then BackupPrefix + ClockText(backup) else BackupDisabledText
  }

  /** Reads "MM:SS" back: the last two characters are the seconds, everything before the
      colon the minutes. */
  function ReadClock(c: string): Option<nat> {
    if 5 <= |c| && c[|c| - 3] == ':' && AllDigits(c[..|c| - 3]) && AllDigits(c[|c| - 2..])
    then Some(ParseDecimal(c[..|c| - 3]) * 60 + ParseDecimal(c[|c| - 2..]))
    else None
  }

  /** The clock text has exactly two second digits, showing a value below 60, and it
      reads back as the number of seconds it was made from. */
  lemma ClockRoundTrip(t: nat)
    ensures var c := ClockText(t); 5 <= |c| && ParseDecimal(c[|c| - 2..]) < 60
    ensures ReadClock(ClockText(t)) == Some(t)
  {
    var m, s := PadTwo(t / 60), PadTwo(t % 60);
    var c := m + ":" + s;
    assert c[..|c| - 3] == m;
    assert c[|c| - 2..] == s;
    PadTwoRoundTrip(t / 60);
    PadTwoRoundTrip(t % 60);
  }

  /** The special case for zero is the general format: "T-: 00:00" is the prefix plus
      the clock text of 0. */
  lemma TimerTextUniform(remaining: nat)
    ensures TimerText(remaining) == TimerPrefix + ClockText(remaining)
  {
  }

  /** The time label always starts with "T-: " and reads back as the remaining time. */
  lemma TimerTextRoundTrip(remaining: nat)
    ensures var t := TimerText(remaining); |t| >= |TimerPrefix| && t[..|TimerPrefix|] == TimerPrefix
    ensures TimerText(remaining)[|TimerPrefix|..] == ClockText(remaining)
    ensures ReadClock(TimerText(remaining)[|TimerPrefix|..]) == Some(remaining)
  {
    TimerTextUniform(remaining);
    var t := TimerText(remaining);
    assert t[|TimerPrefix|..] == ClockText(remaining);
    ClockRoundTrip(remaining);
  }

  /** With the backup timer enabled the diagnostics box reads back as the backup time. */
  lemma BackupTextRoundTrip(backup: nat)
    ensures var t := BackupText(true, backup); |t| >= |BackupPrefix| && t[..|BackupPrefix|] == BackupPrefix
    ensures BackupText(true, backup)[|BackupPrefix|..] == ClockText(backup)
    ensures ReadClock(BackupText(true, backup)[|BackupPrefix|..]) == Some(backup)
  {
    var t := BackupText(true, backup);
    assert t[|BackupPrefix|..] == ClockText(backup);
    ClockRoundTrip(backup);
  }

  /** Concrete displays: zero, and 125 seconds as two minutes five. */
  lemma TimerTextExamples()
    ensures TimerText(0) == "T-: 00:00"
    ensures TimerText(125) == "T-: 02:05"
    ensures BackupText(true, 0) == "Backup Timer: 00:00"
  {
  }
}
