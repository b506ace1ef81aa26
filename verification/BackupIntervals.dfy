/** Intervals and times of day of backup policies (yandex/backup_helpers.go): conversion to seconds
    in place, printing, validating and parsing. */
module BackupIntervals {
  import opened GoText

  datatype Unit = Unspecified | Seconds | Minutes | Hours | Days | Weeks | Months

  datatype IntervalValue = IntervalValue(unit: Unit, count: int)

  /** The seconds in one unit; a month is 30 days. An interval without a unit counts seconds. */
  function SecondsPer(u: Unit): int {
    match u
    case Months => 2592000
    case Weeks => 604800
    case Days => 86400
    case Hours => 3600
    case Minutes => 60
    case _ => 1
  }

  function Duration(v: IntervalValue): int {
    v.count * SecondsPer(v.unit)
  }

  /** The interval in seconds, in int64 arithmetic. */
  function Adjusted(v: IntervalValue): IntervalValue {
    IntervalValue(Seconds, Wrap(W64, Duration(v)))
  }

  /** An interval message; the count is an int64. */
  class Interval {
    var unit: Unit
    var count: int

    constructor (unit: Unit, count: int)
      requires Fits(W64, count)
      ensures View() == IntervalValue(unit, count)
    {
      this.unit, this.count := unit, count;
    }

    function View(): IntervalValue
      reads this
    {
      IntervalValue(unit, count)
    }
  }

  /** resourceYandexBackupIntervalSchedulingAdjust: the argument itself is changed. */
  method Adjust(interval: Interval?) returns (r: Interval?)
    modifies interval
    ensures r == interval
    ensures interval != null ==> interval.View() == Adjusted(old(interval.View()))
  {
    if interval == null {
      return null;
    }
    var multiplier := 1;
    var t := interval.unit;
    if t == Months || t == Weeks {
      multiplier := multiplier * if t == Months then 30 else 7;
    }
    if t in {Months, Weeks, Days} {
      multiplier := multiplier * 24;
    }
    if t in {Months, Weeks, Days, Hours} {
      multiplier := multiplier * 60;
    }
    if t in {Months, Weeks, Days, Hours, Minutes} {
      multiplier := multiplier * 60;
    }
    assert multiplier == SecondsPer(t);
    interval.unit := Seconds;
    interval.count := Wrap(W64, interval.count * multiplier);
    return interval;
  }

  /** Adjusting keeps the duration exactly when it fits 64 bits, which it does for every unit up to
      (2^63 - 1) / 2592000 of them. */
  lemma AdjustKeepsDuration(v: IntervalValue)
    ensures Duration(Adjusted(v)) == Duration(v) <==> Fits(W64, Duration(v))
    ensures -0x7fff_ffff_ffff_ffff / 2592000 < v.count <= 0x7fff_ffff_ffff_ffff / 2592000 ==>
              Fits(W64, Duration(v))
  {
  }

  /** The units are what they are called: an interval adjusts to the same seconds as its length in the
      next smaller unit, and seconds stay as they are. */
  lemma UnitsAgree(n: int)
    ensures Fits(W64, n) ==> Adjusted(IntervalValue(Seconds, n)) == IntervalValue(Seconds, n)
    ensures Adjusted(IntervalValue(Unspecified, n)) == Adjusted(IntervalValue(Seconds, n))
    ensures Adjusted(IntervalValue(Minutes, n)) == Adjusted(IntervalValue(Seconds, 60 * n))
    ensures Adjusted(IntervalValue(Hours, n)) == Adjusted(IntervalValue(Minutes, 60 * n))
    ensures Adjusted(IntervalValue(Days, n)) == Adjusted(IntervalValue(Hours, 24 * n))
    ensures Adjusted(IntervalValue(Weeks, n)) == Adjusted(IntervalValue(Days, 7 * n))
    ensures Adjusted(IntervalValue(Months, n)) == Adjusted(IntervalValue(Days, 30 * n))
  {
  }

  lemma AdjustIdempotent(v: IntervalValue)
    ensures Adjusted(Adjusted(v)) == Adjusted(v)
  {
  }

  // ---------- printing and parsing ----------

  function UnitLetter(u: Unit): string {
    match u
    case Seconds => "s"
    case Minutes => "m"
    case Hours => "h"
    case Days => "d"
    case Weeks => "w"
    case Months => "M"
    case Unspecified => ""
  }

  /** flattenBackupInterval */
  function PrintInterval(v: Option<IntervalValue>): string {
    if v.None? then "" else Itoa(v.value.count) + UnitLetter(v.value.unit)
  }

  function UnitOfLetter(c: char): Unit {
    match c
    case 's' => Seconds
    case 'm' => Minutes
    case 'h' => Hours
    case 'd' => Days
    case 'w' => Weeks
    case 'M' => Months
    case _ => Unspecified
  }

  /** The template ^(\d+)([smMhdw])$ */
  predicate MatchesTemplate(s: string) {
    |s| >= 2 && AllDigits(s[..|s| - 1]) && UnitOfLetter(s[|s| - 1]) != Unspecified
  }

  /** resourceYandexBackupIntervalValidationFunc reports no error. */
  predicate ValidInterval(s: string) {
    s == "" || MatchesTemplate(s)
  }

  /** expandBackupPolicySettingsInterval: nil for text that does not match; panics when the digits
      overflow an int64. */
  function ParseInterval(s: string): Result<Option<IntervalValue>> {
    if s == "" || !MatchesTemplate(s) then Ok(None)
    else
      var n := Decimal(s[..|s| - 1]);
      if Fits(W64, n) then Ok(Some(IntervalValue(UnitOfLetter(s[|s| - 1]), n))) else Err(Panic)
  }

  predicate Printable(v: IntervalValue) {
    v.count >= 0 && v.unit != Unspecified
  }

  lemma PrintedParts(v: IntervalValue)
    requires v.unit != Unspecified
    ensures var s := PrintInterval(Some(v));
            |s| >= 2 && s[..|s| - 1] == Itoa(v.count) && UnitOfLetter(s[|s| - 1]) == v.unit
  {
  }

  /** The printed text passes validation, and reads back as the interval, exactly for counts that are
      not negative in a known unit. */
  lemma PrintedIntervalReadsBack(v: IntervalValue)
    requires Fits(W64, v.count)
    ensures ValidInterval(PrintInterval(Some(v))) <==> Printable(v)
    ensures ParseInterval(PrintInterval(Some(v))) == Ok(Some(v)) <==> Printable(v)
  {
    if v.unit == Unspecified {
      var s := PrintInterval(Some(v));
      assert s == Itoa(v.count);
      assert s[|s| - 1] in s;
    } else {
      PrintedParts(v);
      if v.count < 0 {
        assert Itoa(v.count)[0] == '-';
      }
    }
  }

  /** Printing tells any two intervals in known units apart. */
  lemma PrintIntervalInjective(a: IntervalValue, b: IntervalValue)
    requires a.unit != Unspecified && b.unit != Unspecified
    requires Fits(W64, a.count) && Fits(W64, b.count)
    requires PrintInterval(Some(a)) == PrintInterval(Some(b))
    ensures a == b
  {
    PrintedParts(a);
    PrintedParts(b);
    AtoiInvertsItoa(a.count);
    AtoiInvertsItoa(b.count);
  }

  /** Any digits may stand before the letter of a unit; m and M are two of them. */
  lemma LettersOfUnits(digits: string)
    requires digits != "" && AllDigits(digits) && Fits(W64, Decimal(digits))
    ensures ParseInterval(digits + "s") == Ok(Some(IntervalValue(Seconds, Decimal(digits))))
    ensures ParseInterval(digits + "m") == Ok(Some(IntervalValue(Minutes, Decimal(digits))))
    ensures ParseInterval(digits + "h") == Ok(Some(IntervalValue(Hours, Decimal(digits))))
    ensures ParseInterval(digits + "d") == Ok(Some(IntervalValue(Days, Decimal(digits))))
    ensures ParseInterval(digits + "w") == Ok(Some(IntervalValue(Weeks, Decimal(digits))))
    ensures ParseInterval(digits + "M") == Ok(Some(IntervalValue(Months, Decimal(digits))))
    ensures forall letter | letter in "smhdwM" :: ValidInterval(digits + [letter])
  {
    LetterIsRead(digits, 's');
    LetterIsRead(digits, 'm');
    LetterIsRead(digits, 'h');
    LetterIsRead(digits, 'd');
    LetterIsRead(digits, 'w');
    LetterIsRead(digits, 'M');
  }

  lemma LetterIsRead(digits: string, letter: char)
    requires digits != "" && AllDigits(digits) && Fits(W64, Decimal(digits)) && UnitOfLetter(letter) != Unspecified
    ensures ParseInterval(digits + [letter]) == Ok(Some(IntervalValue(UnitOfLetter(letter), Decimal(digits))))
    ensures ValidInterval(digits + [letter])
  {
    var s := digits + [letter];
    assert s[..|s| - 1] == digits;
  }

  /** Whatever text is read as an interval, printing it gives a text that is read alike. */
  lemma ParsedIntervalPrints(s: string)
    requires ParseInterval(s).Ok?
    ensures ParseInterval(PrintInterval(ParseInterval(s).value)) == ParseInterval(s)
  {
    var v := ParseInterval(s).value;
    if v.Some? {
      PrintedIntervalReadsBack(v.value);
    }
  }

  /** Validated text is read without a panic exactly when its number fits an int64: validation alone
      does not prevent the panic. */
  lemma ValidTextParses(s: string)
    requires ValidInterval(s)
    ensures ParseInterval(s).Ok? <==> s == "" || Fits(W64, Decimal(s[..|s| - 1]))
  {
  }

  /** A number of seconds of 2^63 or more is such a text. */
  lemma ValidTextMayPanic(n: nat)
    ensures ValidInterval(Itoa(n) + "s")
    ensures ParseInterval(Itoa(n) + "s") == Err(Panic) <==> n >= 0x8000_0000_0000_0000
  {
  }

  // ---------- time of day ----------

  datatype TimeOfDay = TimeOfDay(hour: int, minute: int)

  function Pad2(n: int): string {
    if 0 <= n < 10 then "0" + Itoa(n) else Itoa(n)
  }

  /** flattenBackupPolicySettingsTimeOfDay */
  function PrintTimeOfDay(t: Option<TimeOfDay>): string {
    if t.None? then "" else Pad2(t.value.hour) + ":" + Pad2(t.value.minute)
  }

  /** Where the minutes of a clock text start: the hour has one or two digits. */
  function HourDigits(s: string): nat {
    if |s| >= 2 && IsDigit(s[0]) && IsDigit(s[1]) then 2
    else if |s| >= 1 && IsDigit(s[0]) then 1
    else 0
  }

  /** time.Parse("15:04", s), and nil for the empty text. */
  function ParseTimeOfDay(s: string): Result<Option<TimeOfDay>> {
    if s == "" then Ok(None)
    else
      var h := HourDigits(s);
      if h == 0 || |s| != h + 3 || s[h] != ':' || !IsDigit(s[h + 1]) || !IsDigit(s[h + 2]) then Err(Other)
      else
        var hour := if h == 2 then 10 * DigitValue(s[0]) + DigitValue(s[1]) else DigitValue(s[0]);
        var minute := 10 * DigitValue(s[h + 1]) + DigitValue(s[h + 2]);
        if hour >= 24 || minute >= 60 then Err(Other) else Ok(Some(TimeOfDay(hour, minute)))
  }

  predicate OnClock(t: TimeOfDay) {
    0 <= t.hour < 24 && 0 <= t.minute < 60
  }

  lemma TwoDigits(n: int)
    requires 0 <= n < 100
    ensures |Pad2(n)| == 2 && IsDigit(Pad2(n)[0]) && IsDigit(Pad2(n)[1])
    ensures 10 * DigitValue(Pad2(n)[0]) + DigitValue(Pad2(n)[1]) == n
  {
    if n < 10 {
      assert Itoa(n) == [DigitChar(n)];
    } else {
      assert Digits(n / 10) == [DigitChar(n / 10)];
      assert Itoa(n) == [DigitChar(n / 10)] + [DigitChar(n % 10)];
    }
  }

  /** A time of day reads back exactly when it is on the clock. */
  lemma PrintedTimeReadsBack(t: Option<TimeOfDay>)
    ensures ParseTimeOfDay(PrintTimeOfDay(t)) == Ok(t) <==> t.None? || OnClock(t.value)
  {
    if t.Some? && OnClock(t.value) {
      TwoDigits(t.value.hour);
      TwoDigits(t.value.minute);
    }
  }

  /** On the clock, the text is two digits of the hour, a colon and two digits of the minute. */
  lemma PrintedTimeLayout(t: TimeOfDay)
    requires OnClock(t)
    ensures var s := PrintTimeOfDay(Some(t));
            && |s| == 5 && s[2] == ':' && AllDigits(s[..2]) && AllDigits(s[3..])
            && Decimal(s[..2]) == t.hour && Decimal(s[3..]) == t.minute
  {
    TwoDigits(t.hour);
    TwoDigits(t.minute);
    TwoDigitDecimal(Pad2(t.hour));
    TwoDigitDecimal(Pad2(t.minute));
    var s := PrintTimeOfDay(Some(t));
    assert s[..2] == Pad2(t.hour) && s[3..] == Pad2(t.minute);
  }

  lemma TwoDigitDecimal(s: string)
    requires |s| == 2 && AllDigits(s)
    ensures Decimal(s) == 10 * DigitValue(s[0]) + DigitValue(s[1])
  {
    assert Decimal(s[..1]) == 10 * Decimal(s[..1][..0]) + DigitValue(s[0]);
  }

  /** The hour may also be given with a single digit. */
  lemma ShortHourReads(t: TimeOfDay)
    requires OnClock(t) && t.hour < 10
    ensures ParseTimeOfDay(Itoa(t.hour) + ":" + Pad2(t.minute)) == Ok(Some(t))
  {
    TwoDigits(t.minute);
    assert Itoa(t.hour) == [DigitChar(t.hour)];
  }

  // ---------- bindings ID ----------

  /** makeBackupPolicyBindingsID */
  function MakeBindingsID(policyID: string, instanceID: string): string {
    policyID + ":" + instanceID
  }

  /** parseBackupPolicyBindingsID */
  function ParseBindingsID(id: string): Result<(string, string)> {
    var parts := Split(id, ':');
    if |parts| != 2 then Err(Other) else Ok((parts[0], parts[1]))
  }

  /** The two halves come back exactly when neither contains the separator. */
  lemma BindingsIDRoundTrip(policyID: string, instanceID: string)
    ensures ParseBindingsID(MakeBindingsID(policyID, instanceID)) == Ok((policyID, instanceID)) <==>
            ':' !in policyID && ':' !in instanceID
    ensures ':' !in policyID && ':' !in instanceID ==>
              Split(MakeBindingsID(policyID, instanceID), ':') == [policyID, instanceID]
  {
    var id, parts := MakeBindingsID(policyID, instanceID), [policyID, instanceID];
    assert Join(parts, ':') == id by {
      assert parts[1..] == [instanceID];
    }
    SplitInvertsJoin(parts, ':');
    if ParseBindingsID(id) == Ok((policyID, instanceID)) {
      assert Split(id, ':') == parts;
      assert policyID in parts && instanceID in parts;
    }
  }

  // ---------- binding with retries ----------

  /** The server's answer to one attempt: an error, or an operation that may have failed at once. */
  datatype Answer = NotFound | OtherError | FailedOperation | Started

  predicate Retryable(a: Answer) {
    a.NotFound? || a.FailedOperation?
  }

  /** How many of the answers, at most `limit`, are received before an attempt is the last one. */
  function Attempts(answers: seq<Answer>, limit: int): (n: nat)
    ensures n <= |answers|
  {
    if answers == [] || limit <= 0 then 0
    else if Retryable(answers[0]) then 1 + Attempts(answers[1..], limit - 1)
    else 1
  }

  /** createBackupPolicyBindingsWithRetry. `answers` are what the server would say, one per attempt;
      None is the nil operation of no attempt at all. `slept` counts seconds. */
  method BindWithRetries(answers: seq<Answer>, maxRetries: int) returns (r: Option<Answer>, attempts: nat, slept: nat)
    requires |answers| >= maxRetries
    ensures attempts == Attempts(answers, maxRetries)
    ensures r == if attempts == 0 then None else Some(answers[attempts - 1])
    ensures attempts == 0 <==> maxRetries <= 0
    ensures 0 < attempts < maxRetries ==> r == Some(OtherError) || r == Some(Started)
    ensures forall j :: 0 <= j < attempts - 1 ==> answers[j] == NotFound || answers[j] == FailedOperation
    ensures attempts > 0 ==>
              var retried := if Retryable(answers[attempts - 1]) then attempts else attempts - 1;
              slept == if retried == 0 then 0 else 100 + 20 * (retried - 1)
  {
    r, attempts, slept := None, 0, 0;
    var firstRetry := true;
    while attempts < maxRetries
      invariant firstRetry <==> attempts == 0
      invariant 0 <= attempts && (attempts > 0 ==> attempts <= maxRetries)
      invariant forall j :: 0 <= j < attempts ==> Retryable(answers[j])
      invariant Attempts(answers, maxRetries) == attempts + Attempts(answers[attempts..], maxRetries - attempts)
      invariant r == if attempts == 0 then None else Some(answers[attempts - 1])
      invariant slept == if attempts == 0 then 0 else 100 + 20 * (attempts - 1)
    {
      r := Some(answers[attempts]);
      assert answers[attempts..][1..] == answers[attempts + 1..];
      attempts := attempts + 1;
      if !Retryable(r.value) {
        break;
      }
      slept := slept + if firstRetry then 100 else 20;
      firstRetry := false;
    }
  }

  /** Only the last attempt's answer may be one that is not worth a retry, and the attempts run out
      exactly when all of them are. */
  lemma {:induction false} AttemptsExact(answers: seq<Answer>, limit: int)
    requires 0 < limit <= |answers|
    ensures var n := Attempts(answers, limit);
            && 0 < n <= limit
            && (forall j :: 0 <= j < n - 1 ==> Retryable(answers[j]))
            && (Retryable(answers[n - 1]) <==> forall j :: 0 <= j < limit ==> Retryable(answers[j]))
            && (n < limit ==> !Retryable(answers[n - 1]))
  {
    if Retryable(answers[0]) && limit > 1 {
      AttemptsExact(answers[1..], limit - 1);
      var m := Attempts(answers[1..], limit - 1);
      assert forall j :: 0 < j < |answers| ==> answers[j] == answers[1..][j - 1];
      assert answers[1..][m - 1] == answers[m];
      if forall j :: 0 <= j < limit - 1 ==> Retryable(answers[1..][j]) {
        assert forall j :: 0 < j < limit ==> Retryable(answers[j]);
      } else {
        var j :| 0 <= j < limit - 1 && !Retryable(answers[1..][j]);
        assert !Retryable(answers[j + 1]);
      }
    }
  }
}
