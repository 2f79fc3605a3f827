/** `calculate_duration` (src/main.py): the length of the backtest in days,
    split into 30-day months and a remainder with floor division, and the
    text that reports it. */
module Duration {

  const DaysPerMonth: int := 30

  function Digit(d: nat): (c: char)
    requires d < 10
    ensures '0' <= c <= '9' && c as int - '0' as int == d
  {
    ('0' as int + d) as char
  }

  predicate IsDigit(c: char)
  {
    '0' <= c <= '9'
  }

  /** `str(n)` for a non-negative integer: its decimal digits, most
      significant first, without leading zeros. */
  function NatToString(n: nat): (s: string)
    ensures |s| >= 1 && forall i :: 0 <= i < |s| ==> IsDigit(s[i])
    ensures s[0] == '0' ==> n == 0
    decreases n
  {
    if n < 10 then [Digit(n)] else NatToString(n / 10) + [Digit(n % 10)]
  }

  /** `str(i)`: a minus sign before the digits of a negative integer. */
  function IntToString(i: int): (s: string)
    ensures |s| >= 1 && forall k :: 0 <= k < |s| ==> IsDigit(s[k]) || s[k] == '-'
  {
    if i < 0 then "-" + NatToString(-i) else NatToString(i)
  }

  /** Reading decimal digits back: the inverse of `str`. */
  function ParseDigits(s: string): nat
    requires forall i :: 0 <= i < |s| ==> IsDigit(s[i])
    decreases |s|
  {
    if |s| == 0 then 0
    else
      assert IsDigit(s[|s| - 1]);
      ParseDigits(s[..|s| - 1]) * 10 + (s[|s| - 1] as int - '0' as int)
  }

  function ParseInt(s: string): int
    requires |s| >= 1 && forall k :: 0 <= k < |s| ==> IsDigit(s[k]) || s[k] == '-'
    requires forall k :: 1 <= k < |s| ==> IsDigit(s[k])
  {
    if s[0] == '-' then 0 - ParseDigits(s[1..]) as int else ParseDigits(s)
  }

  lemma {:induction false} ParseNatToString(n: nat)
    ensures ParseDigits(NatToString(n)) == n
    decreases n
  {
    if n >= 10 {
      ParseNatToString(n / 10);
      var s := NatToString(n);
      assert s[..|s| - 1] == NatToString(n / 10);
    }
  }

  /** Every integer is read back from its text. */
  lemma ParseIntToString(i: int)
    ensures var s := IntToString(i);
      (forall k :: 1 <= k < |s| ==> IsDigit(s[k])) && ParseInt(s) == i
  {
    if i < 0 {
      ParseNatToString(-i);
      assert IntToString(i)[1..] == NatToString(-i);
    } else {
      ParseNatToString(i);
    }
  }

  datatype Split = Split(months: int, remainder: int)

  /** `duration_days // 30` and `duration_days % 30`. For the positive divisor
      Dafny's division is Python's floor division. */
  function SplitDays(days: int): Split
  {
    Split(days / DaysPerMonth, days % DaysPerMonth)
  }

  /** The split recomposes the days with a remainder in [0, 30), also for a
      negative count, and no other pair does: the months are the floor of
      days / 30. */
  lemma SplitIsFloor(days: int, months: int, remainder: int)
    ensures var s := SplitDays(days);
      days == DaysPerMonth * s.months + s.remainder && 0 <= s.remainder < DaysPerMonth &&
      DaysPerMonth * s.months <= days < DaysPerMonth * (s.months + 1)
    ensures days == DaysPerMonth * months + remainder && 0 <= remainder < DaysPerMonth ==>
      SplitDays(days) == Split(months, remainder)
  {
  }

  /** The reported text: "{days} days (~{months} months and {remainder} days)". */
  function DurationInfo(days: int): string
  {
    IntToString(days) + Describe(SplitDays(days))
  }

  /** The text after the day count. */
  function Describe(s: Split): (t: string)
    ensures |t| > 0 && t[0] == ' '
  {
    " days (~" + IntToString(s.months) + " months and " + IntToString(s.remainder) + " days)"
  }

  lemma DurationInfoZero()
    ensures DurationInfo(0) == "0 days (~0 months and 0 days)"
  {
    assert IntToString(0) == "0";
  }

  /** Floor division shows in the text: 45 days are 1 month and 15 days. */
  lemma DurationInfoPositive()
    ensures DurationInfo(45) == "45 days (~1 months and 15 days)"
  {
    assert SplitDays(45) == Split(1, 15);
    assert IntToString(45) == "45" by {
      assert NatToString(4) == "4";
    }
    assert IntToString(1) == "1";
    assert IntToString(15) == "15" by {
      assert NatToString(1) == "1";
    }
  }

  /** A negative count rounds down: -1 day is -1 month and 29 days. */
  lemma DurationInfoNegative()
    ensures DurationInfo(-1) == "-1 days (~-1 months and 29 days)"
  {
    assert SplitDays(-1) == Split(-1, 29);
    assert IntToString(-1) == "-1" by {
      assert NatToString(1) == "1";
    }
    assert IntToString(29) == "29" by {
      assert NatToString(2) == "2";
    }
  }

  /** A count without spaces is recovered from any text that continues with
      a space. */
  lemma PrefixBeforeSpace(u: string, x: string, v: string, y: string)
    requires u + x == v + y
    requires forall k :: 0 <= k < |u| ==> u[k] != ' '
    requires forall k :: 0 <= k < |v| ==> v[k] != ' '
    requires |x| > 0 && x[0] == ' ' && |y| > 0 && y[0] == ' '
    ensures u == v
  {
    assert u == (u + x)[..|u|];
    assert v == (v + y)[..|v|];
  }

  /** The text determines the day count. */
  lemma DurationInfoInjective(a: int, b: int)
    requires DurationInfo(a) == DurationInfo(b)
    ensures a == b
  {
    PrefixBeforeSpace(IntToString(a), Describe(SplitDays(a)), IntToString(b), Describe(SplitDays(b)));
    ParseIntToString(a);
    ParseIntToString(b);
  }

  /** `calculate_duration(start_date, end_date)`, with both dates given as
      day numbers so that `(end_date - start_date).days` is their difference. */
  function CalculateDuration(startDay: int, endDay: int): string
  {
    DurationInfo(endDay - startDay)
  }

  /** The report builds the same text inline from the first and last date of
      the signal frame. */
  function ReportedDuration(startDay: int, endDay: int): string
  {
    var days := endDay - startDay;
    IntToString(days) + " days (~" + IntToString(days / 30) + " months and " + IntToString(days % 30) + " days)"
  }

  /** The report and `calculate_duration` agree on every pair of dates. */
  lemma ReportAgrees(startDay: int, endDay: int)
    ensures ReportedDuration(startDay, endDay) == CalculateDuration(startDay, endDay)
  {
  }
}
