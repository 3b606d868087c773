/** Local clock arithmetic for forecast slots: a UTC time in whole seconds shifted by the
    city's UTC offset, the calendar date and hour of day it falls on, its upper-case
    three-letter weekday label, and the period of the day that hour belongs to. */
module Calendar {

  /** `strftime("%a").upper()` for Monday .. Sunday. */
  const WeekdayLabels: seq<string> := ["MON", "TUE", "WED", "THU", "FRI", "SAT", "SUN"]

  datatype Period = Morning | Noon | Evening

  /** `pd.to_datetime(dt_txt) + pd.Timedelta(offset, unit="seconds")`, in seconds. */
  function LocalTime(utc: int, offset: int): int
  {
    utc + offset
  }

  /** The calendar day (days since 1970-01-01) holding a local time. */
  function DateOf(t: int): (d: int)
    ensures d * 86400 <= t < d * 86400 + 86400
  {
    t / 86400
  }

  /** `strftime("%H")`: the hour within that day. */
  function HourOf(t: int): (h: int)
    ensures 0 <= h < 24
    ensures DateOf(t) * 86400 + h * 3600 <= t < DateOf(t) * 86400 + h * 3600 + 3600
  {
    (t % 86400) / 3600
  }

  /** The weekday label of a calendar day; 1970-01-01 was a Thursday. */
  function DayLabel(date: int): (name: string)
    ensures name in WeekdayLabels
  {
    WeekdayLabels[(date + 3) % 7]
  }

  /** 1969-12-31 was a Wednesday, 1970-01-01 a Thursday and 1970-01-02 a Friday. */
  lemma DayLabelAnchor()
    ensures DayLabel(-1) == "WED" && DayLabel(0) == "THU" && DayLabel(1) == "FRI"
  {
  }

  /** The label of the next day is the next label of the week, Sunday followed by Monday. */
  lemma DayLabelFollows(d: int, i: int)
    requires 0 <= i < 7 && DayLabel(d) == WeekdayLabels[i]
    ensures DayLabel(d + 1) == WeekdayLabels[(i + 1) % 7]
  {
    assert forall j, k :: 0 <= j < k < 7 ==> WeekdayLabels[j] != WeekdayLabels[k];
    assert (d + 3) % 7 == i;
    assert (d + 1 + 3) % 7 == (i + 1) % 7;
  }

  /** Two days carry the same weekday label exactly when they are whole weeks apart. */
  lemma SameLabelIffWeeksApart(d: int, e: int)
    ensures DayLabel(d) == DayLabel(e) <==> (d - e) % 7 == 0
  {
    var a, b := (d + 3) % 7, (e + 3) % 7;
    var q, r := (d + 3) / 7, (e + 3) / 7;
    assert d + 3 == 7 * q + a && e + 3 == 7 * r + b;
    assert d - e == 7 * (q - r) + (a - b);
    assert forall i, j :: 0 <= i < j < 7 ==> WeekdayLabels[i] != WeekdayLabels[j];
    if a == b {
      assert d - e == 7 * (q - r);
    } else {
      assert -7 < a - b < 7;
      assert (d - e) % 7 == (a - b) % 7;
    }
  }

  /** Within a week, equal labels mean the same day. */
  lemma SameLabelWithinAWeek(d: int, e: int)
    requires -7 < d - e < 7 && DayLabel(d) == DayLabel(e)
    ensures d == e
  {
    SameLabelIffWeeksApart(d, e);
    assert d - e == 7 * ((d - e) / 7);
  }

  /** The three masked assignments `HOUR < 12`, `12 <= HOUR < 18` and `HOUR >= 18`. */
  function PeriodOf(hour: int): (p: Period)
    ensures p == Morning <==> hour < 12
    ensures p == Noon <==> 12 <= hour < 18
    ensures p == Evening <==> 18 <= hour
  {
    if hour < 12 then Morning else if hour < 18 then Noon else Evening
  }

  /** The column-name prefix of a period after the pivot. */
  function PeriodName(p: Period): string
  {
    match p
    case Morning => "MORNING"
    case Noon => "NOON"
    case Evening => "EVENING"
  }
}
