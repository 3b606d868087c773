/** The part of the `index` view that turns the processed forecast table into the page's
    `forecast` dictionary: prepending a row for today when the forecast has rolled past
    it, and keying one entry per row as `day0`, `day1`, ... */
module Page {
  import opened Options
  import opened Calendar
  import opened Aggregation

  /** The current-conditions fields the reconciliation reads: `weather["hi"]`,
      `weather["lo"]` and `weather["icon"]`. */
  datatype Weather = Weather(hi: int, lo: int, icon: string)

  /** `DEFAULT_WEATHER`, used when the current-conditions request fails. */
  const DefaultWeather: Weather := Weather(99, 99, "01d")

  /** `current_dt.strftime("%a").upper()`, for the current local time in seconds. */
  function TodayLabel(now: int): string
  {
    DayLabel(DateOf(now))
  }

  /** The synthetic row for today: the current time in DATE, today's label, the current HI
      and LO, "NONE" for the three conditions, no MORNING or NOON icon, and the current
      icon for EVENING. */
  function Placeholder(now: int, w: Weather): Row
  {
    [Some(Timestamp(now)), Some(Text(TodayLabel(now))), Some(Number(w.hi)), Some(Number(w.lo)),
     Some(Text("NONE")), Some(Text("NONE")), Some(Text("NONE")),
     None, None, Some(Text(w.icon))]
  }

  /** The "today missing" step of `index` (`views.py:189-207`): when the first row's DAY is
      not today's label, one placeholder row goes in front and every row of the table
      follows unchanged and in order; otherwise the table is left as it is. Either way the
      first row is today's. */
  function Reconcile(table: seq<Row>, now: int, w: Weather): (r: seq<Row>)
    requires |table| > 0 && |table[0]| > DayColumn
    ensures table[0][DayColumn] == Some(Text(TodayLabel(now))) ==> r == table
    ensures table[0][DayColumn] != Some(Text(TodayLabel(now))) ==>
              |r| == |table| + 1 && r[1..] == table &&
              |r[0]| == |ColumnOrder| &&
              r[0][DateColumn] == Some(Timestamp(now)) &&
              r[0][HiColumn] == Some(Number(w.hi)) && r[0][LoColumn] == Some(Number(w.lo)) &&
              (forall p: Period :: r[0][ConditionColumn(p)] == Some(Text("NONE"))) &&
              r[0][IconColumn(Morning)].None? && r[0][IconColumn(Noon)].None? &&
              r[0][IconColumn(Evening)] == Some(Text(w.icon))
    ensures |r| > 0 && |r[0]| > DayColumn && r[0][DayColumn] == Some(Text(TodayLabel(now)))
  {
    if table[0][DayColumn] == Some(Text(TodayLabel(now))) then table
    else [Placeholder(now, w)] + table
  }

  /** When the current conditions are unavailable (`weather = DEFAULT_WEATHER`), a
      prepended row carries HI and LO 99 and the clear-day icon. */
  lemma DefaultWeatherPlaceholder(table: seq<Row>, now: int)
    requires |table| > 0 && |table[0]| > DayColumn
    requires table[0][DayColumn] != Some(Text(TodayLabel(now)))
    ensures var r := Reconcile(table, now, DefaultWeather);
            && |r| == |table| + 1 && |r[0]| == |ColumnOrder|
            && r[0][HiColumn] == Some(Number(99)) && r[0][LoColumn] == Some(Number(99))
            && r[0][IconColumn(Evening)] == Some(Text("01d"))
  {
  }

  /** Reconciling a second time at the same moment changes nothing. */
  lemma ReconcileIdempotent(table: seq<Row>, now: int, w: Weather)
    requires |table| > 0 && |table[0]| > DayColumn
    ensures Reconcile(Reconcile(table, now, w), now, w) == Reconcile(table, now, w)
  {
  }

  /** `"C" if unit == "metric" else "F"`. */
  function UnitLabel(unit: string): (u: string)
    ensures u == "C" <==> unit == "metric"
    ensures u == "C" || u == "F"
  {
    if unit == "metric" then "C" else "F"
  }

  /** One `dayN` entry of the page's forecast. Cells taken from a table row keep their
      missing (NaN) state. */
  datatype DayForecast = DayForecast(
    day: Option<Cell>, city: string, hi: Option<Cell>, lo: Option<Cell>, unit: string,
    morningDescription: Option<Cell>, noonDescription: Option<Cell>, eveningDescription: Option<Cell>,
    morningIcon: Option<Cell>, noonIcon: Option<Cell>, eveningIcon: Option<Cell>)

  /** `_FORECAST_ONE_DAY`. */
  const ForecastOneDay: DayForecast :=
    DayForecast(Some(Text("ERROR")), "No data", Some(Number(99)), Some(Number(99)), "C",
                Some(Text("No data.")), Some(Text("No data")), Some(Text("No data")),
                Some(Text("01d")), Some(Text("01d")), Some(Text("01d")))

  /** The dictionary built from one row: each field read from the column of that name. */
  function ToDayForecast(row: Row, city: string, unit: string): (f: DayForecast)
    requires |row| == |ColumnOrder|
    ensures ColumnOrder[DayColumn] == "DAY" && f.day == row[DayColumn]
    ensures ColumnOrder[HiColumn] == "HI" && f.hi == row[HiColumn]
    ensures ColumnOrder[LoColumn] == "LO" && f.lo == row[LoColumn]
    ensures f.city == city && f.unit == UnitLabel(unit)
    ensures ColumnOrder[ConditionColumn(Morning)] == "MORNING_CONDITION" && f.morningDescription == row[ConditionColumn(Morning)]
    ensures ColumnOrder[ConditionColumn(Noon)] == "NOON_CONDITION" && f.noonDescription == row[ConditionColumn(Noon)]
    ensures ColumnOrder[ConditionColumn(Evening)] == "EVENING_CONDITION" && f.eveningDescription == row[ConditionColumn(Evening)]
    ensures ColumnOrder[IconColumn(Morning)] == "MORNING_ICON" && f.morningIcon == row[IconColumn(Morning)]
    ensures ColumnOrder[IconColumn(Noon)] == "NOON_ICON" && f.noonIcon == row[IconColumn(Noon)]
    ensures ColumnOrder[IconColumn(Evening)] == "EVENING_ICON" && f.eveningIcon == row[IconColumn(Evening)]
  {
    ColumnLayout(Morning);
    ColumnLayout(Noon);
    ColumnLayout(Evening);
    DayForecast(row[DayColumn], city, row[HiColumn], row[LoColumn], UnitLabel(unit),
                row[ConditionColumn(Morning)], row[ConditionColumn(Noon)], row[ConditionColumn(Evening)],
                row[IconColumn(Morning)], row[IconColumn(Noon)], row[IconColumn(Evening)])
  }

  /** A decimal digit as a character. */
  function Digit(d: int): (c: char)
    requires 0 <= d < 10
    ensures '0' <= c <= '9' && c as int == '0' as int + d
  {
    (48 + d) as char
  }

  /** `str(n)` for a natural number. */
  function NatToString(n: nat): (s: string)
    ensures |s| > 0 && (n >= 10 ==> |s| >= 2)
    ensures forall k :: 0 <= k < |s| ==> '0' <= s[k] <= '9'
  {
    if n < 10 then [Digit(n)] else NatToString(n / 10) + [Digit(n % 10)]
  }

  /** The value of a string of decimal digits, most significant digit first. */
  function DecimalValue(s: string): int
  {
    if |s| == 0 then 0 else DecimalValue(s[..|s| - 1]) * 10 + (s[|s| - 1] as int - '0' as int)
  }

  /** `str(n)` reads back as `n` and has no leading zero. */
  lemma {:induction false} NatToStringValue(n: nat)
    ensures DecimalValue(NatToString(n)) == n
    ensures n >= 10 ==> NatToString(n)[0] != '0'
  {
    var s := NatToString(n);
    if n >= 10 {
      NatToStringValue(n / 10);
      assert s[..|s| - 1] == NatToString(n / 10);
      assert s[0] == NatToString(n / 10)[0];
      if n / 10 < 10 {
        assert NatToString(n / 10) == [Digit(n / 10)];
      }
    } else {
      assert s[..0] == [];
    }
  }

  /** Distinct numbers print differently. */
  lemma {:induction false} NatToStringInjective(a: nat, b: nat)
    requires NatToString(a) == NatToString(b)
    ensures a == b
  {
    var s, s' := NatToString(a), NatToString(b);
    if a < 10 && b < 10 {
      assert s[0] == Digit(a) && s'[0] == Digit(b);
    } else if a >= 10 && b >= 10 {
      assert s[..|s| - 1] == NatToString(a / 10);
      assert s'[..|s'| - 1] == NatToString(b / 10);
      NatToStringInjective(a / 10, b / 10);
      assert s[|s| - 1] == Digit(a % 10) && s'[|s'| - 1] == Digit(b % 10);
    }
  }

  /** `"day" + str(index)`. */
  function DayKey(i: nat): string
  {
    "day" + NatToString(i)
  }

  /** Distinct row indexes give distinct keys. */
  lemma DayKeyInjective(i: nat, j: nat)
    requires DayKey(i) == DayKey(j)
    ensures i == j
  {
    assert DayKey(i)[3..] == NatToString(i);
    assert DayKey(j)[3..] == NatToString(j);
    NatToStringInjective(i, j);
  }

  /** The keys `day0` .. `day{n-1}`. */
  function KeysBelow(n: nat): set<string>
  {
    if n == 0 then {} else KeysBelow(n - 1) + {DayKey(n - 1)}
  }

  lemma {:induction false} KeysBelowMembership(n: nat, k: string)
    ensures k in KeysBelow(n) <==> exists i :: 0 <= i < n && k == DayKey(i)
  {
    if n > 0 {
      KeysBelowMembership(n - 1, k);
      assert KeysBelow(n) == KeysBelow(n - 1) + {DayKey(n - 1)};
      if exists i :: 0 <= i < n && k == DayKey(i) {
        var i :| 0 <= i < n && k == DayKey(i);
        if i < n - 1 {
          assert k in KeysBelow(n - 1);
        }
      }
    }
  }

  /** The dictionary holding entry i under `day{i}` for every index of the list, and
      nothing else. */
  function Keyed(entries: seq<DayForecast>): (m: map<string, DayForecast>)
    ensures m.Keys == KeysBelow(|entries|)
    ensures forall i :: 0 <= i < |entries| ==> DayKey(i) in m && m[DayKey(i)] == entries[i]
  {
    if |entries| == 0 then map[]
    else
      var n := |entries| - 1;
      var prefix := Keyed(entries[..n]);
      assert DayKey(n) !in prefix by {
        KeysBelowMembership(n, DayKey(n));
        if DayKey(n) in prefix {
          var i :| 0 <= i < n && DayKey(n) == DayKey(i);
          DayKeyInjective(n, i);
        }
      }
      assert forall i :: 0 <= i < n ==> entries[..n][i] == entries[i];
      prefix[DayKey(n) := entries[n]]
  }

  /** There are n keys below n. */
  lemma {:induction false} KeysBelowSize(n: nat)
    ensures |KeysBelow(n)| == n
  {
    if n > 0 {
      KeysBelowSize(n - 1);
      KeysBelowMembership(n - 1, DayKey(n - 1));
      if DayKey(n - 1) in KeysBelow(n - 1) {
        var i :| 0 <= i < n - 1 && DayKey(n - 1) == DayKey(i);
        DayKeyInjective(n - 1, i);
      }
    }
  }

  /** The dictionary has exactly one entry per element of the list. */
  lemma KeyedSize(entries: seq<DayForecast>)
    ensures |Keyed(entries)| == |entries|
  {
    KeysBelowSize(|entries|);
    assert |Keyed(entries)| == |Keyed(entries).Keys|;
  }

  /** Keying one more element adds exactly its entry. */
  lemma KeyedExtend(entries: seq<DayForecast>, n: nat)
    requires n < |entries|
    ensures Keyed(entries[..n + 1]) == Keyed(entries[..n])[DayKey(n) := entries[n]]
  {
    assert entries[..n + 1][..n] == entries[..n];
  }

  /** One entry per row of the table, in row order. */
  function ForecastEntries(table: seq<Row>, city: string, unit: string): (es: seq<DayForecast>)
    requires forall i :: 0 <= i < |table| ==> |table[i]| == |ColumnOrder|
    ensures |es| == |table|
    ensures forall i :: 0 <= i < |table| ==> es[i].day == table[i][DayColumn] && es[i].city == city
  {
    seq(|table|, i requires 0 <= i < |table| => ToDayForecast(table[i], city, unit))
  }

  /** The loop over `df.iterrows()` that fills `weather_forecast`: one entry per row,
      none dropped, keyed by position. */
  method BuildForecast(table: seq<Row>, city: string, unit: string) returns (forecast: map<string, DayForecast>)
    requires forall i :: 0 <= i < |table| ==> |table[i]| == |ColumnOrder|
    ensures forecast == Keyed(ForecastEntries(table, city, unit))
    ensures |forecast| == |table|
    ensures forall i :: 0 <= i < |table| ==>
              DayKey(i) in forecast && forecast[DayKey(i)] == ToDayForecast(table[i], city, unit)
  {
    ghost var entries := ForecastEntries(table, city, unit);
    forecast := map[];
    var i := 0;
    while i < |table|
      invariant 0 <= i <= |table|
      invariant forecast == Keyed(entries[..i])
    {
      KeyedExtend(entries, i);
      forecast := forecast[DayKey(i) := ToDayForecast(table[i], city, unit)];
      i := i + 1;
    }
    assert entries[..|table|] == entries;
    KeyedSize(entries);
  }

  /** `DEFAULT_FORECAST`: `day0` .. `day4`, each the placeholder day. */
  function DefaultForecast(): map<string, DayForecast>
  {
    Keyed(seq(5, _ => ForecastOneDay))
  }

  /** The default forecast has exactly the keys `day0` .. `day4`, each holding the
      placeholder day. */
  lemma DefaultForecastShape()
    ensures |DefaultForecast()| == 5
    ensures DefaultForecast().Keys == KeysBelow(5)
    ensures forall i :: 0 <= i < 5 ==> DefaultForecast()[DayKey(i)] == ForecastOneDay
    ensures DayKey(0) == "day0" && DayKey(4) == "day4"
  {
    KeyedSize(seq(5, _ => ForecastOneDay));
  }

  /** What the page needs of a processed table: at least one row, each of ten columns. */
  ghost predicate Readable(table: seq<Row>)
  {
    |table| > 0 && forall i :: 0 <= i < |table| ==> |table[i]| == |ColumnOrder|
  }

  /** Reconciling keeps a table readable. */
  lemma ReconcileReadable(t: seq<Row>, now: int, w: Weather)
    requires Readable(t)
    ensures Readable(Reconcile(t, now, w))
  {
    var r := Reconcile(t, now, w);
    assert forall i :: 1 <= i < |r| ==> r[i] == r[1..][i - 1];
  }

  /** `index` from the reconciliation to the `dayN` dictionary (`views.py:186-224`), on a
      table the processing produced. */
  function ReconciledForecast(t: seq<Row>, now: int, w: Weather, city: string, unit: string)
    : map<string, DayForecast>
    requires Readable(t)
  {
    ReconcileReadable(t, now, w);
    Keyed(ForecastEntries(Reconcile(t, now, w), city, unit))
  }

  /** One entry per row of the reconciled table, in order and without truncation, the
      first of them today's; the table grows by one row exactly when its first day is not
      today. */
  lemma ReconciledForecastShape(t: seq<Row>, now: int, w: Weather, city: string, unit: string)
    requires Readable(t)
    ensures var m := ReconciledForecast(t, now, w, city, unit);
            var r := Reconcile(t, now, w);
            && |m| == |r|
            && (|r| == |t| <==> t[0][DayColumn] == Some(Text(TodayLabel(now))))
            && (|r| == |t| + 1 <==> t[0][DayColumn] != Some(Text(TodayLabel(now))))
            && DayKey(0) in m && m[DayKey(0)].day == Some(Text(TodayLabel(now)))
            && (forall i :: 0 <= i < |r| ==> DayKey(i) in m && m[DayKey(i)] == ToDayForecast(r[i], city, unit))
  {
    var r := Reconcile(t, now, w);
    ReconcileReadable(t, now, w);
    var entries := ForecastEntries(r, city, unit);
    KeyedSize(entries);
    assert entries[0].day == r[0][DayColumn];
  }

  /** The forecast part of `index` (`views.py:183-226`) after the processing: the default
      forecast when it raised, otherwise the forecast of the reconciled table. */
  function PageForecast(processed: Result<seq<Row>>, now: int, w: Weather, city: string, unit: string)
    : (m: map<string, DayForecast>)
    requires processed.Ok? ==> Readable(processed.value)
    ensures processed.Err? ==> m == DefaultForecast() && |m| == 5
    ensures processed.Ok? ==> m == ReconciledForecast(processed.value, now, w, city, unit)
  {
    DefaultForecastShape();
    match processed
    case Err(_) => DefaultForecast()
    case Ok(t) => ReconciledForecast(t, now, w, city, unit)
  }

  /** Every table the processing produces can be read by the page. */
  lemma ProcessedReadable(response: ForecastResponse)
    ensures ProcessForecast(response).Ok? ==> Readable(ProcessForecast(response).value)
  {
    if ProcessForecast(response).Ok? {
      ProcessedTableShape(response);
    }
  }

  /** A processed table whose first date is today's local date is left as it is, since
      its first DAY cell then holds today's label. */
  lemma TodayPresentKeepsTable(response: ForecastResponse, now: int, w: Weather)
    requires ProcessForecast(response).Ok?
    ensures var t := ProcessForecast(response).value;
            && |t| > 0 && |t[0]| == |ColumnOrder|
            && (t[0][DateColumn] == Some(DateCell(DateOf(now))) ==> Reconcile(t, now, w) == t)
  {
    ProcessedTableShape(response);
    ProcessedKeyCells(response, 0);
  }

  /** A processed table whose first date is not today's local date but lies within a week
      of it gains exactly the placeholder row in front. */
  lemma TodayMissingAddsOneRow(response: ForecastResponse, now: int, w: Weather)
    requires ProcessForecast(response).Ok?
    ensures var t := ProcessForecast(response).value;
            && |t| > 0 && |t[0]| == |ColumnOrder| && t[0][DateColumn].Some? && t[0][DateColumn].value.DateCell?
            && var d := t[0][DateColumn].value.days;
            && (d != DateOf(now) && -7 < d - DateOf(now) < 7 ==> Reconcile(t, now, w) == [Placeholder(now, w)] + t)
  {
    var t: seq<Row> := ProcessForecast(response).value;
    ProcessedTableShape(response);
    ProcessedKeyCells(response, 0);
    var d: int := t[0][DateColumn].value.days;
    if d != DateOf(now) && -7 < d - DateOf(now) < 7 {
      OtherLabelGainsRow(t, d, now, w);
    }
  }

  /** A table whose first DAY cell is the label of another date within a week of today. */
  lemma OtherLabelGainsRow(t: seq<Row>, d: int, now: int, w: Weather)
    requires |t| > 0 && |t[0]| > DayColumn && t[0][DayColumn] == Some(Text(DayLabel(d)))
    requires d != DateOf(now) && -7 < d - DateOf(now) < 7
    ensures Reconcile(t, now, w) == [Placeholder(now, w)] + t
  {
    if DayLabel(d) == DayLabel(DateOf(now)) {
      SameLabelWithinAWeek(d, DateOf(now));
    }
  }

  /** The page's forecast after the processing: on an error the five default days, the first
      of them `_FORECAST_ONE_DAY`; otherwise one entry per processed row, or one more when a
      placeholder row went in front, the first of them today's. */
  lemma PageForecastShape(processed: Result<seq<Row>>, now: int, w: Weather, city: string, unit: string)
    requires processed.Ok? ==> Readable(processed.value)
    ensures var m := PageForecast(processed, now, w, city, unit);
            && (processed.Err? ==> m == DefaultForecast() && |m| == 5 && DayKey(0) in m && m[DayKey(0)] == ForecastOneDay)
            && (processed.Ok? ==>
                  (|m| == |processed.value| || |m| == |processed.value| + 1) &&
                  DayKey(0) in m && m[DayKey(0)].day == Some(Text(TodayLabel(now))))
  {
    DefaultForecastShape();
    if processed.Ok? {
      ReconciledForecastShape(processed.value, now, w, city, unit);
    }
  }

  /** The page's forecast for one response at the current local time `now`. */
  function IndexForecast(response: ForecastResponse, now: int, w: Weather, city: string, unit: string)
    : map<string, DayForecast>
  {
    ProcessedReadable(response);
    PageForecast(ProcessForecast(response), now, w, city, unit)
  }

  /** The forecast part of `index` (`views.py:184-226`) for one response: the default
      forecast when the processing raised, otherwise one entry per processed row or one
      more, with today's entry under `day0`. */
  lemma IndexForecastShape(response: ForecastResponse, now: int, w: Weather, city: string, unit: string)
    ensures var m := IndexForecast(response, now, w, city, unit);
            var p := ProcessForecast(response);
            && (p.Err? ==> m == DefaultForecast() && |m| == 5 && DayKey(0) in m && m[DayKey(0)] == ForecastOneDay)
            && (p.Ok? ==> (|m| == |p.value| || |m| == |p.value| + 1) &&
                          DayKey(0) in m && m[DayKey(0)].day == Some(Text(TodayLabel(now))))
  {
    ProcessedReadable(response);
    PageForecastShape(ProcessForecast(response), now, w, city, unit);
  }
}
