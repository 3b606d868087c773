/** `_process_forecast_response`: turns the 3-hour forecast slots of one response into one
    wide row per local date, with the daily high and low and the dominant condition and
    icon of each period of the day. */
module Aggregation {
  import opened Options
  import opened Sequences
  import opened Calendar
  import opened Priority
  import opened RowFill

  /** One entry of the response's `list`: `dt_txt` as UTC seconds, `main.temp_min`,
      `main.temp_max`, and `weather[0].main` / `weather[0].icon`. */
  datatype Observation = Observation(dtUtc: int, tempMin: int, tempMax: int, condition: string, icon: string)

  /** The parts of the forecast payload the aggregation reads: `city.timezone` and `list`. */
  datatype ForecastResponse = ForecastResponse(timezone: int, slots: seq<Observation>)

  /** One row of `all_forecasts`: local DATETIME, DAY, LOCAL_MIN_TEMP, LOCAL_MAX_TEMP,
      CONDITION, ICON. */
  datatype Slot = Slot(local: int, day: string, tempMin: int, tempMax: int, condition: string, icon: string)

  /** A row of the frame once DATE, LO, HI, HOUR and PERIOD have been added. */
  datatype Annotated = Annotated(date: int, day: string, lo: int, hi: int, hour: int, period: Period,
                                 condition: string, icon: string)

  /** A row of the long table `[DATE, DAY, HI, LO, PERIOD, CONDITION, ICON]`. */
  datatype Entry = Entry(date: int, day: string, hi: int, lo: int, period: Period, condition: string, icon: string)

  /** A cell of the wide table: a DATE string (held as its day number), a timestamp, a
      string, or an integer temperature. */
  datatype Cell = DateCell(days: int) | Timestamp(seconds: int) | Text(text: string) | Number(value: int)

  /** A wide row, one cell per name of `ColumnOrder`; None is a missing (NaN) cell. */
  type Row = seq<Option<Cell>>

  /** The exceptions the processing raises on its way. */
  datatype Error =
    | EmptyForecast      // `pd.concat` of an empty list
    | DuplicateEntries   // `unstack` on an index with a repeated (DATE, DAY, HI, LO, PERIOD)
    | MissingColumns     // `df[col_order]` when some period occurs in no row

  datatype Result<T> = Ok(value: T) | Err(error: Error)

  const ColumnOrder: seq<string> :=
    ["DATE", "DAY", "HI", "LO", "MORNING_CONDITION", "NOON_CONDITION", "EVENING_CONDITION",
     "MORNING_ICON", "NOON_ICON", "EVENING_ICON"]

  const DateColumn: nat := 0
  const DayColumn: nat := 1
  const HiColumn: nat := 2
  const LoColumn: nat := 3

  function PeriodIndex(p: Period): nat
  {
    match p
    case Morning => 0
    case Noon => 1
    case Evening => 2
  }

  function ConditionColumn(p: Period): nat { 4 + PeriodIndex(p) }

  function IconColumn(p: Period): nat { 7 + PeriodIndex(p) }

  /** The pivoted columns are named `<PERIOD>_<field>` and sit where `col_order` puts them. */
  lemma ColumnLayout(p: Period)
    ensures ConditionColumn(p) < |ColumnOrder| && IconColumn(p) < |ColumnOrder|
    ensures ColumnOrder[ConditionColumn(p)] == PeriodName(p) + "_CONDITION"
    ensures ColumnOrder[IconColumn(p)] == PeriodName(p) + "_ICON"
  {
    var c, i := "_CONDITION", "_ICON";
    match p
    case Morning =>
      assert ColumnOrder[4] == "MORNING" + c && ColumnOrder[7] == "MORNING" + i;
    case Noon =>
      assert ColumnOrder[5] == "NOON" + c && ColumnOrder[8] == "NOON" + i;
    case Evening =>
      assert ColumnOrder[6] == "EVENING" + c && ColumnOrder[9] == "EVENING" + i;
  }

  // ---------------------------------------------------------------------------------------
  // Localising the slots

  function ToSlot(o: Observation, offset: int): Slot
  {
    var t := LocalTime(o.dtUtc, offset);
    Slot(t, DayLabel(DateOf(t)), o.tempMin, o.tempMax, o.condition, o.icon)
  }

  function Localize(obs: seq<Observation>, offset: int): seq<Slot>
  {
    seq(|obs|, i requires 0 <= i < |obs| => ToSlot(obs[i], offset))
  }

  /** The loop that appends one single-row frame per forecast entry. */
  method CollectSlots(response: ForecastResponse) returns (slots: seq<Slot>)
    ensures |slots| == |response.slots|
    ensures forall i :: 0 <= i < |slots| ==>
              slots[i].local == response.slots[i].dtUtc + response.timezone &&
              slots[i].day == DayLabel(DateOf(slots[i].local))
    ensures slots == Localize(response.slots, response.timezone)
  {
    slots := [];
    var i := 0;
    while i < |response.slots|
      invariant 0 <= i <= |response.slots|
      invariant |slots| == i
      invariant forall k :: 0 <= k < i ==> slots[k] == ToSlot(response.slots[k], response.timezone)
    {
      slots := slots + [ToSlot(response.slots[i], response.timezone)];
      i := i + 1;
    }
  }

  // ---------------------------------------------------------------------------------------
  // DATE, LO, HI, HOUR and PERIOD

  function SlotsOn(slots: seq<Slot>, date: int): seq<Slot>
  {
    Filter(slots, (s: Slot) => DateOf(s.local) == date)
  }

  ghost predicate HasDate(slots: seq<Slot>, date: int)
  {
    exists i :: 0 <= i < |slots| && DateOf(slots[i].local) == date
  }

  lemma SlotsOnNonEmpty(slots: seq<Slot>, date: int)
    requires HasDate(slots, date)
    ensures |SlotsOn(slots, date)| > 0
  {
    var i :| 0 <= i < |slots| && DateOf(slots[i].local) == date;
    assert slots[i] in SlotsOn(slots, date);
  }

  /** `groupby("DATE")["LOCAL_MIN_TEMP"].transform("min")`. */
  function DailyLow(slots: seq<Slot>, date: int): int
    requires HasDate(slots, date)
  {
    var on := SlotsOn(slots, date);
    SlotsOnNonEmpty(slots, date);
    Minimum(seq(|on|, i requires 0 <= i < |on| => on[i].tempMin))
  }

  /** `groupby("DATE")["LOCAL_MAX_TEMP"].transform("max")`. */
  function DailyHigh(slots: seq<Slot>, date: int): int
    requires HasDate(slots, date)
  {
    var on := SlotsOn(slots, date);
    SlotsOnNonEmpty(slots, date);
    Maximum(seq(|on|, i requires 0 <= i < |on| => on[i].tempMax))
  }

  /** LO is the smallest minimum and HI the largest maximum among the slots of that date,
      each attained by one of them. */
  lemma DailyExtremes(slots: seq<Slot>, date: int)
    requires HasDate(slots, date)
    ensures forall j :: 0 <= j < |slots| && DateOf(slots[j].local) == date ==>
              DailyLow(slots, date) <= slots[j].tempMin && slots[j].tempMax <= DailyHigh(slots, date)
    ensures exists j :: 0 <= j < |slots| && DateOf(slots[j].local) == date && slots[j].tempMin == DailyLow(slots, date)
    ensures exists j :: 0 <= j < |slots| && DateOf(slots[j].local) == date && slots[j].tempMax == DailyHigh(slots, date)
  {
    var on := SlotsOn(slots, date);
    SlotsOnNonEmpty(slots, date);
    var mins := seq(|on|, i requires 0 <= i < |on| => on[i].tempMin);
    var maxs := seq(|on|, i requires 0 <= i < |on| => on[i].tempMax);
    forall j | 0 <= j < |slots| && DateOf(slots[j].local) == date
      ensures DailyLow(slots, date) <= slots[j].tempMin && slots[j].tempMax <= DailyHigh(slots, date)
    {
      assert slots[j] in on;
      var k :| 0 <= k < |on| && on[k] == slots[j];
      assert mins[k] in mins && maxs[k] in maxs;
    }
    var k :| 0 <= k < |mins| && mins[k] == DailyLow(slots, date);
    assert on[k] in slots;
    var k' :| 0 <= k' < |maxs| && maxs[k'] == DailyHigh(slots, date);
    assert on[k'] in slots;
  }

  function AnnotateSlot(slots: seq<Slot>, i: int): Annotated
    requires 0 <= i < |slots|
  {
    var s := slots[i];
    var date := DateOf(s.local);
    assert HasDate(slots, date);
    Annotated(date, s.day, DailyLow(slots, date), DailyHigh(slots, date), HourOf(s.local),
              PeriodOf(HourOf(s.local)), s.condition, s.icon)
  }

  function Annotate(slots: seq<Slot>): seq<Annotated>
  {
    seq(|slots|, i requires 0 <= i < |slots| => AnnotateSlot(slots, i))
  }

  /** `df["PERIOD"] = None` followed by the three masked assignments. */
  method AssignPeriods(hours: seq<int>) returns (periods: seq<Option<Period>>)
    ensures |periods| == |hours|
    ensures forall i :: 0 <= i < |hours| ==> periods[i] == Some(PeriodOf(hours[i]))
  {
    var p := new Option<Period>[|hours|](_ => None);
    var i := 0;
    while i < |hours|
      invariant 0 <= i <= |hours|
      invariant forall k :: 0 <= k < i ==> p[k] == if hours[k] < 12 then Some(Morning) else None
      invariant forall k :: i <= k < |hours| ==> p[k] == None
    {
      if hours[i] < 12 { p[i] := Some(Morning); }
      i := i + 1;
    }
    i := 0;
    while i < |hours|
      invariant 0 <= i <= |hours|
      invariant forall k :: 0 <= k < i ==>
                  p[k] == if hours[k] < 12 then Some(Morning) else if hours[k] < 18 then Some(Noon) else None
      invariant forall k :: i <= k < |hours| ==> p[k] == if hours[k] < 12 then Some(Morning) else None
    {
      if 12 <= hours[i] && hours[i] < 18 { p[i] := Some(Noon); }
      i := i + 1;
    }
    i := 0;
    while i < |hours|
      invariant 0 <= i <= |hours|
      invariant forall k :: 0 <= k < i ==> p[k] == Some(PeriodOf(hours[k]))
      invariant forall k :: i <= k < |hours| ==>
                  p[k] == if hours[k] < 12 then Some(Morning) else if hours[k] < 18 then Some(Noon) else None
    {
      if hours[i] >= 18 { p[i] := Some(Evening); }
      i := i + 1;
    }
    periods := p[..];
  }

  /** Every slot is dated, houred and bucketed by its local time `dt_txt + city.timezone`. */
  lemma LocalBuckets(obs: seq<Observation>, offset: int, i: int)
    requires 0 <= i < |obs|
    ensures |Annotate(Localize(obs, offset))| == |obs|
    ensures var a := Annotate(Localize(obs, offset))[i];
            var t := obs[i].dtUtc + offset;
            && a.date == DateOf(t) && a.hour == HourOf(t) && 0 <= a.hour < 24
            && a.day == DayLabel(a.date)
            && (a.period == Morning <==> a.hour < 12)
            && (a.period == Noon <==> 12 <= a.hour < 18)
            && (a.period == Evening <==> 18 <= a.hour)
  {
  }

  /** Slots of one date agree on DAY, HI and LO. */
  ghost predicate ConsistentRows(rows: seq<Annotated>)
  {
    forall i, j :: 0 <= i < |rows| && 0 <= j < |rows| && rows[i].date == rows[j].date ==>
      rows[i].day == rows[j].day && rows[i].hi == rows[j].hi && rows[i].lo == rows[j].lo
  }

  lemma AnnotateConsistent(obs: seq<Observation>, offset: int)
    ensures ConsistentRows(Annotate(Localize(obs, offset)))
  {
  }

  // ---------------------------------------------------------------------------------------
  // The dominant condition of each (DAY, PERIOD) group

  /** `groupby(["DAY", "PERIOD"])["PRIORITY"].transform("min")`, skipping unranked rows. */
  function BestRank(rows: seq<Annotated>, day: string, period: Period): Option<int>
  {
    if rows == [] then None
    else
      var rest := BestRank(rows[1..], day, period);
      var here := if rows[0].day == day && rows[0].period == period then Rank(rows[0].icon) else None;
      match (here, rest)
      case (None, _) => rest
      case (_, None) => here
      case (Some(a), Some(b)) => Some(if a <= b then a else b)
  }

  lemma {:induction false} BestRankIsGroupMinimum(rows: seq<Annotated>, day: string, period: Period)
    ensures BestRank(rows, day, period).Some? ==>
              exists i :: 0 <= i < |rows| && rows[i].day == day && rows[i].period == period &&
                          Rank(rows[i].icon) == BestRank(rows, day, period)
    ensures forall i :: 0 <= i < |rows| && rows[i].day == day && rows[i].period == period && Rank(rows[i].icon).Some? ==>
              BestRank(rows, day, period).Some? && BestRank(rows, day, period).value <= Rank(rows[i].icon).value
  {
    if rows != [] {
      BestRankIsGroupMinimum(rows[1..], day, period);
      var best := BestRank(rows, day, period);
      var rest := BestRank(rows[1..], day, period);
      assert forall i :: 1 <= i < |rows| ==> rows[i] == rows[1..][i - 1];
      if best.Some? && best != rest {
        assert Rank(rows[0].icon) == best;
      } else if best.Some? {
        var k :| 0 <= k < |rows[1..]| && rows[1..][k].day == day && rows[1..][k].period == period &&
                 Rank(rows[1..][k].icon) == rest;
        assert rows[k + 1] == rows[1..][k];
      }
    }
  }

  /** `PRIORITY == HIGHEST_PRIORITY`; an unranked row compares unequal to everything. */
  predicate Survives(rows: seq<Annotated>, a: Annotated)
  {
    Rank(a.icon).Some? && BestRank(rows, a.day, a.period) == Rank(a.icon)
  }

  function Dominant(rows: seq<Annotated>): seq<Annotated>
  {
    Filter(rows, (a: Annotated) => Survives(rows, a))
  }

  /** A surviving row is at least as severe as every ranked row of its (DAY, PERIOD) group. */
  lemma SurvivorIsMostSevere(rows: seq<Annotated>, a: Annotated, b: Annotated)
    requires a in Dominant(rows) && b in rows
    requires b.day == a.day && b.period == a.period && Rank(b.icon).Some?
    ensures a in rows && Rank(a.icon).Some? && Rank(a.icon).value <= Rank(b.icon).value
  {
    BestRankIsGroupMinimum(rows, a.day, a.period);
  }

  /** A row that passes the filter is kept. */
  lemma SurvivorKept(rows: seq<Annotated>, j: int)
    requires 0 <= j < |rows| && Survives(rows, rows[j])
    ensures rows[j] in Dominant(rows)
  {
  }

  /** A ranked row that no ranked row of its group beats survives. */
  lemma MostSevereSurvives(rows: seq<Annotated>, a: Annotated)
    requires a in rows && Rank(a.icon).Some?
    requires forall b :: b in rows && b.day == a.day && b.period == a.period && Rank(b.icon).Some? ==>
               Rank(a.icon).value <= Rank(b.icon).value
    ensures a in Dominant(rows)
  {
    BestRankOfMostSevere(rows, a);
    var j :| 0 <= j < |rows| && rows[j] == a;
    SurvivorKept(rows, j);
  }

  /** The group minimum is the rank of a row no ranked row of the group beats. */
  lemma BestRankOfMostSevere(rows: seq<Annotated>, a: Annotated)
    requires a in rows && Rank(a.icon).Some?
    requires forall b :: b in rows && b.day == a.day && b.period == a.period && Rank(b.icon).Some? ==>
               Rank(a.icon).value <= Rank(b.icon).value
    ensures Survives(rows, a)
  {
    var best := BestRank(rows, a.day, a.period);
    var j :| 0 <= j < |rows| && rows[j] == a;
    BestRankIsGroupMinimum(rows, a.day, a.period);
    assert best.Some? && best.value <= Rank(a.icon).value;
    var i :| 0 <= i < |rows| && rows[i].day == a.day && rows[i].period == a.period &&
             Rank(rows[i].icon) == best;
    assert rows[i] in rows;
    assert Rank(a.icon).value <= best.value;
  }

  /** A row whose icon family is not in the table never survives the filter. */
  lemma UnrankedDropped(rows: seq<Annotated>, a: Annotated)
    requires Rank(a.icon).None?
    ensures a !in Dominant(rows)
  {
  }

  // ---------------------------------------------------------------------------------------
  // Day/night suffix, the long table and its duplicates

  /** `icon[:-1]`. */
  function StripLast(icon: string): string
  {
    if |icon| == 0 then "" else icon[..|icon| - 1]
  }

  /** The day/night tag a period's icon receives. */
  function PeriodTag(p: Period): string
  {
    if p == Evening then "n" else "d"
  }

  /** `icon[:-1]`, then `+= "d"` for MORNING and NOON and `+= "n"` for EVENING. */
  function SuffixIcon(icon: string, p: Period): (r: string)
    ensures |r| == if |icon| == 0 then 1 else |icon|
    ensures r[..|r| - 1] == StripLast(icon)
    ensures r[|r| - 1] == if p == Evening then 'n' else 'd'
    ensures |icon| >= 3 ==> Family(r) == Family(icon)
  {
    StripLast(icon) + PeriodTag(p)
  }

  /** `df["ICON"].apply(lambda x: x[:-1])`. */
  method StripTags(a: array<string>)
    modifies a
    ensures forall k :: 0 <= k < a.Length ==> a[k] == StripLast(old(a[k]))
  {
    var i := 0;
    while i < a.Length
      invariant 0 <= i <= a.Length
      invariant forall k :: 0 <= k < i ==> a[k] == StripLast(old(a[k]))
      invariant forall k :: i <= k < a.Length ==> a[k] == old(a[k])
    {
      a[i] := StripLast(a[i]);
      i := i + 1;
    }
  }

  /** `df.loc[mask, "ICON"] += tag` for the rows whose period satisfies the mask. */
  method AppendTag(a: array<string>, periods: seq<Period>, evening: bool, tag: string)
    requires |periods| == a.Length
    modifies a
    ensures forall k :: 0 <= k < a.Length && (periods[k] == Evening) == evening ==> a[k] == old(a[k]) + tag
    ensures forall k :: 0 <= k < a.Length && (periods[k] == Evening) != evening ==> a[k] == old(a[k])
  {
    var i := 0;
    while i < a.Length
      invariant 0 <= i <= a.Length
      invariant forall k :: 0 <= k < i && (periods[k] == Evening) == evening ==> a[k] == old(a[k]) + tag
      invariant forall k :: 0 <= k < i && (periods[k] == Evening) != evening ==> a[k] == old(a[k])
      invariant forall k :: i <= k < a.Length ==> a[k] == old(a[k])
    {
      if (periods[i] == Evening) == evening {
        a[i] := a[i] + tag;
      }
      i := i + 1;
    }
  }

  /** The three column edits of `views.py:121-123`, each over the whole ICON column. */
  method RewriteIconSuffixes(icons: seq<string>, periods: seq<Period>) returns (out: seq<string>)
    requires |periods| == |icons|
    ensures |out| == |icons|
    ensures forall i :: 0 <= i < |icons| ==> out[i] == SuffixIcon(icons[i], periods[i])
  {
    var a := new string[|icons|](i requires 0 <= i < |icons| => icons[i]);
    StripTags(a);
    AppendTag(a, periods, false, "d");
    AppendTag(a, periods, true, "n");
    out := a[..];
  }

  function ToEntry(a: Annotated): Entry
  {
    Entry(a.date, a.day, a.hi, a.lo, a.period, a.condition, SuffixIcon(a.icon, a.period))
  }

  /** The surviving rows with their icons rewritten, projected and `drop_duplicates`-ed. */
  function LongTable(rows: seq<Annotated>): seq<Entry>
  {
    var kept := Dominant(rows);
    Distinct(seq(|kept|, i requires 0 <= i < |kept| => ToEntry(kept[i])))
  }

  /** Every row of the long table comes from a surviving row. */
  lemma LongTableSound(rows: seq<Annotated>)
    ensures forall e :: e in LongTable(rows) ==>
              exists m :: 0 <= m < |rows| && Survives(rows, rows[m]) && e == ToEntry(rows[m])
  {
    var kept := Dominant(rows);
    var entries := seq(|kept|, i requires 0 <= i < |kept| => ToEntry(kept[i]));
    forall e | e in LongTable(rows)
      ensures exists m :: 0 <= m < |rows| && Survives(rows, rows[m]) && e == ToEntry(rows[m])
    {
      var k :| 0 <= k < |entries| && entries[k] == e;
      assert kept[k] in rows;
      var m :| 0 <= m < |rows| && rows[m] == kept[k];
    }
  }

  /** `drop_duplicates` leaves no row twice. */
  lemma LongTableDistinct(rows: seq<Annotated>)
    ensures forall i, j :: 0 <= i < j < |LongTable(rows)| ==> LongTable(rows)[i] != LongTable(rows)[j]
  {
  }

  /** Every surviving row is represented in the long table. */
  lemma LongTableComplete(rows: seq<Annotated>)
    ensures forall m :: 0 <= m < |rows| && Survives(rows, rows[m]) ==> ToEntry(rows[m]) in LongTable(rows)
  {
    var kept := Dominant(rows);
    var entries := seq(|kept|, i requires 0 <= i < |kept| => ToEntry(kept[i]));
    forall m | 0 <= m < |rows| && Survives(rows, rows[m])
      ensures ToEntry(rows[m]) in LongTable(rows)
    {
      assert rows[m] in kept;
      var k :| 0 <= k < |kept| && kept[k] == rows[m];
      assert entries[k] == ToEntry(rows[m]);
    }
  }

  ghost predicate ConsistentEntries(L: seq<Entry>)
  {
    forall i, j :: 0 <= i < |L| && 0 <= j < |L| && L[i].date == L[j].date ==>
      L[i].day == L[j].day && L[i].hi == L[j].hi && L[i].lo == L[j].lo
  }

  lemma LongTableConsistent(rows: seq<Annotated>)
    requires ConsistentRows(rows)
    ensures ConsistentEntries(LongTable(rows))
  {
    var L := LongTable(rows);
    LongTableSound(rows);
    forall i, j | 0 <= i < |L| && 0 <= j < |L| && L[i].date == L[j].date
      ensures L[i].day == L[j].day && L[i].hi == L[j].hi && L[i].lo == L[j].lo
    {
      assert L[i] in L && L[j] in L;
      var m :| 0 <= m < |rows| && Survives(rows, rows[m]) && L[i] == ToEntry(rows[m]);
      var n :| 0 <= n < |rows| && Survives(rows, rows[n]) && L[j] == ToEntry(rows[n]);
    }
  }

  /** `unstack` fails when the index (DATE, DAY, HI, LO, PERIOD) repeats. */
  predicate HasDuplicateKey(L: seq<Entry>)
  {
    exists i, j :: 0 <= i < j < |L| && L[i].date == L[j].date && L[i].day == L[j].day &&
                   L[i].hi == L[j].hi && L[i].lo == L[j].lo && L[i].period == L[j].period
  }

  predicate HasPeriod(L: seq<Entry>, p: Period)
  {
    exists i :: 0 <= i < |L| && L[i].period == p
  }

  // ---------------------------------------------------------------------------------------
  // The pivot to one row per DATE

  function Dates(L: seq<Entry>): seq<int>
  {
    seq(|L|, i requires 0 <= i < |L| => L[i].date)
  }

  /** The first long row of a (DATE, PERIOD) cell of the wide table, if any. */
  function Find(L: seq<Entry>, date: int, p: Period): (r: Option<Entry>)
    ensures r.Some? ==> r.value in L && r.value.date == date && r.value.period == p
    ensures r.None? ==> forall i :: 0 <= i < |L| ==> L[i].date != date || L[i].period != p
  {
    if L == [] then None
    else if L[0].date == date && L[0].period == p then Some(L[0])
    else
      assert forall i :: 1 <= i < |L| ==> L[i] == L[1..][i - 1];
      Find(L[1..], date, p)
  }

  function ConditionCell(L: seq<Entry>, date: int, p: Period): Option<Cell>
  {
    match Find(L, date, p)
    case None => None
    case Some(e) => Some(Text(e.condition))
  }

  function IconCell(L: seq<Entry>, date: int, p: Period): Option<Cell>
  {
    match Find(L, date, p)
    case None => None
    case Some(e) => Some(Text(e.icon))
  }

  /** The wide row of one date, before the fill, columns in `col_order`. */
  function PivotRow(L: seq<Entry>, date: int): (r: Row)
    requires date in Dates(L)
  {
    var on := Filter(L, (e: Entry) => e.date == date);
    var k :| 0 <= k < |Dates(L)| && Dates(L)[k] == date;
    assert L[k] in on;
    var key := on[0];
    [Some(DateCell(date)), Some(Text(key.day)), Some(Number(key.hi)), Some(Number(key.lo)),
     ConditionCell(L, date, Morning), ConditionCell(L, date, Noon), ConditionCell(L, date, Evening),
     IconCell(L, date, Morning), IconCell(L, date, Noon), IconCell(L, date, Evening)]
  }

  /** `set_index([...]).unstack("PERIOD").reset_index()` followed by `df[col_order]`. */
  function Pivot(L: seq<Entry>): seq<Row>
  {
    var D := SortedUnique(Dates(L));
    seq(|D|, i requires 0 <= i < |D| => PivotRow(L, D[i]))
  }

  function FillTable(t: seq<Row>): seq<Row>
  {
    seq(|t|, i requires 0 <= i < |t| => FilledRow(t[i]))
  }

  /** `_process_forecast_response` from the priority filter to the fill
      (`views.py:118-148`), on the annotated frame. */
  function ProcessRows(rows: seq<Annotated>): Result<seq<Row>>
  {
    var L := LongTable(rows);
    if HasDuplicateKey(L) then Err(DuplicateEntries)
    else if !(HasPeriod(L, Morning) && HasPeriod(L, Noon) && HasPeriod(L, Evening)) then Err(MissingColumns)
    else Ok(FillTable(Pivot(L)))
  }

  /** `_process_forecast_response`, with the exceptions it raises as errors. */
  function ProcessForecast(response: ForecastResponse): Result<seq<Row>>
  {
    if |response.slots| == 0 then Err(EmptyForecast)
    else ProcessRows(Annotate(Localize(response.slots, response.timezone)))
  }

  /** Two surviving rows of one date and period that differ in CONDITION or in rewritten ICON
      repeat the `unstack` index, so the processing fails. */
  lemma ConflictFails(rows: seq<Annotated>, m: int, n: int)
    requires ConsistentRows(rows)
    requires 0 <= m < |rows| && 0 <= n < |rows| && Survives(rows, rows[m]) && Survives(rows, rows[n])
    requires rows[m].date == rows[n].date && rows[m].period == rows[n].period
    requires rows[m].condition != rows[n].condition ||
             SuffixIcon(rows[m].icon, rows[m].period) != SuffixIcon(rows[n].icon, rows[n].period)
    ensures ProcessRows(rows) == Err(DuplicateEntries)
  {
    var L := LongTable(rows);
    LongTableComplete(rows);
    var e, e' := ToEntry(rows[m]), ToEntry(rows[n]);
    assert e in L && e' in L && e != e';
    var i :| 0 <= i < |L| && L[i] == e;
    var j :| 0 <= j < |L| && L[j] == e';
    if i < j {
      assert L[i].date == L[j].date && L[i].day == L[j].day && L[i].hi == L[j].hi &&
             L[i].lo == L[j].lo && L[i].period == L[j].period;
    } else {
      assert L[j].date == L[i].date && L[j].day == L[i].day && L[j].hi == L[i].hi &&
             L[j].lo == L[i].lo && L[j].period == L[i].period;
    }
  }

  /** A repeated `unstack` index comes from two surviving rows of one date and period that
      differ in CONDITION or in rewritten ICON. */
  lemma DuplicateMeansConflict(rows: seq<Annotated>)
    requires ProcessRows(rows) == Err(DuplicateEntries)
    ensures exists m, n :: 0 <= m < |rows| && 0 <= n < |rows| &&
              Survives(rows, rows[m]) && Survives(rows, rows[n]) &&
              rows[m].date == rows[n].date && rows[m].period == rows[n].period &&
              (rows[m].condition != rows[n].condition ||
               SuffixIcon(rows[m].icon, rows[m].period) != SuffixIcon(rows[n].icon, rows[n].period))
  {
    var L := LongTable(rows);
    LongTableSound(rows);
    LongTableDistinct(rows);
    var i, j :| 0 <= i < j < |L| && L[i].date == L[j].date && L[i].day == L[j].day &&
                L[i].hi == L[j].hi && L[i].lo == L[j].lo && L[i].period == L[j].period;
    assert L[i] in L && L[j] in L && L[i] != L[j];
    var m :| 0 <= m < |rows| && Survives(rows, rows[m]) && L[i] == ToEntry(rows[m]);
    var n :| 0 <= n < |rows| && Survives(rows, rows[n]) && L[j] == ToEntry(rows[n]);
  }

  /** A period in which no row survives leaves a `col_order` column missing, so the
      processing fails, with MissingColumns unless the index already repeated. */
  lemma MissingPeriodFails(rows: seq<Annotated>, p: Period)
    requires forall m :: 0 <= m < |rows| && Survives(rows, rows[m]) ==> rows[m].period != p
    ensures ProcessRows(rows).Err?
    ensures !HasDuplicateKey(LongTable(rows)) ==> ProcessRows(rows) == Err(MissingColumns)
  {
    var L := LongTable(rows);
    LongTableSound(rows);
    forall i | 0 <= i < |L|
      ensures L[i].period != p
    {
      assert L[i] in L;
    }
  }

  /** A successful processing has a surviving row in every period. */
  lemma OkHasEveryPeriod(rows: seq<Annotated>, p: Period)
    requires ProcessRows(rows).Ok?
    ensures exists m :: 0 <= m < |rows| && Survives(rows, rows[m]) && rows[m].period == p
  {
    if !exists m :: 0 <= m < |rows| && Survives(rows, rows[m]) && rows[m].period == p {
      MissingPeriodFails(rows, p);
    }
  }

  /** The long table of a response agrees on DAY, HI and LO within each date. */
  lemma AnnotateEntriesConsistent(obs: seq<Observation>, offset: int)
    ensures ConsistentEntries(LongTable(Annotate(Localize(obs, offset))))
  {
    AnnotateConsistent(obs, offset);
    LongTableConsistent(Annotate(Localize(obs, offset)));
  }

  // ---------------------------------------------------------------------------------------
  // What the processed table says

  /** What each frame row holds, read off its slot. */
  lemma AnnotateFacts(obs: seq<Observation>, offset: int)
    ensures var slots := Localize(obs, offset);
            var rows := Annotate(slots);
            && |rows| == |obs|
            && forall m :: 0 <= m < |rows| ==>
                 && rows[m].date == DateOf(LocalTime(obs[m].dtUtc, offset))
                 && rows[m].day == DayLabel(rows[m].date)
                 && HasDate(slots, rows[m].date)
                 && rows[m].hi == DailyHigh(slots, rows[m].date)
                 && rows[m].lo == DailyLow(slots, rows[m].date)
                 && rows[m].icon == obs[m].icon
  {
  }

  /** Each (DAY, PERIOD) group lies within one date. */
  ghost predicate GroupsWithinDates(rows: seq<Annotated>)
  {
    forall i, j :: 0 <= i < |rows| && 0 <= j < |rows| && rows[i].day == rows[j].day ==> rows[i].date == rows[j].date
  }

  /** A ranked row keeps its date represented among the survivors when groups lie within
      dates. */
  lemma {:induction false} RankedDateSurvives(rows: seq<Annotated>, j: int)
    requires GroupsWithinDates(rows)
    requires 0 <= j < |rows| && Rank(rows[j].icon).Some?
    ensures exists m :: 0 <= m < |rows| && Survives(rows, rows[m]) && rows[m].date == rows[j].date
  {
    var a := rows[j];
    BestRankIsGroupMinimum(rows, a.day, a.period);
    var m :| 0 <= m < |rows| && rows[m].day == a.day && rows[m].period == a.period &&
             Rank(rows[m].icon) == BestRank(rows, a.day, a.period);
    assert Survives(rows, rows[m]);
  }

  /** The dates held in the DATE column of a wide table. */
  function TableDates(t: seq<Row>): set<int>
  {
    set i | 0 <= i < |t| && |t[i]| > DateColumn && t[i][DateColumn].Some? && t[i][DateColumn].value.DateCell? ::
      t[i][DateColumn].value.days
  }

  /** The dates of a long table. */
  function EntryDates(L: seq<Entry>): set<int>
  {
    set x | 0 <= x < |L| :: L[x].date
  }

  /** The dates of the rows that pass the priority filter. */
  function SurvivorDates(rows: seq<Annotated>): set<int>
  {
    set m | 0 <= m < |rows| && Survives(rows, rows[m]) :: rows[m].date
  }

  /** The dates of all rows of the frame. */
  function FrameDates(rows: seq<Annotated>): set<int>
  {
    set m | 0 <= m < |rows| :: rows[m].date
  }

  /** The pivot and fill of any long table: one row per distinct date in ascending order,
      ten columns, and no missing cell. */
  lemma PivotShape(L: seq<Entry>)
    ensures var t := FillTable(Pivot(L));
            var D := SortedUnique(Dates(L));
            && |t| == |D|
            && (forall i :: 0 <= i < |t| ==> |t[i]| == |ColumnOrder| && t[i][DateColumn] == Some(DateCell(D[i])))
            && (forall i, c :: 0 <= i < |t| && 0 <= c < |t[i]| ==> t[i][c].Some?)
            && (forall i, j :: 0 <= i < j < |t| ==> D[i] < D[j])
  {
    var P := Pivot(L);
    var t := FillTable(P);
    forall i | 0 <= i < |t|
      ensures |t[i]| == |ColumnOrder| && t[i][DateColumn] == P[i][DateColumn]
      ensures forall c :: 0 <= c < |t[i]| ==> t[i][c].Some?
    {
      FilledRowFacts(P[i]);
    }
  }

  /** A long table with any row yields at least one wide row. */
  lemma PivotNonEmpty(L: seq<Entry>)
    requires |L| > 0
    ensures |FillTable(Pivot(L))| > 0
  {
    PivotDates(L, L[0].date);
  }

  /** The wide table of a non-empty long table: non-empty, ten present cells per row, and
      DATE cells strictly ascending. */
  lemma PivotTableShape(L: seq<Entry>)
    requires |L| > 0
    ensures var t := FillTable(Pivot(L));
            && |t| > 0
            && (forall i :: 0 <= i < |t| ==> |t[i]| == |ColumnOrder| && t[i][DateColumn].Some? && t[i][DateColumn].value.DateCell?)
            && (forall i, c :: 0 <= i < |t| && 0 <= c < |t[i]| ==> t[i][c].Some?)
            && (forall i, j :: 0 <= i < j < |t| ==> t[i][DateColumn].value.days < t[j][DateColumn].value.days)
  {
    var t: seq<Row> := FillTable(Pivot(L));
    var D: seq<int> := SortedUnique(Dates(L));
    PivotShape(L);
    PivotNonEmpty(L);
    forall i: int, j: int | 0 <= i < j < |t|
      ensures t[i][DateColumn].value.days < t[j][DateColumn].value.days
    {
      assert t[i][DateColumn].value.days == D[i] && t[j][DateColumn].value.days == D[j];
    }
  }

  /** A date is a key of the pivot exactly when some long row carries it. */
  lemma PivotDates(L: seq<Entry>, d: int)
    ensures d in SortedUnique(Dates(L)) <==> exists x :: 0 <= x < |L| && L[x].date == d
  {
    if d in SortedUnique(Dates(L)) {
      var x :| 0 <= x < |Dates(L)| && Dates(L)[x] == d;
    }
    if exists x :: 0 <= x < |L| && L[x].date == d {
      var x :| 0 <= x < |L| && L[x].date == d;
      assert Dates(L)[x] == d;
    }
  }

  /** The pivot keeps exactly the dates of the long table. */
  lemma PivotTableDates(L: seq<Entry>)
    ensures TableDates(FillTable(Pivot(L))) == EntryDates(L)
  {
    var t := FillTable(Pivot(L));
    var D := SortedUnique(Dates(L));
    PivotShape(L);
    forall d
      ensures d in TableDates(t) <==> d in EntryDates(L)
    {
      PivotDates(L, d);
      if d in TableDates(t) {
        var i :| 0 <= i < |t| && |t[i]| > DateColumn && t[i][DateColumn].Some? && t[i][DateColumn].value.DateCell? &&
                 t[i][DateColumn].value.days == d;
        assert D[i] == d;
      }
      if d in EntryDates(L) {
        var i :| 0 <= i < |D| && D[i] == d;
        assert t[i][DateColumn] == Some(DateCell(d));
      }
    }
  }

  /** The long table carries exactly the dates of the surviving rows. */
  lemma LongTableDates(rows: seq<Annotated>)
    ensures EntryDates(LongTable(rows)) == SurvivorDates(rows)
  {
    var L := LongTable(rows);
    forall d
      ensures d in EntryDates(L) <==> d in SurvivorDates(rows)
    {
      if d in EntryDates(L) {
        var x :| 0 <= x < |L| && L[x].date == d;
        assert L[x] in L;
        LongTableSound(rows);
        var m :| 0 <= m < |rows| && Survives(rows, rows[m]) && L[x] == ToEntry(rows[m]);
      }
      if d in SurvivorDates(rows) {
        LongTableComplete(rows);
        var m :| 0 <= m < |rows| && Survives(rows, rows[m]) && rows[m].date == d;
        var x :| 0 <= x < |L| && L[x] == ToEntry(rows[m]);
      }
    }
  }

  /** Two long rows of one (DATE, PERIOD) cell are equal unless the index repeats. */
  lemma CellIsUnique(L: seq<Entry>, e: Entry, e': Entry)
    requires ConsistentEntries(L) && !HasDuplicateKey(L)
    requires e in L && e' in L && e.date == e'.date && e.period == e'.period
    ensures e == e'
  {
    var x :| 0 <= x < |L| && L[x] == e;
    var y :| 0 <= y < |L| && L[y] == e';
    if x < y {
      assert L[x].date == L[y].date && L[x].period == L[y].period;
    } else if y < x {
      assert L[y].date == L[x].date && L[y].period == L[x].period;
    }
  }

  /** The cells of one wide row after the fill, DAY, HI and LO: those of a long row of the
      date. */
  lemma PivotKeyCells(L: seq<Entry>, i: int)
    requires 0 <= i < |SortedUnique(Dates(L))|
    ensures var t := FillTable(Pivot(L));
            var d := SortedUnique(Dates(L))[i];
            && |t| == |SortedUnique(Dates(L))| && |t[i]| == |ColumnOrder|
            && exists e :: e in L && e.date == d && t[i][DayColumn] == Some(Text(e.day)) &&
                           t[i][HiColumn] == Some(Number(e.hi)) && t[i][LoColumn] == Some(Number(e.lo))
  {
    var D := SortedUnique(Dates(L));
    var P := Pivot(L);
    var d := D[i];
    FilledRowFacts(P[i]);
    var on := Filter(L, (e: Entry) => e.date == d);
    assert D[i] in Dates(L);
    var x :| 0 <= x < |L| && Dates(L)[x] == d;
    assert L[x] in on;
    var key := on[0];
    assert key in L && key.date == d;
    assert P[i][DayColumn] == Some(Text(key.day));
    assert P[i][HiColumn] == Some(Number(key.hi));
    assert P[i][LoColumn] == Some(Number(key.lo));
  }

  /** The condition and icon cells of a period sit in that period's columns of the row. */
  lemma PivotRowPeriodCells(L: seq<Entry>, date: int, p: Period)
    requires date in Dates(L)
    ensures var r := PivotRow(L, date);
            && |r| == |ColumnOrder|
            && r[ConditionColumn(p)] == ConditionCell(L, date, p)
            && r[IconColumn(p)] == IconCell(L, date, p)
  {
  }

  /** For a period with a long row on the date: its condition and icon. */
  lemma PivotPresentCells(L: seq<Entry>, i: int, p: Period, e: Entry)
    requires ConsistentEntries(L) && !HasDuplicateKey(L)
    requires 0 <= i < |SortedUnique(Dates(L))|
    requires e in L && e.date == SortedUnique(Dates(L))[i] && e.period == p
    ensures var t := FillTable(Pivot(L));
            && |t| == |SortedUnique(Dates(L))| && |t[i]| == |ColumnOrder|
            && t[i][ConditionColumn(p)] == Some(Text(e.condition)) && t[i][IconColumn(p)] == Some(Text(e.icon))
  {
    var P := Pivot(L);
    var d := SortedUnique(Dates(L))[i];
    PivotRowPeriodCells(L, d, p);
    FilledRowFacts(P[i]);
    var f := Find(L, d, p);
    CellIsUnique(L, f.value, e);
    assert P[i][ConditionColumn(p)] == Some(Text(e.condition));
    assert P[i][IconColumn(p)] == Some(Text(e.icon));
  }

  /** For a period without a long row on the date: the filled value to the left. */
  lemma PivotAbsentCells(L: seq<Entry>, i: int, p: Period)
    requires 0 <= i < |SortedUnique(Dates(L))|
    requires forall x :: 0 <= x < |L| && L[x].date == SortedUnique(Dates(L))[i] ==> L[x].period != p
    ensures var t := FillTable(Pivot(L));
            && |t| == |SortedUnique(Dates(L))| && |t[i]| == |ColumnOrder|
            && t[i][ConditionColumn(p)] == t[i][ConditionColumn(p) - 1]
            && t[i][IconColumn(p)] == t[i][IconColumn(p) - 1]
  {
    var P := Pivot(L);
    var d := SortedUnique(Dates(L))[i];
    PivotRowPeriodCells(L, d, p);
    FilledRowFacts(P[i]);
    assert Find(L, d, p).None?;
    assert P[i][ConditionColumn(p)].None? && P[i][IconColumn(p)].None?;
  }

  /** On the frame rows: at least one wide row, ten columns per row, none missing after
      the fill, and strictly ascending dates. */
  lemma RowsTableShape(rows: seq<Annotated>)
    requires ProcessRows(rows).Ok?
    ensures var t := ProcessRows(rows).value;
            && |t| > 0
            && (forall i :: 0 <= i < |t| ==> |t[i]| == |ColumnOrder| && t[i][DateColumn].Some? && t[i][DateColumn].value.DateCell?)
            && (forall i, c :: 0 <= i < |t| && 0 <= c < |t[i]| ==> t[i][c].Some?)
            && (forall i, j :: 0 <= i < j < |t| ==> t[i][DateColumn].value.days < t[j][DateColumn].value.days)
  {
    var L := LongTable(rows);
    assert ProcessRows(rows) == Ok(FillTable(Pivot(L)));
    PivotTableShape(L);
  }

  /** On the frame rows: the table's dates are exactly the dates of the surviving rows. */
  lemma RowsTableDates(rows: seq<Annotated>)
    requires ProcessRows(rows).Ok?
    ensures TableDates(ProcessRows(rows).value) == SurvivorDates(rows)
  {
    var L := LongTable(rows);
    assert ProcessRows(rows) == Ok(FillTable(Pivot(L)));
    PivotTableDates(L);
    LongTableDates(rows);
  }

  /** On the frame rows: DAY, HI and LO of a row are those of a surviving row of its
      date. */
  lemma RowsKeyCells(rows: seq<Annotated>, i: int)
    requires ProcessRows(rows).Ok?
    requires 0 <= i < |ProcessRows(rows).value|
    ensures var t := ProcessRows(rows).value;
            && |t[i]| == |ColumnOrder| && t[i][DateColumn].Some? && t[i][DateColumn].value.DateCell?
            && exists m :: 0 <= m < |rows| && Survives(rows, rows[m]) &&
                           t[i][DateColumn] == Some(DateCell(rows[m].date)) &&
                           t[i][DayColumn] == Some(Text(rows[m].day)) &&
                           t[i][HiColumn] == Some(Number(rows[m].hi)) && t[i][LoColumn] == Some(Number(rows[m].lo))
  {
    var L := LongTable(rows);
    var D := SortedUnique(Dates(L));
    var t := FillTable(Pivot(L));
    assert ProcessRows(rows) == Ok(t);
    PivotShape(L);
    PivotKeyCells(L, i);
    var key :| key in L && key.date == D[i] && t[i][DayColumn] == Some(Text(key.day)) &&
               t[i][HiColumn] == Some(Number(key.hi)) && t[i][LoColumn] == Some(Number(key.lo));
    LongTableSound(rows);
    var mk :| 0 <= mk < |rows| && Survives(rows, rows[mk]) && key == ToEntry(rows[mk]);
  }

  /** On the frame rows: a period with surviving rows on a row's date holds the condition
      and re-tagged icon of every one of them. */
  lemma RowsPresentCells(rows: seq<Annotated>, i: int, p: Period)
    requires ConsistentEntries(LongTable(rows)) && ProcessRows(rows).Ok?
    requires 0 <= i < |ProcessRows(rows).value|
    ensures var t := ProcessRows(rows).value;
            && |t[i]| == |ColumnOrder| && t[i][DateColumn].Some? && t[i][DateColumn].value.DateCell?
            && var d := t[i][DateColumn].value.days;
            && forall m :: 0 <= m < |rows| && Survives(rows, rows[m]) && rows[m].date == d && rows[m].period == p ==>
                  t[i][ConditionColumn(p)] == Some(Text(rows[m].condition)) &&
                  t[i][IconColumn(p)] == Some(Text(SuffixIcon(rows[m].icon, p)))
  {
    var L := LongTable(rows);
    var D := SortedUnique(Dates(L));
    var t := FillTable(Pivot(L));
    assert ProcessRows(rows) == Ok(t);
    PivotShape(L);
    LongTableComplete(rows);
    forall m | 0 <= m < |rows| && Survives(rows, rows[m]) && rows[m].date == D[i] && rows[m].period == p
      ensures t[i][ConditionColumn(p)] == Some(Text(rows[m].condition))
      ensures t[i][IconColumn(p)] == Some(Text(SuffixIcon(rows[m].icon, p)))
    {
      PivotPresentCells(L, i, p, ToEntry(rows[m]));
    }
  }

  /** On the frame rows: a period without surviving rows on a row's date holds the filled
      value of the column to its left. */
  lemma RowsAbsentCells(rows: seq<Annotated>, i: int, p: Period)
    requires ProcessRows(rows).Ok?
    requires 0 <= i < |ProcessRows(rows).value|
    ensures var t := ProcessRows(rows).value;
            && |t[i]| == |ColumnOrder| && t[i][DateColumn].Some? && t[i][DateColumn].value.DateCell?
            && var d := t[i][DateColumn].value.days;
            && ((forall m :: 0 <= m < |rows| && Survives(rows, rows[m]) && rows[m].date == d ==> rows[m].period != p) ==>
                  t[i][ConditionColumn(p)] == t[i][ConditionColumn(p) - 1] &&
                  t[i][IconColumn(p)] == t[i][IconColumn(p) - 1])
  {
    var L := LongTable(rows);
    var D := SortedUnique(Dates(L));
    var t := FillTable(Pivot(L));
    assert ProcessRows(rows) == Ok(t);
    PivotShape(L);
    if forall m :: 0 <= m < |rows| && Survives(rows, rows[m]) && rows[m].date == D[i] ==> rows[m].period != p {
      LongTableSound(rows);
      forall x | 0 <= x < |L| && L[x].date == D[i]
        ensures L[x].period != p
      {
        assert L[x] in L;
        var m :| 0 <= m < |rows| && Survives(rows, rows[m]) && L[x] == ToEntry(rows[m]);
      }
      PivotAbsentCells(L, i, p);
    }
  }

  /** The table has at least one row; every row has the ten columns of `col_order`, none
      missing after the fill; dates strictly ascend; and the dates are exactly those of the
      slots that survived the priority filter. */
  lemma ProcessedTableShape(response: ForecastResponse)
    requires ProcessForecast(response).Ok?
    ensures var t := ProcessForecast(response).value;
            var rows := Annotate(Localize(response.slots, response.timezone));
            && |t| > 0
            && (forall i :: 0 <= i < |t| ==> |t[i]| == |ColumnOrder| && t[i][DateColumn].Some? && t[i][DateColumn].value.DateCell?)
            && (forall i, c :: 0 <= i < |t| && 0 <= c < |t[i]| ==> t[i][c].Some?)
            && (forall i, j :: 0 <= i < j < |t| ==> t[i][DateColumn].value.days < t[j][DateColumn].value.days)
            && TableDates(t) == SurvivorDates(rows)
  {
    var rows := Annotate(Localize(response.slots, response.timezone));
    RowsTableShape(rows);
    RowsTableDates(rows);
  }

  /** The key cells of a processed row: the weekday label of its date and the date's HI
      and LO. */
  lemma ProcessedKeyCells(response: ForecastResponse, i: int)
    requires ProcessForecast(response).Ok?
    requires 0 <= i < |ProcessForecast(response).value|
    ensures var t := ProcessForecast(response).value;
            var slots := Localize(response.slots, response.timezone);
            && |t[i]| == |ColumnOrder| && t[i][DateColumn].Some? && t[i][DateColumn].value.DateCell?
            && var d := t[i][DateColumn].value.days;
            && HasDate(slots, d)
            && t[i][DayColumn] == Some(Text(DayLabel(d)))
            && t[i][HiColumn] == Some(Number(DailyHigh(slots, d)))
            && t[i][LoColumn] == Some(Number(DailyLow(slots, d)))
  {
    var rows := Annotate(Localize(response.slots, response.timezone));
    AnnotateFacts(response.slots, response.timezone);
    RowsKeyCells(rows, i);
  }

  /** Every icon of the response has a family in the table. */
  ghost predicate AllRanked(obs: seq<Observation>)
  {
    forall i :: 0 <= i < |obs| ==> Rank(obs[i].icon).Some?
  }

  /** No two slots are seven or more local days apart, so a weekday label names one date. */
  ghost predicate SpansUnderAWeek(obs: seq<Observation>, offset: int)
  {
    forall i, j :: 0 <= i < |obs| && 0 <= j < |obs| ==>
      -7 < DateOf(LocalTime(obs[i].dtUtc, offset)) - DateOf(LocalTime(obs[j].dtUtc, offset)) < 7
  }

  lemma WeekSpanGroupsWithinDates(obs: seq<Observation>, offset: int)
    requires SpansUnderAWeek(obs, offset)
    ensures GroupsWithinDates(Annotate(Localize(obs, offset)))
  {
    var rows := Annotate(Localize(obs, offset));
    AnnotateFacts(obs, offset);
    forall i, j | 0 <= i < |rows| && 0 <= j < |rows| && rows[i].day == rows[j].day
      ensures rows[i].date == rows[j].date
    {
      SameLabelWithinAWeek(rows[i].date, rows[j].date);
    }
  }

  /** When every icon is ranked and groups lie within dates, every date of the frame keeps
      a surviving row. */
  lemma SurvivorsCoverFrame(rows: seq<Annotated>)
    requires forall j :: 0 <= j < |rows| ==> Rank(rows[j].icon).Some?
    requires GroupsWithinDates(rows)
    ensures SurvivorDates(rows) == FrameDates(rows)
  {
    forall d | d in FrameDates(rows)
      ensures d in SurvivorDates(rows)
    {
      var j :| 0 <= j < |rows| && rows[j].date == d;
      RankedDateSurvives(rows, j);
    }
  }

  /** The DATE column of the frame holds the local date of every slot. */
  lemma FrameDatesAreLocalDates(obs: seq<Observation>, offset: int)
    ensures FrameDates(Annotate(Localize(obs, offset))) ==
            set j | 0 <= j < |obs| :: DateOf(LocalTime(obs[j].dtUtc, offset))
  {
    AnnotateFacts(obs, offset);
  }

  /** When every icon is ranked and the slots span under a week, the processed table has
      one row for each local date of the response, and no other. */
  lemma ProcessKeepsEveryDate(response: ForecastResponse)
    requires ProcessForecast(response).Ok?
    requires AllRanked(response.slots) && SpansUnderAWeek(response.slots, response.timezone)
    ensures TableDates(ProcessForecast(response).value) ==
            set j | 0 <= j < |response.slots| :: DateOf(LocalTime(response.slots[j].dtUtc, response.timezone))
  {
    var obs, offset := response.slots, response.timezone;
    var rows := Annotate(Localize(obs, offset));
    assert ProcessForecast(response) == ProcessRows(rows);
    AnnotateFacts(obs, offset);
    WeekSpanGroupsWithinDates(obs, offset);
    RowsTableDates(rows);
    SurvivorsCoverFrame(rows);
    FrameDatesAreLocalDates(obs, offset);
  }
}
