/** Responses the processing succeeds on: a frame holding one ranked slot per period, and a
    concrete Thursday with a clear morning, a rainy noon and a clear evening. */
module Scenarios {
  import opened Calendar
  import opened Priority
  import opened Aggregation

  /** Three frame rows, one per period and each ranked, pass the filter, give each period a
      column and repeat no index, so the pivot succeeds. */
  lemma OnePerPeriodProcesses(rows: seq<Annotated>)
    requires |rows| == 3
    requires rows[0].period == Morning && rows[1].period == Noon && rows[2].period == Evening
    requires forall k :: 0 <= k < 3 ==> Rank(rows[k].icon).Some?
    ensures ProcessRows(rows).Ok?
  {
    assert forall b :: b in rows ==> b == rows[0] || b == rows[1] || b == rows[2];
    BestRankOfMostSevere(rows, rows[0]);
    BestRankOfMostSevere(rows, rows[1]);
    BestRankOfMostSevere(rows, rows[2]);
    var L := LongTable(rows);
    LongTableComplete(rows);
    assert ToEntry(rows[0]) in L && ToEntry(rows[1]) in L && ToEntry(rows[2]) in L;
    assert HasPeriod(L, Morning) && HasPeriod(L, Noon) && HasPeriod(L, Evening);
    OnePerPeriodUnique(rows);
  }

  /** One frame row per period leaves no repeated (DATE, DAY, HI, LO, PERIOD) index. */
  lemma OnePerPeriodUnique(rows: seq<Annotated>)
    requires |rows| == 3
    requires rows[0].period == Morning && rows[1].period == Noon && rows[2].period == Evening
    ensures !HasDuplicateKey(LongTable(rows))
  {
    LongTableSound(rows);
    LongTableDistinct(rows);
    UniqueByPeriod(LongTable(rows), rows);
  }

  /** A table without repeated rows, each projected from one of three rows in distinct
      periods, repeats no index. */
  lemma UniqueByPeriod(L: seq<Entry>, rows: seq<Annotated>)
    requires |rows| == 3
    requires rows[0].period == Morning && rows[1].period == Noon && rows[2].period == Evening
    requires forall i, j :: 0 <= i < j < |L| ==> L[i] != L[j]
    requires forall e :: e in L ==> exists m :: 0 <= m < |rows| && e == ToEntry(rows[m])
    ensures !HasDuplicateKey(L)
  {
    if HasDuplicateKey(L) {
      var i, j :| 0 <= i < j < |L| && L[i].date == L[j].date && L[i].day == L[j].day &&
                  L[i].hi == L[j].hi && L[i].lo == L[j].lo && L[i].period == L[j].period;
      assert L[i] in L && L[j] in L;
      var m :| 0 <= m < |rows| && L[i] == ToEntry(rows[m]);
      var n :| 0 <= n < |rows| && L[j] == ToEntry(rows[n]);
      assert rows[m].period == rows[n].period;
      PeriodsApart(rows, m, n);
      assert false;
    }
  }

  /** Of three rows in distinct periods, two with the same period are the same row. */
  lemma PeriodsApart(rows: seq<Annotated>, m: int, n: int)
    requires |rows| == 3
    requires rows[0].period == Morning && rows[1].period == Noon && rows[2].period == Evening
    requires 0 <= m < 3 && 0 <= n < 3 && rows[m].period == rows[n].period
    ensures m == n
  {
  }

  /** Three slots on 1970-01-01 at 06:00, 13:00 and 19:00 UTC, with no offset. */
  const Thursday: ForecastResponse :=
    ForecastResponse(0, [Observation(6 * 3600, 10, 12, "Clear", "01d"),
                         Observation(13 * 3600, 14, 18, "Rain", "10d"),
                         Observation(19 * 3600, 9, 11, "Clear", "01n")])

  /** A response of three ranked slots whose local hours fall in MORNING, NOON and EVENING
      processes successfully. */
  lemma OnePerPeriodResponse(response: ForecastResponse)
    requires |response.slots| == 3
    requires forall k :: 0 <= k < 3 ==> Rank(response.slots[k].icon).Some?
    requires HourOf(LocalTime(response.slots[0].dtUtc, response.timezone)) < 12
    requires 12 <= HourOf(LocalTime(response.slots[1].dtUtc, response.timezone)) < 18
    requires 18 <= HourOf(LocalTime(response.slots[2].dtUtc, response.timezone))
    ensures ProcessForecast(response).Ok?
  {
    var obs, offset := response.slots, response.timezone;
    var rows := Annotate(Localize(obs, offset));
    assert ProcessForecast(response) == ProcessRows(rows);
    LocalBuckets(obs, offset, 0);
    LocalBuckets(obs, offset, 1);
    LocalBuckets(obs, offset, 2);
    AnnotateFacts(obs, offset);
    OnePerPeriodProcesses(rows);
  }

  /** The Thursday response processes successfully. */
  lemma ThursdayProcessed()
    ensures ProcessForecast(Thursday).Ok?
  {
    assert Family("01d") == "01" && Family("10d") == "10" && Family("01n") == "01";
    assert "01" in PriorityIconMap && "10" in PriorityIconMap;
    OnePerPeriodResponse(Thursday);
  }

  /** Its table has one date, the slots' local date. */
  lemma ThursdayIsOneDate()
    ensures ProcessForecast(Thursday).Ok?
    ensures TableDates(ProcessForecast(Thursday).value) == {0}
  {
    var obs := Thursday.slots;
    ThursdayProcessed();
    ThursdayPreconditions();
    ProcessKeepsEveryDate(Thursday);
    assert DateOf(LocalTime(obs[0].dtUtc, 0)) == 0;
  }

  /** The Thursday slots share one local date and carry ranked icons. */
  lemma ThursdayPreconditions()
    ensures forall j :: 0 <= j < |Thursday.slots| ==> DateOf(LocalTime(Thursday.slots[j].dtUtc, 0)) == 0
    ensures AllRanked(Thursday.slots) && SpansUnderAWeek(Thursday.slots, 0)
  {
    assert Family("01d") == "01" && Family("10d") == "10" && Family("01n") == "01";
    assert "01" in PriorityIconMap && "10" in PriorityIconMap;
  }
}
