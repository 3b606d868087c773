# weatherdash forecast aggregation, in Dafny

weatherdash is a Django dashboard. Its `index` view shows the current conditions and a
multi-day forecast built from the OpenWeatherMap 5-day/3-hour forecast payload. This
project models the part of `weatherapp/views.py` that carries the logic:

- `_process_forecast_response` turns the list of 3-hour slots into one wide row per local
  date. The steps are: shift each slot by `city.timezone` seconds; derive DATE, DAY, HOUR
  and PERIOD (MORNING, NOON, EVENING); compute the per-date HI and LO; keep the most
  severe icon family per (DAY, PERIOD) group; re-tag the icon's day/night suffix; pivot to
  the ten columns of `col_order`; forward-fill each row.
- The "today missing" reconciliation in `index`: when the first row is not today, a row
  built from the current conditions is put in front.
- The loop that turns each row into a `dayN` entry of the page's `forecast` dictionary,
  and `DEFAULT_FORECAST` with `_FORECAST_ONE_DAY`.

## Modelling choices

- Timestamps are whole seconds. The local time is UTC plus the offset; the date is the
  day number (local div 86400); the hour is (local mod 86400) div 3600. The weekday label
  is taken from the date, with 1970-01-01 a Thursday.
- Temperatures are integers.
- A wide row is a sequence of ten `Option<Cell>` values in `col_order`. `None` is a
  missing (NaN) cell.
- The exceptions the processing raises are error values:
  - `EmptyForecast`: `pd.concat` of an empty list.
  - `DuplicateEntries`: `unstack` on a repeated (DATE, DAY, HI, LO, PERIOD) index.
  - `MissingColumns`: `df[col_order]` when a period appears nowhere in the table.
- The imperative steps are methods with loops:
  - `CollectSlots`: the append loop, lines 73-89.
  - `AssignPeriods`: the three masked PERIOD assignments.
  - `RewriteIconSuffixes`: the three ICON column edits, over an array.
  - `RowFill.FillRow`: the row-wise fill, over an array.
  - `Page.BuildForecast`: the dictionary-building loop.

  Each method is proved against a function, and the properties are proved about that
  function.
- The functions that model the source's steps:
  - `_process_forecast_response` is `Aggregation.ProcessForecast`. The slot loop and
    `pd.concat` are `Localize`; DATE, LO, HI, HOUR and PERIOD are `Annotate`, with
    `DailyLow` and `DailyHigh`.
  - The priority filter is `BestRank` and `Dominant`. The icon rewrite and
    `drop_duplicates` are `LongTable`. The pivot and `df[col_order]` are `Pivot` and
    `PivotRow`; the fill is `FillTable` over `RowFill.FilledRow`. The part after the
    annotation is `ProcessRows`.
  - In `index`, today's row is `Page.Placeholder` and the reconciliation `Page.Reconcile`.
    The `dayN` dictionary is `Page.ReconciledForecast`, `DEFAULT_FORECAST` is
    `Page.DefaultForecast`, and the forecast of one response is `Page.IndexForecast`.

The model follows the code in the following places where a tidier design of the same
system would differ:

- The dominant condition is grouped by (DAY, PERIOD), not by (DATE, PERIOD). Only the
  pivot uses DATE. `Aggregation.ProcessKeepsEveryDate` keeps every date under two
  conditions. Every icon must have a ranked family, since a slot with an unranked family
  is dropped. The slots must span less than a week, since only then does the weekday
  label name one date.
- An icon family missing from the priority table is not an error. It has no priority
  (NaN), fails the equality filter, and the row is dropped silently.
- The forward fill runs over the whole ten-column row, not just within one period's
  fields. A missing MORNING_CONDITION takes LO, and a missing MORNING_ICON takes
  EVENING_CONDITION. As a result, no cell of the processed table is ever missing, even
  when a date has no morning slot.
- Two different (CONDITION, ICON) rows that survive for the same (DATE, DAY, HI, LO,
  PERIOD) make `unstack` fail. This can happen with family "50", which covers several
  conditions. It is an error result here, the exception that makes `index` fall back to
  `DEFAULT_FORECAST`.
- There is no truncation to five days. Every row, including the prepended one, becomes a
  `dayN` entry. The default forecast is the only one guaranteed to have exactly five
  entries.

## Model

| member | source | states |
|---|---|---|
| Calendar.DateOf | weatherapp/views.py:92 | The date of a local time is the day whose 86400 seconds contain it |
| Calendar.HourOf | weatherapp/views.py:99 | The hour is in 0..23 and the time lies within that hour of its date |
| Calendar.DayLabel | weatherapp/views.py:82 | The DAY label is one of the seven upper-case weekday names |
| Calendar.SameLabelIffWeeksApart | weatherapp/views.py:82 | Two dates have the same DAY label exactly when they are a whole number of weeks apart |
| Calendar.SameLabelWithinAWeek | weatherapp/views.py:82 | Within a week, equal DAY labels mean the same date |
| Calendar.DayLabelAnchor | weatherapp/views.py:82 | Day -1 (1969-12-31) is WED, day 0 (1970-01-01) THU, day 1 FRI |
| Calendar.DayLabelFollows | weatherapp/views.py:82 | The day after a day carries the next label of the week, SUN followed by MON |
| Calendar.PeriodOf | weatherapp/views.py:100-103 | MORNING exactly when hour < 12, NOON exactly when 12 <= hour < 18, EVENING exactly when hour >= 18 |
| Priority.Family | weatherapp/views.py:118 | The family is a prefix of the icon, of length two (or the whole icon when shorter) |
| Priority.Rank | weatherapp/views.py:106-118 | A family has a priority exactly when it is in the precedence list 11, 10, 09, 13, 04, 03, 02, 50, 01, and the priority is its 1-based position there |
| Sequences.Minimum | weatherapp/views.py:93-95 | The result is an element of the column and no element is smaller |
| Sequences.Maximum | weatherapp/views.py:96-98 | The result is an element of the column and no element is larger |
| Sequences.Filter | weatherapp/views.py:120 | Kept rows are rows that pass the mask, every passing row is kept, and a failing row shortens the result |
| Sequences.Distinct | weatherapp/views.py:124-126 | Every row appears, nothing else appears, and no value appears twice |
| Sequences.Insert | weatherapp/views.py:128-131 | Inserting into a strictly ascending list keeps it strictly ascending, with the value added |
| Sequences.SortedUnique | weatherapp/views.py:128-131 | The index keys are exactly the values present, strictly ascending |
| RowFill.FilledRow | weatherapp/views.py:148 | The row-wise forward fill of one wide row; characterised against the independent LastKnown by FilledRowIsLastKnown and FilledRowFacts |
| RowFill.LastKnown | weatherapp/views.py:148 | The nearest present cell at or left of a column, with only missing cells between; missing only when everything to the left is missing |
| RowFill.FillFromAt | weatherapp/views.py:148 | The carrying scan yields, in each column, the nearest present cell to its left, or the carried value when there is none |
| RowFill.FillFromLength | weatherapp/views.py:148 | The scan keeps the row length |
| RowFill.LastKnownShift | weatherapp/views.py:148 | The nearest present cell of a row relates to that of the row without its first cell |
| RowFill.FilledRowIsLastKnown | weatherapp/views.py:148 | The forward fill puts in each column the nearest present cell at or left of it |
| RowFill.FilledRowFacts | weatherapp/views.py:148 | Present cells are unchanged, a missing cell copies its filled left neighbour, and a row with a present first cell has no missing cell afterwards |
| RowFill.FillRow | weatherapp/views.py:148 | The in-place fill over the row buffer computes the forward fill, column by column the nearest present cell to the left |
| Aggregation.ColumnLayout | weatherapp/views.py:133-147 | Each period's condition and icon columns are named `<PERIOD>_CONDITION` and `<PERIOD>_ICON` and sit where `col_order` puts them |
| Aggregation.Localize | weatherapp/views.py:74-90 | The slot frame: one localised slot per forecast entry, in order; CollectSlots is proved equal to it and LocalBuckets states each slot's date, hour, DAY and period |
| Aggregation.CollectSlots | weatherapp/views.py:73-89 | One slot per forecast entry, in order, its local time being `dt_txt` plus the offset and its DAY that date's label |
| Aggregation.SlotsOnNonEmpty | weatherapp/views.py:92-98 | A date that some slot has has at least one slot in its group |
| Aggregation.DailyLow | weatherapp/views.py:93-95 | LO of a date, the minimum `temp_min` of its slots; DailyExtremes states it bounds and is attained |
| Aggregation.DailyHigh | weatherapp/views.py:96-98 | HI of a date, the maximum `temp_max` of its slots; DailyExtremes states it bounds and is attained |
| Aggregation.DailyExtremes | weatherapp/views.py:92-98 | LO is at most every minimum and HI at least every maximum of the slots of that date, each attained by one of them |
| Aggregation.AssignPeriods | weatherapp/views.py:100-103 | After the three masked assignments every row has exactly one period, the one of its hour |
| Aggregation.Annotate | weatherapp/views.py:92-103 | The frame with DATE, LO, HI, HOUR and PERIOD columns added; characterised by LocalBuckets, AnnotateFacts and AnnotateConsistent |
| Aggregation.LocalBuckets | weatherapp/views.py:74-103 | Each frame row's date, hour, DAY and period are those of its slot's local time, the period following the hour thresholds |
| Aggregation.AnnotateConsistent | weatherapp/views.py:82-98 | Rows of one date agree on DAY, HI and LO |
| Aggregation.BestRank | weatherapp/views.py:119 | HIGHEST_PRIORITY of a (DAY, PERIOD) group, None when no member is ranked; BestRankIsGroupMinimum states it is the attained minimum |
| Aggregation.Dominant | weatherapp/views.py:118-120 | The rows whose priority equals their group's HIGHEST_PRIORITY; SurvivorIsMostSevere, MostSevereSurvives and UnrankedDropped characterise it in both directions |
| Aggregation.BestRankIsGroupMinimum | weatherapp/views.py:119 | HIGHEST_PRIORITY is the priority of some row of the (DAY, PERIOD) group and at most that of every ranked row of it |
| Aggregation.SurvivorIsMostSevere | weatherapp/views.py:118-120 | A kept row is ranked and at least as severe as every ranked row of its (DAY, PERIOD) group |
| Aggregation.SurvivorKept | weatherapp/views.py:120 | A row whose priority equals its group's is kept |
| Aggregation.BestRankOfMostSevere | weatherapp/views.py:119-120 | A ranked row no ranked row of its group beats has the group's priority |
| Aggregation.MostSevereSurvives | weatherapp/views.py:118-120 | A ranked row no ranked row of its group beats is kept |
| Aggregation.UnrankedDropped | weatherapp/views.py:118-120 | A row whose family is not in the table is never kept |
| Aggregation.SuffixIcon | weatherapp/views.py:121-123 | The new icon is the old one minus its last character plus "d" for MORNING or NOON and "n" for EVENING; the family of an icon of three or more characters is unchanged |
| Aggregation.StripTags | weatherapp/views.py:121 | Every icon of the column loses its last character |
| Aggregation.AppendTag | weatherapp/views.py:122-123 | Exactly the rows the period mask selects receive the tag; the others are unchanged |
| Aggregation.RewriteIconSuffixes | weatherapp/views.py:121-123 | The three column edits give each row its re-tagged icon |
| Aggregation.LongTable | weatherapp/views.py:118-126 | The deduplicated seven-column long table of the survivors with rewritten icons; LongTableSound, LongTableComplete and LongTableDistinct characterise it |
| Aggregation.LongTableSound | weatherapp/views.py:118-126 | Every row of the deduplicated table is the projection of a kept row |
| Aggregation.LongTableDistinct | weatherapp/views.py:124-126 | No row of the deduplicated table appears twice |
| Aggregation.LongTableComplete | weatherapp/views.py:118-126 | The projection of every kept row is in the deduplicated table |
| Aggregation.LongTableConsistent | weatherapp/views.py:118-126 | When frame rows of one date agree on DAY, HI and LO, so do the rows of the deduplicated table |
| Aggregation.Find | weatherapp/views.py:128-132 | The cell of a (DATE, PERIOD) pair is a long-table row with that date and period, and is missing only when no such row exists |
| Aggregation.AnnotateEntriesConsistent | weatherapp/views.py:92-126 | The deduplicated table of a response agrees on DAY, HI and LO within each date |
| Aggregation.AnnotateFacts | weatherapp/views.py:74-98 | Each frame row holds its slot's local date, that date's label, HI and LO, and its icon |
| Aggregation.RankedDateSurvives | weatherapp/views.py:118-120 | When groups lie within dates, the date of a ranked row keeps a kept row |
| Aggregation.PivotRow | weatherapp/views.py:128-147 | The `col_order` row of one date before the fill; PivotKeyCells, PivotRowPeriodCells and PivotPresentCells state its cells |
| Aggregation.Pivot | weatherapp/views.py:128-147 | One wide row per distinct date in ascending order; PivotShape, PivotDates and PivotTableDates characterise it |
| Aggregation.FillTable | weatherapp/views.py:148 | Every wide row forward-filled; PivotTableShape and PivotAbsentCells state the result |
| Aggregation.PivotShape | weatherapp/views.py:128-148 | One wide row per distinct date, in strictly ascending date order, ten columns, none missing after the fill |
| Aggregation.PivotNonEmpty | weatherapp/views.py:128-132 | A non-empty long table gives at least one wide row |
| Aggregation.PivotTableShape | weatherapp/views.py:128-148 | The wide table of a non-empty long table is non-empty, with ten present cells per row and strictly ascending DATE cells |
| Aggregation.PivotDates | weatherapp/views.py:128-131 | A date is an index key exactly when a long-table row carries it |
| Aggregation.PivotTableDates | weatherapp/views.py:128-132 | The wide table's DATE column holds exactly the dates of the long table |
| Aggregation.LongTableDates | weatherapp/views.py:118-126 | The deduplicated table carries exactly the dates of the kept rows |
| Aggregation.CellIsUnique | weatherapp/views.py:124-132 | With the index unique and DAY/HI/LO fixed per date, two rows of one (DATE, PERIOD) cell are the same row |
| Aggregation.PivotKeyCells | weatherapp/views.py:128-148 | A wide row's DAY, HI and LO are those of a long-table row of its date |
| Aggregation.PivotRowPeriodCells | weatherapp/views.py:128-147 | A period's condition and icon land in that period's columns of the wide row |
| Aggregation.PivotPresentCells | weatherapp/views.py:128-148 | A period with a row on the date shows that row's condition and icon |
| Aggregation.PivotAbsentCells | weatherapp/views.py:135-148 | A period with no row on the date shows the filled value of the column to its left |
| Aggregation.ProcessRows | weatherapp/views.py:118-148 | The processing of the annotated frame, with the `unstack` and `col_order` failures as errors; see RowsTableShape, RowsTableDates, RowsKeyCells, ConflictFails, DuplicateMeansConflict, MissingPeriodFails, OkHasEveryPeriod |
| Aggregation.ConflictFails | weatherapp/views.py:128-132 | Two surviving rows of one date and period that differ in CONDITION or rewritten ICON make the processing fail with a repeated index |
| Aggregation.DuplicateMeansConflict | weatherapp/views.py:128-132 | A repeated-index failure comes from two such surviving rows |
| Aggregation.MissingPeriodFails | weatherapp/views.py:135-147 | A period with no surviving row makes the processing fail, with a missing column unless the index already repeated |
| Aggregation.OkHasEveryPeriod | weatherapp/views.py:128-147 | A successful processing has a surviving row in every period |
| Aggregation.RowsTableShape | weatherapp/views.py:118-148 | A successful processing gives a non-empty table of ten-column rows, none missing, with strictly ascending dates |
| Aggregation.RowsTableDates | weatherapp/views.py:118-148 | The table's dates are exactly the dates of the rows the priority filter keeps |
| Aggregation.RowsKeyCells | weatherapp/views.py:118-148 | Each table row's DATE, DAY, HI and LO are those of a kept row |
| Aggregation.RowsPresentCells | weatherapp/views.py:118-148 | A period with kept rows on a table row's date holds the condition and re-tagged icon of every one of them |
| Aggregation.RowsAbsentCells | weatherapp/views.py:118-148 | A period without kept rows on a table row's date holds the filled value of the column to its left |
| Aggregation.ProcessForecast | weatherapp/views.py:72-149 | The whole `_process_forecast_response`, with an empty list an error; see ProcessedTableShape, ProcessedKeyCells, ProcessKeepsEveryDate and the Scenarios lemmas |
| Aggregation.ProcessedTableShape | weatherapp/views.py:72-149 | The processed table is non-empty, ten present cells per row, dates strictly ascending and exactly those of the kept slots |
| Aggregation.ProcessedKeyCells | weatherapp/views.py:72-149 | Each processed row's DAY is its date's label and its HI and LO are the maximum and minimum temperatures of that date's slots |
| Aggregation.WeekSpanGroupsWithinDates | weatherapp/views.py:82-119 | When the slots span less than a week, each (DAY, PERIOD) group lies within one date |
| Aggregation.SurvivorsCoverFrame | weatherapp/views.py:118-126 | When every icon is ranked and groups lie within dates, every date of the frame keeps a kept row |
| Aggregation.FrameDatesAreLocalDates | weatherapp/views.py:74-92 | The frame's DATE column holds exactly the local dates of the slots |
| Aggregation.ProcessKeepsEveryDate | weatherapp/views.py:72-149 | When every icon is ranked and the slots span less than a week, the processed table has exactly one row per local date of the response |
| Scenarios.OnePerPeriodProcesses | weatherapp/views.py:118-148 | Three ranked frame rows, one per period, process without error |
| Scenarios.OnePerPeriodUnique | weatherapp/views.py:124-132 | One frame row per period leaves no repeated pivot index, so `unstack` does not fail |
| Scenarios.UniqueByPeriod | weatherapp/views.py:124-132 | A table without repeated rows, each projected from one of three rows in distinct periods, repeats no pivot index |
| Scenarios.PeriodsApart | weatherapp/views.py:100-103 | Of three rows in distinct periods, two with the same period are the same row |
| Scenarios.OnePerPeriodResponse | weatherapp/views.py:72-149 | A response of three ranked slots whose local hours fall in MORNING, NOON and EVENING processes without error |
| Scenarios.ThursdayProcessed | weatherapp/views.py:72-149 | A concrete three-slot Thursday response processes without error, so the lemmas that require success are about reachable inputs |
| Scenarios.ThursdayPreconditions | weatherapp/views.py:74-118 | The Thursday slots share one local date and carry ranked icons |
| Scenarios.ThursdayIsOneDate | weatherapp/views.py:72-149 | The Thursday table holds exactly that one date |
| Page.Placeholder | weatherapp/views.py:190-206 | The row built from the current conditions; Reconcile states its cells and DefaultWeatherPlaceholder its values under `DEFAULT_WEATHER` |
| Page.TodayPresentKeepsTable | weatherapp/views.py:186-189 | A processed table whose first date is today's local date is left unchanged |
| Page.TodayMissingAddsOneRow | weatherapp/views.py:186-207 | A processed table whose first date is another date within a week of today gains exactly the placeholder row in front |
| Page.OtherLabelGainsRow | weatherapp/views.py:188-207 | A table whose first DAY label belongs to another date within a week of today gains exactly the placeholder row |
| Page.DefaultWeatherPlaceholder | weatherapp/views.py:8-17 | Without current conditions the prepended row has HI and LO 99 and the clear-day icon |
| Page.Reconcile | weatherapp/views.py:189-207 | Unchanged when the first DAY is today; otherwise one placeholder row in front (current time, today, current HI and LO, "NONE" conditions, no MORNING or NOON icon, the current icon for EVENING) followed by the whole table unchanged and in order; either way the first row is today's |
| Page.ReconcileIdempotent | weatherapp/views.py:186-207 | Reconciling a second time at the same moment changes nothing |
| Page.UnitLabel | weatherapp/views.py:217 | "C" exactly for metric units, "F" otherwise |
| Page.ToDayForecast | weatherapp/views.py:212-224 | Each field of a `dayN` entry is read from the column of that name, with the city and unit label |
| Page.Digit | weatherapp/views.py:212 | A decimal digit d prints as the character d places after '0' |
| Page.NatToString | weatherapp/views.py:212 | `str(index)` is a non-empty string of digits, at least two long from 10 on |
| Page.NatToStringValue | weatherapp/views.py:212 | `str(index)` read back as a decimal numeral, most significant digit first, is the index, with no leading zero from 10 on |
| Page.NatToStringInjective | weatherapp/views.py:212 | Distinct indexes print differently |
| Page.DayKeyInjective | weatherapp/views.py:212 | Distinct rows get distinct `dayN` keys |
| Page.KeysBelowMembership | weatherapp/views.py:211-212 | The keys of the first n rows are exactly `day0` .. `day{n-1}` |
| Page.KeysBelowSize | weatherapp/views.py:211-212 | There are n such keys |
| Page.Keyed | weatherapp/views.py:209-224 | The dictionary holds exactly the keys `day0` .. `day{n-1}`, entry i under `day{i}` |
| Page.KeyedSize | weatherapp/views.py:209-224 | The dictionary has one entry per row, so no row is dropped or overwritten |
| Page.KeyedExtend | weatherapp/views.py:211-212 | Keying one more row adds exactly its entry |
| Page.ForecastEntries | weatherapp/views.py:211-224 | One entry per row, in row order, each with the row's DAY and the city |
| Page.BuildForecast | weatherapp/views.py:209-224 | The loop builds the dictionary with one entry per row, with none dropped and no truncation, row i under `day{i}` |
| Page.DefaultForecast | weatherapp/views.py:33 | `DEFAULT_FORECAST`; DefaultForecastShape states its keys and entries |
| Page.DefaultForecastShape | weatherapp/views.py:19-33 | `DEFAULT_FORECAST` has exactly the keys `day0` .. `day4`, each holding `_FORECAST_ONE_DAY`, where `DayKey(0)` is "day0" and `DayKey(4)` is "day4" |
| Page.ReconcileReadable | weatherapp/views.py:186-207 | Reconciling keeps a non-empty table of ten-column rows |
| Page.ReconciledForecast | weatherapp/views.py:186-224 | The `dayN` dictionary of the reconciled table; ReconciledForecastShape states its size and entries |
| Page.ReconciledForecastShape | weatherapp/views.py:186-224 | One entry per reconciled row, with the first being today's; the count grows by one exactly when the first day is not today |
| Page.PageForecast | weatherapp/views.py:184-226 | A failed processing gives the five-entry default forecast; a successful one gives the forecast of the reconciled table |
| Page.PageForecastShape | weatherapp/views.py:184-226 | On an error, five entries with `_FORECAST_ONE_DAY` under `day0`; otherwise as many entries as processed rows or one more, with today's label under `day0` |
| Page.IndexForecast | weatherapp/views.py:184-226 | The page's forecast for one response; IndexForecastShape states both branches |
| Page.IndexForecastShape | weatherapp/views.py:184-226 | The same for processing one response: on an error the default forecast, otherwise today's entry first |
| Page.ProcessedReadable | weatherapp/views.py:184-189 | Every table the processing produces has a first row and ten columns per row, as the reconciliation reads them |

## Left out

- HTTP fetching (`_get_weather_response`, `_get_forecast_response`, the retry adapter):
  network I/O. The forecast payload is the `ForecastResponse` parameter, and the current
  conditions are the `Weather` parameter.
- `_get_clock_and_date`: it reads the wall clock. The current local time is the `now`
  parameter, in seconds.
- Django `render` and the context dictionary.
- The current-weather request and its `cod` check, and the `try/except/finally` fallback.
  The `cod` check of the forecast request and falling back on an exception are covered
  only by `Page.PageForecast`'s error branch. An error result stands for every exception
  the processing can raise.
- Floating-point temperatures, pandas `round(0)` and the `int()` truncation of the
  current temperatures: temperatures are integers here.
- `pd.to_datetime` parsing of `dt_txt` and `strftime` formatting: DATE is held as a
  day number, and the time as whole seconds.
- pandas dtype coercion in the mixed-type forward fill: cells keep their kind.
- The in-place column assignments for LO, HI and HOUR are modelled as functions over the
  rows (`Aggregation.Annotate`). Only PERIOD, ICON and the fill are modelled as in-place
  loops.
- `weatherapp/utils.py` (logger setup) is not part of this model.
- The `DEFAULT_WEATHER` fields other than HI, LO and icon: the reconciliation reads only
  those.
- Sequences.Distinct: does not state that the first occurrence order is kept. The pivot
  sorts by date, so the order does not reach the result.
- Sequences.Filter: states which rows are kept, not that their order is kept.
- Aggregation.RowsPresentCells: the condition and icon of a period are stated over the
  annotated frame rows, not restated in terms of the raw response.
  `Aggregation.AnnotateEntriesConsistent` supplies the precondition for response rows.
- Aggregation.ProcessKeepsEveryDate: proved only when every icon is ranked and the slots
  span less than a week. Otherwise an unranked group, or two dates with the same DAY
  label, can lose a date, as the code does.
- Aggregation.CollectSlots: each slot is built whole, not as a one-row frame.
