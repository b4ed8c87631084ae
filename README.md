# Gleans: a Dafny model of the glean rule engine

Gleans reads a table of invoices and a table of invoice line items and derives
"gleans": dated alert rows addressed to an invoice or to a vendor. Five
detectors in `main.py` produce them, and `concat_gleans` concatenates their
results and numbers the rows:

- **vendor not seen in a while** (type 1, at the invoice): an invoice that comes
  more than 90 days after the same vendor's previous invoice;
- **accrual alert** (type 2, at the invoice): an invoice whose latest covered
  period end, over the invoice and its line items, lies more than 90 days after
  the invoice date;
- **large month increase** (type 3, at the vendor): a month whose spend with a
  vendor is large against the vendor's 12-month rolling average, under three
  amount tiers and a floor of 100;
- **no invoice received**, monthly and quarterly (type 4, at the vendor): a
  daily alert once the vendor's most frequent invoice day of the month (quarter)
  has passed with no invoice yet in the current month (quarter), after 3 months
  (2 quarters) that all had invoices.

The model takes already-typed records (`Records.Invoice`, `Records.LineItem`)
and models each detector as a function from records to a sequence of
`Records.Glean`, in the order `main.py` produces its rows. The pandas steps
become sequence operations:

- the sort by vendor and date is a stable insertion sort;
- a `groupby` over vendors visits them in sorted order;
- the vendor-by-period grids are built from the first and last invoice month;
- a rolling window is a predicate over a window of a column;
- a row-wise `apply` is a row function mapped over the rows, keeping the rows
  for which it returns a glean (`Seqs.FilterMap`).

Each detector is then related to a rule stated directly on the invoices, in both
directions. The id numbering of `concat_gleans` is a method with a loop.

Dates are proleptic-Gregorian (year, month, day) triples. `Dates.DayNumber`
counts days the way Python's `toordinal` does. Months and quarters are indexed
by `Dates.MonthIndex` and `Dates.QuarterIndex`. Amounts are `real`.

Modules:

| module | file | models |
|---|---|---|
| Dates | dates.dfy | calendar, first of month and of quarter, day of quarter, daily ranges |
| Records | records.dfy | invoice, line item and glean records; glean type and location codes |
| Seqs | seqs.dfy | row filtering, `unique()`, vendor-by-day cross products, sums |
| VendorOrder | vendor_order.dfy | the string order of vendor ids and the sorted distinct vendors |
| VendorNotSeen | vendor_not_seen.dfy | `vendor_not_seen_in_a_while` |
| AccrualAlert | accrual_alert.dfy | `accrual_alert` |
| Grid | grid.dfy | the month and quarter grids shared by the grid detectors, earliest invoice per period, most frequent day |
| LargeMonthIncrease | large_month_increase.dfy | `large_month_increase_mtd`, `lmi_mtd` |
| NoInvoiceReceived | no_invoice_received.dfy | `no_invoice_received_monthly`, `alarm_no_invoice_monthly`, `no_invoice_received_quaterly`, `alarm_no_invoice_quarterly` |
| Gleans | gleans.dfy | `concat_gleans` |

Both no-invoice detectors are one definition with a `Cadence` parameter. The
period is a month or a quarter and the window is 3 or 2; nothing else differs
between them. Two details of the code are reproduced as written:

- **The flag shift crosses vendors.** The shift of the rolling flag
  (main.py:217, main.py:330) runs over the whole frame, not per vendor. A
  vendor's first grid period therefore reads the flag of the previous vendor (in
  sorted order) for that vendor's last grid period.
  - For months this never matters. The last grid month is the month after the
    last invoice month, and no vendor has an invoice there
    (`NoInvoiceReceived.MonthlyFlagRead`).
  - For quarters the last grid quarter can hold invoices. The inherited flag is
    then real, and `NoInvoiceReceived.FlagRead` states it.
- **The day comparison is strict.** Alerts start the day after the most
  frequent day.

Further facts about `main.py` that the model keeps:

- Both no-invoice detectors run for every vendor; `main.py` infers no cadence.
- The no-invoice rule also requires the preceding 3 months (2 quarters) to have
  had invoices.
- The day comparison is `>`.
- Ties for the most frequent day are left open: `main.py` takes the first entry
  of `value_counts()` and breaks no ties itself.

## Model

| member | source | states |
|---|---|---|
| Dates.MonthStart | main.py:193 | the first of the date's month: same year and month, day 1, and `d.day - 1` days earlier |
| Dates.QuarterStart | main.py:305-306 | the quarter start keeps the year, has day 1 and month 1, 4, 7 or 10 (`3 * quarter - 2`), and the date's month lies in the three months from it |
| Dates.Quarter | main.py:306 | the quarter q of a date is 1..4, and the date's month is one of months 3q - 2 .. 3q |
| Dates.DayOfQuarter | main.py:309 | the day of the quarter is 1..92 and counts the days from the quarter start, plus one |
| Dates.DayOfQuarterOrder | main.py:351-352 | within one quarter, days of the quarter differ exactly as the dates do |
| Dates.QuarterStartIndex | main.py:295-306 | the quarter start is the first of the month `3 * QuarterIndex`, the grid point of the `QS` range |
| Dates.FirstOfMonthIndex | main.py:183-185 | the first of the date's month is the grid month of its month index |
| Dates.DailyRangeConsecutive | main.py:225 | the daily calendar starts on the first of the first month, advances one day at a time and ends on the first of the month after the last |
| Records.VendorsMember | main.py:186-187 | the vendor column holds exactly the vendors of the invoices |
| Seqs.Unique | main.py:187 | `unique()` keeps each vendor once, in order of first appearance |
| Seqs.FilterMapMember | main.py:55 | a row filter keeps exactly the values the row function produced |
| Seqs.FilterMapOrder | main.py:55 | a row filter keeps the row order: of two kept values, the earlier comes from the earlier row |
| Seqs.PairsMember | main.py:226-228 | the vendor-by-day frame holds exactly the pairs of a listed vendor and a listed day |
| Seqs.PairsDistinct | main.py:226-228 | the vendor-by-day frame of distinct vendors and distinct days holds no pair twice |
| VendorOrder.SortedDistinct | main.py:129 | the groupby vendors are strictly sorted and are exactly the input vendors |
| VendorOrder.StrictlySortedDistinct | main.py:129 | strictly sorted vendors hold no vendor twice, so the groupby forms one group per vendor |
| VendorNotSeen.VendorNotSeenGleans | main.py:26-59 | at most one glean per invoice, and fewer gleans than invoices: the first row of the sorted frame has gap -1; which gleans it holds is stated by NotSeenIff and NotSeenOnePerDay |
| VendorNotSeen.SortByKey | main.py:36 | the in-place sort yields the same invoices ordered by vendor, then date |
| VendorNotSeen.NotSeenSound | main.py:41-55 | every glean is of type 1 at an invoice; it carries that invoice's id, vendor and date and a gap over 90 days back to the vendor's latest earlier invoice |
| VendorNotSeen.NotSeenComplete | main.py:36-55 | an invoice whose vendor's earlier invoices all lie more than 90 days back, with at least one earlier, raises a glean on its date |
| VendorNotSeen.NotSeenIff | main.py:36-55 | a glean for vendor v on day n exists exactly when v has an invoice on n, has an earlier one, and all earlier ones lie more than 90 days back; a vendor's earliest invoice never raises one |
| VendorNotSeen.NotSeenOnePerDay | main.py:36-55 | no two gleans share a vendor and a date: a vendor's gleans come in date order, each more than 90 days after the previous one, because tied invoices of one day after the first get gap 0 |
| AccrualAlert.AccrualAlertGleans | main.py:62-102 | at most one glean per invoice row, see AccrualOnePerRow; which invoices raise one is stated by AccrualIff |
| AccrualAlert.Latest | main.py:75-77 | the maximum of optional dates skips missing ones: it is missing only when all are, and otherwise it is one of them and no other is later |
| AccrualAlert.LatestPeriodEndIsMaximum | main.py:70-78 | the latest period end of an invoice id is one of its own or its line items' period ends, and none is later |
| AccrualAlert.AccrualIff | main.py:70-98 | a glean for an invoice exists exactly when some period end it or its line items cover lies more than 90 days after its date |
| AccrualAlert.AccrualOnePerRow | main.py:94-99 | of any two gleans, the earlier comes from an earlier invoice row, and each carries its own row's invoice id, vendor and date |
| AccrualAlert.AccrualSound | main.py:82-98 | every glean is of type 2 at an invoice, carries its id, vendor and date, and names its latest period end, over 90 days later |
| Grid.MinMonthIsMinimum | main.py:112 | the first grid month is the month of some invoice and no invoice is earlier |
| Grid.MaxMonthIsMaximum | main.py:113 | the last invoice month is the month of some invoice and no invoice is later |
| Grid.DayOfPeriod | main.py:351-352 | the day of the period is 1..92 and counts the days from the period's first day, plus one |
| Grid.GridSpan | main.py:183-185 | the GridSize periods from GridLow end at GridHigh, and a period is among them exactly when its first month lies between the first invoice month and the month after the last |
| Grid.GridPeriodsStartInRange | main.py:295-297 | a quarter is on the `QS` grid exactly when its first month lies between the first invoice month and the month after the last |
| Grid.DaysDistinct | main.py:225 | the daily calendar lists no day twice |
| Grid.DaysInGrid | main.py:225-230 | every day of the daily calendar lies in a grid month |
| Grid.FirstInvoiceIsEarliest | main.py:199-201 | the earliest invoice date of a vendor in a period is missing exactly when the vendor has no invoice there, and otherwise it is one of them and none is earlier |
| Grid.Mode | main.py:197-198 | `value_counts().index[0]` is a value of the column with maximal count |
| Grid.MostFrequentDayIsMode | main.py:196-198 | the most frequent day of a vendor is the day of one of its invoices and no day occurs more often among them |
| LargeMonthIncrease.LmiRow | main.py:134 | a row gives a glean exactly when it has an average and its total passes the tier test against it; the glean has type 3, location 2, no invoice id, the row's vendor and the row's month |
| LargeMonthIncrease.LargeMonthIncreaseGleans | main.py:105-150 | no glean unless the month grid spans at least 12 months; at most one glean per vendor and month, see LmiOnePerMonth; which gleans it holds is stated by LmiIff |
| LargeMonthIncrease.LmiText | main.py:159-173 | `lmi_mtd` returns text exactly when there is an average and the total passes the tier test, which is false below 100 and at exactly 1000 or 10000 |
| LargeMonthIncrease.EmptyMonthIsZero | main.py:122-129 | a month without invoices of the vendor has spend 0 |
| LargeMonthIncrease.MonthGrid | main.py:112-114 | the MonthCount grid months from the first invoice month end with the month after the last invoice month, hold exactly the months in between, and hold every invoice month before the last grid month |
| LargeMonthIncrease.TrailingAverageOfMonths | main.py:131-132 | the rolling mean at grid month j is missing in the first 11 grid months and otherwise the spend of the 12 months ending with month j, over 12 |
| LargeMonthIncrease.MonthGlean | main.py:137-143 | a large month increase glean has type 3, location 2, no invoice id, the vendor, and the first of its month as date |
| LargeMonthIncrease.GleanSource | main.py:112-146 | every glean belongs to a vendor with invoices and a month at least 11 months into the grid, where that month's spend exceeds the tier test against its 12-month average |
| LargeMonthIncrease.GleanOfMonth | main.py:112-146 | conversely, every such vendor and month gives a glean |
| LargeMonthIncrease.LmiIff | main.py:112-173 | a glean for vendor v in month i exists exactly when v has invoices, i is at least 11 months into the grid and at most its last month, and the spend of i passes the tier test against the mean of the 12 months ending with i |
| LargeMonthIncrease.LmiOnePerMonth | main.py:127-131 | no two gleans share a vendor and a month |
| LargeMonthIncrease.SpendRowsDistinctKeys | main.py:127-131 | the grouped frame over distinct vendors holds each vendor and grid month in one row only |
| LargeMonthIncrease.GridCoversSpend | main.py:112-129 | the monthly spend column over the grid adds up to the vendor's total spend: nothing is lost or counted twice |
| NoInvoiceReceived.RollingFullMeans | main.py:214-215 | the rolling flag of a vendor's period is set exactly when the w periods ending with it are on the grid and all had invoices |
| NoInvoiceReceived.FrameAt | main.py:212 | the frame lists each sorted vendor's grid periods in order, so row `a * n + j` is vendor a's period j |
| NoInvoiceReceived.ShiftAcrossVendors | main.py:217 | the shifted flag is the vendor's own previous rolling flag, except in its first grid period, where it is the previous vendor's last one (or none) |
| NoInvoiceReceived.SamePeriodIff | main.py:396 | comparing month and year, or quarter and year, is comparing period indices |
| NoInvoiceReceived.EarliestAfter | main.py:273-278 | conditions 1, 4, 5 and 6 together hold exactly when the vendor has no invoice in the day's period dated on or before the day |
| NoInvoiceReceived.DailyRowCell | main.py:219-234 | a day of a grid period carries the period's earliest invoice |
| NoInvoiceReceived.DailyRowFlag | main.py:214-234 | a day of a grid period carries the flag the rule reads, including the one inherited across vendors |
| NoInvoiceReceived.NoticeGlean | main.py:241-248 | a no-invoice glean has type 4, location 2, no invoice id, the vendor and the day |
| NoInvoiceReceived.AlarmRow | main.py:258-285 | a row off the grid (all NaN) gives no glean, and a glean is always the notice for the row's vendor and day; when it fires is stated by AlarmRowFires and RowAlarm |
| NoInvoiceReceived.AlarmRowFires | main.py:272-285 | the row rule fires exactly when the shifted flag is set, the day of the period is past the most frequent day, and the period's earliest invoice is missing or later in the same period |
| NoInvoiceReceived.RowAlarm | main.py:201-285 | on every day of a vendor with invoices, the row rule gives the notice exactly when the rule stated on the invoices holds |
| NoInvoiceReceived.NoInvoiceGleans | main.py:176-255 | at most one glean per vendor and calendar day (the quarterly detector, main.py:288-372, is the same definition); which gleans it holds is stated by NoInvoiceIff and NoInvoiceOnePerDay |
| NoInvoiceReceived.NoInvoiceMember | main.py:231-251 | the gleans are exactly the alarms of the rows of listed vendors on calendar days |
| NoInvoiceReceived.NoInvoiceSound | main.py:231-251 | every glean is the notice for its vendor and day, the vendor has invoices, the day is on the calendar and the rule holds |
| NoInvoiceReceived.NoInvoiceIff | main.py:288-404 | a glean for vendor v on day d exists exactly when v has invoices, d is a calendar day, d's period is on the grid, the flag the rule reads is set, d is past v's most frequent day, and v has no invoice in d's period dated on or before d |
| NoInvoiceReceived.NoInvoiceOnePerDay | main.py:225-251 | no two gleans share a vendor and a day: the daily frame has one row per vendor and day, and a row raises only its own vendor's notice for its own day |
| NoInvoiceReceived.NothingAfterLastMonth | main.py:184 | no vendor has an invoice in the month after the last invoice month |
| NoInvoiceReceived.MonthlyFlagRead | main.py:212-217 | for months, the flag read in month p is set exactly when p is at least 3 months into the grid and the 3 months before p had invoices; the cross-vendor shift never sets it |
| NoInvoiceReceived.MonthlyIff | main.py:176-285 | a monthly glean for v on d exists exactly when v has invoices, d is a calendar day at least 3 months into the grid, the 3 preceding months had invoices from v, d's day is past v's most frequent day, and v has no invoice in d's month dated on or before d |
| Gleans.AllGleans | main.py:413-431 | the five detectors' gleans are present exactly when the invoice table is not empty |
| Gleans.NumberGleans | main.py:432-435 | the numbered rows keep the gleans in order and row i gets id i |
| Gleans.ConcatGleans | main.py:407-435 | `concat_gleans` fails exactly on an empty invoice table; otherwise it numbers the five detectors' gleans in order, and row i gets id i |
| Gleans.GleansGroupedByKind | main.py:413-431 | the concatenation lists type 1 gleans first, then types 2, 3 and 4 |
| Gleans.GleanTags | main.py:413-431 | in the concatenated detectors, types 1 and 2 sit at an invoice (location 1) and carry its id, vendor and date; types 3 and 4 sit at a vendor with invoices (location 2) and carry no invoice id |

## Left out

- Reading the CSV files (`read_raw_data`, main.py:5-23) and writing `output.csv` (main.py:440-445) are file I/O. The model takes typed records as input.
- Invoice dates that failed to parse (NaT) are left out. Every `Invoice` has a valid date. A missing period end is modelled (`Option<Date>`).
- Missing totals (NaN) are left out, and amounts are exact reals. The rolling mean is an exact sum over 12; IEEE rounding is not modelled.
- Glean text is structured (`Records.GleanText`), not formatted. The model leaves out `np.round` of the months (main.py:43), the percentage (main.py:171), and the float and date formatting.
- LargeMonthIncrease.LmiText: the percentage it prints is not modelled, because it is float formatting.
- Grid.MostFrequentDayIsMode: it states only "a day of maximal count". `value_counts` breaks ties in an order pandas defines, which is not visible in `main.py`.
- An empty invoice table makes the grid detectors raise, since the earliest date of no invoices is missing. `Gleans.AllGleans` and `Gleans.ConcatGleans` return a failure for it instead of modelling the exception. The grid detectors require a nonempty table.
- The quarterly grid can be empty: the data can span less than one whole quarter start. The model gives no gleans then. In pandas the grid frame would be empty and later steps may fail; that failure is not modelled.
- Condition 6 of the quarterly rule (main.py:397, with the day computed at main.py:352) measures the earliest invoice's day of the quarter from the start of the row's quarter. That is also the invoice's own quarter, so the model uses `Grid.DayOfPeriod`.
- The pandas merge, groupby and rolling machinery is not modelled, only the rows it produces. Index alignment, column suffixes and dtype changes are left out.
