# Tempo worklog copier, modelled in Dafny

`tempo-copy-worklog.py` copies a user's Tempo worklogs from one week to another.
It fetches the worklogs of the seven days starting at the source date, turns each
one into a new worklog whose start date is moved by the distance between the
destination and the source week starts, and either shows the new worklog (dry run)
or posts it to the Tempo API, judging each post by its HTTP status.

The model has four modules:

- `Wrappers` (`wrappers.dfy`) holds `Option` and `Result`.
- `CivilDate` (`dates.dfy`) models the parts of Python's `datetime.date` the copier uses:
  - the proleptic Gregorian calendar over the years 1..9999;
  - day arithmetic through ordinals, where 0001-01-01 is day 1, including the overflow past 9999-12-31;
  - the zero-padded `YYYY-MM-DD` text form, that is, the full-date form of section 5.6 of RFC 3339.
- `Worklogs` (`worklogs.dfy`) holds the fetched record, the payload, and `PrepareNewWorklog` (the transform).
  - The source raises exceptions. The model turns them into `TransformError` values, in the order the source evaluates the keys.
- `Copier` (`copier.dfy`) holds the Tempo API and the copier object.
  - The Tempo API is an object whose answers are fixed functions:
    - the fetch answer for (account id, from, to);
    - the status of a create request, given every request received before it.
  - The API keeps the list of create requests it has received, so "no change was made" is a statement about that list.
  - The copier is a class. `GetWorklogsForWeek`, `PostWorklog` and `CopyWeek` follow the source's methods.
  - Two methods are factored out of `copy_week`:
    - `CopyBatch` is its loop;
    - `Dispatch` is the body of that loop.
  - Each method is proved against pure specification functions:
    - `RunBatch` is the loop;
    - `CopyWeekRun` is the whole of `copy_week`.
  - The lemmas about those functions state what the copier promises.

## Model

| member | source | states |
|---|---|---|
| CivilDate.DaysInMonth | tempo-copy-worklog.py:42 | A month has 28 to 31 days. It has 29 exactly for February of a leap year. |
| CivilDate.ToOrdinal | tempo-copy-worklog.py:43 | Every valid date has an ordinal in 1..3652059. The ordinal falls inside the date's own year. |
| CivilDate.FromOrdinal | tempo-copy-worklog.py:43 | Every ordinal in range names a valid date. That date has exactly that ordinal. |
| CivilDate.OrdinalOrder | tempo-copy-worklog.py:43 | Ordinals follow calendar order, in both directions. |
| CivilDate.OrdinalInjective | tempo-copy-worklog.py:43 | Two valid dates with the same ordinal are equal. |
| CivilDate.FromToOrdinal | tempo-copy-worklog.py:43 | Converting a date to its ordinal and back gives the date. |
| CivilDate.AddDays | tempo-copy-worklog.py:43 | Moving a date by k days gives a valid date whose ordinal is k larger. |
| CivilDate.DaysBetween | tempo-copy-worklog.py:82 | The difference of two dates is a shift that keeps the first date in range. |
| CivilDate.AddDaysBetween | tempo-copy-worklog.py:82-85 | Moving the source week start by the difference lands on the destination week start. |
| CivilDate.AddDaysZero | tempo-copy-worklog.py:43 | A zero shift leaves a date unchanged. |
| CivilDate.AddDaysCompose | tempo-copy-worklog.py:43 | A shift by j followed by a shift by k is a shift by j + k. |
| CivilDate.AddOneDay | tempo-copy-worklog.py:43 | Adding one day agrees with the calendar's successor rule for month ends, year ends and leap days. |
| CivilDate.AddDaysOrder | tempo-copy-worklog.py:43 | A shift moves a date later exactly when k > 0, and earlier exactly when k < 0. |
| CivilDate.MonthEndExample | tempo-copy-worklog.py:43 | 2024-01-30 plus 3 days is 2024-02-02. |
| CivilDate.LeapDayExamples | tempo-copy-worklog.py:43 | 2024-02-28 plus 1 day is 2024-02-29. 2024-03-01 minus 1 day is also 2024-02-29. |
| CivilDate.CenturyExamples | tempo-copy-worklog.py:43 | 1900 is not a leap year and 2000 is one. |
| CivilDate.YearEndExample | tempo-copy-worklog.py:43 | 2023-12-31 plus 1 day is 2024-01-01. |
| CivilDate.Format | tempo-copy-worklog.py:52 | The text form has ten characters, with dashes at positions 4 and 7. |
| CivilDate.Parse | tempo-copy-worklog.py:42 | A string is accepted only when it names a valid date. |
| CivilDate.ParseFormat | tempo-copy-worklog.py:42-52 | Reading back a formatted date gives the date. |
| CivilDate.FormatParse | tempo-copy-worklog.py:42-52 | Every accepted string is already in canonical form: formatting the parsed date gives the same string. |
| Worklogs.PrepareNewWorklog | tempo-copy-worklog.py:37-55 | A payload is built only from a readable source date. The payload's date is that date moved by exactly `deltaDays` days. |
| Worklogs.PrepareSucceedsIff | tempo-copy-worklog.py:42-53 | The transform succeeds exactly when the record is `Transformable`: it has every required key, and a readable start date that can be shifted. |
| Worklogs.PrepareErrors | tempo-copy-worklog.py:42-53 | The error a failing record gives, in the source's order: missing `startDate`, unreadable date, overflow, missing `issue`, missing `id`, missing `timeSpentSeconds`, missing `startTime`. |
| Worklogs.PayloadStartDate | tempo-copy-worklog.py:42-52 | The new `startDate` is the formatted source date moved by `deltaDays`. |
| Worklogs.PayloadFields | tempo-copy-worklog.py:45-54 | `issueId`, `timeSpentSeconds` and `startTime` are copied. Attributes come from `attributes.values`, or are empty. A present description is kept, otherwise "Copied worklog" is used. The author is always the configured account. |
| Worklogs.PrepareIgnoresSourceAuthor | tempo-copy-worklog.py:49 | The source record's own author never affects the payload. |
| Worklogs.PrepareZeroDelta | tempo-copy-worklog.py:42-52 | With a zero shift the payload keeps the source's own date string. |
| Worklogs.PrepareTwice | tempo-copy-worklog.py:37-55 | Copying a copy by k days gives the same payload as one copy by j + k days. |
| Worklogs.WeekAheadDates | tempo-copy-worklog.py:82-85 | The week of 2024-06-03 copied to the week of 2024-06-10 is a 7-day shift. That shift takes 2024-06-05 to 2024-06-12. |
| Worklogs.WeekAheadText | tempo-copy-worklog.py:52 | Those two dates are written as "2024-06-05" and "2024-06-12". |
| Worklogs.WeekAheadExample | tempo-copy-worklog.py:37-55 | The one-hour worklog of the example becomes exactly the expected payload: shifted date, default description, empty attributes and the configured author. |
| Copier.WorklogApi.Create | tempo-copy-worklog.py:62 | A create request is appended to what the API received. Its status is the API's answer given the earlier requests. |
| Copier.WeekEnd | tempo-copy-worklog.py:31 | The week end is the start plus 6 days. It exists exactly when that date does not overflow. |
| Copier.WeekWindow | tempo-copy-worklog.py:31-32 | The fetch window holds exactly the dates 0 to 6 days after the start, in calendar order. |
| Copier.PostReport | tempo-copy-worklog.py:63-66 | A post is reported as created exactly for a status in 200..299. Otherwise it is reported as failed with that status. |
| Copier.Dispatched | tempo-copy-worklog.py:87-90 | The report is about the given payload. It is a "would create" report exactly in a dry run. |
| Worklogs.AttributeValues | tempo-copy-worklog.py:45 | No contract of its own: the values of `attributes.values`, or empty when either key is missing. `PayloadFields` states both cases for the payload. |
| Copier.IsSuccessStatus | tempo-copy-worklog.py:63 | No contract of its own: a status counts as success exactly in 200..299. `PostReport` states what follows from it. |
| Copier.RunBatch | tempo-copy-worklog.py:84-90 | No contract of its own: the loop from record i on, as a function of the transform results. `RunBatchInOrder`, `RunBatchDry`, `RunBatchLive`, `RunBatchFinishes`, `LiveRunAccounting` and `DryRunAccounting` characterise it. |
| Copier.CopyWeekRun | tempo-copy-worklog.py:68-95 | No contract of its own: the window, the fetch, the empty case, then `RunBatch` over the transforms shifted by destination minus source. `CopyWeekNoRecords`, `CopyWeekDryRun` and `CopyWeekShiftsDates` characterise it. |
| Copier.Transforms | tempo-copy-worklog.py:84-85 | The k-th result is the transform of the k-th fetched record. |
| Copier.RunBatchStep | tempo-copy-worklog.py:84-90 | Proof step for the loop of `CopyBatch`: one successful record contributes its report and its sends, then the run continues with the next record. |
| Copier.RunBatchInOrder | tempo-copy-worklog.py:84-90 | Records are reported once each, in order. A run either covers every record or stops at the first failing transform, having reported every record before it. |
| Copier.RunBatchDry | tempo-copy-worklog.py:87-88 | A dry run sends nothing and only reports what it would create. |
| Copier.RunBatchLive | tempo-copy-worklog.py:89-90 | A live run sends each reported payload once, in order. Each report follows the status the API gave that very request. |
| Copier.RunBatchFinishes | tempo-copy-worklog.py:84-90 | The loop finishes exactly when every transform succeeds. |
| Copier.LiveRunAccounting | tempo-copy-worklog.py:84-95 | With N good records, a live run makes N create requests, in order. Every one is reported as created or as failed, so K failures leave N - K successes. |
| Copier.DryRunAccounting | tempo-copy-worklog.py:87-93 | With N good records, a dry run gives N "would create" reports and sends nothing. |
| Copier.CopyWeekNoRecords | tempo-copy-worklog.py:74-78 | An empty or refused fetch gives no reports and no create requests. |
| Copier.CopyWeekDryRun | tempo-copy-worklog.py:68-93 | A dry run of the whole copy makes no create request. |
| Copier.CopyWeekShiftsDates | tempo-copy-worklog.py:82-85 | The k-th report carries the transform of the k-th fetched record. Its date is that record's date moved by destination minus source. |
| Copier.TempoWorklogCopier.constructor | tempo-copy-worklog.py:13-25 | The token, the account id and the dry-run flag are kept. Nothing has been reported yet. |
| Copier.TempoWorklogCopier.GetWorklogsForWeek | tempo-copy-worklog.py:27-35 | The query asks for the formatted start and start + 6 days. An overflow or a non-2xx answer is an error. |
| Copier.TempoWorklogCopier.PostWorklog | tempo-copy-worklog.py:57-66 | Exactly one create request is sent, and its report follows its status. |
| Copier.TempoWorklogCopier.Dispatch | tempo-copy-worklog.py:87-90 | A dry run only reports. A live run posts. Nothing else changes. |
| Copier.TempoWorklogCopier.CopyBatch | tempo-copy-worklog.py:84-90 | The new reports, the requests sent and the outcome are exactly those of `RunBatch`. |
| Copier.TempoWorklogCopier.CopyWeek | tempo-copy-worklog.py:68-95 | The new reports, the requests sent and the outcome are exactly those of `CopyWeekRun`: fetch window, fetch, empty case, then the batch shifted by destination minus source. |

## Left out

- HTTP, JSON and transport are not modelled: the base URL, the bearer-token headers, `requests`, `raise_for_status` and the JSON body. A fetch is a function of (account id, from, to) that gives the records or a refusal. A post is a function that gives a status.
- `apiToken` is only kept as a field, because the headers built from it are not modelled.
- Printed messages are not modelled. Reports stand in for three of them: the dry-run preview (line 88), and the created and failed lines (lines 64 and 66). The outcome `NothingToCopy` stands for line 77.
  - The "Fetching worklogs from … to …" line (line 73) has no counterpart in the model.
  - The "Found N worklogs" count (line 80) has no counterpart in the model.
  - The closing message on line 95 claims success even when posts failed.
  - Instead of that message, `LiveRunAccounting` states the counts of created and failed posts.
- `parse_args` and `main` are not modelled: argument parsing, the environment variables, the check of the command-line dates, and `sys.exit`. `CopyWeek` takes two valid dates.
- Malformed records are handled as the code does, not as a skip-and-continue design. A malformed record raises out of the loop, so `CopyBatch` stops with `Aborted` and leaves the records after it uncopied.
- CivilDate.Parse: accepts only the canonical zero-padded form with ASCII digits. `strptime` also accepts forms that are not modelled:
  - single-digit months and days;
  - a space-padded day such as "2024-06- 5";
  - non-ASCII Unicode decimal digits, since its digit pattern matches any Unicode digit.
- CivilDate.Format: always pads the year to four digits. Some platforms' `strftime("%Y")` writes years below 1000 without padding.
- JSON `null` values are not modelled. A `null` `attributes`, `issue` or `description` would behave differently in Python. In the model, a present key always holds a value of the expected shape.
- Attribute objects are opaque key/value pairs, copied as they are.
- Concurrency, timeouts and retries are not modelled; the source has none.
