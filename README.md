# Time-clock and hour-balance core, modelled in Dafny

This project models the back-end pipeline of a Brazilian time-tracking
system ("banco de horas"). It also models the table component that lists
the results.

- A punch file from a time clock arrives as text lines or spreadsheet rows.
  - The importer finds each line's layout, its date and its time tokens.
  - It assigns the tokens to entry/exit pairs 1 to 3.
  - It computes the day's hours with a rule engine.
  - It upserts the day and credits any overtime to the employee's hour balance.
- The rule engine chooses between two strategies:
  - the statutory calculation (`CLT_STANDARD`), which is the default;
  - the collective-agreement override (`CCT_CUSTOM`), which applies when the
    configuration carries agreement rules.
- The hour-balance ledger keeps per-user balances, an append-only log of
  movements, threshold statuses and alerts.
- The compensation workflow sits on top of the ledger. Requests go from
  PENDING to APPROVED or REJECTED, or are SCHEDULED when forced.
- The dashboards compute counts, sums and averages, de-duplicate imports
  per file, and fold a month-by-month running balance.
- The table component filters, sorts, toggles the sort and paginates.

One Dafny module models each source file:

| module | file | source |
|---|---|---|
| `Common` | common.dfy | the JavaScript string operations the code relies on: `trim`, `split`, `includes`, `toLowerCase`, `parseInt` on digits |
| `RuleTypes` | rule_types.dfy | backend/src/rules/interfaces/rule-strategy.interface.ts |
| `TimeParsing` | time_parsing.dfy | the pure parsers of backend/src/time-clock/time-clock.service.ts |
| `TimeClockImport` | time_clock_import.dfy | the slot assignment, record processing, import loops and file dispatch of the same file |
| `CltStrategy` | clt_strategy.dfy | backend/src/rules/strategies/clt-rule.strategy.ts |
| `CctStrategy` | cct_strategy.dfy | backend/src/rules/strategies/cct-rule.strategy.ts |
| `RuleEngine` | rule_engine.dfy | backend/src/rules/rule-engine.service.ts |
| `HourBalance` | hour_balance.dfy | backend/src/hour-balance/hour-balance.service.ts |
| `Compensation` | compensation.dfy | backend/src/compensation/compensation.service.ts |
| `Dashboard` | dashboard.dfy | backend/src/dashboard/dashboard.service.ts |
| `DataTable` | data_table.dfy | frontend/src/components/DataTable.tsx |

## How the model is built

- Parsing, the strategies and the aggregations are pure functions, and the
  model states them as functions.
- Loops that accumulate are methods with loop invariants, each proved equal
  to a specification function:
  - `parseTimeEntries`, `extractTimesFromRow`, the worked-hours and
    night-hours sums;
  - the `importsByFile` de-duplication and the evolution fold.
- The services are classes whose fields the methods update. Persistence is
  in-memory maps and sequences:
  - `HourBalanceService`: balances keyed by user, the movement log, the alerts;
  - `CompensationService`: compensations keyed by id, notifications, and a
    reference to the ledger service;
  - `TimeClockService`: days keyed by (user, date);
  - the `RuleEngine.Engine` registry: a map from code to strategy, plus the
    insertion order of the JavaScript `Map`;
  - the `DataTable.Table` component state.
- Each state-changing method is proved equal to a pure step function on the
  abstract state (`Recorded`, `ApproveStep`, `ProcessStep`, `ImportTxt`, …).
  The lemmas about those step functions carry the properties.
- Time and numbers:
  - A punch is a whole number of minutes from the local midnight of the
    record's date, and `getHours` is `(t % 1440) / 60`.
  - Hours are `real`, so `/ 60` and `* 0.5` are exact.
  - Dates are (year, month, day) triples with no calendar validation.
- The clock (`new Date()`) is a `now` parameter. "Today" is a `today` parameter.
- `new Date(row.date)` on a spreadsheet cell is a `jsDate` parameter.
- `toISOString().substring(0, 7)` of a movement date is a `monthOf` parameter.
- Strategies form a closed datatype, `CltStandard | CctCustom`. The engine's
  sort with the "CCT first" comparator becomes a stable partition: the
  agreement strategies first, then the others in registration order.

Where the code and its documentation differ, the model follows the code:

- In `parseTimeEntries` a token without digits does not move the pair
  counter. A later token can therefore overwrite an entry already filled
  (backend/src/time-clock/time-clock.service.ts:361-379). The model keeps
  this; see `UnparsedTokenOverwritesEntry`.
- `parseTxtLine` also reaches the fixed-width layout for a line that contains
  `;` or `|` but splits into fewer than three fields, provided the line is
  longer than 50 characters (backend/src/time-clock/time-clock.service.ts:107-158).
- Both punches of a pair are stamped on the same date. An overnight pair
  therefore has a negative duration, which is modelled as written
  (`OvernightPairIsNegative`).

## Model

| member | source | states |
|---|---|---|
| TimeParsing.ParseDate | backend/src/time-clock/time-clock.service.ts:161-186 | fails with `InvalidDate(s)` exactly when none of DD/MM/YYYY, YYYY-MM-DD or DDMMYYYY occurs anywhere in the text |
| TimeParsing.FindFrom | backend/src/time-clock/time-clock.service.ts:163-182 | finds the leftmost position at or after `i` where a date pattern matches, and none before it; no result means no match anywhere after `i` |
| TimeParsing.FirstMatchingPattern | backend/src/time-clock/time-clock.service.ts:163-185 | finds a match exactly when some pattern matches, and the pattern it returns does match there |
| TimeParsing.SlashedAndCompactAgree | backend/src/time-clock/time-clock.service.ts:163-182 | DD/MM/YYYY and DDMMYYYY with the same digits give the same (year, month, day) |
| TimeParsing.DashedDateParses | backend/src/time-clock/time-clock.service.ts:170-175 | YYYY-MM-DD parses to its year, month and day |
| TimeParsing.ParseTime | backend/src/time-clock/time-clock.service.ts:384-393 | gives no time exactly when the token has no digit; hours and minutes are below 100; `ParseTimeFields` states their values |
| TimeParsing.ParseTimeFields | backend/src/time-clock/time-clock.service.ts:384-390 | after a digit-free prefix, the hours are the one- or two-digit run the regex's `\d{1,2}` takes, and the minutes are the next two characters after one optional `:` when both are digits, else 0 |
| TimeParsing.ParseTimeColonSample | backend/src/time-clock/time-clock.service.ts:384-390 | "8:30" reads as 8 hours 30 minutes |
| TimeParsing.ParseTimeThreeDigitSample | backend/src/time-clock/time-clock.service.ts:384-390 | "830" reads as hour 83 and minute 0, because the hours take two digits first |
| TimeParsing.ParseTimeFourDigitSample | backend/src/time-clock/time-clock.service.ts:384-390 | "0830" reads as 8 hours 30 minutes |
| TimeParsing.HoursOnlyToken | backend/src/time-clock/time-clock.service.ts:385-392 | a bare one- or two-digit token is that hour with minute 0 |
| TimeParsing.ColonToken | backend/src/time-clock/time-clock.service.ts:385-392 | `HH:MM` gives hour HH and minute MM |
| TimeParsing.NormalizeTokenIdempotent | backend/src/time-clock/time-clock.service.ts:188-199 | rewriting a non-blank token is idempotent and never yields a blank token |
| TimeParsing.ParseTimesIdempotent | backend/src/time-clock/time-clock.service.ts:188-199 | applying `parseTimes` twice equals applying it once |
| TimeParsing.ParseTimesNoBlank | backend/src/time-clock/time-clock.service.ts:188-199 | no blank token survives `parseTimes` |
| TimeParsing.CompactAndColonTimesAgree | backend/src/time-clock/time-clock.service.ts:190-197 | `0800` and `08:00` both become `08:00` |
| TimeParsing.NormalizedTokenTime | backend/src/time-clock/time-clock.service.ts:190-197 | a token with exactly four digits parses to the first two as hours and the last two as minutes, whatever separators it had |
| TimeParsing.ChunksCoverTail | backend/src/time-clock/time-clock.service.ts:149-153 | the 8-character chunks of the fixed-width tail concatenate back to the tail, and every chunk but the last has exactly 8 characters |
| TimeParsing.LayoutPriority | backend/src/time-clock/time-clock.service.ts:107-158 | the layout is `;` if the line splits on `;` into at least 3 fields, else `|` likewise, else fixed width if the line is longer than 50 characters, else unrecognized |
| TimeParsing.ParseTxtLine | backend/src/time-clock/time-clock.service.ts:103-159 | fails with `UnrecognizedLineFormat` carrying the line number exactly when no layout applies |
| TimeParsing.SemicolonLineFields | backend/src/time-clock/time-clock.service.ts:107-122 | a `;` line of three or more fields maps field 0 to the id, field 1 to the name and field 2 to the date, and turns the non-empty fields from 3 on into time tokens |
| TimeParsing.UpperCasePisIsHeader | backend/src/time-clock/time-clock.service.ts:62-67 | header detection ignores case: a line starting with `PIS` is a header |
| TimeClockImport.ParseTimeEntries | backend/src/time-clock/time-clock.service.ts:350-382 | the loop fills exactly the slots of the token-by-token specification `AssignSlots` |
| TimeClockImport.AllParsedTokensFillTheirSlots | backend/src/time-clock/time-clock.service.ts:359-381 | when every token gives a time, token k fills the entry (k even) or exit (k odd) of pair k/2+1, nothing else is filled, and the counter ends at n/2+1 |
| TimeClockImport.AllParsedTimesFillTheirSlots | backend/src/time-clock/time-clock.service.ts:359-381 | the same, stated on the token strings: token k's parsed time sits in slot k |
| TimeClockImport.UnparsedTokenOverwritesEntry | backend/src/time-clock/time-clock.service.ts:361-379 | entry, token without digits, entry: the third token overwrites `entry1`, no exit is kept and the counter stays at 1 |
| TimeClockImport.SkippedExitOverwrites | backend/src/time-clock/time-clock.service.ts:361-379 | the same on parsed values: a skipped exit position leaves only the later entry in `entry1` |
| TimeClockImport.SlotsBeyondThreeIgnored | backend/src/time-clock/time-clock.service.ts:250-266 | slots of pair 4 or later never reach the day handed to the rule engine |
| TimeClockImport.FourTimesFillTwoPairs | backend/src/time-clock/time-clock.service.ts:250-266 | four parsed tokens become entry1, exit1, entry2 and exit2 of the day, with pair 3 empty |
| TimeClockImport.StandardDayRecord | backend/src/time-clock/time-clock.service.ts:250-266 | the tokens `08:00 12:00 13:00 18:00` make the day 08:00-12:00 and 13:00-18:00 with no third pair |
| TimeClockImport.StandardDayScenario | backend/src/time-clock/time-clock.service.ts:250-266 | the day `08:00 12:00 13:00 18:00` works 9 hours: 8 regular, 1 extra, none at night |
| TimeClockImport.ExtractTimesFromRow | backend/src/time-clock/time-clock.service.ts:335-348 | the loop keeps, in column order, the non-empty cells of the time columns (`FilledCells`) |
| TimeClockImport.FilledCells | backend/src/time-clock/time-clock.service.ts:335-348 | keeps at most one cell per column, and never an empty one |
| TimeClockImport.FirstFilled | backend/src/time-clock/time-clock.service.ts:233 | the employee id is the first filled of the id columns, or empty |
| TimeClockImport.ProcessFailures | backend/src/time-clock/time-clock.service.ts:231-247 | a bad date, a missing id or an unknown employee fail, in that order, and change nothing; the record succeeds exactly when the date parses and the id names a known employee |
| TimeClockImport.ProcessCreditsOvertime | backend/src/time-clock/time-clock.service.ts:250-323 | a processed record upserts exactly its (user, date) day with the engine's extra hours, and credits the ledger with exactly those hours when they are positive, and not otherwise |
| TimeClockImport.StoreCreditsOvertime | backend/src/time-clock/time-clock.service.ts:250-323 | once the user and date are known, the record is stored under (user, date), every other day is kept, and the ledger is credited with exactly the positive extra hours |
| TimeClockImport.ReimportCreditsTwice | backend/src/time-clock/time-clock.service.ts:269-323 | importing the same line twice upserts the same day but credits its overtime twice |
| TimeClockImport.UpsertKeepsUndefinedPunches | backend/src/time-clock/time-clock.service.ts:269-310 | the update keeps a stored punch wherever the new day has none, and always replaces the totals |
| TimeClockImport.NonBlankContentHasLines | backend/src/time-clock/time-clock.service.ts:42-57 | non-blank content has at least one non-blank line |
| TimeClockImport.ImportTxtOutcome | backend/src/time-clock/time-clock.service.ts:42-57 | the text import fails with "empty file" exactly when the content is blank, and never with "no valid lines" |
| TimeClockImport.TxtLineAccounting | backend/src/time-clock/time-clock.service.ts:59-86 | each non-blank line adds exactly one header, record or error; errors only grow, carrying the line number and at most 100 characters |
| TimeClockImport.TxtCount | backend/src/time-clock/time-clock.service.ts:59-86 | over a run of lines, headers + records + errors = number of lines |
| TimeClockImport.TxtNumbering | backend/src/time-clock/time-clock.service.ts:59-86 | every error carries a 1-based line number within the run and a preview of at most 100 characters |
| TimeClockImport.ImportTxtSummary | backend/src/time-clock/time-clock.service.ts:42-96 | a non-blank file succeeds: totalLines is the number of non-blank lines, headers + imported + errors equals it, and both previews are the first ones, at most 10 |
| TimeClockImport.SheetAccounting | backend/src/time-clock/time-clock.service.ts:209-228 | every spreadsheet row gives a record or an error, and row errors carry row numbers 2 to n+1 |
| TimeClockImport.ExtensionDecides | backend/src/time-clock/time-clock.service.ts:19-27 | the part after the last dot, lower-cased, decides the import |
| TimeClockImport.NameWithoutDot | backend/src/time-clock/time-clock.service.ts:19-27 | a name without a dot is read whole as its extension |
| TimeClockImport.UpperCaseExtensions | backend/src/time-clock/time-clock.service.ts:19-27 | `.TXT` is a text file, `.XLSX` and `.XLS` are spreadsheets, `.csv` is unsupported |
| TimeClockImport.TextExtensions | backend/src/time-clock/time-clock.service.ts:19-27 | `.TXT` is a text file and `.csv` is unsupported |
| TimeClockImport.SheetExtensions | backend/src/time-clock/time-clock.service.ts:19-27 | `.XLSX` and `.XLS` are spreadsheets |
| TimeClockImport.TimeClockService.ProcessTimeClockRecord | backend/src/time-clock/time-clock.service.ts:231-333 | the service's new days, ledger and result are those of `ProcessStep` |
| TimeClockImport.TimeClockService.StoreRecord | backend/src/time-clock/time-clock.service.ts:250-333 | the service's new days, ledger and result are those of `StoreStep`: the day upserted under (user, date) and positive overtime credited |
| TimeClockImport.TimeClockService.ImportTxtLine | backend/src/time-clock/time-clock.service.ts:59-85 | one iteration of the text loop changes the state, records and errors exactly as `TxtLineStep` |
| TimeClockImport.TimeClockService.ImportTxtRecord | backend/src/time-clock/time-clock.service.ts:71-84 | a parsed line's processing keeps its record, or its failure with line number and preview, as `AddOutcome` |
| TimeClockImport.TimeClockService.RunTxtLines | backend/src/time-clock/time-clock.service.ts:58-85 | the text loop over all lines ends in the state, records and errors of `TxtRun` |
| TimeClockImport.TimeClockService.ImportFromTxt | backend/src/time-clock/time-clock.service.ts:30-101 | the service's new state and result are those of `ImportTxt` |
| TimeClockImport.TimeClockService.ImportFromSheet | backend/src/time-clock/time-clock.service.ts:201-229 | the service's new state and summary are those of `SheetRun` |
| TimeClockImport.TimeClockService.ImportFromFile | backend/src/time-clock/time-clock.service.ts:18-28 | the extension dispatches to the text or the spreadsheet import, each with its new state and full summary (counts and both previews), and any other extension fails with nothing changed |
| CltStrategy.StandardHours | backend/src/rules/strategies/clt-rule.strategy.ts:20 | the standard day is the configured value unless it is absent or 0, and 8 otherwise |
| CltStrategy.CalculateWorkedHours | backend/src/rules/strategies/clt-rule.strategy.ts:58-72 | the accumulation equals the sum over complete pairs of exit minus entry, over 60 |
| CltStrategy.CalculateNightHours | backend/src/rules/strategies/clt-rule.strategy.ts:74-106 | the accumulation through the per-pair closure equals the sum of the pairs' night minutes, over 60 |
| CltStrategy.CheckNightMinutes | backend/src/rules/strategies/clt-rule.strategy.ts:79-103 | a pair counts fully if it crosses midnight or lies within 22h to 5h, half if it starts at or after 22h or ends at or before 5h, and otherwise not at all |
| CltStrategy.SumOfThreePairs | backend/src/rules/strategies/clt-rule.strategy.ts:58-106 | the day's worked and night minutes are the sums over its three pairs |
| CltStrategy.CalculateExtraHours | backend/src/rules/strategies/clt-rule.strategy.ts:19-56 | extra ≥ 0, regular + extra = worked, extra is the excess over the standard day, holiday hours are the worked hours on a holiday, the applied rules are `[CLT_STANDARD]`, and the breakdown has one entry for the date carrying the totals |
| CltStrategy.TwoDaytimePairs | backend/src/rules/strategies/clt-rule.strategy.ts:19-106 | 08:00-12:00 plus 13:00-18:00 gives 9 worked hours, 8 regular, 1 extra and no night hours |
| CltStrategy.NightWithinWorked | backend/src/rules/strategies/clt-rule.strategy.ts:58-106 | when every complete pair ends no earlier than it starts, 0 ≤ night minutes ≤ worked minutes |
| CltStrategy.OrderedDayBounds | backend/src/rules/strategies/clt-rule.strategy.ts:19-56 | for such a day, total ≥ 0 and 0 ≤ night ≤ total |
| CltStrategy.IncompletePairContributesNothing | backend/src/rules/strategies/clt-rule.strategy.ts:62-70 | a pair missing an endpoint adds neither worked nor night minutes |
| CltStrategy.OvernightPairIsNegative | backend/src/rules/strategies/clt-rule.strategy.ts:108-110 | 22:00 to 02:00 on the same date counts −1200 worked and night minutes |
| CctStrategy.CalculateExtraHours | backend/src/rules/strategies/cct-rule.strategy.ts:20-42 | the statutory result with `CCT_CUSTOM` appended to the applied rules, which become `[CLT_STANDARD, CCT_CUSTOM]` |
| CctStrategy.ApplicabilityIgnoresPunches | backend/src/rules/strategies/cct-rule.strategy.ts:15-18 | applies exactly when agreement rules are configured with at least one key, whatever the punches |
| CctStrategy.SameFiguresAsStatutory | backend/src/rules/strategies/cct-rule.strategy.ts:22-41 | total, extra, night and holiday hours and the breakdown equal the statutory ones |
| RuleEngine.Applicable | backend/src/rules/rule-engine.service.ts:38-39 | keeps exactly the registered strategies that can apply |
| RuleEngine.Select | backend/src/rules/rule-engine.service.ts:47-54 | returns one strategy's result, never a combination |
| RuleEngine.Lookup | backend/src/rules/rule-engine.service.ts:38 | lists the registered strategies in registration order |
| RuleEngine.AgreementFirst | backend/src/rules/rule-engine.service.ts:40-45 | when `CCT_CUSTOM` is among the candidates it comes first |
| RuleEngine.NoAgreementMeansStatutory | backend/src/rules/rule-engine.service.ts:40-45 | without `CCT_CUSTOM` the only candidates left are statutory |
| RuleEngine.AgreementWins | backend/src/rules/rule-engine.service.ts:37-54 | when the agreement applies, its result is returned and its applied rules name both codes |
| RuleEngine.StatutoryOtherwise | backend/src/rules/rule-engine.service.ts:37-54 | when the agreement does not apply the result is the statutory one, including the fallback with no candidates |
| RuleEngine.EngineSelection | backend/src/rules/rule-engine.service.ts:33-55 | on the registry, the result is the agreement's exactly when it applies and the statutory one otherwise |
| RuleEngine.EmptyConfigIsStatutory | backend/src/rules/rule-engine.service.ts:33-55 | with the empty configuration that record processing passes, the result is the statutory one |
| RuleEngine.Engine.constructor | backend/src/rules/rule-engine.service.ts:14-21 | the registry starts with the statutory and the agreement strategies, in that order |
| RuleEngine.Engine.RegisterStrategy | backend/src/rules/rule-engine.service.ts:26-28 | the registry maps the strategy's code to it, replacing any earlier one; a new code goes last in order |
| RuleEngine.Engine.Registered | backend/src/rules/rule-engine.service.ts:38 | lists exactly the registered strategies |
| RuleEngine.Engine.SimulateRule | backend/src/rules/rule-engine.service.ts:60-71 | a registered code forces that strategy; an absent or unknown code gives the normal calculation |
| RuleEngine.SimulationBypassesApplicability | backend/src/rules/rule-engine.service.ts:60-71 | forcing `CCT_CUSTOM` with an empty configuration applies it although it cannot apply, while the normal calculation stays statutory |
| HourBalance.EnsureBalance | backend/src/hour-balance/hour-balance.service.ts:13-30 | afterwards the user has a balance |
| HourBalance.EnsureBalanceCreatesOnlyWhenMissing | backend/src/hour-balance/hour-balance.service.ts:13-30 | an existing balance leaves the ledger unchanged; a missing one is created at 0 with status NORMAL and nothing else changes |
| HourBalance.RecordedEffect | backend/src/hour-balance/hour-balance.service.ts:44-97 | a write moves the balance by +hours (ENTRY) or −hours (EXIT) with no floor, appends exactly one movement, leaves status and validity alone and changes no other user |
| HourBalance.CreditThenDebitFromFresh | backend/src/hour-balance/hour-balance.service.ts:44-97 | from a fresh user, add h1 then subtract h2 gives h1 − h2 and two movements, ENTRY then EXIT |
| HourBalance.StatusThresholds | backend/src/hour-balance/hour-balance.service.ts:118-128 | before expiry, CRITICAL iff > 40, WARNING iff in (30, 40], NORMAL iff ≤ 30; so 30 is NORMAL and 40 is WARNING |
| HourBalance.ExpiryWins | backend/src/hour-balance/hour-balance.service.ts:122-123 | past `validUntil` the status is EXPIRED whatever the balance |
| HourBalance.WriteKeepsStaleStatus | backend/src/hour-balance/hour-balance.service.ts:44-70 | adding 50 hours to a fresh user keeps the stored NORMAL status while the status rules say CRITICAL |
| HourBalance.AlertTiers | backend/src/hour-balance/hour-balance.service.ts:136-157 | at most one alert per write: none below 24, critical exactly from 32, and it names the user and the balance |
| HourBalance.RecordedKeepsConsistent | backend/src/hour-balance/hour-balance.service.ts:44-97 | every write keeps each balance equal to the net of that user's movements |
| HourBalance.RefreshKeepsConsistent | backend/src/hour-balance/hour-balance.service.ts:13-42 | creating or refreshing a balance keeps it equal to the net of the movements |
| HourBalance.NetAppend | backend/src/hour-balance/hour-balance.service.ts:55-64 | one more movement changes a user's net by its signed hours, and only that user's |
| HourBalance.MovementsOfAppend | backend/src/hour-balance/hour-balance.service.ts:102-106 | a user's movements grow by one exactly when the new movement is theirs |
| HourBalance.HistoryShape | backend/src/hour-balance/hour-balance.service.ts:99-107 | the history holds min(limit, n) of the user's movements, newest first |
| HourBalance.HistoryAfterWrite | backend/src/hour-balance/hour-balance.service.ts:99-107 | after a write the history starts with that movement |
| HourBalance.MovementsOf | backend/src/hour-balance/hour-balance.service.ts:102-103 | keeps only the user's movements |
| HourBalance.HourBalanceService.FindOrCreateBalance | backend/src/hour-balance/hour-balance.service.ts:13-30 | the new state is `EnsureBalance` of the old one and the result is the user's balance |
| HourBalance.HourBalanceService.GetBalance | backend/src/hour-balance/hour-balance.service.ts:32-42 | the new state is `Refreshed`, which creates the balance if needed and recomputes its status |
| HourBalance.HourBalanceService.AddHours | backend/src/hour-balance/hour-balance.service.ts:44-70 | the new state is `Recorded` with an ENTRY of the hours, and its alert |
| HourBalance.HourBalanceService.SubtractHours | backend/src/hour-balance/hour-balance.service.ts:72-97 | the new state is `Recorded` with an EXIT of the hours, and its alert |
| HourBalance.HourBalanceService.GetHistory | backend/src/hour-balance/hour-balance.service.ts:99-107 | creates the balance if needed and returns `History` |
| HourBalance.HourBalanceService.UpdateBalanceStatus | backend/src/hour-balance/hour-balance.service.ts:109-134 | rewrites only that user's status, with `StatusFor` |
| HourBalance.HourBalanceService.CheckAlerts | backend/src/hour-balance/hour-balance.service.ts:136-157 | appends exactly the alerts of `AlertsFor` and changes nothing else |
| Compensation.CreateChecksBalance | backend/src/compensation/compensation.service.ts:16-31 | fails with insufficient balance exactly when balance < requested (equality is allowed); otherwise adds one new PENDING request under a fresh id; never changes any amount in the ledger |
| Compensation.CreateNotifiesManager | backend/src/compensation/compensation.service.ts:34-43 | a request notifies the manager exactly when the user has one |
| Compensation.ScheduleChecksBalance | backend/src/compensation/compensation.service.ts:117-143 | forced scheduling applies the same check, records a SCHEDULED compensation, notifies the employee and changes no amount |
| Compensation.ApproveDebitsPendingOnly | backend/src/compensation/compensation.service.ts:48-87 | a missing id is not found, a non-PENDING one is already processed, both with nothing changed; a PENDING one becomes APPROVED and debits exactly its hours once, with one EXIT movement |
| Compensation.ApproveTwiceDebitsOnce | backend/src/compensation/compensation.service.ts:58-60 | a second approval fails and changes nothing |
| Compensation.RejectNeverRefunds | backend/src/compensation/compensation.service.ts:89-115 | rejecting any existing compensation, whatever its status, makes it REJECTED and leaves the ledger alone |
| Compensation.DoubleBookingOverdraws | backend/src/compensation/compensation.service.ts:16-87 | with 8 hours, two 8-hour requests both pass the check and approving both leaves −8 |
| Compensation.CompensationService.Create | backend/src/compensation/compensation.service.ts:16-46 | the new state and result are those of `CreateStep` |
| Compensation.CompensationService.Approve | backend/src/compensation/compensation.service.ts:48-87 | the new state and result are those of `ApproveStep` |
| Compensation.CompensationService.Reject | backend/src/compensation/compensation.service.ts:89-115 | the new state and result are those of `RejectStep` |
| Compensation.CompensationService.ScheduleForcedCompensation | backend/src/compensation/compensation.service.ts:117-144 | the new state and result are those of `ScheduleStep` |
| Dashboard.CountsPartition | backend/src/dashboard/dashboard.service.ts:32-33 | the four status counts add up to the number of members |
| Dashboard.CriticalAndWarningBounded | backend/src/dashboard/dashboard.service.ts:32-33 | critical + warning ≤ members |
| Dashboard.TotalBounds | backend/src/dashboard/dashboard.service.ts:34 | a sum of values within [lo, hi] lies within [n·lo, n·hi] |
| Dashboard.TeamMembers | backend/src/dashboard/dashboard.service.ts:10-18 | the team is exactly the users whose manager is the given one |
| Dashboard.TeamRow | backend/src/dashboard/dashboard.service.ts:20-29 | a member without a balance shows 0 and NORMAL; otherwise the stored balance and status |
| Dashboard.ManagerDashboardRows | backend/src/dashboard/dashboard.service.ts:8-45 | one row per team member in order, totalEmployees is the team size, and critical + warning ≤ totalEmployees |
| Dashboard.TeamTotalBounds | backend/src/dashboard/dashboard.service.ts:34 | the team total lies between n·lo and n·hi |
| Dashboard.AverageWithinRange | backend/src/dashboard/dashboard.service.ts:83-84 | the average of values within [lo, hi] lies in [lo, hi], and average · n = total |
| Dashboard.AdminStatisticsFacts | backend/src/dashboard/dashboard.service.ts:77-109 | critical + warning ≤ balances; with no balances the average and total are 0, otherwise the average lies within the balances' range and times their count gives the total |
| Dashboard.FirstIndices | backend/src/dashboard/dashboard.service.ts:94-99 | lists, increasingly, the indices where a file name appears for the first time |
| Dashboard.FirstIndicesCover | backend/src/dashboard/dashboard.service.ts:94-99 | every file name has its first index listed |
| Dashboard.FirstIndicesDistinct | backend/src/dashboard/dashboard.service.ts:94-99 | the listed file names are pairwise distinct |
| Dashboard.ImportsByFile | backend/src/dashboard/dashboard.service.ts:93-101 | the loop with its seen-files map equals `RecentImports` |
| Dashboard.RecentImportsFacts | backend/src/dashboard/dashboard.service.ts:93-101 | at most 10 imports, with distinct files, each the first of its file in input order; with 10 files or fewer every file appears |
| Dashboard.CalculateEvolutionData | backend/src/dashboard/dashboard.service.ts:131-151 | the loop equals the fold `EvolutionData` |
| Dashboard.AddMovement | backend/src/dashboard/dashboard.service.ts:137-144 | one pass of the loop is one `Advance` step: a month not seen yet joins the month list once, and the month's value ends as the balance after the movement, whatever the falsy-value re-initialisation wrote first |
| Dashboard.EvolutionRunning | backend/src/dashboard/dashboard.service.ts:134-146 | the fold's running balance is the signed sum of the movements, ENTRY adding and every other type subtracting |
| Dashboard.RunningIsEntriesMinusOthers | backend/src/dashboard/dashboard.service.ts:141-143 | that signed sum is the ENTRY hours minus all other hours |
| Dashboard.EvolutionKeys | backend/src/dashboard/dashboard.service.ts:136-145 | the months recorded are exactly those of the movements |
| Dashboard.EvolutionMonths | backend/src/dashboard/dashboard.service.ts:136-150 | months appear in first-seen order |
| Dashboard.EvolutionValues | backend/src/dashboard/dashboard.service.ts:136-145 | each month's value is the running balance after that month's last movement |
| Dashboard.LastMonthIsNet | backend/src/dashboard/dashboard.service.ts:134-146 | the latest month's value is the ENTRY hours minus all other hours |
| DataTable.Filtered | frontend/src/components/DataTable.tsx:39-40 | an empty search term keeps the data unchanged |
| DataTable.FilteredKeepsMatches | frontend/src/components/DataTable.tsx:39-50 | otherwise it keeps exactly the rows where some column's text contains the term, case-insensitively, each matching row as often as it occurs in the data |
| DataTable.FilteredConcat | frontend/src/components/DataTable.tsx:39-50 | filtering the concatenation of two row lists gives the filtered first list followed by the filtered second, so the kept rows stay in their order |
| DataTable.FilteredCounts | frontend/src/components/DataTable.tsx:39-50 | with a non-empty term, each matching row occurs in the result as often as in the data, and a non-matching row not at all |
| DataTable.SearchIgnoresCase | frontend/src/components/DataTable.tsx:47 | searching for a term or its lower-case form gives the same rows |
| DataTable.SortRows | frontend/src/components/DataTable.tsx:56-67 | sorting is a permutation of the filtered rows |
| DataTable.SortRowsOrdered | frontend/src/components/DataTable.tsx:53-68 | when every row holds a number, or every row holds a text, in the key's field, the result is ordered in the chosen direction and is a permutation |
| DataTable.AscendingMeansNonDecreasing | frontend/src/components/DataTable.tsx:60-66 | in an ascending result no later value is less than an earlier one |
| DataTable.CellOrder | frontend/src/components/DataTable.tsx:60-66 | `<` on values of one kind is irreflexive, transitive and total on distinct values |
| DataTable.SortedKeepsCount | frontend/src/components/DataTable.tsx:53-68 | with no sort key, or the empty key that JavaScript reads as false, the rows are unchanged; with another key they are a permutation, so their number never changes |
| DataTable.HandleSortConfig | frontend/src/components/DataTable.tsx:76-82 | the key becomes the clicked one; the direction becomes descending exactly when that key was already sorted ascending |
| DataTable.ClickTwiceRestores | frontend/src/components/DataTable.tsx:76-82 | clicking the current key twice restores the configuration |
| DataTable.TotalPages | frontend/src/components/DataTable.tsx:71 | the page count is ⌈n / pageSize⌉ |
| DataTable.PageSize | frontend/src/components/DataTable.tsx:72-73 | a page holds at most pageSize rows |
| DataTable.UnpaginatedShowsAll | frontend/src/components/DataTable.tsx:72-74 | without pagination all sorted rows are shown |
| DataTable.FirstPagesArePrefix | frontend/src/components/DataTable.tsx:72-73 | pages 1 to k concatenate to the first k·pageSize rows |
| DataTable.PagesCoverRows | frontend/src/components/DataTable.tsx:71-73 | pages 1 to totalPages concatenate to the sorted rows |
| DataTable.RangeMatchesPage | frontend/src/components/DataTable.tsx:181-183 | the "Mostrando" range lies within 1..n and covers as many rows as the page shows |
| DataTable.VisibleIsOnePage | frontend/src/components/DataTable.tsx:70-74 | a paginated table shows at most one page, all from the filtered data |
| DataTable.Table.constructor | frontend/src/components/DataTable.tsx:31-36 | starts with an empty search, page 1 and no sort key |
| DataTable.Table.SetSearchTerm | frontend/src/components/DataTable.tsx:103-106 | a new search term resets the page to 1 |
| DataTable.Table.HandleSort | frontend/src/components/DataTable.tsx:76-82 | the sort configuration becomes `HandleSortConfig` of the old one; search and page stay |
| DataTable.Table.PrevPage | frontend/src/components/DataTable.tsx:187 | the page goes down by one but not below 1 |
| DataTable.Table.NextPage | frontend/src/components/DataTable.tsx:197-199 | the page goes up by one but not past the page count |

## Left out

- Persistence and HTTP (Prisma, controllers, DTO validation, guards) are
  replaced by in-memory maps and sequences. A lookup that Prisma would do
  (`findUnique`, `findFirst`, `count`) is a map access or a parameter.
- Reading the workbook in `importFromExcel` (`XLSX.read`, `sheet_to_json`)
  is a foreign library. The model starts from the rows, each a map from
  column title to cell text.
- The UTF-8 / Latin-1 decoding fallback of `importFromTxt` works on bytes.
  The model starts from the decoded text.
- JavaScript `Date` semantics are left out: time zones, calendar
  validation of dates such as 31/02, and `toLocaleDateString`. A clock time
  past 24h, which `setHours` rolls over into the next day, is modelled as
  minutes past the base date's midnight (`TimeClockImport.MinuteOfDay`);
  `RuleTypes.HourOf` reads its hour modulo 1440 minutes. The next calendar
  day itself is not modelled. The overtime description uses a fixed
  DD/MM/YYYY rendering.
- `Decimal`, `toNumber`, `toFixed` and floating-point rounding are left out.
  Hours are exact reals.
- The multipliers read at backend/src/rules/strategies/clt-rule.strategy.ts:21-23
  never affect the result. The agreement branches at
  backend/src/rules/strategies/cct-rule.strategy.ts:26-36 are empty. Neither
  is modelled beyond "no effect".
- The read-modify-write on a balance is not atomic in the source. The model
  is sequential, so concurrent writes are not modelled.
- Logging, the `metadata` of movements, the wording of notification and
  alert messages, and the e-mail column of the team table are left out.
- `getEmployeeDashboard`'s query (the latest balance and its last 12
  movements) is a database query. `CalculateEvolutionData` takes the
  movements in the order the query returns them.
- The admin counts `totalUsers`, `totalEmployees` and `activeRules` are
  database counts and are not modelled. `pendingCompensations` counts the
  PENDING compensations of the workflow.
- TimeParsing.ParseDate: the regular expressions are unanchored, so the
  model searches the whole text for the leftmost match of each pattern in
  turn and reads the day, month and year from that match's fields. The
  source rebuilds a date string from the captured groups only for
  DD/MM/YYYY and DDMMYYYY. For YYYY-MM-DD it hands the whole text to
  `new Date`, so text around the date (`dia 2024-01-15`) reaches the
  `Date` parser and may give an Invalid Date, which the model does not
  capture. Calendar validation and the `Date` value itself are not
  modelled either.
- TimeParsing.IsHeader: lower-casing covers ASCII and the Latin-1 capitals
  only. Other scripts are not lower-cased.
- DataTable.Filtered: `toLowerCase` on the cell texts and the search term
  is modelled for ASCII and the Latin-1 capitals only, as for the header
  test.
- JavaScript strings are sequences of UTF-16 code units, while the model's
  strings are sequences of characters. `.length`, `substring`, the
  fixed-width column offsets of a text line and the `<` of the table's
  comparator agree with the model only when no character lies outside the
  Basic Multilingual Plane.
- RuleEngine.Engine.RegisterStrategy: the strategies form a closed
  datatype of the two built-in rules, each carrying its own code. Registering
  under a code that is already present can therefore only put back the
  same behaviour. The model does not capture replacing a strategy with a
  different implementation under an existing code.
- DataTable.SortRowsOrdered: ordering is proved only when every row holds
  the same kind of value (all numbers or all texts) in the sort field.
  JavaScript's `<` between a number and a numeric string converts the
  string. The model treats mixed or missing values as neither less nor
  greater, and such rows keep their relative order. The result is still a
  permutation in every case (`DataTable.SortRows`).
- DataTable.Table.NextPage: requires pagination and more than one page,
  because the buttons are rendered only then
  (frontend/src/components/DataTable.tsx:178).
- DataTable.Table: new `data` or `columns` props arriving while the
  component is mounted are not modelled. The component state is built once
  from them.
- The engine's comparator (backend/src/rules/rule-engine.service.ts:40-45)
  returns -1 both ways only for two `CCT_CUSTOM` strategies, which cannot
  both be registered because the registry is keyed by code. The model takes
  the agreement strategy first and keeps the others in registration order,
  as the stable `sort` does.
- DataTable.Filtered: a cell is a number or a text, or missing (printed
  "undefined"). Null and boolean cells, whose `String` is "null", "true" or
  "false", are not modelled.
