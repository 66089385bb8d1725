# Student budget ledger — a verified model

`bot.py` is a console budget tracker. It keeps one record: a `budget` and an
ordered list of expenses, each with an amount, a category, an ISO date and a
comment. The user types Ukrainian command phrases. The program sets the budget,
appends expenses, filters them by date, period or category, and reports the
balance and the per-category sums. The record is loaded once at start-up and
rewritten after every change.

This project models the ledger logic in Dafny and proves what each operation
promises:

- `wrappers.dfy` — `Option`, used for absent record fields and failed parses.
- `text.dfy` — Python's `str.strip()`, with the full `str.isspace()` set of
  code points, and `str.lower()` for ASCII A-Z, the Cyrillic capitals U+0400-U+042F and
  U+0490.
- `dates.dfy` — `strptime(s, "%Y-%m-%d").date()` and `date.isoformat()` over a
  `(year, month, day)` triple. Includes the Gregorian leap-year rule and the
  order on dates.
- `storage.dfy` — `default_state` and the shape check of `load_state`. The
  decoded file arrives as an abstract JSON value.
- `parsers.dfy` — `normalize_category`, one attempt of `parse_date`, and one
  attempt of `parse_float`. Python's `float()` is a parameter of the model.
- `expenses.dfy` — `total_expenses`, `calculate_balance`, the three filters and
  `report_by_categories`. Each reads record fields with the same defaults as
  the source's `dict.get` calls.
- `commands.dfy` — class `Ledger`, with `cmd_set_budget`, `cmd_add_expense`
  (and the notice it prints, `BudgetNotice`), the check made by `cmd_balance`, and
  `cmd_expenses_by_category`.
- `dispatch.dfy` — `handle_command` (normalising and classifying the phrase)
  and the `main` loop as a two-state machine over the typed lines.

Amounts and the budget are Dafny `real`s. A stored field may be missing, so
`Expense` holds each field as an `Option`. A missing amount counts as 0. A
missing date reads as the text `None`, because the source uses
`str(e.get("date"))`. A missing category is `""` to the category filter and the
sentinel `"Без категорії"` to the report.

The model follows the code in three places where a reader might expect
otherwise:

- The report groups by the trimmed label and does not fold case
  (`bot.py:155`). `"Food"` and `"food "` are two groups, `"Food"` and `"food"`
  (`Expenses.ReportKeepsCase`).
- Only a missing category becomes the sentinel in the report. A blank one
  stays `""` (`Expenses.ReportLabelDefaults`).
- The stored budget is never re-checked, so it is any JSON value; the model
  takes it as a number. Only a budget entered through the prompt is
  non-negative.

## Model

| member | source | states |
|---|---|---|
| `Text.Strip` | bot.py:84 | the result has no whitespace at either end and fits inside the input after the leading whitespace run |
| `Text.StripIsSlice` | bot.py:84 | the result is one contiguous slice of the input, starting right after the leading whitespace run |
| `Text.StripRemovesSpaces` | bot.py:84 | every code point `strip()` drops is whitespace, from the front run or the back run |
| `Text.StripIdempotent` | bot.py:84 | stripping twice is stripping once |
| `Text.StripEmptyIff` | bot.py:84-85 | `strip()` gives `""` exactly when every code point is whitespace |
| `Text.StripPadded` | bot.py:84 | any whitespace before and after a non-empty stripped text is exactly what `strip()` removes |
| `Text.LowerChar` | bot.py:148 | `str.lower()` on one code point: ASCII A-Z and the Cyrillic capitals U+0400-U+042F and U+0490 go to their lower-case letters, everything else is unchanged; its properties are `Text.LowerCharKeepsSpace` and `Text.LowerCharIdempotent` |
| `Text.LowerCharKeepsSpace` | bot.py:148 | lowering keeps whitespace as it is and never makes whitespace out of another code point |
| `Text.LowerCharIdempotent` | bot.py:148 | lowering a lowered code point changes nothing |
| `Text.Lower` | bot.py:147-148 | the result has the input's length, each code point lowered by `Text.LowerChar` |
| `Text.LowerKeepsStripped` | bot.py:148 | lowering a stripped text leaves it stripped |
| `Text.LowerCommutesWithStrip` | bot.py:147-148 | trimming then lower-casing equals lower-casing then trimming |
| `Text.LowerIdempotent` | bot.py:147-148 | lower-casing twice is lower-casing once |
| `Dates.DaysInMonth` | bot.py:76 | every month has 28 to 31 days, and 29 only for February of a Gregorian leap year |
| `Dates.Format` | bot.py:77 | `isoformat()`: ten code points, the year in four digits, month and day in two, with dashes at positions 4 and 7; `Dates.ParseFormat` proves it parses back |
| `Dates.ParseIso` | bot.py:76 | a text parses only to a valid date whose zero-padded ISO form is that text |
| `Dates.ParseFormat` | bot.py:76-77 | parsing the `isoformat()` text of any valid date gives back that date |
| `Dates.ParseIsoIff` | bot.py:76-77 | a text parses to a valid date `d` exactly when it is `d`'s ISO form |
| `Dates.BeforeTotal` | bot.py:132-133 | any two distinct dates are ordered one way and never both ways |
| `Storage.DefaultState` | bot.py:20-25 | the default record is well shaped, with budget 0, an empty expense list and no other keys |
| `Storage.LoadState` | bot.py:28-41 | the result always has a `budget` key and a list under `expenses`; a decoded record that passes the check comes back unchanged; a missing file, a read error, a decode error, a missing key or a non-list `expenses` each give the default record |
| `Storage.LoadStateStable` | bot.py:37-39 | a record `load_state` returned passes the check again unchanged |
| `Storage.MissingExpensesGivesDefault` | bot.py:37-38 | `{"budget": 5}` loads as the default record |
| `Storage.NonListExpensesGivesDefault` | bot.py:37-38 | a non-list `expenses` loads as the default record |
| `Parsers.NormalizeCategory` | bot.py:82-85 | the result is never empty and never has surrounding whitespace; it is the trimmed label, or the sentinel when the trimmed label is empty |
| `Parsers.BlankCategory` | bot.py:82-85 | a blank or whitespace-only label becomes `"Без категорії"` |
| `Parsers.NormalizeCategoryIdempotent` | bot.py:82-85 | normalising a normalised label changes nothing |
| `Parsers.ParseDateAttempt` | bot.py:74-77 | one attempt succeeds only with the stripped input, when that text names a valid date, and it succeeds for every valid date's ISO text |
| `Parsers.ParseDateAttemptIff` | bot.py:74-77 | the attempt returns the ISO text of a valid date `d` exactly when the stripped input is that text |
| `Parsers.ParseDateAttemptStable` | bot.py:74-77 | feeding an accepted result back in is accepted and gives the same text |
| `Parsers.LeapDayAccepted` | bot.py:74-77 | `" 2024-02-29 "` is accepted as `2024-02-29` |
| `Parsers.NonLeapDayRefused` | bot.py:74-79 | `2026-02-29` is refused |
| `Parsers.PreparedAmount` | bot.py:57 | `raw.strip().replace(",", ".")`; its properties are `Parsers.PreparedAmountHasNoComma` |
| `Parsers.PreparedAmountHasNoComma` | bot.py:57 | the text handed to `float()` is as long as the trimmed input, has no comma left, and keeps every other code point in place |
| `Parsers.ParseAmountAttempt` | bot.py:57-65 | an accepted amount is the non-negative number `float()` read from the stripped text with `,` replaced by `.`; a negative number is refused as negative, and text `float()` rejects is refused as not a number |
| `Parsers.CommaOrPoint` | bot.py:57 | two inputs that differ only in using `,` or `.` as the decimal separator get the same outcome |
| `Expenses.AmountOf` | bot.py:90 | `float(e.get("amount", 0))`: the stored amount, 0 when it is missing |
| `Expenses.DateText` | bot.py:121 | `str(e.get("date"))`: the stored date text, `None` when it is missing |
| `Expenses.CategoryKey` | bot.py:148 | `str(e.get("category", "")).strip().lower()`; its properties are `Expenses.CategoryKeyStripped` |
| `Expenses.CategoryKeyStripped` | bot.py:148 | the category filter's key never has surrounding whitespace, and a missing category gives `""` |
| `Expenses.ReportLabel` | bot.py:155 | a missing category is grouped under the sentinel; a present one under its trimmed text |
| `Expenses.Total` | bot.py:88-90 | `sum(float(e.get("amount", 0)) for e in expenses)`, added left to right; its properties are `Expenses.TotalOfOne`, `Expenses.TotalAppend`, `Expenses.TotalPermutation`, `Expenses.TotalWithout` and `Expenses.TotalNonNegative` |
| `Expenses.TotalOfOne` | bot.py:88-90 | a single expense totals its own amount, 0 when the amount is missing |
| `Expenses.TotalAppend` | bot.py:88-90 | the total of two lists joined is the sum of their totals |
| `Expenses.TotalPermutation` | bot.py:88-90 | reordering the expenses does not change the total |
| `Expenses.TotalWithout` | bot.py:88-90 | the total is the total without one expense plus that expense's amount |
| `Expenses.TotalNonNegative` | bot.py:88-90 | with no negative amounts, the total is not negative |
| `Expenses.Balance` | bot.py:93-95 | the balance plus the total is the budget |
| `Expenses.BalanceAfterAppend` | bot.py:93-95 | one more expense lowers the balance by exactly its amount (0 when missing) |
| `Expenses.Matches` | bot.py:120-148 | the three filter rules: the date text equals the target; the category key equals the trimmed, lower-cased query; the date text parses to a date between the earlier and the later bound, both included; `Expenses.Filter`, `Expenses.FilterByDate`, `Expenses.FilterByCategory` and `Expenses.PeriodDropsUnparsable` carry its properties |
| `Expenses.Filter` | bot.py:120-148 | a filter's result is an ordered sub-list of the input that holds only matching expenses, and holds every matching expense as often as the input does |
| `Expenses.FilterSameRule` | bot.py:120-148 | two criteria that keep the same expenses give the same result on every list |
| `Expenses.FilterByDate` | bot.py:120-121 | the in-order sub-list of exactly the expenses whose date text equals the target |
| `Expenses.FilterByCategory` | bot.py:146-148 | the in-order sub-list of exactly the expenses whose trimmed, lower-cased category equals the trimmed, lower-cased query |
| `Expenses.CategoryQueriesAlike` | bot.py:147 | queries with the same trimmed, lower-cased form give the same result |
| `Expenses.CategoryQueryNormalized` | bot.py:147 | querying with the already normalised query gives what the raw query gives |
| `Expenses.FoodQueries` | bot.py:146-148 | `"Food"` with any whitespace around it and `"food"` give the same result |
| `Expenses.FilterByPeriod` | bot.py:124-143 | the result is the filter keeping exactly the expenses whose date parses and lies between the earlier and the later bound, both included, in list order |
| `Expenses.PeriodSwap` | bot.py:132-133 | giving the bounds in either order selects the same expenses |
| `Expenses.PeriodDropsUnparsable` | bot.py:137-142 | an expense whose date does not parse is never in the result |
| `Expenses.LabelsAppend` | bot.py:154-157 | one more expense adds its group label to the labels |
| `Expenses.LabelsExactly` | bot.py:154-157 | a label is present exactly when some expense has it as its group |
| `Expenses.MapSumRemove` | bot.py:157 | the sum of a report's values does not depend on which entry is counted first |
| `Expenses.MapSumUpdate` | bot.py:157 | overwriting one entry changes the sum by the difference |
| `Expenses.LabelTotalAbsent` | bot.py:157 | a label no expense has sums to 0, so `report.get(cat, 0.0)` starts each new group at 0 |
| `Expenses.ReportStep` | bot.py:154-157 | adding one expense's amount to its group keeps the report exact for the longer list |
| `Expenses.ReportStepValues` | bot.py:157 | after the update each group still holds the sum of its expenses' amounts |
| `Expenses.ReportByCategories` | bot.py:151-158 | the keys are exactly the group labels present; each value is the sum of its group's amounts, a missing amount counting 0; the values add up to the total |
| `Expenses.EmptyReport` | bot.py:88-90 | an empty list has no labels and total 0 |
| `Expenses.ReportLabelDefaults` | bot.py:155 | a missing category is reported under `"Без категорії"` and a blank one under `""` |
| `Expenses.ReportKeepsCase` | bot.py:155 | `"Food"` and `"food"` followed by any whitespace are two groups, `"Food"` and `"food"` |
| `Commands.Ledger.constructor` | bot.py:313 | the ledger starts with the budget and expenses loaded |
| `Commands.Ledger.SetBudget` | bot.py:181-185 | the budget becomes the entered amount and the expenses are unchanged |
| `Commands.BudgetNotice` | bot.py:205-211 | the over-budget warning, with a positive overage of total − budget, appears exactly when the budget is positive and exceeded; the remaining balance, budget − total, appears exactly when the budget is positive and not exceeded; nothing appears when the budget is not positive |
| `Commands.Ledger.Record` | bot.py:201-211 | the record is appended at the end, earlier expenses and the budget are unchanged, and the notice is the one for the new total |
| `Commands.Ledger.AddExpense` | bot.py:188-211 | exactly one record is appended at the end, with the amount, the normalised category, the ISO date text and the stripped comment; earlier expenses and the budget are unchanged; the notice is the one for the new total |
| `Commands.Ledger.Summary` | bot.py:240-250 | the amount spent is the total, the remainder is budget − spent, and an overage is reported exactly when a positive budget is exceeded |
| `Commands.ExpensesByCategory` | bot.py:231-237 | a blank query is refused; any other query gives the category filter's result |
| `Commands.WithinBudgetScenario` | bot.py:181-250 | budget 100, then an expense of 30: the notice shows 70 remaining, and the balance shows 30 spent, 70 remaining and no over-budget warning |
| `Commands.OverBudgetScenario` | bot.py:181-211 | budget 50, then an expense of 80: the warning reports an overage of 30 |
| `Dispatch.Normalize` | bot.py:283 | `command.strip().lower()`: never longer than the input and never padded with whitespace |
| `Dispatch.Classify` | bot.py:283-307 | the trimmed, lower-cased line selects exit exactly when it is an exit phrase, is unrecognised exactly when it is not in the phrase table, and otherwise selects the table's handler |
| `Dispatch.ClassifyPhrase` | bot.py:285-307 | the exit phrases select exit, the help phrases select help, a phrase is unrecognised exactly when it is not in the phrase table, and every recognised phrase selects the handler the table gives it |
| `Dispatch.HandleCommand` | bot.py:278-309 | the result is false exactly when the trimmed, lower-cased input is `вийти`, `exit` or `quit`; every other input, recognised or not, gives true |
| `Dispatch.OnlyHelpAndExitInAscii` | bot.py:285-303 | an input that normalises to ASCII selects help, exit or nothing |
| `Dispatch.OnlyHelpAndExitPhrasesInAscii` | bot.py:285-303 | the only ASCII phrases are the synonyms of help and exit |
| `Dispatch.HandlerPhrasesAreCyrillic` | bot.py:287-301 | every phrase of the other handlers starts with a code point of the Cyrillic block U+0400-U+04FF |
| `Dispatch.ExitInCapitals` | bot.py:283-305 | `EXIT` with any whitespace around it stops the loop |
| `Dispatch.Loop` | bot.py:316-319 | for any dispatcher, the loop handles every line up to and including the first one that says stop, and none after it; if no line says stop, it handles all of them and is still running |
| `Dispatch.RunSession` | bot.py:312-319 | driven by `handle_command`, the loop stops right after the first exit phrase and handles every line before it; with no exit phrase it handles every line and keeps running |

## Left out

- File access and JSON decoding (`os.path.exists`, `open`, `json.load`, `json.dump`, `save_state`). They are library calls. The decoded content is an input of `Storage.LoadState`, and the rewrite after every change is not modelled.
- The save/load round trip, because it depends on the `json` library.
- A top-level JSON value that is not an object. `Storage.Source` holds only the object case. In `bot.py:37` a number, a boolean or `null` raises `TypeError` at the `in` test itself. A list or a string without `"budget"` (as an element or as a substring) gives `default_state()`. One that also holds `"expenses"` passes both `in` tests and raises `TypeError` at `state["expenses"]`. `TypeError` is not caught, so the program stops.
- A file that is not valid UTF-8. `UnicodeDecodeError` is not among the caught exceptions, so it propagates. The model has no case for it.
- Commands.Ledger.constructor: the conversion of the decoded record into `budget: real` is not modelled. `bot.py:206` and `bot.py:241` call `float()` on the stored budget, which raises `ValueError` for a text such as `"abc"` and `TypeError` for `null`, a list or an object, and nothing catches it. In `cmd_add_expense` the new expense has then already been appended and saved (`bot.py:201-202`) before the program stops.
- Turning the stored JSON entries into `Expense` records. A field of an unexpected JSON type (`float()` of a string, `str()` of a number) is not modelled. An `Expense` field is either absent or of the expected type.
- Python `float` behaviour: rounding, `nan`, `inf`, and the texts `float()` accepts (`"1e3"`, `"1_000"`). Amounts are exact reals, and `float()` is the `toFloat` parameter.
- The prompting loops of `parse_float` and `parse_date`. They re-ask forever on bad input, so only one attempt is modelled.
- `input()` at end of input, which raises `EOFError`. In `Dispatch.Loop` the lines just run out, and the loop is still running.
- Console output: the `print_expenses` table, `cmd_help`, `greet`, the sorted listing in `cmd_report_categories`, `:.2f` rendering. The handlers that only parse, filter and print (`cmd_show_expenses`, `cmd_expenses_by_date`, `cmd_expenses_by_period`, `cmd_report_categories`) come down to the functions above.
- Dispatch.RunSession: it models the loop's control flow only. The handlers each line starts, with their own prompts, are not run inside it. The two state-changing handlers are `Commands.Ledger.SetBudget` and `Commands.Ledger.AddExpense`.
- Unicode `str.lower()` in general. `Text.LowerChar` lowers ASCII A-Z, the Cyrillic capitals U+0400-U+042F and U+0490. Every other code point is unchanged, including those whose Python lower-case form has more than one code point.
- Leniencies of `strptime`: one-digit months and days (`2026-1-5`), a space before a one-digit day, non-ASCII decimal digits. `Dates.ParseIso` accepts only the strict zero-padded form. So `Expenses.FilterByPeriod` drops a hand-edited stored date such as `2026-1-5` even inside the range, where `bot.py:138-140` keeps it.
