# Taxi shift profit calculator — Dafny model

This project models the logic of a profit calculator for shift-based gig drivers. The driver records the fares of a working day (amount, cash or card, an optional tip, an optional time) and the day's costs (daily expenses, an info-service fee, a rent percentage, medic and mechanic fees). The calculation engine turns these into eight totals. A saved day becomes a `DayRecord`. The history page sums the saved days into a summary and lets the driver delete a day. A settings store holds the toggles that switch the optional costs on and off. A small server keeps one day per user and date.

Money is an exact `real`, so the engine's identities hold exactly rather than within a floating-point tolerance.

Modules, one per source file:

- `Types` (src/types.ts): the data model. It also defines `InputNumber` and `NumberOrZero`, which model JavaScript's `Number(x) || 0`.
- `Calculator` (src/lib/calculator.ts): `CalculateDay` and the lemmas about its totals.
- `History` (src/pages/HistoryPage.tsx): the summary, as a recursive fold plus the accumulator loop `Summarize`. The class `HistoryView` holds the `days` and `selected` state and implements `Delete`.
- `Session` (src/pages/CalculatorPage.tsx): the class `WorkingDay` holds `orders`, `extras` and `notes`. Its methods add, remove, clear and save.
- `SettingsStore` (src/hooks/useSettings.tsx): `DefaultSettings`, the spread merge `Merge`, and the class `SettingsProvider`. Its `persisted` field logs every value handed to `saveSettings`.
- `OrderForm` (src/components/OrderForm.tsx): the amount validator, the order built on submit, and the form state with its reset.
- `ExtrasForm` (src/components/DailyExtrasForm.tsx): `HandleChange`, which updates one field and coerces bad input to 0.
- `DaysTable` (server/app/routes/days.py): the class `DayTable` is an in-memory `days` table with `CreateDay` and `ListDays`.
- `Config` (server/app/config.py): `SplitOrigins` together with Python's `split`, `strip` and `isspace`.
- `Wrappers` and `Seqs`: `Option`/`Result`, and one order-preserving `Filter` that every `filter` in the source uses.

Parameters stand in for the source's nondeterministic inputs. The random id suffix, `Date.now()`, the server's `time.time()`, the generated order id and the formatted current date are all passed in. Each React handler is one atomic state change.

## Model

| member | source | states |
|---|---|---|
| `Calculator.CalculateDay` | src/lib/calculator.ts:9-52 | the eight totals; cash plus card always equals the order total |
| `Calculator.CashCardPartition` | src/lib/calculator.ts:14-20 | every order is cash or card, so the two filtered lists split the orders: their amounts sum to the order total and their lengths to the order count |
| `Calculator.AmountSumAppend` | src/lib/calculator.ts:14 | the order-total sum is additive over concatenation |
| `Calculator.TipsSumAppend` | src/lib/calculator.ts:24 | the tips sum is additive over concatenation |
| `Calculator.MissingTipIgnored` | src/lib/calculator.ts:24 | an order with no tip adds nothing to the tips, wherever it stands in the list |
| `Calculator.TipsGating` | src/lib/calculator.ts:22-25 | tips are 0 when tips are hidden, and also when there are no orders; otherwise they are the sum of the defaulted tips |
| `Calculator.Identities` | src/lib/calculator.ts:27-40 | gross = order total + tips, and net profit = gross − costs |
| `Calculator.RentGating` | src/lib/calculator.ts:28-31 | rent is 0 unless the rent toggle is on and the percentage is positive; otherwise it is gross × percent / 100 |
| `Calculator.ExtrasTotalParts` | src/lib/calculator.ts:33-38 | costs always include the daily expenses; the info service only under its toggle; medic and mechanic only under theirs; rent only when it counts against profit |
| `Calculator.IncludeRentDifference` | src/lib/calculator.ts:37-40 | switching `includeRentInProfit` on raises costs by exactly the rent and lowers net profit by exactly the rent; rent and gross are unchanged |
| `Calculator.NoOrders` | src/lib/calculator.ts:14-40 | with no orders every revenue total is 0 and net profit is minus the costs |
| `Calculator.TwoOrderDay` | src/lib/calculator.ts:9-52 | a worked day: 500 cash fare with a 50 tip, 300 card fare, 100 expenses, 10 % rent gives 800/500/300/50/850/85/185/665 |
| `Types.NumberOrZero` | src/components/DailyExtrasForm.tsx:24 | `Number(x) \|\| 0`: a number is kept as given; NaN and the empty input become 0 |
| `History.Aggregate` | src/pages/HistoryPage.tsx:36-48 | the summary of no days is all zeros |
| `History.Summarize` | src/pages/HistoryPage.tsx:38-47 | the mutating accumulator loop computes exactly the summary: net profit, order count, cash and card summed over all days |
| `History.AggregateAppend` | src/pages/HistoryPage.tsx:38-47 | the summary of `a ++ b` is the field-wise sum of the summaries of `a` and `b` |
| `History.AggregatePermutation` | src/pages/HistoryPage.tsx:38-47 | any reordering of the days has the same summary |
| `History.WithoutDayExact` | src/pages/HistoryPage.tsx:61 | deletion keeps exactly the days whose id differs, and changes nothing when no day has that id |
| `History.WithoutDayAppend` | src/pages/HistoryPage.tsx:61 | deletion distributes over concatenation, so the survivors keep their order |
| `History.HistoryView.constructor` | src/pages/HistoryPage.tsx:32-33 | no days and nothing selected |
| `History.HistoryView.Load` | src/pages/HistoryPage.tsx:50-53 | the listed days become the page's days |
| `History.HistoryView.Select` | src/pages/HistoryPage.tsx:33 | sets the selection |
| `History.HistoryView.CurrentSummary` | src/pages/HistoryPage.tsx:36-48 | the summary of the current days; all zeros when there are none |
| `History.HistoryView.Delete` | src/pages/HistoryPage.tsx:59-63 | the days become the old days without that id; the selection is cleared exactly when its id is the deleted id |
| `Session.EffectiveSettings` | src/pages/CalculatorPage.tsx:35 | `defaultSettings` when no settings are given, the given settings otherwise |
| `Session.WithoutOrderExact` | src/pages/CalculatorPage.tsx:44-46 | removal deletes every order with that id, keeps all others in their order, and is the identity when no order has the id |
| `Session.MakeRecord` | src/pages/CalculatorPage.tsx:60-68 | the record copies date, orders, notes, totals, creation time and every extras field; its id starts with the date and a dash |
| `Session.WorkingDay.constructor` | src/pages/CalculatorPage.tsx:14-28 | no orders, the initial extras (rent 3 %, all else 0), empty notes |
| `Session.WorkingDay.Totals` | src/pages/CalculatorPage.tsx:30-38 | `calculateDay` of the current orders and extras under the given settings, or under `defaultSettings` when there are none; cash plus card equals the order total |
| `Session.WorkingDay.AddOrder` | src/pages/CalculatorPage.tsx:40-42 | the order is appended; earlier orders are unchanged |
| `Session.WorkingDay.RemoveOrder` | src/pages/CalculatorPage.tsx:44-46 | the orders become the old orders without that id |
| `Session.WorkingDay.Clear` | src/pages/CalculatorPage.tsx:48-52 | no orders, the initial extras, empty notes |
| `Session.WorkingDay.ChangeExtra` | src/pages/CalculatorPage.tsx:161 | the extras become the form's single-field update of the old extras |
| `Session.WorkingDay.SetNotes` | src/pages/CalculatorPage.tsx:162-163 | the notes become the given text |
| `Session.WorkingDay.SaveDay` | src/pages/CalculatorPage.tsx:54-68 | no record if and only if there are no orders; otherwise a record whose totals are `calculateDay` of the current orders, extras and (default) settings, and which copies the date, orders, notes and every extras field; the session is never changed |
| `SettingsStore.DefaultSettingsValues` | src/hooks/useSettings.tsx:6-20 | `defaultSettings`: tips, rent percent and rent-in-profit on; order time, info-service cost and medic/mechanic off; light scheme, cyan accent; tariffs 3 %, 300, 500, 1000 |
| `SettingsStore.NeedsResave` | src/hooks/useSettings.tsx:45 | `!stored.defaultRentPercent` holds exactly when the stored rent percent is missing or 0 |
| `SettingsStore.MigratedRentPercent` | src/hooks/useSettings.tsx:39-47 | migration fills a missing rent percent with 3 and keeps a stored one, so a resaved value has rent percent 0 or 3 |
| `SettingsStore.Merge` | src/hooks/useSettings.tsx:39-42 | each key takes the patch's value when present and the base value otherwise |
| `SettingsStore.MergeNoChange` | src/hooks/useSettings.tsx:55 | an empty patch leaves the settings unchanged |
| `SettingsStore.MergeTwice` | src/hooks/useSettings.tsx:53-59 | two successive updates equal one update with the overlaid patch |
| `SettingsStore.MigrateRoundTrip` | src/hooks/useSettings.tsx:39-42 | settings that were saved in full migrate back to themselves |
| `SettingsStore.SettingsProvider.constructor` | src/hooks/useSettings.tsx:31-32 | starts at `defaultSettings` (toggles for tips, rent and rent-in-profit on, the rest off; rent 3, info service 300, medic 500, mechanic 1000), not ready, nothing saved |
| `SettingsStore.SettingsProvider.Load` | src/hooks/useSettings.tsx:34-51 | nothing stored keeps the settings; stored values are merged over the defaults and re-saved exactly when the stored rent percent is missing or 0; ready afterwards |
| `SettingsStore.SettingsProvider.UpdateSettings` | src/hooks/useSettings.tsx:53-59 | the settings become the patch merged over the previous settings, and exactly that value is persisted |
| `OrderForm.ValidateAmount` | src/components/OrderForm.tsx:21 | accepts exactly the positive numeric amounts, with the source's error message otherwise |
| `OrderForm.BuildOrder` | src/components/OrderForm.tsx:25-32 | copies the id, amount and payment type; tips 0 when tips are hidden, otherwise the entered tip or 0; time present exactly when order time is shown |
| `OrderForm.ValidatedOrderAmount` | src/components/OrderForm.tsx:21-28 | an order built from validated values has exactly the entered positive amount |
| `OrderForm.OrderFormState.constructor` | src/components/OrderForm.tsx:14-19 | amount 0, cash, tips 0, empty time |
| `OrderForm.OrderFormState.Edit` | src/components/OrderForm.tsx:48-76 | the form holds the edited values |
| `OrderForm.OrderFormState.Submit` | src/components/OrderForm.tsx:25-35 | an invalid amount adds nothing and keeps the values; otherwise the built order is handed on and the form is reset |
| `ExtrasForm.HandleChange` | src/components/DailyExtrasForm.tsx:23-25 | only the given key changes; a number is stored as given; NaN or empty input stores 0 |
| `ExtrasForm.HandleChangeUnchanged` | src/components/DailyExtrasForm.tsx:24 | writing the value already stored changes nothing |
| `ExtrasForm.HandleChangeCommutes` | src/components/DailyExtrasForm.tsx:24 | edits of two different keys can be made in either order |
| `DaysTable.OwnedBy` | server/app/routes/days.py:29 | exactly the rows of that user |
| `DaysTable.Insert` | server/app/routes/days.py:29 | inserting adds exactly that row to the multiset |
| `DaysTable.InsertNewestFirst` | server/app/routes/days.py:29 | inserting into a newest-first list keeps it newest first |
| `DaysTable.SortNewestFirst` | server/app/routes/days.py:29 | the rows again, as a permutation, ordered by `created_at` descending |
| `DaysTable.DayTable.constructor` | server/app/models.py:18-25 | an empty table that satisfies the invariant |
| `DaysTable.DayTable.FindExisting` | server/app/routes/days.py:40-42 | a row for this user and date if one exists; none if and only if there is no such row |
| `DaysTable.DayTable.CreateDay` | server/app/routes/days.py:33-50 | fails with 400 "Day already saved" exactly when the user has a row for the date, and then the table is unchanged; otherwise exactly one row for the user and date is appended; at most one row per (user, date) holds throughout |
| `DaysTable.DayTable.ListDays` | server/app/routes/days.py:24-30 | a permutation of the current user's rows, and only theirs, sorted by `created_at` descending |
| `Config.Split` | server/app/config.py:20 | `split(",")` gives at least one piece and no piece contains a comma |
| `Config.SplitJoin` | server/app/config.py:20 | joining the pieces with commas gives back the input |
| `Config.SplitAtComma` | server/app/config.py:20 | the pieces of `a,b` are the pieces of `a` followed by those of `b` |
| `Config.SkipSpace` | server/app/config.py:20 | the first non-whitespace index at or after `i` (or the end), with only whitespace skipped |
| `Config.SkipSpaceBack` | server/app/config.py:20 | the index just past the last non-whitespace character of `s[lo..j]` (or `lo`), with only whitespace skipped |
| `Config.StripStart` | server/app/config.py:20 | where the stripped text begins: after leading whitespace only, at a non-space or the end |
| `Config.TrimLeft` | server/app/config.py:20 | the left half of `strip()`: a suffix of the input, preceded only by whitespace, that starts with a non-space |
| `Config.TrimRight` | server/app/config.py:20 | the right half of `strip()`: a prefix of the input, followed only by whitespace, that ends with a non-space |
| `Config.Strip` | server/app/config.py:20 | the contiguous middle of the input that starts after the leading whitespace; everything before and after it is whitespace, and it neither starts nor ends with whitespace |
| `Config.StripIsTrimBoth` | server/app/config.py:20 | `strip()` equals stripping the left end and then the right end |
| `Config.StripKeepsNonSpace` | server/app/config.py:20 | a non-whitespace character of a piece survives stripping |
| `Config.StripNonEmpty` | server/app/config.py:20 | every kept item is non-empty and stripped; items of comma-free pieces are comma-free |
| `Config.StripNonEmptyOne` | server/app/config.py:20 | one piece yields its stripped text, or nothing when that is empty |
| `Config.StripNonEmptyFound` | server/app/config.py:20 | every piece whose stripped text is non-empty contributes that text |
| `Config.StripNonEmptyFrom` | server/app/config.py:20 | every kept item is the stripped text of some piece |
| `Config.StripNonEmptyAppend` | server/app/config.py:20 | the comprehension works piece by piece over concatenation |
| `Config.SplitOrigins` | server/app/config.py:16-21 | a list is returned unchanged; for a string, the items are exactly the non-empty stripped comma-separated pieces (each piece that strips to something is present, each item comes from a piece), every item non-empty, comma-free and without surrounding whitespace |
| `Config.SplitOriginsOrder` | server/app/config.py:20 | the origins before a comma come first, in order, then those after it |
| `Config.StripAllSpace` | server/app/config.py:20 | a whitespace-only piece strips to the empty string |
| `Config.OnlySeparators` | server/app/config.py:20 | a string of commas and whitespace only yields no origins |
| `Config.SomeOrigin` | server/app/config.py:20 | conversely, a string with a character that is neither comma nor whitespace yields at least one origin |
| `Config.SplitCovers` | server/app/config.py:20 | every non-comma character of the input lies in some piece of the split |

## Left out

- Rendering and styling: all JSX, the history markup, the settings page, theme, navigation, the orders list, the auth page, and the display share in `DaySummary`. These are presentation only.
- Formatting (`src/lib/format.ts`): it uses locale libraries and rounds for display.
- IndexedDB persistence (`src/lib/db.ts`): `saveDay`, `deleteDay`, `listDays` and the key strip in `loadSettings` are foreign asynchronous storage.
  - `SaveDay` returns the record to be stored.
  - `HistoryView.Delete` models only the page state.
  - `SettingsProvider` logs the saved values in `persisted`.
- The HTTP client (`src/lib/api.ts`) and the server wiring (database, dependencies, main, models' ORM, `_serialize` JSON parsing). These are library plumbing.
  - The `days` table keeps `(id, user_id, date, created_at)` and leaves out the JSON payload.
  - The auto-increment id is a `nextId` field.
- Authentication, bcrypt and JWT (`server/app/auth.py` and the auth and users routes): these are foreign cryptographic calls.
- Pydantic validation (`schemas.py`) and the Vite/PWA configuration: library behaviour.
- Randomness and clocks: `nanoid`, `crypto.randomUUID`, `Math.random`, `Date.now`, `dayjs()` and `time.time()` are parameters.
- React mechanics (promises, `useEffect`, `.finally`, memo caching, `ready` ordering): each handler is one atomic transition.
- Floating point: amounts are exact reals.
  - There is no NaN. So `order.amount || 0` is the amount itself, and a required amount is never missing.
  - Only the optional tip can be missing.
  - Spread entries present with the value `undefined` are treated as absent.
- String-to-number parsing: the form inputs are `InputNumber` values (a number, NaN, or the empty input). `Number("text")` on other strings is not modelled.
- Concurrency on the server: two simultaneous `create_day` calls could both pass the duplicate check. Each request is modelled as atomic.
- `DaysTable.SortNewestFirst`: SQL leaves the order of rows with equal `created_at` unspecified. The model fixes one order (insertion sort) and proves only what every valid order satisfies.
