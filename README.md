# FocusApp core, modelled in Dafny

FocusApp is a React Native focus timer. A countdown is tagged with a
category. Leaving the app while the countdown runs pauses it and counts a
distraction. A finished countdown is saved as a session in the device's
key-value storage, and a reports screen sums the saved sessions.

This project models the logic under the user interface:

- `jstext.dfy`, module `JsText`: the JavaScript primitives the screens use.
  These are `trim()`; the regular expression `/active/`, which is a plain
  substring test; decimal rendering of integers in template literals; and
  the truncating `%`.
- `storage.dfy`, module `Storage`: `storage.ts`. The store is a class whose
  one field maps keys to stored values. JSON is the identity, so the value
  under `@focus_sessions` is the session list and the value under
  `@focus_categories` is the category list. Methods say how each call
  changes the map, including when the storage call fails.
- `home.dfy`, module `Home`: `HomeScreen.tsx`. The state variables are the
  fields of class `HomeScreen`. Its invariant is a target that is a
  positive multiple of 60 and a timer between 0 and the target. Each event
  handler is a method, and the body of the one-second interval callback is
  `Tick`. `TickUntilDone` runs the interval until it saves the session. The
  three scenarios are clients that build a fresh store and screen and run
  them.
- `reports.dfy`, module `Reports`: `ReportsScreen.tsx`. The totals,
  today's total, the seven bar totals and the pie values are functions of
  the session log. `CategoryStats` is the `forEach` loop that fills the
  per-category dictionary.

The wall clock, `Date.now()` ids and storage failures are inputs. A
session's date is an abstract day number, and "today" is a parameter. A
storage failure is a `readOk`/`writeOk` flag.

The model follows the code where it differs from the usual description of
a pomodoro timer:

- `handleReset` saves no session. It only builds the summary, and only when
  time has elapsed.
- On completion the timer stays at 0 and the distraction count stays as it
  was. The tick at 0 is the one that saves, so a 1500-second target is
  saved on the 1501st tick. Starting again without a reset saves another
  full-length session on the next tick.
- The "was active" test `appState.current.match(/active/)` also accepts
  `"inactive"`.
- A failed read inside `saveSession` is turned into `[]` by `getSessions`.
  The write that follows then replaces the whole log with the one new
  record.

## Model

| member | source | states |
|---|---|---|
| `Home.HomeScreen.constructor` | FocusApp/src/screens/HomeScreen.tsx:7-17 | initial state: 25-minute target and timer, stopped, no categories, empty selection, no distractions, current app state remembered |
| `Home.HomeScreen.LoadCategories` | FocusApp/src/screens/HomeScreen.tsx:20-27 | categories become the loaded list (the defaults on a failed read); the first entry is selected when there is one; the timer state is untouched |
| `Home.HomeScreen.Tick` | FocusApp/src/screens/HomeScreen.tsx:32-56 | above 0 the timer drops by exactly 1 and nothing else changes, the store included; at 0 it stops, keeps timer 0 and the distraction count, saves exactly one session (full target, selected category, current count) and returns the completion summary |
| `Home.TickUntilDone` | FocusApp/src/screens/HomeScreen.tsx:30-68 | an undisturbed run takes timer+1 ticks and ends stopped at 0 with exactly one new session of the full target appended to the log |
| `Home.HomeScreen.Start` | FocusApp/src/screens/HomeScreen.tsx:151 | the timer runs; nothing else changes |
| `Home.HomeScreen.Pause` | FocusApp/src/screens/HomeScreen.tsx:152 | the timer stops; nothing else changes |
| `Home.HomeScreen.Reset` | FocusApp/src/screens/HomeScreen.tsx:153-161 | always stopped, timer == target, count 0; a summary with elapsed = target - timer (> 0) only when timer < target; the store is not in its frame, so no session is saved |
| `Home.HomeScreen.Increment` | FocusApp/src/screens/HomeScreen.tsx:163-171 | stopped: target + 60 and timer == new target; running: state unchanged |
| `Home.HomeScreen.Decrement` | FocusApp/src/screens/HomeScreen.tsx:173-182 | stopped with target > 60: target - 60 and timer == new target; otherwise unchanged; target >= 60 is kept |
| `Home.HomeScreen.OnAppStateChange` | FocusApp/src/screens/HomeScreen.tsx:71-85 | pauses and adds exactly 1 to the count exactly when the previous state matches /active/, the next is background or inactive and the timer runs; otherwise running flag and count unchanged; the previous state always becomes the new one |
| `Home.ActivePatternMatches` | FocusApp/src/screens/HomeScreen.tsx:74 | of the React Native states, exactly "active" and "inactive" match /active/ |
| `Home.MissingCharNotContained` | FocusApp/src/screens/HomeScreen.tsx:74 | a state lacking a letter of "active" does not match |
| `Home.HomeScreen.SelectCategory` | FocusApp/src/screens/HomeScreen.tsx:213 | a tap selects the category only while stopped |
| `Home.HomeScreen.AddCategory` | FocusApp/src/screens/HomeScreen.tsx:92-109 | the error is exactly: EmptyName for a blank trimmed name, else AlreadyExists for a listed one, else none; on an error list, selection and store are unchanged; otherwise list == old + [trim(name)], selection == trim(name), the new list is saved; a duplicate-free list stays duplicate-free |
| `Home.HomeScreen.RemoveCategory` | FocusApp/src/screens/HomeScreen.tsx:111-137 | one or no category left: error, nothing changes; otherwise the list loses every entry equal to the name, in order, and is saved; a removed selection moves to the new first entry; a duplicate-free list stays duplicate-free and non-empty |
| `Home.RemoveAll` | FocusApp/src/screens/HomeScreen.tsx:126 | exactly the entries different from the name survive, none is added |
| `Home.RemoveAllAppend` | FocusApp/src/screens/HomeScreen.tsx:126 | the filter distributes over concatenation, so the survivors keep their order |
| `Home.RemoveAllOfDistinct` | FocusApp/src/screens/HomeScreen.tsx:126 | on a duplicate-free list exactly one entry goes when the name is listed, none otherwise, and the result is duplicate-free |
| `Home.FormatTimeReadsBack` | FocusApp/src/screens/HomeScreen.tsx:184-188 | "mm:ss": two digits after the last colon reading s % 60, at least two digits before it reading s / 60; exactly "mm:ss" (five characters) below 100 minutes |
| `Home.FreshSessionScenario` | FocusApp/src/screens/HomeScreen.tsx:30-56 | on a fresh install a started timer saves one 1500-second session with the first default category and no distraction, on the 1501st tick |
| `Home.DistractedSessionScenario` | FocusApp/src/screens/HomeScreen.tsx:71-85 | backgrounding after k ticks pauses and counts one distraction; restarted, the session completes with count 1 after 1501 ticks in all |
| `Home.RestartAfterCompletionScenario` | FocusApp/src/screens/HomeScreen.tsx:34-52 | after completion, Start without Reset saves a second full-length session after one tick |
| `JsText.Trim` | FocusApp/src/screens/HomeScreen.tsx:93 | the result is an infix of the input with only whitespace removed around it and no whitespace at either end |
| `JsText.TrimStart` | FocusApp/src/screens/HomeScreen.tsx:93 | a suffix of the input, only whitespace dropped, not starting with whitespace |
| `JsText.TrimEnd` | FocusApp/src/screens/HomeScreen.tsx:93 | a prefix of the input, only whitespace dropped, not ending with whitespace |
| `JsText.TrimEmptyIffBlank` | FocusApp/src/screens/HomeScreen.tsx:93-96 | the trimmed name is empty exactly when the name is empty or whitespace only |
| `JsText.ContainsAt` | FocusApp/src/screens/HomeScreen.tsx:74 | a pattern occurring at some index is matched |
| `JsText.ContainsWitness` | FocusApp/src/screens/HomeScreen.tsx:74 | a matched pattern occurs at some index |
| `JsText.NatToString` | FocusApp/src/screens/HomeScreen.tsx:187 | decimal digits only, one digit exactly below 10, no leading zero |
| `JsText.ParseNatToString` | FocusApp/src/screens/HomeScreen.tsx:187 | reading the digits back gives the number |
| `JsText.IntToString` | FocusApp/src/screens/ReportsScreen.tsx:35-36 | non-negative numbers are digits with no leading zero that read back as the number; negative ones are a minus sign before the digits of the magnitude, again without a leading zero |
| `JsText.Pad2Reads` | FocusApp/src/screens/HomeScreen.tsx:187 | the padded form is at least two digits, exactly two below 100, and reads back as the number |
| `JsText.ParseLeadingZero` | FocusApp/src/screens/HomeScreen.tsx:187 | a padding zero does not change the value |
| `JsText.JsRem` | FocusApp/src/screens/HomeScreen.tsx:186 | the remainder is below the divisor in magnitude, equals Dafny's % on non-negative numbers, and takes the dividend's sign |
| `JsText.Digit` | FocusApp/src/screens/HomeScreen.tsx:187 | the character is a digit of the given value |
| `Storage.WithId` | FocusApp/src/utils/storage.ts:22-25 | the stamped record carries the new id and every other field of the input |
| `Storage.DefaultCategoriesShape` | FocusApp/src/utils/storage.ts:16 | four distinct default categories, in the listed order |
| `Storage.Store.constructor` | FocusApp/src/utils/storage.ts:12-16 | an empty store: reads give [] and the defaults |
| `Storage.Store.GetSessions` | FocusApp/src/utils/storage.ts:35-43 | the stored log; [] when nothing is stored or the read fails |
| `Storage.Store.SaveSession` | FocusApp/src/utils/storage.ts:19-32 | successful write: the log becomes the old log (or [] after a failed read) plus exactly one record with the input's fields and the id, which is returned; failed write: nothing changes and nothing is returned; the categories never change |
| `Storage.Store.ClearSessions` | FocusApp/src/utils/storage.ts:46-52 | the session key is removed, so reading gives []; the categories are kept |
| `Storage.Store.GetCategories` | FocusApp/src/utils/storage.ts:55-63 | the stored list; the four defaults when nothing is stored or the read fails |
| `Storage.Store.SaveCategories` | FocusApp/src/utils/storage.ts:66-72 | successful write: the whole list is replaced; the session log never changes |
| `Storage.SaveThenLoadCategories` | FocusApp/src/utils/storage.ts:55-72 | saving a list and reading it back returns the same list in the same order, and the log is as before |
| `Storage.ClearThenLoadSessions` | FocusApp/src/utils/storage.ts:38-52 | after clearing, reading the log returns [] and the categories are kept |
| `Storage.SaveThenLoadSession` | FocusApp/src/utils/storage.ts:19-43 | after saving, the log read back is the earlier records in order followed by the returned record, one longer |
| `Reports.TotalsAppend` | FocusApp/src/screens/ReportsScreen.tsx:40-41 | both totals are additive over concatenation of logs |
| `Reports.TotalDistractionsNonNegative` | FocusApp/src/screens/ReportsScreen.tsx:41 | with non-negative counts the distraction total is non-negative |
| `Reports.OnDay` | FocusApp/src/screens/ReportsScreen.tsx:44-45 | the filter keeps only sessions of that day, drawn from the log, and keeps every session of that day |
| `Reports.DayTotalIsMaskedSum` | FocusApp/src/screens/ReportsScreen.tsx:43-46 | today's total equals the sum over the whole log counting only sessions whose day is today |
| `Reports.TodayAtMostTotal` | FocusApp/src/screens/ReportsScreen.tsx:40-46 | with non-negative durations 0 <= todayDuration <= totalDuration |
| `Reports.Last7Days` | FocusApp/src/screens/ReportsScreen.tsx:49-53 | exactly 7 consecutive days, increasing, from today - 6 to today |
| `Reports.DayTotals` | FocusApp/src/screens/ReportsScreen.tsx:62-66 | one total per listed day, in order, each that day's total |
| `Reports.BarTotals` | FocusApp/src/screens/ReportsScreen.tsx:62-66 | seven bars, bar i the total of day today - 6 + i |
| `Reports.DayTotalSnoc` | FocusApp/src/screens/ReportsScreen.tsx:63-65 | a new session adds its duration to its own day's total only |
| `Reports.DayTotalsSnoc` | FocusApp/src/screens/ReportsScreen.tsx:62-66 | over distinct days, a new session adds its duration once if its day is listed, else nothing |
| `Reports.DayTotalsOfEmpty` | FocusApp/src/screens/ReportsScreen.tsx:62-66 | an empty log gives all-zero bars |
| `Reports.DayTotalsBounded` | FocusApp/src/screens/ReportsScreen.tsx:62-66 | with non-negative durations the totals of distinct days add up to between 0 and totalDuration |
| `Reports.WeekAtMostTotal` | FocusApp/src/screens/ReportsScreen.tsx:49-66 | the seven bars together hold between 0 and totalDuration |
| `Reports.CategoryStats` | FocusApp/src/screens/ReportsScreen.tsx:73-77 | keys are exactly the labels used by some session, in first-occurrence order, each value that label's duration sum, and the values add up to totalDuration |
| `Reports.CategoryStep` | FocusApp/src/screens/ReportsScreen.tsx:74-77 | one iteration keeps the dictionary equal to the category sums of the sessions seen |
| `Reports.LabelsSnoc` | FocusApp/src/screens/ReportsScreen.tsx:74-77 | a new session adds its own label to the labels seen |
| `Reports.CategorySumOfAbsentLabel` | FocusApp/src/screens/ReportsScreen.tsx:75 | a label no session carries sums to 0, so the reset to 0 loses nothing |
| `Reports.FirstLabels` | FocusApp/src/screens/ReportsScreen.tsx:79 | the dictionary's key order has no repeats and holds exactly the labels used |
| `Reports.StatsTotalIsCategorySums` | FocusApp/src/screens/ReportsScreen.tsx:73-77 | summing the dictionary over its keys is summing the category sums |
| `Reports.CategorySumsOfEmpty` | FocusApp/src/screens/ReportsScreen.tsx:73-77 | an empty log gives zero sums |
| `Reports.CategorySumsSnoc` | FocusApp/src/screens/ReportsScreen.tsx:74-77 | over distinct labels, a new session adds its duration once if its label is listed |
| `Reports.CategorySumsCoverTotal` | FocusApp/src/screens/ReportsScreen.tsx:73-77 | over distinct labels covering every used label, the category sums add up to totalDuration |
| `Reports.RoundMinutes` | FocusApp/src/screens/ReportsScreen.tsx:83 | the nearest whole minute, halves up: 60r - 30 <= x < 60r + 30 |
| `Reports.PieData` | FocusApp/src/screens/ReportsScreen.tsx:79-88 | one slice per key in key order, named by the key, its population the value rounded to the nearest minute |
| `Reports.DurationParts` | FocusApp/src/screens/ReportsScreen.tsx:33-34 | for s >= 0: minutes below 60, hours positive exactly from 3600 s on, and 3600h + 60m <= s < 3600h + 60m + 60 |
| `Reports.FormatDurationShape` | FocusApp/src/screens/ReportsScreen.tsx:32-37 | ends in "dk"; the hours part "s " appears exactly when s >= 3600; below an hour the text reads back as s / 60 minutes |
| `Home.FormatTime` | FocusApp/src/screens/HomeScreen.tsx:184-188 | `formatTime`; its contract is carried by `Home.FormatTimeReadsBack` |
| `Home.IsDistraction` | FocusApp/src/screens/HomeScreen.tsx:73-78 | the listener's condition; `Home.HomeScreen.OnAppStateChange` pauses and counts exactly when it holds, and `Home.ActivePatternMatches` says which previous states pass |
| `JsText.Contains` | FocusApp/src/screens/HomeScreen.tsx:74 | `match(/active/)`; `JsText.ContainsAt` and `JsText.ContainsWitness` prove it is the substring relation, both directions |
| `JsText.Pad2` | FocusApp/src/screens/HomeScreen.tsx:187 | the zero padding; `JsText.Pad2Reads` proves its length and value |
| `Reports.TotalDuration` | FocusApp/src/screens/ReportsScreen.tsx:40 | the duration fold; `Reports.TotalsAppend` makes it additive, and `Reports.CategoryStats` and `Reports.WeekAtMostTotal` relate the other statistics to it |
| `Reports.TotalDistractions` | FocusApp/src/screens/ReportsScreen.tsx:41 | the distraction fold; `Reports.TotalsAppend` and `Reports.TotalDistractionsNonNegative` carry its properties |
| `Reports.DayTotal` | FocusApp/src/screens/ReportsScreen.tsx:63-65 | filter-then-sum for one day; `Reports.DayTotalIsMaskedSum` pins it to an independent masked sum |
| `Reports.TodayDuration` | FocusApp/src/screens/ReportsScreen.tsx:44-46 | the day total of today; `Reports.TodayAtMostTotal` bounds it by the total |
| `Reports.CategorySum` | FocusApp/src/screens/ReportsScreen.tsx:75-76 | a label's duration sum; `Reports.CategoryStats` proves the loop's dictionary holds it, `Reports.CategorySumsCoverTotal` that these sums partition the total |
| `Reports.FormatDuration` | FocusApp/src/screens/ReportsScreen.tsx:32-37 | `formatDuration`; `Reports.DurationParts` and `Reports.FormatDurationShape` carry its contract |
| `Storage.Store.Sessions` | FocusApp/src/utils/storage.ts:38 | the log as a successful read returns it; `Storage.Store.GetSessions` and `Storage.SaveThenLoadSession` tie the methods to it |
| `Storage.Store.Categories` | FocusApp/src/utils/storage.ts:58 | the list as a successful read returns it, defaults when absent; `Storage.Store.GetCategories` and `Storage.SaveThenLoadCategories` tie the methods to it |

## Left out

- Rendering: JSX, styles, `Alert`, `Modal` and `TextInput`. The alert text of `showSessionSummary` is also left out. Its fields are the `Summary` value, and its time part uses the same expression as `FormatTime`.
- The cancel branch of the removal alert, and clearing the text field and closing the modal after an add. These are UI only.
- `setInterval`/`clearInterval` timing, React effect ordering and stale closures. Each tick is one sequential `Tick` call, allowed only while the timer runs, because that is when the interval is armed.
- The promise ordering of `saveSession(...).then(showSessionSummary)`. The save is a synchronous call, and the summary is returned whether the save succeeded or not, as in the source.
- AsyncStorage and JSON. The storage is a map, and serialisation is the identity. Malformed stored JSON is not modelled; a failing read stands for it.
- `console.error` diagnostics.
- `Date`, `toDateString`, time zones, ISO strings and `setDate`. A session carries an integer day number; the ISO timestamp is not modelled.
- `Date.now()` ids. The id is a parameter.
- The `/ 60` float conversion of the bar data, and the chart labels. The bars are integer seconds.
- Chart rendering and colour cycling.
- JavaScript object quirks of `categoryStats`. Inherited keys such as `"constructor"` are not modelled. Nor is the ordering rule that lists array-index-like keys first. Keys are in first-occurrence order.
- Number rendering beyond integers: exponent notation for very large values, and `NaN`/`undefined` arithmetic.
- FocusApp/src/navigation/AppNavigator.tsx is not part of this model; it holds navigation chrome only.
- `Home.HomeScreen.RemoveCategory`: when every entry equals the removed name, JavaScript selects `undefined`. That can only happen with duplicates. The model selects `""`.
- `Home.FormatTimeReadsBack`: stated for non-negative seconds only. The timer never goes below 0, and `FormatTime` itself follows JavaScript for negative input too.
- `Reports.FormatDurationShape`: reads the numbers back only below one hour. From one hour on it states only that the hours part is there; `DurationParts` carries the hours and minutes values.
