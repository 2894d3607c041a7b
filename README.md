# Calorie tracker accounting, in Dafny

A model of the accounting core of a small calorie-tracker web app, which comes
in two variants: `app.js` and the trimmed-down `ja/app.js`. Both variants:

- compute a daily calorie target from the user's profile: the Mifflin–St Jeor
  estimate, scaled by 0.85 for "lose" and 1.15 for "gain";
- keep a history that maps each date to that day's list of logged foods;
- sum the day's kcal, protein, fat and carbohydrate, and show what is left of
  the target, clamped at 0.

`app.js` also does the following:

- It looks foods up in a local table. It tries a case-insensitive exact name
  first, then the first name that contains the query.
- It scales per-100 g values to a portion.
- It answers "how many grams of this fit in my remaining budget".

`ja/app.js` looks foods up through an external product search. It normalises
each hit and drops the hits without an energy value.

The modules:

- `JsValues` covers the JavaScript value semantics the code relies on:
  - a form number after unary `+`, which may be NaN;
  - truthiness and `||` fallback;
  - `Math.round`, `Math.floor` and `Math.max(0, …)`.
- `JsStrings` covers `trim`, `toLowerCase` and `includes`.
- `JsArrays` covers `findIndex`/`find`, `indexOf` and `splice(i, 1)`.
- `DailyLog` holds the field-wise totals and their laws, and the "create
  today's list if missing" update of the history.
- `Profiles` holds the profile, its default and the profile form's submit
  rule, which both variants share.
- `App` models `app.js`. `AppJa` models `ja/app.js`.

The global `state` object each variant updates in place is a `State` class.
Its history is one `map` from date to list.

In `app.js`, `state.todayLog` is not a separate list: `ensureToday` makes it the
very list stored under today's date. The class therefore keeps only the date
that `todayLog` refers to (`todayKey`), with the invariant that this date is in
the history. A push onto `todayLog` is an update of the history at that date.

JavaScript numbers are modelled as exact reals: `Math.round(x)` is
`⌊x + 0.5⌋` and `Math.floor` is `⌊·⌋`. The current date, the clock used for
entry timestamps, and the search response in `ja/app.js` are parameters.

For the default profile (male, 25 years, 175 cm, 70 kg), the formula in the
code gives these figures, which the model proves:

| figure | value |
|---|---|
| BMR | 10·70 + 6.25·175 − 5·25 + 5 = 1673.75 |
| target, maintain | 1674 |
| target, lose | 1423 (from 1422.6875) |
| target, gain | 1925 (from 1924.8125) |

## Model

| member | source | states |
|---|---|---|
| JsValues.Floor | app.js:156 | `Math.floor`: the integer r with r ≤ x < r + 1 |
| JsValues.Round | app.js:22 | `Math.round`: the integer within half a unit of x, halves rounding up |
| JsValues.ClampInt | app.js:196 | `Math.max(0, x)` on integers: at least 0 and at least x, and equal to one of them |
| JsValues.ClampReal | app.js:208 | `Math.max(0, x)` on numbers: at least 0 and at least x, and equal to one of them |
| JsStrings.TrimStart | app.js:59 | drops a leading run made only of JS whitespace and line terminators, leaving a suffix that does not start with one |
| JsStrings.TrimEnd | app.js:59 | drops a trailing run made only of whitespace, leaving a prefix that does not end with one |
| JsStrings.Trim | app.js:59 | `trim`: the result occurs in the input at a position before which, and after whose end, there is only whitespace, and it neither starts nor ends with whitespace; so exactly the leading and trailing whitespace is cut and nothing else |
| JsStrings.TrimUnchanged | app.js:59 | a string with no whitespace at either end trims to itself |
| JsStrings.TrimEmpty | app.js:135 | a string trims to empty exactly when every character is whitespace |
| JsStrings.TrimIdempotent | app.js:135-137 | trimming twice equals trimming once |
| JsStrings.LowerChar | app.js:59-60 | lower-casing a character leaves no upper-case letter and leaves every other character alone |
| JsStrings.Lower | app.js:59-60 | `toLowerCase`: same length, no capital letter left, and a string without capital letters comes back unchanged |
| JsStrings.LowerIdempotent | app.js:59-60 | lower-casing twice equals lower-casing once |
| JsStrings.IncludesSelfAndEmpty | app.js:60 | every string includes itself and the empty string |
| JsArrays.FindIndex | app.js:60 | `find`/`findIndex`: -1 exactly when no element passes; otherwise the first position that passes |
| JsArrays.IndexOf | app.js:223 | `indexOf`: -1 exactly when absent; otherwise a position holding the value with no earlier occurrence |
| JsArrays.RemoveAt | app.js:224 | `splice(i, 1)`: one shorter; elements before i stay put and those after shift down by one |
| JsArrays.RemoveFirst | app.js:223-224 | an absent value leaves the list unchanged; otherwise one fewer occurrence (multiset difference), removed at the first occurrence |
| DailyLog.SumBy | app.js:184-191 | the `reduce` over a day's list starts at all zeros, so an empty list sums to zero |
| DailyLog.SumByAppend | app.js:184-191 | appending an element adds exactly its values to the totals |
| DailyLog.SumByConcat | app.js:184-191 | the totals of two lists laid end to end are the sum of their totals |
| DailyLog.SumByRemoveAt | app.js:224 | removing the element at one position subtracts exactly its values |
| DailyLog.SumByPermutation | app.js:184-191 | lists with the same elements (as a multiset) have the same totals |
| DailyLog.SumByRemoveFirst | app.js:223-224 | removing the first occurrence of a present element subtracts exactly its values |
| DailyLog.SumByNonNegative | app.js:184-191 | elements with non-negative values give non-negative totals |
| DailyLog.EnsureDay | app.js:34 | `ensureToday` on the history: the day is present afterwards and no other key is added; an existing list is never replaced; a missing day gets an empty list |
| DailyLog.EnsureDayIdempotent | app.js:34 | ensuring the same day twice equals ensuring it once |
| Profiles.Submit | app.js:117-122 | age, height and weight take the input when it is truthy (non-zero, not NaN, negatives accepted) and otherwise keep the old value; gender, goal and location are copied as given |
| App.ExactIsContaining | app.js:60 | an exact (lower-cased) name match is also a substring match |
| App.FindByKey | app.js:58-61 | not found exactly when no lower-cased name contains the key; the first exact match in table order wins; failing any exact match, the first containing match wins |
| App.FindFood | app.js:58-61 | `findFood` on the trimmed, lower-cased query: not found exactly when no lower-cased name contains it; the first exact match in table order wins; failing any exact match, the first containing match wins |
| App.EmptyQueryFindsFirst | app.js:58-60 | a query that trims to nothing finds the first food (when no name is empty) |
| App.FindFoodTrimmed | app.js:135-137 | trimming the query before `findFood`, as the handlers do, does not change the result |
| App.FindBreastInFallbackTable | app.js:44-60 | in the built-in table, "грудка" has no exact match and finds "Куриная грудка, варёная" by substring |
| App.KcalFor | app.js:62 | at 100 g the kcal are exactly `kcal100`; with non-negative inputs the result is non-negative |
| App.PfcFor | app.js:63-67 | at 100 g protein, fat and carbohydrate are exactly the per-100 values; with non-negative inputs they are non-negative |
| App.ScalingAdditive | app.js:62-67 | scaling to g1 + g2 grams equals the sum of scaling to g1 and to g2, for kcal and each macro |
| App.ChickenBreastPortion | app.js:62-67 | 150 g of the table's chicken breast is 247.5 kcal, 46.5 g protein, 5.4 g fat, 0 g carbohydrate |
| App.CalcBMR | app.js:70-73 | the Mifflin–St Jeor equation with −161, plus 166 exactly when the gender is "male" (so +5); every other gender value takes −161 |
| App.BmrSlopes | app.js:70-73 | each kilogram adds 10 kcal, each centimetre 6.25 kcal and each year takes 5 kcal off, for either gender; goal and location do not enter |
| App.BmrGenderGap | app.js:70-73 | for equal age, height and weight, "male" exceeds any other gender value by exactly 166 |
| App.ApplyGoal | app.js:74-78 | "lose" takes 15 % off, "gain" adds 15 %, and any other goal leaves the BMR unchanged |
| App.GoalOrdering | app.js:74-78 | for a positive BMR, lose < maintain < gain |
| App.DefaultProfileTargets | app.js:70-78 | the default profile has BMR 1673.75 and rounded targets 1674 (maintain), 1423 (lose) and 1925 (gain) |
| App.SumToday | app.js:184-191 | an empty log totals all zeros |
| App.SumTodayAppend | app.js:184-191 | appending an entry adds exactly its kcal, p, f and c |
| App.SumTodayOrderFree | app.js:184-191 | the totals do not depend on the order of the entries |
| App.GetLeftKcal | app.js:192-197 | never negative; the integer within half a unit of target − eaten whenever that difference is at least −0.5; 0 whenever it is below 0.5 |
| App.DashboardLeft | app.js:199-208 | the dashboard remainder `max(0, round(target) − eaten)`: never negative, at least the difference, and equal to 0 or to the difference |
| App.FitBudget | app.js:152-155 | a positive override wins; otherwise the computed remainder clamped at 0; never negative |
| App.FitPortion | app.js:156 | no budget gives 0 g; for positive budget and kcal100 the grams g fit the budget and g + 1 grams do not; a zero kcal100 gives an unbounded amount (JS `Infinity`); a negative one gives negative grams |
| App.PortionBracket | app.js:156 | g = ⌊left / kcal100 · 100⌋ satisfies g·kcal100/100 ≤ left < (g + 1)·kcal100/100 for positive kcal100 |
| App.ChickenBreastFit | app.js:156 | 500 kcal of chicken breast (165 kcal/100 g) is 303 g; a zero budget is 0 g |
| App.FitFor | app.js:155-156 | for a positive kcal100 the grams are a non-negative whole number within the chosen budget, and with a positive budget one gram more would exceed it (the largest portion that fits); with no positive override and nothing left the portion is 0 g; a positive override with a zero kcal100 is unbounded |
| App.FitFood | app.js:149-158 | the fit form: not found exactly when `findFood` fails; otherwise the found food, and for a positive kcal100 the largest whole number of grams within the chosen budget; with no override and nothing left 0 g; with a positive override and a zero kcal100 an unbounded amount |
| App.NewEntry | app.js:140-142 | the pushed entry carries the table's name (not the query), the grams, the timestamp, and exactly the `kcalFor`/`pfcFor` values |
| App.State.constructor | app.js:86-88 | start-up: loaded profile and history, food table, then today's list ensured and made `todayLog` |
| App.State.EnsureToday | app.js:34 | creates today's list only if missing, and makes `todayLog` that list |
| App.State.UpdateProfile | app.js:115-122 | the profile becomes the submit rule's result; history and `todayLog` are untouched |
| App.State.ResetDay | app.js:128-131 | today's list becomes empty and is `todayLog`; every other date keeps its list |
| App.State.ClearLog | app.js:160-164 | a confirmed clear is the reset; an unconfirmed one changes nothing |
| App.QuickCheck | app.js:135-141 | the quick-add checks in order: an unknown food, checked first, is "not found"; then missing, zero, NaN or negative grams ask for grams; otherwise the entry from the found food |
| App.State.QuickAdd | app.js:133-147 | the outcome is that of the checks; when a check fails the history is unchanged; otherwise exactly one entry is appended to `todayLog` in the history, and the day's totals grow by its values |
| App.State.PushToday | app.js:142 | the push onto `todayLog` appends to the list stored in the history under its date, and adds the entry's values to the totals |
| App.State.DeleteEntry | app.js:222-226 | removes the first occurrence of the entry from `todayLog` (keeping the others in order), changes nothing when it is absent, and lowers the totals by its values when present |
| AppJa.ToFood | ja/app.js:48-53 | a missing or empty name becomes "Продукт"; the energy value is kept as present or missing; missing protein, fat or carbohydrate become 0 and present ones are kept |
| AppJa.KeepWithEnergy | ja/app.js:54 | `filter(x => x.kcal100)`: no longer than the input; every survivor has a present, non-zero energy value; a food survives exactly when it is in the input with such a value |
| AppJa.KeepWithEnergyConcat | ja/app.js:54 | the filter keeps input order: filtering a concatenation concatenates the filtered parts |
| AppJa.ToFoodsConcat | ja/app.js:48-53 | the `map` step keeps the response's order: mapping two responses laid end to end maps each in turn |
| AppJa.NormalizeProducts | ja/app.js:48-54 | at most as many foods as products, each with a present non-zero energy value, each the normalisation of some product |
| AppJa.NormalizeConcat | ja/app.js:48-54 | output order follows input order |
| AppJa.NormalizeKeepsEnergetic | ja/app.js:48-54 | a product with a present non-zero energy value is kept, as its normalisation |
| AppJa.Bmr | ja/app.js:36 | the same Mifflin–St Jeor branches as `calcBMR` in `app.js` |
| AppJa.TargetKcal | ja/app.js:37 | the integer rounding of the goal-scaled BMR, the same as the rounded `applyGoal` target of `app.js` |
| AppJa.DefaultTarget | ja/app.js:36-37 | the default profile has BMR 1673.75 and target 1674 |
| AppJa.SumToday | ja/app.js:30-33 | all zeros when today has no list or an empty list |
| AppJa.SumTodayAppend | ja/app.js:30-33 | appending an item to today's list adds exactly its k, p, f and c |
| AppJa.SumTodayOrderFree | ja/app.js:30-33 | the totals do not depend on the order of today's items |
| AppJa.DisplayLeft | ja/app.js:63 | `max(0, t − round(k))`: never negative, at least the difference, equal to 0 or the difference, and at most t when t and the kcal eaten are not negative |
| AppJa.ItemFor | ja/app.js:121-124 | the item carries the food's name and the grams; its k, p, f, c equal the `kcalFor`/`pfcFor` scaling of `app.js`; at 100 g they are the per-100 values |
| AppJa.State.constructor | ja/app.js:132-134 | start-up: loaded profile and history, then today's list ensured |
| AppJa.State.EnsureToday | ja/app.js:29 | creates today's list only if missing |
| AppJa.State.UpdateProfile | ja/app.js:97-104 | the profile becomes the submit rule's result; the history is untouched |
| AppJa.State.ResetDay | ja/app.js:109-112 | today's list becomes empty, every other date keeps its list, and today's totals are zero |
| AppJa.State.AddFood | ja/app.js:114-128 | an empty trimmed name or grams that are 0 or NaN change nothing; a response without a usable product changes nothing; otherwise exactly one item from the first usable product is appended to today's list (created if missing), negative grams included, and the totals grow by its values |
| AppJa.State.PushItem | ja/app.js:123-124 | `ensureToday` then push: the item goes to the end of today's list, and the totals grow by its values |
| AppJa.State.DeleteItem | ja/app.js:77-78 | removes the first occurrence of the item from today's list, keeping the others in order; a missing item or day changes nothing; the totals fall by its values when it was present |

## Left out

- Storage: `save`/`load` with `localStorage` and `JSON.parse` (`app.js:24-33`, `ja/app.js:23-28`) are I/O. This includes the `Object.assign` merge of a stored profile over the default; the constructors take the loaded profile and history as given.
- Network: loading `data/foods.json` and the product search request (`app.js:37-57`, `ja/app.js:40-47`) are network I/O. The food table and the search response are parameters. `window.__INLINE_FOODS__` is a host global; only the built-in table is modelled.
- AppJa.State.AddFood: a failed request or unreadable response rejects the handler, which then changes nothing. The model takes a response that has already been read.
- Host and clock: the Telegram identity (`getTGUser`, `getTG`), `todayISO`, `Date.now` and the seven-day window of `buildStats` are host and clock dependencies. Dates and timestamps are parameters.
- UI: DOM rendering, tab switching, `alert`/`confirm`, message texts and HTML templating are left out. This covers `updateDashboard`, `updateTop`, `buildLog`, `buildStats`, `buildWorkouts`, `hydrateProfileForm`, `bindTabs` and `buildFoodDatalist`. The confirm dialog of the clear button is a boolean parameter.
- The static `WORKOUTS` table and its lookup in `app.js` are constant data shown in the UI.
- Numbers: JS numbers are exact reals here, so IEEE-754 rounding is not modelled. Form numbers can be a real or NaN; `Infinity` inputs are not modelled. The profile's numeric fields and the food table's values are taken to be numbers, and a select's value is taken to be a string.
- JsStrings.LowerChar: maps only Latin A–Z and the Cyrillic capitals U+0400–U+042F. The rest of Unicode case mapping, including special cases, is not modelled.
- App.State.DeleteEntry: `indexOf` compares object identity, while the model compares entries by value. When two entries are equal in every field, the model removes the first of them, whereas the source removes the one clicked. The totals come out the same either way.
- AppJa.State.DeleteItem: compares items by value rather than by identity, for the same reason.
- AppJa.State.DeleteItem: the row's button holds the list that was today's when the log was drawn. The model deletes from today's list in the history, which is the same list whenever the log was redrawn after the last reset, as every handler does.
