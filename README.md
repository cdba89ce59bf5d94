# Gold trading plan: navigation and completion model

A Dafny model of the state and derived values of the single planner component,
`UpgradedGoldTradingPlan` (`src/App.js`). The component shows a four-week
curriculum. A user picks a phase (a week), opens one of its days, chooses one of
three content tabs, shows or hides three auxiliary panels (revenue, bot race,
security) and marks days as done. Three values are recomputed on every render:
the record of the open day, the completion percentage and the revenue total of
each horizon.

Modules:

- `Wrappers`: the `Option` type. It stands for `null` and `undefined`.
- `Content`: the immutable dataset's records (`Day`, `Phase`, `RevenueStream`),
  the tab and horizon keys, and the `find` lookup of a day by identifier.
  It also holds the identifier set of a day list and the flattening of all
  phases.
- `Metrics`: the two `reduce` folds (`TotalDays`, `TotalRevenue`) and the
  rounded percentage (`Progress`), with their lemmas.
- `Completion`: the copy-and-flip update of the set of done days (`Toggle`).
  Done days form a Dafny `set`, so an identifier is never held twice.
- `Plan`: class `TradingPlan`. Its fields are the component's state variables
  and its methods are the click handlers. `Valid()` is the invariant every
  handler keeps: the shown phase exists, the open day belongs to the shown
  phase, and only curriculum days are marked done.
- `Shipped`: the shipped dataset reduced to what the logic reads. It has phases
  of 7, 7, 7 and 9 days numbered 1 to 30, and the five revenue streams. It also
  holds the concrete scenarios.

Each click handler is one atomic transition of `TradingPlan`. The source never
validates a phase index or a day identifier. The model therefore does not
invent `InvalidIndex`-style errors. Instead, the handlers' preconditions say
what their only callers pass:

- a phase index of `data.phases`;
- a day of the shown phase;
- the open day's own identifier, for the mark-done button;
- an open day, for the tab buttons, which are shown only inside the open
  day's panel.

The tab and the horizon are enumerations. So a tab or a horizon outside the
three fixed keys cannot be expressed, and `ParseTab`/`ParseHorizon` show which
three strings the keys are.

`Math.round(done / total * 100)` is modelled on exact rationals as the nearest
whole percentage with halves rounded up. For the shipped total of 30 days the
exact quotient never lies near a half, so this agrees with the floating-point
result. With zero days JavaScript produces `NaN` or `Infinity`; the model
returns `None` there.

## Model

| member | source | states |
|---|---|---|
| `Content.FindDay` | src/App.js:751-755 | the lookup finds a day exactly when some day of the list has the identifier, and then returns the first such day |
| `Content.FindDayDistinct` | src/App.js:751-755 | when identifiers are distinct, looking up any day's identifier returns that very day |
| `Content.IdSet` | src/App.js:1510-1516 | the identifiers offered by a day list are exactly its days' identifiers, and there are at most as many as days |
| `Content.IdSetDistinct` | src/App.js:14-653 | with distinct identifiers a day list has exactly as many identifiers as days |
| `Content.AllDays` | src/App.js:14-653 | a day is in the flattened curriculum exactly when it is in some phase's day list |
| `Content.AllDayIds` | src/App.js:1613 | an identifier belongs to the curriculum exactly when some day of some phase carries it |
| `Content.ParseTab` | src/App.js:1643-1658 | only the three tab keys read as a tab, each as the tab whose key it is |
| `Content.ParseTabKey` | src/App.js:1643-1658 | each tab's key reads back as that tab, so the three keys are distinct |
| `Content.ParseHorizon` | src/App.js:1064 | only `month1`, `month3` and `month6` read as a horizon, each as the horizon whose key it is |
| `Content.ParseHorizonKey` | src/App.js:1064 | each horizon's key reads back as that horizon |
| `Content.Sample` | src/App.js:769 | a stream's sample at a horizon is the field named by that horizon's key |
| `Metrics.TotalDays` | src/App.js:757 | the folded day count equals the number of days in the flattened curriculum |
| `Metrics.DayIdsBound` | src/App.js:757-758 | there are never more distinct day identifiers than days, and exactly as many when identifiers are distinct |
| `Metrics.TotalRevenueConcat` | src/App.js:768-769 | the revenue total of two stream lists laid end to end is the sum of their totals |
| `Metrics.TotalRevenueAppend` | src/App.js:768-769 | appending a stream adds exactly its sample at that horizon, so the total never decreases |
| `Metrics.TotalRevenue` | src/App.js:768-769 | each stream's sample at the horizon is at most the total |
| `Metrics.TotalRevenueSum` | src/App.js:768-769 | the folded total equals the head-first sum of every stream's sample at the horizon, so each stream is counted exactly once |
| `Metrics.Progress` | src/App.js:758 | the result is the nearest whole percentage of done over total with halves up, and there is none when there are no days |
| `Metrics.ProgressRange` | src/App.js:758 | with at most as many done days as days the percentage is at most 100, 0 with none done and 100 with all done |
| `Completion.Toggle` | src/App.js:760-766 | the flipped day changes membership, every other day keeps it, and the size changes by exactly one |
| `Completion.ToggleTwice` | src/App.js:760-766 | toggling the same day twice restores the set |
| `Completion.ToggleWithin` | src/App.js:1613 | toggling a curriculum day keeps the done set inside the curriculum's identifiers |
| `Plan.DayClick` | src/App.js:1512-1516 | clicking a day closes it exactly when it was the open day, and otherwise opens that day |
| `Plan.DayClickTwice` | src/App.js:1516 | clicking the same day twice from a closed state leaves no day open |
| `Plan.TradingPlan.constructor` | src/App.js:743-749 | the first phase is shown, no day is open, the learning tab is chosen, nothing is done and all panels are hidden |
| `Plan.TradingPlan.CurrentDay` | src/App.js:751-755 | in a valid state the open day's record exists exactly when a day is open, belongs to the shown phase and carries the open identifier, and it is the only such day when identifiers are distinct |
| `Plan.TradingPlan.Progress` | src/App.js:757-758 | the percentage is that of done days over all days, and never exceeds 100 |
| `Plan.TradingPlan.SelectPhase` | src/App.js:942-945 | the chosen phase is shown and no day is open, so no day record is shown; tab, panels and done days are unchanged |
| `Plan.TradingPlan.ClickDay` | src/App.js:1510-1516 | the open day becomes the click's result, the open day stays in the shown phase, and nothing else changes |
| `Plan.TradingPlan.SelectTab` | src/App.js:1643-1658 | while a day is open, the chosen tab is shown and nothing else changes |
| `Plan.TradingPlan.ToggleRevenue` | src/App.js:971 | the revenue panel flips and the other two panels and all selection state are unchanged |
| `Plan.TradingPlan.ToggleBotChart` | src/App.js:990 | the bot race panel flips and the other two panels and all selection state are unchanged |
| `Plan.TradingPlan.ToggleSecurity` | src/App.js:1009 | the security panel flips and the other two panels and all selection state are unchanged |
| `Plan.TradingPlan.ToggleComplete` | src/App.js:760-766 | the done set becomes the toggle of the open day and nothing else changes; since the only identifier the mark-done button can pass is the open day's, which belongs to the shown phase, the done set stays within the curriculum's identifiers |
| `Shipped.Phases` | src/App.js:14-653 | the shipped curriculum has four phases of 7, 7, 7 and 9 days, numbered 1 to 30 in order |
| `Shipped.Streams` | src/App.js:693-729 | the shipped revenue data has five streams, each projected no lower at a later horizon |
| `Shipped.ShippedAllDays` | src/App.js:14-653 | the shipped curriculum, phase after phase, is the run of days 1 to 30 |
| `Shipped.ShippedTotalDays` | src/App.js:757 | the shipped day count is 30 |
| `Shipped.ShippedDayIds` | src/App.js:14-653 | the shipped day identifiers are distinct and are exactly 1 to 30 |
| `Shipped.ShippedRevenue` | src/App.js:693-729 | the shipped revenue totals are 440, 2137 and 5110 at one, three and six months |
| `Shipped.FirstThreeDone` | src/App.js:760-766 | marking days 1, 2 and 3 from nothing done yields exactly those three days |
| `Shipped.ThreeOfThirty` | src/App.js:757-758 | three done days of the shipped thirty read as 10 percent |
| `Shipped.CrossPhaseScenario` | src/App.js:939-945 | opening day 5 in the first phase and then switching to the second shows no day |
| `Shipped.ProgressScenario` | src/App.js:757-766 | opening and marking days 1, 2 and 3 of the shipped curriculum gives a progress of 10 percent |

## Left out

- Rendering, inline styles and icons (`src/App.js:771-2150`) are not modelled. They only read the state.
- Showing the chosen tab's bucket of the open day (`currentDay[activeTab]`) is not modelled. It is rendering, and the buckets are opaque text.
- The recharts line chart and the bot competition table (`src/App.js:655-691`, `1221-1275`) are not modelled. The data is handed to a foreign charting library unchanged.
- The security rule strings and all curriculum text are not modelled. They are opaque. The shipped days carry their identifiers with empty titles and buckets.
- The revenue stream colours and the phase colours and icons are not modelled. They are presentation only.
- `Metrics.Progress`: it rounds the exact rational `100 * done / total` rather than the IEEE-754 product. For the shipped total of 30 the two agree. They can differ for other totals: for 23 done of 40, JavaScript computes `(23/40)*100` as `57.49999999999999` and rounds it to 57, while the model gives 58.
- The progress ring's dash length (`progress * 2.135`) and the `toLocaleString` formatting are not modelled. They are floating-point display arithmetic.
- The prose figures in the copy ("~$440 → $3,110", "$1,347/mo") are not modelled. They are static text and do not match the computed six-month and three-month totals (5110 and 2137).
- `RevenueStream` and `Metrics.TotalRevenueAppend`: samples are modelled as non-negative integers (`nat`), as every shipped sample is. JavaScript would accept any Number, and the "never decreases" half of `TotalRevenueAppend` holds only because of that type.
- React's hook scheduling and re-rendering are not modelled. Each handler is treated as one atomic transition, and derived values are functions of the state.
- Plan.TradingPlan.ClickDay: its precondition asks for a day of the shown phase, as the day buttons are generated only from that list. The handler itself would open any identifier, and the lookup would then find no record.
- Plan.TradingPlan.ToggleComplete: its precondition asks for the open day, as the only caller passes `currentDay.day`. The underlying `toggleComplete` accepts any identifier; `Completion.Toggle` models it for every identifier.
- Plan.TradingPlan.SelectPhase: its precondition asks for an index of `data.phases`, as only the phase pills call it. An out-of-range index would make the next render fail and is not modelled.
- Plan.TradingPlan.SelectTab: its precondition asks for an open day, as the tab buttons are rendered only inside the open day's panel (`src/App.js:1566`). The setter itself would record a tab with no day open.
