# Intake and goal ledger of the mcro nutrition tracker

The app's main view (`ContentView`) keeps a small ledger in its state: running protein and
calorie intake totals, a protein goal and a calorie goal, a flag for the start page, a flag for
the Edit Goals sheet, and a list of log entries (`DailyLog`: a date and two amounts). Six modelled
actions change this state:

- committing either text field on the start page;
- tapping Set Goals on the start page;
- tapping Edit Goals on the home tab;
- tapping Save Goals on the Edit Goals sheet;
- tapping Add on the add page;
- swiping log entries away in the log list.

Each goal field is taken only when its text parses as a number that is not negative.
The progress bars fill to `min(value / goal, 1)`.

This project models that ledger in Dafny:

- `offsets.dfy` (module `Offsets`): `RemoveAtOffsets`, the effect of Swift's
  `Array.remove(atOffsets:)`, and `KeptIndices`, the positions that survive it.
- `progress.dfy` (module `Progress`): the fill fraction.
- `ledger.dfy` (module `IntakeLedger`): the data model, and one pure transition function per
  handler on the value `LedgerState`. These functions are the specification. The class `Ledger`
  holds the same fields as mutable state. Each of its methods performs the handler's assignments
  in the source's order, and its contract says the new `State()` is the transition function
  applied to the old one. Two definitions carry the source's input rule: `Accepts` is the
  guard `if let v = Double(x), v >= 0` of every handler, and `Amount` is what one accepted (or
  rejected) field adds. The contracts of `CommitProtein`, `CommitCalorie`, `SetStartGoals`,
  `SaveGoals` and `AddIntake` are stated in terms of them.
- `runs.dfy` (module `LedgerRuns`): sequences of actions (`Step`, `Run`) and what holds of every
  state they reach.
- `wrappers.dfy`: the `Option` type for parse results.

The text-field parse enters as an `Option<real>` (`None` means the parse failed). The current
date enters as a parameter. The stored log list read at launch enters the constructor as an
`Option` (`None` means nothing was stored or it did not decode). `Double` is modelled as `real`.

This revision of the code behaves as follows:

- Every Add appends a new entry. Entries are not merged by calendar day.
- The appended entry carries the cumulative running totals. The totals never reset while the
  app runs, and deleting entries does not lower them.
- Entries are deleted by list offsets, not by date.
- Only the log list is read back at launch. Neither the goals nor the running intakes are
  persisted, so every launch starts with zero goals and zero intakes and shows the start page,
  while the loaded entries keep the totals of earlier launches.
- The fill fraction has no guard against a zero goal.

## Model

| member | source | states |
|---|---|---|
| `IntakeLedger.Initial` | mcro/mcro/ContentView.swift:51-69 | launch state: intakes and goals are 0, the start page is shown, the sheet is closed, and the log list is the decoded stored list or empty when there is none |
| `IntakeLedger.Ledger.constructor` | mcro/mcro/ContentView.swift:61-69 | the new ledger's state is `Initial(stored)` and satisfies the non-negativity invariant |
| `IntakeLedger.CommitProtein` | mcro/mcro/ContentView.swift:357-362 | an accepted protein field sets exactly the protein goal and dismisses the start page; a rejected one leaves the whole state unchanged; non-negativity is kept |
| `IntakeLedger.CommitCalorie` | mcro/mcro/ContentView.swift:367-372 | the same for the calorie field and the calorie goal |
| `IntakeLedger.SetStartGoals` | mcro/mcro/ContentView.swift:377-385 | each accepted input sets its own goal and a rejected one keeps it; any accepted input leaves the start page dismissed; from the start page, the page stays shown iff both inputs are rejected; with both rejected nothing changes; intakes, sheet flag and logs are untouched |
| `IntakeLedger.SetGoalsIsBothCommits` | mcro/mcro/ContentView.swift:357-385 | the Set Goals button has the same effect as committing the protein field and then the calorie field |
| `IntakeLedger.OpenEditGoals` | mcro/mcro/ContentView.swift:132-134 | the Edit Goals sheet is open afterwards, and nothing else changes |
| `IntakeLedger.SaveGoals` | mcro/mcro/ContentView.swift:187-194 | each goal is replaced only by an accepted input for that goal; the two fields are handled independently; the sheet is closed whatever the inputs; start page flag, intakes and logs are untouched |
| `IntakeLedger.SaveAndSetAgreeOnGoals` | mcro/mcro/ContentView.swift:187-194 | Save Goals and the start page's Set Goals accept the same inputs and differ only in the flag each one clears |
| `IntakeLedger.AddIntake` | mcro/mcro/ContentView.swift:425-436 | each running total grows by exactly the accepted amount, so it never decreases; the list grows by one; earlier entries are unchanged; the new last entry holds the given date and the updated totals; goals and flags are untouched |
| `IntakeLedger.DeleteLogs` | mcro/mcro/ContentView.swift:233-234 | for valid offsets, the list shrinks by the number of offsets; its `j`-th entry is the old entry at the `j`-th kept position; everything else is unchanged |
| `IntakeLedger.DeleteOneEntry` | mcro/mcro/ContentView.swift:233-234 | deleting a single offset `i` cuts out exactly the entry at `i` |
| `IntakeLedger.Ledger.CommitProteinGoal` | mcro/mcro/ContentView.swift:357-362 | the handler's assignments produce `CommitProtein` of the old state and keep the invariant |
| `IntakeLedger.Ledger.CommitCalorieGoal` | mcro/mcro/ContentView.swift:367-372 | the handler's assignments produce `CommitCalorie` of the old state and keep the invariant |
| `IntakeLedger.Ledger.SetGoals` | mcro/mcro/ContentView.swift:377-385 | the button's assignments produce `SetStartGoals` of the old state and keep the invariant |
| `IntakeLedger.Ledger.EditGoals` | mcro/mcro/ContentView.swift:132-134 | the button's assignment produces `OpenEditGoals` of the old state |
| `IntakeLedger.Ledger.SaveEditedGoals` | mcro/mcro/ContentView.swift:187-194 | the button's assignments produce `SaveGoals` of the old state and keep the invariant |
| `IntakeLedger.Ledger.Add` | mcro/mcro/ContentView.swift:425-436 | the `+=` updates and the in-place append produce `AddIntake` of the old state and keep the invariant |
| `IntakeLedger.Ledger.DeleteLog` | mcro/mcro/ContentView.swift:233-234 | the in-place removal produces `DeleteLogs` of the old state; offsets must be in range, as `remove(atOffsets:)` demands |
| `Offsets.RemoveAtOffsets` | mcro/mcro/ContentView.swift:234 | the model of `dailyLogs.remove(atOffsets:)`; its own contract says only that the result is no longer than the input, and `RemovedAt`, `KeptIndicesExact` and `KeptCount` characterise it exactly |
| `Offsets.KeptIndices` | mcro/mcro/ContentView.swift:234 | there are at most as many kept positions as elements, and each one is a position of the list |
| `Offsets.KeptIndicesExact` | mcro/mcro/ContentView.swift:234 | the kept positions lie outside the offsets and are strictly increasing, and every position outside the offsets is among them |
| `Offsets.RemovedAt` | mcro/mcro/ContentView.swift:234 | after removal, the `j`-th element is the element at the `j`-th kept position, so exactly the offset positions are gone and the order is kept |
| `Offsets.KeptCount` | mcro/mcro/ContentView.swift:234 | with in-range offsets, the number of kept positions is the length minus the number of offsets |
| `Offsets.RemovedLength` | mcro/mcro/ContentView.swift:234 | with in-range offsets, the length drops by exactly the number of offsets |
| `Offsets.RemoveNothing` | mcro/mcro/ContentView.swift:234 | removing at an empty set of offsets changes nothing |
| `Offsets.RemoveOne` | mcro/mcro/ContentView.swift:234 | removing at one offset `i` gives `s[..i] + s[i+1..]` |
| `Progress.FillFraction` | mcro/mcro/ContentView.swift:314 | for a positive goal the fill never exceeds 1; it is `value / goal` when `value <= goal` and exactly 1 when `value >= goal`; it is not negative for a non-negative value |
| `Progress.FillMonotone` | mcro/mcro/ContentView.swift:291 | more intake never shows a shorter bar |
| `LedgerRuns.Step` | mcro/mcro/ContentView.swift:51-59 | an action fails only when a deletion names an offset past the end; otherwise it keeps non-negativity, never brings the start page back and never lowers the totals |
| `LedgerRuns.RunKeepsNonNegative` | mcro/mcro/ContentView.swift:51-54 | goals and intakes stay non-negative along any sequence of actions |
| `LedgerRuns.ReachableProgressInRange` | mcro/mcro/ContentView.swift:314 | in every state reachable from launch, both bars show a fill between 0 and 1 whenever the goal is positive |
| `LedgerRuns.StartPageStaysDismissed` | mcro/mcro/ContentView.swift:357-385 | once the start page is dismissed, no sequence of actions shows it again |
| `LedgerRuns.TotalsNeverDecrease` | mcro/mcro/ContentView.swift:426-431 | no sequence of actions lowers either running total, deletions included |
| `LedgerRuns.AddsAppendRunningTotals` | mcro/mcro/ContentView.swift:425-436 | a run of Adds never fails; it keeps the earlier entries and appends one entry per Add; the totals grow by exactly the accepted amounts, and the last entry holds the final totals |
| `LedgerRuns.AddsLogEachEntry` | mcro/mcro/ContentView.swift:425-436 | the `i`-th entry a run of Adds appends holds exactly the `i`-th Add's date and the starting totals plus the amounts accepted by the first `i + 1` Adds |
| `LedgerRuns.AddsLogOrderedTotals` | mcro/mcro/ContentView.swift:425-436 | the entries a run of Adds appends lie between the old and the new totals and never decrease from one entry to the next |
| `LedgerRuns.SameDayAddsAppendTwoEntries` | mcro/mcro/ContentView.swift:425-436 | after goals 150/2000 and two Adds on the same date, the log holds two entries (50/600, then 110/1100), not one merged entry, and the bars show 11/15 and 0.55 |
| `LedgerRuns.NegativeGoalIgnored` | mcro/mcro/ContentView.swift:187-193 | saving goals with protein -5 and calorie 100 keeps the protein goal and sets the calorie goal to 100 |

## Left out

- SwiftUI layout and navigation are not modelled: views, fonts, `CustomFont`, `BlackButtonStyle`, the `TabView` and sheet wiring, and the dismissal of the add page through `presentationMode` (ContentView.swift:444). The sheet's own swipe-to-dismiss is left out as well.
- Which view is on screen is not modelled. `Step` accepts every action in every state, so the `LedgerRuns` lemmas hold for any order of actions, including orders the screens do not allow.
- Persistence goes through `UserDefaults` and `JSONEncoder`/`JSONDecoder`, both foreign library calls. At launch the decoded list enters as the constructor's `stored` parameter (ContentView.swift:65-68). The saves after Delete and Add (:237-239, :439-441) are left out; they do not change the ledger.
- The constructor takes the load at launch at face value: ContentView.swift:65-68 assigns the decoded list to the `@State` property `dailyLogs` inside the view's `init`, and the model loads it into `dailyLogs`. SwiftUI's handling of such a write (whether it survives or the view starts from `[]`) is framework behaviour outside this model; every lemma holds whatever `stored` is, including `None`.
- Parsing text with `Double(...)` is a foreign call. The handlers and `Action` receive its result as an `Option<real>`.
- `Date()` (ContentView.swift:434) is the `now` parameter of `Add`. Date and number formatting (:111-115, :246-250, :268-273) and the `Int(...)` display truncation (:324) are presentation only.
- Floating point is left out: `Double` is `real`, so `+=` does not round. Infinity and NaN do not exist in the model. In the source, `Double("inf")` parses to infinity and passes the `>= 0` test; the model has no such value.
- Progress.FillFraction: stated only for a positive goal. With a zero goal the source divides by zero, and the bar shows whatever IEEE infinity or NaN gives through `min`. Goals are never negative, so a positive goal is the only case with a real-number meaning.
- mcro/mcro/Item.swift is a storage placeholder holding a timestamp. It has no logic and is not part of this model.
- The list's use of the entry date as row identity (`ForEach(dailyLogs, id: \.date)`, ContentView.swift:222) is rendering only.
