# Budget calculator ledger, modelled in Dafny

This project models the core of a browser budget tracker. The user enters
income and expense items, and the tracker keeps running totals, the budget
(income minus expenses) and the percentage of income spent.

- `BudgetController` (wrappers.dfy holds `Option`) models the budget
  controller's `data` object. The `Ledger` class holds the two append-only
  lists `inc` and `exp`, the two totals, the budget and the percentage. Its
  methods are `AddItem`, `CalculateTotal` and `CalculateBudget`, plus the
  read `GetBudget`. Two invariants are kept:
  - `Valid()`: in each list, every id equals its position.
  - `Calculated()`: the totals equal the sums of the lists, the budget is
    their difference, and the percentage follows the rounding and
    sentinel rule.
- `UiController` models the one piece of display logic. The percentage
  label reads `"<p>%"` when p > 0 and `"---"` otherwise. A parser
  (`ParseLabel`) reads a label back, so it can be proved that the label
  carries exactly the positive percentages.
- `Controller` models the input guard of `ctrlAddItem`. It accepts only a
  non-empty description and an amount that is a number and > 0. It also
  models the call order: add, then recompute, then display. The guard
  keeps a third invariant, `EntriesWellFormed`: every entry has a
  non-empty description and a positive amount.

Amounts are Dafny `real`s. JavaScript's `Math.round` (halves round up) is
`(x + 0.5).Floor`. An amount that failed to parse (NaN) is `None`.

With income recorded and no expenses, the code computes percentage
`Math.round(0 / inc * 100) = 0`, not the sentinel -1. The sentinel
appears only while there is no income (or the income total is not
positive). `Controller.ExampleBudget` pins this down: after a single
salary of 1000 the snapshot is (1000, 1000, 0, 0).

## Model

| member | source | states |
|---|---|---|
| BudgetController.Ledger.constructor | app.js:46-57 | The initial data has both lists empty, both totals 0, budget 0 and percentage -1. It already satisfies the id invariant and agrees with its lists. Its snapshot equals the values `init` displays at app.js:258-263. |
| BudgetController.NextId | app.js:63-68 | The new id is the last id + 1, or 0 for an empty list. On a list whose ids are its positions, that is the list's length, and appending an entry with it keeps ids equal to positions. |
| BudgetController.Ledger.AddItem | app.js:60-84 | Returns the entry (next id, given description, given value) and appends exactly it to the end of the list of its kind. The other list, the totals, the budget and the percentage are unchanged, and the ids of each list remain 0,1,2,… independently. |
| BudgetController.Ledger.CalculateTotal | app.js:34-43 | The loop leaves the total of the kind equal to the sum of that list's values. The other total, both lists, the budget and the percentage are unchanged. |
| BudgetController.Ledger.CalculateBudget | app.js:86-101 | Afterwards totals equal list sums, budget equals income total minus expense total, and percentage is round(exp/inc*100) if income total > 0, else -1. Lists are unchanged. Recomputing an already recomputed ledger leaves its snapshot as it was (idempotence). |
| BudgetController.Ledger.GetBudget | app.js:103-110 | A read (no state change). On a recomputed ledger its four values are the list sums, their difference and the percentage of their quotient. |
| BudgetController.Round | app.js:97 | Math.round with halves rounded up: the result n satisfies n − ½ ≤ x < n + ½. |
| BudgetController.Percentage | app.js:96-100 | With positive income the result is within half a unit of exp/inc·100. Otherwise it is the sentinel -1. |
| BudgetController.SumOfPositive | app.js:34-43 | A total of positive values is never negative, and is positive exactly when the list is non-empty. |
| BudgetController.PercentageBounds | app.js:96-100 | When 0 ≤ expenses ≤ income and income > 0, the percentage lies in 0..100. |
| BudgetController.NoIncomeSentinel | app.js:96-100 | With positive entries, the percentage of the lists' sums is -1 exactly when no income was recorded. Otherwise it is ≥ 0. |
| BudgetController.PercentageNonNegative | app.js:96-100 | With income > 0 and expenses ≥ 0, the percentage is not negative, so it never collides with the sentinel. |
| UiController.Decimal | app.js:191 | The text of a whole number: only digits, at least one, and a leading zero only for 0 itself. |
| UiController.DecimalRoundTrip | app.js:191 | Reading back the decimal text of a number gives the number. |
| UiController.PercentageLabel | app.js:190-194 | `"<p>%"` when p > 0, else `"---"`. Its contract proves, through `ParseLabel` and `DecimalRoundTrip`, that the label reads back to p exactly when p > 0 and is `"---"` exactly when p ≤ 0, which includes the sentinel -1 and 0. |
| UiController.DisplayBudget | app.js:183-196 | The budget, income and expense labels carry the snapshot's values. The percentage label reads back to the percentage when it is positive and is `"---"` otherwise. |
| Controller.Accepts | app.js:240 | The guard accepts exactly the submissions whose amount is a number (not NaN) and whose entry, appended to any list of well-formed entries (non-empty description, amount > 0), keeps that list well formed. This is the property `CtrlAddItem` relies on to keep the ledger's entries well formed. |
| Controller.WellFormedSentinel | app.js:86-101 | On a ledger that the guard has kept well formed and that is recomputed, the percentage is -1 exactly when no income has been recorded, and is ≥ 0 otherwise. |
| Controller.UpdateBudget | app.js:223-232 | Recomputes, so the ledger agrees with its unchanged lists, and returns the labels of the new snapshot. |
| Controller.CtrlAddItem | app.js:234-253 | Rejected input (empty description, NaN, or amount ≤ 0) returns nothing and changes neither the lists nor the snapshot. Accepted input appends exactly one entry (next id, given description and amount) to its kind's list, leaves the other list alone, leaves the ledger recomputed, and returns the displayed labels. The new entry is well formed. Ids stay equal to positions, and a ledger whose entries are all well formed stays so on both branches. |
| Controller.ExampleBudget | app.js:234-253 | Salary 1000 gives snapshot (1000, 1000, 0, 0). Rent 300 then gives (700, 1000, 300, 30). A rejected coffee at -5 leaves that snapshot. |
| Controller.ExampleLabels | app.js:190-194 | Percentage 0 is shown as `"---"`; percentage 30 is shown as `"30%"`. |
| Controller.ExampleIds | app.js:63-68 | A salary, then rent and a bus ticket, get ids 0, 0 and 1: each kind counts from 0 on its own. |

## Left out

- Reading the form (`getInput`, `querySelector`, `parseFloat`): the parsed amount is an input to the model, `None` standing for NaN. Partial parses such as `"12abc"` giving 12 are therefore not modelled.
- `addListItem`, `clearFields`, focus handling and the DOM writes of `displayBudget`: page plumbing. `DisplayBudget` returns the label contents instead of writing them.
- Event wiring in `setupEventListeners` and `init` (click and Enter key): browser plumbing. The initial display values of `init` are covered by the constructor's snapshot.
- `testing` and the `console.log` calls: debug output only.
- IEEE-754 doubles: sums and the division in the percentage are exact real arithmetic, so float rounding in totals is not modelled. An amount of `Infinity`, which `parseFloat` can produce and the guard lets through, has no counterpart among reals.
- UiController.Decimal: the model always writes the exact plain digits of the percentage. JavaScript differs above 2^53, where it prints the shortest digits that read back to the same double, padded with zeros. It also differs from 10^21 on, where it uses exponent notation.
- Type strings other than `inc` and `exp`, which would throw at app.js:64: the two-valued `Kind` rules them out.
- The delete buttons and the fixed `"21%"` per-item percentage in the markup: inert markup with no logic.
