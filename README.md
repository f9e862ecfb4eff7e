# Expense card ledger

A model of the ledger behind the `ExpenseCard` component of an expense tracker.
The ledger holds an ordered list of expense records `{id, name, price, quantity}`.
Beside the list it caches a running total, `totalPrice`, and keeps an edit mode: the id of the record being edited plus three draft fields.
The app persists the list and the total under two store keys, `expenses` and `totalPrice`. Add, delete and commit-edit write both keys. Clear All removes both keys. Begin-edit and Cancel touch neither the store nor the total.

The main property is the ledger invariant `Consistent()`: ids are unique and `totalPrice == Sum(expenses)`.
No handler recomputes the total from the list. Add, delete and commit-edit each adjust it by a difference, and the model proves that each difference is the right one. Clear All leaves the total as it is, and begin-edit and Cancel do not touch it.

- `expense_records.dfy`, module `ExpenseRecords`: the record type and the pure list operations the handlers use.
  These are JavaScript's `find`, `filter` and `map` by id, as `Find`, `Remove` and `Update`.
  The module also holds `parseInt` on a number (`Trunc`), the sum of line totals (`Sum`) and the lemmas about them.
- `expense_card.dfy`, module `ExpenseCard`: the class `Ledger`. Its fields are the component's state and the two store keys, and its methods are the handlers.
  The module also has a few client methods that run the handlers in sequence.

Numbers are exact: prices are `real` and quantities are `int`.
A line total is `Times(price, quantity)`, which adds up `price` once per unit of the whole quantity. `TimesIsProduct` proves it equals `price * quantity`; with it, the proofs about totals need only linear arithmetic.
`parseFloat` of a field is the number the field holds. `parseInt` is truncation toward zero (`Trunc`), which keeps the difference between the add path and the edit path visible.
An add-form field is a `Field`: either `Blank` (the empty string) or `Entered(x)`.
The id of a new record comes from the caller. It stands in for `uuidv4()`, and the invariant proofs assume it is not already in the list.

Clear All is meant to reset the total to zero, but the code (`src/ExpenseCard.jsx:88-92`) does not. `Ledger.Clear` follows the code, and the corrected `Ledger.ClearAll` is listed under Findings.

## Model

| member | source | states |
|---|---|---|
| `ExpenseRecords.IndexOf` | src/ExpenseCard.jsx:46 | the position of the first record carrying the id: in range, that record has the id, and no earlier record has it |
| `ExpenseRecords.Find` | src/ExpenseCard.jsx:46 | `find` by id returns a record exactly when some record has the id, and then it is the first such record |
| `ExpenseRecords.Remove` | src/ExpenseCard.jsx:48 | `filter` never lengthens the list and leaves no record with the id |
| `ExpenseRecords.RemoveMembers` | src/ExpenseCard.jsx:48 | `filter` keeps exactly the records of the list whose id differs |
| `ExpenseRecords.Update` | src/ExpenseCard.jsx:64-69 | `map` keeps the length; each record with the id takes the new name, price and quantity and keeps its id; every other record is unchanged |
| `ExpenseRecords.Trunc` | src/ExpenseCard.jsx:66 | `parseInt` of a number is its integer part toward zero: `r <= x < r + 1` for `x >= 0`, and `r - 1 < x <= r` for `x < 0` |
| `ExpenseRecords.TimesIsProduct` | src/ExpenseCard.jsx:29 | the line total built by repeated addition is exactly `price * quantity` |
| `ExpenseRecords.SumAppend` | src/ExpenseCard.jsx:38-39 | appending a record raises the sum of line totals by exactly its `price*quantity` |
| `ExpenseRecords.SumRemove` | src/ExpenseCard.jsx:47-48 | with unique ids, the filter lowers the sum by exactly the found record's `price*quantity` |
| `ExpenseRecords.SumUpdate` | src/ExpenseCard.jsx:73-80 | with unique ids, the map changes the sum by exactly new line total minus the found record's line total |
| `ExpenseRecords.UpdateAbsent` | src/ExpenseCard.jsx:64-69 | the map over an id no record has leaves the list as it is |
| `ExpenseRecords.TruncOfInteger` | src/ExpenseCard.jsx:60 | truncating a quantity copied into the draft gives the same quantity back |
| `ExpenseRecords.IndexOfUnique` | src/ExpenseCard.jsx:46 | with unique ids, any record carrying the id is the one `find` returns |
| `ExpenseRecords.RemoveUnique` | src/ExpenseCard.jsx:48 | with unique ids, the filter deletes exactly the found record and keeps the others in their order |
| `ExpenseRecords.RemoveAbsent` | src/ExpenseCard.jsx:48 | filtering out an id that no record has leaves the list as it is |
| `ExpenseRecords.RemoveKeepsUnique` | src/ExpenseCard.jsx:48 | filtering any id, present or not, out of a list with unique ids leaves unique ids |
| `ExpenseRecords.UpdateKeepsIds` | src/ExpenseCard.jsx:66 | the map keeps every record's id at its position, so unique ids stay unique |
| `ExpenseRecords.AppendKeepsUnique` | src/ExpenseCard.jsx:30-31 | appending a record whose id is new keeps the ids unique |
| `ExpenseRecords.RevisingWithOwnFields` | src/ExpenseCard.jsx:55-69 | with unique ids, revising a record with its own name, price and quantity leaves the list unchanged |
| `ExpenseCard.Ledger.Load` | src/ExpenseCard.jsx:16-21 | mounting loads the stored list or `[]` and the stored total or 0, with edit mode off; the ledger is consistent exactly when the stored values agree, and always when the store is empty |
| `ExpenseCard.Ledger.Add` | src/ExpenseCard.jsx:23-41 | with the name, price or quantity empty nothing changes at all; otherwise exactly one new record goes at the end, the earlier records stay in order, the total rises by exactly its `price*quantity`, both keys hold the new values, and consistency is kept when the id is new |
| `ExpenseCard.Ledger.Delete` | src/ExpenseCard.jsx:45-53 | for a present id the list is the filtered list; the total drops by exactly the found record's `price*quantity`; with unique ids only that record goes and the others keep their order; both keys are written; consistency is kept |
| `ExpenseCard.Ledger.BeginEdit` | src/ExpenseCard.jsx:55-61 | edit mode is set to the id and the draft is the found record's name, price and quantity; list, total and store are unchanged |
| `ExpenseCard.Ledger.CommitEdit` | src/ExpenseCard.jsx:63-85 | the list is the mapped list; length and order are kept; only the record being edited changes, to the draft name, truncated draft price and truncated draft quantity; the total moves by exactly new minus original line total; edit mode ends; both keys are written; consistency is kept |
| `ExpenseCard.Ledger.CommitEditDecimal` | src/ExpenseCard.jsx:63-85 | the same commit with the draft price kept as a decimal, as the add path parses it |
| `ExpenseCard.Ledger.Save` | src/ExpenseCard.jsx:70-84 | the shared part of both commits, given the parsed price: the new list, the adjusted total, the written keys, leaving edit mode, and consistency kept |
| `ExpenseCard.SaveKeepsConsistency` | src/ExpenseCard.jsx:73-80 | from a consistent list and total, the mapped list keeps unique ids and the incrementally adjusted total equals its sum |
| `ExpenseCard.Ledger.CancelEdit` | src/ExpenseCard.jsx:166 | only edit mode changes, to none; list, total, draft and store are untouched |
| `ExpenseCard.Ledger.Clear` | src/ExpenseCard.jsx:88-92 | the list becomes empty and both keys are removed, but the total keeps its value, so the ledger is consistent afterwards exactly when that total is zero |
| `ExpenseCard.Ledger.ClearAll` | src/ExpenseCard.jsx:88-92 | Clear with the total also reset to zero, which always leaves the ledger consistent |
| `ExpenseCard.Reload` | src/ExpenseCard.jsx:16-21 | after a handler has written both keys, mounting again yields the same list and total, and the same consistency |
| `ExpenseCard.CoffeeScenario` | src/ExpenseCard.jsx:23-53 | adding 2 at 3.50 to an empty card gives one record and a total of 7; deleting it returns the total to 0 with store and memory in step |
| `ExpenseCard.StaleTotalAfterClear` | src/ExpenseCard.jsx:88-92 | after add, Clear and add, both the cached total and the stored total are 8 while the sum is 1 |
| `ExpenseCard.TruncatingEditScenario` | src/ExpenseCard.jsx:63-85 | opening and saving an edit of a 3.50 record without touching the draft makes its price 3 and the total 6 |
| `ExpenseCard.UntouchedEdit` | src/ExpenseCard.jsx:55-85 | with unique ids, even when the total is stale after Clear, opening and saving an edit with the decimal commit and an untouched draft changes neither the list nor the total |

## Findings

| source | as written | input that shows it | evidently intended | confidence | as-written member | corrected member |
|---|---|---|---|---|---|---|
| src/ExpenseCard.jsx:88-92 | `clearItems` empties the list and removes both keys but never resets `totalPrice` | add Coffee 3.50 x 2, Clear All, add Tea 1.00 x 1: the total shown and stored is 8.00, but the one record sums to 1.00 | reset the total to 0 with the list | not executed | `ExpenseCard.StaleTotalAfterClear` (on `ExpenseCard.Ledger.Clear`) | `ExpenseCard.Ledger.ClearAll` |
| src/ExpenseCard.jsx:66 | commit parses the draft price with `parseInt`, where the add path uses `parseFloat` (line 30) | add Coffee 3.50 x 2, Edit, Update without changes: the price becomes 3 and the total 6.00 | keep the decimal price, so that an unchanged draft is a no-op | not executed | `ExpenseCard.TruncatingEditScenario` (on `ExpenseCard.Ledger.CommitEdit`) | `ExpenseCard.Ledger.CommitEditDecimal` (proved a no-op on an unchanged draft by `ExpenseCard.UntouchedEdit`) |

## Left out

- Rendering, the react-bootstrap widgets and the `toFixed(2)` display of the total (src/ExpenseCard.jsx:94-186) are UI. The Cancel button's handler (line 166) is the one part of them that is modelled.
- `alert`: a rejected add is modelled by `Add` returning `false` and changing nothing.
- The form-field setters and the resets after an add (lines 34-36, 105, 114, 123, 145, 153, 161) are UI. Add takes the field values as arguments. The draft fields are public fields of `Ledger`, and a client may assign them between `BeginEdit` and a commit.
- `localStorage` and JSON serialisation: the store is two `Option` fields. Writing a value and reading it back is assumed to be exact. The `|| []` and `|| 0` defaults are modelled only for absent keys, not for stored `null`, `NaN` or `0` strings.
- `uuidv4()` is a foreign call. The caller supplies the id. `Add` keeps consistency only when that id is new.
- String parsing by `parseFloat`/`parseInt`, including `NaN` from an emptied draft field and exponent forms such as `1e21`: numbers arrive already parsed, and the draft fields are numbers.
- IEEE double rounding: all arithmetic is exact over `real` and `int`.
- React's asynchronous state batching: each handler is an atomic transition that reads the state before it.
- A missing id in delete, edit or commit is a fault in the source, because it dereferences `undefined`. The model makes a present id a precondition instead of modelling the fault. Delete and Clear do not end edit mode. No commit on a removed record can happen from the UI, though: the Update button is rendered only inside the row of a listed record whose id is `editingId` (src/ExpenseCard.jsx:136-138, 165). So a commit always finds its record, which is what the commit's precondition requires.
- ExpenseRecords.Remove: its own contract states only the length bound and that the id is gone. Membership is proved in `RemoveMembers`. Order preservation is proved only for lists with unique ids, in `RemoveUnique`.
