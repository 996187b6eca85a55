# Budget tracker ledger model

A Dafny model of the ledger behind the single-page budget tracker in
`script.js`. The page keeps a list of transactions, newest first. Each has an
id, a kind (income or expense), a description, an amount, a category and a
creation date. The page changes that list in three ways: it adds the
validated form in front, deletes by id and clears everything. It reloads the
list from browser storage at start-up. From the list it draws three summary
cards and a pie chart of the expenses by category.

The model has five modules:

- `LedgerTypes` (`ledger_types.dfy`) holds the transaction record, `Option`
  and `Result`, and the shape of a well-kept ledger: unique ids, positive
  amounts, non-empty descriptions and categories.
- `Validation` (`validation.dfy`) holds the add form's chain of checks. It
  includes the string trimming the form applies, with the white-space set of
  the ECMAScript `String.prototype.trim`.
- `Summary` (`summary.dfy`) holds the income, expense and balance cards. Each
  is a filter on the kind followed by a first-to-last sum.
- `Breakdown` (`breakdown.dfy`) holds the chart pipeline. The grouping loop
  fills a per-category object, and that object's keys keep their insertion
  order. A stable sort then orders the groups by descending sum. Last, the
  interval loop lays out one percentage stop per group.
- `Store` (`store.dfy`) holds the class `Ledger` with the page's
  `transactions` variable and its add, delete, clear and load operations.
  Beside it are the pure filter and load functions those operations are
  specified by.

Amounts and percentages are exact `real` numbers. Every sum is defined
recursively from the last element, so it adds first to last from 0 as the
source's `reduce` calls do. The grouping object is a `map` from category to
sum together with the sequence of its keys in insertion order.
`Object.entries` lists the entries in that key order. The host pieces are
parameters: the text read from storage, the JSON reader, the number read from
the amount field, and the new record's id and creation date.

## Model

| member | source | states |
|---|---|---|
| Validation.TrimStart | script.js:120-121 | The result is a suffix of the input. Every removed character is white space. The result does not start with white space. |
| Validation.TrimEnd | script.js:120-121 | The result is a prefix of the input. Every removed character is white space. The result does not end with white space. |
| Validation.TrimEmptyIff | script.js:120-130 | A field trims to the empty text exactly when it is all white space. Both directions are proved. |
| Validation.TrimIdempotent | script.js:120-121 | A trimmed text has no white space at either end, and trimming it again changes nothing. |
| Validation.Validate | script.js:119-158 | A form is accepted iff the trimmed description is non-empty, the trimmed amount text is non-empty, the text reads as a number, that number is > 0 and a category is selected. When accepted, the result holds the trimmed description, the number and the category, so its amount is > 0. Each error is reported exactly when every earlier check passes and its own check fails. |
| Validation.BlankNameRejected | script.js:120-128 | A description made only of white space is rejected with the missing-description error, whatever the other fields hold. |
| Summary.OfKind | script.js:216-217 | The filter result is never longer than the ledger, and every entry in it has the requested kind. |
| Summary.OfKindMembers | script.js:216-217 | An entry is in the filter result exactly when it is in the ledger and has the kind. |
| Summary.Summarize | script.js:215-218 | Income is the sum over the income entries. Expense is the sum over the expense entries. Balance is income minus expense. Income and expense together are the sum of every amount in the ledger. |
| Summary.EmptySummary | script.js:216-218 | An empty ledger shows 0 on all three cards. |
| Summary.TotalPrepend | script.js:216-217 | Putting an entry in front of a list adds its amount to the list's sum. |
| Summary.TotalConcat | script.js:216-217 | The sum over two lists joined together is the sum of their two sums. |
| Summary.OfKindPrepend | script.js:216-217 | Filtering a list with an entry in front keeps that entry at the front exactly when it has the kind. |
| Summary.SummarizeAfterAdd | script.js:216-218 | After an entry is added in front, its own card rises by its amount and the other card stays the same. The balance moves by the amount, up for income and down for expense. |
| Summary.IncomePlusExpense | script.js:216-217 | Income plus expense is the sum of every amount in the ledger. |
| Summary.TotalPositive | script.js:216-217 | When every amount is positive, the sum is at least 0, and it is > 0 once the list has an entry. |
| Summary.CardsNonNegative | script.js:216-222 | When every amount is positive, the income and expense cards are never negative. |
| Breakdown.Categories | script.js:281-284 | The grouping object's keys are distinct. |
| Breakdown.CategoriesCover | script.js:281-284 | A category is a key exactly when some expense has that category. |
| Breakdown.EntriesOf | script.js:287 | The entries list follows the key order, with one group per key. Each group holds its key and that category's sum. |
| Breakdown.GroupByCategory | script.js:280-284 | After the loop the keys are the categories in first-seen order. The object holds exactly those keys, and each key's value is the sum of the expense amounts in that category. |
| Breakdown.CategoryTotalAbsent | script.js:283 | A category that no expense has sums to 0. The loop relies on this when it starts a new key from `|| 0`. |
| Breakdown.CategoryTotalPositive | script.js:283 | When every amount is positive, each key's sum is > 0. |
| Breakdown.GroupSumExtend | script.js:282-286 | One more expense raises the sum over distinct categories by its amount iff its category is among them. |
| Breakdown.GroupingConserves | script.js:281-286 | The grouped sums add up to the sum of all the expense amounts. |
| Breakdown.InsertByTotal | script.js:287 | An insertion step makes the list one longer, and its head is either the inserted group or the old head. |
| Breakdown.InsertPermutes | script.js:287 | An insertion step adds the group and loses nothing, as multisets. |
| Breakdown.InsertSorted | script.js:287 | An insertion step keeps a largest-first list sorted. |
| Breakdown.SortByTotal | script.js:287 | The sorted list is a permutation of the groups with the sums in non-increasing order. |
| Breakdown.InsertKeepsTies | script.js:287 | An inserted group goes ahead of every group with the same sum. |
| Breakdown.SortIsStable | script.js:287 | For every sum value, the groups with that sum appear in their original order. |
| Breakdown.GroupSumPrepend | script.js:286 | Putting a group in front adds its sum to the total. |
| Breakdown.GroupSumInsert | script.js:286-287 | An insertion step adds the group's sum to the total. |
| Breakdown.GroupSumSort | script.js:286-287 | Sorting does not change the total of the groups. |
| Breakdown.SortedGroupsAreCategorySums | script.js:281-287 | However the groups are reordered, each still pairs its category with that category's own sum, and that sum is > 0. |
| Breakdown.SortGivesBreakdown | script.js:281-287 | The sorted groups are a permutation of the grouped entries. They run from largest to smallest sum, ties keep key order, and each sum is that category's positive sum. |
| Breakdown.PercentBounds | script.js:294 | A positive part of a positive whole has a positive share, and the whole is 100 percent of itself. |
| Breakdown.Intervals | script.js:289-298 | There is one stop per group, in order, and each stop is as wide as its group's share. The first stop starts at 0 and each later stop starts where the previous one ended. The last stop ends at the share of the groups' total. Every division is by a non-zero total. |
| Breakdown.StopsCoverPie | script.js:289-298 | When the groups are positive and add up to the total, the stops cover the pie. Each has positive width, they are contiguous, and they run from 0 to 100. |
| Breakdown.BuildChart | script.js:280-298 | For a non-empty list of positive expenses, the chart total equals the sum of the expenses. Its groups are the sorted breakdown and its stops cover the pie from 0 to 100. |
| Breakdown.RenderChart | script.js:271-298 | There is no chart exactly when the ledger has no expense. Otherwise the centre total equals the expense card, and the chart describes the ledger's expenses as in BuildChart. |
| Store.Without | script.js:199 | The delete filter never makes the ledger longer. |
| Store.WithoutMembers | script.js:199 | An entry survives a delete exactly when it was in the ledger with another id. So after a delete no entry has the id. |
| Store.WithoutAbsent | script.js:199 | Deleting an id that no entry has leaves the ledger identical. |
| Store.WithoutConcat | script.js:199 | The delete filter works piece by piece, so the surviving entries keep their relative order. |
| Store.WithoutUniquePresent | script.js:198-199 | Deleting an id that only entry k has removes exactly that entry. The entries before and after it close up, and the length drops by one. |
| Store.WithoutKeepsUnique | script.js:199 | Deleting keeps the ids unique. |
| Store.WithoutPreservesWellFormed | script.js:199 | Deleting keeps a well-formed ledger well formed. |
| Store.AddPreservesWellFormed | script.js:172-184 | An accepted form added with an id no entry has keeps the ledger well formed. |
| Store.DeleteUndoesAdd | script.js:198-199 | Deleting the fresh id of an entry that was just added gives back the ledger from before the add. |
| Store.Hydrate | script.js:54-61 | A stored, non-empty text that reads successfully loads exactly the ledger read from it. Missing text, empty text and a failed read all give the empty ledger. A non-empty result always comes from a successful read. |
| Store.SaveThenLoad | script.js:54-65 | A ledger saved as a non-empty text that reads back as the same ledger is what the next start-up loads. |
| Store.Ledger.constructor | script.js:50 | The page starts with no transactions. |
| Store.Ledger.Load | script.js:54-61 | The transactions become the loaded ledger. |
| Store.Ledger.AddTransaction | script.js:170-189 | A rejected form reports the same error as the validation and leaves the transactions unchanged. An accepted form becomes a record with the given id, kind, date, trimmed description, positive amount and category. That record is placed at index 0, the length grows by one, and the old entries follow unchanged and in order. |
| Store.Ledger.DeleteTransaction | script.js:198-203 | The transactions become the delete filter of the old ones, and no entry keeps the id. |
| Store.Ledger.ClearAll | script.js:206-212 | The transactions become empty. |

## Left out

- All page code: element lookups, event listeners, the history list, the legend, `escapeHTML`, the toasts, the confirmation modal and the clear button's "nothing to clear" guard, which opens no modal. The model starts at the operations those handlers call.
- Browser storage and JSON. The stored text is a parameter of `Load` and `Hydrate`, and the JSON reader is a function parameter that yields None where reading fails. Writing back after each change is not modelled, and `SaveThenLoad` states only the read-back property. A stored text that parses to something other than a list of records is not modelled.
- Id and date generation use the clock and a random source, so the new record's id and creation date are parameters of `AddTransaction`.
- Store.Ledger.AddTransaction: does not require the id to be fresh, because the source does not ensure it. Unique ids are kept only under the freshness assumption of `AddPreservesWellFormed`.
- `parseFloat` is a parameter. The amount text's reading comes in as `Option<real>`, with None for not-a-number. The infinite value it can return is not modelled.
- Floating point: amounts, sums and percentages are exact reals. Rounding, `toFixed` and the currency and date formatting are not modelled.
- The income/expense toggle's styling and the form reset. The selected kind is a parameter of `AddTransaction`.
- The category colour table and its default colour. A stop carries its category, not a colour.
- Breakdown.RenderChart: requires every amount in the ledger to be positive. Validated adds keep that true. A hand-edited stored ledger whose expenses sum to 0 would make the source divide by zero, and that case is not modelled.
- Breakdown.BuildChart: requires every expense amount to be positive, for the same reason. The source still draws a chart for zero or negative amounts (stops that overshoot 100 and come back, or not-a-number stops when the total is 0); those charts are not modelled.
- Breakdown.GroupByCategory: assumes keys keep insertion order. Integer-like category names, which a JavaScript object lists first in numeric order, are not modelled.
- Breakdown.GroupByCategory: treats the grouping object as an empty map. The object literal inherits from `Object.prototype`, so a category named `toString`, `constructor`, `valueOf`, `hasOwnProperty` or another inherited name starts from an inherited function instead of 0 and yields a text total, and a category named `__proto__` is dropped from the entries. The model gives each of these a numeric group; such categories are not modelled.
