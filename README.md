# Personal finance calculator: the state container, in Dafny

The calculator keeps a monthly salary, an ordered list of expense line items
and an ordered list of additional-income line items, and derives three
figures from them: total expenses, total additional income and net income
(salary + additional income − expenses). This project models that state
container and the record types it stores, and proves what its operations do
to the lists and to the totals.

- `calculator_types.dfy` (module `CalculatorTypes`): the expense and income
  categories as closed datatypes with their string tags, the generic line
  item `Item<C>` (`ExpenseItem`, `IncomeItem`), the id-less `Draft` an add
  takes and the `Patch` (a partial record, `id` included) an update takes.
- `record_lists.dfy` (module `RecordLists`): the pure transformations the
  store's mutators compute (append with a new id, `.map` merge by id,
  `.filter` by id) and the left-to-right `.reduce` total, with lemmas on ids,
  order, idempotence and totals.
- `calculator_store.dfy` (module `CalculatorStore`): the store as a class
  whose fields `salary`, `expenses`, `additionalIncome` and `hasHydrated`
  the mutators replace, with getter methods that change nothing, and a small
  client scenario.
- `commit_guards.dfy` (module `CommitGuards`): the checks the add and edit
  forms make before they call the store, stated as predicates.

Amounts are exact integers (for instance cents). The random UUID an add
assigns is a parameter `freshId` that does not occur in the list yet.

Some behaviours of the store are easy to misread:

- A delete removes every record whose id matches, not only the first.
  `RemoveUniqueIsSplice` shows that this is one record while ids are distinct.
- An update merges the patch with `{ ...record, ...patch }`, so a patch that
  carries an `id` replaces the record's id. `MergeKeepsId` says exactly when
  the id changes, and `UpdateCanDuplicateIds` shows a patch that breaks id
  uniqueness.
- The store does not check that amounts or the salary are non-negative. The
  add form only commits positive amounts; the edit form only asks for a
  non-zero one (`EditGuardAdmitsNegativeAmount`).
- The `CalculatorState` interface in `types/calculator.ts` does not declare
  `hasHydrated` or `setHasHydrated`; the store defines both, and so does the model.

## Model

| member | source | states |
|---|---|---|
| CalculatorTypes.ParseExpenseCategory | types/calculator.ts:5 | a string is an expense category exactly when it is one of the seven tags, and then it is that category's tag |
| CalculatorTypes.ParseIncomeCategory | types/calculator.ts:12 | a string is an income category exactly when it is one of the five tags, and then it is that category's tag |
| CalculatorTypes.ExpenseTagRoundTrip | types/calculator.ts:5 | every expense category reads back as itself from its tag, so the seven tags are distinct |
| CalculatorTypes.IncomeTagRoundTrip | types/calculator.ts:12 | every income category reads back as itself from its tag, so the five tags are distinct |
| RecordLists.AppendedIds | store/calculatorStore.ts:17-23 | an add contributes exactly the new id to the list's ids, and keeps ids pairwise distinct when that id is fresh |
| RecordLists.MergeKeepsId | store/calculatorStore.ts:28 | a merged record's id changes if and only if the patch carries an id different from the record's |
| RecordLists.MergeLaws | store/calculatorStore.ts:28 | merging an empty patch is the identity, merging the same patch twice equals merging it once, and merging a whole record yields that record |
| RecordLists.Updated | store/calculatorStore.ts:25-30 | an update keeps the length and every position; each record with the id becomes its merge with the patch, every other record is unchanged |
| RecordLists.UpdateUnknownId | store/calculatorStore.ts:25-30 | updating an id that does not occur leaves the list identical |
| RecordLists.UpdateIdempotent | store/calculatorStore.ts:25-30 | applying the same update twice equals applying it once, even when the patch moves records to another id |
| RecordLists.UpdatePreservesUniqueIds | store/calculatorStore.ts:25-30 | with distinct ids, an update keeps them distinct unless the patch carries a different id that already occurs |
| RecordLists.UpdateCanDuplicateIds | store/calculatorStore.ts:28 | a patch carrying another record's id makes two records share an id |
| RecordLists.RemovedMembers | store/calculatorStore.ts:32-35 | the survivors of a delete are records of the list, every record with another id survives, and the ids left are the old ids minus the deleted one |
| RecordLists.RemovedConcat | store/calculatorStore.ts:32-35 | deleting distributes over concatenation, so the survivors keep their relative order |
| RecordLists.RemoveAbsent | store/calculatorStore.ts:32-35 | deleting an id that does not occur changes nothing and removes nothing |
| RecordLists.RemoveIdempotent | store/calculatorStore.ts:32-35 | deleting the same id twice equals deleting it once |
| RecordLists.RemovedCount | store/calculatorStore.ts:32-35 | the removed records all carry the deleted id, and together with the kept records they are exactly the records of the list (as a multiset, and in number) |
| RecordLists.RemovePreservesUniqueIds | store/calculatorStore.ts:32-35 | a delete keeps ids pairwise distinct |
| RecordLists.RemoveUniqueIsSplice | store/calculatorStore.ts:34 | with distinct ids, deleting the id at position k removes exactly that one record and keeps the rest in order |
| RecordLists.TotalConcat | store/calculatorStore.ts:59-62 | the total of a concatenation is the sum of the totals |
| RecordLists.TotalAppended | store/calculatorStore.ts:17-23 | an add raises the total by exactly the new amount |
| RecordLists.TotalRemoved | store/calculatorStore.ts:32-35 | a delete lowers the total by the sum of the amounts it removes |
| RecordLists.TotalUpdated | store/calculatorStore.ts:25-30 | an update changes the total by the patched records' new amounts minus their old amounts |
| RecordLists.TotalUpdatedUnique | store/calculatorStore.ts:25-30 | with distinct ids, patching the record at k changes the total by its new amount minus its old amount |
| RecordLists.TotalPermutation | store/calculatorStore.ts:59-62 | the total does not depend on the order of the records |
| RecordLists.TotalNonNegative | store/calculatorStore.ts:59-70 | non-negative amounts give a non-negative total |
| CalculatorStore.Store.constructor | store/calculatorStore.ts:8-11 | the initial state has salary 0, both lists empty, not hydrated, and ids trivially distinct |
| CalculatorStore.Store.SetHasHydrated | store/calculatorStore.ts:13 | sets only the hydration flag |
| CalculatorStore.Store.SetSalary | store/calculatorStore.ts:15 | replaces only the salary |
| CalculatorStore.Store.AddExpense | store/calculatorStore.ts:17-23 | appends the draft with the fresh id at the end; nothing else changes; ids stay distinct; total expenses grow by the amount |
| CalculatorStore.Store.UpdateExpense | store/calculatorStore.ts:25-30 | replaces the expenses by their merge-by-id; an unknown id changes nothing; ids stay distinct unless the patch brings a colliding id |
| CalculatorStore.Store.DeleteExpense | store/calculatorStore.ts:32-35 | filters out every expense with the id; an absent id changes nothing; ids stay distinct; total expenses drop by the removed amounts |
| CalculatorStore.Store.AddIncome | store/calculatorStore.ts:37-43 | as AddExpense, on the additional-income list |
| CalculatorStore.Store.UpdateIncome | store/calculatorStore.ts:45-50 | as UpdateExpense, on the additional-income list |
| CalculatorStore.Store.DeleteIncome | store/calculatorStore.ts:52-57 | as DeleteExpense, on the additional-income list |
| CalculatorStore.Store.GetTotalExpenses | store/calculatorStore.ts:59-62 | returns the left-to-right sum of the expense amounts and changes nothing |
| CalculatorStore.Store.GetTotalAdditionalIncome | store/calculatorStore.ts:64-70 | returns the left-to-right sum of the income amounts and changes nothing |
| CalculatorStore.Store.GetNetIncome | store/calculatorStore.ts:72-75 | returns salary plus total additional income minus total expenses, possibly negative |
| CommitGuards.GuardedAddKeepsPositive | components/ExpenseManager.tsx:29-34 | an add the form accepts (named, amount positive) keeps every amount positive and raises the total, which stays non-negative |
| CommitGuards.DeleteKeepsPositive | store/calculatorStore.ts:32-35 | a delete keeps every amount positive |
| CommitGuards.EditGuardAdmitsNegativeAmount | components/ExpenseManager.tsx:41-47 | the edit form's check accepts a patch that makes a positive expense negative |

## Left out

- Persistence: the `persist` middleware, its storage key, JSON serialisation, `onRehydrateStorage` and the asynchronous rehydrate call. This is browser storage I/O through a library that is not part of this model; only the `hasHydrated` flag setter is kept.
- `crypto.randomUUID()`: a foreign randomness call. The model takes the id as the parameter `freshId` and requires that it does not occur in the list yet.
- Floating-point amounts: amounts and the salary are exact integers, so IEEE-754 rounding of sums is not modelled.
- Explicit `undefined` fields: a `Partial` patch whose field is present but `undefined` overwrites that field under object spread. The model's `Patch` only tells carried fields from absent ones.
- Extra runtime properties: object spread copies any own property, and the model has only the four typed fields.
- The React components (`useState` drafts, rendering, subscriptions), `toLocaleString` and `toFixed(1)` formatting, the percentage breakdowns and `Number(x) || 0` input coercion. These are presentation and floating-point parsing. Only the two commit checks of the forms are kept, in `CommitGuards`.
