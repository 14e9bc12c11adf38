# BokslAccountBook transaction ledger, in Dafny

This project models the part of the BokslAccountBook desktop account book that
keeps account balances in step with the recorded transactions, and proves
properties of that model.

A transaction is a spending, an income or a transfer. It moves an amount, less
or plus a fee, into or out of one or two accounts, in one currency. The
transaction service stores these records. It keeps a balance table keyed by
(account, currency). Each operation runs inside one database transaction:

- `save` stores a row, then applies the row's insert effects.
- `update` undoes the stored row's effects, overwrites the row, then applies
  the new form's effects.
- `delete` removes the row, then undoes its effects.

The second part is the renderer's code lookup table. It is a fixed list of
main codes, each with numbered sub-codes, plus three lookups over it.

Files:

- `wrappers.dfy`: the `Option`, `Result` and `Outcome` values that stand for
  `undefined` and for thrown errors.
- `sums.dfy`: finite sums over map entries. They are used to state the ledger
  invariant and the per-currency totals.
- `transaction_service.dfy` (module `Ledger`): the records, the per-kind
  balance rules, the `TransactionService` class and the search filter.
- `code_mapper.dfy` (module `CodeMapper`): the code table and its lookups.

Modelling choices:

- **Amounts.** Amounts are integers in minor currency units. The source uses
  JavaScript numbers.
- **Kinds.** `Kind` has an `Other(code)` variant whose code is any string
  other than SPENDING, INCOME and TRANSFER. A kind outside the three can
  therefore be represented, and the "unknown kind" error of both balance
  switches can be reached.
- **Currencies.** `Currency` is KRW, USD or JPY, as in
  `src/renderer/common/RendererTypes.ts`. `src/renderer/common/BokslTypes.ts`
  names the first kind EXPENSE. The service switches on SPENDING, so the model
  follows the service.
- **Accounts.** An account is its sequence number. A form holds 0 when no
  account was chosen, and the balance update accepts any number, 0 included.
- **Balance update (assumption).** `AccountService.updateBalance` is not part
  of this model. It is ASSUMED to add the delta to the (account, currency)
  entry, reading a missing entry as 0. The entry then stays in the table, even
  at 0. This is `Ledger.UpdateBalance`.
- **Atomic scope.** `Save`, `Update` and `Delete` work on copies of the two
  tables and commit them only when every step succeeded. This is how the
  transaction callback's rollback is modelled: the row written by `update`
  before a failing insert switch is discarded along with the reverse updates.
- **Reads inside the scope.** The stored row that `update` and `delete` read
  is treated as read inside the atomic step.
- **New ids.** The storage assigns a new row the id `nextSeq`, a counter above
  every stored id. `Save` returns that id so that callers can refer to the
  row. The source's `save` returns nothing.
- **Ledger invariant.** `TransactionService.Valid()` keeps the ledger invariant: every
  balance equals its opening value plus the net effect of all stored rows.
  `Save`, `Update` and `Delete` preserve it. The opening balances are a ghost
  field.
- **Returned view.** `mapEntityToRes` copies the row's fields under the same
  names. The `as ResTransactionModel` in the source is a type assertion only.
  It renames nothing at run time, so the view keeps the entity's field names.
- **Code table.** `GetCodeValue`, `GetSubCodeList` and `GetCodeList` take the
  table as a parameter. `CodeRegistry` holds the module-level variable, `None`
  until `LoadCodeMapping` runs, and its `Lookup…` methods apply those functions
  to the table it holds. Values cannot alias, so the deep copies
  (`_.cloneDeep`) are the values themselves.

## Model

| member | source | states |
|---|---|---|
| `Ledger.MapEntityToRes` | src/main/service/TransactionService.ts:20-34 | The view carries every field of the stored row under the same name and with the same value: id, category, kind, both accounts, attribute, currency, amount, date, note and fee. |
| `Ledger.MapEntityToResInjective` | src/main/service/TransactionService.ts:20-34 | The returned view loses no field of the stored row: two rows give equal views exactly when they are equal. |
| `Ledger.TransactionService.Get` | src/main/service/TransactionService.ts:36-42 | Succeeds exactly when the id is stored, with the row's fields copied. Otherwise it fails with the not-found error. |
| `Ledger.TransactionService.FindList` | src/main/service/TransactionService.ts:44-74 | Returns exactly the views of the stored rows that match the date range, the kinds, the optional currency and the optional account. Each is returned once, later date first, then larger id first. |
| `Ledger.InsertOrdered` | src/main/service/TransactionService.ts:68 | Inserting a row into a list ordered by (date, id), both descending, keeps it ordered. The result holds exactly the old elements plus the new one. |
| `Ledger.NewRow` | src/main/service/TransactionService.ts:156-167 | The saved row carries the assigned id and the form's kind, accounts, currency, amount and fee. |
| `Ledger.TransactionService.Save` | src/main/service/TransactionService.ts:154-174 | Fails, with both tables and the id counter unchanged, exactly when the kind is unknown. Otherwise it stores the new row under a fresh id and applies the form's insert effects. It keeps the ledger invariant. |
| `Ledger.UpdatedRow` | src/main/service/TransactionService.ts:185-197 | The updated row keeps the stored transactionSeq, and every other field comes from the form. It equals the row that saving the form under that id would create. |
| `Ledger.TransactionService.Update` | src/main/service/TransactionService.ts:176-203 | Fails with not-found on a missing id. Fails with unknown-kind when the stored row's or the form's kind is unknown. Any failure leaves both tables unchanged. On success it overwrites the row and sets the balances to the stored row's delete effects followed by the form's insert effects. It keeps the ledger invariant. |
| `Ledger.TransactionService.Delete` | src/main/service/TransactionService.ts:205-214 | Fails with not-found on a missing id, or with unknown-kind for a stored unknown kind, leaving both tables unchanged. Otherwise it removes the row, applies its delete effects and keeps the ledger invariant. |
| `Ledger.UpdateBalance` | src/main/service/TransactionService.ts:219-224 | The assumed balance update adds the delta to one (account, currency) entry, creating it from 0 if absent. No other entry changes. |
| `Ledger.ApplyEffectsPointwise` | src/main/service/TransactionService.ts:234-247 | A run of balance updates changes each pair by exactly the sum of its deltas. It adds entries for the touched pairs and for no others. |
| `Ledger.InsertEffects` | src/main/service/TransactionService.ts:216-251 | The insert effects fail with unknown-kind exactly when the kind is outside SPENDING, INCOME and TRANSFER. They only touch the record's currency. |
| `Ledger.DeleteEffects` | src/main/service/TransactionService.ts:253-284 | The delete effects fail with unknown-kind exactly when the stored kind is outside the three kinds. |
| `Ledger.DeleteNegatesInsert` | src/main/service/TransactionService.ts:216-284 | The delete effects of a movement are its insert effects with every sign flipped, and they fail in the same cases. |
| `Ledger.NetNegated` | src/main/service/TransactionService.ts:253-284 | Flipping every sign negates the net change to each pair. |
| `Ledger.TouchedNegated` | src/main/service/TransactionService.ts:253-284 | Flipping every sign leaves the set of touched pairs unchanged. |
| `Ledger.ApplyNegatedRestores` | src/main/service/TransactionService.ts:216-284 | Applying effects and then their negation restores every balance. The only entries added are zero entries for pairs that had none. |
| `Ledger.UpdateBalanceForInsert` | src/main/service/TransactionService.ts:216-251 | The sequential balance updates fail exactly on an unknown kind. Otherwise they give the balances after the form's insert effects. |
| `Ledger.UpdateBalanceForDelete` | src/main/service/TransactionService.ts:253-284 | The reverse updates fail exactly on a stored unknown kind. Otherwise they give the balances after the stored row's delete effects. |
| `Ledger.SpendingInsert` | src/main/service/TransactionService.ts:218-225 | A spending takes amount plus fee from the pay account in the record's currency. No other entry changes. That currency's total falls by amount plus fee, and other currencies' totals are unchanged. |
| `Ledger.IncomeInsert` | src/main/service/TransactionService.ts:226-233 | An income adds amount minus fee to the receive account. No other entry changes. Only that currency's total moves, by amount minus fee. |
| `Ledger.TransferInsert` | src/main/service/TransactionService.ts:234-247 | A transfer takes amount plus fee from the pay account and gives amount to the receive account (net minus fee when they are the same account). The currency's total falls by exactly the fee. |
| `Ledger.CurrencyTotalAfterEffects` | src/main/service/TransactionService.ts:216-251 | The sum of all balances in a currency changes by exactly the sum of the deltas in that currency. |
| `Ledger.UpdateIsReverseThenForward` | src/main/service/TransactionService.ts:176-203 | After an update, every balance equals its old value minus the stored row's insert effects plus the form's insert effects. |
| `Ledger.SaveThenDeleteRestores` | src/main/service/TransactionService.ts:154-214 | Saving a form under a fresh id and then deleting that id gives back the record table and every balance. |
| `CodeMapper.CodeRegistry.LoadCodeMapping` | src/renderer/mapper/CodeMapper.ts:20-141 | Installs the fixed table of seven main codes and their sub-codes, which has no duplicate codes or numbers. The registry then holds either nothing or that table. |
| `CodeMapper.CodeRegistry.LookupCodeValue` | src/renderer/mapper/CodeMapper.ts:143-147 | On the loaded table, a name is returned exactly when the installed table holds that (main code, number, name) entry. |
| `CodeMapper.CodeRegistry.LookupSubCodeList` | src/renderer/mapper/CodeMapper.ts:149-155 | On the loaded table, gives the sub-code list of the installed main code, or the empty list when no main code matches. |
| `CodeMapper.CodeRegistry.LookupCodeList` | src/renderer/mapper/CodeMapper.ts:157-159 | On the loaded table, gives the whole installed table. |
| `CodeMapper.InstalledCodesUnambiguous` | src/renderer/mapper/CodeMapper.ts:20-141 | In the installed table no two main codes are equal, and no two sub-codes of one main code share a number. |
| `CodeMapper.FirstIndex` | src/renderer/mapper/CodeMapper.ts:144 | The search that `find` performs stops at the first element that satisfies the test, or runs past the end when none does. |
| `CodeMapper.GetCodeValue` | src/renderer/mapper/CodeMapper.ts:143-147 | Gives None when no main code matches, or when the first matching main code has no sub-code with that number. Otherwise it gives the name of the first such sub-code. |
| `CodeMapper.GetSubCodeList` | src/renderer/mapper/CodeMapper.ts:149-155 | Gives the empty list when no main code matches. Otherwise it gives the sub-code list of the first matching main code. |
| `CodeMapper.GetCodeList` | src/renderer/mapper/CodeMapper.ts:157-159 | Gives a value equal to the whole table. |
| `CodeMapper.CodeValueInSubCodeList` | src/renderer/mapper/CodeMapper.ts:143-155 | A sub-code value is found exactly when the list `getSubCodeList` gives for that main code has an entry with that number. The entry with that number and the returned name is in that list. |
| `CodeMapper.UnambiguousLookup` | src/renderer/mapper/CodeMapper.ts:143-147 | In a table without duplicate codes or numbers, a lookup returns a name exactly when the table holds that (main code, number, name) entry anywhere. |

## Left out

- Storage failures: the model has no storage errors. The rollback is modelled for the errors the service throws itself (not-found, unknown kind), and each operation's contract states that any failure leaves both tables unchanged.
- Database plumbing, the repository, and the isolation level of the storage are not modelled. `src/main/config/AppDataSource.ts` is not part of this model.
- `AccountService.updateBalance` is not part of this model; its behaviour is the assumption stated above.
- Date formatting with `moment`: dates are day ordinals that are taken as already normalised.
- `findList`: the note filter (`LIKE` with wildcard escaping) and the SQL query itself are left out; a search with an empty kind set simply matches nothing.
- `getMonthlySummary`, `getMonthlyAmountSum` and `findCategoryByNote`: SQL grouping, the wall clock and date formatting, outside the balance engine.
- Trade and exchange events, whose balance logic is not in these files.
- Before `loadCodeMapping` runs, the source's lookups fail on an undefined table; the registry's lookups require a loaded table, so that failure is not represented.
- `CodeMapper.GetCodeList`: its only promise is equality with the table, since copies of values cannot be told apart; independence of later edits follows from value semantics and is not a separate statement.
- `src/main/service/CodeService.ts` and the React components are outside this model.
