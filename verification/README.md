# Personal finance tracker — ledger model

This project models the ledger of a browser-based personal finance tracker,
`app.js`. The tracker keeps six collections in memory: accounts,
categories, budgets, transactions (`txns`), debts and settings. Each form of
the page has a handler: `saveAccount`, `addCategory`, `saveBudget`,
`saveTransaction`, `saveTransfer`, `saveDebt` and `saveRepayment`. A handler
reads its fields and checks the required ones. If one is missing, it alerts
and returns without touching the state. Otherwise it pushes one record onto
one collection; a transfer pushes two. The page also shows two derived
figures: a balance summary (income minus expense) and, per debt, the sum
repaid. Import merges a parsed file into the state field by field. Clear-all
resets everything.

Modules, one per concern:

- `Results` (`results.dfy`): `Option` and `Result`. A handler's rejection is
  `Err(message)`, where the message is the text of its alert.
- `Text` (`text.dfy`): JavaScript's `trim` with its white-space set, the
  comma split, the subcategory list built from a field, and `escapeHtml`.
- `Ledger` (`ledger.dfy`): the records, the `State`, and one pure function
  `State -> Result<State>` per handler.
- `Summary` (`summary.dfy`): the balance summary and the repaid sum.
- `Storage` (`storage.dfy`): the export payload, the import merge, clear-all.
- `Session` (`session.dfy`): the state-changing handlers (the forms, import,
  clear-all and the cash-handling checkbox) as one state machine over a
  `Command`, plus invariants over whole runs of commands.

Some things the handlers get from the browser are parameters here:

- the random id from `uid()`;
- today's date, the default from `new Date()`;
- numbers already parsed, as `Number = NaN | Finite(real)`. JavaScript's
  `!amount` is exactly "NaN or zero" (`Truthy`).

A form element that is missing gives `undefined`, and every guard treats
that the same as an empty field, so fields are plain strings.

The model follows `app.js` as written. In particular:

- No handler changes an account balance. Accounts are created at 0.
- Budgets are appended, not replaced per category.
- A transfer has no fee and no check that source and destination differ.
- Debts have no remaining amount and no paid status.
- Import keeps, for each field, the old value unless the file provides one of
  the right shape. It is not an all-or-nothing replacement.

## Model

| member | source | states |
|---|---|---|
| Text.TrimIsFramed | app.js:195 | `trim` keeps one infix of its input and removes only white space before and after it |
| Text.TrimUnique | app.js:183 | trimming is fully determined: any infix framed by white space that has no white space at its ends equals `Trim` of the input |
| Text.TrimBlank | app.js:185 | the trimmed name is empty exactly when the field is all white space, so `!name` rejects exactly the blank names |
| Text.Split | app.js:197 | `split(',')` yields at least one piece; no piece contains a comma; joining the pieces with commas gives back the input |
| Text.SplitUnique | app.js:197 | any comma-free list of pieces that joins to the input is its split, so the split is determined by that property |
| Text.SplitAppend | app.js:197 | splitting `a + "," + b` gives the pieces of `a` followed by the pieces of `b` |
| Text.Subcategories | app.js:197 | every subcategory is non-empty, has no white space at either end, and contains no comma |
| Text.SubcategoriesOfOne | app.js:197 | a field without a comma gives its trimmed text, or no entry when it is blank |
| Text.SubcategoriesAppend | app.js:197 | order follows the input: the entries before a comma come first, followed by the entries after it |
| Text.EscapeHtml | app.js:127 | `null`/`undefined` give the empty string and a string gives its `Escape`; the output never contains `<`, `>`, `"` or `'` and is no shorter than the input |
| Text.EscapeEachChar | app.js:127 | each character is replaced in place by its entity: `&` `<` `>` `"` `'` by `&amp;` `&lt;` `&gt;` `&quot;` `&#39;`, every other character by itself |
| Text.EscapeKeepsPlainText | app.js:127 | text without the five special characters passes through unchanged |
| Text.EscapeRoundTrip | app.js:127 | escaping loses nothing: decoding the five entities gives back the input |
| Ledger.SaveAccount | app.js:182-190 | rejected with "Account name required" exactly when the trimmed name is empty; otherwise exactly one account is appended (trimmed name, given type, balance 0) and nothing else changes |
| Ledger.AddCategory | app.js:192-202 | rejected exactly when the trimmed name is empty; otherwise one category is appended, and its subcategories are the non-empty trimmed comma-separated entries of the field |
| Ledger.SaveBudget | app.js:204-213 | rejected exactly when the category is empty or the amount is NaN or 0; otherwise one budget is appended and nothing else changes |
| Ledger.SaveBudgetAppendsAgain | app.js:209 | saving a budget for a category adds one more entry for it and keeps every earlier entry in place, so there is no upsert |
| Ledger.SaveTransaction | app.js:215-240 | type defaults to expense, date to today; rejected for a NaN or zero amount ("Enter an amount"), else for a non-transfer type with no account or category; otherwise exactly one transaction is appended carrying every form field: id, type, date, amount, account, category, subcategory, notes, brand, items, the three flags and the installments |
| Ledger.SaveTransfer | app.js:242-255 | rejected exactly when source, destination or amount is missing; otherwise exactly two transfer-typed records are appended, `amount` on the source and `-amount` on the destination, which sum to zero; both have the same date, empty category and subcategory, and notes "Transfer to <to>. " / "Transfer from <from>. " followed by the entered notes |
| Ledger.TransferToSameAccountAccepted | app.js:248 | a transfer from an account to itself is accepted; there is no from/to check |
| Ledger.SaveDebt | app.js:257-267 | rejected exactly when the trimmed name is empty or the amount is NaN or 0; otherwise one debt with no repayments is appended, its rate stored as parsed |
| Ledger.SetCashHandling | app.js:165-169 | the cash-handling setting becomes the checkbox's state, and the other five collections are unchanged |
| Ledger.FindDebt | app.js:275 | `find` gives the first debt with the id, or nothing exactly when no debt has it |
| Ledger.SaveRepayment | app.js:269-282 | rejected when id or amount is missing, and with "Debt not found" exactly when no debt has the id; otherwise one repayment is appended to the first matching debt, and every other debt and field is unchanged |
| Summary.TotalIsIncomeMinusExpense | app.js:107-111 | the summary total equals the income amounts minus the expense amounts; every other type, transfer included, contributes nothing |
| Summary.TotalAppend | app.js:107-111 | the total of appended transactions is the old total plus the total of the new ones |
| Summary.TransferKeepsTotal | app.js:249-251 | a successful transfer leaves the summary total unchanged |
| Summary.SaveTransactionMovesTotal | app.js:107-111 | a saved transaction moves the total by +amount for income, by -amount for expense (also the default type), and not at all for any other type |
| Summary.RepaymentRaisesRepaid | app.js:120 | a repayment raises its debt's repaid sum by exactly its amount and leaves every other debt's repaid sum unchanged |
| Storage.Export | app.js:285-287 | the export payload holds every collection, unchanged, as an array under its own key, and the settings as an object |
| Storage.Import | app.js:305-311 | an unparsable file or a JSON `null` is rejected with "Invalid file"; otherwise a collection is replaced only when its field is an array, and settings only by an object; every other collection keeps its value |
| Storage.ImportOfExport | app.js:306-311 | merging the parsed export payload reproduces the exported state, whatever state the importing device held before |
| Storage.ImportOfNothingKeeps | app.js:306-311 | a parsed value with no usable field, such as a bare number, is accepted and changes nothing |
| Storage.ImportIdempotent | app.js:306-311 | importing the same file twice gives the same state as importing it once |
| Storage.ImportFieldsIndependent | app.js:306-311 | a field that is not an array (for settings, not an object) leaves its own collection untouched, whatever the other fields hold |
| Storage.ClearAll | app.js:327-339 | after a confirmed clear every list is empty and cash handling is off; when the confirmation is declined nothing changes |
| Storage.RestoreAfterClear | app.js:337 | a cleared device that merges the parsed export payload holds the exported state again |
| Session.RejectedExactlyWhenUnchanged | app.js:182-282 | for every `save*`/`add*` command, the state stays the same exactly when the handler rejects: a rejection changes none of the six collections, and an accepted command always changes the state |
| Session.BalancesStayZero | app.js:186 | over any run of commands without an import, every account balance stays 0 |
| Session.AppendingStepExtends | app.js:182-282 | a `save*`/`add*` command (not import, clear or the cash-handling toggle) only appends: no record moves or changes, except that a debt gains repayments at its end |
| Session.AppendingRunExtends | app.js:182-282 | the same holds for any run of commands without an import, a clear or a cash-handling toggle |

## Left out

- Rendering is not modelled: the DOM renderers, `fillSelect`, the modal `show`/`hide` wiring, `resetForm`, `loadSubcategories`, `handleTypeChange` and `initialRender`. They are UI and do not change the state.
- Strings are sequences of Unicode code points, while JavaScript strings are UTF-16 code units. So a lone surrogate cannot be represented. `trim`, `split` and `replace` agree with the model on every well-formed string, so this only narrows the domain.
- `localStorage` is not modelled: not `read` with its JSON fallback, and not `write`, which swallows errors. This is persistence I/O. The state every handler leaves is what it would write.
- Import and export I/O is not modelled: `FileReader`, JSON text, `Blob`, the download link, and the early return of `importData` when no file was picked. Only the parsed document and the merge step are modelled.
- `uid()` and `new Date()` are parameters (the fresh ids and today's date), because they are randomness and the clock.
- Number parsing and formatting are not modelled: `parseFloat`, `parseInt(...) || 0` and `fmt`'s `toFixed`. Amounts are exact reals. IEEE double rounding and `Infinity` are not modelled.
- `Text.EscapeHtml` does not model `String(s)` for non-string arguments such as numbers. That would need JavaScript's number-to-string conversion.
- Imported records are typed here. The run-time guards for malformed records are therefore not modelled: `(d.repayments||[])`, `d.repayments = d.repayments || []`, and `+t.amount||0` on non-numeric amounts. Imported settings are seen only through their `cashHandling` flag.
- Storage.ImportOfExport: the round trip is stated for the parsed payload, not through JSON text. `JSON.stringify` writes a NaN debt rate as `null`, so such a rate does not survive a real export and import, while the model keeps it.
- Storage.Import: "Invalid file" here means that nothing changed. In the program, the same alert also follows a throw from `initialRender` on a malformed imported record, such as a `null` account. By then the merge and the storage writes have already happened. Imported records are typed in this model, so that path does not arise.
- The "Import complete" alert and the confirmation dialog of clear-all are not modelled. The dialog's answer is the `confirmed` parameter.
- `sw.js` (service-worker caching) and `pwa.js` (install banner, service-worker registration) are not modelled. They are network, cache and browser-API code outside the ledger.
