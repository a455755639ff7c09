# Budget management: a verified model of its stock ledger and form rules

This project models a small Remix/Prisma application in Dafny. Users keep tools, materials and
budgets in it. A budget is a list of materials with quantities. It has a sales price and a status,
and a "confirmed" budget (status 2, "Confirmado", in the seeded status table) is a sale.

The model covers the following parts:

- **Stock ledger** (`app/models/budget.server.ts`), module `Ledger`.
  - A `Store` class holds three tables: material rows with their stock counters, budget rows, and the lines of each budget.
  - createBudget, updateBudget, deleteBudget and updateStatusBudget are methods. Each one is a single atomic step: it fails and changes nothing, or it applies every write of its transaction.
  - Stock effects are stated through `Demand` (the total quantity per material) and the `Debited` and `Credited` maps.
  - updateBudget's stock adjustment is modelled as written. Only materials that appear in both the old and the new list are adjusted, by the new quantity minus the first old quantity. A removed or added material keeps its stock.
  - Nothing keeps stock non-negative.
  - The budget list and the sales list are the user's non-confirmed and confirmed budgets, newest id first.
- **Quote builder** (`app/routes/budgets.new.tsx`), module `QuoteBuilder`.
  - The server action pairs material ids with quantities and runs its four checks in order.
  - The page state is a class that holds the chosen materials. The handlers add a material, delete one and cap the typed quantity, and the page shows the total.
  - The selected material is looked up by the first character of its id, because the source destructures a string, so selecting material "12" finds material 1.
- **Search and pagination** (`app/routes/tools._index.tsx`), module `ToolSearch`. This covers the case-insensitive name filter, the page count `ceil(n / rowsPerPage)`, the page window with JavaScript `slice` semantics, and the search/clear handlers.
- **List pages** (`app/routes/budgets._index.tsx`, `app/routes/sales._index.tsx`), module `ListPages`. This covers the row loop that adds up the cost, the profit, the status-colour table, and the detail and delete handlers. Both files have the same code.
- **Form actions**. Each is a guard chain tied to the reference `Guards.FirstViolation` (the message of the first rule that fails):
  - `ToolForm` (`app/routes/tools.new.tsx`, including the total preview);
  - `MaterialForm` (`app/routes/materials.new.tsx`);
  - `Login` (`app/routes/_auth.login.tsx`);
  - `UserForm` (`app/routes/users.new.tsx`).
- **Oracles and inputs**:
  - `validateEmail`, `verifyLogin` and `getUserByEmail` are function-valued parameters.
  - `safeRedirect` and `requireUserId` are represented by the values they return.
  - Form fields are `Option<string>`, with None meaning missing or not a string. Numeric fields are integers after coercion.

## Model

| member | source | states |
|---|---|---|
| Ledger.Store.Debit | app/models/budget.server.ts:96-107 | one stock decrement per line, in line order, leaves exactly the table `Debited(old, lines)` |
| Ledger.Store.Credit | app/models/budget.server.ts:220-231 | one stock increment per line, in line order, leaves exactly `Credited(old, lines)` |
| Ledger.DebitedStock | app/models/budget.server.ts:96-107 | a debit changes only stock, lowering each material by its total demand in the lines; a material no line names is unchanged |
| Ledger.StockMayGoNegative | app/models/budget.server.ts:96-107 | taking 8 units of a material with stock 5 leaves stock −3: there is no lower bound |
| Ledger.Store.CreateBudget | app/models/budget.server.ts:73-125 | succeeds exactly when every entry names an existing material. On success it debits the stock by the entries, creates a budget with the next id, status 1 and the given name, price and owner, and gives it exactly the entries as lines, in order. A failure leaves every table as it was |
| Ledger.Carried | app/models/budget.server.ts:162-180 | the decrements updateBudget issues come from new lines whose material is also in the old list, never more than the new list has |
| Ledger.CarriedDemand | app/models/budget.server.ts:162-180 | the net decrement of material k is 0 when k is not in the old list, and otherwise its new demand minus the first old quantity once per new line naming k |
| Ledger.UpdateAdjustment | app/models/budget.server.ts:162-180 | a material in only one of the two lists is not adjusted; one listed once in each changes by old − new |
| Ledger.RemovedMaterialNotRestored | app/models/budget.server.ts:162-164 | removing a material from a budget does not return its quantity to stock |
| Ledger.AddedMaterialNotTaken | app/models/budget.server.ts:162-164 | adding a material to an existing budget does not take it from stock |
| Ledger.Store.UpdateBudget | app/models/budget.server.ts:127-205 | succeeds exactly when the budget exists and every new line's material exists. On success the stock is debited by `Carried(old, new)`, the budget gets the new name, price and owner, and its lines become exactly the new list. A failure changes nothing |
| Ledger.Store.DeleteBudget | app/models/budget.server.ts:207-234 | succeeds exactly when the budget exists. It then credits the stock with the budget's lines and removes the budget and its lines. A failure changes nothing |
| Ledger.CreditCancelsDebit | app/models/budget.server.ts:220-231 | crediting the lines that were debited restores every material row |
| Ledger.CreateThenDelete | app/models/budget.server.ts:207-234 | deleting a budget right after creating it restores the stock, budget and line tables |
| Ledger.Store.UpdateStatusBudget | app/models/budget.server.ts:240-249 | sets the status of an existing budget and changes nothing else; it fails for a missing id |
| Ledger.Newest | app/models/budget.server.ts:21-23 | the selected ids, strictly decreasing, each one selected, and every selected id listed |
| Ledger.Store.BudgetListIds | app/models/budget.server.ts:15-23 | the user's budgets with status ≠ 2, in strictly decreasing id order |
| Ledger.Store.SalesListIds | app/models/budget.server.ts:37-43 | the user's budgets with status 2, in strictly decreasing id order |
| Ledger.Store.BudgetListItems | app/models/budget.server.ts:5-25 | row i is `Item` of the i-th listed id, so the rows are the user's non-confirmed budgets, newest id first, each with joined lines |
| Ledger.Store.SalesListItems | app/models/budget.server.ts:27-45 | row i is `Item` of the i-th listed id, so the rows are the user's confirmed budgets, newest id first, each with joined lines |
| Ledger.Store.ListsPartition | app/models/budget.server.ts:15-43 | each budget of a user is on exactly one of the two lists, and the lists hold nothing else |
| Ledger.Join | app/models/budget.server.ts:8-12 | each line carries its own material row, in line order |
| Ledger.Store.Item | app/models/budget.server.ts:58-70 | the budget row's id, name, sales price, status and owner, with lines `Join(materials, lines[id])`: one joined line per stored line, in order |
| Ledger.Store.Items | app/models/budget.server.ts:5-25 | the rows of the given ids, in that order |
| Ledger.Store.GetBudgetItem | app/models/budget.server.ts:47-71 | a missing id is an error. Otherwise it returns the budget with that id, or nothing if there is none; the owner is not checked |
| QuoteBuilder.Zip | app/routes/budgets.new.tsx:44-53 | one entry per material: the i-th id with the i-th quantity, absent when the quantity list is shorter |
| QuoteBuilder.Action | app/routes/budgets.new.tsx:35-105 | answers 400 exactly when a check fails, with the first failing check's title (name, materials, quantities, count mismatch). Otherwise createBudget receives every material paired with its quantity, followed by a redirect to /budgets |
| QuoteBuilder.SelectionKey | app/routes/budgets.new.tsx:216 | the key is the digit value of the selection's first character; a blank first character gives 0, any other character and an empty selection give NaN |
| QuoteBuilder.FindCatalog | app/routes/budgets.new.tsx:225 | the first loader row with the key's id, found exactly when one exists |
| QuoteBuilder.TwoDigitIdSelectsOther | app/routes/budgets.new.tsx:216-225 | selecting material "12" looks up material 1 |
| QuoteBuilder.ValidationErrors | app/routes/budgets.new.tsx:266-283 | "Selecciona un material" iff no material, "Ingresa la cantidad" iff no quantity, in that order; none exactly when both are given; never more than these two |
| QuoteBuilder.NegativeQuantityAccepted | app/routes/budgets.new.tsx:332-334 | the quantity cap has no lower bound: a negative value is kept when the stock is positive |
| QuoteBuilder.NewBudgetPage.HandleSelectionChange | app/routes/budgets.new.tsx:261-264 | the chosen value becomes both the selection and the material |
| QuoteBuilder.NewBudgetPage.Stock | app/routes/budgets.new.tsx:199-203 | the stock of a loader row whose id is the selection key, present exactly when such a row exists |
| QuoteBuilder.NewBudgetPage.OnQuantityChange | app/routes/budgets.new.tsx:329-337 | the typed value is kept only when the stock is known, non-zero and not exceeded; otherwise the quantity stays as it was |
| QuoteBuilder.NewBudgetPage.HandleAddMaterial | app/routes/budgets.new.tsx:209-247 | validation errors, an id already listed or an id missing from the loader data leave everything unchanged, each with its own outcome. Otherwise exactly one row `{id, name, unitPrice, quantity}` is appended, selection, material and quantity are cleared, and the listed ids stay distinct and backed by loader rows |
| QuoteBuilder.Without | app/routes/budgets.new.tsx:253-255 | keeps exactly the rows whose id differs |
| QuoteBuilder.WithoutAbsent | app/routes/budgets.new.tsx:254 | deleting an id nobody has leaves the list as it was |
| QuoteBuilder.WithoutRemovesOne | app/routes/budgets.new.tsx:253-255 | with distinct ids, deleting removes exactly that row and keeps the others in order |
| QuoteBuilder.WithoutKeepsDistinct | app/routes/budgets.new.tsx:254 | deleting keeps the ids distinct |
| QuoteBuilder.NewBudgetPage.HandleDeleteMaterial | app/routes/budgets.new.tsx:253-255 | the list becomes the filtered list, and the page invariant is kept |
| QuoteBuilder.Rows | app/routes/budgets.new.tsx:156-179 | one table row per chosen material, in order, with subtotal quantity × unit price |
| QuoteBuilder.Reduce | app/routes/budgets.new.tsx:285-288 | the left fold from any start value is that value plus the sum of the row subtotals |
| QuoteBuilder.Total | app/routes/budgets.new.tsx:285-288 | the total equals the sum of the row subtotals |
| QuoteBuilder.QuantityAccepted | app/routes/budgets.new.tsx:332-334 | a value is accepted only when the stock is known and non-zero and the value does not exceed it; any such value is accepted; an empty value is accepted exactly when the stock is positive |
| QuoteBuilder.NewBudgetPage.constructor | app/routes/budgets.new.tsx:117-123 | the page starts with no chosen materials, no selection, no material and no quantity, over the loader rows |
| ToolSearch.LowerChar | app/routes/tools._index.tsx:110 | maps upper-case letters (ASCII and Latin-1) to lower case, 32 code points up, and leaves other characters alone |
| ToolSearch.Lower | app/routes/tools._index.tsx:110 | lower-cases each character and keeps the length |
| ToolSearch.LowerIdempotent | app/routes/tools._index.tsx:110 | lower-casing twice is lower-casing once |
| ToolSearch.MatchesIgnoresCase | app/routes/tools._index.tsx:109-111 | the test is the same on the lower-cased name and filter |
| ToolSearch.Filter | app/routes/tools._index.tsx:109-111 | keeps exactly the items whose lower-cased name contains the lower-cased filter |
| ToolSearch.FilterAppend | app/routes/tools._index.tsx:109-111 | filtering distributes over concatenation, so the filter keeps the list order |
| ToolSearch.FilterKeepsAll | app/routes/tools._index.tsx:109-111 | a filter that every item passes returns the list unchanged |
| ToolSearch.FilteredTools | app/routes/tools._index.tsx:105-115 | an empty filter gives the whole list in its order; otherwise it is `Filter` of the list, exactly the matching items in list order |
| ToolSearch.EmptyFilterSameAsFiltering | app/routes/tools._index.tsx:103-115 | the shortcut for an empty filter agrees with filtering by "" |
| ToolSearch.Pages | app/routes/tools._index.tsx:117 | for n items and r > 0 rows per page, 0 pages when n = 0; otherwise (p − 1)·r < n ≤ p·r |
| ToolSearch.Slice | app/routes/tools._index.tsx:123 | for start ≤ end `slice` never returns more than end − start items, and for 0 ≤ start ≤ end it is the clamped window |
| ToolSearch.PageItems | app/routes/tools._index.tsx:119-124 | a page has at most r items: those at positions [(page − 1)·r, page·r) of the filtered list |
| ToolSearch.PagesUpToIsPrefix | app/routes/tools._index.tsx:119-124 | pages 1..k together are the first k·r items |
| ToolSearch.PagesCover | app/routes/tools._index.tsx:117-124 | pages 1..pages, concatenated, are exactly the filtered list |
| ToolSearch.PastLastPageEmpty | app/routes/tools._index.tsx:117-124 | a page number beyond the page count shows nothing |
| ToolSearch.ToolListPage.constructor | app/routes/tools._index.tsx:59-63 | first page, 5 rows per page (one of the select's options), empty filter |
| ToolSearch.ToolListPage.Filtered | app/routes/tools._index.tsx:105-115 | with no filter the listed rows are all loaded tools; with one they are `Filter` of the loaded tools; never a tool that was not loaded |
| ToolSearch.ToolListPage.Visible | app/routes/tools._index.tsx:119-124 | the shown rows are at most rowsPerPage tools from the loaded list |
| ToolSearch.ToolListPage.OnSearchChange | app/routes/tools._index.tsx:89-96 | a non-empty value becomes the filter and resets to page 1; an empty or missing value clears the filter and keeps the page |
| ToolSearch.ToolListPage.OnClear | app/routes/tools._index.tsx:98-101 | clears the filter, so the whole list is shown, and resets to page 1 |
| ToolSearch.ToolListPage.SetRowsPerPage | app/routes/tools._index.tsx:183-185 | the page size becomes the chosen value and the page number is kept |
| ToolSearch.ToolListPage.SetPage | app/routes/tools._index.tsx:204 | the page becomes the one chosen |
| ListPages.ChipColor | app/routes/budgets._index.tsx:130 | status 1 is primary, 2 is success and 3 is danger; any other id has no colour |
| ListPages.ChipColorInjective | app/routes/budgets._index.tsx:252 | different statuses in the table get different colours |
| ListPages.CostAppend | app/routes/budgets._index.tsx:119-123 | the cost of two groups of lines is the sum of their costs |
| ListPages.Cost | app/routes/budgets._index.tsx:119-123 | no lines cost 0, one line costs its unit price × quantity, and with non-negative prices and quantities the cost is non-negative, so the profit never exceeds the sales price |
| ListPages.BuildRow | app/routes/budgets._index.tsx:116-159 | one name and one quantity per line, in line order; cost = Σ unit price × quantity, profit = sales price − cost, colour from the status; app/routes/sales._index.tsx:123-166 builds the same row |
| ListPages.SalesRowsSuccess | app/routes/sales._index.tsx:136 | every row of the sales page gets the success colour |
| ListPages.BudgetRowsNotSuccess | app/routes/budgets._index.tsx:130 | no row of the budget page gets the success colour |
| ListPages.Find | app/routes/budgets._index.tsx:64 | the first listed budget with that id, found exactly when one exists |
| ListPages.ListPage.constructor | app/routes/budgets._index.tsx:45-49 | the page starts with no detail, no pending budget and the modal closed |
| ListPages.ListPage.HandleShowDetail | app/routes/budgets._index.tsx:58-65 | the id already shown closes the detail; any other id shows that budget if listed (the same toggle is at app/routes/sales._index.tsx:65-72) |
| ListPages.ListPage.HandleOpenModal | app/routes/budgets._index.tsx:67-70 | remembers the listed budget with that id and opens the modal |
| ListPages.ListPage.HandleCloseModal | app/routes/budgets._index.tsx:72-75 | forgets the pending budget and closes the modal |
| ListPages.ListPage.HandleConfirmDelete | app/routes/budgets._index.tsx:77-80 | submits the pending budget's id exactly when a budget is pending (the same rule is at app/routes/sales._index.tsx:84-87) |
| ListPages.ListPage.OnFetcherData | app/routes/sales._index.tsx:60-63 | a fetcher answer clears the pending budget |
| ListPages.ShowDetailTwice | app/routes/budgets._index.tsx:58-65 | pressing the detail button twice on one row, starting from a closed pane, leaves it closed |
| ListPages.CloseThenConfirm | app/routes/budgets._index.tsx:72-80 | after the modal is closed, confirming submits nothing |
| ToolForm.Action | app/routes/tools.new.tsx:20-66 | answers 400 exactly when a check fails, with the first failing title (name, quantity, unit price, total price). Otherwise createTool receives exactly the submitted values and the user is sent to /tools |
| ToolForm.TotalNotRecomputed | app/routes/tools.new.tsx:50-63 | a total differing from quantity × unit price is stored unchanged |
| ToolForm.Decimal | app/routes/tools.new.tsx:74 | a positive number prints as digits with no leading zero |
| ToolForm.DecimalRoundTrip | app/routes/tools.new.tsx:74 | reading the printed digits back gives the number |
| ToolForm.TotalPrice | app/routes/tools.new.tsx:72-77 | shows "0" exactly when quantity and price are not both positive; otherwise the digits of quantity × price |
| MaterialForm.Action | app/routes/materials.new.tsx:7-40 | answers 400 exactly when a check fails, with the first failing title (name, price, stock). Otherwise createMaterial receives the name, price, stock and user and the user is sent to /materials |
| Guards.Utf16Length | app/routes/_auth.login.tsx:43 | `password.length`: between one and two units per character, zero only for the empty string, one per character when none lies above U+FFFF |
| Login.Loader | app/routes/_auth.login.tsx:16-20 | a signed-in user is redirected to "/", anyone else gets the page |
| Login.Action | app/routes/_auth.login.tsx:22-65 | a bad email comes before any password message; then "required", then "too short" (length counted in UTF-16 units). The email message goes under the email key and the password messages under the password key. A rejected login gives the combined message under the email key. Otherwise a session for the verified user, with remember set iff the box was "on" |
| Login.AstralPasswordLongEnough | app/routes/_auth.login.tsx:43-48 | four emoji are eight UTF-16 units, so such a password passes the length check |
| Login.NoLoginAttemptOnBadInput | app/routes/_auth.login.tsx:29-48 | input that fails a check gets the same answer whatever verifyLogin would say |
| UserForm.Action | app/routes/users.new.tsx:27-70 | email, then required password, then length ≥ 8 in UTF-16 units, then an unused email, each message under its own key. A user is created and redirected exactly when all four hold |

## Left out

- Rendering, toasts, NextUI components and the 2-second timer that closes the delete modal are not modelled. They are display only. The `label` memo of the new-budget page is also display only.
- The tool list's own delete modal handlers are not modelled. They match the ones modelled for the two budget pages.
- Sessions, cookies, bcrypt, `safeRedirect` and `requireUserId` are left out. Their results are taken as parameters.
- `validateEmail`, `verifyLogin` and `getUserByEmail` are uninterpreted function parameters.
- JavaScript number coercion is left out. Form numbers and id strings are integers already, a missing numeric field is 0, and NaN, fractions and exponent notation are not represented. A NaN field would pass the forms' `<= 0` guards; that path is not modelled.
- Integers are unbounded. The database column width and float precision are not modelled.
- Prisma's referential checks on the user and status foreign keys, the composite key of budget lines, and `assignedAt` timestamps are left out. A line's material existing is the only integrity failure modelled.
- Ledger.Store.CreateBudget: the new budget's status is taken to be 1. That is the schema default, which is not part of this model. The action calls createBudget with no sales price, which the model passes in as a parameter.
- Ledger.Store.DeleteBudget: the budget's lines are taken to go with it by cascade. deleteBudget reads the lines before its transaction, and concurrent requests are not modelled, so the read and the transaction are one step here.
- Ledger.Store.UpdateBudget: its `oldMaterials` argument is trusted as given. The model does not require it to match the stored lines, and neither does the source.
- Guards.Utf16Length counts a character above U+FFFF as two units, as JavaScript's `length` does; unpaired surrogates are not represented.
- Lower-casing covers ASCII and the Latin-1 letters only. Other Unicode case mappings are not modelled.
- ToolSearch.Pages: a page size of 0 gives `Infinity` or `NaN` in the source. That case is excluded here; the select offers only 5, 10, 20, 30 and 50.
- Ledger.Join: a budget's lines are returned in the order they were created. The source's query sets no order for them, so the database does not promise one.
- The material table's columns other than name, unit price and stock are left out.
