# El Super Café backend: a verified model

This project models the rules of the back end of a café point-of-sale system in Dafny and proves properties of that model. The back end takes orders at tables, deducts stock through recipes, keeps customer credit, syncs offline devices, runs cash shifts and checks staff logins. The model covers:

- the stock engine that checks and deducts inventory for a batch of order lines;
- price, cost and profit arithmetic;
- the customer credit ledger with oldest-first payment allocation;
- the device sync upserts and the sync log;
- shift activation and the active-shift rule;
- order line deletion, kitchen status updates and sale cancellation;
- the catalog of categories, products, recipes and tables;
- user accounts, PIN login and the role guards of the HTTP middleware;
- the shift and sales reports.

## Layout

There is one module per source file. Every module imports `Common` (JavaScript value coercions, `Option`, string helpers) and `Store` (the row types and the database).

| file | module | source file |
|---|---|---|
| common.dfy | Common | JavaScript semantics used throughout (`\|\|` defaults, `Number(…)`, `trim`, `toLowerCase`) |
| store.dfy | Store | the tables of the database, as one class `Db` |
| stock.dfy | Stock | src/services/StockService.js |
| pricing.dfy | Pricing | src/utils/math.js |
| credit.dfy | Credit | src/controllers/credit.controller.js |
| sync.dfy | Sync | src/controllers/sync.controller.js |
| shifts.dfy | Shifts | src/controllers/shifts.controller.js |
| sales.dfy | Sales | src/controllers/sales.controller.js |
| catalog.dfy | Catalog | src/controllers/catalog.controller.js |
| users.dfy | Users | src/controllers/users.controller.js |
| auth.dfy | Auth | src/controllers/auth.controller.js |
| access.dfy | Access | src/middleware/auth.middleware.js |
| reports.dfy | Reports | src/controllers/reports.controller.js |

## How the program is represented

- **The database.** The MySQL database is one object of class `Store.Db`. It has a field per table:
  - a `map` keyed by id for tables that are only read and written by id;
  - a `seq` for tables whose row order matters: recipes, sale lines, credit transactions and the sync log.
  - `INSERT … ON DUPLICATE KEY UPDATE` is a map update. `SELECT`, `COUNT` and `SUM` are functions over those fields.
- **Handlers.** Each HTTP handler is a module-level method that takes the database `db: Db` as a parameter. Its `modifies` clause names the fields the handler writes. It returns the status and body of the reply as a datatype, and its contract gives the whole new state.
- **Broadcasts.** Socket.io broadcasts are appended to `Db.events`, in the order the handler emits them. The credit handlers emit only through `req.io`, so their methods take a flag `hasIo` saying whether the request carries a Socket.io server. The other handlers call `socketEvents`, whose `broadcast` emits only after `socketEvents.initialize` has been called; the model assumes it has.
- **Numbers.** Money and stock are exact `real`s.
- **Loose JavaScript values.** Request fields whose JavaScript type matters (`typeof`, truthiness, `Number(…)`) are `Common.JsValue`. Optional fields are `Option`.
- **Foreign code becomes parameters.** Code the model cannot see is passed in as a function:
  - bcrypt hashing and comparison are `hash` and `compare`;
  - JWT signing and verification are `sign` and `decode`;
  - UUID generation is `newId` or `freshId`;
  - the clock is `now`.
- **Database refusals.** A database error that refuses one record of a sync batch is an oracle `fails: nat -> bool` over the record's position.
- **Report rows.** The report functions take the rows of the tables they read as sequences.

## Model

| member | source | states |
|---|---|---|
| Stock.FindModifier | src/services/StockService.js:34 | the index it returns is inside the modifier list |
| Stock.FindModifierSpec | src/services/StockService.js:34 | `find` returns the first entry naming the ingredient, and nothing exactly when no entry names it |
| Stock.MultiplierWithoutList | src/services/StockService.js:21-32 | absent modifiers, unparseable JSON and a parsed value that is not an array give multiplier 1 |
| Stock.MultiplierFirstMatchWins | src/services/StockService.js:34-46 | the first entry for the ingredient decides the multiplier; later entries are ignored |
| Stock.ModifierMultiplier | src/services/StockService.js:20-47 | without a modifier naming the ingredient the multiplier is 1; an `excluded` modifier for it makes the multiplier 0 |
| Stock.MultiplierNoEntry | src/services/StockService.js:36 | a list without an entry for the ingredient gives multiplier 1 |
| Stock.MultiplierExamples | src/services/StockService.js:38-43 | `extra` with count 1 doubles, `extra` without a usable count (missing or 0) doubles, `excluded` gives 0 |
| Stock.StockUnitsRoundTrip | src/services/StockService.js:139-142 | for a yield above 1, stock units times the yield give back the portions |
| Stock.StockUnitsNonNegative | src/services/StockService.js:139-142 | a non-negative need stays non-negative in stock units |
| Stock.RecipesOf | src/services/StockService.js:95-98 | the rows returned belong to the product and come from the recipe table |
| Stock.RecipesOfComplete | src/services/StockService.js:95-98 | every recipe row of the product is returned |
| Stock.Accumulate | src/services/StockService.js:65-119 | the requirement table's insertion order lists each ingredient exactly once |
| Stock.AddPortionsNeeded | src/services/StockService.js:106-116 | adding a need raises that ingredient's requirement by exactly that amount and leaves the others |
| Stock.AccumulatePortions | src/services/StockService.js:67-119 | each ingredient's accumulated requirement is the sum, over all lines of the batch, of quantity × recipe amount × modifier multiplier |
| Stock.IngredientErrorShape | src/services/StockService.js:133-159 | an ingredient error is raised exactly for a stock-managed ingredient whose stock is below the need in stock units; with a yield above 1 it reports portions and floor(stock × yield), otherwise stock units and `unit \|\| 'unid'`; it names the ingredient and the joined product names |
| Stock.DirectErrorsEmpty | src/services/StockService.js:83-92 | there are no direct-stock errors exactly when every stock-managed line's quantity is at most its product's stock |
| Stock.IngredientErrorsEmpty | src/services/StockService.js:122-160 | the ingredient pass reports nothing exactly when no accumulated requirement draws an error |
| Stock.IngredientCovered | src/services/StockService.js:136-144 | a stock-managed ingredient covers the batch's need exactly when its requirement draws no error |
| Stock.IngredientErrorsNoneIff | src/services/StockService.js:122-136 | checking the requirements in insertion order is checking every stock-managed ingredient in the table |
| Stock.ValidIffSufficient | src/services/StockService.js:162-165 | `isValid` holds exactly when every direct line and every stock-managed ingredient is covered by its stock |
| Stock.ValidationErrors | src/services/StockService.js:61-165 | the errors of the stock-managed lines come first, in line order, and the ingredient errors after them; an empty batch has no errors |
| Stock.UnknownProductLineIgnored | src/services/StockService.js:76-79 | a line whose product does not exist changes no error |
| Stock.AccumulateRecipeRows | src/services/StockService.js:100-117 | the inner loop folds the line's recipe rows into the requirements, skipping excluded ingredients |
| Stock.IngredientReport | src/services/StockService.js:123-159 | one requirement is checked against its ingredient's row as the error rule says |
| Stock.CheckIngredients | src/services/StockService.js:122-160 | the second pass yields the errors of the requirements in first-use order |
| Stock.ValidateStockForItems | src/services/StockService.js:61-166 | the errors are the direct errors followed by the ingredient errors; `isValid` holds exactly when there are none |
| Stock.DeductRow | src/services/StockService.js:196-202 | `GREATEST(0, stock - delta)` on one row; every other row is unchanged; a missing row is left alone |
| Stock.DeductRecipeRows | src/services/StockService.js:218-256 | the inner loop deducts each non-excluded recipe row, converted to stock units, from its ingredient |
| Stock.DeductStockForItems | src/services/StockService.js:174-259 | the product table ends as the line-by-line deduction of the batch |
| Stock.DeductAll | src/services/StockService.js:174-259 | only `stock_current` changes, and no row appears or disappears |
| Stock.DeductAllNonNegative | src/services/StockService.js:194-198 | non-negative stock stays non-negative |
| Stock.DeductAllUntouched | src/services/StockService.js:174-259 | a row named by no line and no recipe of a line keeps its stock |
| Stock.DeductRecipesFloor | src/services/StockService.js:233-250 | the recipe rows of a line lower an ingredient by their summed deduction, floored once at 0 |
| Stock.DeductLineFloor | src/services/StockService.js:191-256 | one line lowers a row by its line deduction, floored once at 0 |
| Stock.DeductAllFloor | src/services/StockService.js:174-259 | each row ends at max(0, old stock − the batch's total deduction from it) |
| Stock.DirectLinesCheckedOneByOne | src/services/StockService.js:83-92 | two one-unit lines of a product with stock 1 pass validation, together need 2, and leave the stock at 0 |
| Stock.ErrorLine | src/services/StockService.js:269-274 | a line starts with the ingredient's name when there is one, otherwise with the product's name, then ": necesitas " |
| Stock.IngredientLineNamesProduct | src/services/StockService.js:271 | an ingredient line ends with " (para <products>)" |
| Stock.ErrorLines | src/services/StockService.js:269 | one message line per error, in order |
| Stock.FormatValidationErrors | src/services/StockService.js:266-277 | the message is empty exactly when there are no errors, and otherwise starts with the "Stock insuficiente:" header; a single error gives the header followed by that error's line |
| Stock.FormatAppend | src/services/StockService.js:276 | one more error adds exactly one more line at the end of the message |
| Stock.ValidateAndDeductStock | src/services/StockService.js:286-302 | success exactly when the validation has no errors; on failure nothing is written and the errors and message are returned; on success the batch is deducted |
| Pricing.SafePrice | src/utils/math.js:7-10 | a value that converts to NaN prices at 0; any other value at the number it converts to |
| Pricing.SafePriceOfMissing | src/utils/math.js:7-10 | undefined, null and empty text price at 0 |
| Pricing.SafePriceOfWord | src/utils/math.js:7-10 | any text holding a character that no JavaScript numeric string contains (not a blank, digit, sign, point or ASCII letter), such as "12,50" or "$5", prices at 0 |
| Pricing.ItemTotalWithoutModifiers | src/utils/math.js:20-40 | a line without a parsable modifier array costs unit price × quantity |
| Pricing.ItemTotalAddModifier | src/utils/math.js:35-39 | each further modifier adds its sanitised price adjustment once per unit |
| Pricing.ItemTotal | src/utils/math.js:20-40 | a line without a parsed modifier array costs unit price × quantity, and a non-numeric quantity makes the line cost 0 |
| Pricing.SurchargeAppend | src/utils/math.js:35-37 | a further modifier raises the surcharge by its sanitised price adjustment |
| Pricing.OrderTotal | src/utils/math.js:47-53 | a missing (non-array) or empty order totals 0 |
| Pricing.LinesTotalAppend | src/utils/math.js:50-52 | the order total is additive over its lines |
| Pricing.SaleCost | src/utils/math.js:61-62 | a missing (non-array) list of items and an empty list both cost 0 |
| Pricing.CostMultiplier | src/utils/math.js:93-112 | the multiplier the cost loop computes inline equals the stock engine's modifier multiplier |
| Pricing.RecipeRowsCost | src/utils/math.js:89-136 | the inner loop sums cost_unit × recipe need in stock units over the recipe rows, skipping excluded and missing ingredients |
| Pricing.CalculateSaleCost | src/utils/math.js:61-141 | the loop computes the sale cost: stock-managed lines at cost_unit × quantity, recipe lines through their ingredients, unknown products at 0 |
| Pricing.LinesCostAppend | src/utils/math.js:66-138 | the sale cost is additive over its lines |
| Pricing.RecipeCostPricesDeduction | src/utils/math.js:122-134 | a line whose recipe rows all use one ingredient costs that ingredient's cost_unit times exactly the stock units the deduction removes from it |
| Pricing.RecipeCostNonNegative | src/utils/math.js:122-134 | non-negative costs and needs give a non-negative recipe cost |
| Pricing.GrossProfitProperties | src/utils/math.js:149-151 | profit plus sanitised cost is the sanitised total; a non-numeric total or cost counts as 0 |
| Pricing.GrossProfit | src/utils/math.js:149-151 | profit plus the sanitised cost is the sanitised total |
| Credit.OpenCharges | src/controllers/credit.controller.js:130-137 | every position listed is a charge or opening balance of the customer with something left to pay |
| Credit.OpenChargesSpec | src/controllers/credit.controller.js:130-137 | the open charges are listed oldest first, and none is missed |
| Credit.AllocateTotal | src/controllers/credit.controller.js:150-183 | the greedy split never exceeds the payment, uses all of it unless every charge is paid off, and allocates exactly min(payment, total owed) |
| Credit.AllocateShape | src/controllers/credit.controller.js:150-183 | each share is positive and at most its charge's remainder; every share but the last pays its charge off; stopping early means the payment is used up |
| Credit.Allocate | src/controllers/credit.controller.js:150-183 | a payment of 0 or less puts nothing on any charge |
| Credit.Settle | src/controllers/credit.controller.js:157-160 | lowering the charged positions keeps the ledger's length |
| Credit.Lowered | src/controllers/credit.controller.js:157-160 | `remaining = remaining - ?` lowers the remainder by the share |
| Credit.PaymentTxs | src/controllers/credit.controller.js:163-179 | one payment row per share |
| Credit.PaymentTxsLinked | src/controllers/credit.controller.js:164-174 | each payment row is a `payment` of its share, for the customer, linked to its charge, the abono movement and the shift |
| Credit.SettleEffect | src/controllers/credit.controller.js:157-160 | a charge that received a share is lowered by it; every other ledger row is unchanged |
| Credit.AbonoMovement | src/controllers/credit.controller.js:143-147 | the movement is an `abono` of the paid amount in the given shift |
| Credit.RegisterPayment | src/controllers/credit.controller.js:110-227 | 400 for a missing customer, shift, or non-positive amount; 500 for an unknown customer; otherwise the ledger is settled oldest first, one abono movement is recorded, the debt drops by the whole amount, and a payment event and a customer event are broadcast when the request carries a Socket.io server |
| Credit.ApplyPayment | src/controllers/credit.controller.js:122-218 | the transaction body of a payment, with the same effects as the successful case above |
| Credit.Debited | src/controllers/credit.controller.js:194-197 | the debt drops by the amount and nothing else of the customer changes |
| Credit.RecordAbono | src/controllers/credit.controller.js:144-147 | the movement table gains exactly the abono row |
| Credit.LowerDebt | src/controllers/credit.controller.js:194-197 | only the customer's row changes, to its debited form |
| Credit.SettleCharges | src/controllers/credit.controller.js:150-183 | the allocation loop leaves the ledger settled: charges lowered by their shares, then the payment rows appended |
| Credit.PaymentTotal | src/controllers/credit.controller.js:150-183 | the payment rows add up to min(amount, total owed on open charges), and the ledger grows by one row per payment |
| Credit.PaymentsLinked | src/controllers/credit.controller.js:163-179 | each payment row is positive and linked to the open charge it pays, in order |
| Credit.ChargesPaidOldestFirst | src/controllers/credit.controller.js:150-155 | no charge goes below zero, and every paid charge but the last one is paid off |
| Credit.SettlementFrame | src/controllers/credit.controller.js:157-160 | ledger rows that received no share are unchanged |
| Credit.CreateOpeningBalance | src/controllers/credit.controller.js:229-273 | 400 for a missing customer or non-positive amount; otherwise one `opening_balance` row whose remainder is the full amount, with the description defaulting to 'Saldo Inicial', the customer's debt raised by the amount (no row when the customer is unknown), and a customer event when the request carries a Socket.io server |
| Credit.OpeningBalanceIsLast | src/controllers/credit.controller.js:130-135 | a new opening balance is the newest open charge, paid after every older one |
| Credit.PatchedProperties | src/controllers/credit.controller.js:78-95 | an update never touches the id or the debt, applying it twice is applying it once, and an empty body changes nothing |
| Credit.Patched | src/controllers/credit.controller.js:78-95 | the update never changes the id or the debt, and a body with no field changes nothing |
| Credit.AssignmentsPatch | src/controllers/credit.controller.js:75-95 | the `SET` list built field by field applies the body's defined fields, is empty exactly when the body defines none (a `null` counts as defined), and writes NULL into the name, credit limit or active flag exactly when the body sends `null` for one of them |
| Credit.UpdateCustomer | src/controllers/credit.controller.js:69-108 | 400 'No fields to update' when no field is defined; 500 'Error updating customer' and no change when a stored customer would get a NULL name, credit limit or active flag; otherwise the customer row (if any) gets the defined fields, a `null` phone, address, identification or email clearing that field, and the updated row is broadcast when the request carries a Socket.io server |
| Sync.ShiftInserted | src/controllers/sync.controller.js:96-127 | a shift pushed for the first time is stored with every field of the record, `closed_by_*` kept only when truthy and 0 cash figures stored as null, and marked synced |
| Sync.ShiftResynced | src/controllers/sync.controller.js:103-111 | re-pushing a known shift rewrites only closer, end time, reported cash, difference and status; opener, start time and initial cash stay, and no other shift changes |
| Sync.UpsertShift | src/controllers/sync.controller.js:96-127 | afterwards the table holds the record's id and every id it held before; every other shift is unchanged and the pushed one is marked synced |
| Sync.ShiftIdempotent | src/controllers/sync.controller.js:96-127 | pushing the same shift record twice leaves the same table as pushing it once |
| Sync.SyncShift | src/controllers/sync.controller.js:96-127 | the shifts table becomes the upsert of the record into the old table |
| Sync.SaleResynced | src/controllers/sync.controller.js:144-152 | re-pushing a known sale rewrites total, method, status, observation, authoriser and print count; shift, table and creation time stay, and no other sale changes |
| Sync.UpsertSale | src/controllers/sync.controller.js:134-167 | afterwards the table holds the record's id and every id it held before; every other sale is unchanged and the pushed one is marked synced |
| Sync.SaleInserted | src/controllers/sync.controller.js:155-166 | a new sale keeps the record's id, total, status and time, falsy shift and table become null and a missing print count becomes 0 |
| Sync.SaleIdempotent | src/controllers/sync.controller.js:133-169 | pushing the same sale twice is the same as pushing it once |
| Sync.SyncSale | src/controllers/sync.controller.js:133-169 | the result is true exactly when the sale id was not stored before, and the table becomes the upsert of the record |
| Sync.ItemIndex | src/controllers/sync.controller.js:174-184 | the position of the first stored line with the id, or the length when there is none |
| Sync.ItemResynced | src/controllers/sync.controller.js:179-183 | re-pushing a known sale line changes only that line's quantity and unit price; every other line and every other field stay |
| Sync.UpsertItem | src/controllers/sync.controller.js:174-183 | the list grows by at most one line, every line with another id stays where and as it was, and afterwards the first line with the record's id is marked synced |
| Sync.ItemInserted | src/controllers/sync.controller.js:175-178 | a new sale line is appended with the record's sale, quantity, no modifiers and no preparation status |
| Sync.ItemIdempotent | src/controllers/sync.controller.js:174-194 | pushing the same sale line twice is the same as pushing it once |
| Sync.ItemIndexAt | src/controllers/sync.controller.js:174-184 | the first position holding the id is the one the lookup finds |
| Sync.SyncSaleItem | src/controllers/sync.controller.js:174-194 | the sale lines become the upsert of the record into the old lines |
| Sync.MovementResynced | src/controllers/sync.controller.js:271-275 | re-pushing a known movement rewrites only amount and description; type, shift and time stay, and no other movement changes |
| Sync.UpsertMovement | src/controllers/sync.controller.js:266-275 | afterwards the table holds the record's id and every id it held before; every other movement is unchanged and the pushed one is marked synced |
| Sync.MovementIdempotent | src/controllers/sync.controller.js:266-286 | pushing the same movement twice is the same as pushing it once |
| Sync.SyncMovement | src/controllers/sync.controller.js:266-286 | the movements table becomes the upsert of the record |
| Sync.Refused | src/controllers/sync.controller.js:28-33 | every index reported as an error is inside the batch and was refused by the database |
| Sync.RefusedSpec | src/controllers/sync.controller.js:24-34 | errors are reported in batch order, and every refused record is reported |
| Sync.OutcomeSpec | src/controllers/sync.controller.js:24-34 | synced plus errors is the batch size, and each error carries the id of the refused record in order |
| Sync.NoErrorsIffNoneRefused | src/controllers/sync.controller.js:24-34 | the error list is empty exactly when no record was refused, and a batch refused entirely syncs nothing |
| Sync.AllRefused | src/controllers/sync.controller.js:28-33 | when every record is refused every record is reported |
| Sync.BatchAllRefused | src/controllers/sync.controller.js:24-34 | a batch whose every record is refused leaves the table as it was |
| Sync.BatchStep | src/controllers/sync.controller.js:24-34 | one more record either adds an error with its id and leaves the table, or is upserted and counted as synced |
| Sync.ShiftBatch | src/controllers/sync.controller.js:24-34 | the shifts table is the in-order upsert of the accepted records, and the counts are those of the outcome |
| Sync.SaleBatch | src/controllers/sync.controller.js:37-47 | the sales table is the in-order upsert of the accepted records, and the counts are those of the outcome |
| Sync.ItemBatch | src/controllers/sync.controller.js:50-60 | the sale lines are the in-order upsert of the accepted records, and the counts are those of the outcome |
| Sync.MovementBatch | src/controllers/sync.controller.js:63-73 | the movements table is the in-order upsert of the accepted records, and the counts are those of the outcome |
| Sync.LogStatusCases | src/controllers/sync.controller.js:305 | the log status is success exactly without errors, partial exactly with errors and some records, failed exactly with errors and none |
| Sync.LogStatus | src/controllers/sync.controller.js:305 | the status is success exactly without errors and failed exactly with errors and no records |
| Sync.LogSync | src/controllers/sync.controller.js:291-312 | exactly one row is appended to the sync log, with the totals, the status and the details of the run |
| Sync.SyncFromDevice | src/controllers/sync.controller.js:9-91 | shifts, sales, lines and movements are each the batch upsert of what was sent, in that order, and one upload row is logged for the device |
| Sync.DeviceRunLogged | src/controllers/sync.controller.js:292-310 | every record is counted once as synced or as an error; the run is logged as success exactly when nothing was refused, failed only when nothing synced, and error details are kept exactly when it was not a success |
| Sync.SyncSales | src/controllers/sync.controller.js:318-373 | sales and lines are batch-upserted and one `sales` row is logged with the synced sales count |
| Sync.SyncMovements | src/controllers/sync.controller.js:379-422 | movements are batch-upserted and one `movements` row is logged |
| Sync.SalesLogStatus | src/controllers/sync.controller.js:356-360 | the sales log row is success exactly when no sale was refused, and is never failed (line errors are not looked at) |
| Sync.MovementsLogStatus | src/controllers/sync.controller.js:401-409 | the movements log row is success exactly when no movement was refused, and is never failed |
| Sync.DeductIngredients | src/controllers/sync.controller.js:244-258 | the catalog becomes the in-order deduction of quantity times each recipe row from its ingredient, floored at 0 |
| Sync.ProcessInventoryDeduction | src/controllers/sync.controller.js:201-261 | the catalog becomes the deduction for the sale's lines (unknown products skipped, stock-managed ones directly, others through their recipe), and a sale without lines changes nothing |
| Sync.IngredientsShape | src/controllers/sync.controller.js:251-257 | deducting ingredients changes only stock levels: the same rows with the same other fields |
| Sync.IngredientsNonNegative | src/controllers/sync.controller.js:253 | `GREATEST(0, …)` keeps every stock level at or above 0 |
| Sync.InventoryNonNegative | src/controllers/sync.controller.js:212-260 | the whole deduction keeps stock levels non-negative and changes nothing but stock levels |
| Sync.AsLineItems | src/controllers/sync.controller.js:203-206 | one deduction line per sale line |
| Sync.NoYieldKept | src/controllers/sync.controller.js:228-259 | a catalog without yields above 1 keeps that after a deduction |
| Sync.IngredientsAgree | src/controllers/sync.controller.js:244-258 | without yields, the recipe deduction here equals that of the stock service for the same line without modifiers |
| Sync.AgreeStep | src/controllers/sync.controller.js:248-256 | one recipe row here takes what one row of the stock service takes for a line without modifiers |
| Sync.InventoryIsDeductionWithoutModifiers | src/controllers/sync.controller.js:201-261 | without yields above 1, the sync deduction equals the stock service's deduction of the same lines without modifiers |
| Shifts.LatestExists | src/controllers/shifts.controller.js:21-22 | whenever some shift matches, one with the latest start time exists, so `ORDER BY start_time DESC LIMIT 1` has a row to return |
| Shifts.GetActiveShift | src/controllers/shifts.controller.js:12-77 | the caller's shift waiting for initial cash is returned whenever there is one; otherwise an open shift of anyone; otherwise none; the one returned starts no earlier than any other candidate |
| Shifts.ActivateSpec | src/controllers/shifts.controller.js:114-119 | activation sets the initial cash, status open and synced, keeps a start time already set and stamps the current time otherwise, and keeps every other field |
| Shifts.Activate | src/controllers/shifts.controller.js:114-119 | the shift becomes open and synced with the given initial cash, keeps its id, its opener and a start time already set, and always has a start time |
| Shifts.ActivateShift | src/controllers/shifts.controller.js:84-139 | 400 without an id or a numeric cash, 404 for an unknown shift, 400 when it is not waiting, 403 unless the caller opened it, each without a change; otherwise the shift is activated, one shift-change event is emitted and the reply echoes the shift with the new cash |
| Shifts.OnlyWaitingActivates | src/controllers/shifts.controller.js:104-119 | activating a waiting shift changes no other shift and moves it from the caller's waiting query to the open query |
| Sales.Affected | src/controllers/sales.controller.js:13-18 | `affectedRows` of the deletion never exceeds the number of stored lines |
| Sales.Without | src/controllers/sales.controller.js:13-16 | no line left after the deletion matches both the sale and the line id, and every line left was there before |
| Sales.WithoutCount | src/controllers/sales.controller.js:13-18 | the lines left plus the lines deleted make up the table |
| Sales.WithoutKeeps | src/controllers/sales.controller.js:13-16 | every line that does not match both ids survives the deletion |
| Sales.NoneAffected | src/controllers/sales.controller.js:18-23 | nothing is affected exactly when no line matches, and then the table is unchanged |
| Sales.Payloads | src/controllers/sales.controller.js:43-62 | one event payload per remaining line, each built from that line |
| Sales.ItemsOfSaleComplete | src/controllers/sales.controller.js:27-30 | the `SELECT … WHERE sale_id` listing contains every line of the sale |
| Sales.DeletionPayload | src/controllers/sales.controller.js:27-65 | the order-update event lists only lines of the sale, never the deleted one, and every other line of the sale |
| Sales.DeleteSaleItem | src/controllers/sales.controller.js:8-79 | 404 with no change when no line matches; otherwise the matching line is removed, the order update for the sale's remaining lines is emitted and the reply is `Item eliminado` |
| Sales.WithStatus | src/controllers/sales.controller.js:95-98 | the matching lines get the new preparation status and every other line is unchanged |
| Sales.WithStatusChangesOnlyStatus | src/controllers/sales.controller.js:95-98 | only the preparation status of the matching lines changes |
| Sales.UpdateItemStatus | src/controllers/sales.controller.js:85-131 | as written: 400 for a status outside the four preparation states, 404 when no line matches, otherwise the status is stored and the reply is 500 whenever the line joins a sale, since the kitchen event call throws |
| Sales.FirstMatch | src/controllers/sales.controller.js:105-114 | the first line matching both ids, or the length when none does |
| Sales.UpdateItemStatusIntended | src/controllers/sales.controller.js:85-126 | corrected: the same validation and update, one kitchen event for the joined line, and the new status echoed |
| Sales.StatusStoredYetReported500 | src/controllers/sales.controller.js:95-129 | a concrete line whose status is stored and whose sale joins, so the as-written handler reports 500 after the update |
| Sales.OtherSalesItems | src/controllers/sales.controller.js:152 | no line of the cancelled sale is left, and every line left was there before |
| Sales.OtherSalesItemsCount | src/controllers/sales.controller.js:152 | the lines left plus the sale's lines make up the table |
| Sales.OtherSalesItemsKeeps | src/controllers/sales.controller.js:152 | every line of another sale survives the cancellation |
| Sales.CancelSale | src/controllers/sales.controller.js:137-186 | as written: 404 with no change for an unknown sale; otherwise its lines go, its status becomes cancelled, and a sale with a table emits the empty order update and then answers 500, since the table-cleaned call throws |
| Sales.CancelSaleIntended | src/controllers/sales.controller.js:137-178 | corrected: the same state change, both events for a sale with a table, and `Venta anulada` |
| Sales.CancellationEffect | src/controllers/sales.controller.js:151-158 | after cancelling, the sale has no lines and status cancelled, no other sale changes, and no other sale's line is lost |
| Sales.NoLinesLeft | src/controllers/sales.controller.js:152 | a table without lines of the sale lists none for it |
| Sales.CancelWithTableReported500 | src/controllers/sales.controller.js:162-172 | a store holding sale `s1` at table `t1` with one line: after `cancelSale` the reply is 500 'Error anulando venta', the sale is cancelled, it has no lines left and its order update was broadcast |
| Catalog.ActionFor | src/controllers/catalog.controller.js:48-50 | the event action is `update` exactly when the row existed and `create` exactly when it did not |
| Catalog.CategoryRow | src/controllers/catalog.controller.js:51-59 | the stored category has the given id and name, the given colour when truthy and `#6B7280` otherwise |
| Catalog.UpsertCategory | src/controllers/catalog.controller.js:36-82 | 400 with no change exactly when id or name is falsy; otherwise the row is written under the id and one catalog event with the right action and data is emitted |
| Catalog.DeleteCategory | src/controllers/catalog.controller.js:87-118 | 400 with no change exactly when a product still uses the category; otherwise it is removed and a delete event is emitted |
| Catalog.CategoryGuardKeepsReferences | src/controllers/catalog.controller.js:92-104 | the in-use guard keeps every product's category resolvable, and so does any upsert |
| Catalog.ProductRow | src/controllers/catalog.controller.js:186-203 | the stored product has the given id, name and category, falsy price, cost and stock become 0, a falsy unit becomes `unid`, a falsy yield or portion name becomes null, and `manage_stock` is the flag's truthiness |
| Catalog.StockEventRule | src/controllers/catalog.controller.js:224-234 | at most one stock event, emitted exactly for a stock-managed product whose stock differs from the previous one (0 for a new product), carrying the previous name and stock and reason `initial_stock` exactly for a new product |
| Catalog.UpsertProduct | src/controllers/catalog.controller.js:156-248 | 400 with no change exactly when id, name or category is falsy; otherwise the row is written, then a catalog event and the stock event rule's events are emitted |
| Catalog.RecipesExcept | src/controllers/catalog.controller.js:271 | no recipe left matches the deletion, and every recipe left was there before |
| Catalog.RecipesExceptKeeps | src/controllers/catalog.controller.js:271 | every recipe that does not match the deletion survives |
| Catalog.RecipesExceptSpec | src/controllers/catalog.controller.js:271 | a recipe is left exactly when it was there and does not match |
| Catalog.DeleteProduct | src/controllers/catalog.controller.js:253-289 | 400 with no change exactly when the product was ever sold; otherwise recipes that make it or use it as ingredient go, then the product, and a delete event is emitted |
| Catalog.ProductDeleteKeepsRecipesResolved | src/controllers/catalog.controller.js:271-274 | after the deletion every recipe left still names stored products on both sides |
| Catalog.RecipeRow | src/controllers/catalog.controller.js:341-350 | the stored recipe has the given ids and a missing quantity becomes 0 |
| Catalog.RecipeIndex | src/controllers/catalog.controller.js:338 | the position of the first recipe with the id, or the length when none |
| Catalog.RecipeUpserted | src/controllers/catalog.controller.js:341-351 | the row is stored, no other recipe is lost, the table grows exactly for a new id, and unique ids stay unique with the row the only one under its id |
| Catalog.RecipeUpsertIdempotent | src/controllers/catalog.controller.js:341-351 | writing the same recipe twice is the same as writing it once |
| Catalog.UpsertRecipe | src/controllers/catalog.controller.js:326-373 | 400 with no change exactly when an id is falsy; otherwise the recipe is upserted and one catalog event is emitted |
| Catalog.DeleteRecipe | src/controllers/catalog.controller.js:378-396 | the recipes with the id go, a delete event is emitted and the reply is success even when nothing matched |
| Catalog.TableRow | src/controllers/catalog.controller.js:451-462 | the stored table has the given id and name, the given status when truthy and `free` otherwise |
| Catalog.PreviousStatus | src/controllers/catalog.controller.js:449-450 | the previous status is present exactly when the table is stored, and is its status |
| Catalog.TableEventRule | src/controllers/catalog.controller.js:464-480 | a status-change event comes first exactly when the table is new or its status changes, and the catalog event always comes last; a new table is announced as `create` |
| Catalog.UpsertTable | src/controllers/catalog.controller.js:437-496 | 400 with no change exactly when id or name is falsy; otherwise the row is written and the table event rule's events are emitted |
| Catalog.UpdateTableStatus | src/controllers/catalog.controller.js:498-550 | 400 for a status other than `free` or `occupied`, 404 for an unknown table, each without a change; otherwise only the status changes, one status event with the current sale is emitted and the message names the table |
| Catalog.DeleteTable | src/controllers/catalog.controller.js:630-660 | 400 with no change exactly when the table has a pending sale; otherwise it is removed |
| Catalog.TableGuardKeepsPendingSales | src/controllers/catalog.controller.js:635-647 | the pending-sale guard keeps every pending sale's table stored |
| Catalog.CategoryBatch | src/controllers/catalog.controller.js:711-727 | the categories are the in-order upsert of the accepted records, and the counts are those of the outcome |
| Catalog.ProductBatch | src/controllers/catalog.controller.js:730-764 | the products are the in-order upsert of the accepted records, and the counts are those of the outcome |
| Catalog.RecipeBatch | src/controllers/catalog.controller.js:767-784 | the recipes are the in-order upsert of the accepted records, and the counts are those of the outcome |
| Catalog.TableBatch | src/controllers/catalog.controller.js:787-804 | the tables are the in-order upsert of the accepted records, and the counts are those of the outcome |
| Catalog.SyncCatalog | src/controllers/catalog.controller.js:699-818 | categories, products, recipes and tables are each batch-upserted in that order, and the reply reports each batch's outcome |
| Catalog.RecipeBatchKeepsIdsUnique | src/controllers/catalog.controller.js:767-784 | a recipe batch keeps recipe ids unique |
| Users.LowerIsLower | src/controllers/users.controller.js:88 | `toLowerCase` leaves no upper-case letter of ASCII or Latin-1 |
| Users.SliceIsLower | src/controllers/users.controller.js:88 | a piece of a lower-case string is lower-case |
| Users.TrimKeepsLower | src/controllers/users.controller.js:88 | trimming a lower-case string keeps it lower-case |
| Users.Normalize | src/controllers/users.controller.js:88 | `toLowerCase().trim()` gives a string with no ASCII or Latin-1 capital and no surrounding blanks |
| Users.RoleOr | src/controllers/users.controller.js:69 | the given role, or the default when none is given |
| Users.AddUser | src/controllers/users.controller.js:67-127 | 400 when name, username or PIN is missing, 400 for a PIN that is not four digits, 400 for a taken normalised username, each without a change; otherwise one active account with the trimmed name, normalised username and hashed PIN is stored under the new id |
| Users.CreateUser | src/controllers/users.controller.js:67-127 | 400 for a missing field, a PIN that is not four digits or a taken username, each without a change; creation succeeds exactly when those checks pass and the id is new, and a 500 carries 'Error creando usuario'; stores the account with the given role or `employee`, and changes nothing otherwise |
| Users.AddKeepsUsernamesUnique | src/controllers/users.controller.js:87-107 | the uniqueness check before the insert keeps normalised usernames unique among the accounts |
| Users.NewUserSpec | src/controllers/users.controller.js:101-107 | the new account is active with the given id and role, its PIN is the hash of the PIN, its username is normalised and its name has no surrounding blanks |
| Users.ApplyChangesAppend | src/controllers/users.controller.js:148-206 | applying the collected `SET` clauses in two parts is applying them all |
| Users.PatchedFields | src/controllers/users.controller.js:151-195 | each field sent replaces the stored one (trimmed name, normalised username, hashed PIN, role, truthiness of `is_active`) and each field not sent is kept |
| Users.Patched | src/controllers/users.controller.js:151-195 | the id is kept, the PIN is the hash of the one sent or the stored one, and an empty `SET` list leaves the row as it was |
| Users.ApplyOneMore | src/controllers/users.controller.js:148-195 | adding at most one clause applies it after the others |
| Users.NameStep | src/controllers/users.controller.js:151-154 | a name sent sets the trimmed name, otherwise nothing changes |
| Users.UsernameStep | src/controllers/users.controller.js:156-172 | a username sent sets the normalised username, otherwise nothing changes |
| Users.PinStep | src/controllers/users.controller.js:174-185 | a PIN sent sets its hash, otherwise nothing changes |
| Users.RoleStep | src/controllers/users.controller.js:187-190 | a role sent sets the role, otherwise nothing changes |
| Users.ActiveStep | src/controllers/users.controller.js:192-195 | an `is_active` that is not undefined sets its truthiness, otherwise nothing changes |
| Users.PatchApplies | src/controllers/users.controller.js:148-206 | the `UPDATE` built from the collected clauses gives the patched account |
| Users.NoChangesIffEmptyBody | src/controllers/users.controller.js:197-202 | for a body that is accepted (no `null` name or username, an acceptable PIN), there is nothing to update exactly when no field was sent; a `null` counts as sent |
| Users.CollectUpdates | src/controllers/users.controller.js:148-195 | 500 'Error actualizando usuario' for a `null` name or username (the `.trim()` throws), then 400 for a username taken by another account, then 400 for a bad or `null` PIN; with none of these the clauses collected are those of the body |
| Users.CollectIdentity | src/controllers/users.controller.js:148-172 | 500 for a `null` name or username, then 400 for a username another account uses; with neither, the name and username clauses of the body |
| Users.UpdateUser | src/controllers/users.controller.js:133-219 | 404 for an unknown account, 500 for a `null` name or username, 400 for a taken username, 400 for a bad or `null` PIN, and 400 'No hay campos para actualizar' for a body with nothing to update, each without a change; otherwise the stored account is replaced by its patched form |
| Users.UpdateKeepsUsernamesUnique | src/controllers/users.controller.js:156-172 | an update that passes the duplicate check keeps normalised usernames unique |
| Users.DeleteUser | src/controllers/users.controller.js:225-265 | 404 for an unknown account, 400 while it has an open shift, each without a change; otherwise the account is deactivated, never removed |
| Users.DeactivationKeepsAccount | src/controllers/users.controller.js:252 | the soft delete keeps every account and every username, only clears the flag, and keeps usernames unique |
| Auth.Rehashed | src/controllers/auth.controller.js:63-65 | the migration replaces only that account's stored PIN by the hash of the PIN typed, and changes no other account |
| Auth.AccountCheck | src/controllers/auth.controller.js:36-92 | 401 for a missing account, 401 for an inactive one, 401 for a PIN that does not match; login succeeds exactly for an active account whose PIN matches, with a token signed over id, username and role and the account's public fields |
| Store.RowById | src/controllers/auth.controller.js:31-34 | a lookup by primary key finds a row exactly when the id is stored, and then returns that row |
| Auth.Login | src/controllers/auth.controller.js:10-100 | 400 without id or PIN, 400 for a PIN that is not four digits, otherwise the account check on the stored account; a plain stored PIN that matched is replaced by its hash and nothing else is ever changed |
| Auth.LoginByUsername | src/controllers/auth.controller.js:106-188 | 400 without username or PIN; the normalised username picks the account, 401 when none has it; then the account check and the same PIN migration |
| Auth.UsernameLoginAccountUnique | src/controllers/auth.controller.js:119-122 | with unique usernames the username lookup names exactly one account |
| Auth.RegisterEmergency | src/controllers/auth.controller.js:228-284 | the same 400s (missing field, bad PIN, taken username) without a change, and the same insert as user creation, with role `admin` by default and the emergency messages |
| Auth.DeactivatedCannotLogIn | src/controllers/auth.controller.js:46-51 | a deactivated account is refused with 401 whatever PIN is typed |
| Auth.FourDigitPinIsNotHashed | src/controllers/auth.controller.js:23-28 | a four-digit PIN never looks like a bcrypt hash |
| Auth.MigrationKeepsLogin | src/controllers/auth.controller.js:56-67 | after the migration the same PIN logs in with the same reply and no further migration is needed |
| Auth.CreatedAccountCanLogIn | src/controllers/users.controller.js:101-107 | a newly created account logs in with its PIN under its normalised username, and needs no migration |
| Auth.LoginTokenAuthenticates | src/controllers/auth.controller.js:77-92 | the token returned by a successful login authenticates the same user on the next request, whether or not the PIN was migrated |
| Access.Payload | src/middleware/auth.middleware.js:144-154 | the token carries exactly the account's id, username and role |
| Access.BearerToken | src/middleware/auth.middleware.js:13-20 | a token is read exactly from a header starting with `Bearer `, and is what follows the prefix |
| Access.AuthenticateSpec | src/middleware/auth.middleware.js:9-76 | no token, an expired or invalid one, an unknown or inactive account give 401 and any other verification error 500; a request passes exactly with a token for an active account and then carries that account's id, name, username and role |
| Access.Authenticate | src/middleware/auth.middleware.js:9-76 | no bearer token gives 401; every refusal is 401 or 500; a request that passes carries the public fields of a stored, active account |
| Access.IssuedTokenRoundTrip | src/middleware/auth.middleware.js:22-52 | a token issued for an account authenticates it while it is active and gives 401 `Usuario desactivado` once it is not |
| Access.Request.constructor | src/middleware/auth.middleware.js:47-52 | a request starts without a user |
| Access.VerifyToken | src/middleware/auth.middleware.js:9-76 | the middleware's decision is the authentication; on success `req.user` is set to the account, and on a refusal it is left alone |
| Access.Check | src/middleware/auth.middleware.js:81-139 | each guard answers 401 without a caller, lets through exactly the roles it admits and gives 403 with its own message otherwise |
| Access.AdminPassesEveryGuard | src/middleware/auth.middleware.js:81-139 | a caller the admin guard lets through passes the inventory and kitchen guards too |
| Access.GuardRoles | src/middleware/auth.middleware.js:86-133 | the admin guard admits only `admin`, the inventory guard `admin` and `auxiliar_inventario`, the kitchen guard `admin` and `kitchen` |
| Reports.Count | src/controllers/reports.controller.js:38-39 | a `COUNT(*)` never exceeds the number of rows |
| Reports.TotalAppend | src/controllers/reports.controller.js:299-309 | a sum over two runs of rows is the sum of the two sums |
| Reports.TotalSingle | src/controllers/reports.controller.js:299-309 | a sum over one row is that row's amount |
| Reports.TotalPermutation | src/controllers/reports.controller.js:37-47 | a sum does not depend on the order the rows come in |
| Reports.TotalSplit | src/controllers/reports.controller.js:40-42 | summing two amounts row by row equals adding their sums |
| Reports.CompletedPartition | src/controllers/reports.controller.js:40-42 | the completed total is the cash total plus the transfer total plus the total of every other method |
| Reports.GetSalesSummary | src/controllers/reports.controller.js:37-94 | the transaction and expense counts are the numbers of completed sales and `gasto` movements inside the window, and the debt count the number of unpaid debts of all time, none above the rows; the cash, transfer, total, expense and debt figures are the sums of those rows' amounts; the completed total is cash plus transfer plus every other method, and net profit is completed sales minus expenses inside the window |
| Reports.NetProfitSplits | src/controllers/reports.controller.js:44-56 | the net profit of a window is the sum of the net profits of two windows that split it |
| Reports.Summarize | src/controllers/reports.controller.js:286-341 | cash and transfer totals are those of the completed sales recorded under the shift's id, expenses those of its `gasto` movements, total sales is cash plus transfer and expected cash is initial cash plus cash sales minus expenses |
| Reports.GetShiftDetail | src/controllers/reports.controller.js:270-341 | 404 `Turno no encontrado` exactly for an unknown shift; otherwise the shift and its summary |
| Reports.ExpectedCashAfterSale | src/controllers/reports.controller.js:299-340 | one more sale raises the expected cash by its total exactly when it is a completed cash sale of the shift |
| Reports.ExpectedCashAfterMovement | src/controllers/reports.controller.js:307-340 | one more movement lowers the expected cash by its amount exactly when it is an expense of the shift |
| Reports.SummaryIgnoresOrder | src/controllers/reports.controller.js:299-341 | the shift summary does not depend on the order of sales and movements |
| Reports.HistoryEntry | src/controllers/reports.controller.js:222-254 | as written: each row's total sales is every completed sale of the shift, whatever the method, and its expected cash is initial cash plus that total minus expenses |
| Reports.WithStatus | src/controllers/reports.controller.js:212-215 | with a truthy status only shifts with that status are kept; without one every shift is kept |
| Reports.Entries | src/controllers/reports.controller.js:229-256 | one history row per shift, in order |
| Reports.WithStatusComplete | src/controllers/reports.controller.js:212-215 | the filter drops no shift with the requested status |
| Reports.WithStatusAppend | src/controllers/reports.controller.js:212-215 | filtering two runs of shifts one after the other gives the two filtered runs one after the other, so the filter keeps the shifts' order |
| Reports.WithStatusSingle | src/controllers/reports.controller.js:212-215 | one shift is kept exactly when no truthy status is asked or the shift has that status |
| Reports.GetShiftsHistory | src/controllers/reports.controller.js:205-256 | the first `limit` shifts that pass the filter, in the given order (all of them when fewer), each with its history totals |
| Reports.HistoryCountsNonCashSales | src/controllers/reports.controller.js:222-254 | the history's expected cash exceeds the detail's by the shift's transfer and other non-cash sales |
| Reports.HistoryExpectedCashDiffers | src/controllers/reports.controller.js:253-254 | a shift with 0 initial cash and one completed transfer of 10 shows 10 expected cash in the history and 0 in the detail |
| Reports.HistoryEntryIntended | src/controllers/reports.controller.js:222-254 | corrected: expected cash counts only cash sales |
| Reports.IntendedHistoryAgreesWithDetail | src/controllers/reports.controller.js:340 | the corrected history row has the detail's expected cash, and equals the as-written row when the shift has no non-cash sales |
| Common.NumOrNull | src/controllers/sync.controller.js:123-124 | `x \|\| null` on a number keeps every value but 0, which becomes null |
| Common.TextOrNull | src/controllers/sync.controller.js:118-119 | `x \|\| null` on text keeps a non-empty value and turns a missing or empty one into null |
| Common.NumOr | src/controllers/catalog.controller.js:195-198 | `x \|\| 0` keeps every number but 0 and a missing one, which become the default |
| Common.TextOr | src/controllers/catalog.controller.js:59 | `x \|\| '#6B7280'` keeps non-empty text and gives the default otherwise |
| Common.Max0 | src/controllers/sync.controller.js:232 | `GREATEST(0, x)` is at least 0 and at least x, and is one of them |
| Common.TrimStart | src/controllers/users.controller.js:88 | trimming the front removes exactly the leading JavaScript white space and line terminators |
| Common.TrimEnd | src/controllers/users.controller.js:88 | trimming the back removes exactly the trailing JavaScript white space and line terminators |
| Common.Trim | src/controllers/users.controller.js:88 | a trimmed string neither starts nor ends with JavaScript white space or a line terminator |
| Common.ToLower | src/controllers/users.controller.js:88 | `toLowerCase` keeps the length and folds each ASCII and Latin-1 capital to its small letter, leaving every other character as it is |
| Store.RowsWith | src/services/StockService.js:95-98 | a `SELECT … WHERE column = ?` returns only rows of the table whose column holds the value |
| Store.RowsWithComplete | src/services/StockService.js:95-98 | every row whose column holds the value is returned |
| Store.IndexOf | src/controllers/sync.controller.js:174-184 | the position of the first row with the key, or the length when there is none |
| Store.IndexOfAt | src/controllers/sync.controller.js:174-184 | the first position holding the key is the one the lookup finds |
| Store.ItemsOfSale | src/controllers/sync.controller.js:203-206 | the lines read for a sale all belong to it and were stored |
| Common.DigitsToNumber | src/utils/math.js:8 | `Number` on a run of digits is its decimal value, and the negated value after a minus sign |
| Common.ForeignCharIsNaN | src/utils/math.js:8 | `Number` on text with a character that is not a blank, digit, sign or point is NaN, from any point of the scan |
| Common.ToNumber | src/utils/math.js:8 | a number converts to itself, `null` and booleans always convert, so only undefined, text and NaN give NaN; empty text is 0 |
| Common.ScanNumber | src/utils/math.js:8 | blank text converts to 0, and a non-blank character after the number has ended makes it NaN |
| Common.NumberOr | src/services/StockService.js:42 | `Number(x) \|\| d` gives the default for NaN and 0 and the converted number otherwise |
| Common.Min | src/controllers/credit.controller.js:154 | `Math.min` is at most both arguments and is one of them |

## Left out

- SQL text and the connection pool: every statement is modelled by its effect on the tables.
- Transactions and row locks (`FOR UPDATE` in the payment handler): every handler is one sequential, atomic step. The gap between validating and deducting stock in `validateAndDeductStock` (src/services/StockService.js:287-288) is a race between concurrent requests, so it is outside a sequential model.
- Socket.io delivery: a broadcast is a value appended to `Db.events`. Its timestamp (`new Date().toISOString()`) is not modelled.
- Socket.io wiring: src/index.js neither sets `req.io` nor calls `socketEvents.initialize`. The model assumes `socketEvents` has a server, so the handlers that use it always broadcast. The credit handlers broadcast when their `hasIo` flag is set, and that flag is left to the caller.
- bcrypt, jsonwebtoken and uuid: these are function parameters. Nothing is assumed about them beyond what each lemma states in its `requires`, such as that `compare(pin, hash(pin))` holds.
- Dates and times are abstract integers:
  - the period computation of `getSalesSummary` (src/controllers/reports.controller.js:11-34) is a `start`/`end` pair;
  - `CURRENT_TIMESTAMP` and `updated_at` columns are not stored;
  - `new Date(…)` on a synced record keeps the record's own value;
  - `ORDER BY created_at` and `ORDER BY start_time` are the order of the sequence given.
- `Number(text)` recognises blanks around an optional sign, digits and at most one decimal point. Exponents (`1e3`), hexadecimal, binary and octal prefixes and `Infinity` give NaN in the model, where JavaScript gives a number.
- `toFixed` display rounding in stock error messages: amounts are reported unrounded.
- Reply fields that only echo rows back to the client are not modelled. These are the sale and movement listings of `getShiftDetail` and the `openedBy`/`closedBy` objects.
- Exception paths that answer 500 with a generic message because the database threw. The 500s modelled are:
  - those the code itself causes: the missing socket functions, an unknown customer in a payment, a non-JWT verification error, and the `.trim()` that throws on a `null` name or username in `updateUser` (src/controllers/users.controller.js:150-156);
  - one database error: an account insert whose id is already stored, which the primary key refuses (`Users.AddUser`).
- Per-record sync errors keep the id of the refused record, not the database's error message.
- Read-only handlers that only run a query and return it are not modelled: `getAllUsers`, `getUserById`, `getCategories`, `getProducts`, `getRecipes`, `getTables`, `getCurrentOrder`, `getFullCatalog`, `getSyncStatus`, `syncUsersToDevice`, `getCustomers`, `getCustomerById`, `getPortfolio`, `getSalesByDay`, `getTopProducts`, `getPendingDebts`, `getActiveUsers` and `verifyCurrentToken`.
- `createCustomer` only inserts a row.
- Server wiring: the Express setup, the routes, the migration and schema scripts and the database test scripts.
- Handlers named by the routes but absent from the controllers, such as `getOpenShifts` and `handoverPendingSales`, are not part of this model.
- `parseInt(limit)` in `getShiftsHistory`: the limit is a natural number. A non-numeric limit, which MySQL would reject, is not modelled.
- MySQL's case-insensitive collation on `WHERE username = ?`: usernames are compared exactly. Both sides are lower-cased before the comparison anyway.
- `null` and `undefined` body fields are both `None`, except where the code tells them apart: `is_active !== undefined` and the `name`, `username` and `pin_code` fields of `updateUser`, `typeof initial_cash` in `activateShift`, and all seven fields of `updateCustomer` (name, phone, address, identification, email, credit_limit and is_active).
- Users.UpdateUser: `role: null` is read as a role that was not sent, where the code stores SQL `NULL`.
- Users.RoleOr: the default replaces a missing role and also a `role: null`. The code defaults only a role that is `undefined` and inserts `NULL` for `null`.
- Users.CreateUser: a `role: null` gets the default 'employee' in the model, where the code inserts `NULL` (src/controllers/users.controller.js:69).
- Auth.RegisterEmergency: a `role: null` gets the default 'admin' in the model, where the code inserts `NULL` (src/controllers/auth.controller.js:230).
- Credit.UpdateCustomer: the name, credit limit and active flag are taken to be NOT NULL columns under MySQL strict mode, so a `null` for one of them answers 500 and changes nothing. The table definition is not part of this model. Were one of those columns nullable, the row would store NULL instead.
- Users.UpdateUser: body fields are text or absent. A PIN sent as a JSON number such as 1234 passes `/^\d{4}$/` and then makes bcrypt throw; that 500 is not modelled.
- Users.AddUser: the PIN is text or absent. A numeric PIN passes the four-digit test and then makes bcrypt throw, which answers 500; that reply is not modelled.
- Users.CreateUser: as for `Users.AddUser`, the 500 for a numeric PIN (src/controllers/users.controller.js:79,101) is not modelled.
- Auth.RegisterEmergency: as for `Users.AddUser`, the 500 for a numeric PIN (src/controllers/auth.controller.js:239,258) is not modelled.
- Auth.Login: the PIN is text. A numeric PIN passes the four-digit test. Against a hashed PIN, bcrypt then throws and the answer is 500. Against a plain stored PIN, `===` fails and the answer is 401. Neither reply is modelled (src/controllers/auth.controller.js:23,56-64).
- Auth.LoginByUsername: as for `Auth.Login`, a numeric PIN answers 500 against a hashed PIN and 401 against a plain one, and neither reply is modelled (src/controllers/auth.controller.js:144-152).
- Common.ToLower: only ASCII and Latin-1 capitals are folded. Other scripts (Greek, Cyrillic, Latin Extended) and the mappings of `toLowerCase` that change the length, such as `İ`, are not modelled.
- Users.LowerIsLower, Users.Normalize, Users.AddUser: "lower-case" means free of the capitals `Common.ToLower` folds, so these hold for ASCII and Latin-1 letters only.
- Reports.SummaryIgnoresOrder: money is an exact `real`, so the result does not depend on the order of the sums. JavaScript adds doubles, whose rounding can depend on it (src/controllers/reports.controller.js:299-309).

## Where the code differs from its documentation

Where the repository's own description of the system says something else, the model follows the code:

- **Direct-stock lines.** In `validateStockForItems`, lines for stock-managed products are checked one line at a time against the stock, not summed across the batch (src/services/StockService.js:83-92). `Stock.DirectLinesCheckedOneByOne` shows a batch that passes validation although together its lines need more than the stock.
- **Recipe deduction.** `deductStockForItems` deducts recipe ingredients even when they are not stock-managed, although validation skips them (src/services/StockService.js:225-250).
- **Device sync.** It has no shift handover, no linking of sales in transit, no replacement of a sale's lines and no recomputation of totals.
- **Deleting a sale line.** It does not recompute the sale's total (src/controllers/sales.controller.js:25-30).
- **Synced shifts.** A shift synced with 0 reported cash or 0 difference stores `NULL`, because of `|| null`.
- **Active shift.** In `getActiveShift`, several shifts with the same latest start time may be returned; the model lets any of them be chosen.
- **Username login.** `loginByUsername` does not apply the four-digit PIN check that `login` applies before the lookup.

## Findings

| source | as written | input that shows it | evidently intended | confidence | as-written member | corrected member |
|---|---|---|---|---|---|---|
| src/controllers/sales.controller.js:117 | `updateItemStatus` calls `socketEvents.emitKitchenUpdate`, which the socket module does not define. The call throws after the status was stored, and the client gets 500 `Error interno`. | a line `i1` of sale `s1`, status `ready` | store the status, emit a kitchen event and answer with the status | not executed; high (the function is absent from src/services/socketEvents.js) | Sales.UpdateItemStatus, Sales.StatusStoredYetReported500 | Sales.UpdateItemStatusIntended |
| src/controllers/sales.controller.js:172 | `cancelSale` calls `socketEvents.emitTableCleaned`, which the socket module does not define. A sale with a table is cancelled and its order update is emitted, then the client gets 500 `Error anulando venta`. | a sale `s1` at table `t1` | emit the order update and the table-cleaned event and answer `Venta anulada` | not executed; high (the function is absent from src/services/socketEvents.js) | Sales.CancelSale, Sales.CancelWithTableReported500 | Sales.CancelSaleIntended |
| src/controllers/reports.controller.js:253-254 | The shift history (sums at line 222)'s expected cash adds every completed sale of the shift, whatever the payment method. The shift detail (line 340) adds only cash sales. | a shift with initial cash 0 and one completed transfer sale of 10: the history expects 10, the detail 0 | the same expected cash as the detail: initial cash plus cash sales minus expenses | not executed; medium (the two reports disagree; the detail matches the meaning of cash in the till) | Reports.HistoryEntry, Reports.HistoryExpectedCashDiffers | Reports.HistoryEntryIntended, Reports.IntendedHistoryAgreesWithDetail |
