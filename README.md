# BGE Credit Management — a Dafny model of the ledger core

This project models the core of a small credit ledger that a wholesale shop
uses to track what its customers owe. Customers place orders on credit. Each
order adds its total to the customer's debt. Payments are recorded against
the customer and lower that debt. A one-off migration script moved the
older per-order payment records onto the customers. Around this sit a
product catalogue with stock history, an expense book, an analytics
endpoint, the PDF account statement, and the list pages that filter and
colour what they show.

Conventions used throughout:

- Money is a whole number of minor units (`int`).
- A date is an opaque instant in milliseconds (`int`).
- The empty string stands for a string field that was not supplied.
- A missing document or field is an `Option`.
- A rejected request is the `Err` side of a `Result`.
- Database collections are sequences. A handler that writes to the database
  is a method on a small class (`OrderStore`, `LegacyStore`, `ProductCatalog`)
  whose sequence fields it reassigns.

Modules, following the repository's layout:

- `Seqs`, `Text`, `Wrappers`: sums, filters, a stable sort, and string
  helpers (trimming, ASCII lower-casing, substring search, decimal digits).
- `CustomerModel`, `OrderModel`, `ProductModel`, `ExpenseModel`,
  `ReturnModel`: the schemas. Each defines its record, its enum validators,
  and the check run when a document is created.
- `LegacyOrders`, `PaymentApi`: orders that still carry their own payment
  ledger, and the endpoint that posts a payment to one.
- `PaymentMigration`: the script that moves those payments onto customers.
- `OrdersApi`, `ProductApi`, `ExpensesApi`, `Analytics`: the API handlers.
- `Statement`: the data and formatting behind the PDF account statement.
- `WarehousePage`, `OrdersPage`, `CustomersPage`, `ExpensesPage`, `Badges`:
  the client-side filters, counters and badge choices of the pages.
- `StatusRules`: how the payment status shown on the orders page, the PDF
  statement and the analytics buckets relate to each other.

## Model

| member | source | states |
|---|---|---|
| CustomerModel.NewCustomer | models/Customer.js:3-25 | Creation succeeds exactly when name and phone are given, and a missing name is reported first. The stored customer carries the given fields and starts with no debt, no old balance and no payments. |
| CustomerModel.FindCustomer | pages/api/orders/index.js:61 | Lookup by id returns a position holding that id, and returns nothing exactly when no customer has it. |
| OrderModel.NewOrder | models/Order.js:4-46 | An order is stored exactly when it has a customer, an order number and a named product on every line. The stored order keeps the draft's fields, and `walletUsed` defaults to 0. |
| ProductModel.StockEventType.Name | models/Product.js:5-9 | The stored name of each stock event type passes the enum validator and parses back to the same type. |
| ProductModel.ParseStockEventType | models/Product.js:5-9 | A stock event type is accepted exactly when it is addition, deduction or adjustment. |
| ProductModel.Unit.Name | models/Product.js:42-46 | Each unit's stored name parses back to the same unit. |
| ProductModel.ParseUnit | models/Product.js:42-46 | A unit is accepted exactly when it is one of the six listed units. |
| ProductModel.NewProduct | models/Product.js:35-76 | A product is stored exactly when its trimmed name is non-empty, its unit is valid and its stock is not negative. The stored name is the trimmed one, and stock defaults to 0. |
| ReturnModel.NewReturn | models/Return.js:4-49 | A return is stored exactly when it has a customer, a return number and named lines. Its order reference and reason are kept as given. |
| ExpenseModel.Category.Name | models/Expense.js:15-19 | Each category's stored name parses back to that category. |
| ExpenseModel.ParseCategory | models/Expense.js:15-19 | A category is accepted exactly when it is one of the five listed. |
| ExpenseModel.PaymentMethod.Name | models/Expense.js:27-31 | Each payment method's stored name parses back to that method. |
| ExpenseModel.ParsePaymentMethod | models/Expense.js:27-31 | A payment method is accepted exactly when it is one of the five listed. |
| ExpenseModel.NewExpense | models/Expense.js:3-61 | An expense is stored exactly when it has a non-negative amount, a valid category, a non-blank description, a valid payment method and a non-negative VAT. Text fields are stored trimmed. VAT defaults to 0, the tax flag to false and the date to the creation instant. |
| LegacyOrders.FindOrder | pages/api/payment.js:14-18 | Lookup by id returns a position holding that id, and returns nothing exactly when no order has it. |
| LegacyOrders.IncrementDebt | pages/api/payment.js:50-52 | Only the customer with the given id changes, and their debt moves by exactly the increment. Every other customer is untouched. |
| LegacyOrders.LegacyStore.constructor | scripts/migrate-to-customer-payments.js:40-50 | The store holds the given customers and orders. Their ids are unique. |
| PaymentApi.CheckPayment | pages/api/payment.js:14-26 | A missing order gives 404. Otherwise a non-positive amount gives 400. Each of these occurs exactly in its case. A payment is accepted exactly when the order exists, the amount is positive, the order has a payment ledger and the amount does not exceed its balance. |
| PaymentApi.PostPayment | pages/api/payment.js:12-56 | A rejected payment changes nothing. An accepted one appends the dated payment to that order only, raises `amountPaid` by the amount, lowers `balance` by it, and never lets the balance go negative. |
| OrdersApi.ProcessLines | pages/api/orders/index.js:36-41 | Each submitted line becomes one stored line with the same name, quantity and unit price, and its total is quantity times unit price. |
| OrdersApi.ProcessedTotal | pages/api/orders/index.js:43-46 | The order total equals the sum of the submitted lines' quantity × price. |
| OrdersApi.ProcessedTotalNonNegative | pages/api/orders/index.js:40-46 | With non-negative quantities and prices, the order total is not negative. |
| OrdersApi.OrderNumber | pages/api/orders/index.js:49-50 | The number is `ORD-` followed by digits. It ends in count + 1, zero-padded to at least five digits. |
| OrdersApi.OrderNumberParses | pages/api/orders/index.js:50 | Reading the digits after `ORD-` gives back count + 1. |
| OrdersApi.OrderNumberInjective | pages/api/orders/index.js:50 | Different order counts give different order numbers. |
| OrdersApi.PrepareOrder | pages/api/orders/index.js:25-58 | A missing or empty product list is rejected. Otherwise the order is built from the processed lines and the next number, exactly when the other checks pass. It keeps order numbers unique. |
| OrdersApi.DebtAfterNewOrder | pages/api/orders/index.js:61-69 | Recomputing a debt after one new order moves the owner's debt by exactly that order's total and leaves other customers' debts unchanged. |
| OrdersApi.DebtCanBeNegative | pages/api/orders/index.js:69 | The recomputed debt is not clamped, and some customer gets a negative one. |
| OrdersApi.OrderStore.constructor | models/Order.js:29-33 | An empty order store over unique customers. |
| OrdersApi.OrderStore.CreateOrder | pages/api/orders/index.js:23-83 | A rejected request stores nothing. Otherwise the order is saved. If its customer exists, only that customer's debt is reset to the recomputed value. If not, the order stays saved, no customer changes and the request fails with 400, because reading the payments of the missing customer throws. |
| ProductApi.BuildProductQuery | pages/api/Product/index.js:10-25 | `isActive` is set exactly when the parameter is given, and is true only for the string "true". A search term is used only when non-empty. |
| ProductApi.NameOrderIsTotalPreorder | pages/api/Product/index.js:27 | Sorting by name uses a total preorder. |
| ProductApi.ListProducts | pages/api/Product/index.js:20-27 | The result is a permutation of the matching products, sorted by name, and contains exactly the products that match. |
| ProductApi.InitialHistory | pages/api/Product/index.js:57-63 | A product created with positive stock gets one initial addition of that quantity. Otherwise its history is empty. |
| ProductApi.StoresPaddedRiceTrimmed | models/Product.js:36-41 | A product posted as " rice " is stored under the name "rice". |
| ProductApi.AsWrittenAdmitsCaseDuplicate | pages/api/Product/index.js:37-64 | With "Rice" stored, the handler as written accepts " rice ". The new name equals the old one ignoring case. |
| ProductApi.CreateAsWritten | pages/api/Product/index.js:35-64 | The handler as written: a submitted name taken ignoring case is refused with 400. The product is created exactly when the submitted name is free ignoring case, the schema accepts the record, and its stored name is free exactly. Otherwise a schema rejection gives that validation error and a stored name gives the duplicate-key error. A created product's submitted name was free ignoring case, and its stored (trimmed) name was free exactly. It carries the id, the time, the stock, a non-zero low-stock threshold and an active flag, and it has a history exactly when its stock is positive. |
| ProductApi.CorrectedRefusesPaddedRice | pages/api/Product/index.js:37-47 | With "Rice" stored, the corrected check refuses " rice ". |
| ProductApi.CreateOutcome | pages/api/Product/index.js:35-64 | The corrected handler, checking the trimmed name: a trimmed name taken ignoring case is refused, and a created product's name is free ignoring case. It creates exactly when the trimmed name is free ignoring case, the schema accepts the record and the stored name is free, with the same errors otherwise. The other fields are as in `CreateAsWritten`. |
| ProductApi.CreateKeepsNamesDistinct | pages/api/Product/index.js:37-47 | The corrected creation keeps names distinct ignoring case. |
| ProductApi.CreateKeepsNamesUnique | models/Product.js:36-41 | Any creation whose stored name is free keeps the unique index. |
| ProductApi.ProductCatalog.constructor | models/Product.js:36-41 | An empty catalogue. |
| ProductApi.ProductCatalog.List | pages/api/Product/index.js:8-29 | The list is sorted by name and holds exactly the catalogue's products that match the query. |
| ProductApi.ProductCatalog.Create | pages/api/Product/index.js:33-69 | The outcome is the handler as written, `CreateAsWritten`. Success appends the product and keeps names unique, and failure leaves the catalogue unchanged. |
| PaymentMigration.MoveAll | scripts/migrate-to-customer-payments.js:80-86 | Each order payment becomes one customer payment. A missing date defaults to the order's date and a missing note to "Payment for Order N". |
| PaymentMigration.MigratedDebt | scripts/migrate-to-customer-payments.js:105-115 | The new debt is orders total minus payments, clamped at zero. |
| PaymentMigration.MigratedCustomer | scripts/migrate-to-customer-payments.js:105-117 | The migrated debt is non-negative and covers orders minus payments. Only payments and debt change. |
| PaymentMigration.CollectedIgnoresOthers | scripts/migrate-to-customer-payments.js:64-68 | Changes to orders another customer owns do not change what is collected for this one. |
| PaymentMigration.MoveOrderPayments | scripts/migrate-to-customer-payments.js:78-89 | The loop appends exactly the moved payments of one order. |
| PaymentMigration.MigrateCustomer | scripts/migrate-to-customer-payments.js:64-118 | One customer is migrated. Their orders lose their payment fields, and every other order and customer is unchanged. |
| PaymentMigration.MoveAllAmounts | scripts/migrate-to-customer-payments.js:80-86 | Moving payments keeps their total amount. |
| PaymentMigration.CollectedCount | scripts/migrate-to-customer-payments.js:72-90 | The number of collected payments is the sum over owned orders of their payment counts. |
| PaymentMigration.CollectedAmount | scripts/migrate-to-customer-payments.js:105-106 | The collected amount is the sum over owned orders of the amounts paid on them. |
| PaymentMigration.OrdersTotalIsSum | scripts/migrate-to-customer-payments.js:73-76 | The orders total is the sum of the owned orders' totals. |
| PaymentMigration.CollectedAppend | scripts/migrate-to-customer-payments.js:72-90 | Collecting over concatenated order lists concatenates the collections. |
| PaymentMigration.Migrate | scripts/migrate-to-customer-payments.js:61-124 | Every customer becomes its migrated self. Exactly the orders owned by some customer lose their payment fields. |
| Analytics.CustomersWithDebt | pages/api/analytics.js:26 | Counts exactly the customers with positive debt, which is at most the number of customers. |
| Analytics.TotalDebtOfDebtors | pages/api/analytics.js:22-26 | With no debtors the total debt is ≤ 0. With non-negative debts, it is the debtors' total. |
| Analytics.BucketOf | pages/api/analytics.js:38-46 | A customer without orders is not tallied. "Paid" means paid ≥ ordered, "partial" means 0 < paid < ordered, and "unpaid" means nothing paid on a positive total. |
| Analytics.Tally.Add | pages/api/analytics.js:38-46 | Adding to a tallied bucket raises the total by the count. |
| Analytics.CountBuckets | pages/api/analytics.js:29-47 | The loop's three counters equal the bucket tally of all customers. |
| Analytics.BucketsCoverOwnedOrders | pages/api/analytics.js:33-47 | Over unique customers, the tally's total counts every order owned by some customer. |
| Analytics.TopDebtors | pages/api/analytics.js:10-12 | Returns at most ten customers, in descending debt, drawn from the input, with none left out who owes more than one shown. |
| Analytics.Rows | pages/api/analytics.js:100-104 | One row per debtor, with id, name and debt. |
| Analytics.ConsecutiveOrdered | pages/api/analytics.js:53-54 | In consecutive month windows, an earlier window ends before a later one starts. |
| Analytics.LastDayInNoMonthAsWritten | pages/api/analytics.js:59-64 | With the month end taken as midnight of the last day, an instant later that day falls in no month. |
| Analytics.MonthsPartition | pages/api/analytics.js:59-64 | With half-open windows, every instant in the span falls in exactly one month. |
| Analytics.DebtIssuedAtMostTotal | pages/api/analytics.js:62-68 | With non-negative totals, a month's new debt lies between 0 and all orders' total. |
| Analytics.PaymentsMadeIn | pages/api/analytics.js:71-80 | The nested loop sums exactly the payments dated from the month's start up to the first instant of its last day, the `<= monthEnd` test as written. |
| Analytics.ChartData | pages/api/analytics.js:49-87 | Twelve points, oldest first, each that month's debt issued and payments made, under the month test as written. |
| Analytics.LastDayOrderUncharted | pages/api/analytics.js:59-68 | An order created on a month's last day after midnight changes no month's debt issued in the chart. |
| Analytics.ChartMonthsConsecutive | pages/api/analytics.js:53-60 | Month windows stepping back one month at a time form a consecutive twelve-month span. |
| Analytics.Analyze | pages/api/analytics.js:8-106 | The response carries the counts, total debt, debtor count, bucket tally, top-ten rows and the chart as written, with its `<= monthEnd` month test. |
| ExpensesApi.EndOfDay | pages/api/expenses/index.js:18-22 | The end date is moved to the last millisecond of its day. |
| ExpensesApi.BuildExpenseQuery | pages/api/expenses/index.js:11-37 | Each filter is set exactly when its parameter is given. "all" and the empty category are ignored, and the end bound is the end of its day. |
| ExpensesApi.ListExpenses | pages/api/expenses/index.js:39 | The result is a permutation of the matching expenses, newest first, containing exactly those that match. |
| ExpensesApi.EmptyQuerySelectsAll | pages/api/expenses/index.js:12-15 | No filters lists every expense. |
| ExpensesApi.EndDateInclusiveAllDay | pages/api/expenses/index.js:18-22 | An expense later on the end date itself is still listed. |
| ExpensesApi.SummaryOf | pages/api/expenses/index.js:41-52 | The count is the list length. The totals are non-negative when amounts and VAT are. |
| ExpensesApi.SummaryOfSelection | pages/api/expenses/index.js:39-52 | The summary is computed over exactly the listed expenses. |
| ExpensesApi.GetExpenses | pages/api/expenses/index.js:9-53 | Returns exactly the expenses matching the requested filters, newest first, as a permutation of the selection. The count, total amount and total VAT are those of the selection. |
| Statement.TwoDigits | lib/pdfGenerator.js:9 | Two decimal digits that read back as the number. |
| Statement.Group | lib/pdfGenerator.js:9 | Inserts one comma per three digits. |
| Statement.GroupShape | lib/pdfGenerator.js:9 | Commas sit exactly every fourth position from the right, and the other characters are digits. |
| Statement.RemoveCommasGroup | lib/pdfGenerator.js:9 | Deleting the commas from a grouped number gives back its digits. |
| Statement.FormatNumber | lib/pdfGenerator.js:8-10 | A sign, grouped digits, a point and two decimals. |
| Statement.FormatNumberRoundTrip | lib/pdfGenerator.js:8-10 | Without its commas, the formatted amount is the plain two-decimal rendering. |
| Statement.SummaryOf | lib/pdfGenerator.js:187-191 | The summary box shows the old balance, the orders total, the total paid and the current debt. |
| Statement.StatementStatus | lib/pdfGenerator.js:248-254 | Paid exactly when the balance is 0. Otherwise partial exactly when something was paid, else unpaid. |
| Statement.ProductLabelReadsBack | lib/pdfGenerator.js:97 | The label is the product name, " (x", the quantity and ")". The text between " (x" and ")" reads back as the quantity, with a leading "-" when it is negative. |
| Statement.ProductLabels | lib/pdfGenerator.js:97 | One label per line. |
| Statement.ProductsListAppend | lib/pdfGenerator.js:97 | One more line adds ", " and its label. |
| Statement.OrderRows | lib/pdfGenerator.js:93-104 | One row per order, oldest first, and a permutation of the orders' rows. |
| Statement.PaymentRows | lib/pdfGenerator.js:145-152 | One row per payment, oldest first, and a permutation of the payments' rows. |
| Statement.FileName | lib/pdfGenerator.js:307 | The file name is `statement-`, the name with its white-space runs replaced, `-`, the printed date with each "/" turned into "-", and `.pdf`. |
| Text.ReplaceWhitespaceRunsAppend | lib/pdfGenerator.js:307 | Replacing white-space runs splits at any point after a non-white-space character. |
| Text.ReplaceWhitespaceRun | lib/pdfGenerator.js:307 | A whole run of white space at the front, however long, becomes one replacement character ("-" in the file name). |
| Text.ReplaceWhitespaceRunBetween | lib/pdfGenerator.js:307 | A run of white space between two words becomes exactly one replacement character, and the words on either side are replaced on their own. |
| Statement.FileNameClean | lib/pdfGenerator.js:307 | When the printed date has no white space, neither does the file name. Any "/" left in it comes from the customer's name, never from the date. |
| Statement.StatementOf | lib/pdfGenerator.js:93-254 | The statement carries the summary, the status the badge rule gives for the customer's debt and total paid, the order rows oldest first and the payment rows oldest first. |
| WarehousePage.StockStatusOf | pages/warehouse.js:217-221 | Out exactly at zero stock. Low exactly when stock is non-zero and at or under the threshold. Good otherwise. |
| WarehousePage.StockColor | pages/warehouse.js:223-234 | Gray exactly for an unknown status. |
| WarehousePage.StockColorsDistinct | pages/warehouse.js:223-234 | The three statuses get three different colours. |
| WarehousePage.OutCountMatchesBadges | pages/warehouse.js:237 | The out-of-stock card counts exactly the products badged "out". |
| WarehousePage.LowCountMatchesBadges | pages/warehouse.js:236 | With non-negative stock, the low-stock card counts exactly the products badged "low". |
| WarehousePage.BadgeCountsCoverAll | pages/warehouse.js:217-221 | Every product gets exactly one badge. |
| WarehousePage.TotalValueBounds | pages/warehouse.js:238 | The stock value is non-negative and at least each product's own value. |
| WarehousePage.SearchProducts | pages/warehouse.js:38-49 | Keeps the order and exactly the matching products. An empty term shows all. |
| WarehousePage.SearchFindsByName | pages/warehouse.js:40-43 | A product is found by its name in any case. |
| WarehousePage.ChangeSign | pages/warehouse.js:880-881 | "+" exactly for additions, "-" otherwise. |
| OrdersPage.CustomerStatus | pages/orders.js:56-61 | Unknown without a customer. Paid at zero debt. Partial when in debt with payments. Unpaid when in debt with none. |
| OrdersPage.FilterOrders | pages/orders.js:21-38 | Keeps the order and exactly the orders that match both the search and the status filter. No filters show all. |
| OrdersPage.UnknownFilterShowsNothing | pages/orders.js:31-36 | An unrecognised status filter shows no orders. |
| OrdersPage.StatusColor | pages/orders.js:79-90 | Gray exactly for an unknown status. |
| OrdersPage.StatusIcon | pages/orders.js:92-103 | "•" exactly for an unknown status. |
| OrdersPage.BadgesDistinct | pages/orders.js:79-103 | Known statuses get different colours and icons. |
| CustomersPage.SearchCustomers | pages/customers.js:25-35 | Keeps the order and exactly the matching customers. An empty term shows all. |
| CustomersPage.SearchFindsByPhone | pages/customers.js:30 | A customer is found by their phone. |
| CustomersPage.SearchFindsByName | pages/customers.js:29 | A customer is found by their name in any case. |
| CustomersPage.PhoneMatchIsCaseSensitive | pages/customers.js:29-30 | When the name does not contain the term ignoring case, the search finds the customer exactly when the phone contains the term as typed, case included. |
| CustomersPage.PhoneCaseWitness | pages/customers.js:29-30 | "AB" does not find a customer by the phone "ab", but does find one by the name "ab". |
| ExpensesPage.ApplyFiltersSelects | pages/expenses.js:76-101 | The four filters keep the order and exactly the expenses that pass all of them. |
| ExpensesPage.NoFiltersShowAll | pages/expenses.js:76-101 | No filters show every expense. |
| ExpensesPage.PageWithinApi | pages/expenses.js:94-99 | Whatever the page keeps also matches the query the API was asked. |
| ExpensesPage.EndDateNarrowerThanApi | pages/expenses.js:97-99 | An expense just after midnight on the end date is returned by the API but hidden by the page. |
| ExpensesPage.FindCategory | pages/expenses.js:226 | Finds the first entry with the value, and nothing exactly when none exists. |
| ExpensesPage.CategoryLabel | pages/expenses.js:225-228 | An unknown category is shown as its raw value. |
| ExpensesPage.RowOf | pages/expenses.js:37-44 | Every category has its own row in the table. |
| ExpensesPage.CategoriesDistinct | pages/expenses.js:37-44 | The table's values and captions are distinct. |
| ExpensesPage.CategoryLabelsOfCategories | pages/expenses.js:225-228 | Each category is shown by its caption, and different categories by different captions. |
| ExpensesPage.CategoryColor | pages/expenses.js:230-241 | An unknown category is gray. |
| ExpensesPage.CardTotalsBounded | pages/expenses.js:251-253 | The operating, inventory and tax-deductible cards are non-negative, and none exceeds the total. |
| StatusRules.PageAgreesWithStatement | pages/orders.js:56-61 | With positive payments, the orders page and the PDF statement give the same status. |
| StatusRules.PageCanDisagreeWithStatement | pages/orders.js:56-61 | A zero-amount payment makes the page say partial where the statement says unpaid. |
| StatusRules.BucketAgreesWithStatement | pages/api/analytics.js:38-46 | On an up-to-date, not-overpaid customer, the analytics bucket matches the statement's status. |

## Left out

- Database I/O: MongoDB connections, `populate`, `countDocuments` and timestamps are modelled as sequences and parameters. The race between counting orders and saving the new order number is not modelled, because the model has no concurrency.
- `$regex` matching: searches are plain case-insensitive substring tests, and the product duplicate check is case-insensitive equality, so regular-expression metacharacters in user input are not modelled.
- Lower-casing covers ASCII letters only.
- Calendar and time zones:
  - the twelve month windows come from a `monthsBack` parameter;
  - `EndOfDay` counts whole days in UTC;
  - `toLocaleDateString` is a `printedDate` parameter, and statement rows keep dates as instants;
  - the current-month card (`totalMonthExpenses`) on the expenses page is not modelled.
- Floating point: amounts are integer minor units. `formatCurrency` and `toLocaleString` are not modelled.
- jsPDF layout, React state, modals and navigation are not modelled.
- Customer schema: `models/Customer.js` does not declare `oldBalance` or `payments`. The model gives every customer these fields, defaulting to 0 and empty, as the handlers and the migration script use them.
- ExpensesApi.SummaryOf: `vatAmount` is always present in the model, so the `|| 0` fallback for a missing value is not modelled.
- Sort ties: every sort is a stable insertion sort. The database's and the JS engine's orders for equal keys are not modelled.
- Statement.PaymentRows: an undated payment sorts first. The JS comparator gives NaN for it, which is not modelled.
- `new Date(null)` giving the epoch is not modelled, because missing dates are `None`.
- OrderModel.NewOrder, OrdersApi.ProcessLines, ReturnModel.NewReturn: a line's `quantity` and `unitPrice` are always-present integers, so the schema's rejection (400) of a line missing either of them is not modelled.
- The `Return` schema has no handler in the core, so only its creation check is modelled.
- The wallet, the customer API and authentication are not part of this model.

## Findings

| source | as written | input that shows it | evidently intended | confidence | as-written member | corrected member |
|---|---|---|---|---|---|---|
| pages/api/Product/index.js:37-47 | The duplicate check compares the untrimmed name. The schema trims it only on save. | "Rice" is stored, then " rice " is posted, and a second product "rice" is created | Reject a name equal to a stored one ignoring case after trimming | not executed | ProductApi.AsWrittenAdmitsCaseDuplicate | ProductApi.CreateKeepsNamesDistinct |
| pages/api/analytics.js:59-64 | The month's end is `new Date(y, m + 1, 0)`, which is midnight at the start of the last day, and the test is `<=` | An order created at 10:00 on a month's last day is counted in no month | Each month runs up to the start of the next month | not executed | Analytics.LastDayOrderUncharted | Analytics.MonthsPartition |
