# Point-of-sale admin: transaction aggregation, barcode payloads and the products page

This Dafny project models the computational core of a point-of-sale and inventory admin
built with Next.js over a hosted database. It covers three parts:

- **The admin aggregation routes** (`/api/admin/...`). Each route takes the completed
  `transactions` rows of the signed-in user within a date window. It then reduces them to:
  - total revenue and total expenses;
  - total profit (sales chosen by category, minus expenses chosen by type);
  - cash flow per day;
  - revenue and expenses per category;
  - a per-day profit-margin series.
- **`generateBarcodeNumbers`.** It takes the first 12 hexadecimal characters of an MD5
  digest and replaces each letter `a`–`f` by its value written in decimal.
- **The admin products page.** This covers the product filter (category, stock, and
  search by name or by barcode), the ten-per-page pagination, the resets to page 1, and
  the list updates after an add, an edit or a delete. The page's React state is a `class`
  whose handlers are methods. Each handler's `modifies` clause names exactly the fields
  that the handler's `set...` calls change.

Modules and files:

| file | module | contents |
|---|---|---|
| `wrappers.dfy` | `Wrappers` | `Option` |
| `transactions.dfy` | `Transactions` | table rows, `filter`, queries as filters, `Sum`, the summing `reduce`, `\|\| 0`, fetch outcomes, route responses, the day key |
| `totals.dfy` | `Totals` | revenue and expenses totals |
| `profit_total.dfy` | `ProfitTotal` | total profit |
| `grouping.dfy` | `Grouping` | the keyed `reduce` into a JavaScript object (entries plus key insertion order), shared by the next three |
| `cashflow.dfy` | `CashFlow` | cash flow by day |
| `categories.dfy` | `Categories` | revenue and expenses by category |
| `profit_margin.dfy` | `ProfitMargin` | the daily profit-margin series |
| `barcode.dfy` | `Barcode` | the barcode payload |
| `products.dfy` | `Products` | filter, pagination and list updates as functions on `seq<Product>` |
| `products_page.dfy` | `ProductsPage` | the page state and its handlers |

Modelling choices:

- **Collaborators become parameters.**
  - The database returns the rows of a table `seq<Record>` that satisfy the route's `Query`. The `created_at` window is an abstract predicate `inWindow`.
  - How the call came back is a `FetchOutcome`: rows, `data: null`, or an error.
  - The signed-in user is an `Option<string>` of its id.
  - MD5 is a function parameter `md5: string -> HexDigest`, where a `HexDigest` is 32 lowercase hexadecimal characters.
  - The server's reply to an add, an edit or a delete is a parameter of the handler.
- **Amounts are integers.** Margins are exact `real`s.
- **A JavaScript object used as an accumulator becomes a `Buckets` value.** It holds a `map` of entries and a `seq` of keys in first-insertion order. That order is what `Object.entries` and JSON serialisation follow for non-integer-like keys.
- **Truthiness is modelled as written.** In the keyed reduce, `if (acc[key])` is false for a running total of 0, so that entry is overwritten rather than added to. This gives the same total. A falsy category is `null` or `""`. A falsy selected product id is `null` or `0`.
- **The determinism of the barcode payload holds by construction.** It is a function of the input and of the digest function.

Behaviours of the code that the model keeps as written:

- **Barcode length.** `src/lib/utils.ts:17-23` takes 12 hexadecimal characters and replaces each of `a`–`f` by two digits, so the payload has 12 to 24 digits, not a fixed 12. `Barcode.GenerateBarcodeNumbers` states the exact length.
- **Sales typed `expense`.** The margin series adds a row to a day's expenses only when it is not a sale (`else if`, `src/app/api/admin/profit/margin/route.ts:57-61`). Total profit counts such a row in both sums, so it nets to zero there (`src/app/api/admin/profit/total/route.ts:39-40`). `ProfitMargin.DayTotalsStep` and `ProfitTotal.ProfitAppend` state the two behaviours.
- **Falsy categories.** The by-category routes skip every falsy category (`src/app/api/admin/revenue/category/route.ts:36-38`), so a row whose category is `""` is dropped as well as one whose category is null.

## Model

| member | source | states |
|---|---|---|
| Transactions.Filter | src/app/api/admin/profit/total/route.ts:39-40 | `filter` keeps exactly the rows that pass the test and never lengthens the list |
| Transactions.FilterAppend | src/app/api/admin/profit/total/route.ts:39-40 | filtering a list with one more row appends that row to the result exactly when it passes the test, which fixes order and multiplicity |
| Transactions.Select | src/app/api/admin/revenue/total/route.ts:25-32 | a query returns only rows with the route's type, `completed` status, the caller's `user_uid` and a `created_at` in the window, and returns every such row of the table |
| Transactions.SelectAppend | src/app/api/admin/revenue/total/route.ts:25-32 | one more table row is returned, after the others, exactly when it matches the query |
| Transactions.SumSelectAppend | src/app/api/admin/revenue/total/route.ts:25-39 | adding a row to the table changes a query's sum by the row's amount if it matches the query, and by nothing otherwise |
| Transactions.FoldAmounts | src/app/api/admin/revenue/total/route.ts:39 | the left-to-right `reduce((sum, t) => sum + t.amount, acc)` equals `acc` plus the sum of the amounts |
| Transactions.TotalOf | src/app/api/admin/revenue/total/route.ts:39 | `data?.reduce(...) \|\| 0` is 0 when `data` is null and the sum of the amounts otherwise |
| Transactions.DayKey | src/app/api/admin/profit/margin/route.ts:52 | `split('T')[0]` is a prefix of `created_at` without any `'T'`, which is either all of `created_at` or is followed by its first `'T'` |
| Totals.RevenueTotalRoute | src/app/api/admin/revenue/total/route.ts:12-41 | no user gives 401 `Unauthorized`; a query error gives 500 `Failed to fetch total revenue`; null data gives 0; otherwise the total is the sum over the completed income rows of the user in the window |
| Totals.ExpensesTotalRoute | src/app/api/admin/expenses/total/route.ts:12-41 | no user gives 401; a query error gives 500 `Failed to fetch total expenses`; null data gives 0; otherwise the total is the sum over the completed expense rows of the user in the window |
| Totals.RevenueTotalAppend | src/app/api/admin/revenue/total/route.ts:28-39 | adding a row raises total revenue by exactly its amount when it is a completed income row of the user in the window, and leaves the total unchanged otherwise |
| Totals.ExpensesTotalAppend | src/app/api/admin/expenses/total/route.ts:28-39 | adding a row raises total expenses by exactly its amount when it is a completed expense row of the user in the window, and leaves the total unchanged otherwise |
| ProfitTotal.TotalProfit | src/app/api/admin/profit/total/route.ts:39-49 | total profit is the sum over rows with category `selling` minus the sum over rows with type `expense`, and is 0 for no rows |
| ProfitTotal.ProfitTotalRoute | src/app/api/admin/profit/total/route.ts:12-51 | no user gives 401; a query error gives 500 `Failed to fetch transactions`; null data gives 500 `Failed to calculate profit margin`; otherwise the body is the total profit of the completed rows of the user in the window |
| ProfitTotal.ProfitAppend | src/app/api/admin/profit/total/route.ts:39-49 | one more row adds its amount if it is a sale and subtracts it if it is an expense: a sale typed `expense` nets to zero, and any other row (such as income in another category) changes nothing |
| Grouping.GroupSums | src/app/api/admin/cashflow/route.ts:39-47 | the in-place keyed reduce, with its truthiness test: the keys are inserted in first-occurrence order, the entries are exactly those keys (none for an empty input), and each entry is the sum of the amounts of the rows with that key |
| Grouping.GroupTotalAbsent | src/app/api/admin/cashflow/route.ts:41-45 | a key no row carries totals 0, so creating an entry with the row's amount equals adding it to 0 |
| Grouping.KeyOrderMembers | src/app/api/admin/cashflow/route.ts:41-45 | a key is in the insertion order exactly when some row carries it |
| Grouping.KeyOrderDistinct | src/app/api/admin/cashflow/route.ts:41-45 | no key is inserted twice |
| Grouping.KeyOrderPrefix | src/app/api/admin/cashflow/route.ts:39-47 | the keys of a prefix of the rows come first, in the same order (first-occurrence order) |
| Grouping.DistinctCardinality | src/app/api/admin/cashflow/route.ts:41-45 | a list of distinct keys has as many elements as its set of keys |
| Grouping.KeyOrderCoversKeySet | src/app/api/admin/cashflow/route.ts:41-45 | the inserted keys are exactly the set of keys present, one entry each |
| Grouping.TotalOverKeysStep | src/app/api/admin/cashflow/route.ts:41-45 | one more row raises the sum of the entries over a list of distinct keys by its amount exactly when its key is among them |
| Grouping.GroupsConserve | src/app/api/admin/cashflow/route.ts:39-47 | conservation: the entries together hold the amount of every keyed row |
| Grouping.KeyOrderSorted | src/app/api/admin/cashflow/route.ts:32-45 | rows arriving in non-decreasing key order give entries in non-decreasing key order |
| Grouping.GroupsDependOnKeysAndAmounts | src/app/api/admin/cashflow/route.ts:39-47 | the entries and their order depend on the rows' keys and amounts only |
| CashFlow.CashFlowRoute | src/app/api/admin/cashflow/route.ts:12-49 | no user gives 401; a query error gives 500 `Failed to fetch cash flow data`; null data gives a body without `cashFlow`; otherwise the days are the day keys present, in first-occurrence order, each with the sum of its completed rows of the user in the window |
| CashFlow.CashFlowConserves | src/app/api/admin/cashflow/route.ts:39-47 | the daily values together add up to the sum of all amounts |
| CashFlow.KeyedSumIsSum | src/app/api/admin/cashflow/route.ts:40 | every row has a day, so the sum over keyed rows is the sum over all rows |
| CashFlow.CashFlowIgnoresType | src/app/api/admin/cashflow/route.ts:27-47 | the type is never consulted: rows agreeing on amounts and timestamps give the same cash flow, so expenses add like income |
| CashFlow.CashFlowDaysAscending | src/app/api/admin/cashflow/route.ts:32-45 | rows ascending by day give days in ascending order, each once |
| Categories.RevenueByCategoryRoute | src/app/api/admin/revenue/category/route.ts:12-50 | no user gives 401; a query error gives 500 `Failed to fetch revenue by category`; null data gives no body field; otherwise the categories are the truthy categories of the completed income rows of the user in the window, in first-occurrence order, each with its sum |
| Categories.ExpensesByCategoryRoute | src/app/api/admin/expenses/category/route.ts:11-49 | the same for completed expense rows, with 500 `Failed to fetch expenses by category` |
| Categories.CategoryKeysPresent | src/app/api/admin/revenue/category/route.ts:36-45 | a category gets an entry exactly when it is non-empty and some row carries it; rows with a falsy category create no key |
| Categories.CategoriesConserve | src/app/api/admin/revenue/category/route.ts:35-47 | the entries together hold the sum of the amounts of the rows with a truthy category |
| Categories.KeyedSumIsCategorizedSum | src/app/api/admin/expenses/category/route.ts:34-46 | the keyed sum under the category key is the sum over rows with a truthy category |
| ProfitMargin.GroupDays | src/app/api/admin/profit/margin/route.ts:49-62 | the in-place `forEach`: every day seen gets one entry, in first-occurrence order, holding the day's sales (category `selling`) and its expenses (type `expense`, not a sale) |
| ProfitMargin.DayAbsent | src/app/api/admin/profit/margin/route.ts:53-55 | a new day's entry starts from zero sales and zero expenses |
| ProfitMargin.Margin | src/app/api/admin/profit/margin/route.ts:65-67 | with positive sales, margin times sales is (sales minus expenses) times 100; otherwise the margin is 0, with no division by zero |
| ProfitMargin.MarginAtMost100 | src/app/api/admin/profit/margin/route.ts:66-67 | with positive sales and non-negative expenses the margin is at most 100 |
| ProfitMargin.ProfitMarginSeries | src/app/api/admin/profit/margin/route.ts:48-75 | one point per distinct day key, in first-occurrence order, each with the margin of that day's totals |
| ProfitMargin.ProfitMarginRoute | src/app/api/admin/profit/margin/route.ts:12-46 | no user gives 401; a query error gives 500 `Failed to fetch transactions`; null data gives 404 `No transactions found`; otherwise the series of the completed rows of the user in the window |
| ProfitMargin.DayTotalsStep | src/app/api/admin/profit/margin/route.ts:51-62 | one more row always creates its day; it adds to that day's sales if its category is `selling`, otherwise to its expenses if its type is `expense` (a sale typed `expense` never reaches expenses), and otherwise to nothing |
| Barcode.Digit | src/lib/utils.ts:22 | a value below ten is written as a decimal digit |
| Barcode.NatToDecimal | src/lib/utils.ts:22 | `toString()` of a non-negative number is a non-empty string of decimal digits that spells the number, with no leading zero |
| Barcode.CountHexLetters | src/lib/utils.ts:21 | the number of letters `a`–`f` is at most the length |
| Barcode.GenerateBarcodeNumbers | src/lib/utils.ts:16-25 | the payload is all decimal digits, and its length is 12 plus the number of letters in the 12-character digest prefix, hence between 12 and 24 |
| Barcode.LetterCode | src/lib/utils.ts:21-23 | a letter `c` in `a`–`f` becomes the two characters of `c - 87`: `"1"` followed by a digit `0`–`5` |
| Barcode.ReplaceLength | src/lib/utils.ts:21-23 | the substituted string is as long as the input plus the number of its letters |
| Barcode.ReplaceDigitsOnly | src/lib/utils.ts:18-23 | the substitution yields only digits if and only if its input is lowercase hexadecimal |
| Barcode.ReplaceKeepsDigits | src/lib/utils.ts:21 | on an all-digit string the substitution is the identity |
| Barcode.ReplaceConcat | src/lib/utils.ts:21-23 | the global replace works character by character: substituting a concatenation concatenates the substitutions |
| Barcode.ReplaceAt | src/lib/utils.ts:21-23 | the character at position `i` lands at `i` plus the letters before it: a digit is copied there unchanged, and a letter becomes `"1"` and its offset from `a` |
| Barcode.ReplaceNotInjective | src/lib/utils.ts:18-23 | distinct digest prefixes can give the same payload (`"a"` and `"10"`) |
| Products.Lower | src/app/admin/products/page.tsx:265 | `toLowerCase()` keeps the length and lowers each character in place |
| Products.FilteredProductsSelects | src/app/admin/products/page.tsx:243-269 | the filtered list is an order-preserving subsequence of the products, and holds exactly the products of the chosen category (or any, for `all`) that pass the stock filter (`in-stock` excludes exactly stock 0, `out-of-stock` excludes exactly stock above 0) and whose lower-cased name or barcode contains the lower-cased term |
| Products.FilteredProductsAppend | src/app/admin/products/page.tsx:243-269 | one more product is kept, at the end of the filtered list, exactly when it passes the filter test; duplicates are kept as often as they occur |
| Products.IncludesEmpty | src/app/admin/products/page.tsx:265 | every string includes the empty string |
| Products.EmptySearchFiltersOnly | src/app/admin/products/page.tsx:243-269 | with an empty search term only the category and stock filters decide |
| Products.NoFilterKeepsAll | src/app/admin/products/page.tsx:243-269 | with both filters on `all` and an empty search, the filtered list is the whole list |
| Products.TotalPages | src/app/admin/products/page.tsx:278 | `Math.ceil(count / 10)`: no pages for no products, else the fewest pages of ten that hold them all |
| Products.CurrentPageWindow | src/app/admin/products/page.tsx:271-276 | page `p` from 1 on shows the filtered products from `(p-1)*10` up to `p*10`, clamped to the list, so at most ten |
| Products.PagesUpToPrefix | src/app/admin/products/page.tsx:271-276 | pages 1 to `k` together are the first `10k` filtered products |
| Products.PagesCoverList | src/app/admin/products/page.tsx:271-278 | pages 1 to `totalPages` together list every filtered product once, in order |
| Products.Ids | src/app/admin/products/page.tsx:158 | the `i`-th id is the `i`-th product's id |
| Products.ReplaceByIdInPlace | src/app/admin/products/page.tsx:157-159 | an edit keeps the length and the ids, replaces exactly the products carrying the returned id, and leaves every other product in place |
| Products.ReplaceByIdStable | src/app/admin/products/page.tsx:157-159 | an edit with an id no product has changes nothing, and repeating an edit changes nothing more |
| Products.RemoveByIdRemoves | src/app/admin/products/page.tsx:180 | a delete keeps the other products in order and drops every product carrying the id |
| Products.RemoveByIdCount | src/app/admin/products/page.tsx:180 | a delete shortens the list by the number of products carrying the id |
| Products.AddThenDelete | src/app/admin/products/page.tsx:123 | deleting a freshly added product with a new id restores the list |
| ProductsPage.Page.constructor | src/app/admin/products/page.tsx:72-90 | the initial state: no products, empty search, both filters `all`, page 1, dialogs closed, empty form |
| ProductsPage.Page.Visible | src/app/admin/products/page.tsx:271-276 | from page 1 on, the shown products are the page's window of the filtered list, at most ten |
| ProductsPage.Page.ResetSelectedProduct | src/app/admin/products/page.tsx:95-102 | clears the selected id and every form field, and changes nothing else |
| ProductsPage.Page.HandleSearch | src/app/admin/products/page.tsx:284-287 | sets the search term and goes back to page 1, and changes nothing else (the filters included) |
| ProductsPage.Page.HandleFilterChange | src/app/admin/products/page.tsx:289-295 | sets the chosen filter, keeps the other, goes back to page 1, and changes nothing else |
| ProductsPage.Page.HandlePageChange | src/app/admin/products/page.tsx:280-282 | sets the current page and nothing else |
| ProductsPage.Page.OpenEditDialog | src/app/admin/products/page.tsx:420-428 | loads the row's product into the form and opens the edit dialog |
| ProductsPage.Page.OpenDeleteConfirmation | src/app/admin/products/page.tsx:436-439 | remembers the row's product and opens the delete confirmation |
| ProductsPage.Page.HandleAddProduct | src/app/admin/products/page.tsx:104-134 | on success, appends the returned product at the end, closes the dialog and clears the form; on failure, changes nothing |
| ProductsPage.Page.HandleEditProduct | src/app/admin/products/page.tsx:136-170 | with no selected product (null or id 0), or on failure, changes nothing; on success, replaces the products carrying the returned id, closes the dialog and clears the form |
| ProductsPage.Page.HandleDeleteProduct | src/app/admin/products/page.tsx:172-193 | with no product to delete, or when the request throws, changes nothing; on success, removes every product with that id and closes and clears the confirmation; on refusal, only closes the confirmation |
| ProductsPage.Page.RenderBarcodeCards | src/app/admin/products/page.tsx:195-223 | one card per unit in stock (none for a stock of 0 or less), each carrying `ALWAYSWEARME`, the form's name and price, and the payload of the selected id (0 when none) |

## Left out

- The database, authentication and `NextResponse`. Querying becomes selection from a table by the route's filters. The signed-in user and the query outcome are parameters. Responses are a `Response` datatype of body or status and message. `console` logging is left out.
- The rows' order. The routes' `.order('created_at', { ascending: true })` is not modelled: the table is taken in the order the query returns it. `CashFlow.CashFlowDaysAscending` and `Grouping.KeyOrderSorted` take that order as a hypothesis.
- Date handling. The date window (`Intl.DateTimeFormat`, `new Date`, `Date.now()`) is not modelled. The by-category routes import and call `convertDateToUTC` from `src/lib/utils.ts` (`src/app/api/admin/revenue/category/route.ts:3`, `:18-19`; `src/app/api/admin/expenses/category/route.ts:3`, `:17-18`), but that file does not define it, so those routes cannot compute their window as written. The model makes the window an abstract predicate on `created_at` in every route.
- Cash-flow timestamp normalisation. The `new Date(...).toISOString()` round trip in the cash-flow route is not modelled: the day is the prefix of `created_at` before `'T'`. For timestamps not already in UTC ISO form, the actual day may differ.
- MD5. `crypto.createHash('md5')` is a parameter that yields 32 lowercase hexadecimal characters.
- Floating point. Amounts are integers and margins are exact reals. Accumulated rounding and `parseFloat(margin.toFixed(2))` are not modelled.
- ProfitMargin.ProfitMarginSeries: states the margin before the two-decimal rounding, which is weaker than the rounded value the route returns.
- ProfitMargin.ProfitMarginRoute: states the margin before the two-decimal rounding, as `ProfitMargin.ProfitMarginSeries` does.
- JavaScript object quirks. Integer-like keys, which objects enumerate first in numeric order, are not modelled. Neither are keys that clash with inherited properties such as `constructor` or `__proto__`. Key order is plain first-insertion order.
- Non-ASCII case. `toLowerCase()` is modelled on ASCII letters only.
- Integer formatting. `toString()` of a product id is modelled for integers; a non-integer id is not.
- The requests the page sends. The add, edit and delete bodies, the product list fetched in `useEffect`, the `loading` flag, toasts, dialogs, printing, the `Barcode` component and the currency formatting of the label price are not modelled. The server's reply is a handler parameter.
- Stale list in the page handlers. `handleAddProduct`, `handleEditProduct` and `handleDeleteProduct` update the `products` list captured when the callback was created (`src/app/admin/products/page.tsx:123`, `:158`, `:180`). Two overlapping requests can therefore lose an update; for example, an add finishing after a delete brings the deleted product back. The model's handlers act atomically on the current state and do not capture this.
- Untyped stock count. The form's stock field is set from an untyped number input (`src/app/admin/products/page.tsx:517-524`), so `productInStock` may be a string or a fraction. `for (i < productInStock)` then coerces it and rounds the card count up. The model makes `productInStock` an integer and does not capture this.
- The product categories listed in `src/app/global.ts`. Only `BARCODE_TITLE` is used.
- `cn` and `formatDate` in `src/lib/utils.ts`. These are thin wrappers over class-name and date-formatting libraries.
- The CRUD routes for customers, order items and transactions, the login and logout routes, and the layout. These are not part of this model.
