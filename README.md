# Book inventory: a Dafny model

The inventory app keeps these tables on an Express server:
- books, with name, category, amount, cost and date;
- orders, with book name, quantity, customer name, category, order date and status;
- a log of activities.

It reports a per-category chart, a dashboard summary and the ten newest activities. A separate router file, `backend/routes/dashboardRoutes.js`, defines a `/books-by-category` report of its own; the server does not mount it (see "Left out").

A React front end uses it. The dashboard page shows activities as "N minutes ago" and picks an icon style per activity type. The Products and Orders pages list, filter, select, add, edit and delete rows.

The model has these modules:
- `Base`: sequences, distinct elements in first-occurrence order (a JavaScript `Set`), sums, filters and sorting.
- `Js`: the JavaScript behaviour the code relies on:
  - `trim`, ASCII `toLowerCase`, number-to-string and `parseInt`;
  - plain objects whose `Object.keys` order puts array-index keys first, ascending, then the other keys in insertion order.
- `Aggregation`: the `acc[k] = (acc[k] || 0) + v` fold shared by the two category reports.
- `Server`:
  - the rows and the request validation;
  - the message texts;
  - a `Store` class whose six methods are the POST, PUT and DELETE handlers. Each method states the whole new state, and each keeps the tables in id order below their counters.
- `ServerReports`: `/api/chart-data`, `/api/dashboard-summary` and `/api/activities`.
- `DashboardRoutes`: the loop of the unmounted `/books-by-category` router, as a method proved against a fold.
- `DashboardPage`: `getTimeAgo` and `activityStyles`.
- `PageValues`: the JavaScript values the pages hold: `undefined`, `null`, strings and numbers, objects, truthiness, chosen dates and submissions.
- `Selection`: the check-box toggle and the ids a delete takes; both pages share them.
- `OrdersPage`, `ProductsPage`: the pure helpers of each page, and a class whose fields are the page's React state and whose methods are its handlers. The classes follow the pages as written; the corrected Orders helpers of "Findings" stand beside them as functions with their own lemmas.

## Model

| member | source | states |
|---|---|---|
| Server.FindById | backend/server.js:163-164 | `findByPk`: the position found holds that id; no position means no row has the id |
| Server.FindByIdUnique | backend/server.js:163 | with ids in increasing order, the row found is the one row with that id |
| Server.RemoveKeepsIds | backend/server.js:245 | removing a row keeps the ids increasing and below the counter |
| Server.AppendKeepsIds | backend/server.js:140 | appending a row with the counter's id keeps the ids increasing and below the next counter |
| Server.Repeat | backend/server.js:137 | the pattern `\d{n}` is n digit atoms |
| Server.FullMatchPositions | backend/server.js:137 | an anchored pattern matches exactly the strings of its length that match atom by atom |
| Server.DateFormatIsPattern | backend/server.js:137 | the date check holds exactly when `^\d{4}-\d{2}-\d{2}$` matches |
| Server.ValidateBook | backend/server.js:133-139 | a book body passes iff all five fields are truthy and the date has the `YYYY-MM-DD` shape; a falsy field gives "All fields are required" before the date is looked at |
| Server.ZeroBookFieldsRejected | backend/server.js:134 | amount 0 or cost 0 is refused as a missing field |
| Server.ValidateOrderFields | backend/server.js:185-191 | an order body passes iff all six fields are truthy and the order date has the `YYYY-MM-DD` shape; a falsy field is reported first |
| Server.ValidateNewOrder | backend/server.js:182-191 | the order create refuses a body with no keys before any field check |
| Server.NewOrder | backend/server.js:192-199 | a created order stores the book name and the category trimmed, the other fields as given |
| Server.Store.constructor | backend/server.js:130-274 | the store starts with empty tables and every counter at 1 |
| Server.Store.Log | backend/server.js:141-144 | `Activity.create` appends one entry with the next id and the given type and message, without touching books or orders |
| Server.Store.PostBook | backend/server.js:130-150 | an invalid body is 400 with nothing changed; otherwise one new book with the next id and one `book_added` entry, and 201 with the book |
| Server.Store.PutBook | backend/server.js:152-177 | validation comes first (400, nothing changed), then the lookup (404, nothing changed); otherwise only that book is replaced, one `book_updated` entry is logged, and the reply is 200 |
| Server.Store.DeleteBook | backend/server.js:238-255 | an unknown id is 404 with nothing changed; otherwise only that book is removed, one `book_deleted` entry names it, and the reply is 204 |
| Server.Store.PostOrder | backend/server.js:179-209 | an empty or invalid body is 400 with nothing changed; otherwise one new trimmed order and one `order_received` entry, and 201 |
| Server.Store.PutOrder | backend/server.js:211-236 | validation (400), then the lookup (404), with nothing changed on either; otherwise only that order is replaced, untrimmed, one `order_updated` entry is logged, and the reply is 200 |
| Server.Store.DeleteOrder | backend/server.js:257-274 | an unknown id is 404 with nothing changed; otherwise only that order is removed, one `order_deleted` entry names the customer, and the reply is 204 |
| Aggregation.AmountForAbsent | backend/server.js:93-97 | a key no pair carries has total 0 |
| Aggregation.Tally | backend/server.js:93-97 | the fold builds a well-formed object |
| Aggregation.TallyKeys | backend/server.js:93-97 | the object's keys are exactly the distinct keys of the pairs, each once |
| Aggregation.TallyValues | backend/server.js:95 | each key holds the sum of the amounts paired with it |
| Aggregation.TallyTotal | backend/server.js:95 | the values over all keys add up to the sum of all amounts |
| Aggregation.TallyKeysInFirstOccurrenceOrder | backend/server.js:99 | when no key is an array index, `Object.keys` lists the keys in the order they first occur |
| Aggregation.OwnValues | backend/server.js:103 | `Object.values` lists, position by position, the value of each key of `Object.keys` |
| Aggregation.ValuesTotal | backend/server.js:103 | the values listed for some keys add up to the sum of those keys' values |
| ServerReports.ChartPairs | backend/server.js:94-95 | each book contributes its amount under its category, with "" read as "Uncategorized" |
| ServerReports.Chart | backend/server.js:98-107 | one dataset with the fixed label and colours; the labels are distinct and there is one value per label |
| ServerReports.LabelsAreCategories | backend/server.js:99 | every label is the category of some book |
| ServerReports.EveryCategoryLabelled | backend/server.js:94-99 | every book's category, "" folded into "Uncategorized", is a label |
| ServerReports.NoEmptyLabel | backend/server.js:94 | no label is empty |
| ServerReports.ChartDataAreTotals | backend/server.js:95-103 | each value is the sum of the amounts of the books in that label's category |
| ServerReports.ChartLabelsInFirstOccurrenceOrder | backend/server.js:93-99 | with no array-index category, the labels are the distinct categories in first-occurrence order |
| ServerReports.DashboardSummary | backend/server.js:119-122 | `lowStock` is the number of books with fewer than 50 copies, at most the number of books; `totalOrders` is the number of orders, 0 iff there are none |
| ServerReports.LowStockCount | backend/server.js:120 | the length of the filtered list is the number of low-stock positions |
| ServerReports.ChartTotalIsTotalBooks | backend/server.js:93-119 | the chart's values add up to `totalBooks` |
| ServerReports.RecentActivities | backend/server.js:79-82 | returns min(10, log size) entries in non-increasing `createdAt` order, taken from the log; every entry left out is no newer than any entry listed |
| ServerReports.NewestListedFirst | backend/server.js:79-82 | an entry strictly newer than all others comes first |
| DashboardRoutes.CategoryPairs | backend/routes/dashboardRoutes.js:12-17 | each book contributes its amount under its category, taken verbatim |
| DashboardRoutes.TruthyBranchIsAddTo | backend/routes/dashboardRoutes.js:13-17 | the two branches of the loop body together are the adding step of the fold |
| DashboardRoutes.Entries | backend/routes/dashboardRoutes.js:21-24 | one element per key of `Object.keys`, in that order, holding that key's value |
| DashboardRoutes.LoopStep | backend/routes/dashboardRoutes.js:12-18 | whichever branch runs, the object goes from the totals of the first i books to those of the first i + 1 |
| DashboardRoutes.BooksByCategory | backend/routes/dashboardRoutes.js:9-24 | the loop and the conversion return the entries of the per-category totals |
| DashboardRoutes.EntriesCategories | backend/routes/dashboardRoutes.js:21 | the categories of the result are `Object.keys` of the totals |
| DashboardRoutes.ByCategoryCategories | backend/routes/dashboardRoutes.js:12-24 | the categories are distinct; each book's category is one of them, and each of them is some book's category |
| DashboardRoutes.ByCategoryAmounts | backend/routes/dashboardRoutes.js:12-18 | each amount is the sum of the amounts of the books in that category |
| DashboardRoutes.ByCategoryLength | backend/routes/dashboardRoutes.js:9-24 | at most one element per book; no books give `[]` |
| DashboardRoutes.ByCategoryFirstOccurrence | backend/routes/dashboardRoutes.js:12-24 | with no array-index category, one entry per distinct category in first-occurrence order |
| DashboardRoutes.ByCategoryTotal | backend/routes/dashboardRoutes.js:12-18 | the amounts add up to the sum of all book amounts |
| DashboardRoutes.EmptyCategoryKeptVerbatim | backend/routes/dashboardRoutes.js:13-16 | an empty category stays "" here, while the chart (backend/server.js:94) folds it away |
| DashboardRoutes.AgreesWithChart | backend/routes/dashboardRoutes.js:12-24 | with no empty category, the route and the chart list the same categories and amounts in the same order |
| DashboardPage.Bucket | frontend/src/pages/Dashboard.jsx:73-81 | NaN iff the date does not parse; under a minute (the future included) is "Just now"; whole minutes are 1..59 below an hour and whole hours 1..23 below a day; then whole days are at least 1 and equal to floor(ms / 86 400 000) |
| DashboardPage.DigitRunOfNumber | frontend/src/pages/Dashboard.jsx:78-82 | the number's digits end where the unit text begins |
| DashboardPage.ReadRender | frontend/src/pages/Dashboard.jsx:77-82 | reading the text shown gives back the bucket, number and unit included |
| DashboardPage.RenderInjective | frontend/src/pages/Dashboard.jsx:77-82 | different buckets never show the same text |
| DashboardPage.OneHour | frontend/src/pages/Dashboard.jsx:79-80 | exactly 60 minutes shows "1 hour ago" |
| DashboardPage.UnparsableDate | frontend/src/pages/Dashboard.jsx:74-82 | an unparsable date shows "NaN day ago" |
| DashboardPage.OneMinute | frontend/src/pages/Dashboard.jsx:78 | one minute is singular: "1 minute ago" |
| DashboardPage.TwoMinutes | frontend/src/pages/Dashboard.jsx:78 | two minutes are plural: "2 minutes ago" |
| DashboardPage.FallbackIffUnlisted | frontend/src/pages/Dashboard.jsx:313-316 | a type gets the grey fallback exactly when the table does not list it |
| DashboardPage.OnlyOrderUpdatedFallsBack | frontend/src/pages/Dashboard.jsx:86-92 | of the six types the server writes, only `order_updated` is grey |
| DashboardPage.IconFollowsEntity | frontend/src/pages/Dashboard.jsx:87-91 | book types show the pie-chart icon, order types the credit-card icon |
| PageValues.Field | frontend/src/pages/Orders.jsx:72-80 | a key the object does not have reads as `undefined` |
| PageValues.TruncToward0 | frontend/src/pages/Orders.jsx:124 | `parseInt` of a number keeps its integer part, rounding toward zero |
| PageValues.IntJson | frontend/src/pages/Orders.jsx:124-136 | a NaN quantity is sent as `null`, a number as itself |
| Selection.Toggle | frontend/src/pages/Orders.jsx:94-98 | the index is in the result iff it was not selected; other indices keep their membership; a new index goes at the end; removal shortens; no duplicates appear |
| Selection.ToggleRemovesInPlace | frontend/src/pages/Products.jsx:85-91 | removing an index keeps the other indices in their order |
| Selection.ToggleTwice | frontend/src/pages/Products.jsx:85-91 | toggling twice restores the selected set, and the very list when the index was not selected |
| Selection.DeleteIds | frontend/src/pages/Orders.jsx:223-224 | with every index in range, one id per selected index, in selection order: the id of that row of the filtered list |
| Selection.DeleteTargets | frontend/src/pages/Orders.jsx:216-232 | an empty selection deletes nothing; an index past the end makes the batch fail; otherwise the ids are those of the selected rows |
| OrdersPage.CategoryOrNA | frontend/src/pages/Orders.jsx:77 | a falsy category shows as "N/A", any other as itself |
| OrdersPage.MappingAsWrittenLosesFields | frontend/src/pages/Orders.jsx:72-80 | the mapping as written leaves book name, customer name and order date `undefined` for every row the server sends |
| OrdersPage.MapRowsAsWritten | frontend/src/pages/Orders.jsx:72-81 | the mapping as written, one mapped row per fetched row, in order |
| OrdersPage.MappingKeepsFields | frontend/src/pages/Orders.jsx:72-80 | the corrected mapping keeps every field of a server row; only an empty category becomes "N/A" |
| OrdersPage.MapRows | frontend/src/pages/Orders.jsx:72-81 | the corrected mapping, one mapped row per fetched row, in order |
| OrdersPage.StatusMapsInverse | frontend/src/pages/Orders.jsx:247-260 | the display map knows exactly the four statuses, and the two maps undo each other |
| OrdersPage.Label | frontend/src/pages/Orders.jsx:264 | a known status shows its label; any other status shows raw |
| OrdersPage.UniqueStatuses | frontend/src/pages/Orders.jsx:262-265 | "All", then the distinct labels: every order's label is listed once, and nothing but labels is listed |
| OrdersPage.UniqueStatusesInFirstOccurrenceOrder | frontend/src/pages/Orders.jsx:264 | the labels are listed in order of first occurrence |
| OrdersPage.LookupValue | frontend/src/pages/Orders.jsx:271 | a filter that is not a label looks up `undefined` |
| OrdersPage.FilteredOrders | frontend/src/pages/Orders.jsx:267-273 | "All" shows every order; any other filter shows exactly the orders whose status is the filter's mapped value or the filter in lower case |
| OrdersPage.FilterValueAsWritten | frontend/src/pages/Orders.jsx:241-244 | "All" is kept and any other label is lower-cased |
| OrdersPage.FilterValue | frontend/src/pages/Orders.jsx:241-244 | the corrected handler keeps the label as picked |
| OrdersPage.LoweredLabelIsNoKey | frontend/src/pages/Orders.jsx:255-271 | a lower-cased filter is never a key of the value map |
| OrdersPage.PendingHiddenAsWritten | frontend/src/pages/Orders.jsx:241-273 | as written, picking "Order Pending" never shows an order whose status is "active" |
| OrdersPage.PendingOrderHiddenAsWritten | frontend/src/pages/Orders.jsx:241-273 | an "active" order is labelled "Order Pending", yet picking that label as written shows nothing |
| OrdersPage.PickedLabelShowsItsOrders | frontend/src/pages/Orders.jsx:262-273 | with the label kept as picked, the label of a known or lower-case status shows that order |
| OrdersPage.Prepare | frontend/src/pages/Orders.jsx:110-129 | blocked iff a field or the date is missing; a throw iff the date is invalid or a name is not a string; otherwise the payload holds the trimmed names, the parsed quantity and the day |
| OrdersPage.Received | backend/server.js:182-185 | the server reads the key count and the fields under their camelCase keys |
| OrdersPage.SnakeBodyRejected | frontend/src/pages/Orders.jsx:122-129 | every body sent as written is refused by both order handlers as missing fields |
| OrdersPage.CamelBodyAccepted | frontend/src/pages/Orders.jsx:110-129 | with camelCase keys, a form with non-empty trimmed names, a non-zero quantity and a well-formed day passes both order validations |
| OrdersPage.CompleteBodyAccepted | backend/server.js:182-191 | a camelCase body with non-empty names, a non-zero integer quantity and a `YYYY-MM-DD` day passes both order validations |
| OrdersPage.EditOfFetchedOrderBlockedAsWritten | frontend/src/pages/Orders.jsx:160-170 | as written, saving a fetched order as it is shows "Please fill in all fields." and sends nothing |
| OrdersPage.SentAddRejected | frontend/src/pages/Orders.jsx:121-137 | every add request the page sends is refused by the order create as missing fields |
| OrdersPage.SentEditRejected | frontend/src/pages/Orders.jsx:171-186 | every edit request the page sends is refused by the order update as missing fields |
| OrdersPage.PendingSelectionGoesStale | frontend/src/pages/Orders.jsx:216-232 | an "active" order selected under "All" and deleted after picking "Order Pending" is not deleted: the index is past the end of the empty filtered list and the batch fails |
| OrdersPage.OrdersPageState.constructor | frontend/src/pages/Orders.jsx:26-41 | no orders, no selection, filter "All", loading, a blank form with status "active", and today's date |
| OrdersPage.OrdersPageState.FetchOrders | frontend/src/pages/Orders.jsx:61-92 | an array response becomes the rows mapped as written (snake_case keys); any failure gives no orders and the error text; loading ends either way |
| OrdersPage.OrdersPageState.ToggleSelect | frontend/src/pages/Orders.jsx:94-98 | the selection becomes its toggle |
| OrdersPage.OrdersPageState.HandleFilterSelect | frontend/src/pages/Orders.jsx:241-244 | the filter becomes "All" or the label lower-cased; "All" shows every order, and "Order Pending" shows no "active" order |
| OrdersPage.OrdersPageState.HandleAddOrder | frontend/src/pages/Orders.jsx:109-157 | the request is the snake_case body the form and date give; only a sent and accepted one clears the form, resets the date and closes the dialog |
| OrdersPage.OrdersPageState.HandleEditOrder | frontend/src/pages/Orders.jsx:159-200 | the request is `PUT` to the order's id with the snake_case body; only a sent and accepted one drops the edited order, resets the date and closes the dialog |
| OrdersPage.OrdersPageState.OpenEditModal | frontend/src/pages/Orders.jsx:202-214 | the order becomes the one edited, its date the picked date, and the dialog opens |
| OrdersPage.OrdersPageState.HandleDeleteOrders | frontend/src/pages/Orders.jsx:216-239 | the ids deleted are those of the selected rows of the filtered list; the selection clears only when the batch succeeds |
| ProductsPage.BookRows | backend/server.js:57-60 | one row per book, with the model's attribute names |
| ProductsPage.Categories | frontend/src/pages/Products.jsx:207 | the category of each row, in order |
| ProductsPage.UniqueCategories | frontend/src/pages/Products.jsx:207 | "All", then the distinct categories: every row's category is listed once, and nothing else is |
| ProductsPage.UniqueCategoriesInFirstOccurrenceOrder | frontend/src/pages/Products.jsx:207 | the categories are listed in order of first occurrence |
| ProductsPage.FilteredItems | frontend/src/pages/Products.jsx:209-211 | "All" shows every row; any other filter shows exactly the rows with that category |
| ProductsPage.FilterValue | frontend/src/pages/Products.jsx:202-205 | the category is stored as picked, with no case change |
| ProductsPage.FilterRows | frontend/src/pages/Products.jsx:209-211 | filtering the rows of some books by category gives the rows of those books in that category |
| ProductsPage.PickedCategoryShowsItsBooks | frontend/src/pages/Products.jsx:202-211 | picking a category shows the rows of exactly the books in that category, in their order |
| ProductsPage.CategoryNamedAllShowsEverything | frontend/src/pages/Products.jsx:209 | a category literally named "All" shows every book |
| ProductsPage.Body | frontend/src/pages/Products.jsx:103-114 | blocked iff a field is falsy; a throw iff the date is cleared or invalid; otherwise the body is the form, every field as typed, plus the day |
| ProductsPage.EditRequest | frontend/src/pages/Products.jsx:138-149 | no row being edited throws; otherwise the request is `PUT` to the row's id with the body |
| ProductsPage.ClearedDateNotGuarded | frontend/src/pages/Products.jsx:103-108 | a filled form with the date cleared passes the guard and throws at `toISOString` |
| ProductsPage.BlankItemBlocked | frontend/src/pages/Products.jsx:103-106 | the blank form never sends anything |
| ProductsPage.ProductsPageState.constructor | frontend/src/pages/Products.jsx:26-40 | no rows, no selection, filter "All", loading, a blank form and today's date |
| ProductsPage.ProductsPageState.FetchBooks | frontend/src/pages/Products.jsx:62-83 | an array response is stored as it came; any failure gives no rows and the error text; loading ends either way |
| ProductsPage.ProductsPageState.ToggleSelect | frontend/src/pages/Products.jsx:85-91 | the selection becomes its toggle |
| ProductsPage.ProductsPageState.HandleFilterSelect | frontend/src/pages/Products.jsx:202-205 | the filter becomes the category picked, and "All" shows every row |
| ProductsPage.ProductsPageState.HandleAddItem | frontend/src/pages/Products.jsx:102-131 | the request is the one the form and date give; only a sent and accepted one clears the form, resets the date and closes the dialog |
| ProductsPage.ProductsPageState.HandleEditItem | frontend/src/pages/Products.jsx:137-170 | the request is `PUT` to the row's id; only a sent and accepted one drops the edited row, resets the date and closes the dialog |
| ProductsPage.ProductsPageState.OpenEditModal | frontend/src/pages/Products.jsx:172-176 | the row becomes the one edited, its date the picked date, and the dialog opens |
| ProductsPage.ProductsPageState.HandleDeleteItems | frontend/src/pages/Products.jsx:178-199 | the ids deleted are those of the selected rows of the filtered list; the selection clears only when the batch succeeds |
| Js.TrimFacts | backend/server.js:192-196 | the trimmed text does not start with white space, and it is empty iff the text is all white space |
| Js.TrimIdempotent | backend/server.js:192-196 | trimming twice is trimming once |
| Js.ToLower | frontend/src/pages/Orders.jsx:241-244 | same length, each letter lowered, and no capital left |
| Js.NatToString | frontend/src/pages/Dashboard.jsx:78-82 | a number prints as a non-empty string of digits with no leading zero |
| Js.NatToStringRoundTrip | frontend/src/pages/Dashboard.jsx:78-82 | reading the printed digits gives back the number |
| Js.DigitRun | frontend/src/pages/Orders.jsx:124 | the leading run of digits `parseInt` reads, and nothing after it is a digit |
| Js.ParseIntOfNumeral | frontend/src/pages/Orders.jsx:124 | `parseInt` of a printed number gives that number back |
| Js.OwnKeys | backend/server.js:99 | `Object.keys`: each key once; the array-index keys come first, ascending, then the others in insertion order |
| Js.OwnKeysPermutes | backend/routes/dashboardRoutes.js:21 | `Object.keys` lists each key once, as many keys as were inserted, and exactly the object's keys |
| Base.Distinct | frontend/src/pages/Orders.jsx:264 | `new Set`: no duplicates, exactly the elements of the input |
| Base.DistinctKeepsFirstOccurrenceOrder | frontend/src/pages/Products.jsx:207 | the distinct elements are listed in the order they first occur |
| Base.Filter | frontend/src/pages/Products.jsx:210 | `filter` keeps only elements passing the test, and every element passing it |
| Base.FilterSnoc | frontend/src/pages/Products.jsx:210 | a last element is kept, at the end, exactly when it passes the test |
| Base.FilterIsSubsequence | frontend/src/pages/Orders.jsx:269-273 | what `filter` keeps sits at increasing positions of the input: the kept elements keep their order |
| Base.SortBy | backend/server.js:80 | the sorted list is in order and a permutation of the input |

## Left out

- HTTP, Express, CORS, Sequelize and SQLite are left out. The tables are sequences in the `Store` class, and the handlers are its methods. Route parameters are taken as integer ids. `findByPk` with a string id that is not a number is not modelled.
- The 500 paths of every route are left out: the in-memory store never fails.
- The list routes `GET /api/books` and `GET /api/orders` only read a table. `ProductsPage.BookRows` stands for what they send.
- `backend/routes/bookRoutes.js` has no logic of its own and is not part of this model.
- Request bodies are typed. A text field is a string or missing, `amount` and `quantity` are integers, and `cost` is a real. A body whose JSON types differ from the column types, for example an amount sent as a string, is left out on the server side.
- `OrdersPage.Received` reads only string and integral number fields. How Sequelize would coerce other types is not modelled.
- `cost` is a real and is only tested for being falsy. Floating-point arithmetic is not modelled.
- `Store.Log` takes the insertion time as a parameter. The clock is not modelled.
- Keys inherited from `Object.prototype` are left out. A category named "constructor", for example, would be truthy in the route's object before its first book is added.
- `getTimeAgo` takes the difference as integer milliseconds, or NaN for a date that does not parse. `new Date` parsing and time zones are left out.
- The floating-point rounding of `diffInMs / 1000 / 60` is not modelled. Integer division with the floor is used.
- `toISOString` and `toLocaleDateString` are left out. A chosen date is given by its `YYYY-MM-DD` day. A year outside 0000-9999, which `toISOString` prints differently, is not modelled.
- The unused `today` constant of the dashboard page is left out.
- `Js.ToLower` lowers ASCII letters only. Full Unicode case mapping is left out.
- `PageValues.ParseValue` reads a number by its integer part. A number whose decimal form uses an exponent, such as 1e21, is not modelled.
- `Promise.all` runs the deletes concurrently and fails on the first rejection. The model keeps only the ids the batch targets, whether any index is past the end, and whether the batch succeeded.
- The refetch after a successful change is left out. It is the separate `FetchOrders`/`FetchBooks` call with the next response.
- `handleInputChange` is left out. It sets one form field to the text typed, so the form is a parameter of the submissions.
- The dropdown, the modals, the click-outside handler, the alerts' texts, rendering, the theme and the UI components are left out.
- `backend/routes/dashboardRoutes.js` is never mounted: `backend/server.js` requires no router and its only `app.use` calls are the JSON parser and CORS. So `/books-by-category` cannot be reached as the repository ships. The router reads books through `backend/models/Books.js`, whose cost is a FLOAT and whose date is a "DD/MM/YYYY" string; the model feeds the route the `Server.Book` rows instead.
- The Orders page sends its requests to the server named by `VITE_API_URL`. The model assumes that server is `backend/server.js`; `OrdersPage.Received`, `OrdersPage.SnakeBodyRejected`, `OrdersPage.CamelBodyAccepted`, `OrdersPage.SentAddRejected` and `OrdersPage.SentEditRejected` rest on that assumption. The Products and Dashboard pages call `localhost:5000`, the port of `backend/server.js`.
- The selection is a list of positions in the filtered list that survives a filter change and a refetch. So a delete after a change of filter can target other rows. The model shows this through `Selection.DeleteTargets` on the current filtered list.
- The Products payloads are not connected to the server's `BookBody`. The form holds strings, such as an amount typed as "12", and what the server does with them depends on type coercion that is not modelled.
- The server does not send `createdAt` and `updatedAt` with a row in this model. No page reads them.

## Findings

Findings 2 and 3 compare the Orders page with `backend/server.js`, whose order attributes are camelCase. The page takes its server from `VITE_API_URL` (`frontend/src/pages/Orders.jsx:65`) and its comment at line 71 speaks of "Supabase fields", so it may have been aimed at another backend; within this repository the only order API is `backend/server.js`, and that is the one the findings assume.

| source | as written | input that shows it | evidently intended | confidence | as-written member | corrected member |
|---|---|---|---|---|---|---|
| frontend/src/pages/Orders.jsx:241-244 | any label but "All" is stored lower-cased, and `statusValueMap` has only capitalised keys | an order with status "active": picking its label "Order Pending" gives the filter "order pending", which matches neither "active" nor the map | the label is kept, so that `statusValueMap` turns "Order Pending" into "active" | high, not executed | OrdersPage.PendingOrderHiddenAsWritten | OrdersPage.PickedLabelShowsItsOrders |
| frontend/src/pages/Orders.jsx:122-129 | the add body, and the edit body at lines 172-179, use the keys `book_name`, `customer_name` and `order_date` | any filled form: the server reads `bookName` (backend/server.js:185,215), finds it missing and answers 400 "All fields are required" | the camelCase keys the server reads | medium, not executed | OrdersPage.SnakeBodyRejected | OrdersPage.CamelBodyAccepted |
| frontend/src/pages/Orders.jsx:72-80 | the fetched rows are read under `book_name`, `customer_name` and `order_date` | any order the server sends: the page shows it with book name, customer name and date `undefined`, and saving it unchanged is blocked | the rows are read under the camelCase keys the server sends | medium, not executed | OrdersPage.MappingAsWrittenLosesFields | OrdersPage.MappingKeepsFields |

The page class `OrdersPage.OrdersPageState` follows the page as written: it stores `FilterValueAsWritten`, maps with `MapRowsAsWritten` and sends `SnakeBody`. The corrected members, `FilterValue`, `MapRow` and `CamelBody`, carry the intended properties as lemmas.
