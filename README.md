# fassr restaurant ordering: a Dafny model

fassr is a small Next.js restaurant application with two faces. Customers browse a menu and
place delivery orders on the storefront (`public/js/app.js`). Staff work in the admin panel: the
order board, meals, categories and settings (`public/js/admin-*.js`). Both faces share one
browser-side data layer, `public/js/data.js`. It keeps the application state (categories,
meals, settings, orders) in memory and in `localStorage`, loads each collection at most once at
a time, applies changes optimistically, and normalises the orders the server sends. The server
answers at `/api/orders`, `/api/meals`, `/api/categories`, `/api/settings` and `/api/init`
through route handlers over a Prisma database. `/api/updates` is a server-sent-events channel
over a process-wide emitter (`app/lib/eventBus.js`). Each connection listens for `order-update`
events, but no handler in the repository emits one. So the only frame a connection receives is
the `connected` notice, and the store answers it with one refresh of the orders.

This project models that core in Dafny and proves what the code promises about it.

- `Js` gives JavaScript's dynamic values and the operators the code leans on.
  - Truthiness, `||` and property reads.
  - Shallow spread.
  - `String(x)`, `parseInt`, `parseFloat` and `Number(x)`.
  - `===` and `==`.
  - `localStorage` as a map of JSON items, where an item that does not parse is a case of its own.
- `Lists` gives `filter`, `map` and the stable `sort`, together with the comparators and `orderBy` clauses in use.
- `Arith` gives the rounding and the real-number facts the page arithmetic needs.
- `Db` stands in for the Prisma client: one table per model, rows keyed by an autoincrement `id`, and the JSON replies.
- `Data` is the browser store, as a class.
  - Its fields are the collections, the load flags, the pending fetches, the paging record, the local completion dates, `localStorage`, the events it dispatches and the requests it sends.
  - Each network call is a step before the request, an outcome passed in as a parameter, and a step after it.
- `OrdersRoute`, `MealsRoute`, `CategoriesRoute`, `SettingsRoute` and `InitRoute` are the route handlers.
  - Each is a function of the request and the tables.
  - Handlers that write are methods on the `Database` object.
- `Updates` is the push channel: the emitter with its listener list, and the frames each open connection has received.
- `AdminCore`, `AdminOrders`, `AdminMeals`, `AdminCategories` and `AdminSettings` model the admin pages. `Shop` models the storefront.
  - Each page's module state is a class.
  - Its rules are functions of what the page reads off the DOM.
- `Wiring` connects client and server.
  - What the store makes of the order listing it is fed.
  - Where the status update's fallback request lands.

Two facts that cross files are proved in `Wiring`:

- The order listing is a flat array, so after `refreshOrders()` the store has no paging record to advance, and `loadMoreOrders()` fetches nothing.
- Without `ApiClient.updateOrderStatus`, the store sends the new status in the query string of a body-less `PUT`. The handler reads a JSON body, so it answers 500 and changes no order.

Two further facts come out of the code itself:

- `MealsRoute.ActiveFilterNeverTrue`: the `active` filter of the meal listing is set only when the parameter parses as an integer, and it then compares the text with `'true'`. It can therefore only ever ask for inactive meals.
- `Shop.UnknownOpenShowsOpen`: `getSettings()` fills in `isOpen: true`, so through it the storefront's "hide the indicator" branch is never taken.


## Model

| member | source | states |
|---|---|---|
| Js.TrimStartMeaning | app/api/categories/route.js:39 | `trim` (as used for the required-name checks) drops exactly the leading white space: the result is a suffix of the input, starts with a non-space, and everything dropped is white space |
| Js.TrimEndMeaning | app/api/categories/route.js:39 | the trailing half of `trim`: the result is a prefix of the input, ends with a non-space, and everything dropped is white space |
| Js.SuffixContains | public/js/admin-categories.js:35 | `includes` finds a substring of any suffix of the searched text |
| Js.PrefixContains | public/js/admin-categories.js:35 | `includes` finds whatever a prefix of the searched text contains |
| Js.ToLower | public/js/app.js:192 | `toLowerCase` keeps the length of the text |
| Js.DigitRunMeaning | app/api/meals/route.js:52-53 | the digits `parseInt` reads are a maximal run of decimal digits |
| Js.ParseIntStr | app/api/meals/route.js:52-53 | `parseInt` of a text yields an integer or `NaN` |
| Js.ParseIntIntegral | app/api/orders/route.js:110 | `parseInt(v)` of any value is an integer when it is a number |
| Js.ParseFloatStr | app/api/orders/route.js:74-76 | `parseFloat` of a text yields a number or `NaN` |
| Js.ParseFloatIntString | app/api/orders/route.js:74-76 | `parseFloat(String(i))` gives back the integer `i` |
| Js.ParseFloat | app/api/orders/route.js:74-76 | `parseFloat(v)` of any value yields a number or `NaN`, and a number is returned as it is |
| Js.StringToNumber | public/js/app.js:218-224 | the `Number` conversion of a text the comparators apply yields a number or `NaN` |
| Js.StringToNumberIntString | public/js/app.js:218-224 | `Number(String(i))` gives back the integer `i` |
| Js.NumberOfText | public/js/app.js:218-224 | `Number` of blank text is 0, and `Number` and `parseFloat` of text that starts with a letter are `NaN` |
| Js.ToNumber | public/js/app.js:148 | the numeric conversion the `-` of a comparator applies yields a number or `NaN` |
| Js.ToNumberCases | public/js/app.js:148 | `Number(v)` is 0 for `null`, 0 or 1 for a boolean, the number itself for a number, the text's reading for a string, and `NaN` for `undefined` and objects |
| Js.Add | public/js/admin-orders.js:99 | `+` adds two numbers; when either operand is a string it concatenates the two texts, as the item count's running sum does |
| Js.ReadJson | public/js/data.js:29 | reading a cached item gives the stored JSON value, takes the fallback when the item is absent, and fails when the text does not parse |
| Js.NatToStringDigits | public/js/app.js:433-455 | `parseInt` reads the whole decimal text of a natural number and gives back its value |
| Js.IntToStringRoundTrip | public/js/app.js:433-455 | `parseInt(String(i))` gives back the integer `i`, so the quantity the dialog's counter shows is the quantity it reads back |
| Js.ParseIntLetter | app/api/meals/route.js:58 | a text whose first non-blank character is a letter, such as `true`, is `NaN` to `parseInt` |
| Lists.Filter | public/js/app.js:202 | `filter` never lengthens the list |
| Lists.FilterMembers | public/js/app.js:202 | an element is kept exactly when it was in the list and passes the test |
| Lists.FilterAll | public/js/admin-orders.js:56 | every kept element passes the test |
| Lists.FilterAppend | public/js/admin-orders.js:56 | filtering distributes over concatenation, so kept elements keep their relative order |
| Lists.FilterKeepsAll | public/js/app.js:206 | a test every element passes keeps the whole list |
| Lists.FilterLength | public/js/admin-meals.js:170 | nothing is dropped exactly when all pass, and everything exactly when none passes |
| Lists.FilterPartition | public/js/admin-core.js:38 | a test and its negation share out the list between them |
| Lists.Map | app/api/orders/route.js:34 | `map` gives one result per element, in place |
| Lists.LeTotal | public/js/app.js:148 | any two entries are comparable by each comparator in use |
| Lists.LeTrans | public/js/app.js:148 | each comparator's order is transitive |
| Lists.InsertSorted | public/js/app.js:218-224 | inserting one element into a sorted list keeps it sorted and adds exactly that element |
| Lists.SortCorrect | public/js/app.js:148 | `sort` with the comparator returns the same elements, sorted by it |
| Lists.SortSortedIdentity | public/js/app.js:218-224 | a list already in order comes back unchanged |
| Lists.InsertFilter | public/js/app.js:218-224 | inserting into a sorted list puts the new element behind every element with the same key |
| Lists.InsertFront | public/js/app.js:218-224 | an element placed in front of a sorted list whose head sorts strictly after it shares its key with no element of the list |
| Lists.SortByStable | public/js/app.js:218-224 | sorting by a key is stable: for every key, the elements with that key come out in the order they went in |
| Lists.SortStable | public/js/app.js:218-224 | `sort` with each comparator is stable: the elements the comparator ranks equal come out in the order they went in |
| Lists.SortByCorrect | public/js/app.js:218-224 | sorting by a key returns the same elements, in order by that key |
| Lists.SortByIdentity | public/js/app.js:218-224 | a list already in order by the key comes back unchanged |
| Lists.SortedByKey | public/js/app.js:148 | a list is in order by a comparator exactly when it is in order by that comparator's key |
| Lists.InsertLast | public/js/app.js:218-224 | an element that sorts after all others is placed at the end |
| Lists.ByOrderKey | app/api/init/route.js:13 | ordering by `order` looks at nothing but the `order` column |
| Lists.NewestFirstKey | app/api/orders/route.js:31 | newest-first ordering looks at nothing but `createdAt` |
| Lists.MapSorted | app/api/init/route.js:8-34 | a projection that keeps the sort key keeps a sorted list sorted |
| Arith.CeilBounds | app/api/meals/route.js:90 | `Math.ceil` gives the least integer at or above its argument |
| Arith.CeilPages | app/api/meals/route.js:90 | `Math.ceil(total / limit)` pages of `limit` items hold all `total` items, and one page fewer does not |
| Arith.PageStart | app/api/meals/route.js:74-90 | page `page` starts inside the items exactly when it is at most `totalPages` |
| Db.Ok | app/api/orders/route.js:58 | `NextResponse.json(body)` answers 200 with that body |
| Db.Failure | app/api/orders/route.js:60 | an error reply carries the given status and `{ error }` message |
| Db.Param | app/api/orders/route.js:126-128 | a query parameter is truthy exactly when it is present and not empty |
| Db.Find | app/api/orders/route.js:113-116 | the lookup by id finds a row with that id, and finds none exactly when no row has it |
| Db.FindKeyed | app/api/orders/route.js:113-116 | in a table with distinct ids, an id names exactly its own row |
| Db.Patched | app/api/orders/route.js:113-116 | an update sets the columns in `data` and keeps every other column |
| Db.Created | app/api/orders/route.js:68-91 | a created row carries the table's next id and exactly the given columns |
| Db.Removed | app/api/orders/route.js:131 | a delete drops the row at its position and keeps the others in order |
| Db.CreatedKeyed | app/api/orders/route.js:68-91 | a created row's autoincrement id keeps the ids distinct and finds the new row |
| Db.PatchedKeyed | app/api/orders/route.js:113-116 | an update that writes no id keeps the ids distinct |
| Db.ReplacedKeyed | app/api/meals/route.js:146-168 | replacing a row by one with the same id keeps the ids distinct |
| Db.RemovedKeyed | app/api/orders/route.js:131 | a delete keeps the ids distinct, leaves no row with that id and keeps every other row |
| Db.ConsKeyed | app/api/categories/route.js:161-171 | a row with a fresh id may join a keyed table |
| Db.FilterKeyed | app/api/categories/route.js:161-171 | `deleteMany` keeps the remaining ids distinct |
| Db.Database.constructor | app/api/orders/route.js:2 | a fresh database has empty tables numbering their rows from 1 |
| OrdersRoute.Disjoint | app/api/orders/route.js:34-56 | the listed columns passed through and those renamed are distinct, and neither is `completedAt` |
| OrdersRoute.RenamedColumns | app/api/orders/route.js:36-39 | the rebuilt columns of a listed order are exactly `id`, `orderNumber`, `address` and `items` |
| OrdersRoute.ListedOrderRenamed | app/api/orders/route.js:35-39 | a listed order's id and order number are the row id, and its address is the customer address |
| OrdersRoute.ListedOrderCopied | app/api/orders/route.js:37-49 | every other selected column is listed unchanged |
| OrdersRoute.ListedOrderNoCompletion | app/api/orders/route.js:7-30 | the listing selects no completion time |
| OrdersRoute.ListedOrderLines | app/api/orders/route.js:50-55 | one listed line per stored line, with quantity and price kept, `name` the meal name and `sizeName` the size |
| OrdersRoute.GetOrders | app/api/orders/route.js:4-62 | 200 exactly when the query succeeds, with a flat array and no `orders` wrapper; 500 `Failed to fetch orders` otherwise |
| OrdersRoute.ListedKeepsCreatedAt | app/api/orders/route.js:49 | listing keeps the creation time |
| OrdersRoute.ListedKeepsKey | app/api/orders/route.js:31-56 | the listed shape sorts as the stored row does |
| OrdersRoute.OrderListNewestFirst | app/api/orders/route.js:31 | the listing is sorted newest first |
| OrdersRoute.OrderListHasEvery | app/api/orders/route.js:6-56 | the listing has one entry per stored order and shows every one of them |
| OrdersRoute.OrderListOnlyListed | app/api/orders/route.js:6-56 | every listed entry is a stored order in its listed shape |
| OrdersRoute.Amount | app/api/orders/route.js:74-76 | `parseFloat(v) \|\| 0` is always a number |
| OrdersRoute.NewOrder | app/api/orders/route.js:68-89 | the create data exists exactly when the posted items form an array (`items.map` throws otherwise) |
| OrdersRoute.NewOrderColumn | app/api/orders/route.js:70-79 | each of the ten fixed columns of the create data is written by its own rule |
| OrdersRoute.DefaultColumns | app/api/orders/route.js:72-79 | the status, type and notes rules fall back to `new`, `delivery` and `''`, and the address rule is the posted-address chain |
| OrdersRoute.NewOrderDefaults | app/api/orders/route.js:77-79 | status defaults to `new`, type to `delivery` and notes to empty |
| OrdersRoute.PostedAddress | app/api/orders/route.js:72 | the address is `customerAddress`, else `address`, else empty |
| OrdersRoute.NewOrderAddress | app/api/orders/route.js:72 | the stored address is the posted address with those fallbacks |
| OrdersRoute.NewOrderAmounts | app/api/orders/route.js:74-76 | total, subtotal and delivery cost are stored as `parseFloat` of the posted value or 0 |
| OrdersRoute.NewOrderLocation | app/api/orders/route.js:73 | the location is stored as the location rule gives it |
| OrdersRoute.StoredLocationCases | app/api/orders/route.js:73 | a string location is kept, another truthy one is stored as its JSON text, a falsy one as empty |
| OrdersRoute.StoredLine | app/api/orders/route.js:81-87 | a stored line is named `name`, else `mealName`, else `Unknown` (so always named), and sized `sizeName`, else `size`, else empty |
| OrdersRoute.NewOrderLines | app/api/orders/route.js:80-88 | one stored line per posted line, each stored by the line rule |
| OrdersRoute.CreateOrder | app/api/orders/route.js:64-99 | an unreadable body, non-array items or a failing write answer 500 `Failed to create order` and store nothing; otherwise the order is appended under the next id, stamped by the database, and sent back |
| OrdersRoute.StoreOrder | app/api/orders/route.js:68-93 | the create appends the row, lines included, under the next id and sends that row back |
| OrdersRoute.PostedOrderListed | app/api/orders/route.js:35-49 | a posted order is listed with its new id as order number and the database's time stamp |
| OrdersRoute.PostedOrderAddress | app/api/orders/route.js:39-72 | a posted order is listed with the address it was stored with |
| OrdersRoute.PostedRowColumn | app/api/orders/route.js:68-91 | every posted column other than id and time stamp is stored as the create data has it |
| OrdersRoute.PostedLinesListed | app/api/orders/route.js:50-87 | each posted line comes back in the listing under the name and size it was stored with |
| OrdersRoute.StatusPatch | app/api/orders/route.js:108-111 | the update data holds status exactly when it is truthy, rating (parsed) and review exactly when they are given, and nothing else |
| OrdersRoute.StatusPatchKeepsOthers | app/api/orders/route.js:108-116 | an update changes nothing but status, rating and review: never the completion time, and not the status when none is sent |
| OrdersRoute.WithoutLines | app/api/orders/route.js:113-116 | the row `order.update` returns without `include` has every column of the stored row except the lines |
| OrdersRoute.UpdateOrder | app/api/orders/route.js:101-122 | an unreadable or `null` body answers 500 `Update failed`; no truthy id answers 400 `ID required`; a failing query or an unknown id answers 500 `Update failed`; otherwise that order is patched in place and sent back without its lines, as `update` without `include` returns it |
| OrdersRoute.DeleteOrder | app/api/orders/route.js:124-136 | a missing id answers 400; an unknown id or a failing query answers 500 `Delete failed`; otherwise exactly that order is gone, every other one kept, and `{ success: true }` is sent |
| MealsRoute.ActiveFilterNeverTrue | app/api/meals/route.js:58 | the `active` filter is only set when `parseInt` reads a number from the parameter, so it is never set to `true` (the text `true` is `NaN` to `parseInt`) |
| MealsRoute.Window | app/api/meals/route.js:78-79 | `skip` then `take` gives the slice of the ordered rows from the offset, at most `take` long, and nothing past the end; a negative `take` gives the last `-take` rows before the skipped ones at the end |
| MealsRoute.TotalPagesCount | app/api/meals/route.js:90 | the reported page count is the least number of pages of `limit` meals holding all matching meals, and a page has meals exactly when it is at most that count |
| MealsRoute.OffsetIsPageTimesLimit | app/api/meals/route.js:52-79 | with a page the offset is `(page - 1) * limit`, with a limit at most `limit` meals are taken, and without them there is no offset and no bound |
| MealsRoute.SkipFloor | app/api/meals/route.js:54 | the offset of two integers is their integer product |
| MealsRoute.PageBody | app/api/meals/route.js:84-92 | the paged answer holds the window of matching meals, and its pagination the total, page, limit and page count |
| MealsRoute.NegativeLimitTakesLast | app/api/meals/route.js:49-79 | a negative `limit` without a page or category is a valid query whose answer lists the last `-limit` matching meals by `order` |
| MealsRoute.LastRows | app/api/meals/route.js:49-79 | with no page and a negative `limit`, the answer's meals are the last `-limit` matching meals |
| MealsRoute.WindowTail | app/api/meals/route.js:79 | a negative `take` with no `skip` keeps the last `-take` rows, or all of them when there are fewer |
| MealsRoute.GetMeals | app/api/meals/route.js:33-103 | an unreachable database answers an empty list; without paging parameters the answer is a flat array holding exactly the stored meals, each as often as stored, sorted by `order`; with them the answer is 200 exactly when the query is valid, and is then the `MealsPage` body (see PageBody and MatchingSelected), and 500 `Failed to fetch meals` otherwise |
| MealsRoute.MatchingSelected | app/api/meals/route.js:56-81 | the paged branch lists exactly the meals the `where` clause selects, by `order` |
| MealsRoute.PaginationDefaults | app/api/meals/route.js:52-53 | without `page` the answer reports page 1 and without `limit` a limit of 50 |
| MealsRoute.SafeNumber | app/api/meals/route.js:121-132 | `isNaN(p) ? 0 : p` is always a number and keeps a number |
| MealsRoute.SizeRecordFields | app/api/meals/route.js:128-133 | a prepared size is always named (`size` by default) and priced with a number (0 when the price does not parse) |
| MealsRoute.PrepareSizes | app/api/meals/route.js:126-135 | an array gives one prepared size per entry, anything else none |
| MealsRoute.Refusal | app/api/meals/route.js:111-140 | a `null` body answers the save failure's 500, since its first property read throws; any other refusal before the database is a 400, or the 500 of a name that is not a string |
| MealsRoute.RefusalCases | app/api/meals/route.js:111-140 | a body passes exactly when its name is a non-blank string, its category is truthy and parses, and a given id parses |
| MealsRoute.MealColumns | app/api/meals/route.js:169-195 | the written columns never include the id, the sizes or the order |
| MealsRoute.MealColumnsDefaults | app/api/meals/route.js:170-177 | a saved meal is active unless told otherwise, not popular, sized or pictured unless told so, and keeps its name as sent |
| MealsRoute.PriceOf | app/api/meals/route.js:120-121 | the written price is always a number |
| MealsRoute.UpdatedColumns | app/api/meals/route.js:167-183 | an update never writes the id |
| MealsRoute.UpdatedMealSizes | app/api/meals/route.js:143-180 | an update replaces the sizes exactly when the body has `sizes`, and keeps order and id |
| MealsRoute.SaveMeal | app/api/meals/route.js:105-213 | refusals, unreadable bodies and `null` bodies (a 500) store nothing; without an id the meal is created under the next id; with one the meal is updated in place, or a 500 when no meal has that id |
| MealsRoute.CreateMeal | app/api/meals/route.js:186-202 | the create appends the new meal under the next id and sends it back |
| MealsRoute.UpdateMeal | app/api/meals/route.js:138-183 | the update writes the updated meal in place, or answers 500 when no meal has the id |
| MealsRoute.ClearThenPatch | app/api/meals/route.js:145-180 | deleting the sizes and then writing new ones equals writing the new ones |
| MealsRoute.ClearThenKeep | app/api/meals/route.js:145-180 | deleting the sizes and then writing none leaves them empty |
| MealsRoute.UpdateSteps | app/api/meals/route.js:143-183 | the two-step update (delete sizes, then update) writes the same row as the one-step description |
| MealsRoute.DeleteMeal | app/api/meals/route.js:216-263 | a missing id answers 400 `ID required`, a non-integer one 400 `Invalid ID`, an unknown one or a failing query 500; otherwise exactly that meal is gone |
| CategoriesRoute.GetCategories | app/api/categories/route.js:22-32 | 200 with a flat array exactly when the query succeeds; 500 `Failed to fetch categories` otherwise |
| CategoriesRoute.ListedCategories | app/api/categories/route.js:6-25 | a category is listed exactly when it is stored and, unless `all=true`, active; the list is by `order`, and with `all=true` it has every category |
| CategoriesRoute.TextRefusal | app/api/categories/route.js:39-45 | a required field passes exactly when it is a non-blank string, and a missing or blank string answers 400 with its message |
| CategoriesRoute.Refusal | app/api/categories/route.js:39-50 | a body passes exactly when name and icon are non-blank strings and a given id parses; a `null` body answers 500 `فشل في حفظ القسم`, since reading `body.name` throws; otherwise the name is checked first |
| CategoriesRoute.ActiveFlag | app/api/categories/route.js:77-92 | the active flag is `true` when the body gives none, and the body's otherwise |
| CategoriesRoute.CategoryUpdate | app/api/categories/route.js:74-78 | an update writes exactly name, icon and the active flag, so the order is kept |
| CategoriesRoute.NewCategory | app/api/categories/route.js:88-93 | the create data has no id |
| CategoriesRoute.NewCategoryColumns | app/api/categories/route.js:88-93 | a new category has the name and icon sent, the active flag, and a numeric order |
| CategoriesRoute.SaveCategory | app/api/categories/route.js:34-105 | refusals, unreadable bodies, `null` bodies (a 500) and a failing database store nothing; without an id the create branch runs, with one the category is patched in place, or 500 when no category has that id |
| CategoriesRoute.UpdateCategory | app/api/categories/route.js:48-79 | the update branch patches the category with that id, or answers 500 when there is none |
| CategoriesRoute.CreateCategory | app/api/categories/route.js:80-95 | a name already taken answers 400 and stores nothing; otherwise the category is appended under the next id; distinct names stay distinct |
| CategoriesRoute.CreatedDistinct | app/api/categories/route.js:82-94 | creating under an untaken name keeps the names distinct |
| CategoriesRoute.UpdateCanDuplicateName | app/api/categories/route.js:72-79 | the update branch has no duplicate check: a rename can give two categories one name |
| CategoriesRoute.IdRefusal | app/api/categories/route.js:111-117 | a missing id answers 400 `ID required`, a non-integer one 400 `Invalid ID`, and only an integer passes |
| CategoriesRoute.DeletionFails | app/api/categories/route.js:111-180 | a refused id, a failing database or an unknown id answers with its error and leaves both tables as they were |
| CategoriesRoute.DeletionDeletes | app/api/categories/route.js:160-176 | a deletion that goes through answers success, leaves no category with the id and no meal in it, and keeps every other category and meal |
| CategoriesRoute.DeleteCategory | app/api/categories/route.js:107-181 | the handler's reply and tables are those the deletion outcome gives |
| CategoriesRoute.DeleteTransaction | app/api/categories/route.js:161-171 | the transaction deletes the category's meals and then the category; when the category is missing the meals come back too |
| CategoriesRoute.RestoreMeals | app/api/categories/route.js:161-171 | the rollback puts the meals table back |
| CategoriesRoute.RemoveCategory | app/api/categories/route.js:168-170 | `category.delete` removes the row at its position |
| CategoriesRoute.DeleteMealsOf | app/api/categories/route.js:163-165 | `meal.deleteMany` keeps exactly the meals outside the category |
| CategoriesRoute.DeletedCategoryMeals | app/api/categories/route.js:163-165 | after the delete no meal is left in the category and every meal of another category is kept |
| SettingsRoute.ColumnOf | app/api/settings/route.js:42-93 | every delivery key has its `delivery*` column |
| SettingsRoute.KeyOf | app/api/settings/route.js:42-93 | every `delivery*` column belongs to exactly one delivery key, so the two namings are inverse |
| SettingsRoute.Disjoint | app/api/settings/route.js:29-48 | the copied, parsed and delivery columns are distinct; none of them is the id, `delivery` or a Telegram column |
| SettingsRoute.ColumnApart | app/api/settings/route.js:29-48 | a `delivery*` column is neither copied nor parsed |
| SettingsRoute.Frontend | app/api/settings/route.js:71-95 | the page shape is an object, `{}` for a missing row, and never shows the Telegram columns |
| SettingsRoute.DeliveryView | app/api/settings/route.js:86-93 | the nested `delivery` object has exactly the six delivery keys |
| SettingsRoute.FrontendFields | app/api/settings/route.js:73-85 | a stored row is shown with its own id and plain fields, and with no other top-level field but `delivery` |
| SettingsRoute.FrontendDelivery | app/api/settings/route.js:86-93 | each delivery key is shown from its own column |
| SettingsRoute.HoursColumn | app/api/settings/route.js:35-36 | the hours are written exactly when they are sent |
| SettingsRoute.DeliveryColumn | app/api/settings/route.js:42-47 | a delivery amount is written as a number or `NaN` |
| SettingsRoute.FlatData | app/api/settings/route.js:29-48 | the save data has one entry per writable column |
| SettingsRoute.FlatDataColumns | app/api/settings/route.js:30-40 | copied fields carry the sent value, the hours the parsed value, and the data never writes the id or the Telegram columns |
| SettingsRoute.FlatDataDelivery | app/api/settings/route.js:42-47 | a delivery column holds the key's value (amounts as `parseFloat(x \|\| 0)`) when `delivery` is truthy, and `undefined` otherwise |
| SettingsRoute.StripUndefined | app/api/settings/route.js:51 | the loop keeps exactly the entries that are not `undefined`, with their values |
| SettingsRoute.Upserted | app/api/settings/route.js:53-57 | the upsert keeps the row's id or creates id 1, writes every column in the data and keeps the rest |
| SettingsRoute.GetSettings | app/api/settings/route.js:13-23 | 200 exactly when the database answers; `{}` without a row; the row's fields in the page shape; 500 `Failed to fetch settings` otherwise |
| SettingsRoute.PutSettings | app/api/settings/route.js:25-68 | the reply and the row are the save outcome of the old row and the body: an unreadable or `null` body, or a failing database, answers 500 with the row unchanged; otherwise the row is upserted and shown |
| SettingsRoute.PostSettings | app/api/settings/route.js:97-99 | `POST` behaves as `PUT` |
| SettingsRoute.SavingFails | app/api/settings/route.js:64-67 | an unreadable body, a `null` body (reading `body.restaurantName` throws) or a failing database answers 500 `Failed to save settings` and writes nothing |
| SettingsRoute.SavedId | app/api/settings/route.js:53-57 | a save keeps the row's id, and a first save creates row 1 |
| SettingsRoute.SavedColumn | app/api/settings/route.js:51-57 | a column takes its new value when that is defined and keeps its old one otherwise |
| SettingsRoute.SavedPlainFields | app/api/settings/route.js:30-51 | a sent plain field is written (hours parsed), an unsent one is kept |
| SettingsRoute.SavedDeliveryFields | app/api/settings/route.js:42-51 | with a truthy `delivery` every amount is written and the other keys when sent; without it no delivery column changes |
| SettingsRoute.SavedKeepsTelegram | app/api/settings/route.js:29-57 | a save never writes the Telegram columns |
| SettingsRoute.SaveRoundTrip | app/api/settings/route.js:29-95 | the page shape a save answers with gives back the sent plain fields, the parsed hours and the delivery values |
| SettingsRoute.SaveKeepsAbsent | app/api/settings/route.js:51-95 | a field not sent is shown as it was stored |
| SettingsRoute.GetAfterSave | app/api/settings/route.js:13-62 | after a successful save of a body that is not `null`, `GET` answers what the save answered |
| InitRoute.Select | app/api/init/route.js:12-29 | a `select` keeps exactly the chosen columns of the row |
| InitRoute.ActiveByOrderRows | app/api/init/route.js:10-31 | each query returns exactly the active rows, all of them, by `order` |
| InitRoute.CategoryListSorted | app/api/init/route.js:10-14 | the payload's categories are by `order`; each is a selected active category, and every active category is there |
| InitRoute.MealListRows | app/api/init/route.js:16-31 | the payload has one entry per active meal; each is a selected active meal, and every active meal is there |
| InitRoute.Mapped | app/api/init/route.js:54-80 | this endpoint's mapping gives `null` exactly for a missing row |
| InitRoute.FallbackSettings | app/api/init/route.js:39-46 | without a settings row the payload has the fallback: open, currency `دج` and fixed-cost delivery at 200 |
| InitRoute.StoredSettings | app/api/init/route.js:53-80 | with a row, the settings agree with the settings endpoint's page shape on every field but the Telegram ones, which default to `''` |
| InitRoute.StoredSettingsFields | app/api/init/route.js:56-76 | with a row, the settings show the row's plain fields and the delivery values of their columns |
| InitRoute.InitData | app/api/init/route.js:36-47 | the payload is the category list, the meal list and the settings, with no error |
| InitRoute.GetInit | app/api/init/route.js:83-101 | 200 with the payload exactly when the database answers, 500 with the error payload otherwise |
| InitRoute.ErrorPayloadFields | app/api/init/route.js:94-99 | the error payload has the message and empty categories, meals and settings |
| Updates.Remaining | app/api/updates/route.js:29-30 | unregistering keeps exactly the other listeners |
| Updates.RemainingDistinct | app/api/updates/route.js:26-30 | unregistering keeps each connection registered at most once |
| Updates.FailedWrites | app/api/updates/route.js:20-22 | the logged failures are at most one per listener, and none when no write fails |
| Updates.DeliveredFrames | app/api/updates/route.js:16-23 | with each connection registered once, an emission adds exactly one update frame to each registered stream whose write succeeds, and changes no other stream |
| Updates.Deliver | app/api/updates/route.js:16-23 | the listeners' loop writes the frames the emission description gives and counts the failed writes |
| Updates.AppendUpdate | app/api/updates/route.js:13-19 | update signals after the connection notice keep a stream well formed |
| Updates.EventBus.constructor | app/lib/eventBus.js:10-11 | a new emitter has no listeners and allows 100 |
| Updates.EventBus.Connect | app/api/updates/route.js:7-41 | a connection gets a fresh stream holding only the connection notice, registers one listener and answers with the event-stream headers |
| Updates.EventBus.Emit | app/api/updates/route.js:16-23 | an emission writes one update frame to each registered stream that accepts it, keeps every stream well formed and logs each failed write |
| Updates.EventBus.Abort | app/api/updates/route.js:29-32 | an abort unregisters that connection's listener and closes its writer |
| Updates.Global.constructor | app/lib/eventBus.js:9 | the process slot starts empty |
| Updates.Global.Import | app/lib/eventBus.js:9-16 | loading the module creates the emitter only when the slot is empty, and otherwise hands back the one already there |
| Data.NormalizeItem | public/js/data.js:403-407 | a normalised line keeps its other fields and is always named: `name`, else `mealName`, else `Unknown`; its size name is `sizeName`, else `size`, else empty |
| Data.NormalizeOrder | public/js/data.js:397-441 | a falsy order normalises to `null`, any other to an object |
| Data.NormalizeOrderFields | public/js/data.js:410-441 | a normalised order keeps id, status and creation time, numbers itself by `orderNumber` or else its id, parses its location and takes the completion time |
| Data.NormalizeItemIdempotent | public/js/data.js:403-407 | normalising a line twice is normalising it once |
| Data.MapNormalizeItemIdempotent | public/js/data.js:403-407 | normalising a list of lines twice is normalising it once |
| Data.NormalizedItemsNamed | public/js/data.js:401-408 | a normalised order has one line per stored line, each with a name |
| Data.ParsedLocationIdempotent | public/js/data.js:410-422 | a parsed location is not parsed again |
| Data.CompletedAtIdempotent | public/js/data.js:424-433 | the completion time is kept, or back-filled again to the same value |
| Data.NormalizeOrderIdempotent | public/js/data.js:397-441 | normalising an already normalised order changes nothing |
| Data.UpdateSame | public/js/data.js:435-441 | writing a field's own value back leaves the order as it was |
| Data.NormalizeAll | public/js/data.js:504 | the list is normalised entry by entry, against one reading of the overlay |
| Data.SettingsSelected | public/js/data.js:175-177 | settings are fetched by every call except one passing `settings: false` |
| Data.ForceAloneLoadsSettingsOnly | public/js/data.js:88-187 | `{force: true}` is not an empty options object, so it fetches the settings only |
| Data.OrdersSelected | public/js/data.js:179 | orders are fetched for an empty options object on an admin page, or when `orders` is passed |
| Data.IndexOfId | public/js/data.js:263 | `findIndex` by id gives the first position with that id, or -1 when there is none |
| Data.Toggled | public/js/admin-meals.js:362-371 | toggling finds nothing exactly when no entry has the id; otherwise it flips `active` and keeps every other field (the same lookup serves `toggleCategoryActive` in admin-categories.js, lines 247-258) |
| Data.ReplaceFirst | public/js/data.js:263-264 | the first entry with the id is replaced and the rest kept; with no such entry the list is kept |
| Data.ReplaceFirstTwice | public/js/data.js:325-332 | replacing at once and again when the server answers equals the one replacement by the saved record |
| Data.WithoutRefs | public/js/data.js:284-285 | the reference filter never lengthens the list |
| Data.WithoutRefsMembers | public/js/data.js:284-285 | an entry survives exactly when it was there and does not refer to the target |
| Data.WithoutRefsAppend | public/js/data.js:284-285 | the filter works entry by entry, so survivors keep their order |
| Data.DeleteCategoryLocally | public/js/data.js:277-285 | after the local deletion no meal of the category and no category with the id is left, and everything else is kept |
| Data.WithoutId | public/js/data.js:346 | the meal filter never lengthens the list |
| Data.WithoutIdMembers | public/js/data.js:346 | the local meal deletion removes exactly the meals with that id |
| Data.WithoutAbsentId | public/js/data.js:346 | with no meal of that id the list is kept |
| Data.IndexOfLooseId | public/js/data.js:446 | `find` with `==` gives the first order whose id is loosely equal, or -1 |
| Data.SettingsView | public/js/data.js:212-222 | `getSettings` shows every stored setting and the defaults for the rest, and nothing else |
| Data.MergeSettings | public/js/data.js:363-364 | the changed keys take the new values and every other key keeps its value |
| Data.Store.constructor | public/js/data.js:27-62 | the caches are read in one `try`, so a parse failure keeps what was read before it; empty category and meal caches fall back to empty lists |
| Data.Store.GetCategories | public/js/data.js:204-206 | the categories, or an empty list when they are falsy |
| Data.Store.GetMeals | public/js/data.js:208-210 | the meals, or an empty list when they are falsy |
| Data.Store.GetSettings | public/js/data.js:212-222 | the stored settings over the defaults |
| Data.Store.GetOrders | public/js/data.js:224-226 | the orders, or an empty list when they are falsy |
| Data.Store.GetOrdersPagination | public/js/data.js:228-230 | the paging information, or `null` |
| Data.Store.GetCart | public/js/data.js:233-239 | the stored cart, or an empty one when it is absent or unreadable |
| Data.Store.SaveCart | public/js/data.js:567-569 | the cart is stored as given |
| Data.Store.FetchIfNeeded | public/js/data.js:92-151 | a loaded collection is not fetched unless forced; a fetch in flight is joined; only otherwise is one request sent |
| Data.Store.FetchSettled | public/js/data.js:100-146 | a truthy payload fills, caches and marks the collection; a falsy one puts the fallback back unmarked; a rejection changes nothing; the in-flight slot is cleared every time |
| Data.Store.Filled | public/js/data.js:101-133 | each collection is filled from a truthy payload as its branch says: meals from `data.meals` or the array, settings over the fallback, orders normalised with their paging |
| Data.Store.InitializeData | public/js/data.js:87-198 | the run fetches exactly the selected collections, as `fetchIfNeeded` decides for each |
| Data.Store.FetchSelected | public/js/data.js:156-187 | the selected collections are asked for in order: categories, meals, settings, orders |
| Data.Store.AskFor | public/js/data.js:156-187 | a collection is handed to `fetchIfNeeded` only when it was asked for |
| Data.Store.InitializeDone | public/js/data.js:193-197 | `data-ready` is dispatched whatever the fetches did |
| Data.Store.AutoStart | public/js/data.js:576-628 | unless skipped, the script runs `initializeData()` and schedules the subscription a second later |
| Data.Store.CreateCategoryData | public/js/data.js:247-260 | the category is pushed at once; on success the pushed entry becomes the saved one; on failure it stays and `null` is returned |
| Data.Store.UpdateCategoryData | public/js/data.js:262-272 | the first category with the id is replaced at once, whatever the server says |
| Data.Store.DeleteCategoryData | public/js/data.js:274-299 | a falsy id does nothing; otherwise the category and its meals leave the local lists before the request, and a failure is rethrown |
| Data.Store.SaveCategories | public/js/data.js:301-304 | the bulk save replaces the categories |
| Data.Store.CreateMealData | public/js/data.js:311-321 | nothing changes until the server answers; the saved meal is then appended; a failure is rethrown |
| Data.Store.UpdateMealData | public/js/data.js:323-338 | the meal is replaced at once, and by the saved meal when the server answers |
| Data.Store.DeleteMealData | public/js/data.js:345-350 | the meal leaves the local list first; a failure is rethrown |
| Data.Store.SaveMeals | public/js/data.js:352-355 | the bulk save replaces the meals |
| Data.Store.UpdateSettingsData | public/js/data.js:361-376 | the changes are merged over the current settings, cached and sent before the server answers |
| Data.Store.SubmitOrder | public/js/data.js:383-394 | an accepted order is normalised and put first; a failure is rethrown and changes nothing |
| Data.Store.OverlayAfterDelivery | public/js/data.js:459-466 | the overlay of completion times is written once per order and no other item changes |
| Data.Store.StatusChanged | public/js/data.js:449-457 | the order takes the new status and, when now delivered without a completion time, the current time; no other field changes |
| Data.Store.UpdateOrderStatusData | public/js/data.js:445-483 | with no matching order nothing happens; otherwise the status changes at once, delivery records its time, the request goes out, and a failure puts back only the status |
| Data.Store.SaveOrders | public/js/data.js:487-490 | the bulk save replaces the orders |
| Data.Store.RefreshOrders | public/js/data.js:492-525 | the server's list, paged or flat, replaces the orders normalised, is cached and announced; on failure the orders are kept and returned |
| Data.Store.LoadMoreOrders | public/js/data.js:527-548 | with pages left, the next page is requested and its orders appended; otherwise nothing happens |
| Data.Store.SearchOrders | public/js/data.js:550-563 | page 1 of 50 matching orders replaces the list; a failure keeps it |
| Data.Store.SubscribeToRealtimeUpdates | public/js/data.js:592-622 | a connected store stays as it is; without EventSource the orders are polled every five seconds |
| Data.Store.OnRealtimeMessage | public/js/data.js:603-608 | a message, whatever its data, runs `refreshOrders()`: the orders become the server's normalised listing and are cached and announced, or stay as they were when the request fails or the answer holds no list |
| Data.Store.OnRealtimeError | public/js/data.js:610-616 | an error closes the connection and schedules a new subscription in five seconds |
| Wiring.NormalizeListed | app/api/orders/route.js:34-56 | a listed order, once normalised by the client, is numbered by its row id and addressed by its customer address |
| Wiring.NormalizeListedCompletion | public/js/data.js:424-433 | the listing has no completion time, so a delivered order takes the overlay's entry or its creation time, and any other order has none |
| Wiring.NormalizeListedItem | public/js/data.js:403-407 | a listed line, once normalised, is named by its meal (`Unknown` without one) and sized by its size (`''` without one) |
| Wiring.NormalizedLines | public/js/data.js:402-408 | the lines of a normalised order are the normalised lines |
| Wiring.NormalizeListedLines | app/api/orders/route.js:50-55 | each listed line, once normalised, has the meal name and size the database stored |
| Wiring.RefreshFromListing | public/js/data.js:492-525 | a refresh answered by the order listing shows the normalised listing and, since the listing is a flat array, leaves the paging information as it was |
| Wiring.LoadMoreAfterListing | public/js/data.js:527-530 | with no paging information, loading more after such a refresh sends nothing |
| Wiring.FallbackStatusUpdate | public/js/data.js:471-476 | the status update without `ApiClient.updateOrderStatus` sends no body, so the handler answers 500 and no order changes |
| AdminCore.ActiveCountMeaning | public/js/admin-core.js:38 | the pending-orders count is at most the number of orders, equals it exactly when no order is `delivered` or `cancelled`, and is zero exactly when every order is one of the two |
| AdminCore.CountBadge | public/js/admin-core.js:40-49 | the badge is shown exactly when the count is positive, then carries that count; otherwise it is hidden |
| AdminCore.NewRatingsMembers | public/js/admin-core.js:54-57 | with an array of seen ids the check never throws, and an order counts as a new rating exactly when it is rated and its id's text is not among the seen ids |
| AdminCore.NothingSeen | public/js/admin-core.js:54-57 | an empty seen list makes every rated order a new rating, in order |
| AdminCore.RatingsBadgeCases | public/js/admin-core.js:51-69 | the ratings badge is left untouched exactly when no order is rated; with the seen list missing or unreadable, the badge counts every rated order |
| AdminCore.BadgeTimers | public/js/admin-core.js:81-99 | the first timer is always the one-off refresh after half a second; a second, repeating 30-second refresh is set exactly when the page is neither the orders nor the dashboard page |
| AdminCore.LoginRedirectCases | public/js/admin-core.js:102-112 | a visitor without the session flag who is off the login page is sent to it, a logged-in user on the login page is sent to the dashboard, and no navigation happens exactly in the two other cases |
| AdminCore.FirstPageMatch | public/js/admin-core.js:145 | the `find` returns the first table entry whose page name the path contains, or none exactly when the path contains none of them |
| AdminCore.SidebarTargetMeaning | public/js/admin-core.js:126-155 | a path ending in `admin.html` highlights the dashboard; otherwise the highlighted entry is the earliest page name the path contains, and there is none exactly when it contains none |
| AdminCore.AdminShell.constructor | public/js/admin-core.js:5-9 | the shell starts from the given session, address, path and page elements, with no navigation and no highlighted entry |
| AdminCore.AdminShell.CheckLogin | public/js/admin-core.js:102-112 | the navigations grow by exactly the redirect the guard calls for, and by nothing when it calls for none |
| AdminCore.AdminShell.HandleLogout | public/js/admin-core.js:114-119 | a confirmed logout removes the session flag and goes to the login page; a refused one changes nothing |
| AdminCore.AdminShell.HighlightSidebar | public/js/admin-core.js:126-155 | the dashboard entry is added beside the others, a page entry replaces all the others, in both cases only when the element is on the page, and no match leaves the highlight unchanged |
| AdminCore.AdminShell.OnUnhandledRejection | public/js/admin-core.js:158-163 | a 401 rejection removes the session flag and goes to the login page; any other rejection changes nothing |
| AdminOrders.FilterOrdersContents | public/js/admin-orders.js:55-57 | the `all` tab lists every order unchanged; any other tab lists exactly the orders whose status is that tab's, and filtering distributes over concatenation, so the held order is kept |
| AdminOrders.Stage | public/js/admin-orders.js:76-96 | a status has a position in the new, preparing, ready, delivered lifecycle exactly when it is one of those four, and that position names it |
| AdminOrders.ActionsFollowLifecycle | public/js/admin-orders.js:76-96 | an order gets buttons exactly when its status is in the lifecycle; each button moves one stage forward or back, only a new order can be cancelled, only leaving `delivered` goes through the confirming handler, and every stage before `delivered` can move forward |
| AdminOrders.ItemCountIsSum | public/js/admin-orders.js:99 | with numeric quantities the card's item count is the sum of the quantities |
| AdminOrders.OrdersPage.constructor | public/js/admin-orders.js:36 | the board starts on the `new` tab with nothing rendered, reported or sent |
| AdminOrders.OrdersPage.SelectTab | public/js/admin-orders.js:24-33 | a tab click makes its status the filter and renders once more |
| AdminOrders.OrdersPage.Shown | public/js/admin-orders.js:38-57 | the rendered list is all orders on the `all` tab; on any other tab it holds exactly the orders with that status and is never longer than the held orders |
| AdminOrders.OrdersPage.UpdateStatus | public/js/admin-orders.js:154-162 | the status change is always sent; a truthy answer is reported as a change and re-rendered, a falsy one only reported as a failure |
| AdminOrders.OrdersPage.SafeUpdateStatus | public/js/admin-orders.js:143-150 | leaving `delivered` without confirmation sends, renders and reports nothing; otherwise the change is sent and re-rendered exactly when it succeeds |
| AdminOrders.OrdersPage.CancelOrderBtn | public/js/admin-orders.js:164-173 | only a confirmed cancellation is sent, and only a successful one is reported and re-rendered |
| AdminCategories.ContentAcceptedMeaning | public/js/admin-categories.js:35 | the content check passes exactly when the file's text contains `<svg` somewhere, since the trimmed text is a piece of the whole |
| AdminCategories.CheckUploadCases | public/js/admin-categories.js:23-38 | an icon upload reaches the SVG cleaner exactly when a file was chosen whose type is SVG or whose lower-cased name ends in `.svg`, and whose text contains `<svg`; the text is handed on unchanged, and a file typed as SVG is never refused for its type |
| AdminCategories.SaveCategoryCases | public/js/admin-categories.js:192-216 | a name that trims to nothing is refused with the name-required message before anything is sent; otherwise a non-empty id means an edit and an empty one a creation |
| AdminCategories.SavedCategoryIcon | public/js/admin-categories.js:197-199 | every saved category carries the trimmed name, and the icon given or the folder icon when the field is empty |
| AdminCategories.EditedCategory | public/js/admin-categories.js:205-210 | an edit sends exactly the id (as `parseInt` reads it), name, icon and `active`, with `active` taken from the held category whose id equals loosely, or `true` when there is none |
| AdminCategories.NewCategory | public/js/admin-categories.js:212-214 | a new category carries no id, is active, and has the order one past the number of categories held |
| AdminMeals.GetSizesFromForm | public/js/admin-meals.js:352-360 | the loop over the size rows yields exactly the row-by-row list of sizes with a trimmed, non-empty name and a price that parses above zero |
| AdminMeals.ValidSizesMembers | public/js/admin-meals.js:354-357 | a size is in the list exactly when some row has a non-blank name and a positive price and yields that size |
| AdminMeals.ValidSizesPositive | public/js/admin-meals.js:355-357 | every size in the list has a non-empty name and a numeric price above zero |
| AdminMeals.MinPriceIsLeast | public/js/admin-meals.js:278 | with numeric prices, `Math.min` over the sizes' prices is a number, is the price of one of the sizes, and no size's price is smaller |
| AdminMeals.MealData | public/js/admin-meals.js:292 | the record built from the form is active and carries the form's name, image, price and sizes, and no id, `popular` or `order` |
| AdminMeals.Saved | public/js/admin-meals.js:294-301 | a valid form always ends in an edit or a creation |
| AdminMeals.SavedNew | public/js/admin-meals.js:298-299 | a new meal keeps every field of the form, is not popular, and has the order one past the number of meals held |
| AdminMeals.SavedEdit | public/js/admin-meals.js:294-296 | an edit keeps every field of the form, fixes the id as `parseInt` reads it, and keeps the existing meal's other fields when a held meal's id equals loosely |
| AdminMeals.SavedRecord | public/js/admin-meals.js:292-301 | whichever way it is saved, the record keeps every field of the form, and it is a creation exactly when the id field is empty |
| AdminMeals.PricingCases | public/js/admin-meals.js:272-282 | a sized meal is refused exactly when it has no valid size, with the no-sizes message, and is otherwise priced at the cheapest size with those sizes; an unsized meal is refused exactly when its price is not positive, with the price message, and otherwise has that price and no sizes |
| AdminMeals.SaveMealValidation | public/js/admin-meals.js:265-301 | the form is refused with the no-sizes message exactly when a sized meal has no valid size, and with the price message exactly when an unsized meal has no positive price; a form that passes is an edit exactly when the id field is set |
| AdminMeals.SavedMealFields | public/js/admin-meals.js:266-299 | a saved meal is always active, even when the edited meal was switched off; it takes the form's name and image, a sized meal's price is the cheapest size, and an unsized one has the typed price and no sizes |
| AdminMeals.SizedPriceIsLeast | public/js/admin-meals.js:275-278 | a saved sized meal's price is a number that no kept size undercuts |
| AdminMeals.ImagePrecedence | public/js/admin-meals.js:284-292 | cropped image data, when present, wins over the preview, and the image is stored as `null` exactly when there is neither cropped data nor a shown preview with a source |
| AdminMeals.InactiveCounted | public/js/admin-meals.js:165-171 | the off counter is exactly the number of meals whose `active` is falsy, and it and the on counter add up to the total |
| AdminMeals.BulkToggled | public/js/admin-meals.js:390-395 | the switch keeps the length of the list and treats each meal on its own: a covered meal whose `active` differs from the target gets the target, every other meal stays as it was |
| AdminMeals.BulkToggleMeals | public/js/admin-meals.js:372-399 | a refused confirmation sends nothing and changes no meal; after a confirmation, the held meal objects are switched in place as the bulk switch says, and exactly the switched meals are sent, in list order |
| AdminMeals.BulkToggleSettles | public/js/admin-meals.js:376-395 | afterwards every meal of the chosen category, or every meal under `all`, carries the target value while the others are untouched, and a second identical switch sends nothing |
| AdminSettings.FieldValue | public/js/admin-settings.js:46-49 | an input shows `''` for a missing or `null` value, a text as it is, and a number as its JavaScript text |
| AdminSettings.DeliveryGroupsCases | public/js/admin-settings.js:56-67 | the fixed-cost group shows exactly when the fixed type is checked or no type is, and the per-distance group never shows |
| AdminSettings.ReadFormDefaults | public/js/admin-settings.js:88-118 | a missing text input reads as `''`, a missing open checkbox as open, no checked type as `fixed`, and a missing or non-numeric cost as 0, while a numeric one reads as what `parseFloat` gives |
| AdminSettings.BuildDelivery | public/js/admin-settings.js:98-114 | the delivery object is switched on and takes the checked type and the three parsed costs, keeping its other keys and gaining no others; a missing one starts from `{}`, and a truthy non-object takes no fields |
| AdminSettings.WrittenDeliveryFrom | public/js/admin-settings.js:98-114 | writing the five delivery fields over an object, or over `{}` when there is none, gives a delivery object of the kind the save promises |
| AdminSettings.BuildSettings | public/js/admin-settings.js:85-118 | the saved record carries the trimmed texts, `isOpen` as ticked, the delivery object as above and the Telegram fields, keeps every other key of the settings copy, and gains no key beyond those it writes |
| AdminSettings.HandleSaveSettings | public/js/admin-settings.js:72-125 | the record built from the settings and the form is merged into the store's settings, cached under `cachedSettings` and sent by `saveSettings` when `updateSettingsData` exists, and otherwise written to `localStorage` under `settings` with the store's settings and requests unchanged |
| AdminSettings.TextRoundTrip | public/js/admin-settings.js:22-90 | a trimmed restaurant name that the form shows and saves back unchanged is stored as it was |
| AdminSettings.PasswordCheckCases | public/js/admin-settings.js:173-194 | the change goes through exactly when all three fields are filled, the current password equals the stored one (`admin123` when none is stored), and the two new entries agree and have at least six characters; a missing field is reported exactly when one is empty, and a wrong current password with none stored means one other than `admin123` |
| AdminSettings.NewPasswordTakesOver | public/js/admin-settings.js:179-196 | after a change the new password is the one the next change accepts, and `admin123` no longer passes unless it was the one chosen |
| AdminSettings.ChangePassword | public/js/admin-settings.js:168-202 | the outcome is the first failing check or the change; any refusal leaves the store, `localStorage` and the requests untouched; a change merges the settings with the new password into the store through `updateSettingsData`, which caches them under `cachedSettings` and sends them by `saveSettings`, or writes them to `localStorage` under `settings` when that function is missing |
| AdminSettings.ChangedPasswordStored | public/js/admin-settings.js:196-199 | after a change through `updateSettingsData`, the settings the page reads carry the new password |
| Shop.ShownCategoriesCorrect | public/js/app.js:148 | the category bar is in ascending `order` and holds exactly the active categories, each as often as it is held |
| Shop.SelectedMealsMembers | public/js/app.js:202-215 | a meal is listed exactly when it is held and active, has the chosen category (when one is chosen) and, when there is a query, has it in its lower-cased name or description |
| Shop.ShownMealsCorrect | public/js/app.js:202-224 | the listing is a permutation of the kept meals, sorted popular first and by ascending `order`, so no popular meal comes after one that is not |
| Shop.DisplayPriceCases | public/js/app.js:274-282 | a card shows the "starts from" label exactly when the meal has sizes, then quoting the first size's price, and otherwise shows the meal's own price |
| Shop.QuickAdd | public/js/app.js:308-319 | quick add does nothing exactly when no meal has the id; otherwise it opens the dialog for that meal or adds one portion without a size |
| Shop.QuickAddOpensForSizes | public/js/app.js:309-318 | for a found meal, quick add opens the dialog exactly when the meal is priced by sizes |
| Shop.Clamp | public/js/app.js:433-435 | the quantity stays between 1 and 99, is unchanged inside that range, and is pinned to the nearer bound outside it |
| Shop.FindSize | public/js/app.js:461 | a size found is one of the meal's sizes and has the chosen name |
| Shop.FindSizeFirst | public/js/app.js:461 | `find` fails exactly when no size has the chosen name, and otherwise gives the first size that has it |
| Shop.ModalPriceUnsized | public/js/app.js:449-465 | without a chosen size, or for a meal without sizes, the dialog's total is the meal's price times the quantity shown |
| Shop.MealModal.constructor | public/js/app.js:376 | a dialog opens showing one portion |
| Shop.MealModal.UpdateModalQuantity | public/js/app.js:429-437 | the counter moves by the step, clamped to 1 to 99, and its text reads back through `parseInt` as the new count |
| Shop.MealModal.AddMealFromModal | public/js/app.js:469-476 | the cart receives the dialog's meal with the chosen size (or `null`) and the quantity shown |
| Shop.OpenIndicator | public/js/app.js:117-133 | open is shown exactly for `isOpen === true`, closed exactly for `isOpen === false`, and the indicator is hidden otherwise |
| Shop.ShownPhone | public/js/app.js:103-110 | a set `contactPhone` is shown first, then `phone`, and the page's own number is left exactly when neither is set |
| Shop.UnknownOpenShowsOpen | public/js/app.js:84-124 | settings stored without `isOpen` read `true` from the defaults, so the page shows the restaurant as open rather than hiding the indicator |
| Shop.Storefront.constructor | public/js/app.js:5-6 | the storefront starts with no category and an empty query |
| Shop.Storefront.FilterByCategory | public/js/app.js:180-181 | choosing a category makes it the current one |
| Shop.Storefront.OnSearchInput | public/js/app.js:187-192 | the query becomes the input trimmed and lower-cased |

## Left out

- Exceptions from property reads: a read on `null` or `undefined` throws a `TypeError` in JavaScript. In the model it reads as `undefined`, except where the code's own `try`/`catch` decides an outcome (a parse failure, a rejected request, a `null` request body in the meal, category, order and settings handlers). There the failure is a case of its own.
- Data.Store.FetchSettled: the fallback lists are always empty in the model. In data.js:47 and :50, and again in the falsy-payload branch at data.js:136-137, `appState.categories` and `appState.meals` become the very arrays of `FALLBACK_DATA`. So `createCategoryData` (its push and index write, data.js:249 and :254) and `createMealData` (its push, data.js:315) also grow those fallback arrays, and a later falsy payload puts the grown list back, where the model installs an empty list.
- Object identity: values are compared by contents. Where the code relies on identity, the contract states the effect on contents: `createCategoryData` finds its optimistic entry by identity, and `bulkToggleMeals` mutates the store's own meal objects (modelled as an `array` of the held meals).
- Promise interleavings: an asynchronous operation is a step before the request, an outcome passed in, and a step after it. Other operations cannot run in between, except that the loader's pending fetch is an explicit flag.
- Network, timers and browser APIs: `ApiClient`, `fetch`, `EventSource`, `setTimeout`/`setInterval`, `confirm` and the file reader. They become parameters (outcomes, the user's answer, file contents) or recorded effects (requests, timers, navigations). `ApiClient`, `showToast`, `formatPrice` and `addToCart` are not in the shown files, so their behaviour is not modelled.
- The DOM and rendering: HTML templates, modals, toasts, classes, the print window, scrolling and skeletons. Only the choices the pages make (what is listed, which badge, which button, which redirect) are modelled.
- Console logging: `console.error` and `console.log` calls are left out. The push channel's failed writes are counted instead.
- Js.ParseIntStr: reads decimal digits only. The `0x` prefix that `parseInt` without a radix accepts is not modelled, because no caller passes such text on purpose.
- Js.ParseFloatStr: reads decimal digits with a fraction only. Exponents and `Infinity` are not modelled. Its own contract says only that the result is a number or `NaN`; the lemmas ParseFloatIntString (integer text) and NumberOfText (text starting with a letter) state values, and no lemma states the value of a decimal fraction.
- Js.NumberToString: prints integers exactly and fractions with at most six decimal places. It does not follow JavaScript's shortest round-trip printing, because numbers are unbounded reals in the model (no floating point, no `-0`, no `Infinity`).
- Js.StringToNumber: reads optional sign, decimal digits and a fraction only. Exponent text (`"1e3"`), the radix prefixes `0x`, `0b` and `0o` (`"0x10"`) and `Infinity` give `NaN` in the model, where `Number` reads 1000 and 16; so `LooseEq`, the comparators and the cart's arithmetic also see `NaN` for such text. Its own contract says only that the result is a number or `NaN`. The values are stated by the lemmas StringToNumberIntString (integer text) and NumberOfText (blank text, text starting with a letter); no lemma states the value of text with a decimal fraction.
- Js.ToNumber: its own contract says only that the result is a number or `NaN`. The value for each kind of input is stated by the lemma ToNumberCases, kept apart so that the comparators' proofs do not unfold it.
- Shop.FindSize: its own contract states only that a size it finds is one of the sizes and has the name. That `find` fails exactly when no size has the name, and otherwise gives the first one, is stated by the lemma FindSizeFirst.
- Js.ToLower: lower-cases ASCII letters only. Its contract states only that the length is kept, since full Unicode case mapping is not modelled.
- Text length: `length` counts characters, not UTF-16 code units.
- Comparators: a value whose subtraction gives `NaN` (a missing `order`) sorts as 0. JavaScript's result for an inconsistent comparator is implementation-defined.
- JSON: `JSON.stringify` is modelled as writing the value, without dropping `undefined` properties or functions. For the order location, it is a parameter of the handler.
- `localStorage`: the storage quota and its exceptions are not modelled.
- Prisma:
  - Validation errors are modelled only as the rejected query of the meal listing (a `categoryId` that `parseInt` reads as `NaN`, a non-numeric `take`, or a `skip` that is negative or not a number), which answers 500. A negative `take` is valid and counts from the end of the list, as Prisma documents it.
  - Rows with equal `orderBy` keys keep their stored order. The database does not promise that.
  - Schema defaults are not modelled.
- OrdersRoute.StoreOrder: the order lines are stored inside the order row. The POST reply's lines (`include: { items: true }`) therefore lack the `id` and `orderId` columns of the `OrderItem` relation. Its `createdAt` is a number, where the JSON reply carries the date's ISO text. OrdersRoute.CreateOrder sends the same row.
- Time stamps: `createdAt` is the number the handler is given (`now`). `NextResponse.json` sends a date as its ISO text, which the model does not write out.
- Prisma relations:
  - The `select` and `include` clauses of the meal and category listings are not modelled. Those listings return whole rows. `/api/init` does model its column selection.
  - The meal sizes are stored as a JSON column. The `sizes` relation, its ids, and the sizes sub-select of `/api/init` are not modelled.
- Caching: `unstable_cache` and `revalidateTag` are left out. The full meal list is read from the table directly, so staleness is not modelled.
- The settings table is a single optional row standing for `id: 1`, which every save upserts.
- Image files: the image clean-up with `fs.unlink` in the meal and category handlers is left out. So are canvas resizing and the SVG parser, serialiser and minifier of the icon upload.
- Error texts: a failing Prisma call's message is a parameter, since it comes from the library.
- Timing: the 5-second refresh of the order board is left out. The badge timers and the store's auto-subscribe and resubscribe timers are recorded with their delays. What runs when they fire is modelled by the operation they call (`refreshOrders`, `subscribeToRealtimeUpdates`), but the scheduling itself is not.
- Out of scope: app/api/analytics/route.js, app/api/seed/route.js, prisma/seed.js, app/lib/notification.js, public/js/sidebar-loader.js and next.config.js are not part of this model.
