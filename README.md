# Admin dashboard core, modelled in Dafny

The system is a small admin dashboard built with SvelteKit. It has three collections: users, products and orders.

- **Collections.** Each collection is a list of records keyed by a numeric id. A new record gets the largest existing id plus one, or 1 when the list is empty. Every change writes the whole list back to browser storage, and a missing or empty key falls back to built-in seed data. The server data service also falls back when the stored text does not parse; the client stores and the authentication store throw in that case.
- **Server data service.** Reads, adds, updates (a shallow merge of the given fields) and deletes records by id.
- **Client-side stores.** The same operations as a generic writable store, with a reset to the seed data.
- **Authentication store.** Registers users with a unique email, ignoring case, and logs users in and out.
- **Validation.** Field validators return `{ valid, error }` results, and the composite form validators return the first failing check. The sign-up action runs a fixed chain of checks before creating a user.
- **Pages and helpers.** Page loaders filter the collections by a search term and a status. Dashboard statistics and helpers cover order totals, shipping, the order status workflow, status labels, classes, icons and colours, chart bar heights, text formatting, and two toast-notification stores.

Each source file is one Dafny module:

- **Files that update state in place become classes.** These are the server data service, the data stores, the authentication store and the two toast stores. Each method states the whole new state, and each class states the invariant its methods keep: distinct ids, distinct emails ignoring case, or toast ids increasing below the counter.
- **Pure files become functions with named results, plus lemmas.** These are the validators, order helpers, statistics, page loaders, status and chart helpers, and formatters.
- **Shared building blocks live in three modules.** `Text` holds ASCII case mapping, JavaScript whitespace and `trim`, `includes`, number-to-text and the string order on ISO dates. `Seqs` holds `filter` as an order-preserving subsequence, `reduce` sums and `slice` ends. `Keyed` holds `find`, `findIndex`, the next id, `map`-update and `filter`-delete by id.

Browser storage is the `hasWindow` flag plus an optional stored list per key. `None` stands for a missing or empty key, and for the server data service also for one whose JSON does not parse. The clock's date and the toast ids that the source draws at random are parameters.

Three facts about the code shape the model:

- The code has no pagination and no schema-version check, and neither is modelled.
- `add` always stamps today's date. It never keeps a `createdAt` supplied by the caller.
- `update` on the client store writes even when no record has the id.

## Model

| member | source | states |
|---|---|---|
| Seqs.Filter | src/lib/server/data.ts:198 | `filter` gives a subsequence whose every element satisfies the predicate and that holds every satisfying element of the input; it is the identity when all satisfy it |
| Seqs.FilterMultiplicity | src/lib/server/data.ts:198 | `filter` keeps every copy of a satisfying element and no copy of any other, which with the subsequence clause fixes the result |
| Seqs.FilterAppend | src/lib/server/data.ts:198 | filtering a concatenation is the concatenation of the filtered parts |
| Seqs.SubsequenceTransitive | src/routes/dashboard/orders/+page.server.ts:8-21 | filtering a filtered list still gives a subsequence of the original |
| Seqs.SumOfAppend | src/lib/utils/orderHelpers.ts:21-23 | a `reduce` sum over a concatenation is the sum of the two sums |
| Seqs.SumOfNonNegative | src/lib/utils/dataProcessing.ts:36 | a sum of non-negative amounts is non-negative |
| Seqs.SliceEnd | src/lib/utils/dataProcessing.ts:71 | the end index of `slice(0, end)`: clamped to the length, and counted back from the end when negative |
| Text.Lower | src/lib/utils/orderHelpers.ts:143 | `toLowerCase` keeps the length and maps each character to its lower case |
| Text.LowerIdempotent | src/lib/utils/statusHelpers.ts:10 | lower-casing twice is lower-casing once |
| Text.TrimEmptyIff | src/lib/utils/validation.ts:9 | `trim()` is empty exactly when the text is all whitespace |
| Text.IndexOf | src/lib/utils/validation.ts:4 | the first position of a character, or -1 exactly when it is absent |
| Text.StrLessTransitive | src/lib/utils/dataProcessing.ts:70 | the creation-date order used by the sorts is transitive |
| Text.StrLessTotal | src/lib/utils/dataProcessing.ts:70 | any two different dates are ordered one way or the other |
| Keyed.MaxId | src/lib/server/data.ts:175 | `Math.max` of the ids bounds every id and is one of them |
| Keyed.NextId | src/lib/server/data.ts:175-178 | the new id is above every existing id; it is 1 for an empty list and the largest id plus one otherwise |
| Keyed.FindIndex | src/lib/server/data.ts:188-189 | `findIndex` is absent exactly when no record has the id; otherwise it points at one that does |
| Keyed.FindById | src/lib/server/data.ts:168-171 | `find` is absent exactly when no record has the id; otherwise it returns a record with that id |
| Keyed.FindByIdAtFindIndex | src/lib/server/data.ts:186-193 | `find` and `findIndex` agree: the record found is the one at the index found |
| Keyed.UpdateWhere | src/lib/server/data.ts:191 | the `map` update replaces exactly the records with the id and keeps the length and every other record |
| Keyed.RemoveById | src/lib/server/data.ts:196-198 | the `filter` delete keeps, in order, every copy of each record without the id and no record with it; the length is unchanged exactly when the id is absent (also the toast stores' `filter` by id) |
| Keyed.RemoveByIdAppend | src/lib/stores/toast.svelte.ts:24-26 | deleting from a concatenation deletes from each part, so a record appended with the deleted id leaves no trace |
| Keyed.RemoveByIdIdempotent | src/lib/stores/toast.ts:44-46 | deleting the same id twice is deleting it once |
| Keyed.SubsequenceKeepsDistinctIds | src/lib/server/data.ts:198 | deleting records keeps ids unique |
| Keyed.AppendFreshKeepsDistinctIds | src/lib/server/data.ts:175-181 | appending a record whose id is above all others keeps ids unique |
| Keyed.FindAppendedFresh | src/lib/server/data.ts:168-184 | after appending a record with a fresh id, looking that id up finds exactly that record |
| Records.NewUser | src/lib/server/data.ts:176-180 | the created user has the given fields, the assigned id and today's date |
| Records.NewProduct | src/lib/server/data.ts:217-221 | the created product has the given fields, the assigned id and today's date |
| Records.NewOrder | src/lib/server/data.ts:258-262 | the created order has the given fields, the assigned id and today's date |
| Records.Override | src/lib/server/data.ts:191 | a field after a spread: the update's value when supplied, otherwise the current value |
| Records.MergeUser | src/lib/server/data.ts:191 | `{ ...u, ...updates }`: each of the six fields is the supplied value when given and the old value otherwise, and the empty patch changes nothing |
| Records.MergeProduct | src/lib/server/data.ts:232 | the same shallow merge for each of the eight product fields |
| Records.MergeOrder | src/lib/server/data.ts:273 | the same shallow merge for each of the ten order fields |
| Records.MergeIdempotent | src/lib/server/data.ts:191 | applying the same update twice gives the same record as applying it once |
| ServerData.FromStorage | src/lib/server/data.ts:142-150 | the stored list when there is a window and a readable key, otherwise the default |
| ServerData.DataService.constructor | src/lib/server/data.ts:162 | the service starts from the given storage contents |
| ServerData.DataService.GetUsers | src/lib/server/data.ts:164-166 | the stored users, or the seed users |
| ServerData.DataService.GetUserById | src/lib/server/data.ts:168-171 | the user with that id, if any |
| ServerData.DataService.AddUser | src/lib/server/data.ts:173-184 | returns the new user with id max+1; the stored list is the old list plus that user (nothing is written without a window); ids stay unique |
| ServerData.DataService.UpdateUser | src/lib/server/data.ts:186-194 | an unknown id gives null and writes nothing; otherwise the merged list is written and the merged record at the found index is returned |
| ServerData.DataService.DeleteUser | src/lib/server/data.ts:196-202 | true exactly when a user had the id; the filtered list is written only then |
| ServerData.DataService.GetProducts | src/lib/server/data.ts:205-207 | the stored products, or the seed products |
| ServerData.DataService.GetProductById | src/lib/server/data.ts:209-212 | the product with that id, if any |
| ServerData.DataService.AddProduct | src/lib/server/data.ts:214-225 | the new product gets id max+1 and is appended and written; ids stay unique |
| ServerData.DataService.UpdateProduct | src/lib/server/data.ts:227-235 | null without a write for an unknown id, else the merged record and list |
| ServerData.DataService.DeleteProduct | src/lib/server/data.ts:237-243 | true exactly when a product had the id; written only then |
| ServerData.DataService.GetOrders | src/lib/server/data.ts:246-248 | the stored orders, or the seed orders |
| ServerData.DataService.GetOrderById | src/lib/server/data.ts:250-253 | the order with that id, if any |
| ServerData.DataService.AddOrder | src/lib/server/data.ts:255-266 | the new order gets id max+1 and is appended and written; ids stay unique |
| ServerData.DataService.UpdateOrder | src/lib/server/data.ts:268-276 | null without a write for an unknown id, else the merged record and list |
| ServerData.DataService.DeleteOrder | src/lib/server/data.ts:278-284 | true exactly when an order had the id; written only then |
| ServerData.EmptyPatchIsIdentity | src/lib/server/data.ts:191 | `update(id, {})` leaves the list unchanged |
| ServerData.UpdateKeepsDistinctIds | src/lib/server/data.ts:186-194 | a patch without an id keeps ids unique |
| ServerData.DeleteKeepsDistinctIds | src/lib/server/data.ts:196-202 | a delete keeps ids unique, and afterwards the id is not found |
| DataStores.DataStore.constructor | src/lib/stores/data.ts:136-144 | the store starts from the stored list when there is one, else from the initial data |
| DataStores.DataStore.Save | src/lib/stores/data.ts:146-150 | the list is written only when there is a window |
| DataStores.DataStore.Add | src/lib/stores/data.ts:159-171 | the new item with id max+1 and today's date is appended and written; ids stay unique |
| DataStores.DataStore.Update | src/lib/stores/data.ts:173-181 | every item with the id is merged with the updates, and the list is written; an unknown id leaves the items as they were |
| DataStores.DataStore.Remove | src/lib/stores/data.ts:183-189 | the items with the id are dropped, the rest keep their order, and the list is written |
| DataStores.DataStore.Reset | src/lib/stores/data.ts:191-194 | the items become the initial data, which is written |
| DataStores.DataStore.GetById | src/lib/stores/data.ts:196-203 | the item with that id, if any; the items are unchanged |
| DataStores.CreateStores | src/lib/stores/data.ts:208-210 | the three stores start from their stored lists or their seed data |
| Auth.FindLogin | src/lib/stores/auth.ts:86-88 | the first user whose email (ignoring case) and password match, and none exactly when no user matches |
| Auth.AppendUntakenKeepsDistinct | src/lib/stores/auth.ts:53-70 | adding a user whose email is not taken keeps emails distinct ignoring case |
| Auth.AuthStore.constructor | src/lib/stores/auth.ts:19-31 | the stored state when there is one, else no users and nobody logged in |
| Auth.AuthStore.Persist | src/lib/stores/auth.ts:37-42 | the state is written only when there is a window |
| Auth.AuthStore.Register | src/lib/stores/auth.ts:47-78 | fails with "Email already registered" exactly when the email is taken, ignoring case, and changes nothing then; otherwise appends the user with the next id and writes, leaving who is logged in alone; emails stay distinct |
| Auth.AuthStore.Login | src/lib/stores/auth.ts:81-107 | succeeds exactly when some user's credentials match; on failure "Invalid email or password" and nothing changes; on success the first matching user is current |
| Auth.AuthStore.Logout | src/lib/stores/auth.ts:110-120 | nobody is logged in and the users are kept |
| Auth.AuthStore.EmailExists | src/lib/stores/auth.ts:123-130 | true exactly when some user's email equals the given one ignoring case |
| Auth.AuthStore.GetCurrentUser | src/lib/stores/auth.ts:133-140 | the current user; nothing changes |
| Auth.AuthStore.Reset | src/lib/stores/auth.ts:143-151 | back to the empty state, which is written |
| Validation.EmailRegexShape | src/lib/utils/validation.ts:3-6 | the email regex accepts exactly: no whitespace, one '@' with text before it, and a '.' strictly inside the domain |
| Validation.ValidateRequired | src/lib/utils/validation.ts:8-13 | invalid exactly when the value is blank, with "<field> is required" |
| Validation.ValidateMinLength | src/lib/utils/validation.ts:15-20 | invalid exactly when the trimmed length is below the minimum, with the message naming the minimum |
| Validation.MinLengthOneIsRequired | src/lib/utils/validation.ts:8-20 | a minimum length of 1 accepts exactly what the required check accepts |
| Validation.MinLengthMonotone | src/lib/utils/validation.ts:15-20 | raising the minimum never turns a rejection into an acceptance |
| Validation.ValidateNumber | src/lib/utils/validation.ts:22-27 | invalid exactly when the value is below the minimum |
| Validation.ValidatePositiveNumber | src/lib/utils/validation.ts:29-34 | invalid exactly when the value is not above 0, with "<field> must be greater than 0" |
| FormValidators.ValidateOrderForm | src/lib/utils/formValidators.ts:13-48 | valid exactly when every check passes; otherwise the result of the first failing check, in source order |
| FormValidators.ValidateProductForm | src/lib/utils/formValidators.ts:53-91 | valid exactly when name, description and category are filled and price and stock are positive; otherwise the first failing check's result |
| FormValidators.ValidateUserForm | src/lib/utils/formValidators.ts:96-129 | valid exactly when the name is filled, the email is well-formed and the role in any case is user, manager or admin; otherwise the first failure |
| FormValidators.ValidEmailNotBlank | src/lib/utils/formValidators.ts:26-34 | a well-formed email is never blank, so the format check covers the required check |
| OrderHelpers.CalculateOrderTotal | src/lib/utils/orderHelpers.ts:21-23 | the total of no items is 0 |
| OrderHelpers.OrderTotalAppend | src/lib/utils/orderHelpers.ts:21-23 | the total of two item lists together is the sum of their totals |
| OrderHelpers.OrderTotalSingle | src/lib/utils/orderHelpers.ts:21-30 | the total of one item is its subtotal, quantity times price |
| OrderHelpers.CalculateShipping | src/lib/utils/orderHelpers.ts:42-44 | free exactly when the total reaches the threshold (100 unless given), otherwise the flat fee of 10 |
| OrderHelpers.ShippingMonotone | src/lib/utils/orderHelpers.ts:42-44 | a larger order never pays more shipping |
| OrderHelpers.CalculateFinalTotal | src/lib/utils/orderHelpers.ts:49-65 | subtotal, tax at the rate (0.1 unless given), shipping on the subtotal (threshold 100 unless given), and their sum |
| OrderHelpers.FinalTotalBounds | src/lib/utils/orderHelpers.ts:49-65 | the final total is at least the subtotal, and the shipping does not depend on the tax rate |
| OrderHelpers.ScanItems | src/lib/utils/orderHelpers.ts:75-82 | valid exactly when no item has a non-positive quantity or price; otherwise the error names the first bad item |
| OrderHelpers.ValidateOrderItems | src/lib/utils/orderHelpers.ts:70-85 | valid exactly when there is an item and all have positive quantity and price; the empty-list message, then the first offender's message |
| OrderHelpers.ValidItemsHavePositiveTotal | src/lib/utils/orderHelpers.ts:21-23 | a list that passes item validation has a positive total |
| OrderHelpers.GetOrderStatusLabel | src/lib/utils/orderHelpers.ts:90-99 | each known status, in any case, gets its capitalised label; anything else comes back unchanged |
| OrderHelpers.GetNextOrderStatus | src/lib/utils/orderHelpers.ts:104-113 | a next status is always a later workflow step, never "pending" |
| OrderHelpers.WorkflowIndex | src/lib/utils/orderHelpers.ts:104-113 | the position of a status in the workflow, or -1 exactly when it is not in it |
| OrderHelpers.NextStatusFollowsWorkflow | src/lib/utils/orderHelpers.ts:104-113 | there is a next status exactly for pending, processing and shipped, and it is the following workflow step |
| OrderHelpers.EditableStatuses | src/lib/utils/orderHelpers.ts:118-129 | editable and cancellable are the same set, the first two workflow steps, and each of them has a next status |
| OrderHelpers.SearchOrders | src/lib/utils/orderHelpers.ts:134-149 | a blank term returns the list; otherwise a subsequence holding every copy of each order whose number, name or email contains the term ignoring case, and nothing else |
| OrderHelpers.OrdersMatching | src/lib/utils/orderHelpers.ts:144-148 | the match filter keeps every copy of a matching order and no copy of any other |
| DataProcessing.InsertByDate | src/lib/utils/dataProcessing.ts:69-70 | inserting adds exactly that element |
| DataProcessing.InsertKeepsNewestFirst | src/lib/utils/dataProcessing.ts:69-70 | inserting into a newest-first list keeps it newest first |
| DataProcessing.SortNewestFirst | src/lib/utils/dataProcessing.ts:69-70 | the sort is a permutation ordered newest first |
| DataProcessing.PrefixIsNewest | src/lib/utils/dataProcessing.ts:69-71 | a prefix of a newest-first list is never older than what it leaves out |
| DataProcessing.GetRecentItems | src/lib/utils/dataProcessing.ts:65-72 | `slice(0, limit)` of the newest-first sort, limit 5 unless given: the right length, taken from the input, newest first, and nothing left out is newer |
| DataProcessing.StatusCount | src/lib/utils/dataProcessing.ts:33 | a status count is at most the number of orders |
| DataProcessing.StatusCountIsFilterLength | src/lib/utils/dataProcessing.ts:88 | the count is the length of the filtered list |
| DataProcessing.MidpointSplit | src/lib/utils/dataProcessing.ts:40-44 | the two halves rejoin to the paid orders, and their revenues add up to the total |
| DataProcessing.RevenueGrowth | src/lib/utils/dataProcessing.ts:45-47 | 0 with no first-half revenue; otherwise positive exactly when the second half earns more, and 0 exactly when it earns the same |
| DataProcessing.CalculateDashboardStats | src/lib/utils/dataProcessing.ts:23-60 | the counts and their bounds, revenue over paid orders only, the average as Average of that revenue over the paid orders, and the growth sign |
| DataProcessing.Average | src/lib/utils/dataProcessing.ts:37 | the average times the number of paid orders is the revenue, and it is 0 without paid orders |
| DataProcessing.UnpaidOrderAddsNoRevenue | src/lib/utils/dataProcessing.ts:35-36 | adding an unpaid order leaves the revenue unchanged |
| DataProcessing.Capitalize | src/lib/utils/dataProcessing.ts:93 | the first character upper-cased, the rest as they are |
| DataProcessing.Percentage | src/lib/utils/dataProcessing.ts:89 | `(count / total) * 100`: the share times the total is 100 times the count, 0 for no orders, and between 0 and 100 |
| DataProcessing.GenerateOrderStatusData | src/lib/utils/dataProcessing.ts:83-97 | one entry per status, in order, with its capitalised name, its count, and Percentage of that count over all orders |
| DataProcessing.StatusCountsSum | src/lib/utils/dataProcessing.ts:83-97 | when every order has a known status, the five counts add up to the number of orders |
| DataProcessing.StatusDataCountsAll | src/lib/utils/dataProcessing.ts:83-97 | the distribution's counts cover every order with a known status |
| DataProcessing.GetTrendDirection | src/lib/utils/dataProcessing.ts:110-114 | one of up, down or neutral |
| DataProcessing.TrendBySign | src/lib/utils/dataProcessing.ts:110-114 | up exactly for a positive value, down for a negative one, neutral for 0; negating the value swaps up and down |
| OverviewPage.Load | src/routes/dashboard/overview/+page.server.ts:4-39 | the totals, the active counts and each of the five status counts, revenue over all orders whatever their payment, status counts summing to the total, at most five recent items, and the collections passed through |
| OverviewPage.RecentOrdersAreNewest | src/routes/dashboard/overview/+page.server.ts:23-25 | the recent orders come from the orders, newest first, and nothing left out is newer |
| OverviewPage.RecentUsersAreNewest | src/routes/dashboard/overview/+page.server.ts:27-29 | the same for the recent users |
| OverviewPage.FilteredRevenueAtMost | src/routes/dashboard/overview/+page.server.ts:15 | with non-negative amounts, revenue over a filtered list is at most the revenue over all |
| OverviewPage.AgreesWithDashboardStats | src/routes/dashboard/overview/+page.server.ts:9-21 | the overview agrees with the dashboard statistics on every count, and its revenue is at least theirs |
| OrdersPage.QueryValue | src/routes/dashboard/orders/+page.server.ts:5-6 | a missing query parameter reads as the empty string |
| OrdersPage.SearchStage | src/routes/dashboard/orders/+page.server.ts:11-16 | with a search value, a subsequence holding every copy of each matching order and nothing else; without one, all of them |
| OrdersPage.StatusStage | src/routes/dashboard/orders/+page.server.ts:19-21 | with a status value, a subsequence holding every copy of each order of that status and nothing else; without one, all of them |
| OrdersPage.Load | src/routes/dashboard/orders/+page.server.ts:4-29 | a subsequence holding every copy of each order that passes both filters and nothing else, and the echoed parameters |
| OrdersPage.SearchAgreesWithSearchOrders | src/routes/dashboard/orders/+page.server.ts:11-16 | for a non-blank search and no status, the page shows what `searchOrders` returns |
| ProductsPage.Load | src/routes/dashboard/products/+page.server.ts:4-21 | without a search, every product; otherwise a subsequence holding every copy of each product whose name, description or category contains it ignoring case, and nothing else |
| UsersPage.Load | src/routes/dashboard/users/+page.server.ts:4-21 | without a search, every user; otherwise a subsequence holding every copy of each user whose name, email or role contains it ignoring case, and nothing else |
| Signup.SignupCheck | src/routes/signup/+page.server.ts:20-95 | the checks in source order with their messages; accepted exactly when all pass, with the trimmed name, the lower-cased email, role user and status active, and no stored email equal ignoring case |
| Signup.Submit | src/routes/signup/+page.server.ts:12-104 | runs the checks against the stored users and adds the user through the data service only when they pass |
| StatusHelpers.OrderStatusClass | src/lib/utils/statusHelpers.ts:9-18 | "status-" and the lower-cased status for the five order statuses, "" otherwise |
| StatusHelpers.PaymentStatusClass | src/lib/utils/statusHelpers.ts:23-30 | "payment-" and the lower-cased status for unpaid, paid and refunded, "" otherwise |
| StatusHelpers.RoleClass | src/lib/utils/statusHelpers.ts:35-42 | never empty; a known role gets its own class and any other role "role-user" |
| StatusHelpers.ActiveStatusClass | src/lib/utils/statusHelpers.ts:47-53 | "status-active" or "status-inactive" for those statuses, "" otherwise |
| StatusHelpers.CategoryClass | src/lib/utils/statusHelpers.ts:58-67 | a known category gets its own class and any other "category-other" |
| StatusHelpers.OrderStatusIcon | src/lib/utils/statusHelpers.ts:109-118 | the package icon exactly for an unknown status |
| StatusHelpers.PaymentStatusIcon | src/lib/utils/statusHelpers.ts:123-130 | the money-bag icon exactly for an unknown status |
| StatusHelpers.MapsIgnoreCase | src/lib/utils/statusHelpers.ts:10-59 | every class and icon map gives the same answer for a status and its lower-case form |
| StatusHelpers.FormatStatus | src/lib/utils/statusHelpers.ts:72-74 | same length, empty only for empty input, the first character not lower-case, the rest not upper-case, and each character equal to the input's ignoring case |
| StatusHelpers.FormatStatusIdempotent | src/lib/utils/statusHelpers.ts:72-74 | formatting twice is formatting once |
| StatusHelpers.FormatStatusMatchesOrderLabel | src/lib/utils/statusHelpers.ts:72-74 | on the five order statuses, formatStatus gives the order-status label |
| StatusHelpers.GetStatusLabel | src/lib/utils/statusHelpers.ts:79-104 | the formatted label, the kind's class and icon; for a user, the check mark exactly when the status is active |
| ChartHelpers.StatusColor | src/lib/utils/chartHelpers.ts:9-18 | the fixed colour of each status, and the grey default exactly for an unknown one |
| ChartHelpers.StatusColorsDistinct | src/lib/utils/chartHelpers.ts:9-18 | different statuses get different colours |
| ChartHelpers.StatusIcon | src/lib/utils/chartHelpers.ts:23-32 | the package icon exactly for an unknown status |
| ChartHelpers.StatusIconsAgree | src/lib/utils/chartHelpers.ts:23-32 | the chart icon map equals the status helpers' order icon map |
| ChartHelpers.ChartMapsIgnoreCase | src/lib/utils/chartHelpers.ts:10-24 | colour and icon ignore case |
| ChartHelpers.BarRatio | src/lib/utils/chartHelpers.ts:38 | the quotient for a non-zero maximum |
| ChartHelpers.LevelOf | src/lib/utils/chartHelpers.ts:39-43 | one of the five levels; 100 exactly for a ratio of 1; 80 above 1; 20 below 0.4 |
| ChartHelpers.LevelMonotone | src/lib/utils/chartHelpers.ts:39-43 | up to a ratio of 1, a larger ratio never gets a lower level |
| ChartHelpers.RatioFacts | src/lib/utils/chartHelpers.ts:38 | dividing by a positive maximum keeps order and gives 1 only for the maximum |
| ChartHelpers.BarHeightClass | src/lib/utils/chartHelpers.ts:37-44 | the class name carries the level's number |
| ChartHelpers.BarHeightAtAndAboveMax | src/lib/utils/chartHelpers.ts:37-44 | the maximum gets "bar-height-100" and a value above it "bar-height-80" |
| ChartHelpers.BarLevelMonotone | src/lib/utils/chartHelpers.ts:37-44 | between 0 and the maximum, a larger value never gets a lower bar |
| ChartHelpers.CalculatePercentage | src/lib/utils/chartHelpers.ts:49-51 | 0 for a non-positive total; otherwise value / total * 100, within 0..100 for a value within the total |
| Formatters.TruncateText | src/lib/utils/formatters.ts:29-32 | unchanged when it fits; otherwise a prefix of the text followed by "...", of length maxLength + 3 for a non-negative maxLength |
| Formatters.SplitOnSpace | src/lib/utils/formatters.ts:36 | at least one piece, none containing a space |
| Formatters.SplitJoin | src/lib/utils/formatters.ts:36 | joining the pieces with spaces gives the name back |
| Formatters.SplitAppend | src/lib/utils/formatters.ts:36 | a space splits a name into the pieces of either side |
| Formatters.SplitWord | src/lib/utils/formatters.ts:36 | a word without spaces is one piece |
| Formatters.FirstChars | src/lib/utils/formatters.ts:37-38 | at most one character per piece |
| Formatters.GetInitials | src/lib/utils/formatters.ts:34-40 | at most one character per piece, none of them lower case |
| Formatters.InitialsAppend | src/lib/utils/formatters.ts:34-40 | the initials of two names joined by a space are the initials of each |
| Formatters.InitialsOfWord | src/lib/utils/formatters.ts:34-40 | a word gives its upper-cased first character, and an empty piece gives nothing |
| Formatters.ValidateEmail | src/lib/utils/formatters.ts:42-45 | the same acceptance as the validation module's email check |
| ToastRunes.SubsequenceKeepsIncreasing | src/lib/stores/toast.svelte.ts:24-26 | dropping toasts keeps ids increasing |
| ToastRunes.RemoveKeepsIncreasing | src/lib/stores/toast.svelte.ts:24-26 | removing a toast keeps ids increasing |
| ToastRunes.IncreasingIdsAreUnique | src/lib/stores/toast.svelte.ts:11-16 | increasing ids are unique ids |
| ToastRunes.RemoveUndoesAdd | src/lib/stores/toast.svelte.ts:13-26 | removing a toast right after adding it restores the list |
| ToastRunes.ToastStore.constructor | src/lib/stores/toast.svelte.ts:9-11 | no toasts and the counter at 0 |
| ToastRunes.ToastStore.AddToast | src/lib/stores/toast.svelte.ts:13-22 | the new toast takes the counter as id and goes last, the counter goes up by one, its removal after 5000 ms is scheduled, and ids stay increasing and below the counter |
| ToastRunes.ToastStore.RemoveToast | src/lib/stores/toast.svelte.ts:24-26 | the list loses that id only, and the invariant holds |
| ToastRunes.ToastStore.Success | src/lib/stores/toast.svelte.ts:32-34 | adds one success toast |
| ToastRunes.ToastStore.Error | src/lib/stores/toast.svelte.ts:35-37 | adds one error toast |
| ToastRunes.ToastStore.Warning | src/lib/stores/toast.svelte.ts:38-40 | adds one warning toast |
| ToastRunes.ToastStore.Info | src/lib/stores/toast.svelte.ts:41-43 | adds one info toast |
| ToastRunes.ToastStore.Remove | src/lib/stores/toast.svelte.ts:44-46 | the same as removeToast |
| Toasts.RemoveIdempotent | src/lib/stores/toast.ts:44-46 | removing an id twice is removing it once |
| Toasts.RemoveAfterAdd | src/lib/stores/toast.ts:31-46 | removing the id just added drops the new toast and every older one with that id |
| Toasts.ToastQueue.constructor | src/lib/stores/toast.ts:10 | the queue starts empty |
| Toasts.ToastQueue.Add | src/lib/stores/toast.ts:31-42 | exactly one toast is appended with the message, type and duration; a removal is scheduled exactly when the duration is positive |
| Toasts.ToastQueue.Remove | src/lib/stores/toast.ts:44-46 | drops the toasts with the id, the rest keep their order |
| Toasts.ToastQueue.Clear | src/lib/stores/toast.ts:48-50 | empties the list |
| Toasts.ToastQueue.Success | src/lib/stores/toast.ts:15-17 | one success toast, 3000 ms by default |
| Toasts.ToastQueue.Error | src/lib/stores/toast.ts:19-21 | one error toast, 5000 ms by default |
| Toasts.ToastQueue.Info | src/lib/stores/toast.ts:23-25 | one info toast, 3000 ms by default |
| Toasts.ToastQueue.Warning | src/lib/stores/toast.ts:27-29 | one warning toast, 4000 ms by default |

## Left out

- Browser storage, JSON encoding and `typeof window` checks are reduced to a flag and an optional stored list per key. A stored value that parses to something other than a list, and a write that fails on quota, are not modelled.
- Patches cannot carry an explicit `undefined` value: a field in a patch is present with a value or absent.
- The lookup tables are modelled as holding exactly their keys. The JavaScript quirk that `'constructor'` and other prototype names are found in an object literal is not modelled.
- Text is a sequence of Unicode scalar values rather than UTF-16 units, so a `length` differs for characters outside the basic plane. Case mapping, `trim` and the email regex's `\s` are modelled on ASCII letters and the JavaScript whitespace set, without full Unicode case mapping.
- Floating point is not modelled. Prices, quantities, stock, amounts and ids are integers, so a non-integer price is not covered. Tax, averages, growth and percentages are exact reals, and the model makes no claim about rounding.
- `generateOrderNumber` and `generateRevenueData` are left out because they depend on the clock or on `Math.random`. `calculateTax` is a bare product; it is written out inside OrderHelpers.CalculateFinalTotal rather than as a member of its own.
- `formatGrowth`, `formatPrice`, `formatFileSize`, `formatDate` and `formatDateTime` are left out because they depend on `toFixed`, `Math.log` or `Intl` locale formatting.
- The `setTimeout` calls are not modelled. Both toast stores record which removals are scheduled, and with what delay in the writable store, but the callback firing later is left out.
- Svelte `writable`, `subscribe` and `$state` are left out, and so are SvelteKit's `fail`, `redirect` and form-data reading. Each store is an object whose fields the methods reassign.
- `src/lib/stores/auth.svelte.ts` is not part of this model. It sets two fields and navigates.
- Signup.Submit: the source passes `createdAt` to `addUser`, whose type omits it, and `addUser` overwrites it with today's date; the model passes only the date. Its import of `UserRole` and `UserStatus`, which the imported module does not export, is ignored.
- DataProcessing.SortNewestFirst: the model's sort is an insertion sort by creation date, and it is not proved stable. The source's comparator on parsed dates is modelled as the string order of ISO dates.
- OrderHelpers.CanEditOrder and OrderHelpers.CanCancelOrder carry no contract of their own. The lemma OrderHelpers.EditableStatuses states what they accept.
- OrdersPage.Load: a search value of only spaces is a non-empty value, so it filters the orders. `searchOrders` treats the same value as blank, and OrdersPage.SearchAgreesWithSearchOrders covers only non-blank searches.
- StatusHelpers.GetStatusLabel: the type argument is a three-valued datatype, so the source's `default` branch, which its type rules out, is not modelled.
- DataStores.DataStore.constructor: `loadFromStorage` calls `JSON.parse` without a `try`, so a stored value that does not parse throws. The model has no exception and treats that value as a missing key, falling back to the initial data.
- Auth.AuthStore.constructor: `getInitialState` also calls `JSON.parse` without a `try`. The model treats an unparseable stored state as missing and starts from the empty state, where the source throws.
- Seqs.FilterMultiplicity and the loaders' multiplicity clauses quantify over the elements of the input only. With the subsequence clause, an element absent from the input cannot occur in the result either.
