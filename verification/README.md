# Pharmacy stock client — a Dafny model

This project models the client side of a small pharmacy stock application
(a React/TypeScript single-page app). Pharmacists record sales, ask for new
products and follow expiry dates. Administrators manage the catalogue and
approve or refuse product requests. The model covers:

- **Two data stores.** Both are classes whose list fields the methods reassign.
  - `Inventory.DataStore` (src/contexts/DataContext.tsx) is the in-memory store.
  - `LegacyInventory.LegacyDataStore` (src/context/DataContext.tsx) keeps its
    lists in the browser's storage. It finds products by name on approval and
    adds a stub when none matches.

  Every state-changing method states its new state through a specification
  function (`SaleStock`, `ApprovalStock`, `ValidationStock`, …). Lemmas about
  those functions carry the properties.
- **The pages**, modelled as pure filters and decisions plus small form classes:
  - the dashboard;
  - expirations;
  - sales;
  - products;
  - requests;
  - history;
  - validation;
  - registration;
  - the protected-route guard.
- **The mapping to the server's API** (src/api/services.ts):
  - the four `transform*` conversions;
  - the create and update payloads;
  - the round trips through the server;
  - the mock `authApi.login` lookup.
- **The three session stores:**
  - `MockAuth` (src/context/AuthContext.tsx) logs in against a fixed user list.
  - `ApiAuth` (src/contexts/AuthContext.tsx) logs in over the API.
  - `AuthProvider` (src/context/AuthProvider.tsx) restores a stored user only
    after `isUserDataValid` and `verifyUserWithServer` (src/api/authService.ts)
    both accept it.

JavaScript behaviour is written out where it matters:
- **Truthiness**: `""`, `0`, `null` and `undefined` are falsy.
- **Strict equality**: `JsId` keeps a numeric id distinct from a string id.
- **`parseInt`**: `Text.ParseInt`, with `None` standing for `NaN`.
- **`String(n)`**: `Text.IntToString`.
- **`date.split('T')[0]`**: `Text.DatePart`.
- **`Math.ceil` over milliseconds**: `Expirations.CeilDays`.

`localStorage` is a `map<string, string>`. The following are function
parameters:
- `JSON.parse`, `JSON.stringify` and `new Date(...)`;
- the server's replies;
- the current time.

## Model

| member | source | states |
|---|---|---|
| Domain.StockPatchOnlyStock | src/contexts/DataContext.tsx:52-54 | merging a stock-only patch changes the product's box count and nothing else |
| Domain.Max0 | src/contexts/DataContext.tsx:53 | `Math.max(0, x)` is non-negative, at least `x`, and is either `x` or 0 |
| Domain.WithStatus | src/pages/Requests.tsx:219-245 | a request is kept exactly when it has the given status |
| Domain.StatusCountsAddUp | src/pages/Requests.tsx:219-245 | the pending, approved and refused counts add up to the number of requests |
| Domain.GetItem | src/context/DataContext.tsx:28-30 | `getItem` yields a value exactly when the key is stored, and that value is the stored text |
| Inventory.UpdateById | src/contexts/DataContext.tsx:32-36 | same length; exactly the products with the id are merged with the patch, in place |
| Inventory.RemoveById | src/contexts/DataContext.tsx:38-40 | a product survives deletion exactly when its id differs |
| Inventory.SetStatus | src/contexts/DataContext.tsx:69-71 | same length; exactly the requests with the id get the new status |
| Inventory.SaleStockEffect | src/contexts/DataContext.tsx:50-55 | a sale sets every product with the sold id to `max(0, stock of the first match - quantity)`; other products and unknown ids are left unchanged; ids and length are kept |
| Inventory.SaleKeepsStockNonNegative | src/contexts/DataContext.tsx:50-55 | a sale never makes a stock negative |
| Inventory.SaleWithinStockDecrements | src/contexts/DataContext.tsx:50-55 | with unique ids, a sale within stock lowers the product's stock by exactly the quantity sold |
| Inventory.ApprovalStockEffect | src/contexts/DataContext.tsx:73-82 | approving a found request whose product id names a known product adds the requested quantity to every product with that id; any other status leaves the stock unchanged |
| Inventory.ApprovalStockNoOp | src/contexts/DataContext.tsx:73-82 | for every input: a status other than approval, an unknown request, a falsy product id or an unknown product leaves the stock unchanged |
| Inventory.FindProductSameIds | src/contexts/DataContext.tsx:76 | looking up a product depends only on the list's ids |
| Inventory.FindRequestAfterSetStatus | src/contexts/DataContext.tsx:69-74 | setting a status keeps the request's position and changes only its status |
| Inventory.SecondApprovalAddsAgain | src/contexts/DataContext.tsx:68-83 | approving the same request twice adds its quantity twice, because the current status is never checked |
| Inventory.DataStore.constructor | src/contexts/DataContext.tsx:20-22 | the store starts with the given lists |
| Inventory.DataStore.AddProduct | src/contexts/DataContext.tsx:24-30 | appends the product with a fresh id and changes nothing else |
| Inventory.DataStore.UpdateProduct | src/contexts/DataContext.tsx:32-36 | products become `UpdateById` of the old list |
| Inventory.DataStore.DeleteProduct | src/contexts/DataContext.tsx:38-40 | products become `RemoveById` of the old list |
| Inventory.DataStore.ApplySaleStock | src/contexts/DataContext.tsx:50-55 | products become `SaleStock` of the old list; sales and requests are unchanged |
| Inventory.DataStore.AddSale | src/contexts/DataContext.tsx:42-55 | appends the sale, so the total sold grows by its quantity, and applies `SaleStock` to the products |
| Inventory.DataStore.AddRequest | src/contexts/DataContext.tsx:58-66 | appends the request as pending, with a fresh id and today's date |
| Inventory.DataStore.UpdateRequestStatus | src/contexts/DataContext.tsx:68-83 | requests become `SetStatus`; products become `ApprovalStock` computed on the old lists |
| LegacyInventory.ReplaceById | src/context/DataContext.tsx:73-76 | same length; exactly the products with the updated id are replaced |
| LegacyInventory.RemoveRequest | src/context/DataContext.tsx:158-161 | a request survives exactly when its id differs; the list does not grow |
| LegacyInventory.LegacySaleStockEffect | src/context/DataContext.tsx:88-107 | a sale lowers every product with the sold id to `max(0, stock of the first match - quantity)`; other products and unknown ids are left unchanged |
| LegacyInventory.LegacySaleKeepsStockNonNegative | src/context/DataContext.tsx:88-107 | a sale never makes a stock negative |
| LegacyInventory.ValidationStockEffect | src/context/DataContext.tsx:115-156 | a case-insensitive name match gets the requested quantity added, and the length is kept; with no match, exactly one stub with the request's name and quantity is appended |
| LegacyInventory.RemoveRequestEffect | src/context/DataContext.tsx:158-161 | no request with the id remains; a list without the id is unchanged |
| LegacyInventory.SavesKeepPersisted | src/context/DataContext.tsx:52-65 | each save helper keeps storage and state in agreement |
| LegacyInventory.LegacyDataStore.constructor | src/context/DataContext.tsx:27-49 | each list is read from storage when stored and non-empty, otherwise taken from the mock data; a default is written back to storage |
| LegacyInventory.LegacyDataStore.SaveProducts | src/context/DataContext.tsx:52-55 | sets the products and writes their encoding under `pharmacy_products` |
| LegacyInventory.LegacyDataStore.SaveSales | src/context/DataContext.tsx:57-60 | sets the sales and writes their encoding under `pharmacy_sales` |
| LegacyInventory.LegacyDataStore.SaveRequests | src/context/DataContext.tsx:62-65 | sets the requests and writes their encoding under `pharmacy_requests` |
| LegacyInventory.LegacyDataStore.AddProduct | src/context/DataContext.tsx:68-71 | appends the product and persists the list |
| LegacyInventory.LegacyDataStore.UpdateProduct | src/context/DataContext.tsx:73-76 | replaces by id and persists the list |
| LegacyInventory.LegacyDataStore.DeleteProduct | src/context/DataContext.tsx:78-81 | keeps exactly the products with another id and persists the list |
| LegacyInventory.LegacyDataStore.SaleStockStep | src/context/DataContext.tsx:88-107 | applies `LegacySaleStock`; persists only when the product exists |
| LegacyInventory.LegacyDataStore.AddSale | src/context/DataContext.tsx:83-108 | prepends the sale and applies `LegacySaleStock`; the storage changes only under `pharmacy_sales` and, when the product exists, `pharmacy_products` |
| LegacyInventory.LegacyDataStore.AddRequest | src/context/DataContext.tsx:110-113 | prepends the request and persists the list |
| LegacyInventory.LegacyDataStore.ValidationStockStep | src/context/DataContext.tsx:117-155 | applies `ValidationStock` and persists the products |
| LegacyInventory.LegacyDataStore.ValidateRequest | src/context/DataContext.tsx:115-156 | removes the request and applies `ValidationStock`; the storage changes only under `pharmacy_requests` and `pharmacy_products` |
| LegacyInventory.LegacyDataStore.RejectRequest | src/context/DataContext.tsx:158-161 | removes the request and persists the list |
| LegacyInventory.LegacyDataStore.RefreshData | src/context/DataContext.tsx:163-171 | clears the three storage keys and goes back to the mock data |
| Lists.GroupSum | src/pages/Dashboard.tsx:32-51 | grouping yields each key once, in first-seen order, with the sum over its items; the totals add up to the sum over all items |
| Lists.SortDesc | src/pages/History.tsx:34-36 | the result is sorted newest first and is a permutation of the input |
| Text.Lower | src/pages/Products.tsx:78-80 | lower-casing keeps the length and maps each character |
| Text.EmptyQueryMatches | src/pages/Products.tsx:78-80 | every name includes the empty query |
| Text.DatePart | src/api/services.ts:21 | `split('T')[0]` is a prefix of the text and contains no `T` |
| Text.DatePartOfDate | src/api/services.ts:21 | a text without `T` is its own date part |
| Text.DatePartIdempotent | src/api/services.ts:21 | taking the date part twice is the same as taking it once |
| Text.QuantityFromInput | src/pages/Sales.tsx:181 | `parseInt(text) \|\| 1` is the parsed number when it is non-zero, otherwise 1, so it is never 0 |
| Text.ParseIntOfNatToString | src/api/services.ts:15 | `parseInt` reads back the decimal text of a natural number |
| Text.ParseIntOfIntToString | src/api/services.ts:15 | `parseInt(String(n)) == n` for every integer, negative ones included |
| Text.NatToStringInjective | src/api/services.ts:15 | distinct numeric ids become distinct strings |
| Text.InitialsAreWordStarts | src/pages/History.tsx:130 | the initials are the first character of every space-separated word |
| ApiServices.TransformProduct | src/api/services.ts:13-24 | the id reads back as the server's number; the date is everything before the first `T` of the server's date; name, lot and quantities are copied; a present category or supplier gives its `nom`, a present description is copied, and a missing one becomes `""` |
| ApiServices.TransformSale | src/api/services.ts:27-35 | ids read back as the server's numbers; the date is everything before the first `T`; the quantity is copied; the embedded product and user give `productNom` and `userName` from their `nom`, and a missing one becomes `""` |
| ApiServices.TransformRequest | src/api/services.ts:38-48 | the product id is absent exactly when the server's is; ids read back; the creation date is everything before the first `T`; quantity and status are kept; the comment is copied, or `""` when missing; the product and user names come from the embedded records' `nom`, or `""` |
| ApiServices.TransformUser | src/api/services.ts:51-59 | the password is never kept; the id reads back; the email defaults to `""`; `nom`, `prenom`, role and badge are copied |
| ApiServices.CreateRoundTrip | src/api/services.ts:93-107 | creating a product and converting the server's record back keeps the name, lot, quantities and description, and yields the new id and a `T`-free date |
| ApiServices.IfTruthy | src/api/services.ts:110-119 | a field is sent only when truthy |
| ApiServices.IfTruthyInt | src/api/services.ts:110-119 | a number is sent only when non-zero |
| ApiServices.BuildUpdatePayload | src/api/services.ts:110-119 | builds the update body field by field, as `UpdatePayload` states |
| ApiServices.UpdateRoundTrip | src/api/services.ts:109-123 | with truthy fields, updating on the server and converting back equals merging the patch into the converted old record |
| ApiServices.UpdateDropsFalsy | src/api/services.ts:110-119 | a price of 0 or an empty name in a patch is not sent, so the server keeps the old value |
| ApiServices.SalePayload | src/api/services.ts:138-143 | the sale body carries `parseInt` of the product and user ids, the quantity, and the sale's date, or now when the date is empty |
| ApiServices.SalePayloadOfTransformed | src/api/services.ts:137-146 | posting a converted sale sends back the server's own ids and quantity |
| ApiServices.RequestPayload | src/api/services.ts:157-162 | the request body has no product id when the id is falsy, and `parseInt` of it otherwise; the user id is `parseInt` of the request's; comment and quantity are copied |
| ApiServices.RequestPayloadOfTransformed | src/api/services.ts:156-165 | posting a converted request sends back the server's product id and quantity |
| ApiServices.AuthApiLogin | src/api/services.ts:183-192 | finds the first user with that email, else fails with "Identifiants incorrects" |
| ApiServices.LoginIgnoresPassword | src/api/services.ts:183-192 | the outcome does not depend on the password |
| AuthService.IsUserDataValidMeaning | src/api/authService.ts:76-85 | `isUserDataValid` holds exactly when the user is present, has a non-empty email or an id other than `0` and `""`, and has a non-empty first or last name |
| AuthService.RequestKey | src/api/authService.ts:49 | the key sent is the email when it is truthy, else the id |
| AuthService.VerifyUserWithServer | src/api/authService.ts:40-69 | no request without a user or key; valid exactly when the reply carries a user with the same email, the same id, or the same first and last name |
| AuthService.EchoVerifies | src/api/authService.ts:53-61 | a server that echoes the user confirms it |
| AuthService.StringIdNeverMatchesNumber | src/api/authService.ts:53-61 | a string id never matches a numeric id by `===` |
| AuthService.ValidUserIsLookedUp | src/api/authService.ts:40-69 | every structurally valid record leads to a request, sent with its `RequestKey` |
| AuthService.FormatTimestamp | src/api/authService.ts:16-19 | milliseconds followed by `Z` gain three zeros and the prefix is kept; other text is unchanged |
| AuthService.FormatTimestampIdempotent | src/api/authService.ts:16-19 | formatting twice is the same as formatting once |
| AuthService.UpdateUserActivity | src/api/authService.ts:8-33 | no request for a falsy id; success exactly on status 200 or 204 |
| AuthProvider.RestoredOnlyWhenBothChecksPass | src/context/AuthProvider.tsx:29-76 | a session is restored exactly when the stored text parses, the record is valid and the server confirms it |
| AuthProvider.RejectedUserRemoved | src/context/AuthProvider.tsx:38-67 | a stored user that is not restored is removed from storage; a restored one stays |
| AuthProvider.Provider.constructor | src/context/AuthProvider.tsx:24-26 | starts with no user and loading |
| AuthProvider.Provider.InitializeAuth | src/context/AuthProvider.tsx:29-76 | ends with loading off, the session from `InitialAuth` and the storage from `StorageAfterInit` |
| AuthProvider.Provider.HandleSetAuth | src/context/AuthProvider.tsx:79-98 | a valid user is kept and persisted; anything else clears the session and the stored user |
| AuthProvider.Provider.Logout | src/context/AuthProvider.tsx:100-109 | clears the session and removes the user and the three cached lists |
| AuthProvider.SetAuthThenRestart | src/context/AuthProvider.tsx:29-98 | a user accepted by `setAuth` is restored at the next start |
| AuthProvider.LogoutThenRestart | src/context/AuthProvider.tsx:29-109 | after logout nothing is restored |
| RouteGuard.Guard | src/authguard/ProtectedRoute.tsx:12-34 | spinner while loading, redirect when logged out, children otherwise |
| RouteGuard.GuardAfterStartup | src/authguard/ProtectedRoute.tsx:12-34 | after start-up the children show exactly when the stored user passed both checks |
| MockAuth.FindUser | src/context/AuthContext.tsx:30 | the first user matching both the email and the badge id, if any |
| MockAuth.MockSession.constructor | src/context/AuthContext.tsx:18-24 | a non-empty stored session is restored |
| MockAuth.MockSession.Login | src/context/AuthContext.tsx:26-38 | true exactly when some user matches; the session is then kept and persisted; otherwise nothing changes |
| MockAuth.MockSession.Logout | src/context/AuthContext.tsx:40-43 | no session and nothing stored |
| MockAuth.MockSession.HasRole | src/context/AuthContext.tsx:45-47 | only a logged-in user holds a role |
| MockAuth.AuthenticatedHasARole | src/context/AuthContext.tsx:45-50 | `isAuthenticated` holds exactly when the session holds one of the two roles |
| MockAuth.RolesExclusive | src/context/AuthContext.tsx:45-47 | no session holds both roles |
| ApiAuth.SessionOf | src/contexts/AuthContext.tsx:16-28 | a session exists exactly for a response with `user` and `token`; the password is dropped and the id reads back |
| ApiAuth.WiredLoginAlwaysFails | src/contexts/AuthContext.tsx:13-38 | with the wired `authApi.login`, which resolves to the bare user record, `login` never succeeds |
| ApiAuth.ApiSession.constructor | src/contexts/AuthContext.tsx:8-11 | a non-empty stored user is restored |
| ApiAuth.ApiSession.Login | src/contexts/AuthContext.tsx:13-38 | true exactly when the response carries a session; the user and token are then persisted; otherwise nothing changes |
| ApiAuth.ApiSession.Logout | src/contexts/AuthContext.tsx:40-44 | no user and neither key stored |
| ApiAuth.ApiSession.IsAdmin | src/contexts/AuthContext.tsx:46 | only a logged-in user is an admin |
| ApiAuth.LoginThenRemount | src/contexts/AuthContext.tsx:8-32 | a stored session is read back on remount |
| RegisterPage.CheckRegistrationOutcomes | src/pages/Register.tsx:38-60 | a body is posted exactly when every required field is filled and the passwords agree; a missing field is reported before a mismatch |
| RegisterPage.FailureMessage | src/pages/Register.tsx:72-76 | a 422 gets the duplicate message; everything else gets the generic one |
| RegisterPage.RegisterForm.constructor | src/pages/Register.tsx:17-24 | all fields empty; the role is seller |
| RegisterPage.RegisterForm.Type | src/pages/Register.tsx:32-34 | typing sets one field and clears the error exactly when a value changed |
| RegisterPage.RegisterForm.SelectRole | src/pages/Register.tsx:17-34 | sets the role and keeps the error |
| RegisterPage.RegisterForm.Submit | src/pages/Register.tsx:38-79 | a refused form gets its message; a created user resets the form; a failed post keeps the fields and shows the failure message |
| Expirations.CeilDays | src/pages/Expirations.tsx:27 | the rounded-up day count `d` satisfies `day*(d-1) < delta <= day*d` |
| Expirations.InBucket | src/pages/Expirations.tsx:25-36 | a product is listed exactly when its bucket matches |
| Expirations.Classify | src/pages/Expirations.tsx:25-36 | the loop's three lists are the three buckets |
| Expirations.BucketMeaning | src/pages/Expirations.tsx:28-35 | expired means a negative day count; soon means 0 to 30 days; safe means an unreadable date or more than 30 days |
| Expirations.BucketSizes | src/pages/Expirations.tsx:25-36 | the three list sizes add up to the number of products |
| Expirations.DaysShownAgree | src/pages/Expirations.tsx:41-44 | computed at the same instant, the days shown agree with the list the product is in |
| Expirations.StaleMemoDisagrees | src/pages/Expirations.tsx:18-44 | with the lists memoised two days earlier, a product listed as expiring soon is shown one day past its date |
| Expirations.ExpiredMeansADayPast | src/pages/Expirations.tsx:27 | a product counts as expired only once a full day has passed |
| Dashboard.ExpiredProducts | src/pages/Dashboard.tsx:17-19 | a product is listed exactly when its date is before now |
| Dashboard.SoonToExpire | src/pages/Dashboard.tsx:21-25 | a product is listed exactly when it expires within 30 days |
| Dashboard.OutOfStock | src/pages/Dashboard.tsx:27-29 | a product is listed exactly when it has no boxes |
| Dashboard.SoonAgreesWithExpirations | src/pages/Dashboard.tsx:21-25 | the dashboard's soon list is the expirations page's soon list |
| Dashboard.ExpiredPageImpliesDashboard | src/pages/Dashboard.tsx:17-19 | a product expired on the expirations page is expired on the dashboard |
| Dashboard.ExpiredAndSoonOverlap | src/pages/Dashboard.tsx:17-25 | a product one millisecond past its date is in both dashboard lists |
| Dashboard.SumOfOnes | src/pages/Dashboard.tsx:32-40 | counting one per product gives the number of products |
| Dashboard.CategoryData | src/pages/Dashboard.tsx:32-40 | one group per category in first-seen order; each count is its products; the counts add up to all products |
| Dashboard.SalesByDay | src/pages/Dashboard.tsx:42-51 | one group per day label in first-seen order; each total is its quantity; the totals add up to the total sold |
| Dashboard.ShowAlertMeaning | src/pages/Dashboard.tsx:170 | the alert shows exactly when some product is past its date or out of stock |
| SalesPage.AvailableProducts | src/pages/Sales.tsx:47 | a product is offered exactly when it has boxes |
| SalesPage.AvailableOrOutOfStock | src/pages/Sales.tsx:47 | with non-negative stock, every product is either offered or out of stock |
| SalesPage.CheckSaleOutcomes | src/pages/Sales.tsx:53-101 | each of the five refusal messages, including the invalid user id (`NaN` or not positive), is given exactly when its guard is the first to fail; a sale is sent exactly when all guards pass, with the selected product and quantity |
| SalesPage.RecentSales | src/pages/Sales.tsx:116-118 | the ten most recent sales (or all of them), newest first, drawn from the sales, with no omitted sale newer than one kept |
| SalesPage.SalesToday | src/pages/Sales.tsx:225 | a sale is counted today exactly when its date is today's date part |
| SalesPage.ProductsSoldOrderFree | src/pages/Sales.tsx:247 | the total sold does not depend on order |
| SalesPage.CancelWindowCloses | src/pages/Sales.tsx:288 | cancel is offered only within ten minutes, and once withdrawn it is not offered again |
| SalesPage.SaleForm.constructor | src/pages/Sales.tsx:42-44 | no product selected, quantity 1, dialog closed |
| SalesPage.SaleForm.SelectProduct | src/pages/Sales.tsx:142 | sets the product and keeps the rest |
| SalesPage.SaleForm.TypeQuantity | src/pages/Sales.tsx:181 | the quantity is `parseInt(text) \|\| 1`, never 0 |
| SalesPage.SaleForm.Submit | src/pages/Sales.tsx:50-114 | the decision is `CheckSale` on the form; a stored sale resets and closes the form |
| ProductsPage.FilteredProducts | src/pages/Products.tsx:75-84 | a product is listed exactly when its name or lot number includes the search (ignoring case) and the category matches or is "all" |
| ProductsPage.EmptyFilterListsAll | src/pages/Products.tsx:75-84 | with no search and "all", every product is listed in order |
| ProductsPage.DecideSubmitOutcomes | src/pages/Products.tsx:103-134 | invalid exactly when the name, category or lot is missing; otherwise an update of the edited id, or an addition, carrying all nine of the form's body fields |
| ProductsPage.EditWithoutCategoryRejected | src/pages/Products.tsx:151-167 | editing a product with no known category cannot be saved |
| ProductsPage.Flatten | src/pages/Products.tsx:144 | empty exactly when every field's error list is empty |
| ProductsPage.FlattenFirst | src/pages/Products.tsx:144-145 | the first message is the first error of the first field with errors |
| ProductsPage.ErrorToast | src/pages/Products.tsx:143-148 | a 422 shows its first validation message, or `undefined` when there is none; anything else shows the generic message |
| ProductsPage.StockBadgeMeaning | src/pages/Products.tsx:176-180 | expired badge iff out of stock; warning iff the count is non-zero and below 10; success iff 10 or more |
| ProductsPage.ProductDialog.constructor | src/pages/Products.tsx:61-73 | an empty form, not editing, closed |
| ProductsPage.ProductDialog.ResetForm | src/pages/Products.tsx:86-101 | an empty form, not editing |
| ProductsPage.ProductDialog.SelectCategory | src/pages/Products.tsx:220 | the category becomes `parseInt(value)` |
| ProductsPage.ProductDialog.HandleEdit | src/pages/Products.tsx:151-167 | the form is filled from the product; editing its id; opened |
| ProductsPage.ProductDialog.Submit | src/pages/Products.tsx:103-150 | the decision is `DecideSubmit`; success resets and closes; failure or invalid input keeps the form and shows the matching message |
| RequestsPage.FilteredRequests | src/pages/Requests.tsx:48-50 | admins see all requests; others see exactly their own |
| RequestsPage.CountersAddUp | src/pages/Requests.tsx:219-245 | the three counters add up to the number shown |
| RequestsPage.ResolveName | src/pages/Requests.tsx:55-57 | the selected product's name when it exists and is non-empty; the typed name when no product is selected, none has the id, or its name is empty |
| RequestsPage.RequestForm.constructor | src/pages/Requests.tsx:39-45 | an empty form with quantity 1, closed |
| RequestsPage.RequestForm.SelectProduct | src/pages/Requests.tsx:134-135 | selecting a product clears the typed name |
| RequestsPage.RequestForm.TypeName | src/pages/Requests.tsx:158-159 | typing a name clears the selected product |
| RequestsPage.RequestForm.TypeQuantity | src/pages/Requests.tsx:176 | the quantity is `parseInt(text) \|\| 1` |
| RequestsPage.RequestForm.Submit | src/pages/Requests.tsx:52-81 | sends exactly when the resolved name is non-empty and the quantity positive, appending a pending request and resetting; otherwise nothing changes |
| HistoryPage.VisibleSales | src/pages/History.tsx:24 | admins see all sales; others see exactly their own |
| HistoryPage.Searched | src/pages/History.tsx:26-32 | an empty search keeps all; otherwise a sale is kept exactly when its product or seller name matches |
| HistoryPage.HistoryFilterSound | src/pages/History.tsx:23-33 | a sale is shown exactly when it is one of the sales, is the user's own unless the user is an admin, and matches the search unless the search is empty |
| HistoryPage.FilteredSales | src/pages/History.tsx:23-37 | newest first; a permutation of the filtered sales, so the count and total are those of the filter; sorts the store's own list in place when nothing was filtered |
| ValidationPage.ValidationViewMeaning | src/pages/Validation.tsx:23-27 | a non-admin is redirected; an admin sees exactly the pending requests |
| ValidationPage.HandledLeavesPending | src/pages/Validation.tsx:29-37 | a handled request is no longer pending |
| ValidationPage.HandleValidate | src/pages/Validation.tsx:29-32 | approves the request through `updateRequestStatus` |
| ValidationPage.HandleReject | src/pages/Validation.tsx:34-37 | refuses the request and leaves stock alone |

## Left out

- Network and asynchrony. HTTP calls, the Axios interceptor (src/api/client.ts), promises, toasts, navigation and rendering are not modelled. Server replies and outcomes are parameters.
- Thin API wrappers. `categoriesApi`, `fournisseursApi` and the `getAll`/`delete` calls only forward a request and are not modelled.
- `JSON.parse`, `JSON.stringify`, `Number`, `parseFloat` and `new Date(...)` are parameters.
  - A `JSON.parse` that throws on mount in the two `AuthContext` files is not modelled.
  - Invalid dates are modelled as unreadable (`None`) only where the page checks for them.
- Prices are integers, and their text form is a pair of parameters. Floating point is not modelled.
- Text.Lower: case folding is ASCII-only. `toLowerCase` on other characters is not modelled.
- Expirations.DaysShownAgree: holds only when the lists and the days shown use the same `today`. In the source the lists are memoised on the products alone and keep the `today` of the render that computed them, while the days shown use the current render's. `Expirations.StaleMemoDisagrees` shows the two can disagree; `Expirations.Classify` takes the time the lists were computed at.
- Text.ParseInt: reads an optional `-` or `+` followed by a run of digits. Leading whitespace and the `0x` prefix are not modelled.
- Lists.SortDesc: stability (the order of equal timestamps) is not stated.
- ApiAuth.SessionOf: stores the converted user with `email || ''`. The source stores the raw, possibly null, email.
- AuthService: `null` and `undefined` are one value (`None`).
- The simulated 500 ms delay in src/context/AuthContext.tsx is left out. So are `encodeURI` on the lookup key and all console output.
- The hard-coded `isAdmin` and `user` in the pages are parameters.
- Several page calls reach store methods that the wired store does not have (snake_case product fields, `deleteSale`). They are modelled as the decision the page returns, not as a store call.
- SalesPage.SaleForm.Submit: the object the page passes to the wired `addSale` (src/pages/Sales.tsx:93-103) has snake_case keys (`product_id`, `quantite_vendue`, `date_vente`). The page model stops at the decision and does not make that store call. In the source, `sale.productId` is undefined there, so no product matches and stock is never lowered; that is the unknown-id case of `Inventory.SaleStockEffect`. The stored sale also has no `quantiteVendue` or `date`, so "Produits vendus" and the dashboard's sales by day read NaN / "Invalid Date"; the model does not capture that.
- LegacyInventory.LegacyDataStore.RefreshData: the page reload it triggers is not modelled.
- React's initial empty state before the first render is not modelled.
