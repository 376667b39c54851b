# Storefront model

A Dafny model of the core of a small card shop. The shop has a React storefront and a Django backend.

The storefront side covers:
- the client-side cart, kept in local storage;
- the pagination bar;
- the product page, with its image gallery and its stock-guarded add button;
- the checkout page: the shipping form, its validity rule, the prefill from the saved address, the payment buttons, and the routing after a payment;
- the two product listings, home and category, with their sort parameters, page resets, page counts and "Showing a - b of n" line;
- the session cache of the logged-in user.

The backend side covers:
- the order-completion endpoint, which records an order and its items and takes the sold quantities out of stock;
- the order model's defaults and the signal that stamps the shipping date;
- the image-URL getters of the product serializer;
- the email validation of the registration and profile forms.

Modelling choices:
- Prices are integer cents.
- Every awaited request is an input to the operation that awaits it: the response body, or `Failed` for a thrown error.
- React effects and timers become explicit steps.
- Each component whose state changes is a class with those fields. Its handlers are methods whose `ensures` give the whole new state in terms of pure functions. The properties are proved about those functions as lemmas.

Modules:
- `Common`: Option, JavaScript `trim`, join/split, integer printing.
- `Cart`, `Pagination`, `ProductDetail`, `Checkout`, `Auth`: the storefront files of the same names.
- `Listing`: what both listings share.
- `Home`, `CategoryPage`: the two listing pages.
- `CompleteOrder`: `backend/payment/api_views.py`.
- `PaymentModels`: `backend/payment/models.py`.
- `ImageUrls`: `backend/store/serializers.py`.
- `AccountForms`: `account/forms.py`.

The model follows the code where the code differs from the behaviour one would summarise:
- A logout whose response lacks `success` leaves the user logged in.
- After a successful logout, the re-check may log the user in again.
- `updateQuantity` on a line whose stored stock is 0 keeps the line, at quantity 0.
- A failed home-page request empties the list but keeps the page count and the total.
- A cart item without a quantity counts 0 towards the amount paid but takes 1 unit out of stock.

## Model

| member | source | states |
|---|---|---|
| Common.BlankIffAllWhitespace | frontend/src/pages/Checkout.jsx:94 | a value is blank after `trim()` exactly when every character is ECMAScript whitespace |
| Common.TrimStartSpec | frontend/src/pages/Checkout.jsx:94 | trimming the start leaves the suffix from the first non-whitespace character, dropping only whitespace |
| Common.TrimEndSpec | frontend/src/pages/Checkout.jsx:94 | trimming the end leaves the prefix up to the last non-whitespace character, dropping only whitespace |
| Common.OrDefault | frontend/src/pages/Checkout.jsx:50-56 | the JavaScript fallback `s or d` yields `s` when it is present and non-empty, and `d` otherwise |
| Common.SplitJoin | backend/payment/api_views.py:38 | joining newline-free, non-empty lines with `\n` and splitting again gives back the lines |
| Common.ParseNatToString | frontend/src/pages/ProductDetail.jsx:198 | the decimal text printed for a stock number reads back as that number |
| Cart.FindIndex | frontend/src/context/CartContext.jsx:35 | the index is that of the first line with the product id; no earlier line has the id; the length of the list means none does |
| Cart.AddToCart | frontend/src/context/CartContext.jsx:33-63 | an existing line moves to min(old + qty, stock) and no other line changes; otherwise a line of min(qty, stock) is appended, or nothing happens when that is not positive |
| Cart.RemoveFromCartKeeps | frontend/src/context/CartContext.jsx:65-67 | after removal no line with the id is left; every other line is kept, and no line is invented |
| Cart.UpdateQuantity | frontend/src/context/CartContext.jsx:69-86 | a quantity <= 0 removes the line; otherwise the matching line gets min(q, stored stock) and all others stay |
| Cart.TotalAppend | frontend/src/context/CartContext.jsx:92-98 | the total and the item count of a concatenation are the sums of the parts |
| Cart.TotalSingle | frontend/src/context/CartContext.jsx:92-98 | a one-line cart totals price × quantity and counts its quantity |
| Cart.TotalAround | frontend/src/context/CartContext.jsx:92-98 | the total and count split around any line |
| Cart.TotalReplaceAt | frontend/src/context/CartContext.jsx:92-98 | replacing one line changes the total and count by that line's difference |
| Cart.TotalSetAt | frontend/src/context/CartContext.jsx:92-98 | setting one line's quantity to n changes the total by price × (n − old) and the count by (n − old) |
| Cart.OnlyLineOf | frontend/src/context/CartContext.jsx:35 | with distinct ids, a line is the only one with its id |
| Cart.AddKeepsDistinct | frontend/src/context/CartContext.jsx:33-63 | adding never creates a second line for a product |
| Cart.AddCapsAtStock | frontend/src/context/CartContext.jsx:41-47 | after an add, the product's line holds at most its stock; a line already at or over stock never grows |
| Cart.FindIndexIs | frontend/src/context/CartContext.jsx:35 | the first line with the id is the one `find` returns |
| Cart.AddExistingTotal | frontend/src/context/CartContext.jsx:38-53 | adding to an existing line changes the total by price × (new − old) and the count by (new − old) |
| Cart.AddNewTotal | frontend/src/context/CartContext.jsx:55-61 | adding a new product grows the total by price × min(qty, stock) and the count by min(qty, stock), or changes nothing |
| Cart.RemoveAt | frontend/src/context/CartContext.jsx:65-67 | with distinct ids, removal cuts out exactly the one matching line |
| Cart.RemoveAbsent | frontend/src/context/CartContext.jsx:65-67 | removing an id that no line has leaves the cart as it is |
| Cart.RemoveAppend | frontend/src/context/CartContext.jsx:65-67 | removal distributes over concatenation |
| Cart.CutKeepsDistinct | frontend/src/context/CartContext.jsx:65-67 | cutting a line out keeps the ids distinct |
| Cart.RemoveTotal | frontend/src/context/CartContext.jsx:65-67 | removal keeps ids distinct and lowers the total and the count by exactly the removed line |
| Cart.UpdateChangesOnlyK | frontend/src/context/CartContext.jsx:75-85 | a positive update of the only line with the id sets that line to min(q, stock) and leaves every other line as it was |
| Cart.UpdateTotal | frontend/src/context/CartContext.jsx:69-86 | an update keeps ids distinct; a positive update changes the total and count by the one line's difference; an absent id changes nothing |
| Cart.OperationsKeepNonNegative | frontend/src/context/CartContext.jsx:33-86 | no operation makes a quantity or a stock negative, given non-negative stock and an add quantity of at least 0 |
| Cart.CartStore.constructor | frontend/src/context/CartContext.jsx:16-31 | mounting loads a readable saved list, or starts empty when the entry is absent or unreadable, and writes the list back |
| Cart.CartStore.Add | frontend/src/context/CartContext.jsx:33-63 | the new list is `AddToCart` of the old, it is persisted, and ids stay distinct |
| Cart.CartStore.Remove | frontend/src/context/CartContext.jsx:65-67 | the new list is `RemoveFromCart` of the old, it is persisted, and ids stay distinct |
| Cart.CartStore.Update | frontend/src/context/CartContext.jsx:69-86 | the new list is `UpdateQuantity` of the old, it is persisted, and ids stay distinct |
| Cart.CartStore.Clear | frontend/src/context/CartContext.jsx:88-90 | the list is empty and persisted |
| Cart.Reload | frontend/src/context/CartContext.jsx:16-31 | a fresh provider over the saved storage sees the same list |
| Pagination.Run | frontend/src/components/Pagination.jsx:10-12 | the run holds exactly the buttons lo..hi, in order |
| Pagination.RunSnoc | frontend/src/components/Pagination.jsx:10-12 | extending a run by one pushes one more page at the end |
| Pagination.PushRange | frontend/src/components/Pagination.jsx:33-35 | the `for`/`push` loop appends exactly the run lo..hi |
| Pagination.GetPageNumbers | frontend/src/components/Pagination.jsx:4-42 | the list built step by step is the case-by-case window |
| Pagination.WindowShape | frontend/src/components/Pagination.jsx:4-42 | the window has at most seven entries, runs from 1 to the last page in increasing order, marks every skipped stretch with an ellipsis, and contains the current page |
| Pagination.SmallShape | frontend/src/components/Pagination.jsx:8-12 | with at most five pages the window is the full increasing run from 1 and contains the current page |
| Pagination.HeadShape | frontend/src/components/Pagination.jsx:15-21 | near the start the window is 1..4, an ellipsis and the last page, well shaped and containing the current page |
| Pagination.TailShape | frontend/src/components/Pagination.jsx:22-28 | near the end the window is 1, an ellipsis and the last four pages, well shaped and containing the current page |
| Pagination.MiddleShape | frontend/src/components/Pagination.jsx:29-37 | in the middle the window is 1, an ellipsis, the current page and its neighbours, an ellipsis and the last page, well shaped |
| Pagination.SmallWindowIsComplete | frontend/src/components/Pagination.jsx:8-12 | with at most five pages every page is shown and there is no ellipsis |
| Pagination.Render | frontend/src/components/Pagination.jsx:2 | nothing is rendered for at most one page; otherwise Previous is disabled exactly on page 1 and Next exactly on the last |
| Pagination.ClickStaysInRange | frontend/src/components/Pagination.jsx:49-94 | from a page in range every click requests a page in range; Previous asks for the page before and Next for the page after, unless disabled |
| Listing.ProductQuery | frontend/src/pages/Home.jsx:28-33 | `price_asc` sends `price`, `price_desc` sends `-price`, anything else no ordering; the page and category pass through |
| Listing.OrderingIdentifiesSort | frontend/src/pages/Home.jsx:28-33 | two sort values that send the same ordering are the same choice |
| Listing.TotalPages | frontend/src/pages/Home.jsx:40 | `ceil(count/15)`: the least n with (n−1)·15 < count <= n·15 |
| Listing.TotalPagesUnique | frontend/src/pages/Home.jsx:40 | any page count with that property is `ceil(count/15)` |
| Listing.ShowingRangeTiles | frontend/src/pages/Home.jsx:95-98 | on every existing page the range is a stretch of at most 15 products inside 1..n; pages before the last are full; the last ends at n; each page starts right after the previous one |
| Home.HomePage.constructor | frontend/src/pages/Home.jsx:10-15 | no products, `default` sort, page 1 of 1, count 0, not loading |
| Home.HomePage.SelectSort | frontend/src/pages/Home.jsx:17-19 | a changed sort value resets the page to 1; the same value keeps it |
| Home.HomePage.ChangePage | frontend/src/pages/Home.jsx:56-59 | the page becomes the one requested |
| Home.HomePage.BeginLoad | frontend/src/pages/Home.jsx:25-33 | loading is raised and the request parameters are the product query for the current page and sort |
| Home.HomePage.FinishLoad | frontend/src/pages/Home.jsx:35-53 | a paged body gives its results, `ceil(count/15)` pages and its count; a bare array gives one page of it; any other body gives an empty page; a failure only empties the products |
| CategoryPage.SlugIndex | frontend/src/pages/CategoryPage.jsx:32 | the index is that of the first category with the slug, or the length when none has it |
| CategoryPage.FindBySlug | frontend/src/pages/CategoryPage.jsx:32 | nothing is found exactly when no category has the slug; otherwise the first one with it is found |
| CategoryPage.CategoryView.constructor | frontend/src/pages/CategoryPage.jsx:7-14 | no category, no products, loading, `default` sort, page 1 of 1 |
| CategoryPage.CategoryView.ChangeSlug | frontend/src/pages/CategoryPage.jsx:16-18 | a changed slug resets the page to 1 |
| CategoryPage.CategoryView.SelectSort | frontend/src/pages/CategoryPage.jsx:16-18 | a changed sort value resets the page to 1 |
| CategoryPage.CategoryView.ChangePage | frontend/src/pages/CategoryPage.jsx:78-81 | the page becomes the one requested |
| CategoryPage.CategoryView.FetchCategoryAndProducts | frontend/src/pages/CategoryPage.jsx:24-76 | an unknown slug resets the list and sends no products request; a found category is shown and queried with its slug, page and sort; a failure resets the list and keeps the category; loading always ends |
| ProductDetail.Present | frontend/src/pages/ProductDetail.jsx:20-25 | `.filter(Boolean)` keeps every present, non-empty URL and invents none; `PresentSingle` and `PresentAppend` fix its order and repeats |
| ProductDetail.PresentSingle | frontend/src/pages/ProductDetail.jsx:20-25 | one slot is kept exactly when it is present and non-empty |
| ProductDetail.PresentAppend | frontend/src/pages/ProductDetail.jsx:20-25 | the filter works slot by slot in order: filtering a concatenation concatenates the filtered parts, so order and repeats are kept |
| ProductDetail.Images | frontend/src/pages/ProductDetail.jsx:20-25 | at most four non-empty images; a truthy `image_url` comes first; `ImagesInOrder` gives the whole list |
| ProductDetail.ImagesInOrder | frontend/src/pages/ProductDetail.jsx:20-25 | the gallery is exactly `image_url` to `image4_url` in that order, each kept when present and non-empty |
| ProductDetail.GalleryStepsCycle | frontend/src/pages/ProductDetail.jsx:33-35 | from a valid index both arrows stay in range, undo each other, and step by ±1 modulo the image count |
| ProductDetail.NextTimesIsModular | frontend/src/pages/ProductDetail.jsx:35 | n right-arrow presses move n places round the gallery, so `len` presses return to the start |
| ProductDetail.MainImage | frontend/src/pages/ProductDetail.jsx:78 | a valid selection shows its image; an index out of range falls back to the first; an empty gallery shows nothing |
| ProductDetail.MaximumMessageNeverWarns | frontend/src/pages/ProductDetail.jsx:182-190 | as written, the refusal message never gets the warning style (see Findings) |
| ProductDetail.MaximumMessageWarns | frontend/src/pages/ProductDetail.jsx:198 | with the test keyed on the message's own spelling, the refusal message is always a warning |
| ProductDetail.GuardedAddAddsOne | frontend/src/pages/ProductDetail.jsx:194-203 | when the guard lets a click through, the cart gains exactly one unit and stays within stock |
| ProductDetail.DisabledOnlyWhenRefused | frontend/src/pages/ProductDetail.jsx:210 | an out-of-stock product is always at its limit, so disabling the button refuses nothing the guard would allow |
| ProductDetail.ProductPage.constructor | frontend/src/pages/ProductDetail.jsx:9-13 | no product, loading, first image, no message |
| ProductDetail.ProductPage.FetchProduct | frontend/src/pages/ProductDetail.jsx:43-56 | a fetched product is shown and the selection reset when it has a main image; a failure keeps the old product; loading ends |
| ProductDetail.ProductPage.PressKey | frontend/src/pages/ProductDetail.jsx:28-41 | the arrow keys step the selection only when more than one image is shown |
| ProductDetail.ProductPage.ClickArrow | frontend/src/pages/ProductDetail.jsx:97-118 | the on-image arrows step cyclically, and exist only for more than one image |
| ProductDetail.ProductPage.SelectThumbnail | frontend/src/pages/ProductDetail.jsx:128-133 | a thumbnail click selects that index when thumbnails are shown |
| ProductDetail.ProductPage.MessageTimerFires | frontend/src/pages/ProductDetail.jsx:199 | the refusal message is cleared |
| ProductDetail.ProductPage.AddedTimerFires | frontend/src/pages/ProductDetail.jsx:206-208 | the added label is reset |
| ProductDetail.ProductPage.ClickAddToCart | frontend/src/pages/ProductDetail.jsx:191-210 | disabled at stock 0; refused with the maximum message at the limit; otherwise one unit is added, the message cleared and the label set |
| Checkout.FieldNamesDistinct | frontend/src/pages/Checkout.jsx:77-81 | different inputs have different names |
| Checkout.Set | frontend/src/pages/Checkout.jsx:78-81 | the named field takes the value and every other field is kept |
| Checkout.FormValidIff | frontend/src/pages/Checkout.jsx:92-97 | the form is valid exactly when each required field has a non-whitespace character |
| Checkout.OnlyRequiredFieldsMatter | frontend/src/pages/Checkout.jsx:93 | address line 2, state and ZIP play no part in validity |
| Checkout.BlankRequiredInvalidates | frontend/src/pages/Checkout.jsx:94 | blanking any required field invalidates the form |
| Checkout.Cleaned | frontend/src/pages/Checkout.jsx:205-208 | only address line 2 is trimmed; every other field and the validity are kept |
| Checkout.SavedFormFields | frontend/src/pages/Checkout.jsx:48-57 | each prefilled field is the saved value under its own name when non-empty, else empty; the email falls back to the account's |
| Checkout.CompleteSavedAddressIsValid | frontend/src/pages/Checkout.jsx:48-57 | a saved address with the required values filled in prefills a valid form |
| Checkout.CheckoutPage.constructor | frontend/src/pages/Checkout.jsx:15-29 | an empty, invalid form, loading, no errors, no buttons |
| Checkout.CheckoutPage.Mount | frontend/src/pages/Checkout.jsx:31-43 | an empty cart routes to the cart page; a logged-in user's address is fetched; otherwise loading ends |
| Checkout.CheckoutPage.BuildButtons | frontend/src/pages/Checkout.jsx:137-164 | new buttons capture the current form and are enabled exactly when it is valid |
| Checkout.CheckoutPage.SdkReady | frontend/src/pages/Checkout.jsx:124-131 | once the SDK is loaded, buttons are built, agreeing with the form, for a non-empty cart on a page past its loading screen; otherwise the buttons are left as they were |
| Checkout.CheckoutPage.Settle | frontend/src/pages/Checkout.jsx:99-103 | the validity effect runs only when a required value changed; the buttons are rebuilt when validity flips on a page that shows their container; a typed change re-checks them |
| Checkout.CheckoutPage.FetchShippingAddress | frontend/src/pages/Checkout.jsx:45-75 | a non-empty saved address fills the form; an empty one or a failure sets only the email; loading ends and the buttons stay in sync |
| Checkout.CheckoutPage.HandleChange | frontend/src/pages/Checkout.jsx:77-90 | the value is stored, that field's error cleared, the page error reset; validity and the buttons agree with the new form; the buttons see the new form only when validity flips |
| Checkout.CheckoutPage.StoreInput | frontend/src/pages/Checkout.jsx:77-87 | the input's value is stored and every other field kept; that field's error is cleared only when it holds a message; the page error is reset |
| Checkout.CheckoutPage.CompleteOrder | frontend/src/pages/Checkout.jsx:198-228 | posts the cart and the cleaned form; success clears the cart and routes to success with the id; an error sets the message or `Failed to complete order`, takes the field errors and routes to failure |
| Checkout.CheckoutPage.OnApproveAsWritten | frontend/src/pages/Checkout.jsx:174-185 | as written, a captured payment posts the form the buttons were built with; a failed capture routes to failure |
| Checkout.CheckoutPage.OnApprove | frontend/src/pages/Checkout.jsx:174-185 | a captured payment posts the current form, then routes as `handleCompleteOrder` does; a failed capture routes to failure |
| Checkout.CheckoutPage.OnError | frontend/src/pages/Checkout.jsx:186-189 | a payment error routes to the failure page |
| Checkout.FilledValue | frontend/src/pages/Checkout.jsx:94 | a value that starts and ends with a non-whitespace character survives trimming |
| Checkout.StaleShippingExample | frontend/src/pages/Checkout.jsx:174-196 | concrete run: the form shows `Boston`, but the request carries `B` (see Findings) |
| Checkout.TypeCityAndPay | frontend/src/pages/Checkout.jsx:77-103 | typing the city after three fields, then paying, posts the first letter only |
| Checkout.TypeAllButCity | frontend/src/pages/Checkout.jsx:77-103 | typing three required fields leaves the form invalid with the buttons shown |
| Auth.Session.constructor | frontend/src/context/AuthContext.jsx:15-16 | nobody is logged in and the first check is pending |
| Auth.Session.CheckAuth | frontend/src/context/AuthContext.jsx:22-33 | only an authenticated answer sets the user; loading always ends |
| Auth.Session.Login | frontend/src/context/AuthContext.jsx:35-48 | success stores the user and reports the message; an error keeps the user and reports the server's error or `Login failed`; a body without `success` resolves to nothing |
| Auth.Session.Register | frontend/src/context/AuthContext.jsx:50-63 | never logs in; success reports the message; an error reports the error or `Registration failed` with the field errors |
| Auth.Session.Logout | frontend/src/context/AuthContext.jsx:65-78 | success clears the user and re-checks; an error clears the user; a body without `success` changes nothing |
| PaymentModels.NewOrder | backend/payment/models.py:51-79 | a new order carries the given fields, is not shipped, and has no date, tracking number or courier |
| PaymentModels.NextShippedDate | backend/payment/models.py:87-88 | only the not-shipped to shipped transition stamps `now`; every other save keeps the date |
| PaymentModels.OrderInstance.constructor | backend/payment/models.py:51-79 | the instance has the given key, flag and date |
| PaymentModels.SetShippedDateOnUpdate | backend/payment/models.py:82-88 | a new order is left alone; a stored order gets the transition rule against its stored row; a key with no row raises, leaving the date |
| PaymentModels.ShippedDateIsLastShipping | backend/payment/models.py:82-88 | after any series of saves, the flag is the last one saved, and the date is the original one if no save moved the order to shipped |
| PaymentModels.LatestShippingDate | backend/payment/models.py:82-88 | when some save moved the order to shipped, the date is the time of the latest such save |
| CompleteOrder.MissingQuantityDefaults | backend/payment/api_views.py:26 | an item without a quantity adds 0 to the amount paid but sells 1 unit |
| CompleteOrder.PostedCart | frontend/src/pages/Checkout.jsx:210-213 | the posted cart has one well-formed item per line, carrying its id, price and quantity |
| CompleteOrder.ServerTotalIsCartTotal | backend/payment/api_views.py:25-28 | the amount the server records for a cart posted by checkout equals the cart total the shopper saw |
| CompleteOrder.NonEmpty | backend/payment/api_views.py:38 | `filter(None, …)` keeps only non-empty parts, each one of the inputs; `NonEmptySingle` and `NonEmptyAppend` fix which, in what order |
| CompleteOrder.NonEmptySingle | backend/payment/api_views.py:38 | a lone part is kept exactly when it is non-empty |
| CompleteOrder.NonEmptyAppend | backend/payment/api_views.py:38 | the filter works part by part in order: filtering a concatenation concatenates the filtered parts |
| CompleteOrder.AddressLinesInOrder | backend/payment/api_views.py:31-38 | the address lines are `address1`, `address2`, `city`, `state`, `zipcode` in that order, each kept when non-empty |
| CompleteOrder.AddressLinesRecoverable | backend/payment/api_views.py:31-38 | the stored address splits back on newlines into exactly its non-empty parts, in order |
| CompleteOrder.NextStock | backend/payment/api_views.py:61-76 | one save adds and drops no product |
| CompleteOrder.StockAfter | backend/payment/api_views.py:58-80 | the saves of the loop add and drop no product |
| CompleteOrder.StockAfterStep | backend/payment/api_views.py:59-78 | one more item of the loop is one more save, against the table the earlier items left |
| CompleteOrder.StockAfterSells | backend/payment/api_views.py:58-80 | each stored product loses from stock, and gains in units sold, exactly what the saved items sell of it |
| CompleteOrder.StockPlusSoldPreserved | backend/payment/api_views.py:74-75 | stock plus units sold is unchanged for every product |
| CompleteOrder.UnknownIdsSellNothing | backend/payment/api_views.py:79-80 | items naming unknown products sell nothing |
| CompleteOrder.FirstRefusedFrom | backend/store/models.py:51-53 | the index found from `i` is the first whose row or save the database refuses, with none refused before it, or the end when none is |
| CompleteOrder.FirstRefused | backend/payment/api_views.py:59-80 | the loop stops at the first refused item or the end; the items before it name stored products only with non-negative quantities |
| CompleteOrder.FirstRefusedIs | backend/payment/api_views.py:59-80 | an index with no refused item before it and a refused item at it, or the end, is where the loop stops |
| CompleteOrder.CompletesIffNoneRefused | backend/payment/api_views.py:59-101 | the loop runs to the end exactly when the database refuses no item |
| CompleteOrder.StockStaysNonNegative | backend/store/models.py:51-53 | from a table without negative counts, the saves the columns accept leave none |
| CompleteOrder.Rows | backend/payment/api_views.py:65-71 | at most one order item per cart item, each for this order, this user and a stored product |
| CompleteOrder.RowsStep | backend/payment/api_views.py:59-71 | one more item of the loop adds its own row at the end |
| CompleteOrder.UnrefusedKnownNonNegative | backend/payment/models.py:99 | items before the first refused one name stored products only with non-negative quantities |
| CompleteOrder.RowsRecordSales | backend/payment/api_views.py:65-75 | for every stored product, the order items record exactly the units its stock loses |
| CompleteOrder.Database.constructor | backend/payment/models.py:71 | the tables start with the given products and no orders; ids start at 1 |
| CompleteOrder.Database.SaveItem | backend/payment/api_views.py:60-80 | a stored product's item writes its row and moves the quantity from stock to units sold; a negative quantity is refused with no row, an oversell is refused keeping the row but not the counts; an unknown id writes nothing |
| CompleteOrder.Database.TakeStock | backend/payment/api_views.py:57-80 | the loop is refused exactly when some item is; the products are those saved before the first refused item, and the order items are their rows plus the refused item's row when only its save failed |
| CompleteOrder.Database.ApiCompleteOrder | backend/payment/api_views.py:14-107 | an empty cart and a malformed number are refused before any write; otherwise the order is recorded first with the total, joined address and user, then the items up to the first refused one; the answer is the order id exactly when none is refused, and a table without negative counts keeps none |
| ImageUrls.Resolve | backend/store/serializers.py:32-47 | no file gives null; with a request, the request's absolute URI; else an `http` URL as is; else the bucket URL when a bucket is configured; else the relative URL |
| ImageUrls.WithoutRequest | backend/store/serializers.py:39-46 | without a request, the result is absolute exactly when the stored URL is, or a bucket is configured |
| ImageUrls.ServedWithBucket | backend/store/serializers.py:32-86 | without a request and with a bucket configured, a served field is null exactly when its image is not stored, and every served URL is an absolute `http` one |
| ImageUrls.ServedWithoutBucket | backend/store/serializers.py:32-86 | without a request and without a bucket, the four fields are the stored URLs unchanged, relative ones included |
| AccountForms.Others | account/forms.py:93 | `.exclude(pk=…)` keeps exactly the accounts with another key |
| AccountForms.CheckEmail | account/forms.py:50-58 | accepted exactly when no account holds the email and it is shorter than 350, returning it unchanged; taken is reported before too long |
| AccountForms.CreateAcceptsExactly | account/forms.py:36-58 | registration accepts exactly a present, unused email shorter than 350 characters, unchanged; a taken one is reported as taken |
| AccountForms.UpdateIsCreateAmongOthers | account/forms.py:74-101 | the update form applies the registration rule to every account but the edited one |
| AccountForms.TakenByOthers | account/forms.py:93 | taken among the others exactly when an account with a different key holds it |
| AccountForms.OwnEmailAccepted | account/forms.py:89-101 | re-submitting one's own unique, short email is accepted on update, though registration refuses it |

## Left out

- Local storage and JSON are a `Stored` value: absent, unreadable, or a list. The serialised text is not modelled.
- Prices are whole cents. `parseFloat`, `float()`, `toFixed(2)` and `DecimalField` rounding and digit limits are not modelled.
- Timers, React batching and renders between awaited steps are explicit method calls. Two in-flight requests racing each other are not modelled.
- The payment SDK, the DOM, `window.scrollTo` and the network are inputs or left out. The buttons' `createOrder` amount is not modelled. The capture is a boolean.
- The thrown error text of `api_complete_order` is the parameter `errorText`. Which Python exception arises is not modelled.
- Django's `build_absolute_uri` is an uninterpreted function of the request.
- The confirmation email of `api_complete_order` is sent after every write, and its failure is swallowed. It is left out.
- A non-numeric product id in the posted cart is not modelled: ids are integers or absent.
- The upper bounds of `PositiveIntegerField` and `PositiveBigIntegerField` are not modelled: only their refusal of negative values is.
- A field error in the checkout page is one optional message per input, where a Django form error is a list of messages.
- Database transactions are not modelled. Stock updates made before a rejected item row stay, as they do without a transaction.
- AccountForms.CleanEmailCreate: Django's `EmailField` checks run before `clean_email`: required, format, and a maximum of 254 characters. Only the required check is modelled. So the 350-character branch, which Django's own limit makes unreachable, is kept as written.
- AccountForms.CleanEmailUpdate: `.exclude(pk=None)` for an unsaved instance is modelled as excluding a key no account has.
- The order-check form and the login form in `account/forms.py`, and the pages outside the files above, are not part of this model.

## Findings

| source | as written | input that shows it | evidently intended | confidence | as-written member | corrected member |
|---|---|---|---|---|---|---|
| frontend/src/pages/ProductDetail.jsx:184 | the warning style tests `cartMessage.includes('maximum')` (lower case) | a product with stock 3 already 3 in the cart: the message `Maximum quantity (3) already in cart` is drawn green | the refusal message, spelled `Maximum`, is drawn as a warning | not executed | ProductDetail.MaximumMessageNeverWarns | ProductDetail.MaximumMessageWarns |
| frontend/src/pages/Checkout.jsx:174-196 | `onApprove` calls the `handleCompleteOrder` of the render that built the buttons, which are only rebuilt when `formValid` flips | fill name, email, address, then type `B`, `Boston` into the city and pay: the order is posted with city `B` | the order is posted with the form as shown | not executed | Checkout.StaleShippingExample | Checkout.CheckoutPage.OnApprove |
