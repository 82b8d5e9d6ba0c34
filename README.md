# EcbMart storefront rules, modelled in Dafny

The EcbMart client is a React Native storefront (product list, cart,
checkout, OTP sign-in, profile). Almost all of it is view code; this
project models the sequential rules buried in its event handlers and
proves what they guarantee:

- **Product list** (`ProductList`, product_list.dfy): the add/remove toggle
  keyed by product id and the button caption that goes with it.
- **Cart screen** (`Cart`, cart.dfy): removing a line (`splice`), changing a
  quantity with a floor of 1, the subtotal/delivery/discount/total summary
  saved under "cartItems", and the rendered line and grand totals. The
  screen is a class whose saved summary always describes its list.
- **Checkout screen** (`Checkout`): the summary read back from storage with
  its defaults, and the order button's re-entry flag, field and empty-cart
  checks, payload mapping and success/failure outcomes.
- **Profile screen** (`Profile`): the address book's add, update, delete,
  set-default and edit handlers and the required-field check. Exactly one
  default address is kept by a delete, by set-default with an id that occurs
  once, by adding a default address that the server returns marked, and by
  saving an edit as default with an id that occurs once and a marked server
  reply. Saving an edit without the default mark, or adding an address that
  the server marks default without the form asking for it, can leave zero or
  two defaults, as the code does.
- **Sign-in and OTP screens** (`SignIn`, `OtpEntry`, sharing `DigitInput`):
  the digit-only, length-capped field filters, the login and verify length
  guards and request bodies, and the resend button's cooldown flag.
- **API client** (`ApiClient`): attaching `Authorization: Bearer <token>`,
  clearing the token at most once per request on a 401 through the
  `_retry` flag, and `authenticatedFetch`'s header merge and 401 handling.

Prices, quantities and the delivery charge are exact integers in whole
currency units (the delivery charge is 5 units, shown as "$5.00"); `price` and
`quantity` are optional because the code reads them with `?? 0` and `?? 1`.
Every network call, storage access and timer is a parameter: the handler
receives the outcome (server reply, network failure, storage failure,
cooldown elapsed) instead of performing the call. Each React handler is one
sequential step, except the checkout button, which is split at its `await`
(`HandleOrderButtonClick`, then `OrderSettled`) so that a second press while
the order is in flight can be expressed.

Some behaviours of the code worth noting:
- a quantity change that would go below 1 is refused (the cart is left as it
  is), not clamped to 1;
- the order request is sent with a plain `fetch` and carries no bearer
  token;
- `requestOtp` goes through the axios client, so its request interceptor
  attaches a stored token to the OTP request as well;
- the checkout screen starts from an all-zero summary (delivery charge 0)
  until the saved summary is read back; the cart screen's saved summary of
  an empty cart has total 5.

## Model

| member | source | states |
|---|---|---|
| DigitInput.KeepDigits | app/sign-in.tsx:62 | `replace(/[^0-9]/g, '')` yields only digits and is never longer than its input |
| DigitInput.Sanitize | app/sign-in.tsx:62 | the field filter's output holds only the characters 0-9 and is at most `maxLen` long |
| DigitInput.KeepDigitsAppend | app/sign-in.tsx:62 | dropping non-digits distributes over concatenation, so the digits keep their original order |
| DigitInput.KeepDigitsDropsNonDigit | app/sign-in.tsx:62 | a non-digit character is dropped; with the append and all-digits lemmas this pins the filter down completely |
| DigitInput.KeepDigitsOfDigits | app/otp-screen.tsx:72 | a string of digits passes the digit filter unchanged |
| DigitInput.SanitizeIsDigitPrefix | app/sign-in.tsx:62 | the output is a prefix of the input's digits, of length min(digit count, maxLen) |
| DigitInput.SanitizeIdempotent | app/otp-screen.tsx:72 | filtering twice equals filtering once |
| DigitInput.SanitizeKeepsValidInput | app/otp-screen.tsx:72 | a short enough digit string is accepted as typed |
| SignIn.FilterMobile | app/sign-in.tsx:62 | the mobile field holds only digits, at most 10, a prefix of the typed digits |
| SignIn.HandleLogin | app/sign-in.tsx:22-37 | `requestOtp` is called iff the number has exactly 10 characters; the number sent is "+880" followed by the field, 14 characters; success navigates, failure alerts |
| SignIn.FilterMobileIdempotent | app/sign-in.tsx:62 | the mobile filter is idempotent |
| SignIn.LoginSendsDigits | app/sign-in.tsx:22-62 | whatever is typed, a number that is sent is "+880" plus ten digits |
| OtpEntry.FilterOtp | app/otp-screen.tsx:72 | the code field holds only digits, at most 6, a prefix of the typed digits |
| OtpEntry.HandleVerify | app/otp-screen.tsx:20-40 | no request unless the code has exactly 6 characters; the body carries the decoded mobile number and the code unchanged |
| OtpEntry.FilterOtpIdempotent | app/otp-screen.tsx:72 | the code filter is idempotent |
| OtpEntry.VerifySendsSixDigits | app/otp-screen.tsx:20-72 | a code typed into the field reaches the server only as six digits |
| OtpEntry.OtpScreen.constructor | app/otp-screen.tsx:7-18 | empty code, resend enabled, no cooldown pending |
| OtpEntry.OtpScreen.ChangeText | app/otp-screen.tsx:72 | the field becomes the filtered text and keeps the digits-only invariant |
| OtpEntry.OtpScreen.PressVerify | app/otp-screen.tsx:20-40 | the verify button does what `HandleVerify` says for the current field, and sends only digits |
| OtpEntry.OtpScreen.PressResend | app/otp-screen.tsx:42-81 | a disabled button does nothing; otherwise the button is disabled before the request and one re-enable is scheduled, whatever the outcome |
| OtpEntry.OtpScreen.CooldownElapsed | app/otp-screen.tsx:58 | the scheduled cooldown re-enables the button |
| ProductList.IsAdded | app/product.tsx:36 | some cart entry carries the product's id; `IsAddedIffInIds` equates it with id-set membership |
| ProductList.NewLine | app/product.tsx:40 | the added line is the product with quantity 1 and every other field as it was |
| ProductList.ButtonLabel | app/product.tsx:68 | the caption reads "Remove from cart" exactly when the product is in the cart, "Add to Cart" exactly when it is not |
| ProductList.RemoveId | app/product.tsx:38 | the filter keeps only entries of the cart whose id differs |
| ProductList.HandleCartAction | app/product.tsx:35-42 | present id: every entry with it is removed and the cart shrinks; absent id: the product is appended with quantity 1 and nothing else changes |
| ProductList.IsAddedIffInIds | app/product.tsx:36-49 | the linear presence scan agrees with membership in the cart's id set |
| ProductList.RemoveAbsentId | app/product.tsx:38 | filtering an id that is not there leaves the cart unchanged |
| ProductList.RemovingShrinks | app/product.tsx:36-38 | filtering a present id shortens the cart and leaves no entry with that id |
| ProductList.RemoveIdAppend | app/product.tsx:38 | the filter distributes over concatenation: kept entries keep their relative order |
| ProductList.RemoveIdKeepsOthers | app/product.tsx:38 | every entry with another id survives, as often as before |
| ProductList.RemoveIdIds | app/product.tsx:38 | the ids left are the old ids minus the removed one |
| ProductList.RemoveIdUnique | app/product.tsx:38 | the filter keeps ids unique |
| ProductList.ToggleKeepsIdsUnique | app/product.tsx:36-40 | if ids are unique before a toggle they are unique after it |
| ProductList.ToggleTwiceRestores | app/product.tsx:35-42 | toggling the same product twice from a cart without it restores the cart |
| ProductList.ToggleKeepsOtherEntries | app/product.tsx:38-40 | entries with other ids are never altered, dropped or duplicated |
| ProductList.ButtonLabelMatchesAction | app/product.tsx:49-68 | the button reads "Remove from cart" exactly when pressing it shrinks the cart |
| Cart.LineTotal | app/cart.tsx:150 | a line without a price totals 0, a line without a quantity counts once |
| Cart.SubTotal | app/cart.tsx:52 | the `reduce` over line totals; a cart of unpriced lines sums to 0 (additivity and sign are the `SubTotalAppend` and `SubTotalNonNegative` rows) |
| Cart.Summarize | app/cart.tsx:52-62 | the saved summary's items are the cart list, its subtotal is the `reduce` over line totals, delivery charge 5, discount 0, total = subtotal + 5 - 0 |
| Cart.RenderedTotal | app/cart.tsx:185 | the rendered grand total equals the total of the saved summary |
| Cart.SpliceStart | app/cart.tsx:29 | where `splice` starts: a negative index counts from the end, clamped into the array |
| Cart.RemoveCartItem | app/cart.tsx:27-31 | for an index in range, exactly that line is removed and the others keep their order; a negative index counts from the end, and one below the length removes the first line; past the end, or on an empty cart, nothing changes |
| Cart.UpdateCartQuantity | app/cart.tsx:33-40 | line `index` gets quantity `(quantity ?? 1) + delta` when that is at least 1, otherwise the cart is unchanged; all other lines are unchanged |
| Cart.SubTotalAppend | app/cart.tsx:52 | the subtotal of two carts laid end to end is the sum of their subtotals |
| Cart.SubTotalSnoc | app/cart.tsx:52 | appending a line adds its price times quantity (with defaults 0 and 1) |
| Cart.SubTotalNonNegative | app/cart.tsx:52 | with non-negative prices and quantities the subtotal is non-negative |
| Cart.RemoveCartItemSubTotal | app/cart.tsx:27-52 | removing a line lowers the subtotal by exactly that line's total |
| Cart.RemoveCartItemMultiset | app/cart.tsx:27-31 | removing a line takes exactly that line out of the cart |
| Cart.SubTotalSplit | app/cart.tsx:52 | the subtotal is the subtotal before a line, plus that line's total, plus the subtotal after it |
| Cart.SubTotalReplace | app/cart.tsx:38-52 | replacing one line changes the subtotal by the difference of the line totals |
| Cart.UpdateCartQuantitySubTotal | app/cart.tsx:33-52 | a quantity change alters the subtotal only through the changed line's total; a refused one leaves it |
| Cart.LineTotalChange | app/cart.tsx:36-38 | moving a line's quantity by delta moves its total by price times delta |
| Cart.DecrementAtOneIsNoOp | app/cart.tsx:37 | -1 on a line at quantity 1 leaves the cart unchanged |
| Cart.UpdateKeepsQuantitiesPositive | app/cart.tsx:37 | no quantity change can drive a quantity below 1 |
| Cart.RemoveKeepsQuantitiesPositive | app/cart.tsx:27-31 | removing a line keeps every remaining quantity at least 1 |
| Cart.ToggleKeepsQuantitiesPositive | app/product.tsx:40 | the product toggle keeps every quantity at least 1: new lines start at 1 |
| Cart.RenderedTotalMatchesSaved | app/cart.tsx:150-185 | the rendered total (subtotal + 5) equals the saved total; an empty cart has subtotal 0 and total 5 |
| Cart.ExampleSummary | app/cart.tsx:52-55 | lines 10 x 2 and 5 x 1 give subtotal 25 and total 30 |
| Cart.CartScreen.constructor | app/cart.tsx:41-64 | the screen mounts with an empty cart, and the save effect has written its summary |
| Cart.CartScreen.LoadCart | app/cart.tsx:44-48 | a stored "cart" value replaces the list; none keeps it; the saved summary follows |
| Cart.CartScreen.SetAddedToCart | app/cart.tsx:51-64 | each change of the list is followed by saving its summary |
| Cart.CartScreen.RemoveCartItemAt | app/cart.tsx:27-31 | the delete icon leaves the list `RemoveCartItem` describes and a matching saved summary |
| Cart.CartScreen.UpdateCartQuantityAt | app/cart.tsx:33-40 | the -/+ buttons leave the list `UpdateCartQuantity` describes; a refused change touches no state |
| Checkout.Rehydrated | app/checkout.tsx:96-109 | a stored summary's missing numbers default to 0 and missing items to []; no stored value keeps the current summary |
| Checkout.ToOrderItems | app/checkout.tsx:49-56 | one order line per cart line, in order, carrying id, quantity and price unchanged |
| Checkout.Click | app/checkout.tsx:34-65 | an order that is sent carries the stored total and one line per cart line |
| Checkout.ClickSendsIff | app/checkout.tsx:35-47 | a request goes out iff no order is in flight, name, address and mobile number are filled and the cart is non-empty |
| Checkout.ClickPayload | app/checkout.tsx:49-65 | the request carries the form fields unchanged, the stored total (no recomputation) and the mapped lines |
| Checkout.CartToOrder | app/checkout.tsx:58-65 | reading back the cart screen's summary, the order total is the cart subtotal plus the delivery charge of 5 |
| Checkout.CheckoutScreen.constructor | app/checkout.tsx:17-31 | payment "card", empty form, the all-zero summary, no order in flight |
| Checkout.CheckoutScreen.Rehydrate | app/checkout.tsx:96-109 | the effect leaves the summary `Rehydrated` describes |
| Checkout.CheckoutScreen.HandleOrderButtonClick | app/checkout.tsx:34-65 | while an order is in flight a press does nothing; a failed check resets the flag; a sent order keeps the flag set |
| Checkout.CheckoutScreen.OrderSettled | app/checkout.tsx:66-93 | only an ok response with storage cleared resets the summary to zeros with no items; non-ok, network and storage failures keep it; the flag is always reset |
| Checkout.DoubleClickSendsOnce | app/checkout.tsx:35-36 | a second press while the first order is in flight sends nothing |
| Profile.MissingRequiredField | app/profile.tsx:107-110 | the add/update check fails when street, city, state, zip code or country is empty; the handlers then change nothing |
| Profile.ClearDefaults | app/profile.tsx:120 | every address is kept with its default mark removed |
| Profile.RemoveAddressId | app/profile.tsx:165 | the filter keeps exactly the addresses of the list whose id differs: none with the id, every one without it |
| Profile.AddAddress | app/profile.tsx:118-130 | the server's address is appended last; adding a default clears every earlier default mark, otherwise earlier entries are unchanged |
| Profile.DeleteAddress | app/profile.tsx:165-169 | no address with the id remains, a non-empty result has a default, and when a default survives the filter no mark is changed |
| Profile.SetDefaultAddress | app/profile.tsx:193-196 | length and order kept; only `isDefault` changes, true exactly for entries with the id |
| Profile.UpdateAddress | app/profile.tsx:235-244 | the edited entry becomes the server's address; others lose their default mark when the edit is default, else stay unchanged |
| Profile.HasDefaultIffCount | app/profile.tsx:167 | `some(isDefault)` holds iff the number of default addresses is positive |
| Profile.ClearDefaultsCount | app/profile.tsx:120 | after clearing, no address is default |
| Profile.AddDefaultAddressCount | app/profile.tsx:118-124 | after adding a default address, only the server's address can be default |
| Profile.AddNonDefaultAddress | app/profile.tsx:125-130 | adding a non-default address appends it and leaves the list as it was |
| Profile.RemoveAddressIdAppend | app/profile.tsx:165 | the filter distributes over concatenation: kept addresses keep their order |
| Profile.RemoveAddressIdKeepsOthers | app/profile.tsx:165 | every address with another id survives the filter in the same number of copies |
| Profile.RemoveAddressIdCount | app/profile.tsx:165 | filtering never adds default addresses |
| Profile.DeleteKeepsSingleDefault | app/profile.tsx:165-169 | with at most one default before, a delete leaves exactly one default unless the list becomes empty |
| Profile.DeleteKeepsOthersInOrder | app/profile.tsx:165-169 | the kept addresses appear in order, changed at most in the first one's default mark |
| Profile.DeleteKeepsOtherAddresses | app/profile.tsx:165-169 | every address with another id is still in the book after a delete, at most gaining the default mark |
| Profile.SetDefaultCount | app/profile.tsx:193-196 | after set-default, the defaults are exactly the entries with the id |
| Profile.SetDefaultSingle | app/profile.tsx:193-196 | with the id present once, exactly one address is default |
| Profile.UpdateDefaultCount | app/profile.tsx:235-244 | saving an edit as default leaves defaults only at the edited id, and only if the server marks it |
| Profile.UpdateAsDefaultSingle | app/profile.tsx:235-244 | saving a default edit whose id occurs once leaves exactly one default |
| Profile.UpdateUnmarkedCanDropDefault | app/profile.tsx:235-244 | saving an edit of the only default address without the mark leaves the book with no default |
| Profile.InitialProfileHasOneDefault | app/profile.tsx:14-43 | the starting address book has exactly one default |
| Profile.ProfileScreen.constructor | app/profile.tsx:12-55 | the screen starts from the built-in profile and a blank form |
| Profile.ProfileScreen.HandleAddAddress | app/profile.tsx:106-149 | a missing required field changes nothing; a server failure leaves profile and form; success stores `AddAddress` and clears the form; loading ends false |
| Profile.ProfileScreen.HandleDeleteAddress | app/profile.tsx:151-186 | success stores `DeleteAddress`; failure leaves the profile; loading ends false |
| Profile.ProfileScreen.HandleSetDefaultAddress | app/profile.tsx:188-208 | success stores `SetDefaultAddress`; failure leaves the profile; loading ends false |
| Profile.ProfileScreen.HandleEditAddress | app/profile.tsx:210-222 | the form is filled from the address and its id becomes the one being edited |
| Profile.ProfileScreen.HandleUpdateAddress | app/profile.tsx:224-269 | a missing required field changes nothing; a server failure leaves everything; success stores `UpdateAddress` and clears the form and edited id |
| ApiClient.HasToken | services/apiClient.ts:19 | a token counts only when stored and non-empty, as JavaScript truthiness; `InterceptedHeaders` and `FetchHeaders` add Authorization exactly then |
| ApiClient.Bearer | services/apiClient.ts:22 | the header value is "Bearer " followed by the token |
| ApiClient.InterceptedHeaders | services/apiClient.ts:17-27 | a token adds `Authorization` to the headers (created if absent) and keeps every other header; no token or a failed read leaves the headers as they were |
| ApiClient.FetchHeaders | services/apiClient.ts:96-103 | caller headers override the default JSON Content-Type; the token's Authorization overrides the caller's; other caller headers pass through |
| ApiClient.TokenStore.StoreToken | services/authService.ts:3-5 | storing a token makes it the current one |
| ApiClient.TokenStore.RemoveToken | services/apiClient.ts:47 | clearing empties the store and counts one clear |
| ApiClient.InterceptRequest | services/apiClient.ts:15-32 | the config's headers become `InterceptedHeaders` of the stored token |
| ApiClient.InterceptResponse | services/apiClient.ts:35-59 | successes pass through; every error is rejected; exactly a 401 with `_retry` unset sets `_retry` and clears the token once |
| ApiClient.ClearsToken | services/apiClient.ts:43 | the token is cleared for a 401 on a request not yet retried; `AtMostOneClear` and `OnlyUnauthorizedClears` bound it |
| ApiClient.AtMostOneClear | services/apiClient.ts:43-44 | a request whose `_retry` is set never clears the token again |
| ApiClient.OnlyUnauthorizedClears | services/apiClient.ts:43-57 | only a 401 error clears the token; 403 and other errors never do |
| ApiClient.RepeatedUnauthorized | services/apiClient.ts:43-50 | two 401s on the same request clear the token once and are both rejected |
| ApiClient.AuthenticatedFetch | services/apiClient.ts:90-121 | sends `FetchHeaders`; a 401 clears the token and throws; other statuses are returned; token-read and network failures are rethrown |
| ApiClient.SessionAfterUnauthorized | services/apiClient.ts:15-50 | a stored token is attached as a bearer header; after a 401 clears it the next request carries no Authorization |

## Left out

- Rendering, layout, styles and navigation (`router.push`, alerts as text): only which alert or route a handler chooses is modelled.
- Floating-point money and `toFixed`/`toLocaleString` formatting: amounts are exact integers.
- Storage and HTTP themselves (AsyncStorage, axios, fetch, JSON parse/stringify, the 10 s timeout): their results are parameters; a stored value is a record with optional fields, not a JSON string, and a malformed stored value is not modelled.
- The AES encryption of the phone number between sign-in and OTP screens: the OTP screen takes the decoded number as a plain input.
- The 30-second timer: only the "cooldown elapsed" event is modelled.
- Interleaving of React state updates and stale closures: each handler is one sequential step, except the order button's split at its `await`.
- Aliasing: `updateCartQuantity` and the delete handler write a field of an item object that the previous state still shares; the model rebuilds values, which is the same as long as nothing reads the previous state afterwards, as in the source.
- Cart.CartScreen.UpdateCartQuantityAt and Cart.UpdateCartQuantity: an index outside the cart makes the source throw a TypeError; both require an index in range, as the rendered rows always pass.
- Profile loading, saving of personal details and logout (`loadProfile`, `handleSave`, `handleLogout`), the form cancel, and order history are view flows outside the address-book rules.
- `removeToken`: services/apiClient.ts:3 imports it from services/authService.ts, which exports only `storeToken` and `getToken`, so the calls at services/apiClient.ts:47 and :112 would throw a TypeError (after `_retry` is set) and leave the token stored; the model takes the evident intent and clears the stored token.
- `options.headers` given as a `Headers` object or an array of pairs: the model takes a plain header record.
- The order of the two AsyncStorage removals after a placed order is not modelled; the failure of either counts as one storage failure.
