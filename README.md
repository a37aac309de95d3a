# MLM portal: session store, timers and list transforms

This project models the logic inside the React member portal: the session
store (`AuthProvider`), the deposit cooldown and the registration countdown,
the normalisation and aggregation of the referral list, the product search,
the card-number mask and the status mappings of a withdrawal row, the
withdrawal history, and the calls the checkout and product pages make on the
shopping cart. The markup around them is not modelled.

The model has one module per source file, plus three shared modules:

- `Maybe` holds `Option` and `Result`.
- `Digits` holds decimal text: digits, `NatToString` and `ParseDigits`, with their round trip.
- `JsValues` holds the values the pages receive from the API. A `Json` is a
  parsed body, and `Option<Json>` is a read that may give `undefined`. The
  module also gives the JavaScript rules the pages rely on: truthiness,
  `a || b`, `v?.k`, `v?.[0]`, a plain `v.k` that throws a TypeError on
  null or undefined, `String(v)` and `Number(v)`.

A server reply is a `Reply`: either the request or the body parse throws
(`Thrown`), or the response arrives with its `ok` flag and parsed body
(`Responded`). The browser's key-value store is a `map` from key to stored
text.

Where the source changes state step by step, the model is a class whose
fields are the component's state. Each method performs the source's steps in
order. It is proved to end in the state that a function over values gives
(`State() == Restored(old(State()), reply)`), and lemmas state what the
source promises about that function. Timers become explicit `OnSecond`
methods. A cart call becomes a `CartCall` value appended to a `calls`
sequence, because the cart itself (src/contexts/CartContext) is not part of
this model.

## Model

| member | source | states |
|---|---|---|
| Auth.AuthStore.constructor | src/contexts/AuthContext.tsx:43-44 | a fresh provider has no user, is loading, and sees the browser store as it is |
| Auth.Restored | src/contexts/AuthContext.tsx:47-82 | restoring always ends loading; the user changes only to the body of an ok reply; the only change to the store is removing the token, which happens only when a token was stored and the reply threw or was not ok |
| Auth.RestoreWithoutToken | src/contexts/AuthContext.tsx:50-54 | with no stored token (absent or empty), restoring only clears `isLoading`: no request, user and store unchanged |
| Auth.RestoreAccepted | src/contexts/AuthContext.tsx:66-69 | an ok reply signs in the whole response body and keeps the token |
| Auth.RestoreRejected | src/contexts/AuthContext.tsx:70-79 | a non-ok reply, a failed request or an unparsable body removes the token, leaves the user, and clears `isLoading` |
| Auth.AuthStore.RestoreSession | src/contexts/AuthContext.tsx:47-82 | the mount effect ends in the restored session, and asks the server exactly when a token is stored |
| Auth.LoginAccepted | src/contexts/AuthContext.tsx:105-114 | an ok login sets user to `data.data.user`, `token` to `String(data.token)`, `user-data` to the serialised user, and shows the body's message |
| Auth.LoginRefused | src/contexts/AuthContext.tsx:101-103 | a refused login changes only `isLoading`; it reports `String(message)` when the body has a truthy message (the text itself for a string) and "Login failed" otherwise |
| Auth.LoginResult | src/contexts/AuthContext.tsx:85-115 | a login always ends loading and shows an error or a success; a success needs an ok reply; an error (refused, thrown, unreadable `data.user`) leaves the user and the store exactly as they were; stored keys other than `token` and `user-data` are never touched |
| Auth.AuthStore.Login | src/contexts/AuthContext.tsx:85-115 | the login steps end in the session and toast the login transition gives |
| Auth.RegisterStoresEmail | src/contexts/AuthContext.tsx:137-138 | once a body is parsed, `email` is stored, whether the registration is accepted or refused |
| Auth.RegisterNeverWritesToken | src/contexts/AuthContext.tsx:118-156 | whatever the reply, registration leaves the token as it was and ends not loading |
| Auth.RegisterResult | src/contexts/AuthContext.tsx:118-156 | registration always ends loading; it shows a success exactly when `register` returns; a returned value is the body of an ok reply, which becomes the user; a rethrown error leaves the user and is the text of the error shown |
| Auth.RegisterAccepted | src/contexts/AuthContext.tsx:144-149 | an accepted registration signs in the whole body and returns it |
| Auth.RegisterRefused | src/contexts/AuthContext.tsx:140-141 | a refused registration leaves the user and rethrows `String(message)` when the body has a truthy message (the text itself for a string), and "Registration failed" otherwise |
| Auth.AuthStore.Register | src/contexts/AuthContext.tsx:118-156 | the register steps end in the session, result and toast the register transition gives |
| Auth.AuthStore.LoginWithGoogle | src/contexts/AuthContext.tsx:158-160 | Google sign-in only sends the browser to the backend's Google entry URL |
| Auth.FacebookResult | src/contexts/AuthContext.tsx:162-175 | the Facebook login ends loading with a user signed in, and `user-data` holds that user serialised |
| Auth.FacebookSignsInMockUser | src/contexts/AuthContext.tsx:162-175 | the Facebook login signs in the mock user with id "3" and changes `user-data` only, never the token |
| Auth.AuthStore.LoginWithFacebook | src/contexts/AuthContext.tsx:162-175 | the Facebook steps end in the mock-user session |
| Auth.AuthStore.ClaimDailyBonus | src/contexts/AuthContext.tsx:177-181 | claiming the daily bonus changes nothing |
| Auth.LoggedOut | src/contexts/AuthContext.tsx:183-188 | logout signs out and removes exactly the `token` and `user-data` keys |
| Auth.LogoutPurges | src/contexts/AuthContext.tsx:183-188 | logout signs out and removes `token` and `user-data`, keeping every other stored key |
| Auth.LogoutIdempotent | src/contexts/AuthContext.tsx:183-188 | logging out twice is logging out once |
| Auth.RestoreAfterLogout | src/contexts/AuthContext.tsx:183-188 | after logout, no token is stored, so a restore makes no request and nobody is signed in |
| Auth.AuthStore.Logout | src/contexts/AuthContext.tsx:183-188 | the logout steps end in the logged-out session |
| Earnings.Initial | src/pages/EarningsPage.tsx:11-17 | the panel starts enabled with timer 0, which satisfies the cooldown invariant |
| Earnings.ParseAmount | src/pages/EarningsPage.tsx:136 | the model reads NaN exactly when the text, after an optional sign, does not start with a digit; `parseFloat` also reads a leading "." and an exponent, which the model does not (see Left out) |
| Earnings.ParseAmountReadsPrefix | src/pages/EarningsPage.tsx:136 | digits with an optional sign, followed by anything that does not start with a digit, read as their value, negated after "-" |
| Earnings.Deposit | src/pages/EarningsPage.tsx:134-149 | a request is emitted exactly when the button is enabled, the amount positive and the socket present; then balance grows by the amount, the input clears and the 120-second cooldown starts; otherwise nothing changes; the invariant disabled ⇔ timer > 0 is kept |
| Earnings.Tick | src/pages/EarningsPage.tsx:117-132 | a second re-enables the button at timer ≤ 1 and otherwise takes one off, keeps the invariant and touches nothing else |
| Earnings.RunValid | src/pages/EarningsPage.tsx:117-149 | every sequence of typing, currency changes, presses and seconds keeps the invariant |
| Earnings.TimerFallsSlowly | src/pages/EarningsPage.tsx:117-132 | over any run the timer falls by at most the number of seconds that pass |
| Earnings.CooldownBetweenDeposits | src/pages/EarningsPage.tsx:134-149 | any two accepted deposits are at least 120 seconds apart |
| Earnings.FindCurrency | src/pages/EarningsPage.tsx:154 | `find` returns the first rate of the currency; reading `currency` from a null rate reached before it throws; nothing is found only when every rate is non-null and of another currency |
| Earnings.CalculatedValue | src/pages/EarningsPage.tsx:152-159 | the price line is blank when the rates are falsy or not a list, when no rate has the currency, or when the amount is NaN; a null rate reached first crashes the render; otherwise the parsed amount is priced with the `count` of the first rate of the currency |
| Earnings.NullRateCrashes | src/pages/EarningsPage.tsx:153-154 | a null rate ahead of the selected currency crashes the render |
| Earnings.FirstRateWins | src/pages/EarningsPage.tsx:154-158 | with two rates of the selected currency, the first one prices the amount |
| Earnings.StatusLabel | src/pages/EarningsPage.tsx:297-301 | the label as written: "Sending" exactly for SENDING, "Success" exactly for CANCELLED, "CANCELLED" for every other status, SUCCESS included |
| Earnings.StatusLabelSwapped | src/pages/EarningsPage.tsx:297-301 | as written, CANCELLED is labelled "Success" and SUCCESS "CANCELLED" |
| Earnings.IntendedStatusLabel | src/pages/EarningsPage.tsx:297-301 | the corrected label: "Sending" exactly for SENDING, "Success" exactly for SUCCESS, "CANCELLED" for everything else |
| Earnings.IntendedLabelAgrees | src/pages/EarningsPage.tsx:297-301 | the corrected label calls a successful payment "Success" and a cancelled one "CANCELLED" |
| Earnings.DepositPanel.constructor | src/pages/EarningsPage.tsx:11-17 | the panel starts in the initial state with nothing emitted |
| Earnings.DepositPanel.Type | src/pages/EarningsPage.tsx:228 | typing replaces the amount text and nothing else |
| Earnings.DepositPanel.HandleDeposit | src/pages/EarningsPage.tsx:134-149 | the deposit steps end in the deposit transition's panel and append exactly the emitted request, if any |
| Earnings.DepositPanel.OnSecond | src/pages/EarningsPage.tsx:117-132 | one firing of the interval is one tick |
| Register.Start | src/pages/RegisterPage.tsx:19-20 | the countdown starts at 120, not expired |
| Register.Tick | src/pages/RegisterPage.tsx:23-34 | at 0 the code expires, otherwise one second comes off; the countdown stays within 0..120 |
| Register.TicksToExpiry | src/pages/RegisterPage.tsx:23-34 | n ticks take n seconds off, and one tick after reaching 0 marks the code expired |
| Register.Resend | src/pages/RegisterPage.tsx:40-44 | an enabled (expired) resend restarts the countdown; a disabled one changes nothing |
| Register.SecondsPart | src/pages/RegisterPage.tsx:36-38 | the seconds part of the display is always two digits whose value is t mod 60 |
| Register.FormattedTime | src/pages/RegisterPage.tsx:36-38 | the display is minute digits, ":" and two second digits |
| Register.FormattedTimeRoundTrip | src/pages/RegisterPage.tsx:36-38 | reading the `m:ss` display back gives minutes·60 + seconds = t |
| Register.FormattedTimeShape | src/pages/RegisterPage.tsx:36-38 | every time the countdown can show has one minute digit, ':' and two second digits |
| Register.ModalShown | src/pages/RegisterPage.tsx:58-71 | the modal is shown exactly when `register` resolves with message "success" |
| Register.RegisterForm.constructor | src/pages/RegisterPage.tsx:19-21 | the form starts with a full countdown and the modal hidden |
| Register.RegisterForm.OnSecond | src/pages/RegisterPage.tsx:23-34 | one run of the countdown effect is one tick |
| Register.RegisterForm.ClickResend | src/pages/RegisterPage.tsx:295-297 | the resend button acts only when the code has expired |
| Register.RegisterForm.Submit | src/pages/RegisterPage.tsx:51-72 | mismatched passwords only alert and never reach `register`; otherwise the session store registers and the modal follows the result |
| Referrals.ReferralLink | src/pages/ReferralsPage.tsx:35-46 | without a user there is no link; with one it is the referral key, "/" and `String(user.id)` |
| Referrals.NormalizeFriend | src/pages/ReferralsPage.tsx:72-79 | an item is normalised exactly when it is not null; `id` is passed through; name, email, join date and status are always truthy; a numeric bonus is kept |
| Referrals.FriendDefaults | src/pages/ReferralsPage.tsx:72-79 | `id` is passed through; falsy name, email and status become "Unknown", "N/A" and "pending"; a NaN bonus becomes 0 |
| Referrals.NormalizeAll | src/pages/ReferralsPage.tsx:71-80 | the mapping throws exactly when an item is null, and otherwise gives one friend per item |
| Referrals.NormalizeAllPointwise | src/pages/ReferralsPage.tsx:71-80 | the mapping keeps order: the i-th friend is the i-th item normalised |
| Referrals.FriendsFromBody | src/pages/ReferralsPage.tsx:69-93 | a null body throws, and the normalisation throws only for a null body or a null item of the array it maps |
| Referrals.BodyShapes | src/pages/ReferralsPage.tsx:69-93 | an array body is normalised, an object's `friends` array is normalised, anything else gives the empty list |
| Referrals.Fetched | src/pages/ReferralsPage.tsx:50-100 | a missing token, a non-ok status, a thrown request or an ok body whose normalisation throws (a null item) gives the empty list and the failure message; loading always ends |
| Referrals.FetchAccepted | src/pages/ReferralsPage.tsx:66-93 | an accepted reply lists exactly the normalised friends and no error |
| Referrals.TotalBonuses | src/pages/ReferralsPage.tsx:105-108 | the empty list totals 0, one friend totals their bonus, and non-negative bonuses give a non-negative total; with TotalBonusesAppend this makes it the sum of the bonuses |
| Referrals.TotalBonusesAppend | src/pages/ReferralsPage.tsx:105-108 | the bonus total splits over any division of the list |
| Referrals.CountStatus | src/pages/ReferralsPage.tsx:110-116 | a status count never exceeds the list length, and one friend counts 1 exactly when it has the status |
| Referrals.CountStatusAppend | src/pages/ReferralsPage.tsx:110-116 | the count splits over any division of the list, so it is the number of friends with the status |
| Referrals.PaidAndPendingBounded | src/pages/ReferralsPage.tsx:110-116 | paid plus pending referrals never exceed the list length |
| Referrals.CountStatusExtremes | src/pages/ReferralsPage.tsx:110-116 | a count is 0 exactly when no friend has the status, and the list length exactly when all do |
| Referrals.PayoutsWithinList | src/pages/ReferralsPage.tsx:280 | the paid and pending payouts (count × 50) together are at most 50 per listed friend |
| Referrals.ReferralsView.constructor | src/pages/ReferralsPage.tsx:30-32 | the page starts with no friends, loading, and no error |
| Referrals.ReferralsView.Mount | src/pages/ReferralsPage.tsx:34-103 | without a user nothing past the guard runs; with one the link is built and the friends are fetched |
| Referrals.ReferralsView.FetchReferralFriends | src/pages/ReferralsPage.tsx:50-101 | the fetch steps end in the fetched view |
| Products.ProductsAfterLoad | src/pages/ProductsPage.tsx:15-28 | a list body becomes the products, any other body the empty list; a thrown request leaves them |
| Products.Lower | src/pages/ProductsPage.tsx:32-37 | lowercasing keeps the length and maps each character |
| Products.Includes | src/pages/ProductsPage.tsx:32-37 | the empty term is always included, and an included term is no longer than the text |
| Products.IncludesIsOccurrence | src/pages/ProductsPage.tsx:32-37 | `includes` holds exactly when the term occurs at some offset |
| Products.Matches | src/pages/ProductsPage.tsx:30-40 | a product is kept exactly when its first translation's name or description is a string that includes the term, ignoring case; the TypeError happens exactly for a null product, a name that is neither nullish nor a string, or a missed name followed by such a description |
| Products.Filter | src/pages/ProductsPage.tsx:30-40 | the empty list filters to the empty list; a result is no longer than the list and holds only listed products |
| Products.FilterKeepsMatches | src/pages/ProductsPage.tsx:30-40 | the filter throws exactly when the predicate throws on some product; otherwise it keeps exactly the matching products as an order-preserving sub-list |
| Products.EmptyTermKeepsNamed | src/pages/ProductsPage.tsx:30-40 | with an empty term, a product whose first translation has a string name, or no name and a string description, is kept |
| Products.NamelessNeverKept | src/pages/ProductsPage.tsx:32-37 | a product with neither name nor description is never kept |
| Products.CaseInsensitive | src/pages/ProductsPage.tsx:30-37 | terms that differ only in letter case select the same products |
| Products.CartItemFor | src/pages/ProductsPage.tsx:42-50 | the cart item has the product's id, its name or "Unnamed Product", price and coin price both `product.coin`, and the first photo or null |
| CardInfo.Mask | src/components/CardInfo.tsx:50-51 | a card of four or more characters shows its first four, " **** ****" and its last four, 18 characters in all; a shorter card is shown whole on both sides of the stars |
| CardInfo.MaskHidesMiddle | src/components/CardInfo.tsx:50-51 | cards that agree on their first and last four characters have the same mask, whatever their middles |
| CardInfo.MaskShowsOnlyEnds | src/components/CardInfo.tsx:50-51 | each character of the mask is one of the first four, a star-text character, or one of the last four |
| CardInfo.Classify | src/components/CardInfo.tsx:11-35 | each switch case is taken exactly when the status is that string |
| CardInfo.StatusIcon | src/components/CardInfo.tsx:11-22 | the green check exactly for SUCCESS, the orange clock exactly for PENDING, the red cross exactly for CANCELLED, the gray clock for everything else |
| CardInfo.StatusColor | src/components/CardInfo.tsx:24-35 | the green, orange and red classes exactly for SUCCESS, PENDING and CANCELLED, the gray classes for everything else |
| CardInfo.LabelKey | src/components/CardInfo.tsx:62-64 | the "success", "pending" and "cancelled" labels exactly for SUCCESS, PENDING and CANCELLED, no label for everything else |
| CardInfo.StatusMappingsAgree | src/components/CardInfo.tsx:11-35 | icon, colour and label follow one partition: green check for SUCCESS, orange clock for PENDING, red cross for CANCELLED, gray clock, gray colour and no label for anything else |
| CardInfo.LabelOnlyForKnown | src/components/CardInfo.tsx:62-64 | a label is rendered exactly for SUCCESS, PENDING and CANCELLED |
| CardInfo.DateShown | src/components/CardInfo.tsx:66-70 | the date line is shown exactly when `requestDate` is present and truthy |
| Withdraw.FromBody | src/pages/WithdrawPage.tsx:67-68 | a list body becomes the history item by item; any other body replaces it as it is |
| Withdraw.Add | src/pages/WithdrawPage.tsx:18 | `sum + w.amount`: a number adds its value, null and booleans add as numbers, anything else makes the sum non-numeric, and a non-numeric sum stays so |
| Withdraw.Reduce | src/pages/WithdrawPage.tsx:16-18 | the fold never crashes; it is non-numeric exactly when some completed entry has an amount that is not a number, null or boolean; with no completed entries it is 0 |
| Withdraw.TotalWithdrawn | src/pages/WithdrawPage.tsx:14-18 | a history that is not a list or holds a null entry crashes the render; any other list totals Reduce of its entries, and the empty one 0 |
| Withdraw.OnlyCompletedCount | src/pages/WithdrawPage.tsx:16-18 | the total equals the total over the completed entries alone |
| Withdraw.NumericTotal | src/pages/WithdrawPage.tsx:16-18 | when completed amounts are numbers the total is their ordinary sum |
| Withdraw.SubmittedKeepsTotal | src/pages/WithdrawPage.tsx:16-18 | appending a request submitted here does not change the total |
| Withdraw.WithdrawView.constructor | src/pages/WithdrawPage.tsx:14 | the history starts empty |
| Withdraw.WithdrawView.Load | src/pages/WithdrawPage.tsx:58-75 | the loaded body replaces the history; a thrown request leaves it |
| Withdraw.WithdrawView.Submit | src/pages/WithdrawPage.tsx:20-53 | the request is `Number()` of the amount field with the card number and name; an ok reply appends it at the end, anything else leaves the history |
| Checkout.CanPayWithCoins | src/pages/CheckoutPage.tsx:50 | nobody signed in cannot pay; a yes needs numeric coins |
| Checkout.CoinsCoverTotal | src/pages/CheckoutPage.tsx:50 | a user with numeric coins can pay exactly when the coins cover the total |
| Checkout.CanPayMonotone | src/pages/CheckoutPage.tsx:50 | whoever can pay a total can pay any smaller one |
| Checkout.NoCoinsCannotPay | src/pages/CheckoutPage.tsx:50 | a user without `coins` cannot pay |
| Checkout.Screen | src/pages/CheckoutPage.tsx:52-106 | the completed order shows whatever the cart holds; otherwise an empty cart shows the empty view and a non-empty one the summary |
| Checkout.MinusCall | src/pages/CheckoutPage.tsx:156-158 | the minus button asks for one less, for that item's id |
| Checkout.PlusCall | src/pages/CheckoutPage.tsx:167-169 | the plus button asks for one more, for that item's id |
| Checkout.NoFloorAtCheckout | src/pages/CheckoutPage.tsx:155-172 | minus on a single item asks for 0, and plus after minus asks for the original quantity |
| Checkout.CheckoutView.constructor | src/pages/CheckoutPage.tsx:26-27 | the page starts neither processing nor complete, with no cart calls |
| Checkout.CheckoutView.StartCheckout | src/pages/CheckoutPage.tsx:37-41 | the checkout starts processing and waits for the payment |
| Checkout.CheckoutView.PaymentSimulated | src/pages/CheckoutPage.tsx:41-45 | after the payment the page stops processing, completes the order, shows the completed view and clears the cart once |
| Checkout.CheckoutView.ClickMinus | src/pages/CheckoutPage.tsx:155-158 | the minus button makes one call |
| Checkout.CheckoutView.ClickPlus | src/pages/CheckoutPage.tsx:166-169 | the plus button makes one call |
| Checkout.CheckoutView.ClickRemove | src/pages/CheckoutPage.tsx:176-177 | the remove button removes exactly that item's id |
| Checkout.CompleteCheckout | src/pages/CheckoutPage.tsx:37-46 | a whole checkout clears the cart exactly once and ends complete and not processing |
| ProductDetail.ProductId | src/pages/ProductDetailPage.tsx:27 | the product id is the route parameter, or "1" when it is absent or empty |
| ProductDetail.DetailItem | src/pages/ProductDetailPage.tsx:94-104 | each added item carries that id, the product's name, price 99.99, 2000 coins and the first image |
| ProductDetail.Decrement | src/pages/ProductDetailPage.tsx:238 | the minus button never goes below 1 and otherwise takes one off |
| ProductDetail.DecrementUndoesIncrement | src/pages/ProductDetailPage.tsx:238-247 | minus after plus gives back any quantity of at least 1 |
| ProductDetail.DetailView.constructor | src/pages/ProductDetailPage.tsx:23 | the quantity starts at 1 |
| ProductDetail.DetailView.ClickMinus | src/pages/ProductDetailPage.tsx:238 | the minus button sets the floored quantity and keeps it at least 1 |
| ProductDetail.DetailView.ClickPlus | src/pages/ProductDetailPage.tsx:247 | the plus button adds one |
| ProductDetail.DetailView.AddToCart | src/pages/ProductDetailPage.tsx:94-104 | the button makes exactly `quantity` add calls, each with the same item |

## Left out

- Network and socket I/O: fetch calls, the socket.io connection and its handlers, and toasts beyond the text the session store computes. Replies are inputs, and emitted requests are recorded outputs.
- `window.location`, `window.open` share links and clipboard writes: these are browser effects.
- Timer scheduling and React effect re-runs. Each interval firing is an explicit `OnSecond` call. In the registration countdown, the expiry is set on the step after the timer reaches 0, as the effect does.
- Floating point and locale formatting: tax and totals with `toFixed` on the checkout page, `amount * count` and `toLocaleString` on the earnings page, and chart statistics. Money and coin amounts are whole numbers.
- Earnings.ParseAmount: reads only the whole-number prefix of the typed text, so "0.5" reads as 0 where `parseFloat` gives 0.5, ".5" reads as NaN where it gives 0.5, and "1e3" reads as 1 where it gives 1000; the number field lets all of these be typed.
- JsValues.ToNumber: covers empty text and signed decimal integers. Surrounding whitespace, decimals, exponents and hex text read as NaN here, although `Number()` accepts them.
- JSON numbers are whole numbers, and `JSON.stringify` is kept as the value it serialises, not as text.
- Products.Lower: lowercases ASCII letters only, not the full Unicode mapping of `toLowerCase`.
- TypeError messages use the wording of the V8 engine.
- A null and an undefined user are merged: both mean nobody is signed in.
- The request bodies (name, password, referral id) are not modelled, and neither is the Google redirect beyond its URL.
- `new Date().toISOString()` is a parameter (`now`) of the referral normalisation.
- CardInfo.Mask: takes the card number as text. In the source, `cardNumber.slice` on a history entry without a string card number throws during render, and since nothing in src/ catches render errors the whole withdrawal page goes down. The model does not capture this.
- The cart's own semantics (deduplication, quantity floor, totals) belong to src/contexts/CartContext, which is not part of this model. The pages' effect on the cart is the sequence of calls they make.
- Withdraw.WithdrawView.Submit: requires the history to be a list. In the source, the page cannot render, and so cannot be submitted, while the history is not a list.
- The referrals effect re-runs when the user's id changes; this is not modelled.
- Pure presentation files (landing, profile, plans, dashboard, login, navbar, statistics chart, language selector, language table, i18n config, layout, routes) hold no stateable logic.

## Findings

| source | as written | input that shows it | evidently intended | confidence | as-written member | corrected member |
|---|---|---|---|---|---|---|
| src/pages/EarningsPage.tsx:297-301 | a payment with status CANCELLED is labelled "Success", and every other status except SENDING, SUCCESS included, is labelled "CANCELLED" | a payment whose `status` is "SUCCESS" shows "CANCELLED"; one whose `status` is "CANCELLED" shows "Success" | SUCCESS is labelled "Success", CANCELLED (and anything unknown) "CANCELLED" | medium, not executed | Earnings.StatusLabel | Earnings.IntendedStatusLabel |
