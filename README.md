# JanAushadhi Vendor app: a verified model of its screen logic

The JanAushadhi Vendor app is a React Native app. Pharmacy vendors use it to
log in with an OTP and to work through their orders: take incoming orders,
deliver them or hand them to a partner, and close them. They also browse the
product catalogue, follow their commission and payouts, and ask for
withdrawals. This project models the logic inside those screens and proves
what the screens promise about it. Each screen that keeps state is a class.
Its fields are the component's state. Each handler that changes the
modelled state is a method, and the method states the complete new state:
every field it changes and that every other field keeps its value.

- `Js`: the parts of JavaScript's value semantics that the screens rely on.
  These are truthiness, `||` and `??`, `String(v)`, `Number(s)`, `<=` and
  `>` with NaN, `trim`, `toLowerCase` on the letters A to Z, `includes`, the digit filter
  `replace(/[^0-9]/g, '')`, and `join`.
- `Backend`: what a backend call can come back with.
  - `Outcome` is for handlers that look at the envelope's `response`
    field: `success`, another response with its message, or a thrown error.
  - `Reply` is for handlers that only catch a thrown error.
  - `Body` is a response that is probed for an array at `res`, `res.data`
    or `res.data.data`.
- `Images`: `buildImageUrl`, and the gallery rule shared by the store list
  and the product modal: values in sorted-key order, falsy ones dropped, the
  placeholder when none are left.
- `Orders`: the orders screen.
  - Normalising an order record.
  - The order list query.
  - Splitting the four query results into the five tab lists.
  - The tab and sub-tab selection.
  - The status badge.
  - Where a card tap leads.
- `SelfDelivery`: the self-delivery screen's three-step machine (ready, out
  for delivery, delivered).
- `OrderDetail`: the swipe-to-accept control on the order detail screen.
  - The drag progress and its icon.
  - The release thresholds.
  - The accept or reject request.
  - The order identifier.
- `OtpVerify`: the OTP screen.
  - Six one-digit cells in an array.
  - Verification of the six-digit code.
  - The resend countdown.
  - Clipboard autofill.
- `Payout`: the payout screen.
  - The tab's fetch.
  - The credit and debit sign rule.
  - Withdrawal validation and submission.
- `Store`: the product catalogue.
  - Normalising a product.
  - Extracting the array from a response.
  - The search box.
  - Fetch and refresh.
- `ProductDetail`: the product detail modal.
  - Finding the product in a response.
  - Its gallery.
  - The row guards.
  - Fetch and close.
- `Login`: the mobile number field and the Send OTP button.
- `Dashboard`: the dashboard's cards and its Total Orders sum.
- `Theme`: the light and dark theme and its palettes.

The model does not perform network calls. A call is a parameter of the
handler that awaits it. A handler that keeps `loading` set while the call is
in flight is split at each `await`. The first method runs up to the call
(`Confirm`, `PanRelease`, `BeginFetch`, `BeginVerify`, `BeginSendOtp`,
`BeginFetchAll`). The last receives the result and clears `loading`
(`Settle`, `FinishFetch`, `SettleVerify`, `OtpSent`, `FinishFetchAll`).
Login awaits twice, so `LoginAnswered` sits between its two methods and
keeps `loading` set while the OTP is being sent. Between the two halves any
other method may run, a scheduled verification among them. `Alert` confirmations run their confirm
branch, and only the message of the last alert is recorded.

Timers are explicit. `OtpScreen.Tick` is one second of the countdown. A
verification that the OTP screen schedules with `setTimeout` waits in the
`scheduled` queue until `FireScheduledVerify` runs it.

## Model

| member | source | states |
|---|---|---|
| Js.ToJsStringIsDigit | src/screens/order/OrdersScreen.js:61-64 | `String(v)` is the digit d exactly for the number d and the string "d" |
| Js.TruthyRendersNonEmpty | src/screens/order/OrdersScreen.js:52-58 | a truthy value never renders as the empty string |
| Js.LetterIsNaN | src/screens/order/OrdersScreen.js:73 | `Number(s)` of a string opening with a letter is NaN, among the decimal literals the model covers (`Number("Infinity")` is outside them) |
| Js.StrayCharacterIsNaN | src/screens/payout/PayoutScreen.js:81-86 | `Number` of a literal whose leading digits are followed by anything but one point and digits is NaN, among the decimal literals the model covers (exponents such as "1e5" are outside them) |
| Js.UnsignedParse | src/screens/payout/PayoutScreen.js:81-86 | `Number(s)` of text with no surrounding white space and no sign reads it as an unsigned decimal literal |
| Js.NatParse | src/screens/payout/PayoutScreen.js:81-86 | the digits `String(m)` prints for a natural number m read back as m |
| Js.FalsyToNumber | src/screens/order/OrdersScreen.js:73 | `Number(v)` is 0 for every falsy value but `undefined` and NaN, and for text made of white space alone |
| Js.ParseNumberRoundTrip | src/screens/payout/PayoutScreen.js:81-86 | `Number(String(n))` is n for every integer n |
| Js.Trim | src/screens/products/StoreScreen.js:108 | `trim()` is no longer than its input and has no white space at either end |
| Js.TrimIsInfix | src/screens/products/StoreScreen.js:108 | `trim()` is the part of the input between white space at its start and white space at its end |
| Js.TrimStart | src/screens/products/StoreScreen.js:108 | the leading white space removed is all white space, and the rest does not start with any |
| Js.TrimEnd | src/screens/products/StoreScreen.js:108 | the trailing white space removed is all white space, and the rest does not end with any |
| Js.NoWhitespaceTrim | src/screens/products/StoreScreen.js:108 | a string with no white space at either end is its own trim |
| Js.TrimIdempotent | src/screens/products/StoreScreen.js:108 | trimming twice is trimming once |
| Js.WhitespaceTrimsToEmpty | src/screens/products/StoreScreen.js:108-109 | a query of white space alone trims to the empty string |
| Js.ToLower | src/screens/products/StoreScreen.js:108-111 | `toLowerCase`, modelled for the letters A to Z only: each character is mapped on its own, so in this model the length is kept |
| Js.ToLowerIdempotent | src/screens/products/StoreScreen.js:108-111 | lower-casing twice is lower-casing once |
| Js.DigitsOnly | src/screens/auth/LoginScreen.js:73-75 | the digit filter's result is all digits and no longer than its input |
| Js.DigitsOnlyCount | src/screens/auth/LoginScreen.js:73-75 | the filter keeps each digit as often as the input holds it, and no other character |
| Js.DigitsOnlyAppend | src/screens/auth/LoginScreen.js:73-75 | the filter distributes over concatenation, so the digits keep their order |
| Js.DigitsOnlyKeepsDigits | src/screens/auth/LoginScreen.js:73-75 | a string of digits passes the filter unchanged |
| Js.JoinNonEmptyParts | src/screens/order/OrdersScreen.js:70 | joining non-empty parts is empty only for no parts, and it starts with the first part and ends with the last |
| Js.TruthyValues | src/screens/order/OrdersScreen.js:52-58 | `filter(Boolean)` keeps exactly the truthy values |
| Js.Rendered | src/screens/order/OrdersScreen.js:70 | `map(String)` renders each value in place |
| Backend.ErrorText | src/screens/products/OrderDetailScreen.js:121 | the alert text is the message when there is one, and never empty when the fallback is not |
| Images.BuildImageUrlAbsolute | src/screens/products/StoreScreen.js:43-47 | every built URL begins with "http", and building it again changes nothing |
| Images.BuildImageUrl | src/screens/products/StoreScreen.js:43-47 | a named file ends the URL built for it, whether it was already absolute or the upload base was put in front |
| Images.SortByKey | src/screens/products/StoreScreen.js:56-57 | `Object.keys(...).sort()` puts the entries in key order and is a permutation of them |
| Images.Insert | src/screens/products/StoreScreen.js:56-57 | one insertion step of the key sort adds exactly the entry |
| Images.InsertSorted | src/screens/products/StoreScreen.js:56-57 | an insertion into a key-sorted list keeps it sorted |
| Images.LexLeTotal | src/screens/products/StoreScreen.js:57 | any two keys are ordered one way or the other by `sort()` |
| Images.LexLeTransitive | src/screens/products/StoreScreen.js:57 | the key order of `sort()` is transitive |
| Images.SortedCons | src/screens/products/StoreScreen.js:57 | an entry whose key is below every key of a sorted list can go in front |
| Images.TruthyEntries | src/screens/products/StoreScreen.js:58-59 | falsy image values are dropped and every named file is kept as often as it occurs |
| Images.TruthyEntriesSorted | src/screens/products/StoreScreen.js:56-59 | dropping falsy values keeps the key order |
| Images.TruthyEntriesPermutation | src/screens/products/StoreScreen.js:56-59 | the files kept do not depend on the order of the keys |
| Images.TruthyEntriesEmpty | src/components/ProductDetailModal.js:41-43 | nothing is left after filtering exactly when no entry names a file |
| Images.UrlsOf | src/screens/products/StoreScreen.js:60 | `map(buildImageUrl)` builds each URL in place |
| Images.ImageList | src/components/ProductDetailModal.js:36-44 | a gallery is never empty |
| Images.ImageListSpec | src/components/ProductDetailModal.js:36-44 | the gallery is the placeholder alone when no entry names a file, and otherwise the URLs of exactly the named files, in key order |
| Images.ImageListAbsolute | src/screens/products/StoreScreen.js:54-68 | every URL in a gallery is absolute |
| Orders.DeliveryTypeSpec | src/screens/order/OrdersScreen.js:61-64 | `DeliveryTypeOf`: the delivery type is self iff `String(F4_STAT)` is "1", partner iff it is "2", and unknown otherwise |
| Orders.RenderedTruthyNonEmpty | src/screens/order/OrdersScreen.js:52-58 | the rendered truthy address fragments are all non-empty |
| Orders.AddressIsJoin | src/screens/order/OrdersScreen.js:52-70 | `Address`: the address is the truthy fragments ADD1, ADD2, ADD3, ADD4, ADD7, rendered and joined by ", " |
| Orders.Transform | src/screens/order/OrdersScreen.js:51-80 | the normalised order: "#" + id, customer name defaulting to "Customer", the items (empty when absent) and their count, a falsy total read as 0 and a truthy one converted with `Number`, time and status label defaulting to "", the raw status kept, and the delivery type from the status |
| Orders.AddressEmpty | src/screens/order/OrdersScreen.js:52-70 | the address is empty exactly when no fragment is truthy |
| Orders.AddressEndsWithLast | src/screens/order/OrdersScreen.js:52-70 | a truthy last fragment ends the address, so there is no trailing separator |
| Orders.AddressSpec | src/screens/order/OrdersScreen.js:52-70 | an order's address is empty iff no fragment is truthy, starts with a truthy ADD1 and ends with a truthy ADD7 |
| Orders.NonNumericTotalIsNaN | src/screens/order/OrdersScreen.js:73 | a grand total that is a word becomes NaN, not 0, among the decimal literals the model covers |
| Orders.FetchOrdersByType | src/screens/order/OrdersScreen.js:82-96 | a non-success envelope or a thrown error gives []; otherwise every record is normalised, in order |
| Orders.TransformAll | src/screens/order/OrdersScreen.js:88 | the records are normalised one for one, in order |
| Orders.WithStat | src/screens/order/OrdersScreen.js:113-119 | a status filter keeps exactly the orders with one of the given status strings |
| Orders.WithStatCount | src/screens/order/OrdersScreen.js:113-119 | a status filter keeps every matching order as often as it occurs, and no other order |
| Orders.WithStatAppend | src/screens/order/OrdersScreen.js:125-130 | a status filter distributes over concatenation, so list order is kept |
| Orders.NotCancelled | src/screens/order/OrdersScreen.js:108-110 | the cancelled filter leaves no order with status "0" |
| Orders.CancelledFilterRedundant | src/screens/order/OrdersScreen.js:108-119 | filtering out cancelled orders first would not change the "1"/"2" lists, so the unused `outForDeliveryClean` loses nothing |
| Orders.Classify | src/screens/order/OrdersScreen.js:113-134 | incoming and completed are the Placed and Delivered results; self lists hold only "1" and partner lists only "2" |
| Orders.ClassifyCounts | src/screens/order/OrdersScreen.js:113-132 | each on-delivery list holds each order as often as the Accept and Out For Delivery results together hold it with a matching status, so duplicates are kept |
| Orders.ConsistentExclusions | src/screens/order/OrdersScreen.js:113-132 | no order is in both the self and the partner list, and no cancelled order is in an on-delivery list |
| Orders.OnDeliveryConcatenation | src/screens/order/OrdersScreen.js:125-130 | the self list is the self orders of Accept followed by those of Out For Delivery; the same holds for partner |
| Orders.NumericStatQuirk | src/screens/order/OrdersScreen.js:61-119 | a record whose status is the number 1 is typed as self delivery yet is in no on-delivery list |
| Orders.ActiveOrders | src/screens/order/OrdersScreen.js:162-172 | the incoming tab shows incoming and the completed tab completed; otherwise the sub-tab picks self, partner or, for any other sub-tab, the whole out-for-delivery list |
| Orders.OnDeliveryTabShowsLiveOrders | src/screens/order/OrdersScreen.js:162-172 | every order on the on-delivery tab has status "1" or "2" |
| Orders.StatusBadge | src/screens/order/OrdersScreen.js:174-194 | no badge iff the label is falsy; a badge keeps its label; unknown labels get the default colours |
| Orders.CardTapTarget | src/screens/order/OrdersScreen.js:426-445 | a card opens the self-delivery screen iff it is on the self sub-tab of the on-delivery tab, and the completed detail iff it is on the completed tab |
| Orders.SelfDeliveryScreenGetsSelfOrders | src/screens/order/OrdersScreen.js:426-445 | every order a card tap sends to the self-delivery screen has status "1" |
| Orders.OrdersScreen.constructor | src/screens/order/OrdersScreen.js:29-45 | the screen opens on the incoming tab and the all sub-tab, with empty lists and zero counts |
| Orders.OrdersScreen.SelectTab | src/screens/order/OrdersScreen.js:323 | a tab press changes the tab only |
| Orders.OrdersScreen.SelectSubTab | src/screens/order/OrdersScreen.js:363 | a sub-tab press changes the sub-tab only |
| Orders.OrdersScreen.BeginFetchAll | src/screens/order/OrdersScreen.js:98-105 | loading is set and the four status queries are issued, in the order Placed, Accept, Out For Delivery, Delivered; nothing else changes |
| Orders.OrdersScreen.FinishFetchAll | src/screens/order/OrdersScreen.js:106-145 | the lists are the classification of the four query results; completed today is the delivered count and rejected today is 0; loading and refreshing end false; the tabs are kept |
| Orders.OrdersScreen.Shown | src/screens/order/OrdersScreen.js:162-172 | on the on-delivery tab the screen shows only orders with status "1" or "2" |
| SelfDelivery.InitialStep | src/screens/order/SelfDeliveryOrderScreen.js:39-45 | the initial step lies between 1 and 3, and a missing label gives 1 |
| SelfDelivery.ContainsItself | src/screens/order/SelfDeliveryOrderScreen.js:39-45 | a label equal to a marker contains it |
| SelfDelivery.InitialStepSpec | src/screens/order/SelfDeliveryOrderScreen.js:39-45 | step 3 iff the label contains "Delivered", else 2 iff it contains "Out For Delivery", else 1 |
| SelfDelivery.ColorOfSpec | src/screens/order/SelfDeliveryOrderScreen.js:144-148 | `ColorOf` (`getStepColor`): exactly the current step is drawn as current, exactly the steps before it as done and exactly those after it as pending; a step drawn as done stays done as the machine advances |
| SelfDelivery.ActionAt | src/screens/order/SelfDeliveryOrderScreen.js:356-410 | Start Delivery is offered iff at step 1, and Mark Delivered iff at step 2 |
| SelfDelivery.SelfDeliveryScreen.constructor | src/screens/order/SelfDeliveryOrderScreen.js:39-48 | the screen opens at the initial step of the order's label, not loading |
| SelfDelivery.SelfDeliveryScreen.Confirm | src/screens/order/SelfDeliveryOrderScreen.js:80-121 | a confirmed transition that is offered and not disabled sets loading and sends its request for the order; the step is unchanged |
| SelfDelivery.SelfDeliveryScreen.Settle | src/screens/order/SelfDeliveryOrderScreen.js:86-137 | success moves to step 2 or 3, and failure leaves the step; loading ends false; the refresh callback runs only on success and only when given; a delivered order goes back |
| SelfDelivery.Journey | src/screens/order/SelfDeliveryOrderScreen.js:70-142 | a scenario driver: from step 1, two successful transitions pass through steps 2 and 3 and send the two requests in order |
| SelfDelivery.NotContainsDelivered | src/screens/order/SelfDeliveryOrderScreen.js:39-45 | neither "Self Delivery" nor "Out For Delivery" contains "Delivered" |
| SelfDelivery.StepStatusRoundTrip | src/screens/order/SelfDeliveryOrderScreen.js:39-59 | an order labelled with a step's own status opens at that step |
| OrderDetail.Progress | src/screens/products/OrderDetailScreen.js:61 | the progress lies in [-1, 1] and is dx/(0.7·width) whenever that does |
| OrderDetail.IconThresholds | src/screens/products/OrderDetailScreen.js:61-63 | `IconFor`: the icon is a check iff dx > 0.35·width and a cross iff dx < -0.35·width |
| OrderDetail.Release | src/screens/products/OrderDetailScreen.js:66-84 | while loading a release only resets; otherwise accept iff dx > width/2 and reject iff dx < -width/2, both strict |
| OrderDetail.ReleaseAsWritten | src/screens/products/OrderDetailScreen.js:55-84 | the handler created once sees loading false, so it decides as if nothing were in flight |
| OrderDetail.StaleGuardAcceptsWhileLoading | src/screens/products/OrderDetailScreen.js:55-84 | a full swipe during a request accepts as written but only resets with the guard as intended |
| OrderDetail.Moved | src/screens/products/OrderDetailScreen.js:59-62 | with the guard as intended, a move while loading leaves the progress where it is, and otherwise the progress follows the finger within [-1, 1] |
| OrderDetail.MoveAsWritten | src/screens/products/OrderDetailScreen.js:55-62 | the move handler created once sees loading false, so the progress follows the finger even during a request |
| OrderDetail.StaleGuardMovesWhileLoading | src/screens/products/OrderDetailScreen.js:55-62 | a full-width drag during a request moves the swipe to its end as written, where the intended guard keeps it at 0 |
| OrderDetail.IconLeadsRelease | src/screens/products/OrderDetailScreen.js:63-82 | an accept always shows the check and a reject the cross, but a travel of 0.4·width shows the check and does nothing |
| OrderDetail.StatValue | src/screens/products/OrderDetailScreen.js:73-106 | a reject sends "0"; an accept sends "1" with self delivery and "2" without |
| OrderDetail.OrderIdentifier | src/screens/products/OrderDetailScreen.js:48-52 | one leading "#" is removed, and any other string is unchanged |
| OrderDetail.OrderIdentifierOfNormalised | src/screens/products/OrderDetailScreen.js:48-52 | for a normalised order the identifier is the record's order number again |
| OrderDetail.SwipeVisibleForNormalised | src/screens/products/OrderDetailScreen.js:40-46 | `SwipeVisible`: for an order without a status the swipe shows exactly on the incoming tab |
| OrderDetail.OrderDetailScreen.constructor | src/screens/products/OrderDetailScreen.js:31-52 | the vendor id is the user's code, else the route's; the order id is the stripped order number; nothing is loading or dragged |
| OrderDetail.OrderDetailScreen.ToggleSelfDelivery | src/screens/products/OrderDetailScreen.js:330-333 | the checkbox flips the state and the ref together; nothing else changes |
| OrderDetail.OrderDetailScreen.PanMove | src/screens/products/OrderDetailScreen.js:60-65 | with the guard corrected to read the live `loading` (see Findings): a move while loading is ignored; otherwise the progress and the icon follow the finger; nothing else changes |
| OrderDetail.OrderDetailScreen.ResetSwipe | src/screens/products/OrderDetailScreen.js:87-92 | the progress returns to 0 and the icon becomes the pointing-hand icon |
| OrderDetail.OrderDetailScreen.PanRelease | src/screens/products/OrderDetailScreen.js:66-106 | with the guard corrected to read the live `loading` (see Findings): the release decision; a reset keeps everything else; an accept or reject without a vendor id alerts and resets, and with one sends the request with the matching status code and sets loading, the icon unchanged |
| OrderDetail.OrderDetailScreen.Settle | src/screens/products/OrderDetailScreen.js:107-129 | only success navigates to Main, leaving the swipe and its icon where they are; any other outcome resets the swipe and alerts; loading ends false |
| OtpVerify.ConcatLength | src/screens/auth/OTPVerifyScreen.js:170-214 | with one character per cell at most, the joined code has six characters exactly when all six cells are filled |
| OtpVerify.Split | src/screens/auth/OTPVerifyScreen.js:106 | `split('')` puts character i in cell i |
| OtpVerify.SplitConcat | src/screens/auth/OTPVerifyScreen.js:106-112 | joining the split cells gives the code back |
| OtpVerify.LastDigit | src/screens/auth/OTPVerifyScreen.js:149 | the stored text is at most one digit: the last digit of the input, or "" when there is none |
| OtpVerify.LastDigitOfDigit | src/screens/auth/OTPVerifyScreen.js:149 | a digit typed alone is stored as it is |
| OtpVerify.FindSixDigits | src/screens/auth/OTPVerifyScreen.js:94 | the search finds the first position holding six digits, or reports that there is none |
| OtpVerify.FirstSixDigitRun | src/screens/auth/OTPVerifyScreen.js:94-133 | `match(/(\d{6})/)` finds six digits iff the text has them, and then the leftmost run |
| OtpVerify.ClipboardRun | src/screens/auth/OTPVerifyScreen.js:92-98 | a run is autofilled iff the text is new, has a six-digit run, and that run is not the current entry |
| OtpVerify.StaleEntryNeverSkips | src/screens/auth/OTPVerifyScreen.js:52-95 | `ClipboardRunAsWritten`: compared with the first render's empty cells, a run is never skipped for being the entry: a code already typed in is autofilled again |
| OtpVerify.OtpScreen.constructor | src/screens/auth/OTPVerifyScreen.js:39-46 | six empty cells, a 30-second countdown, resending not yet possible |
| OtpVerify.OtpScreen.CompleteIffSixCharacters | src/screens/auth/OTPVerifyScreen.js:170-214 | `IsComplete` (`isOtpComplete`): the entry is complete iff the joined cells have six characters |
| OtpVerify.OtpScreen.VerifyEnabledIffSixCharacters | src/screens/auth/OTPVerifyScreen.js:214-303 | the verify button is enabled iff the joined cells make a six-character code and nothing is loading |
| OtpVerify.OtpScreen.ClearCells | src/screens/auth/OTPVerifyScreen.js:184-202 | all six cells become empty |
| OtpVerify.OtpScreen.HandleOtpChange | src/screens/auth/OTPVerifyScreen.js:148-161 | cell `index` gets the last digit and the other five are unchanged; a verification is scheduled iff index 5 gets a digit |
| OtpVerify.OtpScreen.Autofill | src/screens/auth/OTPVerifyScreen.js:104-114 | a code that is not six long is ignored; otherwise cell i gets character i, the entry is complete and its verification is scheduled |
| OtpVerify.OtpScreen.BeginVerify | src/screens/auth/OTPVerifyScreen.js:169-175 | the forced code, else the joined cells, is verified only when it has six characters: then loading is set and its request is sent; otherwise nothing changes |
| OtpVerify.OtpScreen.SettleVerify | src/screens/auth/OTPVerifyScreen.js:176-195 | a success saves the user and schedules push registration exactly for a truthy vendor code; a non-success envelope alerts "Invalid OTP" and empties all six cells; a thrown error alerts a network error and keeps the cells; loading ends false |
| OtpVerify.OtpScreen.FireScheduledVerify | src/screens/auth/OTPVerifyScreen.js:109-159 | the oldest scheduled code leaves the queue and its verification starts exactly as `BeginVerify` starts it with that code forced: the same request and loading state, and no other change |
| OtpVerify.OtpScreen.Tick | src/screens/auth/OTPVerifyScreen.js:75-82 | the timer drops by one while positive, and resending is possible iff it is 0; nothing else changes |
| OtpVerify.OtpScreen.Resend | src/screens/auth/OTPVerifyScreen.js:198-212 | a no-op unless resending is possible; otherwise the countdown restarts at 30, the cells clear and the code is sent; on failure resending is possible again at 0; the remembered clipboard text, queue and push registrations are kept |
| OtpVerify.OtpScreen.CheckClipboard | src/screens/auth/OTPVerifyScreen.js:85-102 | with the comparison corrected to the current entry (see Findings): when new clipboard text has a run other than the entry, the whole clipboard text is remembered and the run autofilled; anything else changes nothing |
| OtpVerify.OtpScreen.Paste | src/screens/auth/OTPVerifyScreen.js:116-145 | empty text or text without a six-digit run only alerts; otherwise the whole clipboard text is remembered and its first run autofilled, with no alert |
| Payout.FetchRequest | src/screens/payout/PayoutScreen.js:55-73 | each of the four tabs calls its own endpoint, and only that tab calls it, for the vendor; never the withdrawal-sending endpoint |
| Payout.RowLookOf | src/screens/payout/PayoutScreen.js:104-151 | the sign of an amount is "-" or "+" |
| Payout.RowLookAgrees | src/screens/payout/PayoutScreen.js:110-149 | sign, colour and arrow all show a debit iff the tab is payout or the type is "Payouts" |
| Payout.WithdrawVerdictSpec | src/screens/payout/PayoutScreen.js:80-89 | `WithdrawVerdict`, the checks as intended: an amount is sent iff it is a positive number at most the balance, and rejected as invalid iff it is not a positive number |
| Payout.WithdrawVerdictAgreesOnNumbers | src/screens/payout/PayoutScreen.js:80-89 | when the amount and the balance are numbers, the checks as written decide as intended |
| Payout.WithdrawVerdictAsWritten | src/screens/payout/PayoutScreen.js:80-89 | the checks as written refuse an empty amount, and send every amount the intended checks send |
| Payout.DoublePointIsNaN | src/screens/payout/PayoutScreen.js:81 | `Number("1..5")` is NaN |
| Payout.NotANumberAmountIsSent | src/screens/payout/PayoutScreen.js:80-92 | as written, the amount "1..5" passes both checks and is sent; the intended checks reject it |
| Payout.WithdrawBoundaries | src/screens/payout/PayoutScreen.js:80-89 | an empty amount is invalid, exactly the balance is sent, one more is refused, and a non-positive amount is invalid |
| Payout.SendableMeansEnabled | src/screens/payout/PayoutScreen.js:235-237 | an amount that can be sent implies the withdraw button was enabled |
| Payout.PayoutScreen.constructor | src/screens/payout/PayoutScreen.js:37-49 | the screen opens on the all tab with zero totals, no transactions and the form closed |
| Payout.PayoutScreen.SelectTab | src/screens/payout/PayoutScreen.js:268 | a tab press changes the tab only |
| Payout.PayoutScreen.BeginFetch | src/screens/payout/PayoutScreen.js:51-71 | loading is set and the active tab's endpoint is requested |
| Payout.PayoutScreen.FinishFetch | src/screens/payout/PayoutScreen.js:55-77 | answering the call made for a tab: only the all tab sets the summary (a statement's totals, or `undefined` totals for an array); the other tabs keep it and replace only the transactions with their list, [] when absent; a failure alerts and keeps both; loading ends false |
| Payout.PayoutScreen.OpenWithdraw | src/screens/payout/PayoutScreen.js:235-237 | the form opens, and only when the balance is positive or not a number (an absent balance, say); nothing else changes |
| Payout.PayoutScreen.CloseWithdraw | src/screens/payout/PayoutScreen.js:318-346 | the close icon and the Cancel button hide the form and keep the typed amount; nothing else changes |
| Payout.PayoutScreen.SetAmount | src/screens/payout/PayoutScreen.js:334-341 | the amount field holds the typed text; nothing else changes |
| Payout.PayoutScreen.SubmitWithdraw | src/screens/payout/PayoutScreen.js:80-100 | with the checks corrected to `WithdrawVerdict` (see Findings): a refused amount alerts without a request; success closes the form, clears the amount and refetches; failure leaves form and amount |
| Store.Normalize | src/screens/products/StoreScreen.js:54-71 | the id is the rendered `product_id` when it is present; the name defaults to "Unknown Product"; generic, mrp and price default to ""; the images are the non-empty gallery |
| Store.NormalizedImagesAbsolute | src/screens/products/StoreScreen.js:54-68 | every product shows at least one image, each an absolute URL |
| Store.NormalizeAll | src/screens/products/StoreScreen.js:88 | the records are normalised one for one, in order |
| Store.ExtractArray | src/screens/products/StoreScreen.js:73-79 | the array at `res`, else at `res.data`, else at `res.data.data` |
| Store.ExtractArrayDepth | src/screens/products/StoreScreen.js:73-79 | an array is found at each of the three depths and at no deeper one; a falsy or scalar response gives [] |
| Store.Search | src/screens/products/StoreScreen.js:107-113 | a blank query shows every product; otherwise exactly the products whose lower-cased name or generic name contains the key |
| Store.SearchAppend | src/screens/products/StoreScreen.js:107-113 | search distributes over concatenation, so catalogue order is kept |
| Store.SearchIdempotent | src/screens/products/StoreScreen.js:107-113 | searching the results again changes nothing |
| Store.SearchKeyNormalised | src/screens/products/StoreScreen.js:108 | surrounding spaces and capitals in the query make no difference |
| Store.FoundByOwnName | src/screens/products/StoreScreen.js:107-113 | a product is found by its own name |
| Store.StoreScreen.constructor | src/screens/products/StoreScreen.js:33-41 | empty query and list, loading, no error, modal closed |
| Store.StoreScreen.Shown | src/screens/products/StoreScreen.js:107-113 | the list shown is never longer than the catalogue |
| Store.StoreScreen.SetQuery | src/screens/products/StoreScreen.js:107-113 | typing changes the query only |
| Store.StoreScreen.BeginFetch | src/screens/products/StoreScreen.js:81-85 | the error is cleared before the request, and loading is set only when asked for |
| Store.StoreScreen.FinishFetch | src/screens/products/StoreScreen.js:86-95 | the products are the normalised array of the response; a failure empties the list and sets the error; loading and refreshing end false |
| Store.StoreScreen.Refresh | src/screens/products/StoreScreen.js:102-105 | refreshing is set and a fetch starts without the loading indicator; the modal is untouched |
| Store.StoreScreen.ViewProduct | src/screens/products/StoreScreen.js:49-52 | the tapped product is selected and its modal shown; nothing else changes |
| Store.StoreScreen.CloseDetail | src/screens/products/StoreScreen.js:294-297 | the modal is hidden and no product is selected; nothing else changes |
| ProductDetail.Head | src/components/ProductDetailModal.js:61-66 | a list's first element is found iff it is a record |
| ProductDetail.FoundProduct | src/components/ProductDetailModal.js:60-67 | a found product is the first element of the array at `data.data`, at `data`, or of the response itself |
| ProductDetail.FoundProductDepth | src/components/ProductDetailModal.js:60-67 | a first record is found at each of the three depths and at no deeper one; a null first element or a falsy response gives none |
| ProductDetail.Gallery | src/components/ProductDetailModal.js:89 | the gallery is never empty, and is the placeholder alone without a product |
| ProductDetail.RowHiddenSpec | src/components/ProductDetailModal.js:92-104 | `RowHidden`: a row is hidden iff its value is falsy or "null", so the '' test adds nothing; a shown row never renders empty |
| ProductDetail.ShownRows | src/components/ProductDetailModal.js:91-115 | exactly the values that pass the guard are drawn |
| ProductDetail.ShownRowsKeepsTruthy | src/components/ProductDetailModal.js:92-104 | among truthy values other than "null" every row is drawn |
| ProductDetail.ProductDetailModal.constructor | src/components/ProductDetailModal.js:25-28 | no product, loading, no error, first image selected |
| ProductDetail.ProductDetailModal.Images | src/components/ProductDetailModal.js:89 | the modal always has an image to show |
| ProductDetail.ProductDetailModal.BeginFetch | src/components/ProductDetailModal.js:52-56 | loading is set and the error cleared before the request |
| ProductDetail.ProductDetailModal.Shown | src/components/ProductDetailModal.js:46-50 | details are fetched iff the modal is visible and the id is truthy |
| ProductDetail.ProductDetailModal.FinishFetch | src/components/ProductDetailModal.js:56-79 | a found record becomes the product; without one the error is "Product not found"; a failure sets its own error; loading ends false |
| ProductDetail.ProductDetailModal.SelectImage | src/components/ProductDetailModal.js:89 | tapping a thumbnail selects it; nothing else changes |
| ProductDetail.ProductDetailModal.Close | src/components/ProductDetailModal.js:82-87 | product, selected image and error are reset and the parent is told |
| Login.MobileTextSpec | src/screens/auth/LoginScreen.js:73-75 | the number `onChangeMobile` stores, `DigitsOnly` of the text, is exactly the typed digits, in order; digits alone are kept as typed; filtering twice changes nothing |
| Login.FilterKeepsAllIffDigits | src/screens/auth/LoginScreen.js:73-75 | every typed character survives the filter iff all of them are digits |
| Login.TenDigitsTyped | src/screens/auth/LoginScreen.js:73-152 | with at most ten characters in the field, the number reaches ten digits iff ten characters were typed and all are digits |
| Login.LoginScreen.constructor | src/screens/auth/LoginScreen.js:53-75 | an empty number, not loading, nothing sent |
| Login.LoginScreen.ChangeMobile | src/screens/auth/LoginScreen.js:73-75 | the field holds the digits of the typed text, and the Send OTP button (`SendEnabled`) is enabled iff they are ten and nothing is loading; nothing else changes |
| Login.LoginScreen.BeginSendOtp | src/screens/auth/LoginScreen.js:53-58 | nothing unless the number has ten digits; otherwise loading is set and the login call for that number is in flight |
| Login.LoginScreen.LoginAnswered | src/screens/auth/LoginScreen.js:58-70 | a success login sends the vendor code and stays loading until that call returns; any other answer alerts "Invalid number" or "Network error" and loading ends false |
| Login.LoginScreen.OtpSent | src/screens/auth/LoginScreen.js:61-70 | the OTP screen opens with the code and the number that was sent only when the send returns; a thrown send alerts "Network error"; loading ends false |
| Login.TypeAndSend | src/screens/auth/LoginScreen.js:53-75 | a scenario driver: the OTP screen opens for the typed text's digits iff there are exactly ten of them |
| Dashboard.OrZero | src/screens/dashboard/DashboardScreen.js:76-80 | a count defaulted with `||` is truthy or 0 |
| Dashboard.JsAdd | src/screens/dashboard/DashboardScreen.js:76-80 | `+` concatenates as soon as one side is a string |
| Dashboard.TotalOrders | src/screens/dashboard/DashboardScreen.js:75-81 | the numeric sum exists iff each of the five counts is a whole number |
| Dashboard.TotalOrdersText | src/screens/dashboard/DashboardScreen.js:75-81 | the Total Orders card as intended reads "NaN" exactly when some count is not a whole number |
| Dashboard.NumericCountValue | src/screens/dashboard/DashboardScreen.js:76-80 | `CountValue`: an absent or numeric count is its number, absent counting as 0 |
| Dashboard.NumericCountsAgree | src/screens/dashboard/DashboardScreen.js:75-81 | with numeric counts, Total Orders is the sum of the five counts, missing ones as 0, and the written card reads the same |
| Dashboard.OneParses | src/screens/dashboard/DashboardScreen.js:76 | `Number("1")` is 1 |
| Dashboard.StringCountsConcatenate | src/screens/dashboard/DashboardScreen.js:75-81 | `TotalOrdersAsWritten`: five counts of "1" show as "11111" as written, and as 5 when added |
| Dashboard.CountTextSpec | src/screens/dashboard/DashboardScreen.js:89-129 | a numeric count reads as its number and an absent one as "0" |
| Dashboard.Stats | src/screens/dashboard/DashboardScreen.js:60-104 | with Total Orders as the corrected numeric sum `TotalOrdersText` (see Findings): no cards without data, four with it |
| Dashboard.QuickStats | src/screens/dashboard/DashboardScreen.js:106-133 | no quick stats without data, four with it |
| Dashboard.CardsAgree | src/screens/dashboard/DashboardScreen.js:75-133 | the pending card matches its quick stat, and with numeric counts Total Orders is the sum of the four quick stats and the delivered count |
| Dashboard.DashboardScreen.constructor | src/screens/dashboard/DashboardScreen.js:27-31 | the vendor id is the first truthy of `M1_CODE`, `id` and `vendorId`; loading, no data |
| Dashboard.DashboardScreen.BeginFetch | src/screens/dashboard/DashboardScreen.js:34-36 | the vendor's dashboard is requested; nothing else changes |
| Dashboard.DashboardScreen.FinishFetch | src/screens/dashboard/DashboardScreen.js:36-48 | the data is replaced only by a success carrying a first record, and kept otherwise; loading and refreshing end false |
| Dashboard.DashboardScreen.Refresh | src/screens/dashboard/DashboardScreen.js:54-57 | refreshing is set and a fetch starts; the data and loading are kept until it answers |
| Dashboard.DashboardScreen.Cards | src/screens/dashboard/DashboardScreen.js:60-133 | the cards and quick stats are both empty iff there is no data |
| Theme.Toggled | src/context/ThemeContext.js:8-10 | a toggle gives "dark" iff the theme was not "dark", and "light" otherwise |
| Theme.PaletteFor | src/context/ThemeContext.js:12-30 | the dark palette iff the theme is "dark", the light one otherwise |
| Theme.ToggleTwice | src/context/ThemeContext.js:8-30 | toggling twice restores "light" and "dark", and any other name becomes "light"; each toggle changes the palette |
| Theme.ThemeProvider.constructor | src/context/ThemeContext.js:6 | the initial theme is "light", with the light palette |
| Theme.ThemeProvider.Colors | src/context/ThemeContext.js:12-30 | the colours are the dark palette iff the theme is "dark" |
| Theme.ThemeProvider.Toggle | src/context/ThemeContext.js:8-10 | the theme becomes its toggle, and the palette changes |
| Theme.ToggleRepeatedly | src/context/ThemeContext.js:6-10 | a scenario driver: from the start, successive toggles give dark, light, dark, … |

## Left out

- Network calls, the HTTP client and its timeout are not modelled. Each call is a parameter of the handler that awaits it. Request payloads are reduced to the values the screens choose: vendor code, order id, status code, amount.
- `Alert` dialogs are not modelled. Confirmations run their confirm branch, and only the last alert's message is kept. Success alerts with an OK button run their callback at once.
- `Animated` springs and colour interpolation are not modelled. A spring is taken to have run to its end value.
- Focus moves, the keyboard, `handleKeyPress` and `Keyboard.dismiss` are not modelled. They move focus only.
- Clipboard reads are not modelled. The clipboard text is a parameter.
- The "Feature Unavailable" path when the clipboard library is missing is not modelled, nor is the "Could not access clipboard" path when reading it throws.
- `setTimeout` and `setInterval` are not modelled. The OTP countdown is `Tick`, and the 200 ms verification delay is the `scheduled` queue.
- The 1.5 s push-token registration is recorded in `fcmScheduled` and not run.
- `saveUser` (persisting the user record) is not run. The saved user is reduced to its `M1_CODE` in `savedUser`.
- `Math.random()` ids for products without `product_id` are not modelled. Such a product's `id` is `None`.
- `toLocaleString` formatting of rupee amounts is not modelled. The commission card carries the number.
- JavaScript numbers are modelled as integers in records and as reals for `Number(s)` of strings. Exponents, hexadecimal, `Infinity` and floating-point rounding are not modelled.
- Js.ToLower: only the letters A to Z are folded. JavaScript's `toLowerCase` also folds other letters (É, Σ) and can lengthen a string (İ becomes two code units), so a non-ASCII product name is searched case-sensitively here.
- Js.ParseNumber: exponents ("1e5"), `Infinity`, hexadecimal and binary literals are numbers in JavaScript but NaN here, so the NaN lemmas hold only for the decimal literals the model covers.
- SelfDelivery.InitialStep requires the status label to be a string or falsy. A truthy number or boolean makes `status.includes` throw (src/screens/order/SelfDeliveryOrderScreen.js:41), and that crash is not modelled.
- Orders.FetchOrdersByType: the envelope's `data` is a list of records or absent. A truthy `data` that is not an array, or a null record, throws into the catch and gives [] with the alert (src/screens/order/OrdersScreen.js:88-92); the model's types cannot express those inputs.
- Login.LoginScreen.LoginAnswered: a `success` envelope always carries the vendor's `M1_CODE` here. One without `data` throws at `res.data.data.M1_CODE` (src/screens/auth/LoginScreen.js:60) and alerts "Network error"; that input is not expressible in the model's types.
- Dashboard.TotalOrdersText: a count that parses to a fraction makes the text "NaN" instead of a decimal sum, because fractional order counts are not modelled.
- Orders.FetchOrdersByType: the "Failed to load orders" alert on a thrown error is not recorded, because the function returns the list and keeps no state.
- Images.ImageList: a product's `image` value is either an object of file names or absent. Other shapes are not modelled: a string, an array, or non-string values. `Object.keys` on such values is not modelled.
- Store.Normalize: `product_name` and `generic_name` are taken to be strings when present, and mrp and price pass through unchanged.
- ProductDetail.FoundProduct: a string at `res.data.data` or at `res.data` has a first character that the source would take as the product. That case is not modelled, because a string response is not a product.
- Payout.PayoutScreen.FinishFetch: an absent all-tab statement is not modelled. The source stores `undefined` as the summary and then throws into its catch, and the next render fails on `summary.total_balance`.
- Payout.PayoutScreen.FinishFetch: a statement object answering another tab becomes the source's transaction list as it is. The model's list is typed, so it records [] instead: the `FlatList` at src/screens/payout/PayoutScreen.js:291 draws no rows for data without a length.
- SelfDelivery: the GPS "Location Not Found" alert and the map are not modelled. The request keeps the order id only.
- Login.LoginScreen.ChangeMobile requires at most ten characters of input. That limit is the field's `maxLength` (src/screens/auth/LoginScreen.js:134), which the platform enforces before the handler runs.
- Login.LoginScreen.BeginSendOtp requires that no login is in flight. Its only caller, the Send OTP button, is disabled while `loading` is set (src/screens/auth/LoginScreen.js:152), so a second concurrent login is not modelled.
- The store's full-screen image viewer (src/screens/products/StoreScreen.js:125-161 and 264-291) is not modelled. Opening and closing it only shows or hides an image.
- Navigation, the tab bar, themes of individual screens and the screens listed as display-only are not modelled.
- `AuthContext`, notifications, the partner-tracking map and the profile screens are not part of this model.

## Findings

| source | as written | input that shows it | evidently intended | confidence | as-written member | corrected member |
|---|---|---|---|---|---|---|
| src/screens/products/OrderDetailScreen.js:55-84 | The `PanResponder` is created once, so its `loading` checks see the first render's `false`. | A full swipe (dx = width) while the first accept request is still in flight. | Moves are ignored and a release only resets while loading. | high, not executed | OrderDetail.ReleaseAsWritten, OrderDetail.StaleGuardAcceptsWhileLoading, OrderDetail.MoveAsWritten, OrderDetail.StaleGuardMovesWhileLoading | OrderDetail.Release, OrderDetail.Moved, OrderDetail.OrderDetailScreen.PanMove, OrderDetail.OrderDetailScreen.PanRelease |
| src/screens/payout/PayoutScreen.js:80-89 | `Number(amt) <= 0` and `Number(amt) > balance` are both false for NaN, so a non-numeric amount passes both checks and is sent. | Amount "1..5", which the numeric keypad allows, against any balance. | Only a positive number no larger than the balance is sent. | high, not executed | Payout.WithdrawVerdictAsWritten, Payout.NotANumberAmountIsSent | Payout.WithdrawVerdict, Payout.WithdrawVerdictSpec, Payout.PayoutScreen.SubmitWithdraw |
| src/screens/dashboard/DashboardScreen.js:75-81 | JavaScript `+` concatenates as soon as one count is a string. | Five counts of "1" show Total Orders as "11111". | The numeric sum of the five counts. | medium (the backend may send numbers), not executed | Dashboard.TotalOrdersAsWritten, Dashboard.StringCountsConcatenate | Dashboard.TotalOrders, Dashboard.TotalOrdersText, Dashboard.NumericCountsAgree, Dashboard.Stats |
| src/screens/auth/OTPVerifyScreen.js:52-95 | The keyboard and app-state listeners are registered once, so the check `match[1] !== otp.join('')` compares with the first render's empty cells. | The user types 123456, and the app then resumes with "123456" on the clipboard: it is autofilled and verified again. | A run that is already the entry is skipped. | medium, not executed | OtpVerify.ClipboardRunAsWritten, OtpVerify.StaleEntryNeverSkips | OtpVerify.ClipboardRun, OtpVerify.OtpScreen.CheckClipboard |
