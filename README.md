# Seller client state, modelled in Dafny

This project models the parts of the marketplace seller web client that hold real logic:

- **The order dashboard hook** (`useOrders`, module `UseOrders`). It keeps the in-memory order list. It also keeps the two
  "double-click" confirmation lists, one for cancel and one for complete. The per-tab queries (filter by status and
  day, order total, tab total) are derived from the list.
- **Phone-number entry** (module `Phone`). This covers `formatPhoneNumber` and the keydown length guard. The sign-up page
  and the password-reset page define both identically, so one definition serves both.
- **The sign-up page** (module `SignUp`). This covers the form record and the error line, the `idValid`, `emailValid`
  and `phoneValid` flags, and every handler that changes them. That includes the ordered error cascades of
  `handleChange`, `handleBlur` and `validateForm`, and the gates in front of the sign-up and duplicate-id requests.
- **The password-reset page** (module `PasswordReset`): field updates and the submit gate.
- **The store registration page** (module `StoreAdd`). This covers the form record, the store type, the image, the
  10-digit registration-number test, and the registration-number check with its `validated` flag.

Everything that talks to a server becomes a parameter holding the server's answer. A successful PUT is `serverOk`.
A failed fetch is `None`. The duplicate-id check is `serverAccepts`. The e-mail check is an `EmailCheck`.

The three-second `setTimeout` that disarms a pending order id becomes an explicit `Expire(action, id)` event.
Calendar days (`startOfDay`) become integer day numbers, and "today" is a parameter. Prices and quantities are
integers (won amounts).

State that a page or hook updates in place is a class. Its fields are the React state variables. Each handler is a
method whose `ensures` gives the new state in terms of the old one. Derived values are functions. The properties are
lemmas about those functions, or `Valid()` invariants the methods keep. Examples of such properties: pending lists
never hold an id twice; the radio selection always equals the form's store type; the e-mail counts as verified only
after a code was sent.

## Model

| member | source | states |
|---|---|---|
| `Phone.Digits` | src/pages/seller/sign-up/index.jsx:82 | stripping non-digits yields only ASCII digits and never lengthens the input |
| `Phone.FirstFit` | src/pages/seller/sign-up/index.jsx:83 | the choice returned is the first, in backtracking order, whose group lengths cover exactly the digit count (every earlier choice misses it); None only when no choice covers it |
| `Phone.GroupedIsShape` | src/pages/seller/sign-up/index.jsx:83 | the regex's backtracking order groups 9, 10 and 11 digits as 2-3-4, 3-3-4 and 3-4-4, and leaves other counts bare |
| `Phone.FormatShape` | src/pages/seller/sign-up/index.jsx:81-84 | the formatted number has the 2-3-4 / 3-3-4 / 3-4-4 shape with exactly two hyphens for 9 to 11 digits; otherwise it is the bare digits; the trailing-hyphen strip is a no-op |
| `Phone.FormatOnlyDigitsAndHyphens` | src/pages/seller/sign-in/password/index.jsx:36-39 | the formatted number holds only digits and '-' and never ends in '-' |
| `Phone.FormatKeepsDigits` | src/pages/seller/sign-up/index.jsx:81-84 | removing the hyphens from the output gives exactly the input's digits, in order |
| `Phone.FormatIdempotent` | src/pages/seller/sign-up/index.jsx:105-111 | re-formatting an already formatted field (as each change event does) changes nothing |
| `Phone.FormatPhoneNumber` | src/pages/seller/sign-up/index.jsx:81-84 | the formatter: digit strip, grouping, trailing-hyphen strip; it has no contract of its own, and its meaning is stated by `FormatShape`, `FormatKeepsDigits` and `FormatIdempotent` |
| `Phone.KeyBlocked` | src/pages/seller/sign-up/index.jsx:122-130 | the keydown guard's blocking condition; it has no contract of its own, and `KeyGuardCapsDigits` states what it guarantees |
| `Phone.KeyGuardCapsDigits` | src/pages/seller/sign-up/index.jsx:122-130 | Backspace and Delete are never blocked; a one-character key the guard lets through leaves any field at 11 digits or fewer |
| `UseOrders.Without` | src/pages/seller/order/useorder/index.js:115-117 | the expiry filter's result never holds the removed id and is no longer than the list |
| `UseOrders.WithoutMembers` | src/pages/seller/order/useorder/index.js:115-117 | the expiry filter removes the given id and keeps every other id |
| `UseOrders.WithoutIsSubsequence` | src/pages/seller/order/useorder/index.js:115-117 | the ids that remain keep their order |
| `UseOrders.WithoutIdempotent` | src/pages/seller/order/useorder/index.js:121-123 | removing an id twice equals removing it once |
| `UseOrders.WithoutAbsent` | src/pages/seller/order/useorder/index.js:114-118 | an expiry for an id that is no longer pending changes nothing |
| `UseOrders.WithoutNoDup` | src/pages/seller/order/useorder/index.js:121-123 | removing an id keeps a duplicate-free list duplicate-free |
| `UseOrders.AppendAbsentNoDup` | src/pages/seller/order/useorder/index.js:112-113 | arming only an absent id keeps the list duplicate-free |
| `UseOrders.WithStatus` | src/pages/seller/order/useorder/index.js:55-63 | the status update keeps the number of orders |
| `UseOrders.WithStatusAt` | src/pages/seller/order/useorder/index.js:55-63 | the status update keeps length and order, and at each position updates exactly the orders whose id matches |
| `UseOrders.UpdateStatusFields` | src/pages/seller/order/useorder/index.js:55-63 | matching orders get the new status; ids, days, items and the other orders' statuses are unchanged |
| `UseOrders.UpdateStatusIdempotent` | src/pages/seller/order/useorder/index.js:55-63 | applying the same status update twice equals applying it once |
| `UseOrders.StatusCode` | src/pages/seller/order/useorder/index.js:150-151 | a tab named after an inherited object property selects a non-number, which no status equals; exactly the names that are neither tabs nor inherited properties fall back to -1 |
| `UseOrders.FilteredOrders` | src/pages/seller/order/useorder/index.js:145-157 | the tab is no longer than the list and every order in it passes the tab's status and day test |
| `UseOrders.FilteredMembers` | src/pages/seller/order/useorder/index.js:145-157 | an order is in the tab iff it is in the list, has the tab's status code, and was created today (received tab) or on the selected day (other tabs) |
| `UseOrders.FilteredIsSubsequence` | src/pages/seller/order/useorder/index.js:145-157 | the tab is an order-preserving sub-list of the orders |
| `UseOrders.FilteredCounts` | src/pages/seller/order/useorder/index.js:145-157 | the tab holds each shown order exactly as many times as the list does, and no copy of a hidden one |
| `UseOrders.FilteredUnknownTypeEmpty` | src/pages/seller/order/useorder/index.js:150-151 | a tab type that is neither a tab name nor an inherited property shows nothing, provided no order carries status -1 |
| `UseOrders.FilteredInheritedKeyEmpty` | src/pages/seller/order/useorder/index.js:150-153 | a tab type naming an inherited object property shows nothing, whatever the statuses |
| `UseOrders.FilterExample` | src/pages/seller/order/useorder/index.js:145-157 | of today's received, today's done and yesterday's canceled order, the received tab shows only the first |
| `UseOrders.OrderTotal` | src/pages/seller/order/useorder/index.js:138-143 | the order total; it has no contract of its own, and `ItemsTotalAppend` and `OrderTotalNonNegative` state its meaning |
| `UseOrders.ItemsTotalAppend` | src/pages/seller/order/useorder/index.js:138-143 | the total follows the `reduce` step: appending a line adds its price times quantity |
| `UseOrders.ItemsTotalNonNegative` | src/pages/seller/order/useorder/index.js:138-143 | non-negative prices and quantities give a non-negative item sum |
| `UseOrders.OrderTotalNonNegative` | src/pages/seller/order/useorder/index.js:138-143 | an order without items totals 0; non-negative prices and quantities give a non-negative total |
| `UseOrders.TabTotal` | src/pages/seller/order/useorder/index.js:159-164 | the tab total; it has no contract of its own, and `TabTotalIsShownTotal` ties it to the reference sum |
| `UseOrders.TabTotalIsShownTotal` | src/pages/seller/order/useorder/index.js:159-164 | the tab total equals the sum over all orders of each shown order's total (0 for hidden ones) |
| `UseOrders.ShownTotalNonNegative` | src/pages/seller/order/useorder/index.js:159-164 | that reference sum is non-negative for non-negative prices and quantities |
| `UseOrders.TabTotalNonNegative` | src/pages/seller/order/useorder/index.js:159-164 | the tab total is non-negative when every price and quantity is |
| `UseOrders.TotalExample` | src/pages/seller/order/useorder/index.js:138-164 | an order of 1000 x 2 and 500 x 1 makes a tab total of 2500 |
| `UseOrders.OrderDashboard.constructor` | src/pages/seller/order/useorder/index.js:6-10 | the hook starts with no orders, loading, the setting off, and both pending lists empty |
| `UseOrders.OrderDashboard.AddNewOrder` | src/pages/seller/order/useorder/index.js:12-14 | the order is appended at the end; earlier orders are unchanged; no de-duplication |
| `UseOrders.OrderDashboard.FetchOrders` | src/pages/seller/order/useorder/index.js:16-31 | a successful fetch replaces the list, a failed one keeps it, and loading is off afterwards in both cases |
| `UseOrders.OrderDashboard.FetchDoubleClickSetting` | src/pages/seller/order/useorder/index.js:37-53 | a successful fetch sets the double-click setting; a failed one keeps it |
| `UseOrders.OrderDashboard.UpdateOrderStatus` | src/pages/seller/order/useorder/index.js:55-63 | the list becomes the status-updated list |
| `UseOrders.OrderDashboard.PerformAction` | src/pages/seller/order/useorder/index.js:65-97 | a successful cancel writes status 2 and a successful complete writes status 1 on matching orders; a failed call changes nothing |
| `UseOrders.OrderDashboard.SetPending` | src/pages/seller/order/useorder/index.js:106-109 | replaces the selected action's pending list and leaves the other list unchanged |
| `UseOrders.OrderDashboard.HandleAction` | src/pages/seller/order/useorder/index.js:99-136 | setting off: the action runs at once and neither list changes. Setting on: an unarmed id is appended and nothing runs; an armed id runs the action and is then removed. The other action's list never changes, and neither list ever holds duplicates |
| `UseOrders.OrderDashboard.Expire` | src/pages/seller/order/useorder/index.js:114-118 | the timer removes the id from that action's list only and keeps the lists duplicate-free |
| `SignUp.Values.With` | src/pages/seller/sign-up/index.jsx:116-119 | the record update sets the named field and leaves every other field unchanged |
| `SignUp.ChangeMessage` | src/pages/seller/sign-up/index.jsx:86-114 | the change handler leaves the error alone exactly for a phone edit and sets it for every other field; emptying a field never raises an error |
| `SignUp.ChangeValues` | src/pages/seller/sign-up/index.jsx:105-119 | a non-phone edit stores the raw value under its field; every other field is unchanged |
| `SignUp.PasswordEditOrder` | src/pages/seller/sign-up/index.jsx:89-100 | for password edits: empty clears; over 20 gives the maximum message; 1 to 7 gives the minimum message; a confirmation differing from a non-empty stored password gives the mismatch message; anything else clears |
| `SignUp.ChangeStoresField` | src/pages/seller/sign-up/index.jsx:86-120 | an edit stores the value (formatted for the phone) under its field only; an id with a forbidden character is stored although the error line reports it |
| `SignUp.BlurMessage` | src/pages/seller/sign-up/index.jsx:132-154 | the blur cascade; it has no contract of its own, and `BlurKeepsErrorWhenPasswordsEmpty` and `ValidFormRaisesNoPasswordError` state its meaning |
| `SignUp.BlurKeepsErrorWhenPasswordsEmpty` | src/pages/seller/sign-up/index.jsx:135-146 | blurring a password field with both password fields empty leaves the error unchanged |
| `SignUp.FormMessage` | src/pages/seller/sign-up/index.jsx:235-275 | the `validateForm` cascade; it has no contract of its own, and `FormMessageAccepts` ties it to `FormValid` |
| `SignUp.FormValid` | src/pages/seller/sign-up/index.jsx:235-275 | the independent statement of an accepted form (all checks as one conjunction); it has no contract of its own |
| `SignUp.FormMessageAccepts` | src/pages/seller/sign-up/index.jsx:235-275 | the form cascade ends without an error iff every check passes: alphanumeric id, all six fields filled, three flags set, password of 8 to 20 characters equal to its confirmation |
| `SignUp.ValidFormRaisesNoPasswordError` | src/pages/seller/sign-up/index.jsx:135-146 | on a form that `validateForm` accepts, blurring either password field or re-entering either stored password raises no error |
| `SignUp.SignUpForm.constructor` | src/pages/seller/sign-up/index.jsx:65-79 | the page starts with empty fields, no error, and every flag false |
| `SignUp.SignUpForm.Change` | src/pages/seller/sign-up/index.jsx:86-120 | the form and error become those of the change cascade; a phone edit leaves the error unchanged |
| `SignUp.SignUpForm.Blur` | src/pages/seller/sign-up/index.jsx:132-154 | the error becomes that of the blur cascade (minimum before maximum before mismatch for passwords) |
| `SignUp.SignUpForm.LoginIdCheck` | src/pages/seller/sign-up/index.jsx:214-233 | the duplicate-id request is made iff the id is non-empty and alphanumeric; only an accepted request sets `idValid`; an unchecked id leaves it untouched |
| `SignUp.SignUpForm.ValidateForm` | src/pages/seller/sign-up/index.jsx:235-275 | returns true exactly for a form that passes every check, and leaves the first failing check's message (none on success) |
| `SignUp.SignUpForm.SignUp` | src/pages/seller/sign-up/index.jsx:277-292 | the sign-up request is made iff `validateForm` accepts, and carries every field but the confirmation |
| `SignUp.SignUpForm.EmailValidation` | src/pages/seller/sign-up/index.jsx:156-176 | a valid format asks for a code; a doubly invalid answer or a failed call clears `emailValid`; it never sets it |
| `SignUp.SignUpForm.SendVerificationCode` | src/pages/seller/sign-up/index.jsx:178-192 | a non-empty code is stored and the code field shown; otherwise nothing changes |
| `SignUp.SignUpForm.PhoneValidation` | src/pages/seller/sign-up/index.jsx:194-212 | `phoneValid` becomes the server's verdict (false on a failed call); a valid number clears the error |
| `SignUp.SignUpForm.VerificationCodeChange` | src/pages/seller/sign-up/index.jsx:294-296 | stores the typed code |
| `SignUp.SignUpForm.VerificationCodeSubmit` | src/pages/seller/sign-up/index.jsx:298-307 | `emailValid` becomes true exactly when the typed code equals the non-empty code the server sent; a mismatch sets it false |
| `PasswordReset.Values.With` | src/pages/seller/sign-in/password/index.jsx:46-54 | the record update sets the named field and leaves the others unchanged |
| `PasswordReset.ChangeValues` | src/pages/seller/sign-in/password/index.jsx:41-56 | a non-phone edit stores the raw value under its field; every other field is unchanged |
| `PasswordReset.MobileEditKeepsDigits` | src/pages/seller/sign-in/password/index.jsx:44-49 | after a phone edit the field holds only digits and '-', its digits are the typed digits in order, and the other fields are unchanged |
| `PasswordReset.PasswordForm.constructor` | src/pages/seller/sign-in/password/index.jsx:30-34 | the three fields start empty |
| `PasswordReset.PasswordForm.Change` | src/pages/seller/sign-in/password/index.jsx:41-56 | the phone field stores the formatted value; any other field stores the raw value |
| `PasswordReset.PasswordForm.Submit` | src/pages/seller/sign-in/password/index.jsx:68-83 | no reset request while any field is empty; otherwise one request carrying all three fields |
| `StoreAdd.CheckNumberLength` | src/pages/seller/store/add/index.jsx:68-70 | the ten-digit test; it has no contract of its own, and `CheckNumberLengthByDigits` states it through the digit filter |
| `StoreAdd.RegistrationCascade` | src/pages/seller/store/add/index.jsx:110-127 | "bad format" exactly when the number fails the ten-digit test; "validated" only for a ten-digit number whose duplicate test is falsy and whose status test is truthy |
| `StoreAdd.CheckNumberLengthByDigits` | src/pages/seller/store/add/index.jsx:68-70 | the number test holds iff the string has ten characters and the digit filter keeps all ten |
| `StoreAdd.UnawaitedNeverValidates` | src/pages/seller/store/add/index.jsx:104-128 | with promises in both tests, a ten-digit number lands in "already registered" and any other number in "bad format" |
| `StoreAdd.AwaitedValidatesExactly` | src/pages/seller/store/add/index.jsx:73-128 | with both checks awaited, a number is validated iff it has ten digits, is not registered, and the status answer is "active" |
| `StoreAdd.GenuineNumberRejectedAsWritten` | src/pages/seller/store/add/index.jsx:110-123 | the fresh, active number 1234567890 is validated once awaited but refused as written |
| `StoreAdd.StoreForm.constructor` | src/pages/seller/store/add/index.jsx:12-30 | the form starts with the permanent store type in both the radio and the form, no image, and not validated |
| `StoreAdd.StoreForm.InputChange` | src/pages/seller/store/add/index.jsx:39-43 | sets only the named text field and leaves the other fields and the holidays unchanged; keeps the radio selection equal to the form's store type |
| `StoreAdd.StoreForm.TypeChange` | src/pages/seller/store/add/index.jsx:33-36 | the radio selection and the form's store type take the same value |
| `StoreAdd.StoreForm.HolidaysChange` | src/pages/seller/store/add/index.jsx:46-51 | replaces the holidays and nothing else |
| `StoreAdd.StoreForm.ImageChange` | src/pages/seller/store/add/index.jsx:54-60 | the image is replaced only when a file was chosen; the unnamed input's value is stored under the empty name |
| `StoreAdd.StoreForm.ImageDelete` | src/pages/seller/store/add/index.jsx:63-65 | the image becomes empty |
| `StoreAdd.StoreForm.RunRegistrationCheck` | src/pages/seller/store/add/index.jsx:105-128 | the handler's branches, for any values the two tests see; `validated` is set only on the validated branch |
| `StoreAdd.StoreForm.CheckCorporateRegistrationNumber` | src/pages/seller/store/add/index.jsx:105-128 | as written: a malformed number gives "bad format", a ten-digit one "already registered", and `validated` always ends false |
| `StoreAdd.StoreForm.CheckCorporateRegistrationNumberAwaited` | src/pages/seller/store/add/index.jsx:73-128 | with the checks awaited: `validated` iff ten digits, not registered, and status active |

Behaviour of the code that the model keeps as written:

- A tab type that is neither a tab name nor a property every JavaScript object inherits selects status code -1
  (the lookup falls back to -1). An order whose status is -1 would therefore show in that tab. The tab is empty only
  when no order carries -1, and `FilteredUnknownTypeEmpty` states that condition. The backend only sends 0, 1 and 2.
  An inherited name such as `constructor` or `toString` finds a method instead, so the fallback does not apply, no
  status equals it, and the tab is always empty (`FilteredInheritedKeyEmpty`).
- `Expire` removes the id whichever arming started the timer. So a timer left over from an earlier confirmed round can
  disarm a later arming of the same id before its own three seconds are up.
- Editing the id, the e-mail or the phone number after they were checked does not reset `idValid`, `emailValid` or
  `phoneValid` (the phone edit at src/pages/seller/sign-up/index.jsx:105-111 only stores the formatted value).
  `validateForm` then accepts the edited values.

## Left out

- Network I/O: `fetch`, the axios client, the duplicate-id, e-mail, phone, code and reset endpoints, and the tax-office
  status call. Each outcome is a parameter. The request headers and token refresh are not part of this model.
- The store page's submit handler. It builds `FormData` and a `Blob`, reads `localStorage` and posts; it is I/O with
  no state of its own.
- React's scheduling: stale closures, batched state updates, and promises resolving out of order. Every handler runs
  to completion on the latest state, in the order the events are given.
- Date arithmetic (`startOfDay`, `isEqual`, `new Date()`, time zones). Days are integers and "today" is a parameter.
- JavaScript number semantics for prices: they are unbounded integers here, with no floating point.
- String length: JavaScript counts UTF-16 code units, while the model counts Dafny characters. The two differ only for
  characters outside the Basic Multilingual Plane.
- Order fields other than `orderId`, `status`, `createdAt` and `orderItems` are not modelled. The status update copies
  the whole order, so they would be kept.
- `actionType` is an `Action` value. The code treats every string other than 'cancel' as complete.
- `alert`, `console.error`, `navigate`, rendering, styling, and `URL.createObjectURL`.
- Input that bypasses keydown (paste, input methods) is not covered by `KeyGuardCapsDigits`; the formatter still
  handles it.
- `SignUp.SignUpForm.VerificationCodeChange` and `SignUp.SignUpForm.VerificationCodeSubmit` require `verificationSent`,
  because their controls are rendered only after a code was sent (src/pages/seller/sign-up/index.jsx:370-390).
- `StoreAdd.StoreForm.InputChange` requires a name other than "holidays" and "storeType". No input with either name
  calls the handler directly: the holidays have their own handler, and the store-type radio buttons go through
  `TypeChange`, which sets the form's store type together with the selection.
- `SignUp.SignUpForm.SendVerificationCode` is a separate event. The source starts it without `await` from the e-mail
  check, so it completes later.

## Findings

| source | as written | input that shows it | evidently intended | confidence | as-written member | corrected member |
|---|---|---|---|---|---|---|
| src/pages/seller/store/add/index.jsx:112 | `checkDuplicatedNumber(num)` and `validateNumber(num)` are async and not awaited. `!promise` is always false, so every ten-digit number takes the "already registered" branch and `validated` never becomes true | registration number 1234567890, not yet registered, with tax-office status "active" | await both checks: validate iff not a duplicate and the status is active | high (not executed) | `StoreAdd.StoreForm.CheckCorporateRegistrationNumber`, `StoreAdd.GenuineNumberRejectedAsWritten` | `StoreAdd.StoreForm.CheckCorporateRegistrationNumberAwaited`, `StoreAdd.AwaitedValidatesExactly` |
