# Fin_Fusion wallet client: form and view state

A Dafny model of the event handlers of the Fin_Fusion React Native client:
the logic that decides, from what the user typed and what the backend answered,
which request is sent, which alert is shown and what the screen holds next.

- **Transfer form** (`components/PaymentDashboard.js`, module `Payment`): the
  selected contact, MPIN, amount, category and displayed balance.
  - `handleSend` runs its fixed-order checks and builds the `/transfer` payload.
  - It debits the balance only when the backend accepts the transfer.
  - It resets the form after every validated attempt, successful or not.
  - `onRefresh` clears the form and reloads the balance.
  - A lemma over any sequence of contact presses, typing and sends shows that
    the balance equals the starting balance minus exactly the confirmed
    transfers.
- **Fixed-category transfer form**
  (`my-new-project/components/PaymentDashboard.js`, module
  `PaymentFixedCategory`): two-field checks and category always "General". Whenever
  the first variant's category reads "General", the two variants are proved to
  send the same request and leave the same form; their alerts differ.
- **Contacts** (module `Contacts`): the select/deselect toggle and the
  `contactInitials` badge. The badge is proved equal to an independent scan of
  word starts.
- **Login and sign-up** (both `LoginScreen.js` files, module `Auth`): the ordered
  credential checks, the request bodies, the navigation params on success, the
  fallback messages and the `isSignUp` flag.
- **Share dashboard** (`my-new-project/components/ShareDashboard.js`, modules
  `Portfolio` and `Explore`):
  - the per-symbol expanded map and the period shared by all holdings;
  - the series and labels each chart draws;
  - the fetch fallbacks;
  - the single expanded category.

The network is an input. Each handler receives a `Backend.Response<T>`:

- `Ok(data)`: the parsed success body.
- `Rejected(message)`: a failure status and the `message` of its body.
- `Unreachable`: the request threw, the body was not JSON, or reading the success
  body threw. `data.user.name` on a login body without `user` is one such throw.

Alerts are returned as `Backend.Alert` values. Requests are returned as
`Option<…>`, where `None` means that no request was made.

Supporting modules:

- `Text`: JavaScript `trim`, `split`, `join`, `toUpperCase` and `toLowerCase`.
- `Numbers`: `parseFloat` over exact reals with NaN, subtraction, and the decimal
  rendering of a counter.
- `Wrappers`: `Option`.

Two facts about the transfer handler shape the model:

- Every validated transfer attempt, failed or not, resets the form
  (components/PaymentDashboard.js:129-133).
- Before a transfer the code checks only that the MPIN, amount and category are
  non-empty and that a contact is selected. There is no digit, length or sign
  check (components/PaymentDashboard.js:68-76).

## Model

| member | source | states |
|---|---|---|
| `Text.BlankIffAllSpace` | components/LoginScreen.js:28 | `!s.trim()` holds exactly when every character of `s` is JavaScript white space |
| `Text.LowerHasNoUpperCase` | components/LoginScreen.js:109 | the lower-cased e-mail that sign-up sends holds no upper-case ASCII letter |
| `Text.JoinSplit` | components/PaymentDashboard.js:138 | `split(" ")` loses nothing: joining the pieces with the separator gives back the name |
| `Text.Trim` | components/LoginScreen.js:28 | `s.trim()` is the slice of `s` that remains once its leading and trailing JavaScript white space is dropped: everything before the slice and everything after it is white space, and the slice neither starts nor ends with white space |
| `Text.IsBlank` | components/LoginScreen.js:28 | `!s.trim()`; its contract is `Text.BlankIffAllSpace` |
| `Text.Split` | components/PaymentDashboard.js:138 | `split(" ")` gives at least one piece and no piece holds the separator; `Text.JoinSplit` states that nothing is lost |
| `Text.Upper` | components/PaymentDashboard.js:141 | `toUpperCase()` keeps the length and maps every character through the ASCII upper-case mapping |
| `Text.Lower` | components/LoginScreen.js:109 | `toLowerCase()` keeps the length and maps every character through the ASCII lower-case mapping; `Text.LowerHasNoUpperCase` states its consequence |
| `Numbers.Minus` | components/PaymentDashboard.js:106 | the new balance is finite exactly when balance and amount are, and then adding the amount back gives the old balance |
| `Numbers.NoDigitIsNaN` | components/PaymentDashboard.js:81 | an amount text with no digit in it, unless it spells `Infinity` after the white space and sign, parses to NaN, although it passes the non-empty check |
| `Numbers.ParseFloatOfNatToString` | my-new-project/components/ShareDashboard.js:94 | `parseFloat(String(n)) == n` for every counter `n` below 10^21 (the model renders every `n` in plain digits) |
| `Numbers.ParseFloat` | components/PaymentDashboard.js:81 | `parseFloat(amount)`; its contracts are `Numbers.NoDigitIsNaN` and `Numbers.ParseFloatOfNatToString` |
| `Numbers.NatToString` | my-new-project/components/ShareDashboard.js:94 | `String(n)` for a counter below 10^21 is non-empty, all decimal digits and has no leading zero unless it is "0"; `Numbers.DigitsValueOfNatToString` and `Numbers.ParseFloatOfNatToString` state that its digits read back as `n` |
| `Numbers.NatToStringInjective` | my-new-project/components/ShareDashboard.js:94 | two different counters never render to the same text |
| `Backend.MessageOr` | components/PaymentDashboard.js:118 | `data.message \|\| fallback`: the backend's message when it is present and non-empty, else the fallback |
| `Contacts.Toggled` | components/PaymentDashboard.js:47-49 | pressing the selected contact gives no selection, pressing any other contact selects exactly that one |
| `Contacts.PressTwiceFromNothing` | my-new-project/components/PaymentDashboard.js:44-46 | from no selection, one press selects the contact and a second press returns to no selection |
| `Contacts.HeadsOfSplit` | components/PaymentDashboard.js:137-140 | the first characters of the `split(" ")` pieces, with empty pieces giving nothing, are the characters that start a word |
| `Contacts.InitialsAreWordStarts` | components/PaymentDashboard.js:136-141 | `contactInitials` is the upper-cased first character of every non-empty space-separated word, in order, and is no longer than the name |
| `Contacts.ContactInitials` | components/PaymentDashboard.js:136-141 | `contactInitials(name)`; its contract is `Contacts.InitialsAreWordStarts` |
| `Payment.Send` | components/PaymentDashboard.js:67-134 | the fields check comes first, then the contact check, and either failure makes no request and changes nothing. The payload is own number, contact's number, parsed amount and category, without the MPIN. Only an ok answer debits the balance. The alert is the success text, the backend message or "Failed to complete the transaction.", or the network text. Every validated attempt ends with no contact selected, empty MPIN and amount, and category "General" |
| `Payment.Refresh` | components/PaymentDashboard.js:232-274 | a refresh clears the selection, MPIN, amount and category (to ""). It takes the fetched wallet amount on success and otherwise keeps the balance and alerts with the backend message or the fixed fallback texts |
| `Payment.DebitOnlyOnConfirmation` | components/PaymentDashboard.js:99-124 | the balance changes only on an accepted request, and then by exactly the amount that was sent |
| `Payment.MpinNotSent` | components/PaymentDashboard.js:68-83 | two forms that differ only in a non-empty MPIN produce the same request |
| `Payment.NoResend` | components/PaymentDashboard.js:129-133 | a second Send right after a validated one makes no request |
| `Payment.RefreshBlocksSend` | components/PaymentDashboard.js:258-268 | after a refresh, Send stops with "Please enter MPIN, amount, and category." |
| `Payment.BalanceTracksConfirmedTransfers` | components/PaymentDashboard.js:99-133 | over any sequence of presses, typing and sends, the balance is the starting balance minus exactly the amounts of the transfers the backend accepted |
| `Payment.PaymentDashboard.constructor` | components/PaymentDashboard.js:17-29 | the screen opens with no contact selected, empty fields and the balance it was given |
| `Payment.PaymentDashboard.HandleContactPress` | components/PaymentDashboard.js:47-65 | the selection becomes the toggle of the pressed contact; nothing else changes |
| `Payment.PaymentDashboard.SetMpin` | components/PaymentDashboard.js:205-206 | typing replaces the MPIN field only |
| `Payment.PaymentDashboard.SetAmount` | components/PaymentDashboard.js:213-214 | typing replaces the amount field only |
| `Payment.PaymentDashboard.SetCategory` | components/PaymentDashboard.js:220-221 | typing replaces the category field only |
| `Payment.PaymentDashboard.HandleSend` | components/PaymentDashboard.js:67-134 | the in-place handler returns the request and alert of `Payment.Send` and leaves the screen in its new form, resetting through `HandleContactPress` as the code does |
| `Payment.PaymentDashboard.OnRefresh` | components/PaymentDashboard.js:258-274 | the in-place handler leaves the screen in the form of `Payment.Refresh` and returns its alert |
| `PaymentFixedCategory.Send` | my-new-project/components/PaymentDashboard.js:64-130 | MPIN and amount are checked (not the category), then the contact. The payload category is always "General" and the MPIN is not sent. Only an ok answer debits the balance. The success alert quotes the transaction id ("undefined" when absent). Every validated attempt ends with no contact selected and empty MPIN and amount |
| `PaymentFixedCategory.AgreesWithCategoryVariant` | my-new-project/components/PaymentDashboard.js:75-80 | with the other variant's category at "General", both variants send the same request and leave the same selection, fields and balance |
| `PaymentFixedCategory.NoResend` | my-new-project/components/PaymentDashboard.js:126-129 | a second Send right after a validated one stops with "Please enter both MPIN and amount." and changes nothing |
| `PaymentFixedCategory.PaymentDashboard.constructor` | my-new-project/components/PaymentDashboard.js:16-27 | the screen opens with no contact selected, empty fields and the balance it was given |
| `PaymentFixedCategory.PaymentDashboard.HandleContactPress` | my-new-project/components/PaymentDashboard.js:44-62 | the selection becomes the toggle of the pressed contact; nothing else changes |
| `PaymentFixedCategory.PaymentDashboard.SetMpin` | my-new-project/components/PaymentDashboard.js:200-201 | typing replaces the MPIN field only |
| `PaymentFixedCategory.PaymentDashboard.SetAmount` | my-new-project/components/PaymentDashboard.js:207-208 | typing replaces the amount field only |
| `PaymentFixedCategory.PaymentDashboard.HandleSend` | my-new-project/components/PaymentDashboard.js:64-130 | the in-place handler returns the request and alert of `PaymentFixedCategory.Send` and leaves the screen in its new form |
| `Auth.LoginCheck` | my-new-project/components/LoginScreen.js:19-27 | a blank (after trimming) phone or MPIN gives "Please fill in all fields". Only after that check passes does an untrimmed MPIN length other than 6 give "MPIN must be 6 digits". Nothing else is checked |
| `Auth.Login` | my-new-project/components/LoginScreen.js:18-65 | a request (phone and MPIN as typed) is made exactly when the checks pass. Success resets navigation to "BottomNavigation" with name, balance = `wallet_amount`, contacts and recent contacts defaulting to [], and the typed phone. A rejection shows the backend message or "Invalid login". An unreachable backend or a body without `user` shows "Network error. Try again." |
| `Auth.AnySixCharacterMpinPasses` | components/LoginScreen.js:28-36 | any six-character MPIN that is not all white space passes the checks, digits or not |
| `Auth.BlankMpinReportedFirst` | components/LoginScreen.js:28-31 | six spaces are reported as a missing field, not as a wrong-length MPIN |
| `Auth.SignUpCheck` | components/LoginScreen.js:79-98 | first failure wins: any of five fields blank after trimming, then password shorter than 8, then MPIN length other than 6 |
| `Auth.SignUp` | components/LoginScreen.js:76-126 | a request is made exactly when the checks pass, with the e-mail lower-cased and the other fields as typed. The outcome is accepted exactly on an ok answer, with the success text. Otherwise the alert is the backend message or "Sign-up failed", or the network text |
| `Auth.LoginScreen.constructor` | components/LoginScreen.js:15-24 | the screen opens on the login form with every field empty |
| `Auth.LoginScreen.SetPhoneNumber` | components/LoginScreen.js:154-155 | typing replaces the phone field only |
| `Auth.LoginScreen.SetMpin` | components/LoginScreen.js:169-170 | typing replaces the MPIN field only |
| `Auth.LoginScreen.SetSignUpData` | components/LoginScreen.js:202-204 | a sign-up input replaces the sign-up form only |
| `Auth.LoginScreen.SetIsSignUp` | components/LoginScreen.js:188 | "Sign Up" and "Back to Login" switch the form and change nothing else |
| `Auth.LoginScreen.HandleLogin` | components/LoginScreen.js:27-74 | the main screen's login is the same cascade and outcome as `Auth.Login` over its typed fields |
| `Auth.LoginScreen.HandleSignUp` | components/LoginScreen.js:76-126 | returns the outcome of `Auth.SignUp` and leaves sign-up mode exactly when the account was accepted; a failed sign-up leaves the flag unchanged |
| `Portfolio.ChartFor` | my-new-project/components/ShareDashboard.js:67-117 | "day", "week" and "month" draw the Daily, Weekly and Monthly series. The single dataset is that series' prices and there is one label per point: "Week i+1" for weeks, the day of each timestamp otherwise. Any other period draws an empty chart |
| `Portfolio.SeriesFor` | my-new-project/components/ShareDashboard.js:78-117 | the series each period draws; its contract is `Portfolio.ChartFor` |
| `Portfolio.WeekLabelsDistinct` | my-new-project/components/ShareDashboard.js:93-95 | the weekly labels are pairwise different |
| `Portfolio.ToggledExpanded` | my-new-project/components/ShareDashboard.js:56-61 | the symbol's expanded flag is flipped (missing reads as collapsed) and every other key is unchanged |
| `Portfolio.ToggleTwice` | my-new-project/components/ShareDashboard.js:57-60 | toggling twice restores every symbol's status, and the map itself once the symbol has a flag |
| `Portfolio.AfterFetch` | my-new-project/components/ShareDashboard.js:38-49 | the holdings become `data.portfolio`, or [] when the field is missing or the status failed; a throwing fetch keeps them |
| `Portfolio.MyPortfolio.constructor` | my-new-project/components/ShareDashboard.js:19-23 | no holdings, loading, nothing expanded, period "day" |
| `Portfolio.MyPortfolio.FetchPortfolio` | my-new-project/components/ShareDashboard.js:26-54 | holdings as `AfterFetch`, and loading ends false on every path |
| `Portfolio.MyPortfolio.ToggleExpand` | my-new-project/components/ShareDashboard.js:56-61 | the expanded map becomes `ToggledExpanded` of the old one; nothing else changes |
| `Portfolio.MyPortfolio.IsExpanded` | my-new-project/components/ShareDashboard.js:68 | `expanded[item.Symbol]`; `Portfolio.ToggledExpanded` and `Portfolio.ToggleTwice` state how it changes |
| `Portfolio.MyPortfolio.HandlePeriodChange` | my-new-project/components/ShareDashboard.js:63-65 | the one shared period becomes the chosen one whatever the symbol; nothing else changes |
| `Explore.ToggledCategory` | my-new-project/components/ShareDashboard.js:396-400 | pressing the open category closes it; pressing any other makes it the only open one |
| `Explore.OpenAnotherThenClose` | my-new-project/components/ShareDashboard.js:396-400 | opening another category replaces the open one, and pressing it again closes everything |
| `Explore.ExploreCompanies.constructor` | my-new-project/components/ShareDashboard.js:373-377 | no categories, none open, loading, no error |
| `Explore.ExploreCompanies.Load` | my-new-project/components/ShareDashboard.js:379-394 | present `categories` become the list. Otherwise the error is "Failed to fetch data.", and a throwing fetch gives "An error occurred while fetching data.". Loading ends false on every path |
| `Explore.ExploreCompanies.ToggleCategory` | my-new-project/components/ShareDashboard.js:396-400 | the open category becomes `ToggledCategory` of the old one; nothing else changes |
| `Explore.ExploreCompanies.IsExpanded` | my-new-project/components/ShareDashboard.js:412 | `expandedCategory === name`; `Explore.ToggledCategory` and `Explore.OpenAnotherThenClose` state how it changes |
| `Explore.ExploreCompanies.Shown` | my-new-project/components/ShareDashboard.js:439-453 | loading text while loading, then the error if there is one, otherwise the category list |

## Left out

- Rendering, styles, `Animated`/`Easing` and `LineChart` drawing are not modelled. The balance update that the code applies when its animation completes is applied as soon as the transfer is confirmed.
- `fetch`, `response.json`, `Alert.alert` and `console` are replaced by `Response` inputs and returned alerts and requests. Endpoint URLs and headers are not modelled, and neither are the `/portfolio` and `/get_wallet_amount` request bodies, which carry only the screen's own number (my-new-project/components/ShareDashboard.js:34, components/PaymentDashboard.js:241).
- Asynchronous interleaving is not modelled. Each handler runs to completion on the state it was invoked with, as its closure sees it.
- `Numbers.NoDigitIsNaN` excludes text that spells `Infinity` after the white space and sign, which `parseFloat` reads as an infinity and the model does not.
- `Numbers.NatToString` writes every natural number in plain digits. JavaScript's `String(n)` switches to exponent notation ("1e+21") from 10^21 on; the only counter rendered, a week index, stays far below that.
- `Numbers.ParseFloat` works on exact reals. It does not model the literal "Infinity", binary floating-point rounding, overflow to Infinity or negative zero. `toFixed` is display-only and left out.
- `Text.Upper`, `Text.Lower`: only ASCII letters change case. JavaScript applies full Unicode case mapping.
- Strings are sequences of Unicode scalar values. JavaScript's `length` and `word[0]` count UTF-16 code units, which differ for characters outside the Basic Multilingual Plane.
- `formatDate` relies on JavaScript `Date`. A day or month label is kept as `DayOfMonth(timestamp)`.
- `Object.entries` lists integer-like keys first, in ascending order. The model takes the categories in the order the body gives them.
- View-only flags (`showBalance`, `refreshing`, `isTyping`), the share dashboard's section switch and the holdings' display-only fields (total price, price per share, shares, sentiment, notes) are not modelled.
- The chat section renders one fixed greeting, and the Buy and Sell buttons have no handlers. Neither is modelled.
- Navigation is not modelled: navigation/AppNavigator.js, my-new-project/components/BottomNavigation.js and the hard-coded my-new-project/components/FinFusionDashboard.js. A successful login is modelled as the `ResetTo` outcome with its route name and params.
- The portfolio and explore fetches never read `response.ok` (my-new-project/components/ShareDashboard.js:38-41, 381-387). A `Rejected` answer is taken to carry a body with only `message`, so it gives no `portfolio` or `categories` field; a failure body that did carry one would be used by the code.
