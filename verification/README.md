# Flask storefront: order submission and admin access, in Dafny

This project models the core of a single-product storefront that sells a thermal
flask. A customer picks a colour and a quantity, fills in name, phone and address,
and submits an order. An administrator logs in and reviews the orders in a dashboard.

The model covers five pieces of the system:

- **Order form** (`OrderForm`, with the string primitives in `Text`). It covers the
  trim-and-non-empty check, the Bangladeshi mobile-number check
  `^01[3-9]\d{8}$` after all white space is removed, the price
  `1299 * quantity + 0`, the quantity stepper, the payload sent to `POST /orders`,
  and the submit / success / "order again" transitions.
- **Catalogue** (`Catalogue`). It covers the four colour variants, the
  `currentVariant` lookup with its fallback to the first entry, and the swatch clicks
  that set the selected colour.
- **Backend authentication** (`Auth`). It covers the credential check of
  `POST /admin/login`, the JSON Web Token it issues (RFC 7519, `sub` in section
  4.1.2 and `exp` in section 4.1.4), and the bearer check (RFC 6750, section 2.1)
  that guards `GET /orders`.
- **Backend order table** (`OrderStore`). It covers the `Order` record with its
  defaults, `POST /orders` with store-assigned ids, and the guarded listing.
- **Admin pages** (`AdminLogin`, `AdminDashboard`, with browser storage in
  `Browser`). They cover the login outcome, the statistics above the orders table,
  the display fallbacks of the table, and the page's state machine: fetch with no
  token, 401, other failure or success; mount, refresh and logout; and the status
  selector, which changes nothing.

`Flows` connects the pieces. An order the form sends is stored well formed. An
admin holding a fresh login token sees it. Without a valid token nothing is
listed.

Everything is pure functions over immutable datatypes. Each outside effect is a
parameter:

- the network reply (`Reply`, `LoginReply`, `FetchReply`);
- the server clock (`Auth.Clock`: UTC seconds and the local zone's offset);
- the token signature check (`Auth.Token`: a token this server signed, or any
  other string);
- browser storage (`Browser.Storage`, a map from keys to strings).

Three facts about the code shape the model:

- The form validates only the three text fields and the phone. It does not check
  the colour or the quantity.
- Nothing enforces status transitions. The dashboard's status selector only shows
  a message.
- The server stores a client-supplied status as given.

## Model

| member | source | states |
|---|---|---|
| Text.TrimStart | frontend/src/components/OrderForm.tsx:53 | what is kept is a suffix of the input, what is dropped is all white space, and the result does not start with white space |
| Text.TrimEnd | frontend/src/components/OrderForm.tsx:53 | what is kept is a prefix of the input, what is dropped is all white space, and the result does not end with white space |
| Text.Trim | frontend/src/components/OrderForm.tsx:53 | `trim()` yields nothing exactly when the field is blank; otherwise the result starts and ends with a visible character |
| Text.TrimIdempotent | frontend/src/components/OrderForm.tsx:72-74 | trimming an already trimmed value changes nothing |
| Text.TrimPadded | frontend/src/components/OrderForm.tsx:73 | trimming removes exactly the surrounding padding and keeps interior white space |
| Text.StripWhitespace | frontend/src/components/OrderForm.tsx:58 | `replace(/\s/g, "")` leaves no white space, never grows the string, and is empty exactly for a blank input |
| Text.StripAppend | frontend/src/components/OrderForm.tsx:58 | removing white space distributes over concatenation |
| Text.StripDropsGap | frontend/src/components/OrderForm.tsx:58 | a blank gap between two parts disappears when white space is removed |
| Text.StripIgnoresTrim | frontend/src/components/OrderForm.tsx:58 | removing all white space after trimming gives the same string as removing it from the raw input |
| Catalogue.CatalogueIds | frontend/src/components/ProductSection.tsx:11-16 | the catalogue ids are exactly blue, black, gray and green, pairwise distinct, and the initial colour is one of them |
| Catalogue.FindIndex | frontend/src/components/ProductSection.tsx:31 | `find` by id returns the first variant with that id, or reports that none has it |
| Catalogue.CurrentVariant | frontend/src/components/ProductSection.tsx:31 | the shown variant is always in the catalogue; it carries the selected id when that id is in the catalogue, and is the first variant otherwise |
| Catalogue.ClickSwatch | frontend/src/components/ProductSection.tsx:57-60 | clicking swatch `i` selects a catalogue id whose variant is exactly variant `i` |
| Catalogue.ReachableSelectionIsVariant | frontend/src/pages/Index.tsx:9 | starting from "blue", every selection reachable through the swatches is a catalogue id and shows its own variant |
| OrderForm.TotalFacts | frontend/src/components/OrderForm.tsx:46-48 | one flask costs 1299 and three cost 3897; the total equals the subtotal, since the fee is 0; each extra flask adds the unit price |
| OrderForm.TotalMonotone | frontend/src/components/OrderForm.tsx:176 | subtotal and total never decrease as the quantity grows |
| OrderForm.Decrease | frontend/src/components/OrderForm.tsx:156 | "-" lowers the quantity by one but never below 1, and changes no other field |
| OrderForm.Increase | frontend/src/components/OrderForm.tsx:164 | "+" raises the quantity, so the total rises by exactly the unit price; no other field changes |
| OrderForm.ChoosePayment | frontend/src/components/OrderForm.tsx:233-269 | the payment method can only become "cod" or "bkash", "cod" exactly for cash on delivery; no other field changes |
| OrderForm.PhoneAccepted | frontend/src/components/OrderForm.tsx:58-61 | the phone test accepts exactly when the phone, with all white space removed, is 11 ASCII digits starting "01" with a third digit from 3 to 9 |
| OrderForm.MobilePatternMeaning | frontend/src/components/OrderForm.tsx:58 | the pattern `^01[3-9]\d{8}$`, read class by class, matches exactly the mobile numbers |
| OrderForm.PlainNumberAccepted | frontend/src/components/OrderForm.tsx:58 | "01712345678" is accepted |
| OrderForm.ThirdDigitTwoRejected | frontend/src/components/OrderForm.tsx:58 | "01212345678" is rejected |
| OrderForm.TenDigitsRejected | frontend/src/components/OrderForm.tsx:58 | a ten-digit number is rejected |
| OrderForm.GapsIgnored | frontend/src/components/OrderForm.tsx:58 | blank gaps typed between groups of a number do not change the verdict |
| OrderForm.SpacedNumberAccepted | frontend/src/components/OrderForm.tsx:58 | "017 1234 5678" is accepted |
| OrderForm.Validate | frontend/src/components/OrderForm.tsx:53-61 | a missing field is reported exactly when some field trims to nothing; a bad phone is reported exactly when all fields are present and the phone fails the pattern; otherwise the form passes |
| OrderForm.BlockedSubmitChangesNothing | frontend/src/components/OrderForm.tsx:53-61 | a submission that fails validation leaves the form, including the submitting flag, unchanged |
| OrderForm.BeginSubmit | frontend/src/components/OrderForm.tsx:63-80 | a request is sent exactly when validation passes, and a blocked submission gives the validation's reason; a sent request sets the submitting flag, and its payload carries the trimmed fields (none empty, the phone passing the pattern), the quantity, the selected colour, the payment method, the total and the status "pending" |
| OrderForm.PhoneTrimKeepsDigits | frontend/src/components/OrderForm.tsx:73 | the trimmed phone that is sent passes the pattern exactly when the typed phone does |
| OrderForm.PayloadKeepsInteriorSpaces | frontend/src/components/OrderForm.tsx:73 | " 017 1234 5678 " is sent as "017 1234 5678": interior spaces are kept and only the padding goes |
| OrderForm.FinishSubmit | frontend/src/components/OrderForm.tsx:83-97 | submitting always ends; the order is marked placed exactly when the reply was ok with a readable body (or it was already placed); nothing else changes |
| OrderForm.OrderAgain | frontend/src/components/OrderForm.tsx:113-121 | "order again" clears the placed flag and restores the initial fields: empty text, quantity 1 and "cod"; the submitting flag is left as it was |
| OrderForm.Step | frontend/src/components/OrderForm.tsx:36-44 | no single user action or reply can make the quantity drop below 1 or the payment method leave {"cod", "bkash"} |
| OrderForm.RunPreservesConsistent | frontend/src/components/OrderForm.tsx:36-44 | from a consistent form, every sequence of events keeps it consistent |
| OrderForm.ReachableFormIsConsistent | frontend/src/components/OrderForm.tsx:36-42 | every form reachable from the initial one orders at least one flask, costs at least 1299, and pays by "cod" or "bkash" |
| OrderForm.CompleteThenStartOver | frontend/src/components/OrderForm.tsx:113-121 | after a successful reply the order is placed, and "order again" then gives exactly the initial form |
| OrderForm.StartOverAfterSuccess | frontend/src/components/OrderForm.tsx:90-121 | submit, success and "order again" end in exactly the state the form was mounted with, whatever was typed before |
| Auth.Lifetime | backend/main.py:64-67 | the given lifetime is used when it is non-zero; a missing or zero lifetime falls back to 15 minutes |
| Auth.CreateAccessTokenAsWritten | backend/main.py:62-70 | as written, the token keeps the subject, and its expiry lies `lifetime + local zone offset` seconds after the UTC issue time |
| Auth.CreateAccessToken | backend/main.py:62-70 | the token keeps the subject and expires exactly `lifetime` seconds after it is issued; it agrees with the code as written on a UTC server |
| Auth.Decode | backend/main.py:74 | a token decodes exactly when this server signed it and the current UTC time is before its expiry, and then yields its payload |
| Auth.VerifyToken | backend/main.py:72-80 | verification succeeds exactly for a presented, signed, unexpired token that has a subject, and returns that subject; no credentials give the bearer scheme's refusal, and any other failure is "Invalid token" |
| Auth.Login | backend/main.py:82-90 | login succeeds exactly when both email and password match; every failure is the same "Invalid credentials"; a success returns a bearer token for the given email whose expiry is the server's local wall-clock time at login plus the configured minutes (15 when that setting is 0), as the code issues it |
| Auth.CorrectedLogin | backend/main.py:82-90 | the same credential check and refusal as `Auth.Login`, with a token that expires the configured minutes (15 when that setting is 0) after the UTC issue time; identical to `Auth.Login` on a UTC server |
| Auth.LoginFailureIsUniform | backend/main.py:84-85 | two failed logins give identical answers, whichever field was wrong and whenever they happened |
| Auth.DefaultLoginTokenLifetime | backend/main.py:13-17 | with the default settings, the admin's token verifies as "admin@example.com" until 30 minutes past the server's local wall-clock time at login, and is "Invalid token" from then on |
| Auth.CorrectedLoginTokenLifetime | backend/main.py:13-17 | with the default settings and the corrected token, the admin's token verifies as "admin@example.com" for exactly 30 minutes after it is issued, in any time zone, and is "Invalid token" afterwards |
| Auth.TokenLivesForItsLifetime | backend/main.py:64-68 | a token from the corrected `Auth.CreateAccessToken` decodes exactly until its lifetime has passed; the code as written does not keep this (see Findings) |
| Auth.LocalClockStretchesLifetime | backend/main.py:65 | with the code as written, a 30-minute token from a UTC+6 server still decodes six hours later, and one from a UTC-6 server is refused when issued; the corrected token is refused six hours later |
| OrderStore.LargestId | backend/main.py:25 | the largest id bounds every stored id and belongs to some stored order |
| OrderStore.NextId | backend/main.py:25 | the id given to a new order exceeds every stored id, and is 1 in an empty table |
| OrderStore.CreateOrder | backend/main.py:92-98 | the order is appended after all stored orders, which stay unchanged; its id is fresh; the status defaults to "pending" and the creation time to the server's local clock; a given status or time is kept; every other field is stored as sent |
| OrderStore.CreateKeepsIdsIncreasing | backend/main.py:92-98 | creating an order keeps ids strictly increasing in insertion order |
| OrderStore.CreateAllDistinctIds | backend/main.py:25 | any sequence of creations keeps ids strictly increasing, hence distinct, and adds one row per order |
| OrderStore.GetOrders | backend/main.py:100-104 | the listing yields the stored orders exactly when token verification succeeds; otherwise it yields verification's error and no orders |
| OrderStore.CreatedOrderIsListed | backend/main.py:92-104 | after a creation, an authorised listing contains the new order, and the orders stored earlier come first, unchanged |
| Browser.StoredToken | frontend/src/pages/AdminDashboard.tsx:59-60 | a token counts as present exactly when the key is stored with a non-empty value, and it is that value |
| AdminLogin.StartLogin | frontend/src/pages/AdminLogin.tsx:19 | the login button enters the loading state; storage and route are untouched |
| AdminLogin.FinishLogin | frontend/src/pages/AdminLogin.tsx:33-46 | loading always ends; on an ok reply the received token is stored as is and the dashboard opens; on any failure storage and route are untouched and an error is shown; the dashboard opens only on success |
| AdminLogin.LoginStoresTokenForDashboard | frontend/src/pages/AdminLogin.tsx:38 | after a successful login the dashboard finds exactly the received token, unless it was empty, which the dashboard treats as none |
| AdminLogin.FailedLoginKeepsToken | frontend/src/pages/AdminLogin.tsx:41-46 | a failed login leaves whatever token the dashboard would find, and loading has ended |
| AdminDashboard.WithStatus | frontend/src/pages/AdminDashboard.tsx:142-144 | the filter keeps only orders with exactly that status, drawn from the loaded orders, and keeps every such order |
| AdminDashboard.WithStatusCounts | frontend/src/pages/AdminDashboard.tsx:142-144 | each order with the status is kept as often as it occurs, and no other order is kept |
| AdminDashboard.ComputeStats | frontend/src/pages/AdminDashboard.tsx:140-146 | the total is the number of loaded orders, and each status count is at most that |
| AdminDashboard.StatusCountsWithinTotal | frontend/src/pages/AdminDashboard.tsx:140-144 | pending, confirmed and delivered counts together never exceed the total |
| AdminDashboard.CountsAppend | frontend/src/pages/AdminDashboard.tsx:140-144 | an extra order adds one to the total and one to its own status's count, and nothing to the other counts |
| AdminDashboard.RevenueCountsDeliveredOnly | frontend/src/pages/AdminDashboard.tsx:145 | the revenue is the sum over the orders of the amount of each delivered order, with every other order contributing nothing |
| AdminDashboard.UndeliveredAddsNoRevenue | frontend/src/pages/AdminDashboard.tsx:145 | an order that is not delivered never changes the revenue |
| AdminDashboard.StatsExample | frontend/src/pages/AdminDashboard.tsx:140-146 | two pending orders, deliveries of 500 and 700 and a cancellation give 5 orders, 2 pending, 0 confirmed, 2 delivered and a revenue of 1200 |
| AdminDashboard.StatusBadge | frontend/src/pages/AdminDashboard.tsx:232 | a known status shows its own badge, anything else shows the "pending" badge; the badge is always one of the configured five |
| AdminDashboard.UnknownStatusLooksPendingButIsNotCounted | frontend/src/pages/AdminDashboard.tsx:232 | an unknown status looks pending in the table but is not counted as pending |
| AdminDashboard.PaymentLabel | frontend/src/pages/AdminDashboard.tsx:251 | "COD" is shown exactly for "cod"; every other value shows the mobile-wallet label |
| AdminDashboard.ColorLabelAsWritten | frontend/src/pages/AdminDashboard.tsx:248 | as written, a colour with a dashboard name shows that name, and any other colour shows its raw id |
| AdminDashboard.ColorLabelMissesCatalogue | frontend/src/pages/AdminDashboard.tsx:44-49 | as written, the orderable colours gray and green show as raw ids, though the storefront names them |
| AdminDashboard.ColorLabel | frontend/src/pages/AdminDashboard.tsx:248 | corrected: each catalogue colour shows the storefront's name for it, any other id shows raw, and blue and black show as before |
| AdminDashboard.MountThenCheckAuth | frontend/src/pages/AdminDashboard.tsx:52-103 | the page opens with no orders and loading; without a token it goes to the login page and stays loading; with one, loading ends for every reply, the orders are the reply's only on an ok reply, and only a 401 sends it to the login page |
| AdminDashboard.FetchOrders | frontend/src/pages/AdminDashboard.tsx:58-90 | without a token, only the route changes to the login page and nothing is sent; otherwise the stored token is sent and both loading flags end false; only an ok reply replaces the orders; only a 401 removes the token; the route becomes the login page exactly when no token was stored or the reply is a 401, and is unchanged otherwise; an error toast is shown exactly for the other failures, and no toast otherwise |
| AdminDashboard.CheckAuthIsFetch | frontend/src/pages/AdminDashboard.tsx:92-99 | checking authentication on mount behaves exactly like a fetch |
| AdminDashboard.Refresh | frontend/src/pages/AdminDashboard.tsx:124-127 | with a token, refreshing is exactly a fetch: both flags end false and the reply acts as in `AdminDashboard.FetchOrders`; without one, nothing is sent, no toast is shown, the page goes to login and the refreshing flag stays set, with everything else unchanged |
| AdminDashboard.FailedFetchKeepsOrders | frontend/src/pages/AdminDashboard.tsx:72-85 | a fetch or refresh whose reply is not ok leaves the loaded orders unchanged |
| AdminDashboard.UnauthorizedLogsOut | frontend/src/pages/AdminDashboard.tsx:73-76 | a 401 goes to the login page without the token, so the next fetch sends no request |
| AdminDashboard.Logout | frontend/src/pages/AdminDashboard.tsx:119-122 | logout removes the token, keeps every other stored key and value, adds none, opens the login page, and leaves the orders and both loading flags alone |
| AdminDashboard.ChangeStatus | frontend/src/pages/AdminDashboard.tsx:105-117 | choosing a status changes no state; a success message appears exactly when a token is stored, and never an error |
| Flows.ToNewOrder | frontend/src/components/OrderForm.tsx:71-80 | the server receives every payload field as the form sent it, the status included, and no creation time, so the server fills that in |
| Flows.SubmittedOrderIsWellFormed | frontend/src/components/OrderForm.tsx:71-80 | whatever the customer did, a sent order is stored with at least one flask, a catalogue colour, the price of its quantity, status "pending", the trimmed phone that passes the pattern, and a fresh id |
| Flows.PlacedOrderReachesAdmin | backend/main.py:92-104 | a listing made with the admin's default login token before 30 minutes past the server's local time at login contains the order the form just sent, pending, at the form's price, whenever that order was placed |
| Flows.SignedTokenListsEverything | backend/main.py:72-80 | the listing accepts any signed token with a subject, whoever it names, exactly until its expiry, and then refuses it as "Invalid token" |
| Flows.NoListingWithoutValidToken | backend/main.py:100-104 | a missing header, a string that fails the signature check, or a login token once 30 minutes past the server's local time at login have passed, never yields any orders |

## Left out

- Network I/O (`fetch`, HTTP status codes, CORS, FastAPI routing) is not modelled. Each
  request's outcome is a parameter: `Responded` with the status (and the body the
  page reads), or `Fault` for a failed request or a body that cannot be parsed,
  which every page treats as a failed reply.
- The backend URL override read from browser storage (`backendUrl`) is left out. It
  only chooses where requests go.
- JWT signing and signature checking (HS256) are left out because they belong to a
  foreign library. `Auth.Token` stands for them: a signed token carries its payload,
  and any other string fails to decode.
- The signing key is taken to be secret: the model treats every `Auth.Signed` token
  as issued by this server. When `SECRET_KEY` is not set, the code falls back to the
  published key `"your-secret-key"` (backend/main.py:15). Anyone can then sign a token
  with any subject and a later expiry, and the listing accepts it
  (`Flows.SignedTokenListsEverything`).
- The dashboard's fetch is one atomic step, from reading the token to handling the
  reply. Work between the request and its reply is not modelled, for example a 401
  that arrives after a new login has stored a fresh token and then removes it.
- Auth.CreateAccessToken: the claims are only the subject, the one claim login
  passes. The copy-then-add-`exp` step is therefore stated for `sub` alone.
- Auth.VerifyToken: the bearer scheme's own refusals are left out. These are a
  non-"Bearer" scheme or a malformed header, and they are folded into "no
  credentials". Status codes and error details are named, not modelled as numbers.
- Environment variables are not read. The settings are a `Config` value, and
  `Auth.Defaults` holds the defaults the code falls back to.
- The `total_amount` column is a float on the server. It is modelled as a whole
  number of taka, as the storefront computes it. JavaScript number precision is
  left out because the amounts are small integers.
- OrderStore.CreateOrder: a client-supplied `id` is left out. The storefront never
  sends one. Ids follow SQLite's rule for an unset integer primary key: one more
  than the largest id, or 1 in an empty table. Reuse after deleting the largest row
  is left out, since nothing deletes rows.
- Database sessions, commits and concurrent inserts are left out. The table is a
  sequence in insertion order.
- Presentation is left out: JSX, icons, images, toast texts, `formatDate`, and
  `toLocaleString`. The order form's own `colorNames` and `colorImages` are left out
  too; they only label the summary.
- Object keys inherited from the JavaScript prototype (such as `"constructor"` in
  `statusConfig` or `colorNames`) are left out. The maps hold only their written
  entries.
- The disabled state of the submit button while a request runs is left out. The
  handler itself has no guard, and the model lets events arrive in any order.
- Validation of the colour and quantity, and a status-transition relation, are not
  modelled because the code implements neither.
- `OrderForm.Subtotal` and `OrderForm.Total` carry no postconditions of their own.
  Their properties are in `OrderForm.TotalFacts` and `OrderForm.TotalMonotone`.

## Findings

| source | as written | input that shows it | evidently intended | confidence | as-written member | corrected member |
|---|---|---|---|---|---|---|
| backend/main.py:65 | the expiry is `datetime.now() + delta`, a naive local time that the token library encodes as if it were UTC | a 30-minute login token issued on a server at UTC+6 still verifies six hours later, and on a server at UTC-6 it is refused when issued (`Auth.LocalClockStretchesLifetime`) | the token expires `delta` after the moment it is issued, in UTC | high, not executed | Auth.CreateAccessTokenAsWritten (used by Auth.Login) | Auth.CreateAccessToken (used by Auth.CorrectedLogin) |
| frontend/src/pages/AdminDashboard.tsx:44-49 | the dashboard names the colours blue, black, white and red, but the catalogue sells blue, black, gray and green | an order with colour "gray" or "green" shows the raw id (`AdminDashboard.ColorLabelMissesCatalogue`) | every orderable colour shows its catalogue name | medium, not executed | AdminDashboard.ColorLabelAsWritten | AdminDashboard.ColorLabel |
