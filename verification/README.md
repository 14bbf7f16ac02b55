# Payphone bridge: transaction identifier and the create/confirm ladders

This project models the pure core of an Express server that connects a
storefront, a commerce backend (Shopify draft orders) and a payment gateway
(Payphone). Two request handlers make up the workflow:

- `POST /payphone/create` checks the cart, asks the backend to create a draft
  order, turns the draft's subtotal into cents, mints a transaction
  identifier `do<draftNumericId>_<timestamp>` and answers with the payment
  page's query parameters.
- `GET /payphone/confirm` checks the `id` and `clientTransactionId`
  parameters, confirms the payment with the gateway and, only when the gateway
  approved it (`statusCode == 3`) and the identifier matches `^do(\d+)_`,
  finalizes the draft `gid://shopify/DraftOrder/<digits>`. Every outcome after
  the parameter check is a redirect to the result page.

The transaction identifier is the only link between the two requests. The
model proves that it round-trips: a draft gid with a numeric tail is minted
into an identifier, and parsing that identifier rebuilds the same gid. It
also proves the confirm safety property: finalize is reached exactly when the
parameters are valid, the gateway approved the payment and the identifier
parses.

Modules:

- `Wrappers`: `Option`, for JavaScript fields that may be absent.
- `Text`: the JavaScript string and number behaviour the handlers rely on.
  It covers `\d`, `${n}` for safe non-negative integers (`Decimal`), `parseInt(s, 10)`
  (`ParseInt`, which returns NaN or an integer), and `split("/")`, `join` and `pop()`.
- `Http`: redirect query parameters, JavaScript's `value || fallback`, and backend user errors.
- `TransactionId`: `Mint`, `Parse` (the anchored pattern) and `DraftGid`.
- `CreateFlow` and `ConfirmFlow`: the two handlers. Each is a pure function
  that returns the response together with the outbound requests it sent.
  The backend and gateway calls are function-typed parameters, so "not called"
  is a `None` in the run record.
- `Workflow`: the two handlers composed through the identifier, plus worked examples.

Two behaviours of server.js are modelled as written:

- The handler sends `draftOrderCreate` before it checks the total
  (server.js:86-104), so a rejected total leaves a draft behind.
  `CreateFlow.BadTotalRejected` states that the draft request was sent in
  that case.
- The id check is only `!id` (server.js:124-126), so a negative id passes.
  `ConfirmFlow.SignedIdAccepted` states this.

## Model

| member | source | states |
|---|---|---|
| Http.OrElse | server.js:125 | JavaScript's or-operator used as a default for a string field (also at server.js:139 and 165-166): the result is "" exactly when both sides are, and a result other than the fallback is the present value |
| Http.OrElseValue | server.js:139 | a present, non-empty value wins over any fallback (a gateway message "Cancelado" stays "Cancelado"), and an absent or empty value gives the fallback |
| Text.Decimal | server.js:112 | `${n}` of a non-negative integer (below 2^53) is a non-empty digit string without a leading zero, starting with '0' only for zero |
| Text.DecimalValue | server.js:112 | reading the rendered digits of `n` back as a number gives `n` |
| Text.ValueDecimal | server.js:112 | every canonical digit string is the rendering of its own value (the other direction of the round trip) |
| Text.DigitRun | server.js:143 | the greedy `\d+` run: a digit prefix whose next character, if any, is not a digit |
| Text.DigitRunOf | server.js:143 | the digit run of digits followed by a non-digit is exactly those digits |
| Text.Split | server.js:97 | `split` yields at least one piece and no piece contains the separator |
| Text.JoinSplit | server.js:97 | joining the pieces of a split with the separator restores the original string |
| Text.LastSegment | server.js:97 | `split("/").pop()` is a slash-free suffix preceded by '/' unless it is the whole string |
| Text.LastSegmentOf | server.js:97 | the last segment of a prefix ending in '/' followed by a slash-free tail is that tail |
| Text.TrimStart | server.js:124 | `parseInt` skips leading white space: the result is a suffix made by dropping white space, and it does not start with white space |
| Text.ReadDigits | server.js:124 | the digit reading of `parseInt` is NaN exactly when no digit comes first, and otherwise non-negative |
| Text.ReadSigned | server.js:124 | after an optional sign the reading is NaN exactly when no digit follows, and negative only behind '-' |
| Text.ParseInt | server.js:124 | `parseInt(s, 10)` is NaN exactly when, after the leading white space and an optional sign, no digit follows; a negative result needs a '-' there |
| Text.ParseIntNaN | server.js:124 | `parseInt` of an empty string or of text not starting with white space, sign or digit is NaN |
| Text.ParseIntZero | server.js:124 | `parseInt("0")` is zero, the falsy id that the default `"0"` produces |
| Text.ParseIntDecimal | server.js:124 | `parseInt` reads back a rendered natural number followed by a non-digit |
| Text.ParseIntSignedDecimal | server.js:124 | `parseInt` reads back a rendered natural number behind '+' or '-', negated for '-' |
| Text.ReadDigitsOf | server.js:124 | the digit reading of any digit run followed by a non-digit, leading zeros included, is the run's value |
| Text.TrimSpaces | server.js:124 | leading white space does not change what remains after `parseInt` trims the start |
| Text.ParseIntSpaces | server.js:124 | `parseInt` of white space followed by a text equals `parseInt` of the text |
| Text.ParseIntRun | server.js:124 | `parseInt` of a digit run, leading zeros included, followed by a non-digit is the run's value |
| Text.ParseIntOf | server.js:124 | `parseInt` of white space, a digit run and then a non-digit is the run's value |
| Text.ParseIntSign | server.js:124 | `parseInt` of '+' or '-' in front of a text with digit reading `v` is `v`, negated for '-' |
| Text.ParseIntSignedOf | server.js:124 | the same after leading white space |
| TransactionId.Mint | server.js:107 | the identifier is "do", then the draft id, then '_', then exactly the decimal digits of the timestamp, at these positions |
| TransactionId.MatchUnique | server.js:143 | a match of `^do(\d+)_` determines its captured group uniquely |
| TransactionId.Parse | server.js:143 | the result is a capture that matches the pattern, and any capture that matches is the result; None means no match |
| TransactionId.ParseMint | server.js:107-143 | a minted identifier parses back to its draft id if and only if that id is a non-empty digit string, whatever the timestamp |
| TransactionId.DraftGid | server.js:145 | the rebuilt gid is `gid://shopify/DraftOrder/` followed by exactly the captured digits |
| TransactionId.GidRoundTrip | server.js:97-145 | for `gid://shopify/DraftOrder/<digits>`, the last segment is the digits, and minting then parsing gives the digits back, from which the confirm handler rebuilds the same gid |
| CreateFlow.ToLineItem | server.js:62-65 | a line item keeps the quantity (0 when absent), and its variant gid is the ProductVariant prefix followed by the variant id, or by "undefined" when the id is absent |
| CreateFlow.VariantText | server.js:64 | a present variant id is rendered as it stands, and the text is "undefined" exactly when the id is absent or is itself "undefined" |
| CreateFlow.VariantRecovered | server.js:64 | the variant id is the last segment of the line item's variant gid when it has no slash |
| CreateFlow.LineItems | server.js:62-65 | one line item per cart entry, in order |
| CreateFlow.DraftInput | server.js:80-84 | the draft-order input has one line item per cart entry in order, the single tag "payphone", and the email only when it is present and non-empty |
| CreateFlow.DraftInputRecovers | server.js:62-84 | every line of the request gives back its entry's quantity (0 when absent) and, for a slash-free variant id, that id as the gid's last segment |
| CreateFlow.CartAccepted | server.js:55-58 | the cart is refused exactly when `items` is absent (so defaults to []), is not an array, or is empty |
| CreateFlow.DraftUsable | server.js:88-104 | an answer is usable exactly when it has no thrown error, no user errors and a draft whose total is a positive number of cents; a NaN total is never usable |
| CreateFlow.PayQuery | server.js:110-112 | the payment page gets `tid`, then `amount_cents` and `amount_with_tax_cents` with the same canonical decimal text, which reads back as the amount in cents, then `tax_cents=0` |
| CreateFlow.AfterCreate | server.js:88-112 | the backend answer becomes a payment page exactly when it has no user errors, has a draft, and has a total that is a positive number of cents |
| CreateFlow.Create | server.js:55-114 | the backend is called exactly when the cart is a non-empty array, with one line item per entry in order (each the entry's own line item), the tag "payphone" and the email exactly when it is non-empty; a payment page comes back exactly when that call returned a usable draft |
| CreateFlow.EmptyCartRejected | server.js:58-59 | a missing, non-array or empty cart gives 400 "Carrito vacío" and no backend request |
| CreateFlow.UserErrorsReported | server.js:88-92 | backend user errors give 400 with those errors as details |
| CreateFlow.MissingDraftRejected | server.js:94-95 | an error-free answer without a draft gives 500 |
| CreateFlow.BadTotalRejected | server.js:86-104 | a total that is zero, negative or NaN gives 400, after the draft request was already sent |
| CreateFlow.CreatesPayPage | server.js:97-112 | an accepted cart with a usable draft gives the payment query for the draft's last gid segment and its total |
| CreateFlow.PayPageAmounts | server.js:106-112 | the payment query is tid, then amount_cents and amount_with_tax_cents holding the same canonical rendering of the total, then tax_cents=0 |
| CreateFlow.PayPageIdentifier | server.js:97-112 | for a draft `gid://shopify/DraftOrder/<digits>`, the tid on the payment page parses back to those digits |
| ConfirmFlow.AfterFinalize | server.js:155-167 | after finalize, the redirect reports success if and only if finalize answered with no user errors |
| ConfirmFlow.Confirm | server.js:124-171 | the gateway is called exactly when the parameters are valid, and with those parameters. Finalize is called exactly when the parameters are valid, the gateway approved and the identifier parses, and then on the draft the identifier names. Success implies a finalize without user errors |
| ConfirmFlow.InvalidParamsRejected | server.js:124-126 | invalid parameters give a plain 400 and neither the gateway nor finalize is called |
| ConfirmFlow.ZeroIdRejected | server.js:124-126 | an absent, empty or "0" id fails the check |
| ConfirmFlow.IdOf | server.js:124 | only a present, non-empty id parameter can give a truthy id, and such a parameter is read by `parseInt` as it stands |
| ConfirmFlow.TxOf | server.js:125 | the identifier is empty exactly when the parameter is absent or empty, and otherwise is the parameter |
| ConfirmFlow.ParamsValid | server.js:124-126 | the check passes exactly when `parseInt` of the id (defaulting to "0") is truthy and the identifier (defaulting to "") is non-empty; then both parameters were present and non-empty |
| ConfirmFlow.Approved | server.js:137 | a thrown gateway call is never approved, and a gateway answer is approved exactly when its status code is present and exactly 3 |
| ConfirmFlow.ZeroSpellingsRejected | server.js:124-126 | every text `parseInt` reads as an unsigned zero ("00", " 0", "0x1", ...) fails the check |
| ConfirmFlow.SignedZeroRejected | server.js:124-126 | so does a signed zero ("-0", "+00", ...) after any leading white space |
| ConfirmFlow.IdOfDefault | server.js:124 | the id read is `parseInt` of the parameter, or of "0" when the parameter is absent or empty, exactly as `id || "0"` prescribes |
| ConfirmFlow.IdOfText | server.js:124 | a non-empty id parameter is parsed as it stands, with no default substituted |
| ConfirmFlow.IdTextAccepted | server.js:124-126 | an id text that `parseInt` reads as a non-zero number passes the check |
| ConfirmFlow.SignedIdAccepted | server.js:124-126 | any non-zero id passes the check, a negative one included |
| ConfirmFlow.GatewayFaultRedirect | server.js:129-171 | a thrown gateway call redirects with status=error and nothing is finalized |
| ConfirmFlow.NotApprovedFails | server.js:137-140 | a status other than 3 redirects with status=failed, the tid and the gateway message (default "Pago cancelado"), and nothing is finalized |
| ConfirmFlow.BadTidError | server.js:142-144 | an approved payment with an identifier that does not match redirects with status=error and reason=bad_tid, and nothing is finalized |
| ConfirmFlow.FinalizeErrorsReported | server.js:155-161 | finalize user errors redirect with reason=complete_userErrors, which differs from the bad_tid redirect |
| ConfirmFlow.SuccessRedirect | server.js:163-167 | success redirects with the order name, the original tid and the authorization code, each missing value becoming "" |
| ConfirmFlow.FinalizeFaultRedirect | server.js:155-170 | a thrown finalize call redirects with status=error after the finalize request was sent |
| Workflow.CreateThenConfirm | server.js:97-145 | the tid that create hands out for `gid://shopify/DraftOrder/<digits>` makes an approved confirm finalize that very gid |
| Workflow.CreateScenario | server.js:58-112 | a cart of two units of variant 123 with a draft totalling 1999 cents gives tid=do987_<now>, amount_cents=1999, amount_with_tax_cents=1999 and tax_cents=0 |
| Workflow.ParseInt55 | server.js:124 | `parseInt("55")` is 55 |
| Workflow.ParseScenarioTid | server.js:143-145 | the identifier create hands out for draft 987 is do987_<now> and reads back as draft 987 |
| Workflow.ConfirmApprovedScenario | server.js:124-167 | an id text read as 55 with any identifier that reads as draft 987 (the one create hands out is such an identifier), approved with ABC123 and finalized as #1042, gives exactly the success redirect with #1042, that identifier and ABC123, and finalizes draft 987 |
| Workflow.ConfirmCancelledScenario | server.js:124-140 | the same confirm with a non-approved "Cancelado" gives status=failed with that message and calls no finalize |

## Left out

- Express routing, the CORS setup, the healthcheck and `listen` (server.js:5-15, 174-178) are framework plumbing.
- Environment variables and logging (server.js:17-27) are left out. `FRONT_PAY_PAGE_URL` and `SUCCESS_URL` are configuration, so an outcome carries only its query parameters, not the base URL.
- `shopifyGraphql` and both `fetch` calls (server.js:30-50, 129-134) are network clients. Their results are function-typed parameters. A thrown error is one `Fault` variant of each reply.
- `parseFloat` and `Math.round(amountUsd * 100)` (server.js:100-101) are floating point. The draft carries its total already in cents, as NaN or an integer.
- `Date.now()` (server.js:107) is an arbitrary natural-number parameter.
- `encodeURIComponent` is not modelled. Redirect values are the texts before percent-encoding. Its `URIError` on unpaired surrogates is left out as well.
- The catch-all paths (server.js:115-118, 168-171) are reached only through the `Fault` replies. Create's error text is taken as the thrown message.
- Query and body values of other JSON types are left out: repeated query keys (arrays), non-string messages and non-numeric quantities. Fields are absent or of the type the handler expects. A JSON `null` is left out too: `Option` models an absent field (`undefined`). For example a `variant_id` of `null` renders as "null" in the variant gid, while an absent one renders as "undefined".
- Text.Decimal: gives the exact decimal digits of every natural number. JavaScript's `${n}` agrees only below 2^53: larger integers are rounded to the nearest double, and from 1e21 on they print in exponent form (`${1e21}` is "1e+21"). Realistic amounts in cents and `Date.now()` readings are far below 2^53.
- ParseInt: does not model the float precision of `parseInt` on ids beyond 2^53. The value is the exact integer, which does not change the `!id` check.
- CreateFlow.PayPageAmounts: states the amount read-back with the decimal reading `ValueOf` rather than `parseInt`. The handler never reads the amount back itself.
- The code keeps no "already finalized" store, so a repeated confirm finalizes again. The model invents no such state.
