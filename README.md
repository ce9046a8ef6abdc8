# Tingg checkout gateway for WooCommerce — a Dafny model

This project models the deterministic core of the WooCommerce payment gateway
for Cellulant's Tingg hosted checkout:

- **Country table** (`TinggConstants`, `constants.dfy`). These are the eight supported
  countries. Each one maps to an ISO 4217 currency code and an ISO 3166-1 alpha-2
  country code. The module also holds the brand strings.
- **Gateway configuration** (`Gateway.TinggGateway.constructor` in `gateway.dfy`, with
  `IsSandbox`, `CheckoutUrlFor`, `IvKeyFor` and `ModeSelection` in `checkout.dfy`). The
  `sandbox` option, when it is exactly `"yes"`, selects the beep2 sandbox endpoint
  and the test IV seed. Any other value selects the mula.africa live endpoint and the
  live IV seed.
- **Field validation** (`Checkout.ValidateFields`). It accepts the billing country
  exactly when the country code appears in the table. Otherwise it queues one
  error notice.
- **Payment step** (`Gateway.TinggGateway.ProcessPayment`, `Checkout`). It works in four steps:
  - It folds the order lines into a description (`"<qty> x <name>, "` per line, then
    `trim`, then `rtrim` of commas).
  - It looks up the currency by billing country.
  - It builds the flat payload record.
  - It returns `'success'` together with the redirect URL
    `checkout_url?params=<cipher>&accessKey=<key>&countryCode=<country>`.
- **Webhook** (`Gateway.TinggGateway.Webhook`, `Notifications`). Status 178 marks the
  order paid. Status 176 does not. For both codes the handler then reduces stock once,
  adds the note `Order #<account> has been paid in full` or `... has been partially
  paid`, and returns an acknowledgement. The acknowledgement carries status 183 and
  echoes the identifiers. Any other code leaves the order untouched and returns
  nothing.

The order on the webhook side is a class, `Notifications.Order`. It has a paid flag,
a stock-reduction count, a list of notes and a trace of the calls made on it, so the
call order is stated outright. The PHP string built-ins the code relies on
(`sprintf("%d")`, `trim`, `rtrim($s, ',')`, `ucfirst`) are written out in `Text`.
Each computation has a partner definition in the model:
- the description has the `", "`-joined item lines;
- the redirect URL has a parser that recovers its three parameters;
- the audit note has a parser that recovers status and account;
- the currency lookup has the uniqueness of the table's codes.

On an unsupported billing country the payment step does not stop with a
configuration error. `array_filter` leaves no row, so the currency read through
`array_keys(...)[0]` is PHP `null`, and the payment goes ahead with that null
currency. The model keeps this behaviour: `Payload.currencyCode` is an `Option`, and
`None` stands for the null. `Checkout.BuildPayload` proves that the currency is
present exactly when `ValidateFields` accepts the billing country.

## Model

| member | source | states |
|---|---|---|
| `TinggConstants.CountriesSize` | includes/TinggPaymentGatewayConstants.php:15-48 | the table has exactly eight rows |
| `TinggConstants.CountryCodesDistinct` | includes/TinggPaymentGatewayConstants.php:15-48 | no two rows share a country code |
| `TinggConstants.CurrencyCodesDistinct` | includes/TinggPaymentGatewayConstants.php:15-48 | no two rows share a currency code, so country to currency is injective |
| `TinggConstants.CodesWellFormed` | includes/TinggPaymentGatewayConstants.php:15-48 | every country code is two upper-case letters and every currency code three |
| `TinggConstants.BrandConstants` | includes/TinggPaymentGatewayConstants.php:9-11 | the gateway id equals the brand, which is "tingg", displayed as "Tingg" |
| `TinggConstants.CountryCodes` | osen-wc-tingg.php:180-182 | the supported-code list has one entry per row, the row's country code, in table order |
| `TinggConstants.FindByCountryCode` | osen-wc-tingg.php:212-214 | returns nothing exactly when no row carries the code, else the first row carrying it |
| `TinggConstants.CurrencyFor` | osen-wc-tingg.php:228 | a currency is found exactly when the code is supported, and it belongs to a row with that code |
| `TinggConstants.LookupFindsTheRow` | includes/TinggPaymentGatewayConstants.php:15-48 | looking up any row's country code yields that very row and its currency |
| `TinggConstants.LookupExamples` | includes/TinggPaymentGatewayConstants.php:16-47 | KE gives KES, ZW gives USD, NG gives NGN |
| `TinggConstants.UnsupportedCountry` | includes/TinggPaymentGatewayConstants.php:15-48 | a code such as FR, whose first letter starts no table code, has no currency |
| `Text.NatString` | osen-wc-tingg.php:202 | the digits of a natural number, without a leading zero, whose decimal value (`DigitsValue`) is that number |
| `Text.DecimalString` | osen-wc-tingg.php:202 | `%d` gives a non-empty string, led by '-' exactly for negatives, digits after it, whose signed decimal value (`SignedValue`) is the printed number |
| `Text.TrimLeft` | osen-wc-tingg.php:227 | the result is the suffix left after dropping exactly the leading trim characters |
| `Text.TrimRight` | osen-wc-tingg.php:227 | the result is the prefix left after dropping exactly the trailing trim characters |
| `Text.Trim` | osen-wc-tingg.php:227 | `trim` is `TrimRight` after `TrimLeft`: no longer than its input, and neither end is a trim character |
| `Text.TrimRightChar` | osen-wc-tingg.php:227 | the result is the prefix left after dropping exactly the trailing commas, and it does not end in one |
| `Text.Ucfirst` | osen-wc-tingg.php:67-68 | same length, first character upper-cased, the rest unchanged |
| `Checkout.CheckoutUrlFor` | osen-wc-tingg.php:86 | the endpoint is one of the two fixed checkout URLs |
| `Checkout.IvKeyFor` | osen-wc-tingg.php:83 | the IV seed is one of the two configured IV keys |
| `Checkout.IsSandbox` | osen-wc-tingg.php:80 | sandbox mode is on only for the exact option text "yes"; what it selects is stated by `Checkout.ModeSelection` |
| `Checkout.ModeSelection` | osen-wc-tingg.php:80-86 | the sandbox URL is chosen iff the option is "yes", the live URL iff it is not, and likewise the test IV seed |
| `Gateway.TinggGateway.constructor` | osen-wc-tingg.php:62-97 | fields are set from the settings, with URL and IV seed chosen by the sandbox switch |
| `Checkout.ValidateFields` | osen-wc-tingg.php:176-190 | valid iff the billing country is some row's country code; otherwise exactly one error notice |
| `Checkout.ValidationRejectsFrance` | osen-wc-tingg.php:184-187 | a French billing country is rejected with the unsupported-country notice |
| `Checkout.ItemLine` | osen-wc-tingg.php:202-208 | an item line is non-empty and does not start with whitespace |
| `Checkout.Excerpt` | osen-wc-tingg.php:201-209 | the fold is empty exactly for an order without items, and otherwise ends in ", "; `Checkout.ExcerptIsJoined` states its contents |
| `Checkout.ExcerptIsJoined` | osen-wc-tingg.php:201-209 | the fold over the items equals the item lines joined by ", " plus one trailing ", " |
| `Checkout.Description` | osen-wc-tingg.php:227 | the description never ends in a comma |
| `Checkout.DescriptionOfItems` | osen-wc-tingg.php:201-227 | for a non-empty order the description is the ", "-joined lines with trailing commas stripped; it is exactly the joined lines unless the last name ends in a comma |
| `Checkout.DescriptionEmpty` | osen-wc-tingg.php:201-227 | an order without items has the empty description |
| `Checkout.DescriptionOfWidgets` | osen-wc-tingg.php:201-227 | one line of two "Widget" gives "2 x Widget" |
| `Checkout.DueDate` | osen-wc-tingg.php:229 | the expiry lies exactly 60 seconds per period minute after now |
| `Checkout.BuildPayload` | osen-wc-tingg.php:217-235 | account number and transaction id are the order id; credentials, amount, contact fields and URLs are copied; the currency is present iff validation accepts the country and is then that country's row's currency |
| `Checkout.PayloadForKenyanOrder` | osen-wc-tingg.php:217-228 | order 42 from KE for two widgets yields "2 x Widget", KES, and 42 as both identifiers |
| `Checkout.RedirectUrl` | osen-wc-tingg.php:237-242 | the URL starts with the checkout URL and "?params=", and its length is the three values' plus the fixed text's; `Checkout.RedirectRoundTrip` states that the values read back |
| `Checkout.ParseRedirect` | osen-wc-tingg.php:237-242 | whatever it reads back rebuilds exactly the URL it read |
| `Checkout.RedirectRoundTrip` | osen-wc-tingg.php:237-242 | when cipher text and access key contain no '&', the redirect URL parses back to those two values and the billing country |
| `Gateway.TinggGateway.ProcessPayment` | osen-wc-tingg.php:195-249 | the result is "success" and the redirect is the checkout URL carrying the encrypted payload, the access key and the billing country, readable back; the order is not touched |
| `Notifications.IsHandled` | osen-wc-tingg.php:260 | only 176 and 178 are handled; what handling does is stated by `Notifications.ExpectedCalls` and `Gateway.TinggGateway.Webhook` |
| `Notifications.NoteFor` | osen-wc-tingg.php:269-275 | every note starts with "Order #" |
| `Notifications.ParseNote` | osen-wc-tingg.php:269-275 | whatever it reads back is a handled status and account whose note is exactly the input |
| `Notifications.NoteRoundTrip` | osen-wc-tingg.php:269-275 | the note for a handled status and account parses back to both |
| `Notifications.NoteMentionsAccount` | osen-wc-tingg.php:269-275 | the note names the account after "Order #" and says "paid in full" for 178, "partially paid" for 176 |
| `Notifications.Acknowledgement` | osen-wc-tingg.php:280-288 | an acknowledgement exists iff the code is 176 or 178, with status 183, "Payment accepted", receipt number = account number and both ids echoed |
| `Notifications.ExpectedCalls` | osen-wc-tingg.php:260-277 | no calls for other codes; three calls for 178 and two for 176; payment completion exactly once iff 178 and then first; stock reduced exactly once, followed by the note as the last call |
| `Notifications.Order.PaymentComplete` | osen-wc-tingg.php:263 | the order becomes paid, nothing else changes |
| `Notifications.Order.ReduceOrderStock` | osen-wc-tingg.php:266 | the stock-reduction count grows by one, nothing else changes |
| `Notifications.Order.AddOrderNote` | osen-wc-tingg.php:277 | the note is appended, nothing else changes |
| `Gateway.TinggGateway.Webhook` | osen-wc-tingg.php:254-291 | other codes leave the order unchanged with no acknowledgement; otherwise the calls are exactly the expected sequence, paid only for 178, stock reduced once, one note appended, and the acknowledgement returned |
| `Gateway.WebhookPaidInFullExample` | osen-wc-tingg.php:260-290 | a 178 notification for order 42 marks it paid, reduces stock once, adds the "paid in full" note and acknowledges with 183 echoing the request id; a following 999 notification is acknowledged with nothing and changes nothing |

## Left out

- Payload encryption (`includes/TinggPaymentGatewayUtils.php`): `ProcessPayment` takes the cipher as a function parameter. SHA-256 key and IV derivation, AES-256-CBC and the outer Base64 are foreign library calls and are not modelled.
- JSON: the payload's JSON encoding, the webhook body's decoding, reading the request body, `echo` and `exit` are I/O. The notification is given as a decoded record and the acknowledgement is returned as a value.
- Malformed webhook bodies (missing fields, unparseable JSON) are not modelled; the notification record always has all four fields.
- Order lookup: `wc_get_order` is the host's. The webhook receives the order object and takes it to be the one the host store returns for `n.accountNumber`; the model does not relate the two. A failed lookup, which in PHP makes the 176/178 branch fail with a fatal error, is not modelled. Likewise `OrderDetails` assumes that the payment step's own lookups succeed: the `wc_get_order($order_id)` call and each item's `get_product()`. A missing order or a deleted product, which in PHP ends that step with a fatal error, is not modelled.
- Host calls are inputs: `get_option` gives `Settings`, `get_page_by_path`/`get_permalink` give `HostContext.shopPageUrl`, `get_site_url` gives `HostContext.siteUrl`, `get_checkout_order_received_url` gives `OrderDetails.orderReceivedUrl`, and `wc_add_notice` becomes the returned notice list. `sanitize_text_field` is taken as already applied to the billing country.
- `Checkout.DueDate`: the clock is an integer timestamp in seconds. The `Y-m-d H:i:s` formatting, the time zone, and `strtotime`'s parsing of the payment-period option text are not modelled. The option is taken as an integer number of minutes.
- `Checkout.ItemLine`: quantities are integers. A fractional quantity, which `%d` would truncate, is not modelled.
- PHP loose comparison (`in_array`, `==`): status codes are integers and country codes are compared as exact strings.
- `Notifications.Order`: only the paid flag, the stock-reduction count, the notes and the call trace are kept. WooCommerce's own effects of `payment_complete` (status change, its own stock hooks) and the idempotency of repeated or concurrent webhook deliveries belong to the host order store.
- `init_form_fields`, `payment_scripts`, the hook registrations (`add_filter`, `add_action`) and `process_admin_options` are admin UI and script enqueueing. They have no behaviour that can be stated.
