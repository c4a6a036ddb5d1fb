# Cregis payments for WooCommerce, modelled in Dafny

The plugin connects a WooCommerce shop to the Cregis crypto payment engine.
This project models its three core classes and proves what they promise.

- **The API client (`Cregis_API`).** It signs every request with an md5 over a
  canonical string: `sign` is dropped, null and `''` values are dropped, the
  keys are sorted, and the secret is followed by `key.value` pieces. It builds
  the parameter maps of `create_payment` and `query_payment`, draws the
  six-character nonce, sorts the processor's reply into success or failure,
  and checks the signature of incoming webhooks.
- **The webhook (`Cregis_Webhook`).** `handle` rejects, acknowledges or
  reconciles a request. `get_order_by_order_id` finds the order through three
  sources in turn. Six handlers (paid, partial, over, expired, refunded,
  additional payment) change the order's status, metadata and notes in place.
- **The gateway (`WC_Gateway_Cregis`).** Its constructor reads the settings.
  `process_payment` assembles the order data, creates the Cregis payment, then
  either records it on the order, empties the cart and redirects, or shows a
  notice and fails. `add_payment_info_to_order_totals` inserts a
  crypto-payment row into the order totals. `process_refund` always refuses.

Modules:

- **PhpArray.** PHP arrays with string keys as ordered `(key, value)` entries.
  It covers assignment, `unset`, `array_filter`, `array_search`, `+` and
  `array_merge`. An array literal is written `Literal(keys, values)`.
- **KeyOrder.** `ksort` on string keys.
- **PhpValues.** PHP values, and the conversions the plugin relies on:
  `empty`, the string cast, `(int)`, `absint` and `is_numeric`.
- **Signer.** The signature.
- **CregisApi.** The client.
- **Orders.** The WooCommerce order, a class whose methods the handlers call.
  Each method is specified by a function on the order's value.
- **Webhook.** The webhook endpoint.
- **Gateway.** The gateway.

Both md5 and `wp_json_encode` are functions the signer is given: the fields
of `Signer.Primitives`. Nothing is required of them except where a lemma
says so, as `ValueChangeDetected` and `TamperedRejected` do with an injective
md5. The HTTP transport's reply, the JSON decoding of the webhook body and
the millisecond clock are inputs of the operations that use them.

Four behaviours of the code are easy to miss. Each is proved below.

- **Overpayment.** `handle_overpaid` has no paid guard. Every delivery
  rewrites `_cregis_status`, the transaction hash, the amount and the
  currency, and adds a note. Only `payment_complete` leaves a paid order's
  status alone (`OverpaymentRules`).
- **Partial payment.** `handle_partial_paid` has no paid guard either. A
  partial-payment event on an order that is already paid moves it back to
  on-hold (`PartialPaymentHolds`, `OnlyPartialPaymentUnpays`).
- **Failure notice.** When `create_payment` fails, `process_payment` shows
  the processor's `msg`, or the transport's error message, to the customer as
  it is (`PaymentOutcome`).
- **Nonce.** `generate_nonce` draws each index with `wp_rand`. The model
  leaves the index open and states only the length and the alphabet.

## Model

| member | source | states |
|---|---|---|
| PhpArray.Lookup | includes/class-cregis-api.php:151-155 | `$a[$k]` is present exactly when the key is. It is then the value stored under that key, the only one in an array with distinct keys. |
| PhpArray.Literal | includes/class-cregis-api.php:72-86 | An array literal holds its i-th key with its i-th value at position i. |
| PhpArray.Set | includes/class-cregis-api.php:89 | After `$a[$k] = $v`, `$k` reads `$v` and every other key reads as before. A new key is appended at the end; an existing key keeps its position. |
| PhpArray.SetEntries | includes/class-cregis-api.php:112 | Assigning into a proper array keeps keys distinct. The entries are the old ones without key `k`, plus `(k, v)`. |
| PhpArray.Filter | includes/class-cregis-api.php:37-39 | `array_filter` keeps exactly the accepted entries, in order. It never adds a key twice. |
| PhpArray.FilterAppend | includes/class-cregis-api.php:37-39 | Filtering a concatenation filters each part. |
| PhpArray.Unset | includes/class-cregis-api.php:35 | After `unset($a[$k])` the key is absent and every other entry remains. |
| PhpArray.UnsetAfterSet | includes/class-cregis-api.php:35 | Assigning a key and then unsetting it equals unsetting it alone. |
| PhpArray.UnsetTwice | includes/class-cregis-api.php:35 | Unsetting is idempotent. |
| PhpArray.KeyIndex | includes/class-cregis-gateway.php:334 | `array_search` over the keys gives the position of the first entry with the key, or nothing when no entry has it. |
| PhpArray.UnionSplice | includes/class-cregis-gateway.php:336-338 | For a proper array and a fresh key, slicing after position p and joining with `+` inserts the new entry right after p. Every other entry keeps its place. |
| PhpArray.Union | includes/class-cregis-gateway.php:336-338 | Definition of `+` on arrays, without a contract of its own: the left array, then the right array's entries whose keys the left lacks. |
| PhpArray.Merge | includes/class-cregis-gateway.php:340 | Definition of `array_merge` for string keys, without a contract of its own: each right entry assigned into the left in turn. |
| KeyOrder.SortByKey | includes/class-cregis-api.php:41 | `ksort` returns a permutation of the entries (equal multisets). |
| KeyOrder.SortSorted | includes/class-cregis-api.php:41 | `ksort` of an array with distinct keys leaves the keys strictly increasing. |
| KeyOrder.SortedUnique | includes/class-cregis-api.php:41 | Two strictly sorted arrays with the same entries are identical, so the order after `ksort` depends on the entries alone. |
| PhpValues.Get | includes/class-cregis-webhook.php:58-60 | `$v[$k] ?? null` gives the stored value when the key is present. It gives null when a keyed array lacks the key, and on anything that is not a keyed array. |
| PhpValues.IsEmpty | includes/class-cregis-api.php:88-102 | Definition of `empty()`, without a contract of its own: null, false, 0, "", "0" and the empty array. |
| PhpValues.IntVal | includes/class-cregis-webhook.php:320-322 | Definition of the integer conversion, without a contract of its own: a string reads its leading sign and digits; `DecimalRoundTrip` states its round trip. |
| PhpValues.IsNumeric | includes/class-cregis-webhook.php:320 | Definition of `is_numeric` on text, without a contract of its own: optional surrounding whitespace and sign around a decimal number; `DecimalIsNumeric` states it accepts every integer's text. |
| PhpValues.SanitizeText | includes/class-cregis-api.php:74 | A string is kept as it is; an array or null becomes "". |
| PhpValues.AbsInt | includes/class-cregis-api.php:80 | `absint` of an integer is its magnitude. It is 0 exactly when the integer conversion is 0. |
| PhpValues.DecimalIsNumeric | includes/class-cregis-webhook.php:320 | The decimal text of every integer, negative ones included, passes `is_numeric`. |
| PhpValues.DecimalRoundTrip | includes/class-cregis-gateway.php:210 | The integer conversion of `strval($i)` gives back `$i`, for every integer. |
| Signer.Canonical | includes/class-cregis-api.php:33-41 | The signed entries are exactly those whose key is not `sign` and whose value is neither null nor "". |
| Signer.CanonicalSorted | includes/class-cregis-api.php:41 | The signed entries are in strictly increasing key order. |
| Signer.SigningEntries | includes/class-cregis-api.php:33-41 | The `unset`, `array_filter` and `ksort` steps on the copy yield the canonical entries. |
| Signer.BuildSignString | includes/class-cregis-api.php:43-49 | The `foreach` loop yields the secret followed by `key . value` for every entry in order, with an array value replaced by its JSON text. |
| Signer.GenerateSignature | includes/class-cregis-api.php:32-52 | `generate_signature` returns md5 of the secret followed by the pieces of the canonical entries. |
| Signer.Signature | includes/class-cregis-api.php:32-52 | Definition of the signature, without a contract of its own: md5 of the string built from the canonical entries. |
| Signer.SignFieldIgnored | includes/class-cregis-api.php:33-35 | A map signs the same whatever its `sign` entry holds, and the same without one. |
| Signer.EmptyEntryIgnored | includes/class-cregis-api.php:37-39 | Adding a null or "" entry under a new key never changes the signature. |
| Signer.FilledEntrySigned | includes/class-cregis-api.php:37-39 | Every other value, including 0, "0" and false, is among the signed entries. |
| Signer.InsertionOrderIrrelevant | includes/class-cregis-api.php:41 | Two maps with the same entries have the same canonical entries and the same signature, whatever their insertion order. |
| Signer.ValueChangeDetected | includes/class-cregis-api.php:43-51 | If md5 is injective, changing a signed value to one with a different text changes the signature. |
| Signer.KeyValueBoundaryAmbiguous | includes/class-cregis-api.php:48 | The signed string has no separator between key and value, so `{"ab": "c"}` and `{"a": "bc"}` produce the same string. |
| CregisApi.TrailingSlash | includes/class-cregis-api.php:23 | `trailingslashit` ends the URL in exactly one '/'. It removes only the trailing slashes and backslashes the URL had. |
| CregisApi.TrailingSlashIdempotent | includes/class-cregis-api.php:23 | Applying `trailingslashit` twice equals applying it once. |
| CregisApi.NewApi | includes/class-cregis-api.php:22-27 | The client's base URL is `trailingslashit` of the URL's text, so it ends in exactly one '/'. Its key is the sanitized key, and its pid is `absint` of the pid, whether given as an integer or as the string the settings hold. |
| CregisApi.GenerateNonce | includes/class-cregis-api.php:57-63 | The nonce has exactly the requested length, and every character comes from the 62-letter `a-zA-Z0-9` alphabet. |
| CregisApi.Classify | includes/class-cregis-api.php:178-225 | The cases of `make_request`: a transport error carries its message; a non-200 status or an `empty()` decoded body (such as `0`, `[]`, `{}`, `null`, or JSON that does not decode) gives 'Invalid API response'; a `code` other than '00000' gives failure carrying `msg` (or 'API error' without one) and that code; anything else, including a missing `code`, gives success with `data`, or an empty array when `data` is missing. |
| CregisApi.VerifyWebhookSignature | includes/class-cregis-api.php:150-158 | A payload without `sign` fails. A payload passes only if it is an array whose `sign` is the signature of its own fields. |
| CregisApi.SignedVerifies | includes/class-cregis-api.php:150-158 | Every map signed as at line 112 passes the webhook check (sign/verify round trip). |
| CregisApi.TamperedRejected | includes/class-cregis-api.php:150-158 | If md5 is injective, changing one signed value of a signed map after signing makes the check fail. |
| CregisApi.StaleSignRejected | includes/class-cregis-api.php:155-158 | A payload whose `sign` differs from the signature of its fields fails the check. |
| CregisApi.VerifyOrderIndependent | includes/class-cregis-api.php:150-158 | Two payloads with the same fields verify alike, whatever the field order. |
| CregisApi.PaymentBaseKeys | includes/class-cregis-api.php:72-86 | The `create_payment` literal names no key twice, no optional field and not `sign`. |
| CregisApi.AssignOptional | includes/class-cregis-api.php:88-110 | Each conditional assignment appends its field exactly when the field is sent, and otherwise leaves the parameters as they were. |
| CregisApi.AddOptionalFields | includes/class-cregis-api.php:88-110 | The six conditional assignments, in source order, append exactly the optional fields that are sent. |
| CregisApi.WithExtrasShape | includes/class-cregis-api.php:88-110 | The parameters have distinct keys. They hold exactly the literal's entries and the optional fields that are sent, each with its entry. |
| CregisApi.CreatePayment | includes/class-cregis-api.php:69-120 | `create_payment` sends the payment parameters, signed, to `api/v2/checkout` under a valid 6-character nonce. It returns the classification of the reply. |
| CregisApi.PaymentParamsProper | includes/class-cregis-api.php:72-110 | Before signing, the payment parameters have distinct keys and no `sign`. |
| CregisApi.PaymentParams | includes/class-cregis-api.php:72-110 | Definition of the unsigned `create_payment` parameters, without a contract of its own: the literal followed by the optional fields that are sent. |
| CregisApi.PaymentParamsFixed | includes/class-cregis-api.php:72-86 | Every key of the literal (pid, order_id, amount, currency, payer fields, valid_time, the URLs, nonce, timestamp) is sent with the literal's value. |
| CregisApi.PaymentParamsOptional | includes/class-cregis-api.php:88-110 | An optional field is among the parameters exactly when it is sent, and then with its entry; otherwise it is absent. |
| CregisApi.OptionalTextRules | includes/class-cregis-api.php:88-102 | `remark`, `tokens`, `language` and `order_details` are sent exactly when the input is not `empty()`. `tokens` and `order_details` are sent as JSON text, the other two as sanitized text. |
| CregisApi.OptionalFlagRules | includes/class-cregis-api.php:104-110 | The partial and over flags are sent exactly when `isset()`, and then as the text 'true' or 'false' by truthiness. |
| CregisApi.AssignId | includes/class-cregis-api.php:134-140 | An identifier is appended, sanitized, exactly when it is truthy. |
| CregisApi.QueryPayment | includes/class-cregis-api.php:125-145 | `query_payment` sends the query parameters, signed, to `api/v2/checkout/query` under a valid nonce. It returns the classification of the reply. |
| CregisApi.QueryParamsProper | includes/class-cregis-api.php:128-140 | The query parameters have distinct keys and no `sign`. |
| CregisApi.QueryParams | includes/class-cregis-api.php:128-140 | Definition of the unsigned `query_payment` parameters, without a contract of its own: pid, nonce and timestamp, then each truthy identifier. |
| CregisApi.QueryParamsFixed | includes/class-cregis-api.php:128-132 | A query always carries `pid`, `nonce` and `timestamp`. |
| CregisApi.QueryParamsIds | includes/class-cregis-api.php:134-140 | `cregis_id` and `order_id` are present exactly when the argument is truthy, then sanitized; otherwise absent. |
| Orders.WithMeta | includes/class-cregis-webhook.php:121 | `update_meta_data` sets one key. Every other key, the status, the notes and the transaction id are unchanged. |
| Orders.StatusUpdated | includes/class-cregis-webhook.php:159 | `update_status` sets the status. Only an actual change appends a transition note with the reason. Metadata and transaction id are unchanged. |
| Orders.WithNote | includes/class-cregis-webhook.php:130-135 | `add_order_note` appends one note and changes nothing else. |
| Orders.PaidNotCompletable | includes/class-cregis-webhook.php:116 | A paid order (processing or completed) is never in a status `payment_complete` acts on, and the reverse. |
| Orders.PaymentCompletedEffect | includes/class-cregis-webhook.php:128 | On an on-hold, pending, failed or cancelled order, `payment_complete` moves the order to processing or completed, writes one transition note, keeps the metadata and takes a non-empty transaction id. On any other order it changes nothing. |
| Orders.PaymentCompletedIdempotent | includes/class-cregis-webhook.php:128 | A second `payment_complete` changes nothing. |
| Orders.PaymentCompleted | includes/class-cregis-webhook.php:128 | Definition of `payment_complete` on the order's value, without a contract of its own: an on-hold, pending, failed or cancelled order takes a non-empty transaction id and moves to processing or completed; any other order is unchanged. |
| Orders.Order.UpdateMetaData | includes/class-cregis-webhook.php:121 | The order's new value is `WithMeta` of its old value. |
| Orders.Order.UpdateStatus | includes/class-cregis-webhook.php:159 | The order's new value is `StatusUpdated` of its old value. |
| Orders.Order.AddOrderNote | includes/class-cregis-webhook.php:130-135 | The order's new value is `WithNote` of its old value. |
| Orders.Order.PaymentComplete | includes/class-cregis-webhook.php:128 | The order's new value is `PaymentCompleted` of its old value. |
| Orders.NewestByNumber | includes/class-cregis-webhook.php:297-313 | The meta query finds an order whose `_order_number` matches, created no earlier than any other match. It finds none exactly when no order matches. |
| Orders.IdByOrderKey | includes/class-cregis-webhook.php:315 | The result is 0 exactly when no order has the key. Otherwise it is the id of the first order holding the key. |
| Orders.FindById | includes/class-cregis-webhook.php:317 | `wc_get_order` finds an order with that id, and finds none exactly when no order has it. |
| Orders.FindByIdUnique | includes/class-cregis-webhook.php:317 | In a store with distinct ids, `wc_get_order` of an order's id gives that order. |
| Orders.KeyGivesId | includes/class-cregis-webhook.php:315 | In a store with distinct order keys, the key lookup gives the id of the order holding the key. |
| Webhook.EventOf | includes/class-cregis-webhook.php:67-94 | The six event types are recognised, and every other type is unknown. |
| Webhook.OnPaid | includes/class-cregis-webhook.php:116-135 | Definition of `handle_paid` on the order found, without a contract of its own: a paid order is unchanged; otherwise five payment fields, `payment_complete` and a note. |
| Webhook.OnPartialPaid | includes/class-cregis-webhook.php:153-168 | Definition of `handle_partial_paid` on the order found, without a contract of its own: four keys, on-hold, a note. |
| Webhook.OnOverpaid | includes/class-cregis-webhook.php:186-201 | Definition of `handle_overpaid` on the order found, without a contract of its own: four keys, `payment_complete`, a note. |
| Webhook.OnExpired | includes/class-cregis-webhook.php:219-225 | Definition of `handle_expired` on the order found, without a contract of its own: a paid order is unchanged; otherwise cancelled, with a note. |
| Webhook.OnRefunded | includes/class-cregis-webhook.php:240-252 | Definition of `handle_refunded` on the order found, without a contract of its own: three refund keys and a note. |
| Webhook.OnAdditionalPayment | includes/class-cregis-webhook.php:270-285 | Definition of `handle_additional_payment` on the order found, without a contract of its own: two keys, `payment_complete` unless paid, a note. |
| Webhook.DuplicatePaidIgnored | includes/class-cregis-webhook.php:116-128 | A paid event leaves a paid order as it is. It pays an order awaiting payment, after which a repeated paid event changes nothing. |
| Webhook.PaidRecordsPayment | includes/class-cregis-webhook.php:121-135 | On an unpaid order, a paid event writes the five payment fields, takes the transaction id and ends with the note naming the transaction hash. |
| Webhook.PaidLeavesRefundedOrder | includes/class-cregis-webhook.php:116-128 | On a refunded order, a paid event records the hash but leaves the status and the transaction id alone. |
| Webhook.ExpiryRules | includes/class-cregis-webhook.php:219-225 | Expiry leaves a paid order untouched and cancels an unpaid one without touching its metadata. A later paid event still pays the cancelled order. |
| Webhook.PartialPaymentHolds | includes/class-cregis-webhook.php:153-159 | A partial payment writes exactly `partial_paid`, the hash, the amount and the currency. It keeps the transaction id and puts the order on hold, even one already paid. |
| Webhook.OverpaymentRules | includes/class-cregis-webhook.php:186-192 | An overpayment writes exactly `overpaid`, the hash, the amount and the currency. It pays an order awaiting payment and takes a non-empty hash as its transaction id. On a paid order it keeps the status and the transaction id. |
| Webhook.RefundKeepsStatus | includes/class-cregis-webhook.php:240-252 | A refund writes exactly the three refund keys and never changes the status or the transaction id. |
| Webhook.AdditionalPaymentGuard | includes/class-cregis-webhook.php:270-276 | An additional payment writes exactly its two keys. It completes only an order that is not yet paid, and an order awaiting payment takes a non-empty `additional_payment_tx_id` as its transaction id. On a paid order it keeps the status and the transaction id. |
| Webhook.ReconcileOnlyAdds | includes/class-cregis-webhook.php:109-291 | Every handler keeps the order's notes as a prefix and removes no metadata key. |
| Webhook.OnlyPartialPaymentUnpays | includes/class-cregis-webhook.php:109-291 | On a paid order, every handler except partial payment keeps the status. |
| Webhook.OrderByOrderId | includes/class-cregis-webhook.php:296-325 | The order found is in the store and matches the argument: it carries the `_order_number`, or has the id of an order holding the key, or has the numeric id. |
| Webhook.OrderLookupFails | includes/class-cregis-webhook.php:296-325 | The lookup fails exactly when no order has the number, no order has the key, and the argument is not numeric or no order has its id. |
| Webhook.OrderNumberFirst | includes/class-cregis-webhook.php:297-313 | When some order carries the `_order_number`, the lookup returns the newest such order, whatever the key and id sources would give. |
| Webhook.OrderFoundByKey | includes/class-cregis-webhook.php:311-318 | When no order carries the number, the order holding the key is the one found, in a store with distinct ids and keys. |
| Webhook.OrderFoundById | includes/class-cregis-webhook.php:311-322 | When no order carries the number or the key, a numeric argument finds the order with that id, in a store with distinct ids. |
| Webhook.DecisionRules | includes/class-cregis-webhook.php:28-97 | An empty body gets 400 'Invalid payload' and undecodable JSON 400 'Invalid JSON'. A bad signature gets 401. Only an authentic `order` event of a known type is reconciled, with its `data`. |
| Webhook.AuthenticEventReconciled | includes/class-cregis-webhook.php:57-91 | An authentic payload naming a known order event is reconciled with its `data`. |
| Webhook.SignedEventReconciled | includes/class-cregis-webhook.php:51-91 | A payload signed with the merchant's key and naming a known order event is reconciled. |
| Webhook.OtherEventsAcknowledged | includes/class-cregis-webhook.php:62-97 | An authentic event not named `order`, or of an unknown type, is only acknowledged. |
| Webhook.Decide | includes/class-cregis-webhook.php:28-97 | Only an authentic payload with a non-empty body is acknowledged or reconciled. Every other request is rejected, with 400 or 401. |
| Webhook.HandlePaid | includes/class-cregis-webhook.php:109-141 | The order's new value is `OnPaid` of its old value. |
| Webhook.HandlePartialPaid | includes/class-cregis-webhook.php:146-174 | The order's new value is `OnPartialPaid` of its old value. |
| Webhook.HandleOverpaid | includes/class-cregis-webhook.php:179-207 | The order's new value is `OnOverpaid` of its old value. |
| Webhook.HandleExpired | includes/class-cregis-webhook.php:212-228 | The order's new value is `OnExpired` of its old value. |
| Webhook.HandleRefunded | includes/class-cregis-webhook.php:233-258 | The order's new value is `OnRefunded` of its old value. |
| Webhook.HandleAdditionalPayment | includes/class-cregis-webhook.php:263-291 | The order's new value is `OnAdditionalPayment` of its old value. |
| Webhook.ReconcileOrder | includes/class-cregis-webhook.php:67-91 | The handler that runs is the one chosen by the event type. |
| Webhook.Dispatch | includes/class-cregis-webhook.php:99-114 | A failed lookup gives 500 'Processing error' and changes no order. Otherwise exactly the order found is reconciled, with 200 'success'. |
| Webhook.Handle | includes/class-cregis-webhook.php:28-104 | Rejections and acknowledgements change no order. A failed lookup for a reconciled event gives 500 and changes no order. Otherwise only the order found changes, as its handler specifies. |
| Gateway.GetOption | includes/class-cregis-gateway.php:43-52 | A saved value wins, and a missing setting reads its form-field default. A given empty value replaces exactly a value that is ""; without one, "" is returned as it is. |
| Gateway.NewGateway | includes/class-cregis-gateway.php:43-52 | A saved title, description, API URL, key or pid is used as saved. The valid time, accepted tokens and language use a non-empty saved value. When the setting is missing or "" they fall back to '60', an empty array or 'en', so they are never "". |
| Gateway.AcceptFlagRules | includes/class-cregis-gateway.php:51-52 | Partial and over payments are accepted exactly when the option is 'yes', missing or empty. |
| Gateway.DefaultSettings | includes/class-cregis-gateway.php:43-52 | With nothing saved, the gateway uses the form-field defaults: title, API URL, valid time 60, language en, no tokens, both flags on. |
| Gateway.ItemRows | includes/class-cregis-gateway.php:227-237 | There is one item entry per line item, in order. |
| Gateway.ItemRowId | includes/class-cregis-gateway.php:231 | The `item_id` text reads back as the product id, or 0 without a product. |
| Gateway.ItemRowFields | includes/class-cregis-gateway.php:232-235 | Each item entry carries the item's name and quantity and the order's currency. |
| Gateway.BuildItems | includes/class-cregis-gateway.php:227-237 | The `foreach` yields the item entries of all line items, in order. |
| Gateway.OrderOptionsLookup | includes/class-cregis-gateway.php:223-245 | `tokens` is present only when configured and `order_details` only when there are items. Every other key reads as in the literal. |
| Gateway.OrderDataTokens | includes/class-cregis-gateway.php:223-225 | The order data holds `tokens` exactly when tokens are configured. |
| Gateway.OrderDataDetails | includes/class-cregis-gateway.php:239-245 | The order data holds `order_details` exactly when the order has line items. |
| Gateway.OrderDataRemark | includes/class-cregis-gateway.php:217 | The remark is 'Order #' followed by the order number. |
| Gateway.OrderDataLanguage | includes/class-cregis-gateway.php:218 | The order data carries the configured language. |
| Gateway.OrderDataFlags | includes/class-cregis-gateway.php:219-220 | The order data carries both settings flags as booleans. |
| Gateway.PayerIdRule | includes/class-cregis-gateway.php:210 | The payer is the customer id, as text that reads back as that id, or the billing e-mail for a guest. |
| Gateway.PaymentRequestFlags | includes/class-cregis-gateway.php:219-220 | The payment request always carries both flags, as 'true' or 'false' according to the settings. |
| Gateway.PaymentRequestRemark | includes/class-cregis-gateway.php:217 | The payment request always carries the remark naming the order number. |
| Gateway.PaymentRequestTokens | includes/class-cregis-gateway.php:223-225 | The payment request carries tokens exactly when tokens are configured. |
| Gateway.PaymentRequestDetails | includes/class-cregis-gateway.php:239-245 | The payment request carries order details exactly when the order has line items. |
| Gateway.PaymentCreatedEffect | includes/class-cregis-gateway.php:255-261 | A created payment writes exactly the four Cregis keys, leaves the order pending, keeps the transaction id and keeps the earlier notes. |
| Gateway.CreatedOrderAwaitsWebhook | includes/class-cregis-gateway.php:261 | A paid webhook pays the pending order a created payment leaves, and an expiry cancels it. |
| Gateway.Session.AddNotice | includes/class-cregis-gateway.php:200 | `wc_add_notice` appends one notice and leaves the cart. |
| Gateway.Session.EmptyCart | includes/class-cregis-gateway.php:263 | The cart is emptied and the notices stay. |
| Gateway.ProcessPayment | includes/class-cregis-gateway.php:196-284 | A missing order gives an 'Order not found' notice and failure, with no request. A found order gets the signed payment request. Failure adds the error notice and changes neither the order nor the cart. Success records the payment, empties the cart and redirects to `checkout_url`. |
| Gateway.PayOrder | includes/class-cregis-gateway.php:204-273 | For an order found, the request is sent and its outcome applied as `PaymentOutcome` states. |
| Gateway.RequestPayment | includes/class-cregis-gateway.php:205-247 | The API client is built from the settings and `create_payment` is called with the order number and the order data. |
| Gateway.Settle | includes/class-cregis-gateway.php:249-283 | A failure shows the error and changes no order or cart. A success records the payment, empties the cart and redirects. |
| Gateway.BuildOrderData | includes/class-cregis-gateway.php:207-245 | The assembled array equals the order data: the literal, then `tokens`, then `order_details`. |
| Gateway.RecordPayment | includes/class-cregis-gateway.php:255-261 | The order's new value is `PaymentCreated` of its old value. |
| Gateway.PaymentInfoSkipped | includes/class-cregis-gateway.php:318-326 | The rows are unchanged for another gateway's order, or when the hash, amount or currency is empty. |
| Gateway.AddPaymentInfo | includes/class-cregis-gateway.php:317-345 | Definition of `add_payment_info_to_order_totals`, without a contract of its own: the rows unchanged, or the crypto-payment row spliced in after `payment_method` or merged at the end. |
| Gateway.PaymentInfoAfterMethod | includes/class-cregis-gateway.php:334-338 | The crypto-payment row goes directly after the `payment_method` row, and every other row keeps its place. |
| Gateway.PaymentInfoAppended | includes/class-cregis-gateway.php:339-341 | Without a `payment_method` row, the crypto-payment row is appended at the end. |
| Gateway.ProcessRefund | includes/class-cregis-gateway.php:350-364 | A refund is never made. The error is 'Order not found' exactly when the order is missing, and otherwise points to the Cregis dashboard. |

## Left out

- md5 (RFC 1321) and `wp_json_encode` (RFC 8259 JSON) are uninterpreted functions. Only their inputs are specified.
- `hash_equals` is plain string equality. Its constant-time behaviour cannot be stated in this model.
- CregisApi.VerifyWebhookSignature: a `sign` that is not a string fails as a mismatch. PHP's `hash_equals` raises a TypeError instead, and that error is outside the model.
- `sanitize_text_field` is the string cast (arrays give ""). Tag stripping and whitespace folding are not modelled.
- `sanitize_email` and `esc_url_raw` are treated like `sanitize_text_field`. `esc_html` in the totals row is the identity.
- `__()` and `sprintf` are modelled by their English text. Translations are not modelled.
- The integer conversion of a string reads only its leading sign and digits, so a float or exponent string such as "1e3" reads as its leading integer. Floats are not modelled.
- The floats are left out: `item_price` (line total divided by quantity), `shopping_cost` and `tax_cost`.
- Logging is left out. The logger is not part of this model.
- `$order->save()` is left out. An order's state is its in-memory object, and persistence is not modelled.
- Orders.PaymentCompletedEffect: states only the status, the transaction id and the transition note of `payment_complete`. WooCommerce's stock, e-mail, hook and paid-date effects are outside this model.
- The creation of an order is not modelled, and neither are statuses beyond the seven built-in ones. The fields the plugin only reads are constants, including whether the order needs processing.
- Gateway.GetOption: WooCommerce's settings storage is reduced to a map of saved values and the form-field defaults.
- Orders.NewestByNumber: among equally recent orders the earliest in the store wins. WooCommerce's tie-break is not modelled. The meta query compares by the string form of the id.
- Orders.NewestByNumber: the `_order_number` match is exact string equality. WordPress runs the meta query in SQL under its default case-insensitive collation, which also ignores trailing spaces, so an `order_id` such as "123 " finds the order there and misses it here. Here it falls through to the key and numeric-id sources.
- Orders.IdByOrderKey: the order key match is exact string equality. `wc_get_order_id_by_order_key` compares in SQL under the same collation, so a key differing only in letter case or trailing spaces finds the order there and misses it here.
- KeyOrder.Less: `ksort` is modelled as byte-wise `strcmp` order on string keys. `json_decode` turns a decimal key such as "10" into an integer key, and `ksort` compares such keys numerically. So a webhook payload with keys "9" and "10" is signed in the order 9, 10 by PHP and 10, 9 here. The keys the plugin signs itself are never decimal.
- An order's id is positive, as WooCommerce assigns it. The lemmas `OrderFoundByKey` and `OrderFoundById` are stated for a store whose ids and order keys are distinct, as WooCommerce keeps them.
- Webhook.OrderByOrderId: the third source requires a positive integer conversion. A numeric string with a fraction is truncated, as `wc_get_order` receives it.
- The paid guard and the write that follows it are not atomic under concurrent duplicate webhooks. That race is concurrency, which this sequential model leaves out. The guard checks only the status, not the transaction hash.
- `wp_rand` is a choice the nonce generator leaves open: no claim of unbiasedness. `microtime` is a timestamp parameter. `wp_remote_request` and `json_decode` are inputs. `status_header` and `die` become the returned response.
- Hooks and UI are left out: `admin_options`, `thankyou_page`, `webhook_handler`, the constructor's hook registration and `is_available`. `init_form_fields` contributes only its defaults.
- A webhook `data` field, or an API response, that is not an array with string keys is read as having no keys.
- Gateway.Settle: the exception message is the string cast of the API error. The default 'Failed to create payment' cannot occur, because a failure always carries an error. An array error, which PHP would refuse with a TypeError, shows as "Array".
- Gateway.PaymentInfoAfterMethod: stated only for rows with distinct keys and no `crypto_payment` row. With such a row already present, `+` keeps the old row, and this case is not characterised by a lemma.
- Gateway.PaymentInfoAppended: stated only for rows without a `crypto_payment` row. With such a row already present, `array_merge` replaces it in place.
- `query_payment` is modelled, though no core caller uses it.
