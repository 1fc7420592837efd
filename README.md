# ActiveMerchant SecurePay and PayPal Express adapters in Dafny

This project models two payment-gateway adapters of ActiveMerchant and
proves what they send and what they answer.

- **SecurePay** (`secure_pay.rb`) is a form adapter.
  - `purchase`, `void` and `credit` fill a flat `post` hash and hand it to
    `commit`, which adds `amount` and `test_request`.
  - `post_data` puts five fixed fields first and writes `key=value` pairs
    joined by `&`.
  - The reply is split on `,` by `parse` and classified by `success?`,
    `fraud_review?` and `message_from`.
  - `purchase` is a small protocol. It sends a SALE, and it sends a
    compensating VOID when an approved sale's AVS code is not accepted.
- **PayPal Express** (`paypal_express.rb`) is an XML adapter.
  - `setup_authorization`, `setup_purchase`, `details_for`, `authorize` and
    `purchase` check required options and choose a command name.
  - `build_setup_request`, `build_get_details_request` and
    `build_sale_or_authorization_request` write the request document.

Modules:

- `RubyValues` (`ruby_values.dfy`): the Ruby values the adapters read
  (nil, booleans, strings, numbers, arrays, hashes), with truthiness,
  `blank?`, `to_s`, `||` and option lookup.
- `RubyStrings` (`ruby_strings.dfy`): `String#split` with its dropping of
  trailing empty fields, `join`, `strip`, `delete`, `slice`, `=~` on a
  literal, and `sprintf("%.2i")`.
- `OrderedHash` (`ordered_hash.dfy`): a Ruby Hash that keeps insertion
  order.
  - The pure `Store` and `Merge` are used as specifications.
  - The class `PostHash` is the mutable `post` hash that the helpers update
    in place.
- `Gateway` (`gateway.dfy`): `requires!` and the transport.
  - The transport is a class holding the log of every post sent.
  - It answers post number n through an oracle `respond(n, url, body)`.
- `SecurePay` (`secure_pay.dfy`): the form adapter.
  - The helpers `add_*`, `commit`, `purchase`, `void` and `credit` are
    methods over `PostHash` and `Transport`.
  - Each of them is proved equal to a pure function of the old state, and
    the properties are lemmas about those functions.
- `Xml` (`xml.dfy`): the element tree and the `Builder::XmlMarkup` buffer,
  as a class whose `Open`, `Close` and `TagText` append to the current
  element.
- `PaypalExpress` (`paypal_express.dfy`): the public operations as pure
  dispatch functions, the documents as pure trees, and the `build_*`
  methods.
  - Each `build_*` method writes into an `XmlMarkup` step by step, with
    loops over the line items.
  - Each is proved to return the pure tree.
- `PaypalExpressProperties` (`paypal_express_properties.dfy`): which
  elements each document holds, in which order and with which values.

The timeframe of a recurring purchase is `period.delete('ly')`. That call
removes every `l` and every `y` character; it does not strip an `ly` suffix,
so `"yearly"` becomes `"ear"` (`SecurePay.TimeframeYearly`).

## Model

| member | source | states |
|---|---|---|
| SecurePay.Parse | lib/active_merchant/billing/gateways/secure_pay.rb:177-189 | the response code is 0 or 1, and it is 0 exactly when the reply's first comma field is `"N"`; `:card_code` is never set |
| SecurePay.FirstFieldIsN | lib/active_merchant/billing/gateways/secure_pay.rb:179-182 | the first field of `split(',')` is `"N"` iff the reply is `"N"` or starts with `"N,"` |
| SecurePay.SplitFirstField | lib/active_merchant/billing/gateways/secure_pay.rb:179-182 | Ruby's split (trailing empty fields dropped) and the plain split agree on whether field 0 is `"N"` |
| SecurePay.ParseFields | lib/active_merchant/billing/gateways/secure_pay.rb:177-189 | for any reply of comma-free fields, the code is 0 iff field 0 is `"N"`; field i (1-4) becomes transaction id, reason text, AVS code or voidrecnum when it survives the dropping of trailing empty fields, and nil otherwise |
| SecurePay.ParseFullReply | lib/active_merchant/billing/gateways/secure_pay.rb:177-189 | a reply of five or more fields whose last field is not empty fills all four positions |
| SecurePay.ParseTrailingEmpty | lib/active_merchant/billing/gateways/secure_pay.rb:177-189 | `"Y,1,OK,X,"` has AVS code `"X"` and a nil voidrecnum, because its empty last field is dropped |
| SecurePay.ParseInnerEmpty | lib/active_merchant/billing/gateways/secure_pay.rb:177-189 | `"Y,1,,X,5"` has the reason text `""` (an inner empty field is kept) and voidrecnum `"5"` |
| SecurePay.ParseSingleField | lib/active_merchant/billing/gateways/secure_pay.rb:177-189 | a reply without a comma leaves fields 1-4 nil rather than failing, and is declined iff it is exactly `"N"` |
| SecurePay.AvsResultCode | lib/active_merchant/billing/gateways/secure_pay.rb:162 | the AVS result keeps nil for a missing or blank code and the upper-case form of any other code |
| SecurePay.AvsResultCodeStable | lib/active_merchant/billing/gateways/secure_pay.rb:162 | a code the AVS result kept is already in normal form |
| SecurePay.AvsResultCodeExamples | lib/active_merchant/billing/gateways/secure_pay.rb:162 | `"y"` becomes `"Y"` and `" "` becomes nil |
| SecurePay.LowerCaseAvsCodeAccepted | lib/active_merchant/billing/gateways/secure_pay.rb:77 | with `"Y"` valid, the approved reply `"Y,1,OK,y,5"` needs no VOID, because the comparison uses the AVS result's code |
| SecurePay.BlankAvsCodeIsNil | lib/active_merchant/billing/gateways/secure_pay.rb:162 | a blank AVS field gives the AVS result the code nil |
| RubyStrings.UpcaseChar | lib/active_merchant/billing/gateways/secure_pay.rb:162 | a lower-case ASCII letter becomes its capital; every other character is kept |
| RubyStrings.UpcaseIdempotent | lib/active_merchant/billing/gateways/secure_pay.rb:162 | upcasing twice is upcasing once |
| RubyStrings.UpcaseBlank | lib/active_merchant/billing/gateways/secure_pay.rb:162 | upcasing neither makes nor unmakes a blank string |
| SecurePay.MessageFrom | lib/active_merchant/billing/gateways/secure_pay.rb:247-256 | for a code other than DECLINED the message is the reason text, or `""` when it is nil; for DECLINED it is the CVV message of a card-code error, else the AVS message of an AVS error, else again the reason text or `""` |
| SecurePay.CommitResponse | lib/active_merchant/billing/gateways/secure_pay.rb:140-175 | the response succeeds iff the reply does not open with field `"N"`; it is never a fraud review; its message is always the reason text; it is a test response iff `test?` or the message contains TESTMODE; authorization and stripped voidrecnum come from the parsed fields; the AVS code is the AVS result's code of the parsed field (`AvsResultCode`) |
| SecurePay.Exchange | lib/active_merchant/billing/gateways/secure_pay.rb:138-167 | an exchange fails exactly when `ssl_post` raised, and otherwise yields the response of the reply body |
| SecurePay.Url | lib/active_merchant/billing/gateways/secure_pay.rb:8-9 | the test URL and the live URL are the same address |
| SecurePay.TestRequestFlag | lib/active_merchant/billing/gateways/secure_pay.rb:134 | `test_request` is `'TRUE'` iff `@options[:test]` is truthy, and `'FALSE'` otherwise |
| SecurePay.FixedFieldsFacts | lib/active_merchant/billing/gateways/secure_pay.rb:192-197 | the fixed fields are `tr_type`, `merch_id`, `transkey`, `cc_method` and `avsreq`, in that order, and `tr_type` is the action |
| SecurePay.PostPairsFacts | lib/active_merchant/billing/gateways/secure_pay.rb:199 | the merged hash starts with the five fixed keys, and a parameter of the same key overrides the fixed value; every other key comes from the parameters |
| SecurePay.PostDataSplits | lib/active_merchant/billing/gateways/secure_pay.rb:199 | when escaping never yields `&`, splitting the body on `&` gives back exactly one `key=escaped value` pair per key, in order |
| SecurePay.PostDataLeadsWithAction | lib/active_merchant/billing/gateways/secure_pay.rb:193-199 | without a `tr_type` parameter, the body opens with `tr_type=` and the escaped action |
| SecurePay.KeyNamesPlain | lib/active_merchant/billing/gateways/secure_pay.rb:199 | no parameter name contains `&` or `=` |
| SecurePay.InvoiceFields | lib/active_merchant/billing/gateways/secure_pay.rb:203-206 | `comment1` is `:order_id` and `comment2` is `:description`; no other key changes |
| SecurePay.InvoiceOrder | lib/active_merchant/billing/gateways/secure_pay.rb:203-206 | on a hash without later keys, the two keys are appended in that order |
| SecurePay.AddInvoice | lib/active_merchant/billing/gateways/secure_pay.rb:203-206 | the method updates the hash in place to the pure invoice step of its old contents |
| SecurePay.CreditCardFields | lib/active_merchant/billing/gateways/secure_pay.rb:208-214 | `cc_number` is the number; `cvv2` is written only when a verification value exists; `year` is characters 2-3 of the year string; `month` is two-digit zero-padded; `name` is first and last name joined by a space |
| RubyValues.DigitsRoundTrip | lib/active_merchant/billing/gateways/secure_pay.rb:212 | the decimal digits written for a number read back as that number |
| RubyStrings.TwoDigitsReadsBack | lib/active_merchant/billing/gateways/secure_pay.rb:212 | `sprintf("%.2i", month)` writes only digits, and they read back as the month |
| SecurePay.CreditCardOrder | lib/active_merchant/billing/gateways/secure_pay.rb:208-214 | the card keys are appended in source order, `cvv2` only when present |
| SecurePay.AddCreditCard | lib/active_merchant/billing/gateways/secure_pay.rb:208-214 | the method updates the hash in place to the pure card step of its old contents |
| SecurePay.CustomerDataFields | lib/active_merchant/billing/gateways/secure_pay.rb:216-218 | `email` is `:email`, and nothing else changes |
| SecurePay.AddCustomerData | lib/active_merchant/billing/gateways/secure_pay.rb:216-218 | the method updates the hash in place to the pure e-mail step of its old contents |
| SecurePay.AddressOf | lib/active_merchant/billing/gateways/secure_pay.rb:221 | the billing address is used when truthy, the address otherwise |
| SecurePay.AddressFields | lib/active_merchant/billing/gateways/secure_pay.rb:220-227 | with no truthy address the hash is unchanged; otherwise `street`, `zip` and `city` are the `to_s` of the address fields and `state` is the raw field |
| SecurePay.AddressOrder | lib/active_merchant/billing/gateways/secure_pay.rb:220-227 | the four address keys are appended in order only when an address exists |
| SecurePay.AddAddress | lib/active_merchant/billing/gateways/secure_pay.rb:220-227 | the method updates the hash in place to the pure address step of its old contents |
| SecurePay.TimeframeOf | lib/active_merchant/billing/gateways/secure_pay.rb:233 | the timeframe of a String period is that string with its characters `l` and `y` deleted (`RubyStrings.DeleteChars`), so it contains neither, and a period without either is kept as it is |
| SecurePay.TimeframeMonthly | lib/active_merchant/billing/gateways/secure_pay.rb:233 | `"monthly".delete('ly')` is `"month"` |
| SecurePay.TimeframeYearly | lib/active_merchant/billing/gateways/secure_pay.rb:233 | `"yearly".delete('ly')` is `"ear"`: characters are deleted, not a suffix |
| SecurePay.RecurringDataFields | lib/active_merchant/billing/gateways/secure_pay.rb:230-234 | `recurring` is `'Yes'`, `rec_amount` is `amount(money)` and `timeframe` is the period with `l` and `y` deleted |
| SecurePay.AddRecurringData | lib/active_merchant/billing/gateways/secure_pay.rb:230-234 | the method updates the hash in place to the pure recurring step of its old contents |
| SecurePay.RecurringFields | lib/active_merchant/billing/gateways/secure_pay.rb:62 | the SALE post holds the recurring keys iff `:recurring_period` is truthy, with the values above |
| SecurePay.CommitFieldsFacts | lib/active_merchant/billing/gateways/secure_pay.rb:130-134 | commit sets `amount` for every action but VOID; a VOID keeps whatever amount the hash held; `test_request` is always set; nothing else changes |
| SecurePay.CommitFieldsOrder | lib/active_merchant/billing/gateways/secure_pay.rb:130-134 | commit appends `amount` (except for VOID) and then `test_request` |
| SecurePay.Commit | lib/active_merchant/billing/gateways/secure_pay.rb:130-167 | commit writes the two keys into the caller's hash, posts exactly one request (the URL and the body of the updated hash), and returns the exchange's outcome |
| SecurePay.SalePost | lib/active_merchant/billing/gateways/secure_pay.rb:57-62 | a fresh hash is filled by the helpers in source order, with the recurring step only when `:recurring_period` is truthy |
| SecurePay.SaleFieldOrder | lib/active_merchant/billing/gateways/secure_pay.rb:57-65 | the SALE parameters have invoice, card, address, e-mail, recurring, amount and `test_request` keys, in that order |
| SecurePay.SaleFieldsWellFormed | lib/active_merchant/billing/gateways/secure_pay.rb:57-65 | the SALE parameters hold each key once |
| SecurePay.MismatchResponse | lib/active_merchant/billing/gateways/secure_pay.rb:86-87 | the mismatch response fails, is a test response with empty params and no authorization, and carries the AVS message inside the fixed span text |
| SecurePay.AfterSaleShape | lib/active_merchant/billing/gateways/secure_pay.rb:68-88 | after the SALE nothing is sent iff the sale did not complete or needs no void; then the SALE outcome is returned; otherwise exactly one VOID of the void parameters is sent and the outcome is the mismatch response or the VOID's transport failure |
| SecurePay.PurchaseExchanges | lib/active_merchant/billing/gateways/secure_pay.rb:56-90 | a purchase makes one or two posts; the first is the SALE; there is one post iff the sale raised, failed, is a test order or its AVS result's code is valid, and then the SALE outcome is returned; the second post is the VOID |
| SecurePay.PurchaseDeclined | lib/active_merchant/billing/gateways/secure_pay.rb:65-69 | a SALE reply opening with `"N"` ends the purchase after one post with a failed response |
| SecurePay.VoidReusesSalePost | lib/active_merchant/billing/gateways/secure_pay.rb:81-82 | the VOID posts the SALE's own hash: every SALE key and value, including `amount` and `test_request`, plus `voidrecnum` as the stripped SALE voidrecnum |
| SecurePay.VoidFieldsFacts | lib/active_merchant/billing/gateways/secure_pay.rb:81-82 | the void parameters keep every key of the SALE hash and its values, except `voidrecnum` and `test_request` |
| SecurePay.FinishPurchase | lib/active_merchant/billing/gateways/secure_pay.rb:68-89 | the method's outcome and the posts it adds to the log are those of the specification of the steps after the SALE |
| SecurePay.SaleThenVoid | lib/active_merchant/billing/gateways/secure_pay.rb:65-89 | the SALE commit followed by the steps after it matches the specification of the run from the first commit on |
| SecurePay.Purchase | lib/active_merchant/billing/gateways/secure_pay.rb:56-90 | the outcome and the posts added to the log are those of the purchase specification |
| SecurePay.VoidRequest | lib/active_merchant/billing/gateways/secure_pay.rb:97-100 | a void sends one post whose parameters are `trans_id` then `test_request`, with no amount |
| SecurePay.Void | lib/active_merchant/billing/gateways/secure_pay.rb:97-100 | the method's outcome and posts are those of the void specification |
| SecurePay.CreditFieldOrder | lib/active_merchant/billing/gateways/secure_pay.rb:116-125 | the credit parameters are `trans_id`, `card_num`, `comment1`, `comment2`, `amount` and `test_request`, in that order, with the identification, the card number and the amount |
| SecurePay.CreditRequest | lib/active_merchant/billing/gateways/secure_pay.rb:116-125 | without `:card_number` nothing is sent and the outcome is the missing parameter; otherwise exactly one CREDIT post is sent |
| SecurePay.Credit | lib/active_merchant/billing/gateways/secure_pay.rb:116-125 | the method's outcome and posts are those of the credit specification |
| Gateway.FirstMissing | lib/active_merchant/billing/gateways/paypal_express.rb:17 | the first missing required key is reported, in the order the keys are listed |
| PaypalExpress.SetupAuthorization | lib/active_merchant/billing/gateways/paypal_express.rb:16-20 | fails iff `:return_url` or `:cancel_return_url` is missing, naming the first; otherwise always commits `SetExpressCheckout` with the Authorization setup document |
| PaypalExpress.SetupPurchase | lib/active_merchant/billing/gateways/paypal_express.rb:22-30 | the same `requires!` check; the command is `SetMobileCheckout` iff `options[:mobile] == true`, and `SetExpressCheckout` otherwise |
| PaypalExpress.DetailsFor | lib/active_merchant/billing/gateways/paypal_express.rb:32-38 | always commits; the mobile command is chosen iff `in_mobile_view` is truthy, and the document is then empty |
| PaypalExpress.Authorize | lib/active_merchant/billing/gateways/paypal_express.rb:40-47 | fails iff `:token` or `:payer_id` is missing, naming the first; the command is `DoMobileCheckoutPayment` iff `options[:mobile] == true` |
| PaypalExpress.Purchase | lib/active_merchant/billing/gateways/paypal_express.rb:49-56 | as for authorize, with the Sale capture document |
| PaypalExpress.ItemElements | lib/active_merchant/billing/gateways/paypal_express.rb:107-118 | one `n2:PaymentDetailsItem` per input item, in input order |
| PaypalExpress.EmitItems | lib/active_merchant/billing/gateways/paypal_express.rb:108-117 | the `each` loop writes exactly the item elements into the buffer |
| PaypalExpress.BuildGetDetailsRequest | lib/active_merchant/billing/gateways/paypal_express.rb:59-73 | the builder returns exactly the details document |
| PaypalExpress.BuildSaleOrAuthorizationRequest | lib/active_merchant/billing/gateways/paypal_express.rb:75-128 | the builder returns exactly the capture document |
| PaypalExpress.BuildSetupRequest | lib/active_merchant/billing/gateways/paypal_express.rb:130-218 | the builder returns exactly the setup document |
| PaypalExpressProperties.DetailsRequestShape | lib/active_merchant/billing/gateways/paypal_express.rb:59-73 | the document is empty iff `in_mobile_view` is truthy; otherwise it holds exactly `n2:Version` and `Token`, in that order |
| PaypalExpressProperties.MobileCaptureShape | lib/active_merchant/billing/gateways/paypal_express.rb:80-87 | the mobile capture holds only Version, PaymentAction and Token, in that order |
| PaypalExpressProperties.DesktopCaptureShape | lib/active_merchant/billing/gateways/paypal_express.rb:88-96 | the desktop capture holds the version and the details element |
| PaypalExpressProperties.CaptureDetailsShape | lib/active_merchant/billing/gateways/paypal_express.rb:92-96 | the details hold PaymentAction, Token, PayerID and PaymentDetails, in that order, with the action, token and payer |
| PaypalExpressProperties.CaptureTotalsAllOrNothing | lib/active_merchant/billing/gateways/paypal_express.rb:76-105 | OrderTotal is always sent; ItemTotal, ShippingTotal, HandlingTotal and TaxTotal are all sent iff all four options are present, and none otherwise; each carries `options[:currency] \|\| currency(money)` |
| PaypalExpressProperties.CaptureItemsInOrder | lib/active_merchant/billing/gateways/paypal_express.rb:107-118 | the capture holds one PaymentDetailsItem per input item, in input order |
| PaypalExpressProperties.ItemShape | lib/active_merchant/billing/gateways/paypal_express.rb:109-116 | Name, Number, Quantity, Amount and Tax appear once each iff the field is truthy; Description is always there, last |
| PaypalExpressProperties.CaptureNotifyAndButtonSource | lib/active_merchant/billing/gateways/paypal_express.rb:119-120 | NotifyURL is always sent once; ButtonSource is sent iff the application id is not blank, as the first 32 characters of its string form |
| PaypalExpressProperties.Prefix | lib/active_merchant/billing/gateways/paypal_express.rb:120 | `slice(0, 32)` keeps a prefix of the string, exactly 32 characters long when the string is longer, and the whole string otherwise |
| PaypalExpressProperties.SetupRequestShape | lib/active_merchant/billing/gateways/paypal_express.rb:130-155 | any truthy `:mobile` gives the SetMobileCheckout document with its fixed children; otherwise the SetExpressCheckout document with the version and the details |
| PaypalExpressProperties.SetupFlags | lib/active_merchant/billing/gateways/paypal_express.rb:166-167 | NoShipping and AddressOverride are sent once each, `'1'` iff their option is truthy and `'0'` otherwise |
| PaypalExpressProperties.SetupNoConfirmations | lib/active_merchant/billing/gateways/paypal_express.rb:164-165 | ReqConfirmShipping and ReqBillingAddress are sent once each with 0 |
| PaypalExpressProperties.SetupMaxAmountOnlyWhenGiven | lib/active_merchant/billing/gateways/paypal_express.rb:159-161 | MaxAmount appears iff `:max_amount` is truthy, in the currency `options[:currency] || currency(options[:max_amount])` |
| PaypalExpressProperties.SetupPageStyleUnlessBlank | lib/active_merchant/billing/gateways/paypal_express.rb:168-175 | LocaleCode, PageStyle and the four `cpp-*` elements each appear iff their option is not blank |
| PaypalExpressProperties.SetupAddress | lib/active_merchant/billing/gateways/paypal_express.rb:177 | `n2:Address` appears iff `add_address` writes one, for the shipping address or else the address |
| PaypalExpressProperties.SetupFixedChoices | lib/active_merchant/billing/gateways/paypal_express.rb:180-182 | PaymentAction is the action, SolutionType is `'Sole'` and LandingPage is `'Login'`, each once |
| PaypalExpressProperties.SetupBuyerEmailUnlessBlank | lib/active_merchant/billing/gateways/paypal_express.rb:183 | BuyerEmail appears iff `:email` is not blank |
| PaypalExpressProperties.SetupPaymentTotals | lib/active_merchant/billing/gateways/paypal_express.rb:186-192 | OrderTotal and ItemTotal are both `amount(money)`; ShippingTotal, HandlingTotal and TaxTotal are `'0.00'`; all carry the currency code |
| PaypalExpressProperties.SetupItemsInOrder | lib/active_merchant/billing/gateways/paypal_express.rb:194-205 | the setup holds one PaymentDetailsItem per input item, in input order |
| PaypalExpressProperties.SetupPaymentDetails | lib/active_merchant/billing/gateways/paypal_express.rb:186-209 | PaymentDetails is sent once and is the last child of the details |
| PaypalExpressProperties.SetupAuthorizationCommand | lib/active_merchant/billing/gateways/paypal_express.rb:16-20 | setup_authorization always names `SetExpressCheckout`, yet its document (built by the test at line 132) is the mobile one iff `:mobile` is truthy |
| PaypalExpressProperties.SetupPurchaseCommand | lib/active_merchant/billing/gateways/paypal_express.rb:22-30 | a mobile command always carries the mobile document, but a truthy `:mobile` that is not `true` sends the mobile document under `SetExpressCheckout` |
| PaypalExpressProperties.CaptureCommandMatchesDocument | lib/active_merchant/billing/gateways/paypal_express.rb:40-56 | for authorize and purchase the mobile command is chosen iff the document is the mobile one |
| Xml.XmlMarkup.Close | lib/active_merchant/billing/gateways/paypal_express.rb:63-68 | closing a block appends the finished element to its parent's children |
| RubyStrings.SplitAll | lib/active_merchant/billing/gateways/secure_pay.rb:179 | every field between separators, empty ones kept; joining undoes it (`JoinSplitAll`, `SplitAllJoin`) |
| RubyStrings.DropTrailingEmpty | lib/active_merchant/billing/gateways/secure_pay.rb:179 | Ruby's `split` keeps a prefix of the plain fields, drops only empty fields from the end, and ends on a non-empty field |
| RubyStrings.Strip | lib/active_merchant/billing/gateways/secure_pay.rb:165 | `strip` leaves no whitespace at either end, and keeps a string that has none there |
| RubyStrings.StripIsSlice | lib/active_merchant/billing/gateways/secure_pay.rb:165 | the result of `strip` is a slice of the input with only whitespace outside it, so nothing inside the string is removed |
| RubyStrings.DeleteChars | lib/active_merchant/billing/gateways/secure_pay.rb:233 | `delete` removes every character of the set, and keeps a string with none of them as it is |
| RubyStrings.DeleteCharsKeeps | lib/active_merchant/billing/gateways/secure_pay.rb:233 | `delete` keeps every character outside the set as often as it occurs |
| RubyStrings.DeleteCharsOne | lib/active_merchant/billing/gateways/secure_pay.rb:233 | a single character is removed iff it is in the set |
| RubyStrings.DeleteCharsAppend | lib/active_merchant/billing/gateways/secure_pay.rb:233 | `delete` distributes over concatenation, so the kept characters stay in order |

## Left out

- HTTP transport (`ssl_post`) is an oracle of the transport object: post n is answered by `respond(n, url, body)`. The choice between `test_url` and `live_url` is kept, but both hold the same address.
- PayPal's `commit`, `build_response` and `PaypalExpressResponse` are not part of this model. The public PayPal operations return the command name and the document they would commit.
- Logging through `RAILS_DEFAULT_LOGGER` (secure_pay.rb lines 85 and 144-151) is left out because it has no functional result.
- `amount()`, `currency()` and `CGI.escape` are parameters of the gateway (`fmt.amount`, `fmt.currency`, `escape`). The only assumption made about escaping is that it never yields `&`, and only the lemmas about splitting the body need it.
- The CVV and AVS message tables are parameters of the SecurePay gateway. The AVS table is looked up with the AVS result's code in `purchase`, and with the raw parsed code in `message_from`, as the source does.
- `VALID_AVS_CODES` is a parameter of the SecurePay gateway. It is compared with the AVS result's code.
- `AVSResult` (avs_result.rb) is not part of this model. Only its code is modelled (`SecurePay.AvsResultCode`): nil when blank, upper case otherwise. Its street and postal match fields are left out.
- RubyStrings.Upcase: maps only the ASCII letters, as Ruby 1.8's `upcase` does. Non-ASCII letters are kept as they are.
- PayPal's `add_address` is a parameter that returns the children of `n2:Address`, or nothing.
- The PayPal namespaces and API versions are parameters.
- The shape of `Builder::XmlMarkup` text is left out: rendering, indentation and escaping. Documents are element trees.
- `normalize`, `RECURRING_ACTIONS`, `AUTHORIZE_NET_ARB_NAMESPACE` and the positional response constants are left out as dead code. So are the `AuthorizedNetGateway` alias and the `initialize` checks.
- Card validation and Money objects are not modelled. Amounts are values handed to `amount()`.
- `ToS` gives `""` for arrays and hashes. Their `inspect`-like text is not modelled, and no property of the adapters depends on it.
- RubyValues.Field: answers nil when the value is not a Hash. In Ruby, indexing a String or an Array with a symbol raises TypeError, and `true` raises NoMethodError. This affects the address fields (secure_pay.rb lines 222-226) and the item fields (paypal_express.rb lines 110-115).
- SecurePay.TimeframeOf: answers nil for a truthy `:recurring_period` that is not a String. Ruby's `delete` (secure_pay.rb line 233) would raise NoMethodError on a Symbol, an Integer or `true`.
- PaymentItems treats a truthy `:paymentDetailsItems` that is not an array as no items. In Ruby, `each` would be called on that object.
