# iyzico request signing, modelled in Dafny

This project models the Go package that prepares the `Authorization` header
for the iyzico payment API (`main.go`). It covers two kinds of request:

- a BKM Express initialization (`InitializeBkmRequest`);
- a direct card payment (`CreatePaymentRequest`).

For each request the package does four things, in order:

1. It checks that the API key, the secret key and the random string are non-empty.
2. It validates the request graph field by field and stops at the first
   empty string, zero integer or empty basket.
3. It renders the request as a canonical `[key=value,...]` string.
4. It signs: the pki string is `apiKey + rnd + secretKey + requestString`,
   and the header is `IYZWS <apiKey>:<base64(sha1(pki string))>`.

Modules, one file each:

| file | module | models |
|---|---|---|
| `requests.dfy` | `Requests` | the record types, the error kinds, `Outcome` (Go's `error` or `nil`), `Result` |
| `decimal.dfy` | `Decimal` | Go's `%d` on an `int`, with a parser proving it loses nothing |
| `canonical.dfy` | `Canonical` | `strings.Join` and the bracket grammar `[k1=v1,k2=v2,...]` (`Record`) every canonical string follows |
| `validation.dfy` | `Validation` | the six validators as the Go early-return chains, and the generic first-failure rule `FirstMissing` over an ordered field list |
| `formatting.dfy` | `Formatting` | the formatters: `Sprintf` templates as functions; the `bytes.Buffer` writers and the basket loop as methods |
| `signing.dfy` | `Signing` | `GetAuthorizationAndPkiString` |
| `authorization.dfy` | `Authorization` | the two entry points |

How the proofs are arranged:

- Each validator is proved equal to `FirstMissing` applied to an explicit list
  of its fields in checking order, for example `CreatePaymentFields`.
  `FirstMissingSpec` then says what "first" means.
- Each formatter is proved to produce `Record` of an explicit, ordered list of
  entries, for example `CreatePaymentEntries`.
- `RecordInjective` shows that this grammar can be read back when no value
  contains a comma.

SHA-1 followed by base64 is the parameter `digest: string -> string` of
the signer and the entry points.

## Model

| member | source | states |
|---|---|---|
| Decimal.FormatInt | main.go:184 | `%d` output is non-empty, starts with '-' exactly for negative values, is digits after that, and has no leading zero; 0 is written "0" |
| Decimal.FormatIntRoundTrip | main.go:170-171 | the rendered integer (registerCard, installment) parses back to the same value, sign included |
| Decimal.FormatIntInjective | main.go:184 | distinct integers render as distinct text |
| Canonical.JoinAppend | main.go:133 | `strings.Join` of two non-empty lists is the join of each with one separator between |
| Canonical.RecordBracketed | main.go:145-166 | a record string has length at least 2, opens with '[' and closes with ']' |
| Canonical.RecordInjective | main.go:135-138 | with fixed keys and no comma in any value, equal record strings mean equal entries |
| Validation.FirstMissingSpec | main.go:293-313 | the first-failure rule passes iff every field is present; otherwise it names the complaint of the first missing field, the one before which every field is present |
| Validation.FirstMissingAppend | main.go:226-237 | checking a nested record and then the rest is checking their concatenation: a failure in the first part wins, otherwise the rest decides |
| Validation.ValidatePaymentCardInOrder | main.go:293-313 | ValidatePaymentCard is the first-failure rule over holder, number, expiry year, expiry month, cvc (empty) and RegisterCard (zero) |
| Validation.ValidateBuyerInOrder | main.go:315-356 | ValidateBuyer is the first-failure rule over the buyer's 13 strings in Go order |
| Validation.ValidateAddressInOrder | main.go:358-375 | ValidateAddress is the first-failure rule over address, zip code, contact name, city, country |
| Validation.ValidateBillingAddressInOrder | main.go:377-391 | ValidateBillingAddress is the first-failure rule over address, contact name, city, country (no zip code) |
| Validation.ValidateInitializeBkmRequest | main.go:208-246 | passes iff the six scalars are non-empty, card, buyer, shipping and billing (both through ValidateAddress) pass, the basket is non-empty and the callback URL is non-empty |
| Validation.ValidateCreatePaymentRequest | main.go:247-291 | passes iff the scalars are non-empty, installment is non-zero, card, buyer, shipping address and billing address pass, the basket is non-empty and the currency is non-empty |
| Validation.ValidateInitializeBkmRequestInOrder | main.go:208-246 | the BKM validator is the first-failure rule over its head fields, then card, buyer, shipping, billing, basket, callback URL |
| Validation.ValidateCreatePaymentRequestInOrder | main.go:247-291 | the payment validator is the first-failure rule over its head fields (installment as a number), then card, buyer, shipping, billing, basket, currency |
| Validation.ValidateInitializeBkmRequestFirst | main.go:208-246 | if field i is the first missing one in BKM order, the validator reports exactly that field's complaint |
| Validation.ValidateInitializeBkmRequestBlames | main.go:208-246 | every BKM validation failure is the complaint of some first missing field |
| Validation.ValidateCreatePaymentRequestFirst | main.go:247-291 | if field i is the first missing one in payment order, the validator reports exactly that field's complaint |
| Validation.ValidateCreatePaymentRequestBlames | main.go:247-291 | every payment validation failure is the complaint of some first missing field |
| Validation.BasketContentsIgnored | main.go:239-241 | replacing a non-empty basket by any other non-empty basket never changes either validator's result |
| Validation.BkmBillingZipRequired | main.go:236-238 | an empty billing zip code always fails BKM validation |
| Validation.RegisterCardOnlyZeroRejected | main.go:309-311 | with the card's strings present, the card passes iff RegisterCard is non-zero (negative values pass), and zero is reported as RegisterCard is zero |
| Validation.CityComplaintShared | main.go:343-345 | a buyer, an address and a billing address can each fail with the same "City is empty" complaint |
| Formatting.BasketItemsText | main.go:126-134 | the basket text is empty for an empty basket and is the item's own text for a single item |
| Formatting.BasketItemsTextAppend | main.go:126-134 | the text of two concatenated non-empty baskets is the first text, ", ", the second text: item order is kept |
| Formatting.FormatBasketItems | main.go:126-134 | the loop that collects item texts and joins them with ", " returns the basket text |
| Formatting.FormatBasketItemIsRecord | main.go:129-130 | an item renders as the record id, price, name, category1, category2, itemType (price before name) |
| Formatting.FormatBasketItemExample | main.go:129-130 | the item {id 1, name Book, Media, Books, PHYSICAL, price 10} renders as `[id=1,price=10,name=Book,category1=Media,category2=Books,itemType=PHYSICAL]` |
| Formatting.FormatAddressIsRecord | main.go:135-138 | an address renders as the record address, zipCode, contactName, city, country |
| Formatting.FormatAddressInjective | main.go:135-138 | two comma-free addresses with the same text are the same address |
| Formatting.FormatAddressAmbiguous | main.go:135-138 | values are not escaped: moving ",city=..." between contact name and city gives two different addresses with the same text |
| Formatting.FormatBuyerIsRecord | main.go:139-142 | a buyer renders as the record of its 13 strings in Go order |
| Formatting.FormatPaymentCardIsRecord | main.go:169-172 | a card renders as the record holder, number, expiry year, expiry month, cvc, registerCard as `%d` |
| Formatting.FormatBillingAddressIsRecord | main.go:173-176 | a billing address renders as the record address, contactName, city, country |
| Formatting.FormatInitializeBkm | main.go:144-168 | the buffer writes produce the BKM canonical string |
| Formatting.InitializeBkmWrites | main.go:144-168 | the sequence of BKM buffer writes, whatever the written values, spells out the record of the ten BKM entries |
| Formatting.InitializeBkmKeys | main.go:144-168 | the BKM string's keys are locale, conversationId, price, basketId, paymentGroup, buyer, shippingAddress, billingAddress, basketItems, callbackUrl, and never paymentChannel or paymentCard |
| Formatting.InitializeBkmIgnoresPayment | main.go:144-168 | changing the payment channel or the card never changes the BKM string |
| Formatting.InitializeBkmTextBracketed | main.go:144-168 | the BKM string opens with '[' and closes with ']', so it is never empty |
| Formatting.FormatCreatePayment | main.go:177-207 | the buffer writes produce the payment canonical string |
| Formatting.CreatePaymentWrites | main.go:177-207 | the sequence of payment buffer writes spells out the record of the fourteen payment entries |
| Formatting.CreatePaymentKeys | main.go:177-207 | the payment string's keys are the fourteen keys in Go order, installment and paymentCard included |
| Formatting.CreatePaymentTextBracketed | main.go:177-207 | the payment string opens with '[' and closes with ']', so it is never empty |
| Signing.GetAuthorizationAndPkiString | main.go:36-47 | fails with EmptyInput iff one of the four inputs is empty; otherwise the pki string is the plain concatenation and the header is "IYZWS " + apiKey + ":" + digest of the pki string |
| Signing.AuthorizationReadsBack | main.go:44 | a header starts with "IYZWS ", and the API key reads back from it when the key has no ':' |
| Signing.PkiStringEndsWithRequest | main.go:45 | the pki string starts with the API key and ends with the request string, after the three secrets |
| Signing.SignatureOfConcatenation | main.go:40-45 | the signature depends only on the concatenation: moving a character from the random string to the secret key changes nothing |
| Signing.SignatureExample | main.go:36-47 | key1 / 123456789 / secret1 / [locale=tr] gives pki string `key1123456789secret1[locale=tr]` and header "IYZWS key1:" + its digest |
| Authorization.GenerateAuthorizationAndPkiString | main.go:12-22 | empty credentials give EmptyCredentials before validation; a validation error is returned unchanged; success iff credentials and validation pass, and then the signature of the BKM canonical string |
| Authorization.GenerateAuthorizationAndPkiStringForCreatePayment | main.go:24-34 | the same for a payment request and its canonical string |
| Authorization.EntryPointsNeverReportEmptyInput | main.go:36-38 | the signer's empty-input check never fires behind either entry point |
| Authorization.FailureIndependentOfDigest | main.go:12-34 | when an entry point fails, its result does not depend on the digest: nothing was hashed |
| Authorization.BkmSignatureShape | main.go:12-22 | a signed BKM request's header names the API key, and its pki string carries the bracketed canonical string after the secrets |
| Authorization.CreatePaymentSignatureShape | main.go:24-34 | the same for a signed payment request |

The functions that transcribe the Go functions one for one are covered by the
rows of the lemmas about them:

- `Validation.ValidatePaymentCard`, `Validation.ValidateBuyer`,
  `Validation.ValidateAddress` and `Validation.ValidateBillingAddress`
  (main.go:293-391) by their `...InOrder` rows.
- `Formatting.FormatBasketItem`, `Formatting.FormatAddress`,
  `Formatting.FormatBuyer`, `Formatting.FormatPaymentCard` and
  `Formatting.FormatBillingAddress` (main.go:129-176) by their `...IsRecord`
  rows.
- `Canonical.Join` (`strings.Join`, main.go:133) by `Canonical.JoinAppend`
  and `Formatting.BasketItemsText`.

## Left out

- Go strings are byte strings; here they are sequences of characters, so a
  Go string that is not valid UTF-8 has no counterpart. The parameter
  `digest` stands for SHA-1 over the UTF-8 bytes of its argument, then
  base64.
- SHA-1 and standard base64 (main.go:41-43) are the parameter `digest`.
  Nothing is proved about the digest's bytes.
- Go `error` values are the `Error` datatype. It keeps the field name of
  "<name> is empty" and "<name> is zero", and the two fixed messages, as
  `EmptyCredentials` and `EmptyInput`. The message text itself is not modelled.
- JSON struct tags are marshalling metadata and play no part in these
  functions.
- `fmt.Sprintf` with `%s` and `bytes.Buffer` are modelled by their effect:
  verbatim concatenation with no escaping or quoting.
- Go's `int` is 64 bits wide. No arithmetic happens on it here, so it is an
  unbounded `int`. `%d` writes a '-' for a negative value. The validators
  reject only zero, so negative installments and registerCard values are
  accepted and rendered with a sign. The model follows the Go code here,
  not a reading of the protocol in which integers carry no sign.
- Authorization.GenerateAuthorizationAndPkiString and its payment twin use
  the canonical-string functions `InitializeBkmText` and `CreatePaymentText`
  rather than calling the buffer methods, because functions cannot call
  methods. `FormatInitializeBkm` and `FormatCreatePayment` are proved to
  return exactly those strings.
