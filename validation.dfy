/// The validators of the two request kinds. Each one walks the request in a
/// fixed order and reports the first empty string, zero integer or empty
/// basket it meets. Every validator is written as the early-return `if` chain
/// of the Go code and proved equal to `FirstMissing` applied to an explicit
/// field-order descriptor, whose contract says what "first" means.
module Validation {
  import opened Requests

  /** One required field as the validators see it. */
  datatype Field =
    | Text(name: string, text: string)     // a string that must not be empty
    | Number(name: string, number: int)    // an integer that must not be zero
    | List(name: string, count: nat)       // a list that must not be empty

  predicate Present(f: Field) {
    match f
    case Text(_, t) => t != ""
    case Number(_, n) => n != 0
    case List(_, c) => c > 0
  }

  /** The error a missing field is reported with. */
  function Complaint(f: Field): Error {
    match f
    case Text(name, _) => EmptyField(name)
    case Number(name, _) => ZeroField(name)
    case List(name, _) => EmptyField(name)
  }

  /** Field `i` is missing and every field before it is present. */
  predicate FirstAbsent(fs: seq<Field>, i: int) {
    0 <= i < |fs| && !Present(fs[i]) && forall j :: 0 <= j < i ==> Present(fs[j])
  }

  /** The generic first-failure rule over an ordered field list. */
  function FirstMissing(fs: seq<Field>): Outcome {
    if fs == [] then Pass
    else if !Present(fs[0]) then Fail(Complaint(fs[0]))
    else FirstMissing(fs[1..])
  }

  /** `FirstMissing` passes exactly when every field is present, and
      otherwise reports the first missing field: the one before which every
      field is present. */
  lemma {:induction false} FirstMissingSpec(fs: seq<Field>)
    ensures FirstMissing(fs).Pass? <==> forall i :: 0 <= i < |fs| ==> Present(fs[i])
    ensures FirstMissing(fs).Fail? ==> exists i :: FirstAbsent(fs, i)
    ensures forall i :: FirstAbsent(fs, i) ==> FirstMissing(fs) == Fail(Complaint(fs[i]))
  {
    if fs != [] {
      if !Present(fs[0]) {
        assert FirstAbsent(fs, 0);
      } else {
        FirstMissingSpec(fs[1..]);
        assert forall i :: 1 <= i < |fs| ==> FirstAbsent(fs, i) == FirstAbsent(fs[1..], i - 1);
        if FirstMissing(fs[1..]).Fail? {
          var k :| FirstAbsent(fs[1..], k);
          assert FirstAbsent(fs, k + 1);
        }
      }
    }
  }

  /** Checking a concatenation checks the first part, then the second. */
  lemma {:induction false} FirstMissingAppend(xs: seq<Field>, ys: seq<Field>)
    ensures FirstMissing(xs + ys) == if FirstMissing(xs).Fail? then FirstMissing(xs) else FirstMissing(ys)
  {
    if xs != [] {
      assert (xs + ys)[1..] == xs[1..] + ys;
      FirstMissingAppend(xs[1..], ys);
    } else {
      assert xs + ys == ys;
    }
  }

  // ---- field-order descriptors ------------------------------------------

  function CardFields(c: PaymentCard): seq<Field> {
    [Text("CardHolderName", c.cardHolderName), Text("CardNumber", c.cardNumber),
     Text("ExpireYear", c.expireYear), Text("ExpireMonth", c.expireMonth),
     Text("Cvc", c.cvc), Number("RegisterCard", c.registerCard)]
  }

  function BuyerFields(b: Buyer): seq<Field> {
    [Text("Id", b.id), Text("Name", b.name), Text("Surname", b.surname),
     Text("IdentityNumber", b.identityNumber), Text("Email", b.email),
     Text("GsmNumber", b.gsmNumber), Text("RegistrationDate", b.registrationDate),
     Text("LastLoginDate", b.lastLoginDate), Text("RegistrationAddress", b.registrationAddress),
     Text("City", b.city), Text("Country", b.country), Text("ZipCode", b.zipCode),
     Text("Ip", b.ip)]
  }

  function AddressFields(a: Address): seq<Field> {
    [Text("Address", a.address), Text("ZipCode", a.zipCode),
     Text("ContactName", a.contactName), Text("City", a.city), Text("Country", a.country)]
  }

  function BillingAddressFields(a: BillingAddress): seq<Field> {
    [Text("Address", a.address), Text("ContactName", a.contactName),
     Text("City", a.city), Text("Country", a.country)]
  }

  /** The scalar fields the BKM validator checks before the nested records. */
  function InitializeBkmHead(r: InitializeBkmRequest): seq<Field> {
    [Text("Locale", r.locale), Text("ConversationID", r.conversationId),
     Text("Price", r.price), Text("PaymentChannel", r.paymentChannel),
     Text("BasketID", r.basketId), Text("PaymentGroup", r.paymentGroup)]
  }

  function InitializeBkmFields(r: InitializeBkmRequest): seq<Field> {
    InitializeBkmHead(r)
    + (CardFields(r.paymentCard)
    + (BuyerFields(r.buyer)
    + (AddressFields(r.shippingAddress)
    + (AddressFields(r.billingAddress)
    + [List("BasketItems", |r.basketItems|), Text("CallbackURL", r.callbackUrl)]))))
  }

  /** The scalar fields the payment validator checks before the nested records. */
  function CreatePaymentHead(r: CreatePaymentRequest): seq<Field> {
    [Text("Locale", r.locale), Text("ConversationID", r.conversationId),
     Text("Price", r.price), Text("PaidPrice", r.paidPrice),
     Number("Installment", r.installment), Text("PaymentChannel", r.paymentChannel),
     Text("BasketID", r.basketId), Text("PaymentGroup", r.paymentGroup)]
  }

  function CreatePaymentFields(r: CreatePaymentRequest): seq<Field> {
    CreatePaymentHead(r)
    + (CardFields(r.paymentCard)
    + (BuyerFields(r.buyer)
    + (AddressFields(r.shippingAddress)
    + (BillingAddressFields(r.billingAddress)
    + [List("BasketItems", |r.basketItems|), Text("Currency", r.currency)]))))
  }

  // ---- nested validators ------------------------------------------------

  function ValidatePaymentCard(c: PaymentCard): Outcome
  {
    if c.cardHolderName == "" then Fail(EmptyField("CardHolderName"))
    else if c.cardNumber == "" then Fail(EmptyField("CardNumber"))
    else if c.expireYear == "" then Fail(EmptyField("ExpireYear"))
    else if c.expireMonth == "" then Fail(EmptyField("ExpireMonth"))
    else if c.cvc == "" then Fail(EmptyField("Cvc"))
    else if c.registerCard == 0 then Fail(ZeroField("RegisterCard"))
    else Pass
  }

  function ValidateBuyer(b: Buyer): Outcome
  {
    if b.id == "" then Fail(EmptyField("Id"))
    else if b.name == "" then Fail(EmptyField("Name"))
    else if b.surname == "" then Fail(EmptyField("Surname"))
    else if b.identityNumber == "" then Fail(EmptyField("IdentityNumber"))
    else if b.email == "" then Fail(EmptyField("Email"))
    else if b.gsmNumber == "" then Fail(EmptyField("GsmNumber"))
    else if b.registrationDate == "" then Fail(EmptyField("RegistrationDate"))
    else if b.lastLoginDate == "" then Fail(EmptyField("LastLoginDate"))
    else if b.registrationAddress == "" then Fail(EmptyField("RegistrationAddress"))
    else if b.city == "" then Fail(EmptyField("City"))
    else if b.country == "" then Fail(EmptyField("Country"))
    else if b.zipCode == "" then Fail(EmptyField("ZipCode"))
    else if b.ip == "" then Fail(EmptyField("Ip"))
    else Pass
  }

  function ValidateAddress(a: Address): Outcome
  {
    if a.address == "" then Fail(EmptyField("Address"))
    else if a.zipCode == "" then Fail(EmptyField("ZipCode"))
    else if a.contactName == "" then Fail(EmptyField("ContactName"))
    else if a.city == "" then Fail(EmptyField("City"))
    else if a.country == "" then Fail(EmptyField("Country"))
    else Pass
  }

  function ValidateBillingAddress(a: BillingAddress): Outcome
  {
    if a.address == "" then Fail(EmptyField("Address"))
    else if a.contactName == "" then Fail(EmptyField("ContactName"))
    else if a.city == "" then Fail(EmptyField("City"))
    else if a.country == "" then Fail(EmptyField("Country"))
    else Pass
  }

  // ---- request validators -----------------------------------------------

  function ValidateInitializeBkmRequest(r: InitializeBkmRequest): (o: Outcome)
    ensures o.Pass? <==>
      && r.locale != "" && r.conversationId != "" && r.price != ""
      && r.paymentChannel != "" && r.basketId != "" && r.paymentGroup != ""
      && ValidatePaymentCard(r.paymentCard).Pass?
      && ValidateBuyer(r.buyer).Pass?
      && ValidateAddress(r.shippingAddress).Pass?
      && ValidateAddress(r.billingAddress).Pass?
      && |r.basketItems| > 0
      && r.callbackUrl != ""
  {
    if r.locale == "" then Fail(EmptyField("Locale"))
    else if r.conversationId == "" then Fail(EmptyField("ConversationID"))
    else if r.price == "" then Fail(EmptyField("Price"))
    else if r.paymentChannel == "" then Fail(EmptyField("PaymentChannel"))
    else if r.basketId == "" then Fail(EmptyField("BasketID"))
    else if r.paymentGroup == "" then Fail(EmptyField("PaymentGroup"))
    else if ValidatePaymentCard(r.paymentCard).Fail? then ValidatePaymentCard(r.paymentCard)
    else if ValidateBuyer(r.buyer).Fail? then ValidateBuyer(r.buyer)
    else if ValidateAddress(r.shippingAddress).Fail? then ValidateAddress(r.shippingAddress)
    else if ValidateAddress(r.billingAddress).Fail? then ValidateAddress(r.billingAddress)
    else if |r.basketItems| == 0 then Fail(EmptyField("BasketItems"))
    else if r.callbackUrl == "" then Fail(EmptyField("CallbackURL"))
    else Pass
  }

  function ValidateCreatePaymentRequest(r: CreatePaymentRequest): (o: Outcome)
    ensures o.Pass? <==>
      && r.locale != "" && r.conversationId != "" && r.price != "" && r.paidPrice != ""
      && r.installment != 0
      && r.paymentChannel != "" && r.basketId != "" && r.paymentGroup != ""
      && ValidatePaymentCard(r.paymentCard).Pass?
      && ValidateBuyer(r.buyer).Pass?
      && ValidateAddress(r.shippingAddress).Pass?
      && ValidateBillingAddress(r.billingAddress).Pass?
      && |r.basketItems| > 0
      && r.currency != ""
  {
    if r.locale == "" then Fail(EmptyField("Locale"))
    else if r.conversationId == "" then Fail(EmptyField("ConversationID"))
    else if r.price == "" then Fail(EmptyField("Price"))
    else if r.paidPrice == "" then Fail(EmptyField("PaidPrice"))
    else if r.installment == 0 then Fail(ZeroField("Installment"))
    else if r.paymentChannel == "" then Fail(EmptyField("PaymentChannel"))
    else if r.basketId == "" then Fail(EmptyField("BasketID"))
    else if r.paymentGroup == "" then Fail(EmptyField("PaymentGroup"))
    else if ValidatePaymentCard(r.paymentCard).Fail? then ValidatePaymentCard(r.paymentCard)
    else if ValidateBuyer(r.buyer).Fail? then ValidateBuyer(r.buyer)
    else if ValidateAddress(r.shippingAddress).Fail? then ValidateAddress(r.shippingAddress)
    else if ValidateBillingAddress(r.billingAddress).Fail? then ValidateBillingAddress(r.billingAddress)
    else if |r.basketItems| == 0 then Fail(EmptyField("BasketItems"))
    else if r.currency == "" then Fail(EmptyField("Currency"))
    else Pass
  }

  // ---- the validators follow their descriptors ---------------------------

  lemma ValidatePaymentCardInOrder(c: PaymentCard)
    ensures ValidatePaymentCard(c) == FirstMissing(CardFields(c))
  {
    var fs := CardFields(c);
    FirstMissingSpec(fs);
    if c.cardHolderName == "" { assert FirstAbsent(fs, 0); }
    else if c.cardNumber == "" { assert FirstAbsent(fs, 1); }
    else if c.expireYear == "" { assert FirstAbsent(fs, 2); }
    else if c.expireMonth == "" { assert FirstAbsent(fs, 3); }
    else if c.cvc == "" { assert FirstAbsent(fs, 4); }
    else if c.registerCard == 0 { assert FirstAbsent(fs, 5); }
  }

  lemma ValidateBuyerInOrder(b: Buyer)
    ensures ValidateBuyer(b) == FirstMissing(BuyerFields(b))
  {
    var fs := BuyerFields(b);
    FirstMissingSpec(fs);
    if b.id == "" { assert FirstAbsent(fs, 0); }
    else if b.name == "" { assert FirstAbsent(fs, 1); }
    else if b.surname == "" { assert FirstAbsent(fs, 2); }
    else if b.identityNumber == "" { assert FirstAbsent(fs, 3); }
    else if b.email == "" { assert FirstAbsent(fs, 4); }
    else if b.gsmNumber == "" { assert FirstAbsent(fs, 5); }
    else if b.registrationDate == "" { assert FirstAbsent(fs, 6); }
    else if b.lastLoginDate == "" { assert FirstAbsent(fs, 7); }
    else if b.registrationAddress == "" { assert FirstAbsent(fs, 8); }
    else if b.city == "" { assert FirstAbsent(fs, 9); }
    else if b.country == "" { assert FirstAbsent(fs, 10); }
    else if b.zipCode == "" { assert FirstAbsent(fs, 11); }
    else if b.ip == "" { assert FirstAbsent(fs, 12); }
    else { assert forall i :: 0 <= i < |fs| ==> Present(fs[i]); }
  }

  lemma ValidateAddressInOrder(a: Address)
    ensures ValidateAddress(a) == FirstMissing(AddressFields(a))
  {
    var fs := AddressFields(a);
    FirstMissingSpec(fs);
    if a.address == "" { assert FirstAbsent(fs, 0); }
    else if a.zipCode == "" { assert FirstAbsent(fs, 1); }
    else if a.contactName == "" { assert FirstAbsent(fs, 2); }
    else if a.city == "" { assert FirstAbsent(fs, 3); }
    else if a.country == "" { assert FirstAbsent(fs, 4); }
  }

  lemma ValidateBillingAddressInOrder(a: BillingAddress)
    ensures ValidateBillingAddress(a) == FirstMissing(BillingAddressFields(a))
  {
    var fs := BillingAddressFields(a);
    FirstMissingSpec(fs);
    if a.address == "" { assert FirstAbsent(fs, 0); }
    else if a.contactName == "" { assert FirstAbsent(fs, 1); }
    else if a.city == "" { assert FirstAbsent(fs, 2); }
    else if a.country == "" { assert FirstAbsent(fs, 3); }
  }

  lemma ValidateInitializeBkmRequestInOrder(r: InitializeBkmRequest)
    ensures ValidateInitializeBkmRequest(r) == FirstMissing(InitializeBkmFields(r))
  {
    var head := InitializeBkmHead(r);
    var tail := [List("BasketItems", |r.basketItems|), Text("CallbackURL", r.callbackUrl)];
    var billing := AddressFields(r.billingAddress) + tail;
    var shipping := AddressFields(r.shippingAddress) + billing;
    var buyer := BuyerFields(r.buyer) + shipping;
    var card := CardFields(r.paymentCard) + buyer;
    FirstMissingAppend(head, card);
    FirstMissingSpec(head);
    if r.locale == "" { assert FirstAbsent(head, 0); }
    else if r.conversationId == "" { assert FirstAbsent(head, 1); }
    else if r.price == "" { assert FirstAbsent(head, 2); }
    else if r.paymentChannel == "" { assert FirstAbsent(head, 3); }
    else if r.basketId == "" { assert FirstAbsent(head, 4); }
    else if r.paymentGroup == "" { assert FirstAbsent(head, 5); }
    else {
      assert forall i :: 0 <= i < |head| ==> Present(head[i]);
      FirstMissingAppend(CardFields(r.paymentCard), buyer);
      FirstMissingAppend(BuyerFields(r.buyer), shipping);
      FirstMissingAppend(AddressFields(r.shippingAddress), billing);
      FirstMissingAppend(AddressFields(r.billingAddress), tail);
      ValidatePaymentCardInOrder(r.paymentCard);
      ValidateBuyerInOrder(r.buyer);
      ValidateAddressInOrder(r.shippingAddress);
      ValidateAddressInOrder(r.billingAddress);
      FirstMissingSpec(tail);
      if |r.basketItems| == 0 { assert FirstAbsent(tail, 0); }
      else if r.callbackUrl == "" { assert FirstAbsent(tail, 1); }
    }
  }

  lemma ValidateCreatePaymentRequestInOrder(r: CreatePaymentRequest)
    ensures ValidateCreatePaymentRequest(r) == FirstMissing(CreatePaymentFields(r))
  {
    var head := CreatePaymentHead(r);
    var tail := [List("BasketItems", |r.basketItems|), Text("Currency", r.currency)];
    var billing := BillingAddressFields(r.billingAddress) + tail;
    var shipping := AddressFields(r.shippingAddress) + billing;
    var buyer := BuyerFields(r.buyer) + shipping;
    var card := CardFields(r.paymentCard) + buyer;
    FirstMissingAppend(head, card);
    FirstMissingSpec(head);
    if r.locale == "" { assert FirstAbsent(head, 0); }
    else if r.conversationId == "" { assert FirstAbsent(head, 1); }
    else if r.price == "" { assert FirstAbsent(head, 2); }
    else if r.paidPrice == "" { assert FirstAbsent(head, 3); }
    else if r.installment == 0 { assert FirstAbsent(head, 4); }
    else if r.paymentChannel == "" { assert FirstAbsent(head, 5); }
    else if r.basketId == "" { assert FirstAbsent(head, 6); }
    else if r.paymentGroup == "" { assert FirstAbsent(head, 7); }
    else {
      assert forall i :: 0 <= i < |head| ==> Present(head[i]);
      FirstMissingAppend(CardFields(r.paymentCard), buyer);
      FirstMissingAppend(BuyerFields(r.buyer), shipping);
      FirstMissingAppend(AddressFields(r.shippingAddress), billing);
      FirstMissingAppend(BillingAddressFields(r.billingAddress), tail);
      ValidatePaymentCardInOrder(r.paymentCard);
      ValidateBuyerInOrder(r.buyer);
      ValidateAddressInOrder(r.shippingAddress);
      ValidateBillingAddressInOrder(r.billingAddress);
      FirstMissingSpec(tail);
      if |r.basketItems| == 0 { assert FirstAbsent(tail, 0); }
      else if r.currency == "" { assert FirstAbsent(tail, 1); }
    }
  }

  // ---- what the validators promise ---------------------------------------

  /** The BKM validator reports exactly the first missing field of its order:
      locale, conversation, price, channel, basket id, group, card, buyer,
      shipping address, billing address, basket, callback URL. */
  lemma ValidateInitializeBkmRequestFirst(r: InitializeBkmRequest, i: int)
    requires FirstAbsent(InitializeBkmFields(r), i)
    ensures ValidateInitializeBkmRequest(r) == Fail(Complaint(InitializeBkmFields(r)[i]))
  {
    ValidateInitializeBkmRequestInOrder(r);
    FirstMissingSpec(InitializeBkmFields(r));
  }

  /** A failing BKM validation always names a field that is the first missing one. */
  lemma ValidateInitializeBkmRequestBlames(r: InitializeBkmRequest)
    requires ValidateInitializeBkmRequest(r).Fail?
    ensures exists i :: FirstAbsent(InitializeBkmFields(r), i)
                     && ValidateInitializeBkmRequest(r).error == Complaint(InitializeBkmFields(r)[i])
  {
    ValidateInitializeBkmRequestInOrder(r);
    FirstMissingSpec(InitializeBkmFields(r));
    var i :| FirstAbsent(InitializeBkmFields(r), i);
  }

  /** The payment validator reports exactly the first missing field of its order. */
  lemma ValidateCreatePaymentRequestFirst(r: CreatePaymentRequest, i: int)
    requires FirstAbsent(CreatePaymentFields(r), i)
    ensures ValidateCreatePaymentRequest(r) == Fail(Complaint(CreatePaymentFields(r)[i]))
  {
    ValidateCreatePaymentRequestInOrder(r);
    FirstMissingSpec(CreatePaymentFields(r));
  }

  lemma ValidateCreatePaymentRequestBlames(r: CreatePaymentRequest)
    requires ValidateCreatePaymentRequest(r).Fail?
    ensures exists i :: FirstAbsent(CreatePaymentFields(r), i)
                     && ValidateCreatePaymentRequest(r).error == Complaint(CreatePaymentFields(r)[i])
  {
    ValidateCreatePaymentRequestInOrder(r);
    FirstMissingSpec(CreatePaymentFields(r));
    var i :| FirstAbsent(CreatePaymentFields(r), i);
  }

  /** Only the length of the basket is inspected: any two non-empty baskets
      validate alike. */
  lemma BasketContentsIgnored(r: InitializeBkmRequest, q: CreatePaymentRequest, items: seq<BasketItem>)
    requires items != []
    ensures r.basketItems != [] ==>
      ValidateInitializeBkmRequest(r.(basketItems := items)) == ValidateInitializeBkmRequest(r)
    ensures q.basketItems != [] ==>
      ValidateCreatePaymentRequest(q.(basketItems := items)) == ValidateCreatePaymentRequest(q)
  {
  }

  /** The BKM billing address goes through ValidateAddress, so its zip code
      is required, whereas a payment's billing address has no zip code. */
  lemma BkmBillingZipRequired(r: InitializeBkmRequest)
    requires r.billingAddress.zipCode == ""
    ensures ValidateInitializeBkmRequest(r).Fail?
  {
  }

  /** The card's RegisterCard is rejected only when zero; a negative value passes. */
  lemma RegisterCardOnlyZeroRejected(c: PaymentCard)
    requires c.cardHolderName != "" && c.cardNumber != "" && c.expireYear != ""
    requires c.expireMonth != "" && c.cvc != ""
    ensures ValidatePaymentCard(c).Pass? <==> c.registerCard != 0
    ensures c.registerCard == 0 ==> ValidatePaymentCard(c) == Fail(ZeroField("RegisterCard"))
  {
  }

  /** Error names do not identify the record: the same "City" complaint comes
      from the buyer, from an address and from a billing address. */
  lemma CityComplaintShared()
    ensures exists b: Buyer, a: Address, ba: BillingAddress ::
      ValidateBuyer(b) == ValidateAddress(a) == ValidateBillingAddress(ba) == Fail(EmptyField("City"))
  {
    var b := Buyer("i", "n", "s", "in", "e", "g", "rd", "ld", "ra", "", "c", "z", "ip");
    var a := Address("a", "z", "cn", "", "c");
    var ba := BillingAddress("a", "cn", "", "c");
    assert ValidateBuyer(b) == ValidateAddress(a) == ValidateBillingAddress(ba) == Fail(EmptyField("City"));
  }
}
