/// The canonicalizer: the Go formatters that serialise a request into the
/// string that is signed. The single-`Sprintf` formatters are functions whose
/// bodies are the Go templates; the formatters that fill a `bytes.Buffer` or
/// loop over the basket are methods. Each is proved to produce the `Record`
/// (see module Canonical) of an explicit, ordered list of entries.
module Formatting {
  import opened Requests
  import opened Canonical
  import opened Decimal

  // ---- entry lists: the keys each template emits, in order ----------------

  /** Note the order of the Go template: `price` comes before `name`. */
  function BasketItemEntries(item: BasketItem): seq<Entry> {
    [Entry("id", item.id), Entry("price", item.price), Entry("name", item.name),
     Entry("category1", item.category1), Entry("category2", item.category2),
     Entry("itemType", item.itemType)]
  }

  function AddressEntries(a: Address): seq<Entry> {
    [Entry("address", a.address), Entry("zipCode", a.zipCode),
     Entry("contactName", a.contactName), Entry("city", a.city), Entry("country", a.country)]
  }

  function BuyerEntries(b: Buyer): seq<Entry> {
    [Entry("id", b.id), Entry("name", b.name), Entry("surname", b.surname),
     Entry("identityNumber", b.identityNumber), Entry("email", b.email),
     Entry("gsmNumber", b.gsmNumber), Entry("registrationDate", b.registrationDate),
     Entry("lastLoginDate", b.lastLoginDate), Entry("registrationAddress", b.registrationAddress),
     Entry("city", b.city), Entry("country", b.country), Entry("zipCode", b.zipCode),
     Entry("ip", b.ip)]
  }

  function PaymentCardEntries(c: PaymentCard): seq<Entry> {
    [Entry("cardHolderName", c.cardHolderName), Entry("cardNumber", c.cardNumber),
     Entry("expireYear", c.expireYear), Entry("expireMonth", c.expireMonth),
     Entry("cvc", c.cvc), Entry("registerCard", FormatInt(c.registerCard))]
  }

  function BillingAddressEntries(a: BillingAddress): seq<Entry> {
    [Entry("address", a.address), Entry("contactName", a.contactName),
     Entry("city", a.city), Entry("country", a.country)]
  }

  /** The BKM string has no `paymentChannel` and no `paymentCard` entry. */
  function InitializeBkmEntries(r: InitializeBkmRequest): seq<Entry> {
    [Entry("locale", r.locale), Entry("conversationId", r.conversationId),
     Entry("price", r.price), Entry("basketId", r.basketId),
     Entry("paymentGroup", r.paymentGroup), Entry("buyer", FormatBuyer(r.buyer)),
     Entry("shippingAddress", FormatAddress(r.shippingAddress)),
     Entry("billingAddress", FormatAddress(r.billingAddress)),
     Entry("basketItems", "[" + BasketItemsText(r.basketItems) + "]"),
     Entry("callbackUrl", r.callbackUrl)]
  }

  function CreatePaymentEntries(r: CreatePaymentRequest): seq<Entry> {
    [Entry("locale", r.locale), Entry("conversationId", r.conversationId),
     Entry("price", r.price), Entry("paidPrice", r.paidPrice),
     Entry("installment", FormatInt(r.installment)),
     Entry("paymentChannel", r.paymentChannel), Entry("basketId", r.basketId),
     Entry("paymentGroup", r.paymentGroup),
     Entry("paymentCard", FormatPaymentCard(r.paymentCard)),
     Entry("buyer", FormatBuyer(r.buyer)),
     Entry("shippingAddress", FormatAddress(r.shippingAddress)),
     Entry("billingAddress", FormatBillingAddress(r.billingAddress)),
     Entry("basketItems", "[" + BasketItemsText(r.basketItems) + "]"),
     Entry("currency", r.currency)]
  }

  // ---- the single-template formatters ------------------------------------

  /** The text one basket item contributes (the loop body of FormatBasketItems). */
  function FormatBasketItem(item: BasketItem): string {
    "[id=" + item.id + ",price=" + item.price + ",name=" + item.name
    + ",category1=" + item.category1 + ",category2=" + item.category2
    + ",itemType=" + item.itemType + "]"
  }

  function FormatAddress(a: Address): string {
    "[address=" + a.address + ",zipCode=" + a.zipCode + ",contactName=" + a.contactName
    + ",city=" + a.city + ",country=" + a.country + "]"
  }

  function FormatBuyer(b: Buyer): string {
    "[id=" + b.id + ",name=" + b.name + ",surname=" + b.surname
    + ",identityNumber=" + b.identityNumber + ",email=" + b.email
    + ",gsmNumber=" + b.gsmNumber + ",registrationDate=" + b.registrationDate
    + ",lastLoginDate=" + b.lastLoginDate + ",registrationAddress=" + b.registrationAddress
    + ",city=" + b.city + ",country=" + b.country + ",zipCode=" + b.zipCode
    + ",ip=" + b.ip + "]"
  }

  function FormatPaymentCard(c: PaymentCard): string {
    "[cardHolderName=" + c.cardHolderName + ",cardNumber=" + c.cardNumber
    + ",expireYear=" + c.expireYear + ",expireMonth=" + c.expireMonth
    + ",cvc=" + c.cvc + ",registerCard=" + FormatInt(c.registerCard) + "]"
  }

  function FormatBillingAddress(a: BillingAddress): string {
    "[address=" + a.address + ",contactName=" + a.contactName
    + ",city=" + a.city + ",country=" + a.country + "]"
  }

  // ---- specification of the list and request formatters ------------------

  function ItemTexts(items: seq<BasketItem>): seq<string> {
    seq(|items|, i requires 0 <= i < |items| => FormatBasketItem(items[i]))
  }

  /** The basket: each item's text, in input order, joined by ", ". */
  function BasketItemsText(items: seq<BasketItem>): (s: string)
    ensures items == [] ==> s == ""
    ensures |items| == 1 ==> s == FormatBasketItem(items[0])
  {
    Join(ItemTexts(items), ", ")
  }

  function InitializeBkmText(r: InitializeBkmRequest): string {
    Record(InitializeBkmEntries(r))
  }

  function CreatePaymentText(r: CreatePaymentRequest): string {
    Record(CreatePaymentEntries(r))
  }

  // ---- the formatters that build their result step by step ---------------

  method FormatBasketItems(items: seq<BasketItem>) returns (s: string)
    ensures s == BasketItemsText(items)
  {
    var result: seq<string> := [];
    for i := 0 to |items|
      invariant result == ItemTexts(items[..i])
    {
      var itemStr := FormatBasketItem(items[i]);
      result := result + [itemStr];
    }
    assert items[..|items|] == items;
    s := Join(result, ", ");
  }

  /** Writes the BKM request into a buffer in the Go order; the buffer
      ends up holding the canonical BKM string. */
  method FormatInitializeBkm(r: InitializeBkmRequest) returns (s: string)
    ensures s == InitializeBkmText(r)
  {
    var buffer := "[";
    buffer := buffer + ("locale=" + r.locale + ",");
    buffer := buffer + ("conversationId=" + r.conversationId + ",");
    buffer := buffer + ("price=" + r.price + ",");
    buffer := buffer + ("basketId=" + r.basketId + ",");
    buffer := buffer + ("paymentGroup=" + r.paymentGroup + ",");
    buffer := buffer + "buyer=";
    buffer := buffer + FormatBuyer(r.buyer);
    buffer := buffer + ",";
    buffer := buffer + "shippingAddress=";
    buffer := buffer + FormatAddress(r.shippingAddress);
    buffer := buffer + ",";
    buffer := buffer + "billingAddress=";
    buffer := buffer + FormatAddress(r.billingAddress);
    buffer := buffer + ",";
    var items := FormatBasketItems(r.basketItems);
    buffer := buffer + "basketItems=[";
    buffer := buffer + items;
    buffer := buffer + "],";
    buffer := buffer + ("callbackUrl=" + r.callbackUrl);
    buffer := buffer + "]";
    InitializeBkmWrites(r.locale, r.conversationId, r.price, r.basketId, r.paymentGroup, FormatBuyer(r.buyer), FormatAddress(r.shippingAddress), FormatAddress(r.billingAddress), items, r.callbackUrl);
    s := buffer;
  }

  /** Writes the direct-payment request into a buffer in the Go order. */
  method FormatCreatePayment(r: CreatePaymentRequest) returns (s: string)
    ensures s == CreatePaymentText(r)
  {
    var buffer := "[";
    buffer := buffer + ("locale=" + r.locale + ",");
    buffer := buffer + ("conversationId=" + r.conversationId + ",");
    buffer := buffer + ("price=" + r.price + ",");
    buffer := buffer + ("paidPrice=" + r.paidPrice + ",");
    buffer := buffer + ("installment=" + FormatInt(r.installment) + ",");
    buffer := buffer + ("paymentChannel=" + r.paymentChannel + ",");
    buffer := buffer + ("basketId=" + r.basketId + ",");
    buffer := buffer + ("paymentGroup=" + r.paymentGroup + ",");
    buffer := buffer + "paymentCard=";
    buffer := buffer + FormatPaymentCard(r.paymentCard);
    buffer := buffer + ",";
    buffer := buffer + "buyer=";
    buffer := buffer + FormatBuyer(r.buyer);
    buffer := buffer + ",";
    buffer := buffer + "shippingAddress=";
    buffer := buffer + FormatAddress(r.shippingAddress);
    buffer := buffer + ",";
    buffer := buffer + "billingAddress=";
    buffer := buffer + FormatBillingAddress(r.billingAddress);
    buffer := buffer + ",";
    var items := FormatBasketItems(r.basketItems);
    buffer := buffer + "basketItems=[";
    buffer := buffer + items;
    buffer := buffer + "],";
    buffer := buffer + ("currency=" + r.currency);
    buffer := buffer + "]";
    CreatePaymentWrites(r.locale, r.conversationId, r.price, r.paidPrice, FormatInt(r.installment), r.paymentChannel, r.basketId, r.paymentGroup, FormatPaymentCard(r.paymentCard), FormatBuyer(r.buyer), FormatAddress(r.shippingAddress), FormatBillingAddress(r.billingAddress), items, r.currency);
    s := buffer;
  }

  // ---- the buffer writes follow the grammar -----------------------------

  // Each "key=" piece the two request writers emit is its entry's key
  // followed by '=' (and "basketItems=[" is the key followed by "=[").

  lemma ScalarKeyPieces()
    ensures "locale=" == "locale" + "="
    ensures "conversationId=" == "conversationId" + "="
    ensures "price=" == "price" + "="
    ensures "basketId=" == "basketId" + "="
    ensures "paymentGroup=" == "paymentGroup" + "="
    ensures "callbackUrl=" == "callbackUrl" + "="
  {
  }

  lemma NestedKeyPieces()
    ensures "buyer=" == "buyer" + "="
    ensures "shippingAddress=" == "shippingAddress" + "="
    ensures "billingAddress=" == "billingAddress" + "="
    ensures "basketItems=[" == "basketItems" + "=["
  {
  }

  lemma PaymentKeyPieces()
    ensures "paidPrice=" == "paidPrice" + "="
    ensures "installment=" == "installment" + "="
    ensures "paymentChannel=" == "paymentChannel" + "="
    ensures "paymentCard=" == "paymentCard" + "="
    ensures "currency=" == "currency" + "="
  {
  }

  /** The writes of FormatInitializeBkm, with each written value abstracted
      to a string, spell out the record of the ten BKM entries. */
  lemma InitializeBkmWrites(
    locale: string, conversationId: string, price: string, basketId: string,
    paymentGroup: string, buyer: string, shippingAddress: string, billingAddress: string,
    basketItems: string, callbackUrl: string)
    ensures "["
      + ("locale=" + locale + ",")
      + ("conversationId=" + conversationId + ",")
      + ("price=" + price + ",")
      + ("basketId=" + basketId + ",")
      + ("paymentGroup=" + paymentGroup + ",")
      + "buyer=" + buyer + ","
      + "shippingAddress=" + shippingAddress + ","
      + "billingAddress=" + billingAddress + ","
      + "basketItems=[" + basketItems + "],"
      + ("callbackUrl=" + callbackUrl)
      + "]"
      == Record(
        [Entry("locale", locale), Entry("conversationId", conversationId),
         Entry("price", price), Entry("basketId", basketId),
         Entry("paymentGroup", paymentGroup), Entry("buyer", buyer),
         Entry("shippingAddress", shippingAddress), Entry("billingAddress", billingAddress),
         Entry("basketItems", "[" + basketItems + "]"), Entry("callbackUrl", callbackUrl)])
  {
    ScalarKeyPieces();
    NestedKeyPieces();
    var es :=
      [Entry("locale", locale), Entry("conversationId", conversationId),
       Entry("price", price), Entry("basketId", basketId),
       Entry("paymentGroup", paymentGroup), Entry("buyer", buyer),
       Entry("shippingAddress", shippingAddress), Entry("billingAddress", billingAddress),
       Entry("basketItems", "[" + basketItems + "]"), Entry("callbackUrl", callbackUrl)];
    var buffer := "[";
    RecordWriteFirst(es, "locale=", locale);
    buffer := buffer + ("locale=" + locale + ",");
    RecordWriteEntry(es, 1, buffer, "conversationId=", conversationId);
    buffer := buffer + ("conversationId=" + conversationId + ",");
    RecordWriteEntry(es, 2, buffer, "price=", price);
    buffer := buffer + ("price=" + price + ",");
    RecordWriteEntry(es, 3, buffer, "basketId=", basketId);
    buffer := buffer + ("basketId=" + basketId + ",");
    RecordWriteEntry(es, 4, buffer, "paymentGroup=", paymentGroup);
    buffer := buffer + ("paymentGroup=" + paymentGroup + ",");
    RecordWriteNested(es, 5, buffer, "buyer=", buyer);
    buffer := buffer + "buyer=" + buyer + ",";
    RecordWriteNested(es, 6, buffer, "shippingAddress=", shippingAddress);
    buffer := buffer + "shippingAddress=" + shippingAddress + ",";
    RecordWriteNested(es, 7, buffer, "billingAddress=", billingAddress);
    buffer := buffer + "billingAddress=" + billingAddress + ",";
    RecordWriteList(es, 8, buffer, "basketItems=[", basketItems);
    buffer := buffer + "basketItems=[" + basketItems + "],";
    RecordWriteLast(es, buffer, "callbackUrl=", callbackUrl);
    buffer := buffer + ("callbackUrl=" + callbackUrl);
  }

  /** The writes of FormatCreatePayment spell out the record of the fourteen
      payment entries. */
  lemma CreatePaymentWrites(
    locale: string, conversationId: string, price: string, paidPrice: string,
    installment: string, paymentChannel: string, basketId: string, paymentGroup: string,
    paymentCard: string, buyer: string, shippingAddress: string, billingAddress: string,
    basketItems: string, currency: string)
    ensures "["
      + ("locale=" + locale + ",")
      + ("conversationId=" + conversationId + ",")
      + ("price=" + price + ",")
      + ("paidPrice=" + paidPrice + ",")
      + ("installment=" + installment + ",")
      + ("paymentChannel=" + paymentChannel + ",")
      + ("basketId=" + basketId + ",")
      + ("paymentGroup=" + paymentGroup + ",")
      + "paymentCard=" + paymentCard + ","
      + "buyer=" + buyer + ","
      + "shippingAddress=" + shippingAddress + ","
      + "billingAddress=" + billingAddress + ","
      + "basketItems=[" + basketItems + "],"
      + ("currency=" + currency)
      + "]"
      == Record(
        [Entry("locale", locale), Entry("conversationId", conversationId),
         Entry("price", price), Entry("paidPrice", paidPrice),
         Entry("installment", installment), Entry("paymentChannel", paymentChannel),
         Entry("basketId", basketId), Entry("paymentGroup", paymentGroup),
         Entry("paymentCard", paymentCard), Entry("buyer", buyer),
         Entry("shippingAddress", shippingAddress), Entry("billingAddress", billingAddress),
         Entry("basketItems", "[" + basketItems + "]"), Entry("currency", currency)])
  {
    ScalarKeyPieces();
    NestedKeyPieces();
    PaymentKeyPieces();
    var es :=
      [Entry("locale", locale), Entry("conversationId", conversationId),
       Entry("price", price), Entry("paidPrice", paidPrice),
       Entry("installment", installment), Entry("paymentChannel", paymentChannel),
       Entry("basketId", basketId), Entry("paymentGroup", paymentGroup),
       Entry("paymentCard", paymentCard), Entry("buyer", buyer),
       Entry("shippingAddress", shippingAddress), Entry("billingAddress", billingAddress),
       Entry("basketItems", "[" + basketItems + "]"), Entry("currency", currency)];
    var buffer := "[";
    RecordWriteFirst(es, "locale=", locale);
    buffer := buffer + ("locale=" + locale + ",");
    RecordWriteEntry(es, 1, buffer, "conversationId=", conversationId);
    buffer := buffer + ("conversationId=" + conversationId + ",");
    RecordWriteEntry(es, 2, buffer, "price=", price);
    buffer := buffer + ("price=" + price + ",");
    RecordWriteEntry(es, 3, buffer, "paidPrice=", paidPrice);
    buffer := buffer + ("paidPrice=" + paidPrice + ",");
    RecordWriteEntry(es, 4, buffer, "installment=", installment);
    buffer := buffer + ("installment=" + installment + ",");
    RecordWriteEntry(es, 5, buffer, "paymentChannel=", paymentChannel);
    buffer := buffer + ("paymentChannel=" + paymentChannel + ",");
    RecordWriteEntry(es, 6, buffer, "basketId=", basketId);
    buffer := buffer + ("basketId=" + basketId + ",");
    RecordWriteEntry(es, 7, buffer, "paymentGroup=", paymentGroup);
    buffer := buffer + ("paymentGroup=" + paymentGroup + ",");
    RecordWriteNested(es, 8, buffer, "paymentCard=", paymentCard);
    buffer := buffer + "paymentCard=" + paymentCard + ",";
    RecordWriteNested(es, 9, buffer, "buyer=", buyer);
    buffer := buffer + "buyer=" + buyer + ",";
    RecordWriteNested(es, 10, buffer, "shippingAddress=", shippingAddress);
    buffer := buffer + "shippingAddress=" + shippingAddress + ",";
    RecordWriteNested(es, 11, buffer, "billingAddress=", billingAddress);
    buffer := buffer + "billingAddress=" + billingAddress + ",";
    RecordWriteList(es, 12, buffer, "basketItems=[", basketItems);
    buffer := buffer + "basketItems=[" + basketItems + "],";
    RecordWriteLast(es, buffer, "currency=", currency);
    buffer := buffer + ("currency=" + currency);
  }


  // ---- the templates follow the grammar ----------------------------------

  lemma FormatBasketItemIsRecord(item: BasketItem)
    ensures FormatBasketItem(item) == Record(BasketItemEntries(item))
  {
    RecordOf6(
      "[id=", ",price=", ",name=", ",category1=", ",category2=", ",itemType=",
      "id", "price", "name", "category1", "category2", "itemType",
      item.id, item.price, item.name, item.category1, item.category2, item.itemType);
  }


  lemma FormatAddressIsRecord(a: Address)
    ensures FormatAddress(a) == Record(AddressEntries(a))
  {
    RecordOf5(
      "[address=", ",zipCode=", ",contactName=", ",city=", ",country=",
      "address", "zipCode", "contactName", "city", "country",
      a.address, a.zipCode, a.contactName, a.city, a.country);
  }


  // Each piece of the buyer template is "[" (first) or "," followed by the
  // entry's key and "=".

  lemma BuyerPieces()
    ensures "[id=" == "[" + "id" + "=" && ",name=" == "," + "name" + "="
    ensures ",surname=" == "," + "surname" + "=" && ",email=" == "," + "email" + "="
    ensures ",identityNumber=" == "," + "identityNumber" + "="
    ensures ",gsmNumber=" == "," + "gsmNumber" + "="
    ensures ",city=" == "," + "city" + "=" && ",country=" == "," + "country" + "="
    ensures ",zipCode=" == "," + "zipCode" + "=" && ",ip=" == "," + "ip" + "="
  {
    BuyerLongPieces();
  }

  lemma BuyerLongPieces()
    ensures ",registrationDate=" == "," + "registrationDate" + "="
    ensures ",lastLoginDate=" == "," + "lastLoginDate" + "="
    ensures ",registrationAddress=" == "," + "registrationAddress" + "="
  {
  }

  lemma FormatBuyerIsRecord(b: Buyer)
    ensures FormatBuyer(b) == Record(BuyerEntries(b))
  {
    BuyerPieces();
    RecordOf13(
      "[id=", ",name=", ",surname=", ",identityNumber=", ",email=", ",gsmNumber=", ",registrationDate=", ",lastLoginDate=", ",registrationAddress=", ",city=", ",country=", ",zipCode=", ",ip=",
      "id", "name", "surname", "identityNumber", "email", "gsmNumber", "registrationDate", "lastLoginDate", "registrationAddress", "city", "country", "zipCode", "ip",
      b.id, b.name, b.surname, b.identityNumber, b.email, b.gsmNumber, b.registrationDate, b.lastLoginDate, b.registrationAddress, b.city, b.country, b.zipCode, b.ip);
  }


  lemma FormatPaymentCardIsRecord(c: PaymentCard)
    ensures FormatPaymentCard(c) == Record(PaymentCardEntries(c))
  {
    RecordOf6(
      "[cardHolderName=", ",cardNumber=", ",expireYear=", ",expireMonth=", ",cvc=", ",registerCard=",
      "cardHolderName", "cardNumber", "expireYear", "expireMonth", "cvc", "registerCard",
      c.cardHolderName, c.cardNumber, c.expireYear, c.expireMonth, c.cvc, FormatInt(c.registerCard));
  }


  lemma FormatBillingAddressIsRecord(a: BillingAddress)
    ensures FormatBillingAddress(a) == Record(BillingAddressEntries(a))
  {
    RecordOf4(
      "[address=", ",contactName=", ",city=", ",country=",
      "address", "contactName", "city", "country",
      a.address, a.contactName, a.city, a.country);
  }


  // ---- what the canonical strings promise ---------------------------------

  /** The basket text of two non-empty baskets put together is the text of
      the first, ", ", then the text of the second: items keep their order. */
  lemma BasketItemsTextAppend(xs: seq<BasketItem>, ys: seq<BasketItem>)
    requires xs != [] && ys != []
    ensures BasketItemsText(xs + ys) == BasketItemsText(xs) + ", " + BasketItemsText(ys)
  {
    assert ItemTexts(xs + ys) == ItemTexts(xs) + ItemTexts(ys);
    JoinAppend(ItemTexts(xs), ItemTexts(ys), ", ");
  }

  /** The BKM string carries exactly these keys in this order; in particular
      neither `paymentChannel` nor `paymentCard` appears. */
  lemma InitializeBkmKeys(r: InitializeBkmRequest)
    ensures Keys(InitializeBkmEntries(r)) == ["locale", "conversationId", "price", "basketId",
      "paymentGroup", "buyer", "shippingAddress", "billingAddress", "basketItems", "callbackUrl"]
    ensures "paymentChannel" !in Keys(InitializeBkmEntries(r))
    ensures "paymentCard" !in Keys(InitializeBkmEntries(r))
  {
  }

  lemma CreatePaymentKeys(r: CreatePaymentRequest)
    ensures Keys(CreatePaymentEntries(r)) == ["locale", "conversationId", "price", "paidPrice",
      "installment", "paymentChannel", "basketId", "paymentGroup", "paymentCard", "buyer",
      "shippingAddress", "billingAddress", "basketItems", "currency"]
  {
  }

  /** Changing the payment channel or the card never changes the BKM string. */
  lemma InitializeBkmIgnoresPayment(r: InitializeBkmRequest, channel: string, card: PaymentCard)
    ensures InitializeBkmText(r.(paymentChannel := channel, paymentCard := card)) == InitializeBkmText(r)
  {
  }

  /** The BKM string opens with '[' and closes with ']', so it is never empty. */
  lemma InitializeBkmTextBracketed(r: InitializeBkmRequest)
    ensures |InitializeBkmText(r)| >= 2 && InitializeBkmText(r)[0] == '['
    ensures InitializeBkmText(r)[|InitializeBkmText(r)| - 1] == ']'
  {
    RecordBracketed(InitializeBkmEntries(r));
  }

  /** The payment string opens with '[' and closes with ']', so it is never empty. */
  lemma CreatePaymentTextBracketed(r: CreatePaymentRequest)
    ensures |CreatePaymentText(r)| >= 2 && CreatePaymentText(r)[0] == '['
    ensures CreatePaymentText(r)[|CreatePaymentText(r)| - 1] == ']'
  {
    RecordBracketed(CreatePaymentEntries(r));
  }


  predicate AddressCommaFree(a: Address) {
    NoComma(a.address) && NoComma(a.zipCode) && NoComma(a.contactName)
    && NoComma(a.city) && NoComma(a.country)
  }

  /** Without commas in the values, the address text determines the address. */
  lemma FormatAddressInjective(a1: Address, a2: Address)
    requires AddressCommaFree(a1) && AddressCommaFree(a2)
    requires FormatAddress(a1) == FormatAddress(a2)
    ensures a1 == a2
  {
    var es1, es2 := AddressEntries(a1), AddressEntries(a2);
    FormatAddressIsRecord(a1);
    FormatAddressIsRecord(a2);
    RecordInjective(es1, es2);
    assert es1[0].value == es2[0].value && es1[1].value == es2[1].value;
  }

  /** Values are inserted verbatim, so a comma in a value makes the text
      ambiguous: these two different addresses have the same text. */
  lemma FormatAddressAmbiguous(x: string, y: string, z: string)
    ensures Address("a", "1", x + ",city=" + y, z, "TR") != Address("a", "1", x, y + ",city=" + z, "TR")
    ensures FormatAddress(Address("a", "1", x + ",city=" + y, z, "TR"))
         == FormatAddress(Address("a", "1", x, y + ",city=" + z, "TR"))
  {
    var p := "[address=" + "a" + ",zipCode=" + "1" + ",contactName=";
    var a := p + (x + ",city=" + y) + ",city=" + z;
    var b := p + x + ",city=" + (y + ",city=" + z);
    assert a == b;
    assert |x + ",city=" + y| != |x|;
  }

  /** An example basket item, with `price` before `name`. */
  lemma FormatBasketItemExample()
    ensures FormatBasketItem(BasketItem("1", "Book", "Media", "Books", "PHYSICAL", "10"))
         == "[id=1,price=10,name=Book,category1=Media,category2=Books,itemType=PHYSICAL]"
  {
    var item := BasketItem("1", "Book", "Media", "Books", "PHYSICAL", "10");
    assert FormatBasketItem(item) == "[id=" + "1" + ",price=" + "10" + ",name=" + "Book"
      + ",category1=" + "Media" + ",category2=" + "Books" + ",itemType=" + "PHYSICAL" + "]";
    BasketItemExampleHead();
    // the rest of the template, one written piece at a time
    assert "[id=1,price=10,name=Book" + ",category1=" == "[id=1,price=10,name=Book,category1=";
    assert "[id=1,price=10,name=Book,category1=" + "Media" == "[id=1,price=10,name=Book,category1=Media";
    assert "[id=1,price=10,name=Book,category1=Media" + ",category2=" == "[id=1,price=10,name=Book,category1=Media,category2=";
    assert "[id=1,price=10,name=Book,category1=Media,category2=" + "Books" == "[id=1,price=10,name=Book,category1=Media,category2=Books";
    assert "[id=1,price=10,name=Book,category1=Media,category2=Books" + ",itemType=" == "[id=1,price=10,name=Book,category1=Media,category2=Books,itemType=";
    assert "[id=1,price=10,name=Book,category1=Media,category2=Books,itemType=" + "PHYSICAL" == "[id=1,price=10,name=Book,category1=Media,category2=Books,itemType=PHYSICAL";
    assert "[id=1,price=10,name=Book,category1=Media,category2=Books,itemType=PHYSICAL" + "]" == "[id=1,price=10,name=Book,category1=Media,category2=Books,itemType=PHYSICAL]";
  }

  /** The first three entries of the example item. */
  lemma BasketItemExampleHead()
    ensures "[id=" + "1" + ",price=" + "10" + ",name=" + "Book" == "[id=1,price=10,name=Book"
  {
    assert "[id=" + "1" == "[id=1";
    assert "[id=1" + ",price=" == "[id=1,price=";
    assert "[id=1,price=" + "10" == "[id=1,price=10";
    assert "[id=1,price=10" + ",name=" == "[id=1,price=10,name=";
    assert "[id=1,price=10,name=" + "Book" == "[id=1,price=10,name=Book";
  }


}
