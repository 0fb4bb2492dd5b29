/// The request records of the iyzico signing core and the outcomes its
/// operations return. Every record is an immutable value supplied by the
/// caller: the core only reads it.
module Requests {

  /** The failures the core can report. `EmptyField` and `ZeroField` carry
      the field name that the corresponding Go error message starts with. */
  datatype Error =
    | EmptyCredentials          // apiKey, secretKey or rnd is empty
    | EmptyInput                // a signer input is empty
    | EmptyField(name: string)  // "<name> is empty"
    | ZeroField(name: string)   // "<name> is zero"

  /** What a validator returns: Go's `nil` error or the first error found. */
  datatype Outcome = Pass | Fail(error: Error)

  /** A value or an error, for the operations that return both in Go. */
  datatype Result<T> = Success(value: T) | Failure(error: Error)

  datatype PaymentCard = PaymentCard(
    cardHolderName: string,
    cardNumber: string,
    expireYear: string,
    expireMonth: string,
    cvc: string,
    registerCard: int)

  datatype Buyer = Buyer(
    id: string,
    name: string,
    surname: string,
    identityNumber: string,
    email: string,
    gsmNumber: string,
    registrationDate: string,
    lastLoginDate: string,
    registrationAddress: string,
    city: string,
    country: string,
    zipCode: string,
    ip: string)

  datatype Address = Address(
    address: string,
    zipCode: string,
    contactName: string,
    city: string,
    country: string)

  /** The billing address of a direct payment: an Address without a zip code. */
  datatype BillingAddress = BillingAddress(
    address: string,
    contactName: string,
    city: string,
    country: string)

  datatype BasketItem = BasketItem(
    id: string,
    name: string,
    category1: string,
    category2: string,
    itemType: string,
    price: string)

  datatype CreatePaymentRequest = CreatePaymentRequest(
    locale: string,
    conversationId: string,
    price: string,
    paidPrice: string,
    installment: int,
    paymentChannel: string,
    basketId: string,
    paymentGroup: string,
    paymentCard: PaymentCard,
    buyer: Buyer,
    shippingAddress: Address,
    billingAddress: BillingAddress,
    basketItems: seq<BasketItem>,
    currency: string)

  datatype InitializeBkmRequest = InitializeBkmRequest(
    locale: string,
    conversationId: string,
    price: string,
    paymentChannel: string,
    basketId: string,
    paymentGroup: string,
    paymentCard: PaymentCard,
    buyer: Buyer,
    shippingAddress: Address,
    billingAddress: Address,
    basketItems: seq<BasketItem>,
    callbackUrl: string)
}
