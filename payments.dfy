/**
 * Invoice creation and payment-update handling (backend/payments.js).
 *
 * The payment provider is not modelled: its invoice call is a parameter that
 * maps the request sent to the reply received. The invoice payload, which the
 * source serialises to JSON and parses back, is a record whose parse may fail.
 */
module Payments {
  import opened Wrappers
  import opened Schema
  import opened Purchases
  import opened Database

  const ProductNotFound: string := "Товар не найден"
  const UserNotFound: string := "Пользователь не найден"

  /** The correlation data carried by an invoice: `{product_id, user_id, telegram_id}`. */
  datatype Payload = Payload(productId: int, userId: int, telegramId: int)

  /** The invoice's opaque payload field as it travels: a serialised record, or a text that does not parse. */
  datatype RawPayload = Encoded(fields: Payload) | Unparseable(reason: string)

  /** `JSON.stringify` of the correlation record. */
  function EncodePayload(p: Payload): (raw: RawPayload)
    ensures ParsePayload(raw) == Success(p)
  {
    Encoded(p)
  }

  /** `JSON.parse` of a payload field: it fails, with an error message, on a text that is not a record. */
  function ParsePayload(raw: RawPayload): Result<Payload, string> {
    match raw
    case Encoded(p) => Success(p)
    case Unparseable(reason) => Failure(reason)
  }

  /** Whatever parses is the serialisation of the record it parses to. */
  lemma EncodeAfterParse(raw: RawPayload)
    ensures ParsePayload(raw).Success? ==> EncodePayload(ParsePayload(raw).value) == raw
  {
  }

  /** The request `createInvoice` sends to the provider. */
  datatype InvoiceRequest = InvoiceRequest(amount: int, currencyType: string, fiat: string, asset: string,
                                           description: string, paidBtnName: string, paidBtnUrl: string,
                                           payload: RawPayload)

  /** What the provider's invoice call yields: an invoice, or a thrown error. */
  datatype ProviderReply = Issued(payUrl: string, invoiceId: int) | ProviderFailure(message: string)

  /** `{success: true, pay_url, invoice_id}` or `{success: false, error}`. */
  datatype InvoiceResult = InvoiceCreated(payUrl: string, invoiceId: int) | InvoiceFailed(error: string)

  /** A provider update: its status and the payload echoed from the invoice. */
  datatype PaymentUpdate = PaymentUpdate(status: string, payload: RawPayload)

  /**
   * `{success: true, telegram_id, product_id}`, `{success: false}` for a
   * status other than paid, or `{success: false, error}`.
   */
  datatype UpdateAck = Processed(telegramId: int, productId: int) | NotPaid | Rejected(error: string)

  /**
   * The invoice request for `product` bought by `user`: it asks for the
   * product's price in roubles, names the product, and its payload decodes to
   * the requested product id, the user's row id and the buyer's telegram id.
   */
  function InvoiceRequestFor(product: Product, user: User, productId: int, telegramId: int): (r: InvoiceRequest)
    ensures r.amount == product.price && r.description == product.name
    ensures r.currencyType == "fiat" && r.fiat == "RUB" && r.asset == "USDT"
    ensures ParsePayload(r.payload) == Success(Payload(productId, user.id, telegramId))
  {
    InvoiceRequest(product.price, "fiat", "RUB", "USDT", product.name, "callback", "https://t.me/your_bot",
                   EncodePayload(Payload(productId, user.id, telegramId)))
  }

  /**
   * `createInvoice(productId, telegramId)` at time `now`, with `provider` standing
   * for the provider's invoice call. The product and the user are looked up
   * first; the pending purchase is recorded only once the provider has issued
   * the invoice, so every failure leaves the tables as they were.
   */
  method CreateInvoice(db: Store, productId: int, telegramId: int, provider: InvoiceRequest -> ProviderReply,
                       now: int) returns (r: InvoiceResult)
    requires db.Valid()
    modifies db
    ensures db.Valid()
    ensures db.users == old(db.users) && db.products == old(db.products)
    ensures OnlyPromotes(old(db.purchases), db.purchases)
    ensures FindProduct(db.products, productId).None? ==>
              r == InvoiceFailed(ProductNotFound) && db.purchases == old(db.purchases)
    ensures FindProduct(db.products, productId).Some? && FindUserByTelegramId(db.users, telegramId).None? ==>
              r == InvoiceFailed(UserNotFound) && db.purchases == old(db.purchases)
    ensures FindProduct(db.products, productId).Some? && FindUserByTelegramId(db.users, telegramId).Some? ==>
              var product := FindProduct(db.products, productId).value;
              var user := FindUserByTelegramId(db.users, telegramId).value;
              match provider(InvoiceRequestFor(product, user, productId, telegramId))
              case ProviderFailure(message) =>
                r == InvoiceFailed(message) && db.purchases == old(db.purchases) &&
                db.purchaseSeq == old(db.purchaseSeq)
              case Issued(payUrl, invoiceId) =>
                r == InvoiceCreated(payUrl, invoiceId) && db.purchaseSeq == old(db.purchaseSeq) + 1 &&
                db.purchases == old(db.purchases) +
                  [Purchase(old(db.purchaseSeq) + 1, user.id, productId, product.price, Pending, now)]
    ensures r.InvoiceFailed? ==> db.purchases == old(db.purchases) && db.purchaseSeq == old(db.purchaseSeq)
    ensures r.InvoiceCreated? ==>
              FindProduct(db.products, productId).Some? && FindUserByTelegramId(db.users, telegramId).Some?
  {
    var product := FindProduct(db.products, productId);
    if product.None? {
      return InvoiceFailed(ProductNotFound);
    }
    var user := FindUserByTelegramId(db.users, telegramId);
    if user.None? {
      return InvoiceFailed(UserNotFound);
    }
    var request := InvoiceRequestFor(product.value, user.value, productId, telegramId);
    var reply := provider(request);
    if reply.ProviderFailure? {
      return InvoiceFailed(reply.message);
    }
    assert HasUserId(db.users, user.value.id) by {
      var k :| 0 <= k < |db.users| && db.users[k] == user.value;
    }
    var _ := db.InsertPendingPurchase(user.value.id, productId, product.value.price, now);
    r := InvoiceCreated(reply.payUrl, reply.invoiceId);
  }

  /**
   * `handlePaymentUpdate(update)`. A paid update with a parsable payload settles
   * at most one row, the most recent pending purchase of the payload's
   * (user id, product id), and is acknowledged whether or not a row was
   * settled: the acknowledgement depends on the update alone.
   */
  method HandlePaymentUpdate(db: Store, update: PaymentUpdate) returns (ack: UpdateAck)
    requires db.Valid()
    modifies db
    ensures db.Valid()
    ensures db.users == old(db.users) && db.products == old(db.products) && db.purchaseSeq == old(db.purchaseSeq)
    ensures OnlyPromotes(old(db.purchases), db.purchases) && |db.purchases| == |old(db.purchases)|
    ensures update.status != "paid" ==> ack == NotPaid && db.purchases == old(db.purchases)
    ensures update.status == "paid" && ParsePayload(update.payload).Failure? ==>
              ack == Rejected(ParsePayload(update.payload).error) && db.purchases == old(db.purchases)
    ensures update.status == "paid" && ParsePayload(update.payload).Success? ==>
              var p := ParsePayload(update.payload).value;
              var before := PendingCount(old(db.purchases), p.userId, p.productId);
              ack == Processed(p.telegramId, p.productId) &&
              PendingCount(db.purchases, p.userId, p.productId) == (if before == 0 then 0 else before - 1) &&
              (before == 0 ==> db.purchases == old(db.purchases)) &&
              (before > 0 ==> exists i :: IsLatestPending(old(db.purchases), i, p.userId, p.productId) &&
                                          db.purchases == MarkPaid(old(db.purchases), i))
  {
    if update.status == "paid" {
      var parsed := ParsePayload(update.payload);
      if parsed.Failure? {
        return Rejected(parsed.error);
      }
      var p := parsed.value;
      var settled := db.SettleLatestPending(p.userId, p.productId);
      if settled.Some? {
        MarkPaidPendingCount(old(db.purchases), settled.value, p.userId, p.productId);
      }
      return Processed(p.telegramId, p.productId);
    }
    return NotPaid;
  }

  /**
   * An invoice followed by the provider's paid update for it: the update
   * settles a pending purchase of the same (user, product) pair, so the
   * pair's pending count returns to what it was before the invoice. The row
   * settled need not be the one just created: another pending row of the
   * pair with an equal or later `created_at` may be chosen instead.
   */
  method InvoiceThenPayment(db: Store, productId: int, telegramId: int, provider: InvoiceRequest -> ProviderReply,
                            now: int) returns (r: InvoiceResult, ack: Option<UpdateAck>)
    requires db.Valid()
    modifies db
    ensures db.Valid() && OnlyPromotes(old(db.purchases), db.purchases)
    ensures db.users == old(db.users) && db.products == old(db.products)
    ensures r.InvoiceFailed? ==>
              ack == None && db.purchases == old(db.purchases) && db.purchaseSeq == old(db.purchaseSeq)
    ensures r.InvoiceCreated? ==>
              FindUserByTelegramId(db.users, telegramId).Some? && FindProduct(db.products, productId).Some?
    ensures r.InvoiceCreated? ==>
              var user := FindUserByTelegramId(db.users, telegramId).value;
              var product := FindProduct(db.products, productId).value;
              var row := Purchase(old(db.purchaseSeq) + 1, user.id, productId, product.price, Pending, now);
              ack == Some(Processed(telegramId, productId)) &&
              db.purchaseSeq == old(db.purchaseSeq) + 1 &&
              (exists i :: IsLatestPending(old(db.purchases) + [row], i, user.id, productId) &&
                           db.purchases == MarkPaid(old(db.purchases) + [row], i)) &&
              PendingCount(db.purchases, user.id, productId) == PendingCount(old(db.purchases), user.id, productId)
  {
    ghost var before := db.purchases;
    r := CreateInvoice(db, productId, telegramId, provider, now);
    if r.InvoiceFailed? {
      return r, None;
    }
    ghost var afterInvoice := db.purchases;
    var product := FindProduct(db.products, productId).value;
    var user := FindUserByTelegramId(db.users, telegramId).value;
    var request := InvoiceRequestFor(product, user, productId, telegramId);
    assert provider(request).Issued?;
    ghost var row := afterInvoice[|afterInvoice| - 1];
    assert afterInvoice == before + [row] && IsPendingFor(row, user.id, productId);
    AppendPendingCount(before, row, user.id, productId);
    assert ParsePayload(request.payload) == Success(Payload(productId, user.id, telegramId));
    var a := HandlePaymentUpdate(db, PaymentUpdate("paid", request.payload));
    OnlyPromotesTransitive(before, afterInvoice, db.purchases);
    ack := Some(a);
  }
}
