/** The persisted records. Amounts are integers (the Go code uses float64)
    and instants are integers on a fixed scale where 0 is Go's zero
    time.Time, i.e. "unset". */
module Entity {

  /** One purchased line item (entity/request.go). `title` stands for the
      `ItemName` field the orchestrator reads when it prices the order. */
  datatype Request = Request(
    id: int,
    paymentId: string,
    title: string,
    price: int,
    tax: int,
    track: string,
    status: string,
    createdAt: int,
    storeId: int,
    productId: int,
    userId: int)

  /** A billing record (entity/payment.go). */
  datatype Payment = Payment(
    id: int,
    total: int,
    pix: string,
    status: string,
    createdAt: int,
    storeId: int,
    productId: int)

  /** The primary keys, as function values for the generic table helpers. */
  function RequestKey(r: Request): int { r.id }
  function PaymentKey(p: Payment): int { p.id }
}
