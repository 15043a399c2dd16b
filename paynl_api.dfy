/**
 * What the PAY.NL client hands back: a transaction snapshot, or an
 * exception with a code and a message.
 */
module PaynlApi {
  /** The `paymentDetails` payload fields used in the result text, as printed. */
  datatype PaymentDetails = PaymentDetails(stateName: string, state: string, orderNumber: string)

  /** The seven status predicates of a transaction, plus its payload. */
  datatype Snapshot = Snapshot(
    beingVerified: bool,
    pending: bool,
    refunded: bool,
    partiallyRefunded: bool,
    authorized: bool,
    paid: bool,
    canceled: bool,
    paymentDetails: PaymentDetails)

  /** A PHP `Exception`: what `catch (Exception $e)` sees of it. */
  datatype Exception = Exception(code: int, message: string)

  /** The outcome of `getTransaction(id)`. */
  datatype Fetch = Fetched(snapshot: Snapshot) | Threw(exception: Exception)
}
