/**
 * The local PAY.NL transaction record (table `paynl_transactions`) and the
 * status codes written into its `stateId` column.
 */
module Entity {
  import opened Wrappers

  /**
   * The STATUS_* codes of the entity definition, kept symbolic. `Unset` is
   * the literal 0 that the status mapping starts from and writes when no
   * predicate of the snapshot holds.
   */
  datatype LocalStatus = Unset | StatusPending | StatusAuthorized | StatusPaid | StatusRefund | StatusCancel

  /**
   * One row. `amount` is the order total, carried as an opaque number: no
   * arithmetic is done on it. Nullable columns are `Option`s; `stateId`
   * is `None` until a status is first written.
   */
  datatype PaynlTransaction = PaynlTransaction(
    id: string,
    customerId: string,
    orderId: string,
    orderTransactionId: string,
    paynlTransactionId: string,
    paymentId: int,
    amount: real,
    currency: string,
    exception: string,
    comment: Option<string>,
    dispatch: string,
    orderStateId: Option<string>,
    stateId: Option<LocalStatus>)

  /** The repository: every record is stored under its own internal id. */
  predicate KeyedById(records: map<string, PaynlTransaction>)
  {
    forall id :: id in records ==> records[id].id == id
  }

  /** The repository after the update `{id, stateId: status}`. */
  function WithStatus(records: map<string, PaynlTransaction>, id: string, status: LocalStatus)
    : (r: map<string, PaynlTransaction>)
    requires id in records
    ensures r.Keys == records.Keys
    ensures r[id].stateId == Some(status)
    ensures r[id] == records[id].(stateId := r[id].stateId)
    ensures forall k :: k in records && k != id ==> r[k] == records[k]
    ensures KeyedById(records) ==> KeyedById(r)
  {
    records[id := records[id].(stateId := Some(status))]
  }
}
