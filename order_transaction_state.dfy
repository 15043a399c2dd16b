/**
 * The order-transaction state handler the helper drives. It keeps an
 * append-only log of the transitions it applied and refuses, by throwing,
 * the transitions it has been told to refuse.
 */
module OrderTransactionState {
  import opened Wrappers
  import opened PaynlApi
  import opened StatusMapping

  /** One applied call: `pay`, `refund`, … on an order-transaction id. */
  datatype Applied = Applied(orderTransactionId: string, transition: Transition)

  class TransactionStateHandler {
    var log: seq<Applied>
    var refusals: map<Transition, Exception>

    constructor (refusals: map<Transition, Exception>)
      ensures log == [] && this.refusals == refusals
    {
      log := [];
      this.refusals := refusals;
    }

    /**
     * The order's state has moved on (by this handler or elsewhere): from
     * now on exactly the transitions in `refusals` are refused.
     */
    method ChangeRefusals(refusals: map<Transition, Exception>)
      modifies this`refusals
      ensures this.refusals == refusals
    {
      this.refusals := refusals;
    }

    /** Applies `transition` to `orderTransactionId`, or throws its refusal. */
    method Apply(orderTransactionId: string, transition: Transition) returns (thrown: Option<Exception>)
      modifies this`log
      ensures thrown == if transition in refusals then Some(refusals[transition]) else None
      ensures log == if thrown.None? then old(log) + [Applied(orderTransactionId, transition)] else old(log)
    {
      if transition in refusals {
        thrown := Some(refusals[transition]);
      } else {
        thrown := None;
        log := log + [Applied(orderTransactionId, transition)];
      }
    }
  }
}
