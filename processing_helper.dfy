/**
 * The reconciliation helper: it records payment attempts, looks records
 * up, and brings a record's status in line with what PAY.NL reports.
 */
module Helper {
  import opened Wrappers
  import opened Entity
  import opened PaynlApi
  import opened StatusMapping
  import opened OrderTransactionState

  /** The parts of the payment struct that a new record copies. */
  datatype AsyncPaymentTransaction = AsyncPaymentTransaction(
    orderId: string, orderTransactionId: string, amountTotal: real)

  /** The parts of the sales-channel context that a new record copies. */
  datatype SalesChannelContext = SalesChannelContext(
    paymentMethodId: string, customerId: string, currencyIsoCode: string, shippingMethodId: string)

  const NoActionMessage: string := "No action, order was not created"

  /** The exception code a notification treats as a message to hand back. */
  const ExchangeCode: int := 999

  /** `(string)$exception`: the throwable's text, or "" for null. */
  function ExceptionText(exception: Option<string>): (text: string)
    ensures exception.None? ==> text == ""
    ensures exception.Some? ==> text == exception.value
  {
    match exception
    case None => ""
    case Some(text) => text
  }

  /** The row `storePaynlTransactionData` creates. */
  function NewRecord(
    id: string, transaction: AsyncPaymentTransaction, channel: SalesChannelContext,
    paynlTransactionId: string, paymentId: int, exception: Option<string>): (r: PaynlTransaction)
    ensures r.id == id && r.paynlTransactionId == paynlTransactionId
    ensures r.orderId == transaction.orderId && r.orderTransactionId == transaction.orderTransactionId
    ensures r.customerId == channel.customerId && r.paymentId == paymentId
    ensures r.amount == transaction.amountTotal && r.currency == channel.currencyIsoCode
    ensures r.dispatch == channel.shippingMethodId
    ensures r.stateId == None && r.comment == None && r.orderStateId == None
    ensures exception.None? ==> r.exception == ""
    ensures exception.Some? ==> r.exception == exception.value
  {
    PaynlTransaction(
      id := id,
      customerId := channel.customerId,
      orderId := transaction.orderId,
      orderTransactionId := transaction.orderTransactionId,
      paynlTransactionId := paynlTransactionId,
      paymentId := paymentId,
      amount := transaction.amountTotal,
      currency := channel.currencyIsoCode,
      exception := ExceptionText(exception),
      comment := None,
      dispatch := channel.shippingMethodId,
      orderStateId := None,
      stateId := None)
  }

  /** The two columns the helper searches on. */
  datatype Field = OrderId | PaynlTransactionId

  function FieldOf(r: PaynlTransaction, field: Field): string
  {
    match field
    case OrderId => r.orderId
    case PaynlTransactionId => r.paynlTransactionId
  }

  const StatusPrefix: string := "Status updated to: "
  const StateOpen: string := " ("
  const OrderNumberLabel: string := ") orderNumber: "

  /** The success text: "Status updated to: <stateName> (<state>) orderNumber: <orderNumber>". */
  function StatusUpdatedMessage(d: PaymentDetails): string
  {
    StatusPrefix + d.stateName + StateOpen + d.state + OrderNumberLabel + d.orderNumber
  }

  /**
   * The success text starts with the prefix and the state name and ends with
   * the order number, so it never reads as the no-action text.
   */
  lemma StatusUpdatedMessageParts(d: PaymentDetails)
    ensures var m := StatusUpdatedMessage(d);
      |m| == |StatusPrefix| + |d.stateName| + |StateOpen| + |d.state| + |OrderNumberLabel| + |d.orderNumber|
      && m[..|StatusPrefix|] == StatusPrefix
      && m[|StatusPrefix|..|StatusPrefix| + |d.stateName|] == d.stateName
      && m[|m| - |d.orderNumber|..] == d.orderNumber
      && m != NoActionMessage
  {
  }

  /** What the catch block yields for a caught exception. */
  function Caught(isExchange: bool, e: Exception): (m: string)
    ensures isExchange && e.code == ExchangeCode ==> m == e.message
    ensures !(isExchange && e.code == ExchangeCode) ==> m == NoActionMessage
  {
    if isExchange && e.code == ExchangeCode then e.message else NoActionMessage
  }

  /** The exception raised inside the try block, if any: by the fetch or by the transition. */
  function Raised(fetch: Fetch, refusals: map<Transition, Exception>): (e: Option<Exception>)
    ensures fetch.Threw? ==> e == Some(fetch.exception)
    ensures fetch.Fetched? ==>
      var t := MapStatus(fetch.snapshot).transition;
      (e.Some? <==> t.Some? && t.value in refusals)
      && (e.Some? ==> e.value == refusals[t.value])
  {
    match fetch
    case Threw(e) => Some(e)
    case Fetched(s) =>
      var t := MapStatus(s).transition;
      if t.Some? && t.value in refusals then Some(refusals[t.value]) else None
  }

  /**
   * The effect of one `updateTransaction` run: the transition applied, the
   * status written (`None`: no write) and the text returned.
   */
  datatype Plan = Plan(applied: Option<Applied>, written: Option<LocalStatus>, result: string)

  function UpdatePlan(
    record: PaynlTransaction, isExchange: bool, fetch: Fetch, refusals: map<Transition, Exception>): (p: Plan)
    // the status is written exactly when neither the fetch nor the transition threw
    ensures p.written.Some? <==> Raised(fetch, refusals).None?
    ensures p.written.Some? ==>
      p.written.value == MapStatus(fetch.snapshot).status
      && p.result == StatusUpdatedMessage(fetch.snapshot.paymentDetails)
    // a transition is applied when one is mapped and it did not throw, on the record's order transaction
    ensures p.applied.Some? <==> p.written.Some? && MapStatus(fetch.snapshot).transition.Some?
    ensures p.applied.Some? ==>
      p.applied.value.orderTransactionId == record.orderTransactionId
      && Some(p.applied.value.transition) == MapStatus(fetch.snapshot).transition
    // a caught exception yields its message (notification, code 999) or the no-action text
    ensures Raised(fetch, refusals).Some? ==>
      var e := Raised(fetch, refusals).value;
      p.result == (if isExchange && e.code == ExchangeCode then e.message else NoActionMessage)
  {
    match Raised(fetch, refusals)
    case Some(e) => Plan(None, None, Caught(isExchange, e))
    case None =>
      var d := MapStatus(fetch.snapshot);
      var applied := if d.transition.Some? then Some(Applied(record.orderTransactionId, d.transition.value)) else None;
      Plan(applied, Some(d.status), StatusUpdatedMessage(fetch.snapshot.paymentDetails))
  }

  /** The repository after an optional status write on `id`. */
  function Written(records: map<string, PaynlTransaction>, id: string, written: Option<LocalStatus>)
    : map<string, PaynlTransaction>
    requires id in records
  {
    match written
    case None => records
    case Some(status) => WithStatus(records, id, status)
  }

  /** The log entries an optional applied transition adds. */
  function Logged(applied: Option<Applied>): seq<Applied>
  {
    match applied
    case None => []
    case Some(a) => [a]
  }

  /** The plan of each delivery of a notification, one per state-handler configuration. */
  function DeliveryPlans(
    record: PaynlTransaction, fetch: Fetch, refusals: seq<map<Transition, Exception>>): (plans: seq<Plan>)
    ensures |plans| == |refusals|
    decreases |refusals|
  {
    if refusals == [] then []
    else
      DeliveryPlans(record, fetch, refusals[..|refusals| - 1])
      + [UpdatePlan(record, true, fetch, refusals[|refusals| - 1])]
  }

  /** Delivery i runs the plan its own refusals allow. */
  lemma {:induction false} DeliveryPlanAt(
    record: PaynlTransaction, fetch: Fetch, refusals: seq<map<Transition, Exception>>, i: nat)
    requires i < |refusals|
    decreases |refusals|
    ensures DeliveryPlans(record, fetch, refusals)[i] == UpdatePlan(record, true, fetch, refusals[i])
  {
    if i < |refusals| - 1 {
      DeliveryPlanAt(record, fetch, refusals[..|refusals| - 1], i);
    }
  }

  /** The repository after the writes of `plans`, in order, on `id`. */
  function AfterWrites(records: map<string, PaynlTransaction>, id: string, plans: seq<Plan>)
    : (r: map<string, PaynlTransaction>)
    requires id in records
    ensures r.Keys == records.Keys
    decreases |plans|
  {
    if plans == [] then records
    else Written(AfterWrites(records, id, plans[..|plans| - 1]), id, plans[|plans| - 1].written)
  }

  /** The log entries the transitions of `plans` add, in order. */
  function LoggedAll(plans: seq<Plan>): seq<Applied>
    decreases |plans|
  {
    if plans == [] then [] else LoggedAll(plans[..|plans| - 1]) + Logged(plans[|plans| - 1].applied)
  }

  /** One more plan extends the writes and the log entries by that plan's own. */
  lemma AppendPlan(
    records: map<string, PaynlTransaction>, log: seq<Applied>, id: string, plans: seq<Plan>, i: nat)
    requires id in records && i < |plans|
    ensures AfterWrites(records, id, plans[..i + 1])
         == Written(AfterWrites(records, id, plans[..i]), id, plans[i].written)
    ensures log + LoggedAll(plans[..i + 1]) == (log + LoggedAll(plans[..i])) + Logged(plans[i].applied)
    ensures Replies(plans[..i + 1]) == Replies(plans[..i]) + [Returned(plans[i].result)]
  {
    assert plans[..i + 1][..i] == plans[..i];
    assert LoggedAll(plans[..i + 1]) == LoggedAll(plans[..i]) + Logged(plans[i].applied);
  }

  /** Every plan of `plans` writes nothing or `status`. */
  predicate WritesOnly(plans: seq<Plan>, status: LocalStatus)
  {
    forall j :: 0 <= j < |plans| ==> plans[j].written in {None, Some(status)}
  }

  /** Every delivery of one fetched snapshot writes nothing or the mapped status. */
  lemma DeliveriesWriteMapped(record: PaynlTransaction, fetch: Fetch, refusals: seq<map<Transition, Exception>>)
    requires fetch.Fetched?
    ensures WritesOnly(DeliveryPlans(record, fetch, refusals), MapStatus(fetch.snapshot).status)
  {
    var plans := DeliveryPlans(record, fetch, refusals);
    forall j | 0 <= j < |plans|
      ensures plans[j].written in {None, Some(MapStatus(fetch.snapshot).status)}
    {
      DeliveryPlanAt(record, fetch, refusals, j);
    }
  }

  /**
   * Writes that all carry the same status settle on it: the repository ends
   * as it was or with exactly that status on `id`.
   */
  lemma {:induction false} WritesSettle(
    records: map<string, PaynlTransaction>, id: string, plans: seq<Plan>, status: LocalStatus)
    requires id in records
    requires WritesOnly(plans, status)
    decreases |plans|
    ensures AfterWrites(records, id, plans) == records
         || AfterWrites(records, id, plans) == WithStatus(records, id, status)
  {
    if plans != [] {
      var init := plans[..|plans| - 1];
      assert forall j :: 0 <= j < |init| ==> init[j] == plans[j];
      WritesSettle(records, id, init, status);
      var before := AfterWrites(records, id, init);
      if plans[|plans| - 1].written.Some? {
        assert WithStatus(before, id, status) == WithStatus(records, id, status);
      }
    }
  }

  /** A write at index `j` settles the repository on the shared status. */
  lemma {:induction false} WriteSettles(
    records: map<string, PaynlTransaction>, id: string, plans: seq<Plan>, status: LocalStatus, j: nat)
    requires id in records && j < |plans| && plans[j].written == Some(status)
    requires WritesOnly(plans, status)
    decreases |plans|
    ensures AfterWrites(records, id, plans) == WithStatus(records, id, status)
  {
    var init := plans[..|plans| - 1];
    assert forall k :: 0 <= k < |init| ==> init[k] == plans[k];
    var before := AfterWrites(records, id, init);
    if j == |plans| - 1 {
      WritesSettle(records, id, init, status);
      assert WithStatus(before, id, status) == WithStatus(records, id, status);
    } else {
      WriteSettles(records, id, init, status, j);
      if plans[|plans| - 1].written.Some? {
        assert WithStatus(before, id, status) == WithStatus(records, id, status);
      }
    }
  }

  /** Without any write the repository is left as it was. */
  lemma {:induction false} NoWriteKeeps(records: map<string, PaynlTransaction>, id: string, plans: seq<Plan>)
    requires id in records
    requires forall k :: 0 <= k < |plans| ==> plans[k].written.None?
    decreases |plans|
    ensures AfterWrites(records, id, plans) == records
  {
    if plans != [] {
      var init := plans[..|plans| - 1];
      assert forall k :: 0 <= k < |init| ==> init[k] == plans[k];
      NoWriteKeeps(records, id, init);
    }
  }

  /**
   * The plan does not read the record's stored status: a run that follows
   * a status write on the same record computes the same plan.
   */
  lemma PlanIgnoresStateId(
    record: PaynlTransaction, stateId: Option<LocalStatus>, isExchange: bool, fetch: Fetch,
    refusals: map<Transition, Exception>)
    ensures UpdatePlan(record.(stateId := stateId), isExchange, fetch, refusals)
         == UpdatePlan(record, isExchange, fetch, refusals)
  {
  }

  /**
   * Deliveries of one fetched snapshot, whatever the state handler refuses
   * at each, leave the repository as it was when none of them writes, and
   * with the mapped status on `id` as soon as one of them does.
   */
  lemma DeliveriesSettle(
    records: map<string, PaynlTransaction>, id: string, record: PaynlTransaction, fetch: Fetch,
    refusals: seq<map<Transition, Exception>>)
    requires id in records && fetch.Fetched?
    ensures var plans := DeliveryPlans(record, fetch, refusals);
      var after := AfterWrites(records, id, plans);
      (after == records || after == WithStatus(records, id, MapStatus(fetch.snapshot).status))
      && ((forall j :: 0 <= j < |plans| ==> plans[j].written.None?) ==> after == records)
      && ((exists j :: 0 <= j < |plans| && plans[j].written.Some?) ==>
        after == WithStatus(records, id, MapStatus(fetch.snapshot).status))
  {
    var plans := DeliveryPlans(record, fetch, refusals);
    var status := MapStatus(fetch.snapshot).status;
    DeliveriesWriteMapped(record, fetch, refusals);
    WritesSettle(records, id, plans, status);
    if exists j :: 0 <= j < |plans| && plans[j].written.Some? {
      var j :| 0 <= j < |plans| && plans[j].written.Some?;
      WriteSettles(records, id, plans, status, j);
    } else {
      NoWriteKeeps(records, id, plans);
    }
  }

  /**
   * Delivery i writes the mapped status and returns the success text exactly
   * when the state handler did not refuse its transition; a refused one
   * writes nothing and returns the caught text, which is never the success
   * text unless the exception carries the exchange code.
   */
  lemma DeliveryOutcome(
    record: PaynlTransaction, fetch: Fetch, refusals: seq<map<Transition, Exception>>, i: nat)
    requires fetch.Fetched? && i < |refusals|
    ensures var p := DeliveryPlans(record, fetch, refusals)[i];
      var t := MapStatus(fetch.snapshot).transition;
      var refused := t.Some? && t.value in refusals[i];
      var success := StatusUpdatedMessage(fetch.snapshot.paymentDetails);
      (p.written.Some? <==> !refused)
      && (!refused ==> p.written == Some(MapStatus(fetch.snapshot).status) && p.result == success)
      && (refused ==> p.result == Caught(true, refusals[i][t.value]))
      && (refused && refusals[i][t.value].code != ExchangeCode ==> p.result != success)
  {
    DeliveryPlanAt(record, fetch, refusals, i);
    StatusUpdatedMessageParts(fetch.snapshot.paymentDetails);
  }

  /** What `processNotify` hands back to its caller. */
  datatype NotifyOutcome =
    | ReturnedNull                 // bare `return` on a pending snapshot
    | Returned(text: string)       // the result of `updateTransaction`
    | ThrewException(e: Exception) // the fetch threw; nothing catches it
    | ThrewTypeError               // no record found: null reaches a typed parameter

  /** The texts that deliveries running `plans` return, in order. */
  function Replies(plans: seq<Plan>): (r: seq<NotifyOutcome>)
    ensures |r| == |plans|
    decreases |plans|
  {
    if plans == [] then [] else Replies(plans[..|plans| - 1]) + [Returned(plans[|plans| - 1].result)]
  }

  /** Delivery i returns the text of plan i. */
  lemma {:induction false} RepliesAt(plans: seq<Plan>)
    decreases |plans|
    ensures forall i :: 0 <= i < |plans| ==> Replies(plans)[i] == Returned(plans[i].result)
  {
    if plans != [] {
      var init := plans[..|plans| - 1];
      RepliesAt(init);
      assert forall i :: 0 <= i < |init| ==> init[i] == plans[i];
    }
  }

  /** `n` deliveries that all end in `outcome`. */
  function Copies(outcome: NotifyOutcome, n: nat): (r: seq<NotifyOutcome>)
    ensures |r| == n
    ensures forall i :: 0 <= i < n ==> r[i] == outcome
  {
    if n == 0 then [] else Copies(outcome, n - 1) + [outcome]
  }

  class ProcessingHelper {
    /** The `paynl_transactions` repository, keyed by internal id. */
    var records: map<string, PaynlTransaction>
    const transactionStateHandler: TransactionStateHandler

    ghost predicate Valid()
      reads this
    {
      KeyedById(records)
    }

    /**
     * Record `id` is the only one carrying `paynlTransactionId`, and it
     * differs from `base` at most in its stored status.
     */
    ghost predicate SoleCarrier(id: string, paynlTransactionId: string, base: PaynlTransaction)
      reads this
    {
      Valid() && id in records && records[id].paynlTransactionId == paynlTransactionId
      && (forall k :: k in records && records[k].paynlTransactionId == paynlTransactionId ==> k == id)
      && records[id] == base.(stateId := records[id].stateId)
    }

    constructor (records: map<string, PaynlTransaction>, transactionStateHandler: TransactionStateHandler)
      requires KeyedById(records)
      ensures Valid()
      ensures this.records == records && this.transactionStateHandler == transactionStateHandler
    {
      this.records := records;
      this.transactionStateHandler := transactionStateHandler;
    }

    /**
     * Adds one record for a payment attempt under the fresh id the
     * repository generates; duplicates for the same order are not checked.
     * `paymentIdOf` is the client's payment-method lookup.
     */
    method StorePaynlTransactionData(
      transaction: AsyncPaymentTransaction, salesChannelContext: SalesChannelContext,
      paynlTransactionId: string, exception: Option<string>, paymentIdOf: string -> int, newId: string)
      requires Valid() && newId !in records
      modifies this
      ensures Valid()
      ensures records == old(records)[newId := NewRecord(newId, transaction, salesChannelContext,
        paynlTransactionId, paymentIdOf(salesChannelContext.paymentMethodId), exception)]
      ensures |records| == |old(records)| + 1
    {
      var paymentId := paymentIdOf(salesChannelContext.paymentMethodId);
      var row := NewRecord(newId, transaction, salesChannelContext, paynlTransactionId, paymentId, exception);
      records := records[newId := row];
    }

    /** `search(...)->first()`: some record whose `field` equals `value`, or none. */
    method SearchFirst(field: Field, value: string) returns (found: Option<PaynlTransaction>)
      ensures found.Some? ==> found.value in records.Values && FieldOf(found.value, field) == value
      ensures found.None? ==> forall id :: id in records ==> FieldOf(records[id], field) != value
    {
      if exists id :: id in records && FieldOf(records[id], field) == value {
        var id :| id in records && FieldOf(records[id], field) == value;
        found := Some(records[id]);
      } else {
        found := None;
      }
    }

    method FindTransactionByOrderId(orderId: string) returns (found: Option<PaynlTransaction>)
      ensures found.Some? ==> found.value in records.Values && found.value.orderId == orderId
      ensures found.None? ==> forall id :: id in records ==> records[id].orderId != orderId
    {
      found := SearchFirst(OrderId, orderId);
    }

    /** Sets `stateId` of the record with internal id `id`; nothing else changes. */
    method SetPaynlStatus(id: string, status: LocalStatus)
      requires Valid() && id in records
      modifies this
      ensures Valid()
      ensures records == WithStatus(old(records), id, status)
    {
      records := WithStatus(records, id, status);
    }

    /**
     * Fetches the snapshot for the record's PAY.NL id, applies the mapped
     * transition to its order transaction, writes the status on its
     * internal id and reports; a caught exception skips what follows it.
     * `api` answers `getTransaction` for each PAY.NL id.
     */
    method UpdateTransaction(paynlTransaction: PaynlTransaction, isExchange: bool, api: string -> Fetch)
      returns (result: string)
      requires Valid() && paynlTransaction.id in records
      modifies this, transactionStateHandler`log
      ensures Valid()
      ensures var p := UpdatePlan(paynlTransaction, isExchange, api(paynlTransaction.paynlTransactionId),
        transactionStateHandler.refusals);
        result == p.result
        && records == Written(old(records), paynlTransaction.id, p.written)
        && transactionStateHandler.log == old(transactionStateHandler.log) + Logged(p.applied)
    {
      var fetch := api(paynlTransaction.paynlTransactionId);
      match fetch
      case Threw(e) =>
        result := Caught(isExchange, e);
      case Fetched(apiTransaction) =>
        var id := paynlTransaction.id;
        var decision := MapStatus(apiTransaction);
        var thrown: Option<Exception> := None;
        if decision.transition.Some? {
          thrown := transactionStateHandler.Apply(paynlTransaction.orderTransactionId, decision.transition.value);
        }
        if thrown.Some? {
          result := Caught(isExchange, thrown.value);
        } else {
          SetPaynlStatus(id, decision.status);
          result := StatusUpdatedMessage(apiTransaction.paymentDetails);
        }
    }

    /**
     * The notification entry point. An uncaught fetch failure or a missing
     * record ends the call with an error and no change; a pending snapshot
     * returns at once; otherwise the found record is updated as a
     * notification. `entity` is the record the search returned.
     */
    method ProcessNotify(paynlTransactionId: string, api: string -> Fetch)
      returns (outcome: NotifyOutcome, ghost entity: Option<PaynlTransaction>)
      requires Valid()
      modifies this, transactionStateHandler`log
      ensures Valid()
      ensures api(paynlTransactionId).Threw? ==>
        outcome == ThrewException(api(paynlTransactionId).exception)
      ensures api(paynlTransactionId).Fetched? && api(paynlTransactionId).snapshot.pending ==>
        outcome == ReturnedNull
      ensures api(paynlTransactionId).Threw? || api(paynlTransactionId).snapshot.pending ==>
        entity.None?
      ensures api(paynlTransactionId).Fetched? && !api(paynlTransactionId).snapshot.pending ==>
        (entity.None? <==> forall id :: id in old(records) ==> old(records)[id].paynlTransactionId != paynlTransactionId)
        && (entity.None? ==> outcome == ThrewTypeError)
      ensures entity.Some? ==>
        entity.value in old(records).Values && entity.value.paynlTransactionId == paynlTransactionId
        && var p := UpdatePlan(entity.value, true, api(paynlTransactionId), transactionStateHandler.refusals);
        outcome == Returned(p.result)
        && records == Written(old(records), entity.value.id, p.written)
        && transactionStateHandler.log == old(transactionStateHandler.log) + Logged(p.applied)
      ensures entity.None? ==>
        records == old(records) && transactionStateHandler.log == old(transactionStateHandler.log)
    {
      entity := None;
      var apiTransaction := api(paynlTransactionId);
      match apiTransaction
      case Threw(e) =>
        outcome := ThrewException(e);
      case Fetched(s) =>
        if s.pending {
          outcome := ReturnedNull;
        } else {
          var found := SearchFirst(PaynlTransactionId, paynlTransactionId);
          entity := found;
          match found
          case None =>
            outcome := ThrewTypeError;
          case Some(r) =>
            assert r.id in records;
            var text := UpdateTransaction(r, true, api);
            outcome := Returned(text);
        }
    }
  
    /**
     * Delivery i of a notification for a PAY.NL id that exactly one record
     * carries, the state handler first being set to refuse `refusals[i]`.
     * The plan is that of `base`, the record as it was before any status write.
     */
    method DeliverNotification(
      paynlTransactionId: string, api: string -> Fetch, id: string, base: PaynlTransaction,
      fetch: Fetch, refusals: seq<map<Transition, Exception>>, i: nat)
      returns (outcome: NotifyOutcome)
      requires fetch == api(paynlTransactionId)
      requires i < |refusals| && SoleCarrier(id, paynlTransactionId, base)
      modifies this, transactionStateHandler`log, transactionStateHandler`refusals
      ensures SoleCarrier(id, paynlTransactionId, base)
      ensures fetch.Threw? || fetch.snapshot.pending ==>
        records == old(records) && transactionStateHandler.log == old(transactionStateHandler.log)
        && outcome == if fetch.Threw? then ThrewException(fetch.exception) else ReturnedNull
      ensures var p := DeliveryPlans(base, fetch, refusals)[i];
        fetch.Fetched? && !fetch.snapshot.pending ==>
        records == Written(old(records), id, p.written)
        && transactionStateHandler.log == old(transactionStateHandler.log) + Logged(p.applied)
        && outcome == Returned(p.result)
    {
      transactionStateHandler.ChangeRefusals(refusals[i]);
      ghost var entity;
      outcome, entity := ProcessNotify(paynlTransactionId, api);
      if fetch.Fetched? && !fetch.snapshot.pending {
        assert entity == Some(old(records)[id]);
        PlanIgnoresStateId(base, old(records)[id].stateId, true, fetch, refusals[i]);
        DeliveryPlanAt(base, fetch, refusals, i);
      }
    }

    /**
     * Deliveries of the same notification while PAY.NL keeps reporting the
     * same answer, for a PAY.NL id that exactly one record carries. Before
     * delivery i the order's state makes the state handler refuse
     * `refusals[i]`. Each delivery runs the plan its handler allows; every
     * write carries the mapped status, so the record ends with its old status
     * or the mapped one, and a delivery whose transition is refused reports
     * its caught exception instead of the status text.
     */
    method ProcessNotifyRepeatedly(
      paynlTransactionId: string, api: string -> Fetch, id: string, refusals: seq<map<Transition, Exception>>)
      returns (outcomes: seq<NotifyOutcome>)
      requires Valid() && id in records && records[id].paynlTransactionId == paynlTransactionId
      requires forall k :: k in records && records[k].paynlTransactionId == paynlTransactionId ==> k == id
      modifies this, transactionStateHandler`log, transactionStateHandler`refusals
      ensures Valid() && |outcomes| == |refusals|
      ensures var fetch := api(paynlTransactionId);
        fetch.Threw? || fetch.snapshot.pending ==>
        records == old(records) && transactionStateHandler.log == old(transactionStateHandler.log)
        && forall i :: 0 <= i < |refusals| ==>
          outcomes[i] == if fetch.Threw? then ThrewException(fetch.exception) else ReturnedNull
      ensures var fetch := api(paynlTransactionId);
        var plans := DeliveryPlans(old(records)[id], fetch, refusals);
        fetch.Fetched? && !fetch.snapshot.pending ==>
        records == AfterWrites(old(records), id, plans)
        && (records == old(records) || records == WithStatus(old(records), id, MapStatus(fetch.snapshot).status))
        && ((forall i :: 0 <= i < |refusals| ==> plans[i].written.None?) ==> records == old(records))
        && ((exists i :: 0 <= i < |refusals| && plans[i].written.Some?) ==>
          records == WithStatus(old(records), id, MapStatus(fetch.snapshot).status))
        && transactionStateHandler.log == old(transactionStateHandler.log) + LoggedAll(plans)
        && forall i :: 0 <= i < |refusals| ==> outcomes[i] == Returned(plans[i].result)
    {
      var fetch := api(paynlTransactionId);
      var base := records[id];
      outcomes := [];
      var i := 0;
      if fetch.Threw? || fetch.snapshot.pending {
        ghost var records0, log0 := records, transactionStateHandler.log;
        var ended := if fetch.Threw? then ThrewException(fetch.exception) else ReturnedNull;
        while i < |refusals|
          invariant 0 <= i <= |refusals| && SoleCarrier(id, paynlTransactionId, base)
          invariant records == records0 && transactionStateHandler.log == log0
          invariant outcomes == Copies(ended, i)
        {
          var outcome := DeliverNotification(paynlTransactionId, api, id, base, fetch, refusals, i);
          outcomes := outcomes + [outcome];
          i := i + 1;
        }
      } else {
        outcomes := RedeliverFetched(paynlTransactionId, api, id, fetch, refusals);
        RepliesAt(DeliveryPlans(base, fetch, refusals));
        DeliveriesSettle(old(records), id, base, fetch, refusals);
      }
    }

    /**
     * The deliveries of `ProcessNotifyRepeatedly` when PAY.NL answers with a
     * snapshot that is not pending: each runs its own plan on the record.
     */
    method RedeliverFetched(
      paynlTransactionId: string, api: string -> Fetch, id: string, fetch: Fetch,
      refusals: seq<map<Transition, Exception>>)
      returns (outcomes: seq<NotifyOutcome>)
      requires fetch == api(paynlTransactionId) && fetch.Fetched? && !fetch.snapshot.pending
      requires Valid() && id in records && records[id].paynlTransactionId == paynlTransactionId
      requires forall k :: k in records && records[k].paynlTransactionId == paynlTransactionId ==> k == id
      modifies this, transactionStateHandler`log, transactionStateHandler`refusals
      ensures Valid()
      ensures var plans := DeliveryPlans(old(records)[id], fetch, refusals);
        records == AfterWrites(old(records), id, plans)
        && transactionStateHandler.log == old(transactionStateHandler.log) + LoggedAll(plans)
        && outcomes == Replies(plans)
    {
      var base := records[id];
      ghost var plans := DeliveryPlans(base, fetch, refusals);
      outcomes := [];
      var i := 0;
      while i < |refusals|
        invariant 0 <= i <= |refusals| && SoleCarrier(id, paynlTransactionId, base)
        invariant records == AfterWrites(old(records), id, plans[..i])
        invariant transactionStateHandler.log == old(transactionStateHandler.log) + LoggedAll(plans[..i])
        invariant outcomes == Replies(plans[..i])
      {
        var outcome := DeliverNotification(paynlTransactionId, api, id, base, fetch, refusals, i);
        AppendPlan(old(records), old(transactionStateHandler.log), id, plans, i);
        outcomes := outcomes + [outcome];
        i := i + 1;
      }
      assert plans[..i] == plans;
    }
  }
}
