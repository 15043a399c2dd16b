/**
 * The status decision inside `updateTransaction`: a PAY.NL snapshot becomes
 * a local status code and at most one order-transaction transition.
 */
module StatusMapping {
  import opened Wrappers
  import opened Entity
  import opened PaynlApi

  /** The state-handler calls the helper can make. */
  datatype Transition = Pay | Refund | RefundPartially | Cancel

  datatype Decision = Decision(status: LocalStatus, transition: Option<Transition>)

  /** The status written alongside each transition. */
  function StatusOf(t: Transition): LocalStatus
  {
    match t
    case Pay => StatusPaid
    case Refund => StatusRefund
    case RefundPartially => StatusRefund
    case Cancel => StatusCancel
  }

  predicate AnyPredicate(s: Snapshot)
  {
    s.beingVerified || s.pending || s.refunded || s.partiallyRefunded
    || s.authorized || s.paid || s.canceled
  }

  /** The if/elseif chain: the first predicate that holds decides. */
  function MapStatus(s: Snapshot): (d: Decision)
    ensures d.status == Unset <==> !AnyPredicate(s)
    ensures d.transition.Some? ==> d.status == StatusOf(d.transition.value)
    ensures d.status == StatusPending ==> d.transition == None
    ensures d.status == StatusAuthorized ==> d.transition == None
  {
    if s.beingVerified then Decision(StatusPending, None)
    else if s.pending then Decision(StatusPending, None)
    else if s.refunded then Decision(StatusRefund, Some(Refund))
    else if s.partiallyRefunded then Decision(StatusRefund, Some(RefundPartially))
    else if s.authorized then Decision(StatusAuthorized, None)
    else if s.paid then Decision(StatusPaid, Some(Pay))
    else if s.canceled then Decision(StatusCancel, Some(Cancel))
    else Decision(Unset, None)
  }

  // An independent statement of the same decision: a priority list of
  // rules, each a predicate and its outcome, scanned for the first that holds.

  datatype Predicate = BeingVerified | Pending | Refunded | PartiallyRefunded | Authorized | Paid | Canceled

  const Priority: seq<Predicate> :=
    [BeingVerified, Pending, Refunded, PartiallyRefunded, Authorized, Paid, Canceled]

  predicate Holds(s: Snapshot, q: Predicate)
  {
    match q
    case BeingVerified => s.beingVerified
    case Pending => s.pending
    case Refunded => s.refunded
    case PartiallyRefunded => s.partiallyRefunded
    case Authorized => s.authorized
    case Paid => s.paid
    case Canceled => s.canceled
  }

  function RuleOf(q: Predicate): Decision
  {
    match q
    case BeingVerified => Decision(StatusPending, None)
    case Pending => Decision(StatusPending, None)
    case Refunded => Decision(StatusRefund, Some(Refund))
    case PartiallyRefunded => Decision(StatusRefund, Some(RefundPartially))
    case Authorized => Decision(StatusAuthorized, None)
    case Paid => Decision(StatusPaid, Some(Pay))
    case Canceled => Decision(StatusCancel, Some(Cancel))
  }

  function FirstMatch(s: Snapshot, rules: seq<Predicate>): Decision
  {
    if rules == [] then Decision(Unset, None)
    else if Holds(s, rules[0]) then RuleOf(rules[0])
    else FirstMatch(s, rules[1..])
  }

  /** The scan stops at the first rule that holds. */
  lemma {:induction false} FirstMatchAt(s: Snapshot, rules: seq<Predicate>, i: nat)
    requires i < |rules| && Holds(s, rules[i])
    requires forall j :: 0 <= j < i ==> !Holds(s, rules[j])
    ensures FirstMatch(s, rules) == RuleOf(rules[i])
  {
    if i > 0 {
      assert !Holds(s, rules[0]);
      forall j | 0 <= j < i - 1 ensures !Holds(s, rules[1..][j]) {
        assert rules[1..][j] == rules[j + 1];
      }
      FirstMatchAt(s, rules[1..], i - 1);
    }
  }

  /** A scan in which no rule holds yields the unset status and no transition. */
  lemma {:induction false} FirstMatchNone(s: Snapshot, rules: seq<Predicate>)
    requires forall j :: 0 <= j < |rules| ==> !Holds(s, rules[j])
    ensures FirstMatch(s, rules) == Decision(Unset, None)
  {
    if rules != [] {
      assert !Holds(s, rules[0]);
      forall j | 0 <= j < |rules| - 1 ensures !Holds(s, rules[1..][j]) {
        assert rules[1..][j] == rules[j + 1];
      }
      FirstMatchNone(s, rules[1..]);
    }
  }

  /** The chain agrees with the priority-list scan on every snapshot. */
  lemma MapIsFirstMatch(s: Snapshot)
    ensures MapStatus(s) == FirstMatch(s, Priority)
  {
    if s.beingVerified { FirstMatchAt(s, Priority, 0); }
    else if s.pending { FirstMatchAt(s, Priority, 1); }
    else if s.refunded { FirstMatchAt(s, Priority, 2); }
    else if s.partiallyRefunded { FirstMatchAt(s, Priority, 3); }
    else if s.authorized { FirstMatchAt(s, Priority, 4); }
    else if s.paid { FirstMatchAt(s, Priority, 5); }
    else if s.canceled { FirstMatchAt(s, Priority, 6); }
    else { FirstMatchNone(s, Priority); }
  }

  /**
   * Mapping order: the first predicate of the priority list that holds
   * decides the status and the transition, whatever the later ones say.
   */
  lemma FirstTrueWins(s: Snapshot, i: nat)
    requires i < |Priority| && Holds(s, Priority[i])
    requires forall j :: 0 <= j < i ==> !Holds(s, Priority[j])
    ensures MapStatus(s) == RuleOf(Priority[i])
  {
    MapIsFirstMatch(s);
    FirstMatchAt(s, Priority, i);
  }

  /** No predicate holds exactly when the status stays 0 with no transition. */
  lemma NoneHoldsIsUnset(s: Snapshot)
    ensures (forall q :: !Holds(s, q)) <==> MapStatus(s) == Decision(Unset, None)
  {
    if MapStatus(s) == Decision(Unset, None) {
      forall q ensures !Holds(s, q) {
        assert !AnyPredicate(s);
      }
    } else {
      assert AnyPredicate(s);
      if s.beingVerified { assert Holds(s, BeingVerified); }
      else if s.pending { assert Holds(s, Pending); }
      else if s.refunded { assert Holds(s, Refunded); }
      else if s.partiallyRefunded { assert Holds(s, PartiallyRefunded); }
      else if s.authorized { assert Holds(s, Authorized); }
      else if s.paid { assert Holds(s, Paid); }
      else { assert Holds(s, Canceled); }
    }
  }

  /**
   * Only four rules carry a transition: refunded, partially refunded, paid
   * and canceled; being verified, pending, authorized and no match call
   * nothing.
   */
  lemma TransitionRules(q: Predicate)
    ensures RuleOf(q).transition.Some? <==> q in {Refunded, PartiallyRefunded, Paid, Canceled}
    ensures RuleOf(q).transition == Some(Refund) <==> q == Refunded
    ensures RuleOf(q).transition == Some(RefundPartially) <==> q == PartiallyRefunded
    ensures RuleOf(q).transition == Some(Pay) <==> q == Paid
    ensures RuleOf(q).transition == Some(Cancel) <==> q == Canceled
  {
  }

  /**
   * Refund beats paid and authorized: once neither verification nor
   * pending applies, a refunded snapshot maps to REFUND with a full
   * refund, never to a payment.
   */
  lemma RefundBeatsPaidAndAuthorized(s: Snapshot)
    requires !s.beingVerified && !s.pending && s.refunded
    ensures MapStatus(s) == Decision(StatusRefund, Some(Refund))
    ensures MapStatus(s).transition != Some(Pay)
  {
    FirstTrueWins(s, 2);
  }

  /** A snapshot both authorized and paid stays AUTHORIZED: `pay` is not called. */
  lemma AuthorizedBeatsPaid(s: Snapshot)
    requires !s.beingVerified && !s.pending && !s.refunded && !s.partiallyRefunded
    requires s.authorized
    ensures MapStatus(s) == Decision(StatusAuthorized, None)
  {
    FirstTrueWins(s, 4);
  }
}
