/**
 * The two order observers (Model/Observer/SubmitOrderObserver.php and
 * Model/Observer/CancelOrderObserver.php): flagging and submitting a
 * newly placed order, and propagating a Magento cancellation to Amazon.
 */
module OrderObservers {
  import opened Wrappers
  import opened Config
  import opened Magento
  import opened OutboundService
  import opened OrderStatus

  /** What placing an order does to its record, given the create call's response. */
  function SubmitOutcome(enabled: bool, r: OrderRecord, response: Option<CreateOrderResponse>): OrderRecord
  {
    var flagged := if HasFbaItem(r.lines) then r.(fulfilledByAmazon := true) else r;
    if !enabled || !HasFbaItem(r.lines) then flagged
    else if response.Some? then flagged.(amazonOrderStatus := StatusReceived, submissionCount := 0)
    else flagged.(amazonOrderStatus := StatusAttempted, submissionCount := 1)
  }

  /**
   * The FBA flag is set exactly when some item is FBA-enabled, whether or
   * not the extension is enabled; nothing else changes without both.
   */
  lemma SubmitFlagsFbaOrders(enabled: bool, r: OrderRecord, response: Option<CreateOrderResponse>)
    ensures SubmitOutcome(enabled, r, response).fulfilledByAmazon == (HasFbaItem(r.lines) || r.fulfilledByAmazon)
    ensures !enabled || !HasFbaItem(r.lines) ==>
      SubmitOutcome(enabled, r, response) == r.(fulfilledByAmazon := HasFbaItem(r.lines) || r.fulfilledByAmazon)
    ensures SubmitOutcome(enabled, r, response).lines == r.lines
  {
  }

  /**
   * A failed placement leaves the order where resubmission picks it up
   * (attempted, count 1), so it is given up on after at most four more
   * failing resubmissions.
   */
  lemma FailedPlacementIsRetried(r: OrderRecord)
    requires HasFbaItem(r.lines)
    ensures var s := SubmitOutcome(true, r, None);
      s.fulfilledByAmazon && s.amazonOrderStatus == StatusAttempted && s.submissionCount == 1
      && FailedRuns(s, 4).amazonOrderStatus == StatusFail
      && forall n :: 0 <= n < 4 ==> FailedRuns(s, n).amazonOrderStatus == StatusAttempted
  {
    FailsWithinRetries(SubmitOutcome(true, r, None));
  }

  /**
   * SubmitOrderObserver::execute: flag the order if it has an FBA item,
   * then, when the extension is enabled, create the fulfilment order once
   * and record the outcome. `sent` is the request issued, if any.
   */
  method SubmitOrder(c: ScopeConfig, order: Order, timestamp: string, client: CreateClient)
    returns (sent: Option<CreateOrderRequest>)
    modifies order
    ensures order.Snapshot() == SubmitOutcome(IsEnabled(c, 0), old(order.Snapshot()), old(CreateFulfillmentOrder(c, order, timestamp, client)))
    ensures sent.Some? <==> IsEnabled(c, 0) && HasFbaItem(old(order.lines))
    ensures sent.Some? ==> sent.value == old(CreateFulfillmentOrderRequest(c, order, timestamp))
  {
    sent := None;
    var amazonItemInOrder := false;
    var i := 0;
    while i < |order.lines|
      invariant 0 <= i <= |order.lines|
      invariant order.lines == old(order.lines)
      invariant amazonItemInOrder <==> exists j :: 0 <= j < i && order.lines[j].product.asinEnabled
      invariant amazonItemInOrder ==> i > 0 && order.lines[i - 1].product.asinEnabled
      invariant order.Snapshot() == old(order.Snapshot()).(fulfilledByAmazon := if amazonItemInOrder then true else old(order.fulfilledByAmazon))
      decreases |order.lines| - i, if amazonItemInOrder then 0 else 1
    {
      if amazonItemInOrder {
        break;
      }
      if order.lines[i].product.asinEnabled {
        order.fulfilledByAmazon := true;
        amazonItemInOrder := true;
      }
      i := i + 1;
    }
    if !IsEnabled(c, 0) || !amazonItemInOrder {
      return;
    }
    sent := Some(CreateFulfillmentOrderRequest(c, order, timestamp));
    var response := CreateFulfillmentOrder(c, order, timestamp, client);
    if response.Some? {
      order.amazonOrderStatus := StatusReceived;
      order.submissionCount := 0;
    } else {
      order.amazonOrderStatus := StatusAttempted;
      order.submissionCount := 1;
    }
  }

  /** What a Magento cancellation does to the order's record. */
  function CancelObserverOutcome(enabled: bool, r: OrderRecord): OrderRecord
  {
    if enabled then r.(amazonOrderStatus := StatusCancelled) else r
  }

  /** Whether the observer asks Amazon to cancel: enabled and not flagged to skip. */
  predicate RemoteCancelIssued(enabled: bool, skipAmazonCancel: bool)
  {
    enabled && !skipAmazonCancel
  }

  /** Cancellation marks the order cancelled even when the remote cancel is skipped. */
  lemma CancelMarksBeforeSkip(r: OrderRecord, skipAmazonCancel: bool)
    ensures CancelObserverOutcome(true, r).amazonOrderStatus == StatusCancelled
    ensures skipAmazonCancel ==> !RemoteCancelIssued(true, skipAmazonCancel)
    ensures CancelObserverOutcome(false, r) == r && !RemoteCancelIssued(false, skipAmazonCancel)
  {
  }

  /**
   * CancelOrderObserver::execute: when enabled, mark the order cancelled,
   * then unless skipped run the two-step remote cancel once. `attempt` is
   * that cancel's outcome, None when none was attempted.
   */
  method CancelOrder(c: ScopeConfig, order: Order, lookup: OrderLookupClient, cancel: CancelClient)
    returns (attempt: Option<CancelAttempt>)
    modifies order
    ensures order.Snapshot() == CancelObserverOutcome(IsEnabled(c, 0), old(order.Snapshot()))
    ensures attempt.Some? <==> RemoteCancelIssued(IsEnabled(c, 0), order.skipAmazonCancel)
    ensures attempt.Some? ==> attempt.value == CancelFulfillmentOrder(c, order.incrementId, lookup, cancel)
  {
    attempt := None;
    if !IsEnabled(c, 0) {
      return;
    }
    order.amazonOrderStatus := StatusCancelled;
    if order.skipAmazonCancel {
      return;
    }
    attempt := Some(CancelFulfillmentOrder(c, order.incrementId, lookup, cancel));
  }
}
