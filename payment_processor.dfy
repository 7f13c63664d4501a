/**
 * The earlier consumer: every tick pops at most one payment off the FIFO
 * queue while fewer than 25 are in flight, payments are recorded in a
 * document collection, and a shared error counter moves the routing to the
 * other processor once more than five refusals have happened since the
 * last success.
 *
 * As in the worker pool, the processor's answer, the clock and store
 * errors are inputs, and a started payment waits in `inFlight` until its
 * completion is called.
 */
module PaymentProcessor {
  import opened Types
  import opened Routing
  import opened Redis
  import PaymentQueue

  const MAX_CONCURRENT_PAYMENTS := 25
  /** Refusals since the last success beyond which the routing is switched. */
  const ERROR_THRESHOLD := 5
  /** The instance that runs no health monitor. */
  const MONITORLESS_INSTANCE := "01"

  /** A record of the `payments` collection. */
  datatype PaymentDocument = PaymentDocument(
    correlationId: string, amount: int, service: string, requestedAt: int, success: bool)

  /** The `payments` collection: insertOne appends a document. */
  class Collection {
    var documents: seq<PaymentDocument>

    constructor ()
      ensures documents == []
    {
      documents := [];
    }

    method InsertOne(document: PaymentDocument)
      modifies this
      ensures documents == old(documents) + [document]
    {
      documents := documents + [document];
    }
  }

  /** The label of the processor a payment was sent to. */
  function ServiceLabel(useFallback: bool): (service: string)
    ensures service == "fallback" <==> useFallback
    ensures service == "default" <==> !useFallback
  {
    Target(useFallback).Label()
  }

  /** What one call to processPayment leaves behind. */
  datatype Outcome = Outcome(state: StoreState, errorCount: int, documents: seq<PaymentDocument>, settled: Settled)

  /**
   * processPayment as a function of the database, the error counter and
   * the collection. `readFault` makes the read of the routing flag throw,
   * `writeFault` every store call after the processor answered.
   */
  function Process(s: StoreState, errorCount: int, documents: seq<PaymentDocument>, p: PaymentRequest,
                   outcome: Delivery, now: int, readFault: bool, writeFault: bool): (r: Outcome)
    ensures r.settled == Rejected <==> !outcome.Accepted? && writeFault
    ensures r.state.zset == s.zset
    ensures writeFault ==> r.state == s
    // a success resets the counter, resumes work, keeps the routing and records the payment
    ensures outcome.Accepted? ==>
              var useFallback := !readFault && FlagValue(s.strings, FALLBACK_FLAG_KEY);
              && r.errorCount == 0
              && r.documents == documents + [PaymentDocument(p.correlationId, p.amount, ServiceLabel(useFallback), now, true)]
              && r.state.queue == s.queue
              && (!writeFault ==> !FlagValue(r.state.strings, TIMEOUT_FLAG_KEY)
                                  && (FlagValue(r.state.strings, FALLBACK_FLAG_KEY) <==> useFallback)
                                  && r.state.strings == s.strings[TIMEOUT_FLAG_KEY := FlagText(false)]
                                                                 [FALLBACK_FLAG_KEY := FlagText(useFallback)])
    // a refusal re-enqueues and counts; past the threshold it sends later payments to the other processor
    ensures outcome.Refused? && !writeFault ==>
              var useFallback := !readFault && FlagValue(s.strings, FALLBACK_FLAG_KEY);
              && r.state.queue == [p] + s.queue
              && r.errorCount == errorCount + 1
              && r.documents == documents
              && (r.errorCount <= ERROR_THRESHOLD ==> r.state.strings == s.strings)
              && (r.errorCount > ERROR_THRESHOLD ==>
                    r.state.strings == s.strings[FALLBACK_FLAG_KEY := FlagText(!useFallback)])
    // an exception only re-enqueues
    ensures outcome.Failed? && !writeFault ==>
              r.state == s.(queue := [p] + s.queue) && r.errorCount == errorCount && r.documents == documents
    ensures !outcome.Accepted? && writeFault ==> r.errorCount == errorCount && r.documents == documents
  {
    var useFallback := !readFault && FlagValue(s.strings, FALLBACK_FLAG_KEY);
    match outcome
    case Accepted =>
      var document := PaymentDocument(p.correlationId, p.amount, ServiceLabel(useFallback), now, true);
      var strings := s.strings[TIMEOUT_FLAG_KEY := FlagText(false)][FALLBACK_FLAG_KEY := FlagText(useFallback)];
      Outcome(if writeFault then s else s.(strings := strings), 0, documents + [document], Fulfilled)
    case Refused =>
      if writeFault then Outcome(s, errorCount, documents, Rejected)
      else
        var pushed := s.(queue := [p] + s.queue);
        var count := errorCount + 1;
        if count > ERROR_THRESHOLD then
          Outcome(pushed.(strings := s.strings[FALLBACK_FLAG_KEY := FlagText(!useFallback)]), count, documents, Fulfilled)
        else
          Outcome(pushed, count, documents, Fulfilled)
    case Failed =>
      if writeFault then Outcome(s, errorCount, documents, Rejected)
      else Outcome(s.(queue := [p] + s.queue), errorCount, documents, Fulfilled)
  }

  // ---------------------------------------------------------------------
  // A run of refusals

  /** The database and counter after each payment of ps is refused in turn, with no store errors. */
  function RefuseEach(s: StoreState, errorCount: int, ps: seq<PaymentRequest>): (StoreState, int)
    decreases |ps|
  {
    if ps == [] then (s, errorCount)
    else
      var r := Process(s, errorCount, [], ps[0], Refused, 0, false, false);
      RefuseEach(r.state, r.errorCount, ps[1..])
  }

  /**
   * Refusals re-enqueue every payment and add one each to the counter; as
   * long as the counter stays at or below the threshold the flags are
   * untouched.
   */
  lemma {:induction false} RefusalsCounted(s: StoreState, errorCount: int, ps: seq<PaymentRequest>)
    ensures RefuseEach(s, errorCount, ps).0.queue == PushAll(s.queue, ps)
    ensures RefuseEach(s, errorCount, ps).1 == errorCount + |ps|
    ensures errorCount + |ps| <= ERROR_THRESHOLD ==> RefuseEach(s, errorCount, ps).0.strings == s.strings
    decreases |ps|
  {
    if ps != [] {
      var r := Process(s, errorCount, [], ps[0], Refused, 0, false, false);
      RefusalsCounted(r.state, r.errorCount, ps[1..]);
    }
  }

  /**
   * After a success, five refusals in a row leave the routing alone and
   * the sixth switches it to the other processor.
   */
  lemma SixthRefusalSwitches(s: StoreState, ps: seq<PaymentRequest>)
    requires |ps| == ERROR_THRESHOLD + 1
    ensures RefuseEach(s, 0, ps[..ERROR_THRESHOLD]).0.strings == s.strings
    ensures FlagValue(RefuseEach(s, 0, ps).0.strings, FALLBACK_FLAG_KEY) <==> !FlagValue(s.strings, FALLBACK_FLAG_KEY)
  {
    var five := ps[..ERROR_THRESHOLD];
    RefusalsCounted(s, 0, five);
    var mid := RefuseEach(s, 0, five);
    RefuseEachSplit(s, 0, five, [ps[ERROR_THRESHOLD]]);
    assert five + [ps[ERROR_THRESHOLD]] == ps;
    assert RefuseEach(mid.0, mid.1, [ps[ERROR_THRESHOLD]])
           == RefuseEach(Process(mid.0, mid.1, [], ps[ERROR_THRESHOLD], Refused, 0, false, false).state, mid.1 + 1, []);
  }

  lemma {:induction false} RefuseEachSplit(s: StoreState, errorCount: int, xs: seq<PaymentRequest>, ys: seq<PaymentRequest>)
    ensures RefuseEach(s, errorCount, xs + ys)
            == RefuseEach(RefuseEach(s, errorCount, xs).0, RefuseEach(s, errorCount, xs).1, ys)
    decreases |xs|
  {
    if xs == [] {
      assert xs + ys == ys;
    } else {
      assert (xs + ys)[0] == xs[0] && (xs + ys)[1..] == xs[1..] + ys;
      var r := Process(s, errorCount, [], xs[0], Refused, 0, false, false);
      RefuseEachSplit(r.state, r.errorCount, xs[1..], ys);
    }
  }

  // ---------------------------------------------------------------------
  // The consumer and the monitor

  class Processor {
    /** The shared database. */
    const store: Store
    /** The `payments` collection. */
    const collection: Collection
    /** Set once the consumer interval is started. */
    var isProcessing: bool
    /** How many started payments have not completed yet. */
    var processingCount: int
    /** Refusals since the last success. */
    var errorCount: int
    /** The started payments, oldest first. */
    var inFlight: seq<PaymentRequest>
    /** How many consumer intervals are running. */
    var consumers: nat
    /** How many health-monitor intervals are running. */
    var monitors: nat

    /** The counter matches the payments in flight and stays within the bound; one consumer at most. */
    ghost predicate Valid()
      reads this
    {
      && processingCount == |inFlight| <= MAX_CONCURRENT_PAYMENTS
      && consumers == (if isProcessing then 1 else 0)
    }

    constructor (store: Store, collection: Collection)
      ensures Valid()
      ensures this.store == store && this.collection == collection
      ensures !isProcessing && processingCount == 0 && errorCount == 0 && inFlight == []
      ensures consumers == 0 && monitors == 0
    {
      this.store := store;
      this.collection := collection;
      isProcessing := false;
      processingCount := 0;
      errorCount := 0;
      inFlight := [];
      consumers := 0;
      monitors := 0;
    }

    /** consumePaymentsFromQueueWithInterval: starts the consumer unless it is already running. */
    method ConsumePaymentsFromQueueWithInterval()
      requires Valid()
      modifies this
      ensures Valid() && isProcessing
      ensures consumers == 1
      ensures processingCount == old(processingCount) && errorCount == old(errorCount)
      ensures inFlight == old(inFlight) && monitors == old(monitors)
    {
      if isProcessing {
        return;
      }
      isProcessing := true;
      consumers := consumers + 1;
    }

    /**
     * One tick of the consumer: unless the bound is reached or the halt flag
     * reads true, pop one payment from the tail and start it. A pop that
     * throws is logged and the tick ends.
     */
    method ConsumerTick(readFault: bool, popFault: bool)
      requires Valid()
      modifies this, store
      ensures Valid()
      ensures isProcessing == old(isProcessing) && consumers == old(consumers) && monitors == old(monitors)
      ensures errorCount == old(errorCount)
      ensures var q := old(store.queue);
              var starts := old(processingCount) < MAX_CONCURRENT_PAYMENTS
                            && !(!readFault && FlagValue(old(store.strings), TIMEOUT_FLAG_KEY))
                            && !popFault && q != [];
              if starts then
                && processingCount == old(processingCount) + 1
                && inFlight == old(inFlight) + [q[|q| - 1]]
                && store.State() == old(store.State()).(queue := q[..|q| - 1])
              else
                && processingCount == old(processingCount)
                && inFlight == old(inFlight)
                && store.State() == old(store.State())
    {
      var shouldTimeoutAllCalls := PaymentQueue.GetShouldTimeoutAllCalls(store, readFault);
      if processingCount >= MAX_CONCURRENT_PAYMENTS || shouldTimeoutAllCalls {
        return;
      }
      var payment := PaymentQueue.GetNextPaymentFromQueue(store, popFault);
      if payment.Thrown? {
        return;
      }
      if payment.value.Some? {
        processingCount := processingCount + 1;
        inFlight := inFlight + [payment.value.value];
      }
    }

    /**
     * A started payment finishes: processPayment runs on it, and its slot is
     * freed whatever the outcome.
     */
    method ConsumerComplete(i: nat, outcome: Delivery, now: int, readFault: bool, writeFault: bool)
      requires Valid() && i < |inFlight|
      modifies this, store, collection
      ensures Valid()
      ensures isProcessing == old(isProcessing) && consumers == old(consumers) && monitors == old(monitors)
      ensures processingCount == old(processingCount) - 1
      ensures inFlight == old(inFlight[..i] + inFlight[i + 1..])
      ensures var r := Process(old(store.State()), old(errorCount), old(collection.documents), old(inFlight[i]),
                               outcome, now, readFault, writeFault);
              store.State() == r.state && errorCount == r.errorCount && collection.documents == r.documents
    {
      var payment := inFlight[i];
      var useFallback := PaymentQueue.GetShouldCallFallback(store, readFault);
      var requestService := ServiceLabel(useFallback);
      match outcome {
      case Accepted =>
        errorCount := 0;
        PaymentQueue.SetShouldTimeoutAllCalls(store, false, writeFault);
        PaymentQueue.SetShouldCallFallback(store, useFallback, writeFault);
        collection.InsertOne(PaymentDocument(payment.correlationId, payment.amount, requestService, now, true));
      case Refused =>
        var pushed := PaymentQueue.AddProcessToQueue(store, payment, writeFault);
        if pushed == Rejected {
          // the error handler pushes once more
          pushed := PaymentQueue.AddProcessToQueue(store, payment, writeFault);
        } else {
          errorCount := errorCount + 1;
          if errorCount > ERROR_THRESHOLD {
            PaymentQueue.SetShouldCallFallback(store, !useFallback, writeFault);
          }
        }
      case Failed =>
        var _ := PaymentQueue.AddProcessToQueue(store, payment, writeFault);
      }
      processingCount := processingCount - 1;
      inFlight := inFlight[..i] + inFlight[i + 1..];
    }

    /**
     * One cycle of verifyServiceAvailabilityWithInterval: skipped while the
     * bound is reached or when either probe failed or answered not ok;
     * otherwise the decision table is applied to the flags. `fault` makes
     * the cycle's store calls throw, and the flag writes swallow it.
     */
    method MonitorCycle(defaultReply: HttpReply<ServiceHealthResponse>,
                        fallbackReply: HttpReply<ServiceHealthResponse>, fault: bool)
      requires Valid()
      modifies store
      ensures var skipped := processingCount >= MAX_CONCURRENT_PAYMENTS
                             || !(defaultReply.Response? && defaultReply.ok)
                             || !(fallbackReply.Response? && fallbackReply.ok);
              store.State() == if skipped || fault then old(store.State())
                               else old(store.State()).(strings := ApplyHealth(old(store.strings), defaultReply.body, fallbackReply.body))
    {
      if processingCount >= MAX_CONCURRENT_PAYMENTS {
        return;
      }
      if defaultReply.NetworkError? || fallbackReply.NetworkError? {
        return;
      }
      if !defaultReply.ok {
        return;
      }
      if !fallbackReply.ok {
        return;
      }
      var isDefaultServiceAvailable := !defaultReply.body.failing;
      var isFallbackServiceAvailable := !fallbackReply.body.failing;
      if !isDefaultServiceAvailable && !isFallbackServiceAvailable {
        PaymentQueue.SetShouldTimeoutAllCalls(store, true, fault);
        return;
      }
      if isDefaultServiceAvailable {
        PaymentQueue.SetShouldCallFallback(store, false, fault);
        PaymentQueue.SetShouldTimeoutAllCalls(store, false, fault);
      }
      if !isDefaultServiceAvailable && isFallbackServiceAvailable {
        PaymentQueue.SetShouldCallFallback(store, true, fault);
        PaymentQueue.SetShouldTimeoutAllCalls(store, false, fault);
      }
    }

    /** verifyServiceAvailabilityWithInterval: every instance but "01" starts one more monitor interval. */
    method VerifyServiceAvailabilityWithInterval(instanceId: string)
      requires Valid()
      modifies this
      ensures Valid()
      ensures monitors == old(monitors) + (if instanceId == MONITORLESS_INSTANCE then 0 else 1)
      ensures isProcessing == old(isProcessing) && consumers == old(consumers)
      ensures processingCount == old(processingCount) && inFlight == old(inFlight) && errorCount == old(errorCount)
    {
      if instanceId == MONITORLESS_INSTANCE {
        return;
      }
      monitors := monitors + 1;
    }
  }
}
