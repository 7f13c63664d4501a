/**
 * Forwarding one payment to a processor and reacting to the outcome, and
 * the health probe of both processors.
 *
 * The processor's answer is an input (`Delivery`), the clock is the
 * parameter `now`, and two flags say whether the store calls throw:
 * `readFault` for the read of the fallback flag, `writeFault` for every
 * store call made after the processor answered.
 */
module PaymentService {
  import opened Types
  import opened Routing
  import opened Redis
  import opened MemberCodec
  import SortedSet
  import QueueService
  import PaymentRepository

  /** What one call to processPayment leaves behind: the database and how its promise settled. */
  datatype Step = Step(state: StoreState, settled: Settled)

  /** The log handed to savePayment for a payment delivered at time `now`. */
  function DeliveryLog(p: PaymentRequest, useFallback: bool, now: int): (log: PaymentLog)
    ensures log.amount == p.amount && log.correlationId == p.correlationId && log.requestedAt == now
    ensures log.processor == (if useFallback then "fallback" else "default")
  {
    PaymentLog(p.amount, Target(useFallback).Label(), p.correlationId, now)
  }

  /**
   * Whether a payment goes to the fallback processor: only when the flag
   * key holds the exact text "true" and was read without an error; a failed
   * read, a missing key or any other text sends it to the default one.
   */
  function UseFallback(s: StoreState, readFault: bool): (useFallback: bool)
    ensures readFault ==> Target(useFallback) == Default
    ensures FALLBACK_FLAG_KEY !in s.strings ==> Target(useFallback) == Default
    ensures !readFault && FALLBACK_FLAG_KEY in s.strings ==>
              (Target(useFallback) == Fallback <==> s.strings[FALLBACK_FLAG_KEY] == "true")
  {
    !readFault && FlagValue(s.strings, FALLBACK_FLAG_KEY)
  }

  /**
   * processPayment as a function of the database.
   *
   * An accepted payment resumes work, keeps the routing it was sent with
   * and is saved to the ledger under its processor's label at time `now`;
   * a refused or failed one is pushed back on the queue unchanged and
   * nothing else moves. Store errors after the answer change nothing: the
   * flag writes swallow them, the unawaited save is lost while the call
   * still succeeds, and a failed re-enqueue rejects the call.
   */
  function Process(s: StoreState, p: PaymentRequest, outcome: Delivery, now: int,
                   readFault: bool, writeFault: bool): (r: Step)
    requires SortedSet.Valid(s.zset)
    ensures SortedSet.Valid(r.state.zset)
    ensures r.settled == Rejected <==> !outcome.Accepted? && writeFault
    ensures writeFault ==> r.state == s
    ensures !writeFault && outcome.Accepted? ==>
              var log := DeliveryLog(p, UseFallback(s, readFault), now);
              && r.state.queue == s.queue
              && !FlagValue(r.state.strings, TIMEOUT_FLAG_KEY)
              && (FlagValue(r.state.strings, FALLBACK_FLAG_KEY) <==> UseFallback(s, readFault))
              && (forall k :: k != TIMEOUT_FLAG_KEY && k != FALLBACK_FLAG_KEY ==>
                    (k in r.state.strings <==> k in s.strings)
                    && (k in s.strings ==> r.state.strings[k] == s.strings[k]))
              && SortedSet.Score(r.state.zset, Encode(log)) == Some(now)
              && (forall m :: m != Encode(log) ==> SortedSet.Score(r.state.zset, m) == SortedSet.Score(s.zset, m))
    ensures !writeFault && !outcome.Accepted? ==>
              r.state == s.(queue := [p] + s.queue)
  {
    var useFallback := UseFallback(s, readFault);
    if writeFault then
      Step(s, if outcome.Accepted? then Fulfilled else Rejected)
    else if outcome.Accepted? then
      var log := DeliveryLog(p, useFallback, now);
      var strings := s.strings[TIMEOUT_FLAG_KEY := FlagText(false)][FALLBACK_FLAG_KEY := FlagText(useFallback)];
      Step(s.(strings := strings, zset := SortedSet.Add(s.zset, Encode(log), now)), Fulfilled)
    else
      Step(s.(queue := [p] + s.queue), Fulfilled)
  }

  /**
   * processPayment: read the routing flag, forward the payment, then record
   * it or push it back. A refused payment whose re-enqueue throws is pushed
   * once more from the error handler.
   */
  method ProcessPayment(store: Store, payment: PaymentRequest, outcome: Delivery, now: int,
                        readFault: bool, writeFault: bool) returns (r: Settled)
    requires store.Valid()
    modifies store
    ensures store.Valid()
    ensures Step(store.State(), r) == Process(old(store.State()), payment, outcome, now, readFault, writeFault)
  {
    var useFallback := QueueService.GetShouldCallFallback(store, readFault);
    match outcome
    case Accepted =>
      QueueService.SetShouldTimeoutAllCalls(store, false, writeFault);
      QueueService.SetShouldCallFallback(store, useFallback, writeFault);
      var _ := PaymentRepository.SavePayment(store, DeliveryLog(payment, useFallback, now), writeFault);
      r := Fulfilled;
    case Refused =>
      r := QueueService.AddPaymentToQueue(store, payment, writeFault);
      if r == Rejected {
        r := QueueService.AddPaymentToQueue(store, payment, writeFault);
      }
    case Failed =>
      r := QueueService.AddPaymentToQueue(store, payment, writeFault);
  }

  /**
   * A delivered payment that was not yet in the ledger shows up in the
   * summary of every range holding `now`: one more request, and its amount,
   * in the bucket of the processor it was sent to, and the other bucket
   * as before. Ranges that miss `now` do not change.
   */
  lemma DeliveredPaymentCounted(s: StoreState, p: PaymentRequest, now: int, readFault: bool,
                                from: Option<int>, to: Option<int>)
    requires SortedSet.Valid(s.zset)
    requires SortedSet.Score(s.zset, Encode(DeliveryLog(p, UseFallback(s, readFault), now))).None?
    ensures var before := PaymentRepository.Tally(SortedSet.RangeByScore(s.zset, from, to));
            var after := PaymentRepository.Tally(SortedSet.RangeByScore(Process(s, p, Accepted, now, readFault, false).state.zset, from, to));
            && (!SortedSet.InRange(now, from, to) ==> after == before)
            && (SortedSet.InRange(now, from, to) && UseFallback(s, readFault) ==>
                  after == before.(fallback := Bucket(before.fallback.totalRequests + 1, before.fallback.totalAmount.Plus(Finite(p.amount)))))
            && (SortedSet.InRange(now, from, to) && !UseFallback(s, readFault) ==>
                  after == before.(default := Bucket(before.default.totalRequests + 1, before.default.totalAmount.Plus(Finite(p.amount)))))
  {
    var log := DeliveryLog(p, UseFallback(s, readFault), now);
    assert Process(s, p, Accepted, now, readFault, false).state.zset == SortedSet.Add(s.zset, Encode(log), now);
    PaymentRepository.SavedLogCounted(s.zset, log, from, to);
  }

  /** A refused payment goes back to the head of the queue, so the next pop returns it and restores the database. */
  lemma RefusedGoesFirst(s: StoreState, p: PaymentRequest, now: int)
    requires SortedSet.Valid(s.zset)
    ensures var refused := Process(s, p, Refused, now, false, false).state;
            refused.queue != [] && refused.queue[0] == p && refused.(queue := refused.queue[1..]) == s
  {
    var refused := Process(s, p, Refused, now, false, false).state;
    assert refused == s.(queue := [p] + s.queue);
    assert refused.queue[1..] == s.queue;
  }

  /** The first delivery into an empty ledger is its only entry: one request of its amount, in the bucket of the processor used. */
  lemma FirstDeliveryCounted(s: StoreState, p: PaymentRequest, now: int)
    requires s.zset == []
    ensures var delivered := Process(s, p, Accepted, now, false, false).state;
            var summary := PaymentRepository.Tally(SortedSet.RangeByScore(delivered.zset, None, None));
            && delivered.queue == s.queue
            && (UseFallback(s, false) ==> summary == PaymentSummary(EmptyBucket, Bucket(1, Finite(p.amount))))
            && (!UseFallback(s, false) ==> summary == PaymentSummary(Bucket(1, Finite(p.amount)), EmptyBucket))
  {
    assert SortedSet.Valid(s.zset) && SortedSet.RangeByScore(s.zset, None, None) == [] by {
      assert s.zset == [];
    }
    assert PaymentRepository.Tally([]) == EmptySummary;
    assert SortedSet.InRange(now, None, None);
    assert Finite(0).Plus(Finite(p.amount)) == Finite(p.amount);
    DeliveredPaymentCounted(s, p, now, false, None, None);
  }

  /**
   * A payment refused once and delivered on redelivery is counted once: it
   * goes back to the head of the queue, the next pop returns it, and after
   * the delivery an empty ledger reports one request of its amount in the
   * bucket of the processor the routing flag names.
   */
  lemma RedeliveredPaymentCountedOnce(s: StoreState, p: PaymentRequest, firstTry: int, now: int)
    requires s.zset == []
    ensures var refused := Process(s, p, Refused, firstTry, false, false).state;
            && refused.queue != [] && refused.queue[0] == p
            && var delivered := Process(refused.(queue := refused.queue[1..]), p, Accepted, now, false, false).state;
               var summary := PaymentRepository.Tally(SortedSet.RangeByScore(delivered.zset, None, None));
               && delivered.queue == s.queue
               && (UseFallback(s, false) ==> summary == PaymentSummary(EmptyBucket, Bucket(1, Finite(p.amount))))
               && (!UseFallback(s, false) ==> summary == PaymentSummary(Bucket(1, Finite(p.amount)), EmptyBucket))
  {
    assert SortedSet.Valid(s.zset) by {
      assert s.zset == [];
    }
    RefusedGoesFirst(s, p, firstTry);
    FirstDeliveryCounted(s, p, now);
  }

  // ---------------------------------------------------------------------
  // Health probe

  /**
   * checkServiceHealth: both statuses when both health endpoints answered
   * ok; it throws when either request failed or either answer was not ok.
   */
  function CheckServiceHealth(defaultReply: HttpReply<ServiceHealthResponse>,
                              fallbackReply: HttpReply<ServiceHealthResponse>)
    : (r: Reply<(ServiceHealthResponse, ServiceHealthResponse)>)
    ensures r.Value? <==> defaultReply.Response? && defaultReply.ok && fallbackReply.Response? && fallbackReply.ok
    ensures r.Value? ==> r.value.0 == defaultReply.body && r.value.1 == fallbackReply.body
  {
    if defaultReply.NetworkError? || fallbackReply.NetworkError? then Thrown
    else if !defaultReply.ok || !fallbackReply.ok then Thrown
    else Value((defaultReply.body, fallbackReply.body))
  }
}
