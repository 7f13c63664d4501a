/**
 * The queue and flag primitives used by the worker pool: payments are
 * pushed at the head of `payment_queue` and popped from the head too, so
 * the queue is last-in first-out. Flag reads default to false and flag
 * writes swallow store errors; pushing a payment propagates them.
 *
 * `fault` stands for "the Redis client call threw".
 */
module QueueService {
  import opened Types
  import opened Routing
  import opened Redis

  /** addPaymentToQueue: LPUSH; a store error rejects the call. */
  method AddPaymentToQueue(store: Store, paymentRequest: PaymentRequest, fault: bool) returns (r: Settled)
    modifies store
    ensures r == if fault then Rejected else Fulfilled
    ensures store.State() == if fault then old(store.State())
                             else old(store.State()).(queue := [paymentRequest] + old(store.queue))
  {
    if fault {
      return Rejected;
    }
    store.LPush(paymentRequest);
    r := Fulfilled;
  }

  /** getNextPaymentFromQueue: LPOP; null on an empty list, and a store error is rethrown. */
  method GetNextPaymentFromQueue(store: Store, fault: bool) returns (r: Reply<Option<PaymentRequest>>)
    modifies store
    ensures fault ==> r == Thrown && store.State() == old(store.State())
    ensures !fault && old(store.queue) == [] ==> r == Value(None) && store.State() == old(store.State())
    ensures !fault && old(store.queue) != [] ==>
              r == Value(Some(old(store.queue)[0]))
              && store.State() == old(store.State()).(queue := old(store.queue)[1..])
  {
    if fault {
      return Thrown;
    }
    var paymentData := store.LPop();
    r := Value(paymentData);
  }

  /** getQueueLength: LLEN, or 0 on a store error. */
  method GetQueueLength(store: Store, fault: bool) returns (n: nat)
    ensures n == if fault then 0 else |store.queue|
  {
    if fault {
      return 0;
    }
    n := store.LLen();
  }

  method GetShouldCallFallback(store: Store, fault: bool) returns (b: bool)
    ensures b <==> !fault && FlagValue(store.strings, FALLBACK_FLAG_KEY)
  {
    b := GetFlag(store, FALLBACK_FLAG_KEY, fault);
  }

  method SetShouldCallFallback(store: Store, value: bool, fault: bool)
    modifies store
    ensures store.State() == if fault then old(store.State())
                             else old(store.State()).(strings := old(store.strings)[FALLBACK_FLAG_KEY := FlagText(value)])
    ensures !fault ==> FlagValue(store.strings, FALLBACK_FLAG_KEY) == value
    ensures FlagValue(store.strings, TIMEOUT_FLAG_KEY) == FlagValue(old(store.strings), TIMEOUT_FLAG_KEY)
  {
    SetFlag(store, FALLBACK_FLAG_KEY, value, fault);
  }

  method GetShouldTimeoutAllCalls(store: Store, fault: bool) returns (b: bool)
    ensures b <==> !fault && FlagValue(store.strings, TIMEOUT_FLAG_KEY)
  {
    b := GetFlag(store, TIMEOUT_FLAG_KEY, fault);
  }

  method SetShouldTimeoutAllCalls(store: Store, value: bool, fault: bool)
    modifies store
    ensures store.State() == if fault then old(store.State())
                             else old(store.State()).(strings := old(store.strings)[TIMEOUT_FLAG_KEY := FlagText(value)])
    ensures !fault ==> FlagValue(store.strings, TIMEOUT_FLAG_KEY) == value
    ensures FlagValue(store.strings, FALLBACK_FLAG_KEY) == FlagValue(old(store.strings), FALLBACK_FLAG_KEY)
  {
    SetFlag(store, TIMEOUT_FLAG_KEY, value, fault);
  }

  /** A payment pushed and then popped at once comes straight back, and the list is as before. */
  method AddThenNext(store: Store, p: PaymentRequest) returns (r: Reply<Option<PaymentRequest>>)
    modifies store
    ensures r == Value(Some(p)) && store.State() == old(store.State())
  {
    var _ := AddPaymentToQueue(store, p, false);
    r := GetNextPaymentFromQueue(store, false);
  }

  // ---------------------------------------------------------------------
  // Queue order

  /** The payments that repeated getNextPaymentFromQueue calls return, until the list is empty. */
  function DrainOrder(q: seq<PaymentRequest>): seq<PaymentRequest>
  {
    if q == [] then [] else [q[0]] + DrainOrder(q[1..])
  }

  /** Calls getNextPaymentFromQueue until it returns nothing: the payments come back in DrainOrder and the list ends empty. */
  method Drain(store: Store) returns (drained: seq<PaymentRequest>)
    modifies store
    ensures drained == DrainOrder(old(store.queue))
    ensures store.State() == old(store.State()).(queue := [])
  {
    drained := [];
    var popped := GetNextPaymentFromQueue(store, false);
    while popped.value.Some?
      invariant popped.Value?
      invariant popped.value.None? ==> store.queue == []
      invariant drained + (if popped.value.Some? then [popped.value.value] else []) + DrainOrder(store.queue)
                == DrainOrder(old(store.queue))
      invariant store.State() == old(store.State()).(queue := store.queue)
      decreases |store.queue| + (if popped.value.Some? then 1 else 0)
    {
      drained := drained + [popped.value.value];
      popped := GetNextPaymentFromQueue(store, false);
    }
  }

  /** Popping from the head drains the list in the order it is stored, head first. */
  lemma {:induction false} DrainOrderIsList(q: seq<PaymentRequest>)
    ensures DrainOrder(q) == q
  {
    if q != [] {
      DrainOrderIsList(q[1..]);
      assert q == [q[0]] + q[1..];
    }
  }

  function Reverse<T>(xs: seq<T>): seq<T>
  {
    if xs == [] then [] else Reverse(xs[1..]) + [xs[0]]
  }

  /** Last in, first out: payments pushed in turn come back newest first, ahead of older ones. */
  lemma {:induction false} LastInFirstOut(q: seq<PaymentRequest>, xs: seq<PaymentRequest>)
    ensures DrainOrder(PushAll(q, xs)) == Reverse(xs) + DrainOrder(q)
    decreases |xs|
  {
    if xs != [] {
      LastInFirstOut([xs[0]] + q, xs[1..]);
      assert ([xs[0]] + q)[1..] == q;
    }
  }
}
