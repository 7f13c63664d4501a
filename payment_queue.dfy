/**
 * The queue and flag primitives of the interval consumer: payments are
 * pushed at the head of `payment_queue` and popped from the tail, so the
 * queue is first-in first-out. Flag reads default to false and flag writes
 * swallow store errors; pushing a payment rethrows them.
 *
 * `fault` stands for "the Redis client call threw".
 */
module PaymentQueue {
  import opened Types
  import opened Routing
  import opened Redis

  /** addProcessToQueue: LPUSH; a store error is logged and rethrown. */
  method AddProcessToQueue(store: Store, paymentRequest: PaymentRequest, fault: bool) returns (r: Settled)
    modifies store
    ensures r == if fault then Rejected else Fulfilled
    ensures store.State() == if fault then old(store.State())
                             else old(store.State()).(queue := [paymentRequest] + old(store.queue))
  {
    if fault {
      return Rejected;
    }
    store.LPush(paymentRequest);
    r := Fulfilled;
  }

  /** getNextPaymentFromQueue: RPOP; null on an empty list, and a store error is rethrown. */
  method GetNextPaymentFromQueue(store: Store, fault: bool) returns (r: Reply<Option<PaymentRequest>>)
    modifies store
    ensures fault ==> r == Thrown && store.State() == old(store.State())
    ensures !fault && old(store.queue) == [] ==> r == Value(None) && store.State() == old(store.State())
    ensures !fault && old(store.queue) != [] ==>
              r == Value(Some(old(store.queue)[|old(store.queue)| - 1]))
              && store.State() == old(store.State()).(queue := old(store.queue)[..|old(store.queue)| - 1])
  {
    if fault {
      return Thrown;
    }
    var paymentData := store.RPop();
    r := Value(paymentData);
  }

  /** getQueueLength: LLEN, or 0 on a store error. */
  method GetQueueLength(store: Store, fault: bool) returns (n: nat)
    ensures n == if fault then 0 else |store.queue|
  {
    if fault {
      return 0;
    }
    n := store.LLen();
  }

  method GetShouldCallFallback(store: Store, fault: bool) returns (b: bool)
    ensures b <==> !fault && FlagValue(store.strings, FALLBACK_FLAG_KEY)
  {
    b := GetFlag(store, FALLBACK_FLAG_KEY, fault);
  }

  method SetShouldCallFallback(store: Store, value: bool, fault: bool)
    modifies store
    ensures store.State() == if fault then old(store.State())
                             else old(store.State()).(strings := old(store.strings)[FALLBACK_FLAG_KEY := FlagText(value)])
    ensures !fault ==> FlagValue(store.strings, FALLBACK_FLAG_KEY) == value
    ensures FlagValue(store.strings, TIMEOUT_FLAG_KEY) == FlagValue(old(store.strings), TIMEOUT_FLAG_KEY)
  {
    SetFlag(store, FALLBACK_FLAG_KEY, value, fault);
  }

  method GetShouldTimeoutAllCalls(store: Store, fault: bool) returns (b: bool)
    ensures b <==> !fault && FlagValue(store.strings, TIMEOUT_FLAG_KEY)
  {
    b := GetFlag(store, TIMEOUT_FLAG_KEY, fault);
  }

  method SetShouldTimeoutAllCalls(store: Store, value: bool, fault: bool)
    modifies store
    ensures store.State() == if fault then old(store.State())
                             else old(store.State()).(strings := old(store.strings)[TIMEOUT_FLAG_KEY := FlagText(value)])
    ensures !fault ==> FlagValue(store.strings, TIMEOUT_FLAG_KEY) == value
    ensures FlagValue(store.strings, FALLBACK_FLAG_KEY) == FlagValue(old(store.strings), FALLBACK_FLAG_KEY)
  {
    SetFlag(store, TIMEOUT_FLAG_KEY, value, fault);
  }

  /** On a non-empty list, a payment pushed and then popped at once is NOT the one returned: the oldest is. */
  method AddThenNext(store: Store, p: PaymentRequest) returns (r: Reply<Option<PaymentRequest>>)
    modifies store
    ensures old(store.queue) == [] ==> r == Value(Some(p)) && store.State() == old(store.State())
    ensures old(store.queue) != [] ==>
              r == Value(Some(old(store.queue)[|old(store.queue)| - 1]))
              && store.State() == old(store.State()).(queue := [p] + old(store.queue)[..|old(store.queue)| - 1])
  {
    var _ := AddProcessToQueue(store, p, false);
    r := GetNextPaymentFromQueue(store, false);
  }

  // ---------------------------------------------------------------------
  // Queue order

  /** The payments that repeated getNextPaymentFromQueue calls return, until the list is empty. */
  function DrainOrder(q: seq<PaymentRequest>): seq<PaymentRequest>
  {
    if q == [] then [] else [q[|q| - 1]] + DrainOrder(q[..|q| - 1])
  }

  /** Calls getNextPaymentFromQueue until it returns nothing: the payments come back in DrainOrder and the list ends empty. */
  method Drain(store: Store) returns (drained: seq<PaymentRequest>)
    modifies store
    ensures drained == DrainOrder(old(store.queue))
    ensures store.State() == old(store.State()).(queue := [])
  {
    drained := [];
    var popped := GetNextPaymentFromQueue(store, false);
    while popped.value.Some?
      invariant popped.Value?
      invariant popped.value.None? ==> store.queue == []
      invariant drained + (if popped.value.Some? then [popped.value.value] else []) + DrainOrder(store.queue)
                == DrainOrder(old(store.queue))
      invariant store.State() == old(store.State()).(queue := store.queue)
      decreases |store.queue| + (if popped.value.Some? then 1 else 0)
    {
      drained := drained + [popped.value.value];
      popped := GetNextPaymentFromQueue(store, false);
    }
  }

  lemma {:induction false} DrainPushed(x: PaymentRequest, q: seq<PaymentRequest>)
    ensures DrainOrder([x] + q) == DrainOrder(q) + [x]
  {
    if q != [] {
      assert ([x] + q)[..|[x] + q| - 1] == [x] + q[..|q| - 1];
      DrainPushed(x, q[..|q| - 1]);
    } else {
      assert [x][..0] == [];
    }
  }

  /** First in, first out: payments pushed in turn come back oldest first, after everything already queued. */
  lemma {:induction false} FirstInFirstOut(q: seq<PaymentRequest>, xs: seq<PaymentRequest>)
    ensures DrainOrder(PushAll(q, xs)) == DrainOrder(q) + xs
    decreases |xs|
  {
    if xs != [] {
      FirstInFirstOut([xs[0]] + q, xs[1..]);
      DrainPushed(xs[0], q);
      assert xs == [xs[0]] + xs[1..];
    }
  }
}
