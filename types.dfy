/**
 * The data shapes shared by the gateway: payment requests, ledger logs,
 * the per-processor summary, health responses, and the outcome types used
 * for calls that may throw.
 *
 * Amounts are integer cents and timestamps are integer milliseconds.
 */
module Types {

  datatype Option<+T> = None | Some(value: T)

  /** The result of a call into the store that may throw instead of answering. */
  datatype Reply<+T> = Value(value: T) | Thrown

  /** How an asynchronous call settled: its promise was fulfilled or rejected. */
  datatype Settled = Fulfilled | Rejected

  /** A queued payment: the client-supplied id and the amount. */
  datatype PaymentRequest = PaymentRequest(correlationId: string, amount: int)

  /** A successful delivery, as handed to the ledger. */
  datatype PaymentLog = PaymentLog(amount: int, processor: string, correlationId: string, requestedAt: int)

  /**
   * A JavaScript number restricted to what the ledger sums can produce:
   * an exact amount in cents, or NaN once an unparsable amount was added.
   */
  datatype Num = Finite(cents: int) | NaN {
    function Plus(other: Num): (r: Num)
      ensures r.Finite? <==> this.Finite? && other.Finite?
      ensures r.Finite? ==> r.cents == this.cents + other.cents
    {
      if this.Finite? && other.Finite? then Finite(cents + other.cents) else NaN
    }
  }

  datatype Bucket = Bucket(totalRequests: nat, totalAmount: Num)

  /** The reply of the summary query: one bucket per processor label. */
  datatype PaymentSummary = PaymentSummary(default: Bucket, fallback: Bucket)

  const EmptyBucket := Bucket(0, Finite(0))
  const EmptySummary := PaymentSummary(EmptyBucket, EmptyBucket)

  /** The body of a processor's health endpoint. */
  datatype ServiceHealthResponse = ServiceHealthResponse(failing: bool, minResponseTime: int)

  /** What a `fetch` produced: a response with its ok flag and parsed body, or a network error. */
  datatype HttpReply<+T> = Response(ok: bool, body: T) | NetworkError

  /** The outcome of forwarding a payment to a processor. */
  datatype Delivery = Accepted | Refused | Failed

  /** The two upstream processors and their labels in the ledger. */
  datatype Processor = Default | Fallback {
    function Label(): string {
      if Default? then "default" else "fallback"
    }
  }

  function Target(useFallback: bool): (p: Processor)
    ensures p.Fallback? <==> useFallback
  {
    if useFallback then Fallback else Default
  }
}
