/**
 * The shared Redis database the gateway instances talk to, reduced to the
 * three keys the core uses: the list `payment_queue`, the string keys (the
 * two routing flags) and the sorted set `payments_by_date`.
 *
 * Every command is one atomic step. Commands here always answer; a client
 * call that throws is modelled by the callers, which take a `fault` flag.
 */
module Redis {
  import opened Types
  import SortedSet

  /** A snapshot of the whole database. */
  datatype StoreState = StoreState(
    queue: seq<PaymentRequest>,
    strings: map<string, string>,
    zset: seq<SortedSet.Entry>)

  const EmptyState := StoreState([], map[], [])

  /** The list after LPUSH of each of xs in turn. */
  function PushAll(q: seq<PaymentRequest>, xs: seq<PaymentRequest>): seq<PaymentRequest>
    decreases |xs|
  {
    if xs == [] then q else PushAll([xs[0]] + q, xs[1..])
  }

  class Store {
    /** The list `payment_queue`; index 0 is its left end (the head). */
    var queue: seq<PaymentRequest>
    /** The string keys. */
    var strings: map<string, string>
    /** The sorted set `payments_by_date`. */
    var zset: seq<SortedSet.Entry>

    ghost predicate Valid()
      reads this
    {
      SortedSet.Valid(zset)
    }

    function State(): StoreState
      reads this
    {
      StoreState(queue, strings, zset)
    }

    constructor ()
      ensures Valid() && State() == EmptyState
    {
      queue, strings, zset := [], map[], [];
    }

    /** LPUSH: insert at the head. */
    method LPush(p: PaymentRequest)
      modifies this
      ensures State() == old(State()).(queue := [p] + old(queue))
    {
      queue := [p] + queue;
    }

    /** LPOP: remove and return the head, or nil on an empty list. */
    method LPop() returns (r: Option<PaymentRequest>)
      modifies this
      ensures old(queue) == [] ==> r == None && State() == old(State())
      ensures old(queue) != [] ==> r == Some(old(queue)[0]) && State() == old(State()).(queue := old(queue)[1..])
    {
      if queue == [] {
        r := None;
      } else {
        r := Some(queue[0]);
        queue := queue[1..];
      }
    }

    /** RPOP: remove and return the tail, or nil on an empty list. */
    method RPop() returns (r: Option<PaymentRequest>)
      modifies this
      ensures old(queue) == [] ==> r == None && State() == old(State())
      ensures old(queue) != [] ==> r == Some(old(queue)[|old(queue)| - 1])
                                   && State() == old(State()).(queue := old(queue)[..|old(queue)| - 1])
    {
      if queue == [] {
        r := None;
      } else {
        r := Some(queue[|queue| - 1]);
        queue := queue[..|queue| - 1];
      }
    }

    /** LLEN. */
    method LLen() returns (n: nat)
      ensures n == |queue|
    {
      n := |queue|;
    }

    /** GET: the string under a key, or nil. */
    method Get(key: string) returns (v: Option<string>)
      ensures v.Some? <==> key in strings
      ensures v.Some? ==> v.value == strings[key]
    {
      v := if key in strings then Some(strings[key]) else None;
    }

    /** SET: overwrite one string key. */
    method Set(key: string, value: string)
      modifies this
      ensures State() == old(State()).(strings := old(strings)[key := value])
    {
      strings := strings[key := value];
    }

    /** ZADD on `payments_by_date`. */
    method ZAdd(member: string, score: int)
      requires Valid()
      modifies this
      ensures Valid()
      ensures State() == old(State()).(zset := SortedSet.Add(old(zset), member, score))
    {
      zset := SortedSet.Add(zset, member, score);
    }

    /** ZRANGEBYSCORE on `payments_by_date`. */
    method ZRangeByScore(lo: Option<int>, hi: Option<int>) returns (members: seq<string>)
      ensures members == SortedSet.RangeByScore(zset, lo, hi)
    {
      members := SortedSet.RangeByScore(zset, lo, hi);
    }

    /** FLUSHDB: delete every key. */
    method FlushDb()
      modifies this
      ensures Valid() && State() == EmptyState
    {
      queue, strings, zset := [], map[], [];
    }
  }
}
