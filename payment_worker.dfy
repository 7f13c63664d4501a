/**
 * The worker pool: processQueue calls pop payments off the LIFO queue and
 * start them while fewer than `concurrency` are in flight; each payment,
 * once processed, frees its slot and schedules a new processQueue call.
 * The health monitor, on every instance but "01", turns the two
 * processors' health into the routing flags.
 *
 * processQueue is modelled one await at a time. A call is suspended at the
 * read of the halt flag or at a pop; the event loop resumes one suspended
 * call, or settles one started payment, per step. The `while` test is made
 * before a pop and the counter is raised after it, so calls that overlap
 * at a pop can carry the counter past the bound.
 */
module PaymentWorker {
  import opened Types
  import opened Routing
  import opened Redis
  import QueueService
  import PaymentService

  /** The bound used when startWorkers is given none. */
  const MAX_CONCURRENT_PAYMENTS: nat := 10

  /** The instance that runs no health monitor. */
  const MONITORLESS_INSTANCE := "01"

  // ---------------------------------------------------------------------
  // The pool, one await at a time

  /**
   * Where a processQueue call is suspended. A call that is scheduled but
   * has not run yet counts as reading the flag: that read is the first
   * thing it does.
   */
  datatype Pass =
    | ReadingFlag  // at the read of the halt flag
    | Popping      // at a pop, after its `while` test saw a free slot

  /** The counter, the started payments (oldest first) and the suspended processQueue calls. */
  datatype Pool = Pool(activeProcessing: int, inFlight: seq<PaymentRequest>, passes: seq<Pass>)

  /** What the event loop does next. */
  datatype Event =
    | FlagRead(pass: nat, halted: bool)                              // a call's flag read returns
    | PopReturned(pass: nat, popped: Reply<Option<PaymentRequest>>)  // a call's pop returns
    | Completed(slot: nat)                                           // a started payment settles

  /** The sequence without its i-th element. */
  function Without<T>(s: seq<T>, i: nat): (r: seq<T>)
    requires i < |s|
    ensures |r| == |s| - 1
    ensures multiset(r) == multiset(s) - multiset{s[i]}
    ensures forall k :: 0 <= k < i ==> r[k] == s[k]
    ensures forall k :: i <= k < |r| ==> r[k] == s[k + 1]
  {
    assert s == s[..i] + [s[i]] + s[i + 1..];
    s[..i] + s[i + 1..]
  }

  /** How many calls wait on a pop. */
  function PopCount(passes: seq<Pass>): nat
  {
    multiset(passes)[Popping]
  }

  /** startWorkers: nothing in flight, and one processQueue call on its way to the flag read. */
  function Start(): Pool
  {
    Pool(0, [], [ReadingFlag])
  }

  /** Whether the event raises the counter: a waiting pop returns a payment. */
  predicate Admits(pool: Pool, e: Event)
  {
    && e.PopReturned? && e.pass < |pool.passes| && pool.passes[e.pass] == Popping
    && e.popped.Value? && e.popped.value.Some?
  }

  /**
   * One step of the event loop. The counter stays equal to the number of
   * payments in flight, and it rises, by one, only when a waiting pop
   * returns a payment.
   */
  function Next(pool: Pool, concurrency: nat, e: Event): (r: Pool)
    ensures pool.activeProcessing == |pool.inFlight| ==> r.activeProcessing == |r.inFlight|
    ensures r.activeProcessing == pool.activeProcessing + 1 <==> Admits(pool, e)
    ensures Admits(pool, e) ==> r.inFlight == pool.inFlight + [e.popped.value.value]
    ensures !Admits(pool, e) ==> r.activeProcessing <= pool.activeProcessing
    ensures e.Completed? && e.slot < |pool.inFlight| ==>
              r.activeProcessing == pool.activeProcessing - 1
              && r.inFlight == Without(pool.inFlight, e.slot)
              && r.passes == pool.passes + [ReadingFlag]
  {
    match e
    case FlagRead(j, halted) =>
      // a halted read schedules a retry, which reads the flag again;
      // otherwise the `while` test decides between a pop and the end of the call
      if j >= |pool.passes| || pool.passes[j] != ReadingFlag || halted then pool
      else if pool.activeProcessing < concurrency then pool.(passes := pool.passes[j := Popping])
      else pool.(passes := Without(pool.passes, j))
    case PopReturned(j, popped) =>
      // a pop that throws ends the call and nothing retries it; an empty pop
      // schedules a new call; a payment is started and the `while` test decides
      // whether the call pops again
      if j >= |pool.passes| || pool.passes[j] != Popping then pool
      else if popped.Thrown? then pool.(passes := Without(pool.passes, j))
      else if popped.value.None? then pool.(passes := pool.passes[j := ReadingFlag])
      else
        var admitted := pool.(activeProcessing := pool.activeProcessing + 1,
                              inFlight := pool.inFlight + [popped.value.value]);
        if admitted.activeProcessing < concurrency then admitted
        else admitted.(passes := Without(pool.passes, j))
    case Completed(i) =>
      // the payment's slot is freed and a new call is scheduled
      if i >= |pool.inFlight| then pool
      else Pool(pool.activeProcessing - 1, Without(pool.inFlight, i), pool.passes + [ReadingFlag])
  }

  /** A step sends at most one call to a pop, and only a flag read that saw a free slot does. */
  lemma NextPopCount(pool: Pool, concurrency: nat, e: Event)
    ensures PopCount(Next(pool, concurrency, e).passes) <= PopCount(pool.passes) + 1
    ensures PopCount(Next(pool, concurrency, e).passes) > PopCount(pool.passes) ==>
              e.FlagRead? && pool.activeProcessing < concurrency
  {
    if e.FlagRead? && e.pass < |pool.passes| && pool.passes[e.pass] == ReadingFlag {
      assert multiset(pool.passes[e.pass := Popping])[Popping] == PopCount(pool.passes) + 1;
    }
  }

  /** The events in turn. */
  function Run(pool: Pool, concurrency: nat, events: seq<Event>): Pool
    decreases |events|
  {
    if events == [] then pool else Run(Next(pool, concurrency, events[0]), concurrency, events[1..])
  }

  lemma {:induction false} RunConcat(pool: Pool, concurrency: nat, xs: seq<Event>, ys: seq<Event>)
    ensures Run(pool, concurrency, xs + ys) == Run(Run(pool, concurrency, xs), concurrency, ys)
    decreases |xs|
  {
    if xs == [] {
      assert xs + ys == ys;
    } else {
      assert (xs + ys)[0] == xs[0] && (xs + ys)[1..] == xs[1..] + ys;
      RunConcat(Next(pool, concurrency, xs[0]), concurrency, xs[1..], ys);
    }
  }

  // ---------------------------------------------------------------------
  // The bound

  /**
   * The bound holds, at most one call waits on a pop, and a call that
   * waits on a pop saw a free slot that is still free.
   */
  predicate Guarded(pool: Pool, concurrency: nat)
  {
    && pool.activeProcessing <= concurrency
    && PopCount(pool.passes) <= 1
    && (PopCount(pool.passes) == 1 ==> pool.activeProcessing < concurrency)
  }

  /** A flag read that sends a call to a pop while another call already waits on one. */
  predicate SecondPop(pool: Pool, concurrency: nat, e: Event)
  {
    && e.FlagRead? && !e.halted
    && e.pass < |pool.passes| && pool.passes[e.pass] == ReadingFlag
    && pool.activeProcessing < concurrency
    && PopCount(pool.passes) >= 1
  }

  /** Every step keeps the bound, except one that starts a second pop. */
  lemma GuardedNext(pool: Pool, concurrency: nat, e: Event)
    requires Guarded(pool, concurrency)
    ensures Guarded(Next(pool, concurrency, e), concurrency) <==> !SecondPop(pool, concurrency, e)
  {
    NextPopCount(pool, concurrency, e);
    if e.FlagRead? && e.pass < |pool.passes| && pool.passes[e.pass] == ReadingFlag {
      assert multiset(pool.passes[e.pass := Popping])[Popping] == PopCount(pool.passes) + 1;
    }
  }

  /** No step of the run starts a second pop. */
  predicate OnePopAtATime(pool: Pool, concurrency: nat, events: seq<Event>)
    decreases |events|
  {
    events == []
    || (!SecondPop(pool, concurrency, events[0])
        && OnePopAtATime(Next(pool, concurrency, events[0]), concurrency, events[1..]))
  }

  /**
   * While no two calls wait on a pop at once, the counter never exceeds
   * the bound.
   */
  lemma {:induction false} RunGuarded(pool: Pool, concurrency: nat, events: seq<Event>)
    requires Guarded(pool, concurrency) && OnePopAtATime(pool, concurrency, events)
    ensures Guarded(Run(pool, concurrency, events), concurrency)
    ensures Run(pool, concurrency, events).activeProcessing <= concurrency
    decreases |events|
  {
    if events != [] {
      GuardedNext(pool, concurrency, events[0]);
      RunGuarded(Next(pool, concurrency, events[0]), concurrency, events[1..]);
    }
  }

  lemma WithoutUpdated<T>(s: seq<T>, j: nat, x: T)
    requires j < |s|
    ensures Without(s[j := x], j) == Without(s, j)
  {
    assert s[j := x][..j] == s[..j] && s[j := x][j + 1..] == s[j + 1..];
  }

  /** Pops by call 0 that return the given payments in turn. */
  function PopsOf(ps: seq<PaymentRequest>): (events: seq<Event>)
    ensures |events| == |ps|
    ensures forall k :: 0 <= k < |ps| ==> events[k] == PopReturned(0, Value(Some(ps[k])))
  {
    if ps == [] then [] else [PopReturned(0, Value(Some(ps[0])))] + PopsOf(ps[1..])
  }

  /** A lone call that keeps finding payments fills every slot and ends. */
  lemma {:induction false} PassFills(concurrency: nat, ps: seq<PaymentRequest>, k: nat)
    requires |ps| == concurrency && k < concurrency
    ensures Run(Pool(k, ps[..k], [Popping]), concurrency, PopsOf(ps[k..])) == Pool(concurrency, ps, [])
    decreases concurrency - k
  {
    var rest := PopsOf(ps[k..]);
    assert rest[0] == PopReturned(0, Value(Some(ps[k])));
    assert ps[..k] + [ps[k]] == ps[..k + 1];
    var next := Next(Pool(k, ps[..k], [Popping]), concurrency, rest[0]);
    if k + 1 < concurrency {
      assert next == Pool(k + 1, ps[..k + 1], [Popping]);
      assert rest[1..] == PopsOf(ps[k + 1..]) by {
        assert ps[k..][1..] == ps[k + 1..];
      }
      PassFills(concurrency, ps, k + 1);
    } else {
      assert ps[..k + 1] == ps;
      assert next == Pool(concurrency, ps, []);
      assert rest[1..] == [];
    }
  }

  /**
   * Two payments settle in one turn, and each schedules a processQueue
   * call. Both calls see a free slot before either pop returns, and the
   * second payment they admit is one too many.
   */
  function Overlap(a: PaymentRequest, b: PaymentRequest, c: PaymentRequest): seq<Event>
  {
    [Completed(0), Completed(0), FlagRead(0, false), FlagRead(1, false),
     PopReturned(0, Value(Some(a))), PopReturned(1, Value(Some(b))), PopReturned(0, Value(Some(c)))]
  }

  /** A payment comes back to a call still waiting on a pop when every slot is taken. */
  lemma OverlapLastAdmit(pool: Pool, concurrency: nat, a: PaymentRequest, b: PaymentRequest, c: PaymentRequest)
    requires pool.activeProcessing == concurrency && pool.passes == [Popping]
    ensures Run(pool, concurrency, Overlap(a, b, c)[6..]).activeProcessing == concurrency + 1
  {
    var e := Overlap(a, b, c);
    assert e[6..] == [PopReturned(0, Value(Some(c)))];
    assert Next(pool, concurrency, e[6]).activeProcessing == concurrency + 1;
  }

  /** The second of two waiting calls gets a payment, and fills the last slot. */
  lemma OverlapSecondAdmit(pool: Pool, concurrency: nat, a: PaymentRequest, b: PaymentRequest, c: PaymentRequest)
    requires concurrency >= 1 && pool.activeProcessing == concurrency - 1
    requires pool.passes == [Popping, Popping]
    ensures Run(pool, concurrency, Overlap(a, b, c)[5..]).activeProcessing == concurrency + 1
  {
    var e := Overlap(a, b, c);
    var s6 := Next(pool, concurrency, e[5]);
    assert s6.activeProcessing == concurrency && s6.passes == [Popping];
    OverlapLastAdmit(s6, concurrency, a, b, c);
    assert Run(pool, concurrency, e[5..]) == Run(s6, concurrency, e[6..]) by {
      assert e[5..][1..] == e[6..];
    }
  }

  /** Two payments come back to two calls waiting on a pop with two slots free. */
  lemma OverlapAdmits(pool: Pool, concurrency: nat, a: PaymentRequest, b: PaymentRequest, c: PaymentRequest)
    requires concurrency >= 2 && pool.activeProcessing == concurrency - 2
    requires pool.passes == [Popping, Popping]
    ensures Run(pool, concurrency, Overlap(a, b, c)[4..]).activeProcessing == concurrency + 1
  {
    var e := Overlap(a, b, c);
    var s5 := Next(pool, concurrency, e[4]);
    assert s5.activeProcessing == concurrency - 1 && s5.passes == [Popping, Popping];
    OverlapSecondAdmit(s5, concurrency, a, b, c);
    assert Run(pool, concurrency, e[4..]) == Run(s5, concurrency, e[5..]) by {
      assert e[4..][1..] == e[5..];
    }
  }

  /** Two calls read the flag with two slots free, and both go on to a pop. */
  lemma OverlapPops(pool: Pool, concurrency: nat, a: PaymentRequest, b: PaymentRequest, c: PaymentRequest)
    requires concurrency >= 2 && pool.activeProcessing == concurrency - 2
    requires pool.passes == [ReadingFlag, ReadingFlag]
    ensures Run(pool, concurrency, Overlap(a, b, c)[2..]).activeProcessing == concurrency + 1
  {
    var e := Overlap(a, b, c);
    var s3 := Next(pool, concurrency, e[2]);
    assert s3.activeProcessing == concurrency - 2 && s3.passes == [Popping, ReadingFlag];
    var s4 := Next(s3, concurrency, e[3]);
    assert s4.activeProcessing == concurrency - 2 && s4.passes == [Popping, Popping];
    OverlapAdmits(s4, concurrency, a, b, c);
    assert Run(s3, concurrency, e[3..]) == Run(s4, concurrency, e[4..]) by {
      assert e[3..][1..] == e[4..];
    }
    assert Run(pool, concurrency, e[2..]) == Run(s3, concurrency, e[3..]) by {
      assert e[2..][1..] == e[3..];
    }
  }

  lemma OverlapFromFull(concurrency: nat, inFlight: seq<PaymentRequest>, a: PaymentRequest,
                        b: PaymentRequest, c: PaymentRequest)
    requires concurrency >= 2 && |inFlight| == concurrency
    ensures Run(Pool(concurrency, inFlight, []), concurrency, Overlap(a, b, c)).activeProcessing == concurrency + 1
  {
    var e := Overlap(a, b, c);
    var s0 := Pool(concurrency, inFlight, []);
    var s1 := Next(s0, concurrency, e[0]);
    assert s1.activeProcessing == concurrency - 1 && |s1.inFlight| == concurrency - 1 && s1.passes == [ReadingFlag];
    var s2 := Next(s1, concurrency, e[1]);
    assert s2.activeProcessing == concurrency - 2 && s2.passes == [ReadingFlag, ReadingFlag];
    OverlapPops(s2, concurrency, a, b, c);
    assert Run(s1, concurrency, e[1..]) == Run(s2, concurrency, e[2..]) by {
      assert e[1..][1..] == e[2..];
    }
  }

  /**
   * The bound does not hold for the code as written: from startWorkers, a
   * first call fills every slot, and then the overlapping schedule leaves
   * the counter one above the bound.
   */
  lemma OverlappingPopsOvershoot(concurrency: nat, ps: seq<PaymentRequest>, a: PaymentRequest,
                                 b: PaymentRequest, c: PaymentRequest)
    requires concurrency >= 2 && |ps| == concurrency
    ensures Run(Start(), concurrency, [FlagRead(0, false)] + PopsOf(ps)) == Pool(concurrency, ps, [])
    ensures Run(Start(), concurrency, [FlagRead(0, false)] + PopsOf(ps) + Overlap(a, b, c)).activeProcessing
            == concurrency + 1
  {
    var fill := [FlagRead(0, false)] + PopsOf(ps);
    assert Next(Start(), concurrency, fill[0]) == Pool(0, ps[..0], [Popping]);
    assert fill[1..] == PopsOf(ps[0..]) by {
      assert ps[0..] == ps;
    }
    PassFills(concurrency, ps, 0);
    RunConcat(Start(), concurrency, fill, Overlap(a, b, c));
    OverlapFromFull(concurrency, ps, a, b, c);
  }

  // ---------------------------------------------------------------------
  // The worker

  /** How a processQueue call that nothing interleaves with ends. */
  datatype PassEnd =
    | Halted      // the halt flag read true; a retry is scheduled after 500 ms
    | QueueEmpty  // a pop found the queue empty; a new call is scheduled
    | Saturated   // the `while` test found no free slot
    | Crashed     // a pop threw; the call's promise is rejected and nothing retries it

  /**
   * How many payments such a call starts: one per free slot, stopping
   * early at an empty queue or at the pop that throws.
   */
  function Admitted(room: int, available: nat, failingPop: Option<nat>): (n: nat)
    ensures n <= available
    ensures room <= 0 ==> n == 0
    ensures room > 0 ==> n <= room
    ensures failingPop.Some? ==> n <= failingPop.value
    ensures room <= n || n == available || (failingPop.Some? && n == failingPop.value)
  {
    var bound := if failingPop.Some? && failingPop.value < available then failingPop.value else available;
    if room <= 0 then 0 else if room < bound then room else bound
  }

  class Worker {
    /** The shared database. */
    const store: Store
    /** The bound startWorkers was given. */
    const concurrency: nat
    /** How many started payments have not settled yet. */
    var activeProcessing: int
    /** The started payments, oldest first. */
    var inFlight: seq<PaymentRequest>
    /** The suspended processQueue calls. */
    var passes: seq<Pass>
    /** How many health-monitor intervals are running. */
    var healthMonitors: nat

    function Snapshot(): Pool
      reads this
    {
      Pool(activeProcessing, inFlight, passes)
    }

    /** The counter matches the payments in flight. */
    ghost predicate Valid()
      reads this, store
    {
      activeProcessing == |inFlight| && store.Valid()
    }

    /** startWorkers: nothing in flight, and the first processQueue call is on its way. */
    constructor (store: Store, concurrency: nat := MAX_CONCURRENT_PAYMENTS)
      requires store.Valid()
      ensures Valid()
      ensures this.store == store && this.concurrency == concurrency
      ensures Snapshot() == Start() && healthMonitors == 0
    {
      this.store := store;
      this.concurrency := concurrency;
      activeProcessing := 0;
      inFlight := [];
      passes := [ReadingFlag];
      healthMonitors := 0;
    }

    /** Call j's read of the halt flag returns; `readFault` makes it throw, which reads as false. */
    method ResumeAfterFlagRead(j: nat, readFault: bool) returns (halted: bool)
      requires Valid() && j < |passes| && passes[j] == ReadingFlag
      modifies this
      ensures Valid()
      ensures halted <==> !readFault && FlagValue(store.strings, TIMEOUT_FLAG_KEY)
      ensures activeProcessing == old(activeProcessing) && inFlight == old(inFlight)
      ensures passes == if halted then old(passes)
                        else if activeProcessing < concurrency then old(passes)[j := Popping]
                        else Without(old(passes), j)
      ensures Snapshot() == Next(old(Snapshot()), concurrency, FlagRead(j, halted))
      ensures healthMonitors == old(healthMonitors)
    {
      halted := QueueService.GetShouldTimeoutAllCalls(store, readFault);
      if halted {
        // the retry scheduled by setTimeout reads the flag again
        return;
      }
      if activeProcessing < concurrency {
        passes := passes[j := Popping];
      } else {
        passes := Without(passes, j);
      }
    }

    /** Call j's pop returns; `popFault` makes it throw. */
    method ResumeAfterPop(j: nat, popFault: bool) returns (popped: Reply<Option<PaymentRequest>>)
      requires Valid() && j < |passes| && passes[j] == Popping
      modifies this, store
      ensures Valid()
      ensures popped == if popFault then Thrown
                        else if old(store.queue) == [] then Value(None)
                        else Value(Some(old(store.queue)[0]))
      ensures store.State() == if popped.Value? && popped.value.Some? then old(store.State()).(queue := old(store.queue)[1..])
                               else old(store.State())
      ensures var admitted := popped.Value? && popped.value.Some?;
              && activeProcessing == old(activeProcessing) + (if admitted then 1 else 0)
              && inFlight == old(inFlight) + (if admitted then [popped.value.value] else [])
              && passes == if popped.Value? && popped.value.None? then old(passes)[j := ReadingFlag]
                           else if admitted && activeProcessing < concurrency then old(passes)
                           else Without(old(passes), j)
      ensures Snapshot() == Next(old(Snapshot()), concurrency, PopReturned(j, popped))
      ensures healthMonitors == old(healthMonitors)
    {
      popped := QueueService.GetNextPaymentFromQueue(store, popFault);
      if popped.Thrown? {
        passes := Without(passes, j);
        return;
      }
      if popped.value.None? {
        // the call scheduled by setImmediate starts at the flag read
        passes := passes[j := ReadingFlag];
        return;
      }
      activeProcessing := activeProcessing + 1;
      inFlight := inFlight + [popped.value.value];
      if activeProcessing >= concurrency {
        passes := Without(passes, j);
      }
    }

    /**
     * A started payment settles: processPayment runs on it, and whatever
     * the outcome, its slot is freed exactly once and a new processQueue
     * call is scheduled.
     */
    method Complete(i: nat, outcome: Delivery, now: int, readFault: bool, writeFault: bool)
      requires Valid() && i < |inFlight|
      modifies this, store
      ensures Valid()
      ensures healthMonitors == old(healthMonitors)
      ensures Snapshot() == Next(old(Snapshot()), concurrency, Completed(i))
      ensures store.State()
              == PaymentService.Process(old(store.State()), old(inFlight[i]), outcome, now, readFault, writeFault).state
    {
      var payment := inFlight[i];
      var _ := PaymentService.ProcessPayment(store, payment, outcome, now, readFault, writeFault);
      activeProcessing := activeProcessing - 1;
      inFlight := Without(inFlight, i);
      passes := passes + [ReadingFlag];
    }

    /**
     * The `while` loop of processQueue, from call j's first pop on, when
     * nothing else interleaves with it: pop and start payments while a
     * slot is free. `failingPop` is the number of the pop, counted from
     * zero, that throws.
     */
    method PopWhileFree(j: nat, failingPop: Option<nat>) returns (end: PassEnd)
      requires Valid() && j < |passes| && passes[j] == Popping && activeProcessing < concurrency
      modifies this, store
      ensures Valid()
      ensures healthMonitors == old(healthMonitors)
      ensures var n := Admitted(concurrency - old(activeProcessing), |old(store.queue)|, failingPop);
              && activeProcessing == old(activeProcessing) + n <= concurrency
              && inFlight == old(inFlight) + old(store.queue)[..n]
              && store.State() == old(store.State()).(queue := old(store.queue)[n..])
              && end != Halted
              && (end == QueueEmpty ==> passes == old(passes)[j := ReadingFlag])
              && (end == Saturated || end == Crashed ==> passes == Without(old(passes), j))
              && (end == Saturated ==> activeProcessing == concurrency)
              && (end == QueueEmpty ==> activeProcessing < concurrency && store.queue == [] && failingPop != Some(n))
              && (end == Crashed ==> activeProcessing < concurrency && failingPop == Some(n))
    {
      var pops: nat := 0;
      while activeProcessing < concurrency
        invariant Valid()
        invariant pops == activeProcessing - old(activeProcessing) <= |old(store.queue)|
        invariant activeProcessing <= concurrency
        invariant failingPop.Some? ==> pops <= failingPop.value
        invariant inFlight == old(inFlight) + old(store.queue)[..pops]
        invariant store.State() == old(store.State()).(queue := old(store.queue)[pops..])
        invariant passes == old(passes) && healthMonitors == old(healthMonitors)
        decreases concurrency - activeProcessing
      {
        ghost var started := inFlight;
        assert store.queue == old(store.queue)[pops..];
        var popped := QueueService.GetNextPaymentFromQueue(store, failingPop == Some(pops));
        if popped.Thrown? {
          assert Admitted(concurrency - old(activeProcessing), |old(store.queue)|, failingPop) == pops;
          passes := Without(passes, j);
          return Crashed;
        }
        if popped.value.None? {
          assert |old(store.queue)| == pops;
          assert Admitted(concurrency - old(activeProcessing), |old(store.queue)|, failingPop) == pops;
          passes := passes[j := ReadingFlag];
          return QueueEmpty;
        }
        activeProcessing := activeProcessing + 1;
        inFlight := inFlight + [popped.value.value];
        assert popped.value.value == old(store.queue)[pops];
        assert old(store.queue)[..pops + 1] == old(store.queue)[..pops] + [popped.value.value];
        assert store.queue == old(store.queue)[pops + 1..];
        pops := pops + 1;
      }
      passes := Without(passes, j);
      end := Saturated;
    }

    /**
     * processQueue from its flag read to its end, when nothing else
     * interleaves with it. `readFault` makes the flag read throw.
     */
    method RunPassAlone(j: nat, readFault: bool, failingPop: Option<nat>) returns (end: PassEnd)
      requires Valid() && j < |passes| && passes[j] == ReadingFlag
      modifies this, store
      ensures Valid()
      ensures healthMonitors == old(healthMonitors)
      ensures var halted := !readFault && FlagValue(old(store.strings), TIMEOUT_FLAG_KEY);
              var n := if halted then 0
                       else Admitted(concurrency - old(activeProcessing), |old(store.queue)|, failingPop);
              && activeProcessing == old(activeProcessing) + n
              && inFlight == old(inFlight) + old(store.queue)[..n]
              && store.State() == old(store.State()).(queue := old(store.queue)[n..])
              && (end == Halted <==> halted)
              && (old(activeProcessing) <= concurrency ==> activeProcessing <= concurrency)
              && (end == Halted || end == QueueEmpty ==> passes == old(passes))
              && (end == Saturated || end == Crashed ==> passes == Without(old(passes), j))
              && (end == Saturated ==> activeProcessing >= concurrency)
              && (end == QueueEmpty ==> activeProcessing < concurrency && store.queue == [] && failingPop != Some(n))
              && (end == Crashed ==> activeProcessing < concurrency && failingPop == Some(n))
    {
      var halted := ResumeAfterFlagRead(j, readFault);
      if halted {
        return Halted;
      }
      if activeProcessing >= concurrency {
        assert old(store.queue)[..0] == [] && old(store.queue)[0..] == old(store.queue);
        return Saturated;
      }
      end := PopWhileFree(j, failingPop);
      WithoutUpdated(old(passes), j, Popping);
      assert old(passes)[j := Popping][j := ReadingFlag] == old(passes);
    }

    /** startServiceHealthMonitor: every instance but "01" starts one more monitor interval. */
    method StartServiceHealthMonitor(instanceId: string)
      modifies this
      ensures healthMonitors == old(healthMonitors) + (if instanceId == MONITORLESS_INSTANCE then 0 else 1)
      ensures Snapshot() == old(Snapshot())
    {
      if instanceId == MONITORLESS_INSTANCE {
        return;
      }
      healthMonitors := healthMonitors + 1;
    }
  }

  /**
   * One cycle of the health monitor: when both health probes answer ok,
   * apply the decision table to the flags; when the probe throws, change
   * nothing. `fault` makes every store call of the cycle throw, and the
   * flag writes swallow it.
   */
  method MonitorCycle(store: Store, defaultReply: HttpReply<ServiceHealthResponse>,
                      fallbackReply: HttpReply<ServiceHealthResponse>, fault: bool)
    modifies store
    ensures var health := PaymentService.CheckServiceHealth(defaultReply, fallbackReply);
            store.State() == if health.Thrown? || fault then old(store.State())
                             else old(store.State()).(strings := ApplyHealth(old(store.strings), health.value.0, health.value.1))
  {
    var health := PaymentService.CheckServiceHealth(defaultReply, fallbackReply);
    if health.Thrown? {
      return;
    }
    var queueSize := QueueService.GetQueueLength(store, fault);
    var (defaultService, fallbackService) := health.value;
    var isDefaultServiceAvailable := !defaultService.failing;
    var isFallbackServiceAvailable := !fallbackService.failing;
    if !isDefaultServiceAvailable && !isFallbackServiceAvailable {
      QueueService.SetShouldTimeoutAllCalls(store, true, fault);
      return;
    }
    if isDefaultServiceAvailable {
      QueueService.SetShouldCallFallback(store, false, fault);
      QueueService.SetShouldTimeoutAllCalls(store, false, fault);
      return;
    }
    if !isDefaultServiceAvailable && isFallbackServiceAvailable {
      QueueService.SetShouldCallFallback(store, true, fault);
      QueueService.SetShouldTimeoutAllCalls(store, false, fault);
    }
  }
}
