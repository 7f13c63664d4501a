/**
 * The payment ledger: the sorted set `payments_by_date`, one member
 * `amount|processor|correlationId` per successful delivery, scored by the
 * time of the request. savePayment adds a member, getSummary folds the
 * members of a score range into per-processor totals, resetDatabaseData
 * empties the whole database.
 */
module PaymentRepository {
  import opened Types
  import opened MemberCodec
  import opened Redis
  import SortedSet

  // ---------------------------------------------------------------------
  // The summary as a fold over the members of a range

  /** One more request of the given amount in a bucket. */
  function Bump(b: Bucket, amount: Num): Bucket
  {
    Bucket(b.totalRequests + 1, b.totalAmount.Plus(amount))
  }

  /** A parsed member counts in the bucket its processor field names, if any. */
  function Bucketed(summary: PaymentSummary, view: MemberView): (r: PaymentSummary)
    ensures view.processor != Some("default") ==> r.default == summary.default
    ensures view.processor != Some("fallback") ==> r.fallback == summary.fallback
    ensures r.default.totalRequests + r.fallback.totalRequests
            == summary.default.totalRequests + summary.fallback.totalRequests
               + (if view.processor == Some("default") || view.processor == Some("fallback") then 1 else 0)
    ensures view.processor == Some("default") ==>
              r.default.totalRequests == summary.default.totalRequests + 1
              && r.default.totalAmount == summary.default.totalAmount.Plus(view.amount)
    ensures view.processor == Some("fallback") ==>
              r.fallback.totalRequests == summary.fallback.totalRequests + 1
              && r.fallback.totalAmount == summary.fallback.totalAmount.Plus(view.amount)
  {
    if view.processor == Some("default") then summary.(default := Bump(summary.default, view.amount))
    else if view.processor == Some("fallback") then summary.(fallback := Bump(summary.fallback, view.amount))
    else summary
  }

  /** The loop body of getSummary: parse the member, then count it. */
  function Count(summary: PaymentSummary, member: string): (r: PaymentSummary)
    ensures SEPARATOR !in member ==> r == summary
    ensures r.default.totalRequests + r.fallback.totalRequests
            <= summary.default.totalRequests + summary.fallback.totalRequests + 1
  {
    Bucketed(summary, Read(member))
  }

  /** The summary of a list of members, counted in order. */
  function Tally(members: seq<string>): (r: PaymentSummary)
    ensures r.default.totalRequests + r.fallback.totalRequests <= |members|
  {
    if members == [] then EmptySummary
    else Count(Tally(members[..|members| - 1]), members[|members| - 1])
  }

  /** Members without a processor field count nowhere. */
  lemma {:induction false} TallyOfPlainMembers(members: seq<string>)
    requires forall i :: 0 <= i < |members| ==> SEPARATOR !in members[i]
    ensures Tally(members) == EmptySummary
  {
    if members != [] {
      TallyOfPlainMembers(members[..|members| - 1]);
    }
  }

  function MergeBuckets(a: Bucket, b: Bucket): Bucket
  {
    Bucket(a.totalRequests + b.totalRequests, a.totalAmount.Plus(b.totalAmount))
  }

  function Merge(a: PaymentSummary, b: PaymentSummary): PaymentSummary
  {
    PaymentSummary(MergeBuckets(a.default, b.default), MergeBuckets(a.fallback, b.fallback))
  }

  lemma CountIsMerge(s: PaymentSummary, m: string)
    ensures Count(s, m) == Merge(s, Count(EmptySummary, m))
  {
    BucketedIsMerge(s, Read(m));
  }

  lemma BucketedIsMerge(s: PaymentSummary, view: MemberView)
    ensures Bucketed(s, view) == Merge(s, Bucketed(EmptySummary, view))
  {
    PlusZero(view.amount);
    MergeEmpty(s);
  }

  lemma PlusZero(x: Num)
    ensures Finite(0).Plus(x) == x && x.Plus(Finite(0)) == x
  {
  }

  lemma MergeEmpty(s: PaymentSummary)
    ensures Merge(s, EmptySummary) == s
  {
    PlusZero(s.default.totalAmount);
    PlusZero(s.fallback.totalAmount);
  }

  lemma MergeAssociative(x: PaymentSummary, y: PaymentSummary, z: PaymentSummary)
    ensures Merge(Merge(x, y), z) == Merge(x, Merge(y, z))
  {
  }

  lemma MergeCommutative(x: PaymentSummary, y: PaymentSummary)
    ensures Merge(x, y) == Merge(y, x)
  {
  }

  /** The summary of two lists back to back is the sum of their summaries. */
  lemma {:induction false} TallyConcat(a: seq<string>, b: seq<string>)
    ensures Tally(a + b) == Merge(Tally(a), Tally(b))
    decreases |b|
  {
    if b == [] {
      assert a + b == a;
      MergeEmpty(Tally(a));
    } else {
      var b' := b[..|b| - 1];
      var m := b[|b| - 1];
      assert (a + b)[..|a + b| - 1] == a + b';
      assert (a + b)[|a + b| - 1] == m;
      TallyConcat(a, b');
      CountIsMerge(Tally(a + b'), m);
      CountIsMerge(Tally(b'), m);
      MergeAssociative(Tally(a), Tally(b'), Count(EmptySummary, m));
    }
  }

  /** Where a member stands in the list does not change what it adds to the summary. */
  lemma TallyInsert(a: seq<string>, m: string, b: seq<string>)
    ensures Tally(a + [m] + b) == Count(Tally(a + b), m)
  {
    TallyConcat(a + [m], b);
    TallyConcat(a, [m]);
    TallyConcat(a, b);
    assert [m][..0] == [];
    var c := Count(EmptySummary, m);
    assert Tally([m]) == c;
    CountIsMerge(Tally(a + b), m);
    MergeAssociative(Tally(a), c, Tally(b));
    MergeCommutative(c, Tally(b));
    MergeAssociative(Tally(a), Tally(b), c);
  }

  /** A stored member written by savePayment adds one request and its amount to its processor's bucket, and nothing to the other. */
  lemma CountEncoded(s: PaymentSummary, log: PaymentLog)
    requires SEPARATOR !in log.processor
    ensures log.processor == "default" ==>
              Count(s, Encode(log)) == s.(default := Bucket(s.default.totalRequests + 1, s.default.totalAmount.Plus(Finite(log.amount))))
    ensures log.processor == "fallback" ==>
              Count(s, Encode(log)) == s.(fallback := Bucket(s.fallback.totalRequests + 1, s.fallback.totalAmount.Plus(Finite(log.amount))))
    ensures log.processor != "default" && log.processor != "fallback" ==> Count(s, Encode(log)) == s
  {
    ReadEncode(log);
  }

  /** How many of the members carry a given processor field: a reference count for the summary. */
  function LabelCount(members: seq<string>, processor: string): nat
  {
    if members == [] then 0
    else LabelCount(members[..|members| - 1], processor)
         + (if Read(members[|members| - 1]).processor == Some(processor) then 1 else 0)
  }

  /** Each bucket's request count is the number of members labelled with its processor. */
  lemma {:induction false} TallyCountsLabels(members: seq<string>)
    ensures Tally(members).default.totalRequests == LabelCount(members, "default")
    ensures Tally(members).fallback.totalRequests == LabelCount(members, "fallback")
  {
    if members != [] {
      TallyCountsLabels(members[..|members| - 1]);
    }
  }

  /** An empty score interval gives the all-zero summary. */
  lemma EmptyRangeSummary(z: seq<SortedSet.Entry>, from: int, to: int)
    requires to < from
    ensures Tally(SortedSet.RangeByScore(z, Some(from), Some(to))) == EmptySummary
  {
    SortedSet.EmptyRange(z, from, to);
  }

  /**
   * Saving a payment whose member is new changes the summary of a range by
   * exactly that member's contribution when its time is in the range, and
   * not at all otherwise.
   */
  lemma SaveNewPaymentSummary(z: seq<SortedSet.Entry>, log: PaymentLog, from: Option<int>, to: Option<int>)
    requires SortedSet.Valid(z) && SortedSet.Score(z, Encode(log)).None?
    ensures Tally(SortedSet.RangeByScore(SortedSet.Add(z, Encode(log), log.requestedAt), from, to))
            == if SortedSet.InRange(log.requestedAt, from, to)
               then Count(Tally(SortedSet.RangeByScore(z, from, to)), Encode(log))
               else Tally(SortedSet.RangeByScore(z, from, to))
  {
    var before, after := SortedSet.AddNewInRange(z, Encode(log), log.requestedAt, from, to);
    TallyInsert(before, Encode(log), after);
  }

  /**
   * Saving a log with a new member adds one request and its amount to the
   * bucket of its processor in every range holding its time, and changes
   * nothing else.
   */
  lemma SavedLogCounted(z: seq<SortedSet.Entry>, log: PaymentLog, from: Option<int>, to: Option<int>)
    requires SortedSet.Valid(z) && SortedSet.Score(z, Encode(log)).None?
    requires log.processor == "default" || log.processor == "fallback"
    ensures var before := Tally(SortedSet.RangeByScore(z, from, to));
            var after := Tally(SortedSet.RangeByScore(SortedSet.Add(z, Encode(log), log.requestedAt), from, to));
            && (!SortedSet.InRange(log.requestedAt, from, to) ==> after == before)
            && (SortedSet.InRange(log.requestedAt, from, to) && log.processor == "fallback" ==>
                  after == before.(fallback := Bump(before.fallback, Finite(log.amount))))
            && (SortedSet.InRange(log.requestedAt, from, to) && log.processor == "default" ==>
                  after == before.(default := Bump(before.default, Finite(log.amount))))
  {
    SaveNewPaymentSummary(z, log, from, to);
    assert SEPARATOR !in log.processor by {
      if log.processor == "default" {
        LabelWithoutSeparator(Default);
      } else {
        LabelWithoutSeparator(Fallback);
      }
    }
    CountEncoded(Tally(SortedSet.RangeByScore(z, from, to)), log);
  }

  /**
   * Saving a member that is already stored (a payment delivered twice
   * through the same processor) moves its score but leaves the unbounded
   * summary as it was.
   */
  lemma ResavePaymentSummary(z: seq<SortedSet.Entry>, log: PaymentLog, requestedAt: int)
    requires SortedSet.Valid(z) && SortedSet.Score(z, Encode(log)).Some?
    ensures Tally(SortedSet.RangeByScore(SortedSet.Add(z, Encode(log), requestedAt), None, None))
            == Tally(SortedSet.RangeByScore(z, None, None))
  {
    var a, b, c, d := SortedSet.AddExistingUnbounded(z, Encode(log), requestedAt);
    TallyInsert(a, Encode(log), b);
    TallyInsert(c, Encode(log), d);
  }

  // ---------------------------------------------------------------------
  // A ledger written by savePayment alone

  /** The sorted set after saving each log in turn, starting empty. */
  function SaveAll(logs: seq<PaymentLog>): (z: seq<SortedSet.Entry>)
    ensures SortedSet.Valid(z)
  {
    if logs == [] then []
    else
      var last := logs[|logs| - 1];
      SortedSet.Add(SaveAll(logs[..|logs| - 1]), Encode(last), last.requestedAt)
  }

  lemma {:induction false} SaveAllHolds(logs: seq<PaymentLog>, m: string)
    requires forall i :: 0 <= i < |logs| ==> Encode(logs[i]) != m
    ensures SortedSet.Score(SaveAll(logs), m).None?
  {
    if logs != [] {
      SaveAllHolds(logs[..|logs| - 1], m);
    }
  }

  /** The count and total amount of the logs that name a processor. */
  function LogTotals(logs: seq<PaymentLog>, processor: string): Bucket
  {
    if logs == [] then EmptyBucket
    else
      var last := logs[|logs| - 1];
      var b := LogTotals(logs[..|logs| - 1], processor);
      if last.processor == processor then Bucket(b.totalRequests + 1, b.totalAmount.Plus(Finite(last.amount))) else b
  }

  /**
   * The unbounded summary of a ledger written by savePayment reports, per
   * processor, how many payments were saved and their exact total, as long
   * as no two saved payments share a member.
   */
  lemma {:induction false} LedgerSummary(logs: seq<PaymentLog>)
    requires forall i :: 0 <= i < |logs| ==> SEPARATOR !in logs[i].processor
    requires forall i, j :: 0 <= i < j < |logs| ==> Encode(logs[i]) != Encode(logs[j])
    ensures Tally(SortedSet.RangeByScore(SaveAll(logs), None, None))
            == PaymentSummary(LogTotals(logs, "default"), LogTotals(logs, "fallback"))
  {
    if logs != [] {
      var prefix := logs[..|logs| - 1];
      var last := logs[|logs| - 1];
      assert logs == prefix + [last];
      LedgerSummary(prefix);
      SaveAllHolds(prefix, Encode(last));
      SaveLast(prefix, last);
    }
  }

  /** Saving one more log with a new member counts it once, in its processor's bucket. */
  lemma SaveLast(prefix: seq<PaymentLog>, last: PaymentLog)
    requires SEPARATOR !in last.processor
    requires SortedSet.Score(SaveAll(prefix), Encode(last)).None?
    ensures var before := Tally(SortedSet.RangeByScore(SaveAll(prefix), None, None));
            var after := Tally(SortedSet.RangeByScore(SaveAll(prefix + [last]), None, None));
            after == PaymentSummary(
              if last.processor == "default" then Bump(before.default, Finite(last.amount)) else before.default,
              if last.processor == "fallback" then Bump(before.fallback, Finite(last.amount)) else before.fallback)
  {
    assert (prefix + [last])[..|prefix|] == prefix;
    SaveNewPaymentSummary(SaveAll(prefix), last, None, None);
    CountEncoded(Tally(SortedSet.RangeByScore(SaveAll(prefix), None, None)), last);
  }

  // ---------------------------------------------------------------------
  // The repository's operations on the store

  /** savePayment: ZADD of the payment's member, scored by its request time. */
  method SavePayment(store: Store, payment: PaymentLog, fault: bool) returns (r: Settled)
    requires store.Valid()
    modifies store
    ensures store.Valid()
    ensures r == if fault then Rejected else Fulfilled
    ensures store.State() == if fault then old(store.State())
                             else old(store.State()).(zset := SortedSet.Add(old(store.zset), Encode(payment), payment.requestedAt))
  {
    if fault {
      return Rejected;
    }
    var score := payment.requestedAt;
    var member := Encode(payment);
    store.ZAdd(member, score);
    r := Fulfilled;
  }

  lemma TallyStep(members: seq<string>, i: nat)
    requires i < |members|
    ensures Tally(members[..i + 1]) == Count(Tally(members[..i]), members[i])
  {
    assert members[..i + 1][..i] == members[..i];
  }

  /** getSummary: the members scored in [from, to], counted per processor. */
  method GetSummary(store: Store, from: Option<int>, to: Option<int>, fault: bool) returns (r: Reply<PaymentSummary>)
    ensures r == if fault then Thrown else Value(Tally(SortedSet.RangeByScore(store.zset, from, to)))
  {
    if fault {
      return Thrown;
    }
    var payments := store.ZRangeByScore(from, to);
    var summary := EmptySummary;
    for i := 0 to |payments|
      invariant summary == Tally(payments[..i])
    {
      TallyStep(payments, i);
      var view := Read(payments[i]);
      summary := Bucketed(summary, view);
    }
    assert payments[..|payments|] == payments;
    r := Value(summary);
  }

  /** resetDatabaseData: FLUSHDB, which empties the ledger, the queue and the flags. */
  method ResetDatabaseData(store: Store, fault: bool) returns (r: Settled)
    requires store.Valid()
    modifies store
    ensures store.Valid()
    ensures r == if fault then Rejected else Fulfilled
    ensures store.State() == if fault then old(store.State()) else EmptyState
  {
    if fault {
      return Rejected;
    }
    store.FlushDb();
    r := Fulfilled;
  }

  /** After a reset, and after a second one, the summary of any range is all zero. */
  method ResetTwiceThenSummary(store: Store, from: Option<int>, to: Option<int>) returns (r: Reply<PaymentSummary>)
    requires store.Valid()
    modifies store
    ensures store.Valid() && store.State() == EmptyState
    ensures r == Value(EmptySummary)
  {
    var _ := ResetDatabaseData(store, false);
    var _ := ResetDatabaseData(store, false);
    r := GetSummary(store, from, to, false);
  }
}
