/**
 * A Redis sorted set as a value: entries (member, score) with distinct
 * members, ordered by score and, for equal scores, by the members'
 * lexicographic order. ZADD, ZSCORE, ZREM and ZRANGEBYSCORE are functions
 * on it.
 */
module SortedSet {
  import opened Types

  datatype Entry = Entry(member: string, score: int)

  /** Lexicographic order on strings, Redis's tie-break between equal scores. */
  predicate StrLess(a: string, b: string)
  {
    if a == [] then b != []
    else if b == [] then false
    else if a[0] != b[0] then a[0] < b[0]
    else StrLess(a[1..], b[1..])
  }

  lemma {:induction false} StrLessIrreflexive(a: string)
    ensures !StrLess(a, a)
  {
    if a != [] {
      StrLessIrreflexive(a[1..]);
    }
  }

  lemma {:induction false} StrLessTransitive(a: string, b: string, c: string)
    requires StrLess(a, b) && StrLess(b, c)
    ensures StrLess(a, c)
  {
    if a != [] && a[0] == b[0] && b[0] == c[0] {
      StrLessTransitive(a[1..], b[1..], c[1..]);
    }
  }

  lemma {:induction false} StrLessTotal(a: string, b: string)
    requires a != b
    ensures StrLess(a, b) || StrLess(b, a)
  {
    if a != [] && b != [] && a[0] == b[0] {
      assert a == [a[0]] + a[1..] && b == [b[0]] + b[1..];
      StrLessTotal(a[1..], b[1..]);
    }
  }

  /** The order in which Redis keeps the entries of a sorted set. */
  predicate Before(x: Entry, y: Entry)
  {
    x.score < y.score || (x.score == y.score && StrLess(x.member, y.member))
  }

  lemma BeforeTransitive(x: Entry, y: Entry, z: Entry)
    requires Before(x, y) && Before(y, z)
    ensures Before(x, z)
  {
    if x.score == y.score == z.score {
      StrLessTransitive(x.member, y.member, z.member);
    }
  }

  lemma BeforeTotal(x: Entry, y: Entry)
    requires x.member != y.member
    ensures Before(x, y) || Before(y, x)
  {
    StrLessTotal(x.member, y.member);
  }

  ghost predicate Sorted(z: seq<Entry>)
  {
    forall i, j :: 0 <= i < j < |z| ==> Before(z[i], z[j])
  }

  ghost predicate Distinct(z: seq<Entry>)
  {
    forall i, j :: 0 <= i < j < |z| ==> z[i].member != z[j].member
  }

  /** The invariant of a sorted set: one entry per member, in Redis order. */
  ghost predicate Valid(z: seq<Entry>)
  {
    Sorted(z) && Distinct(z)
  }

  /** ZSCORE: the score of a member, or None when it is not in the set. */
  function Score(z: seq<Entry>, m: string): Option<int>
  {
    if z == [] then None
    else if z[0].member == m then Some(z[0].score)
    else Score(z[1..], m)
  }

  /** ZREM: the set without member m. */
  function Remove(z: seq<Entry>, m: string): seq<Entry>
  {
    if z == [] then []
    else if z[0].member == m then Remove(z[1..], m)
    else [z[0]] + Remove(z[1..], m)
  }

  /** Places e before the first entry that comes after it. */
  function Insert(z: seq<Entry>, e: Entry): seq<Entry>
  {
    if z == [] then [e]
    else if Before(e, z[0]) then [e] + z
    else [z[0]] + Insert(z[1..], e)
  }

  /** Whether a score lies in [lo, hi]; an absent bound is -inf or +inf. */
  predicate InRange(score: int, lo: Option<int>, hi: Option<int>)
  {
    (lo.None? || lo.value <= score) && (hi.None? || score <= hi.value)
  }

  /** ZRANGEBYSCORE: the members whose score lies in [lo, hi], in set order. */
  function RangeByScore(z: seq<Entry>, lo: Option<int>, hi: Option<int>): (r: seq<string>)
    ensures |r| <= |z|
    ensures lo.None? && hi.None? ==> |r| == |z|
  {
    if z == [] then []
    else (if InRange(z[0].score, lo, hi) then [z[0].member] else []) + RangeByScore(z[1..], lo, hi)
  }

  // ---------------------------------------------------------------------
  // Element-level facts about Score, Remove and Insert

  lemma {:induction false} ScoreIsEntry(z: seq<Entry>, m: string)
    requires Distinct(z)
    ensures Score(z, m).None? <==> forall i :: 0 <= i < |z| ==> z[i].member != m
    ensures Score(z, m).Some? ==> Entry(m, Score(z, m).value) in z
    ensures forall s :: Entry(m, s) in z ==> Score(z, m) == Some(s)
  {
    if z != [] {
      ScoreIsEntry(z[1..], m);
      if z[0].member != m {
        forall s | Entry(m, s) in z ensures Entry(m, s) in z[1..] {
          var k :| 0 <= k < |z| && z[k] == Entry(m, s);
          assert k != 0;
          assert z[1..][k - 1] == z[k];
        }
        forall i | 0 <= i < |z| && i > 0 ensures z[i] == z[1..][i - 1] { }
      } else {
        assert forall j :: 1 <= j < |z| ==> z[j].member != m;
      }
    }
  }

  lemma {:induction false} RemoveElements(z: seq<Entry>, m: string)
    ensures forall x :: x in Remove(z, m) <==> x in z && x.member != m
  {
    if z != [] {
      RemoveElements(z[1..], m);
      assert z == [z[0]] + z[1..];
    }
  }

  lemma {:induction false} RemoveValid(z: seq<Entry>, m: string)
    requires Valid(z)
    ensures Valid(Remove(z, m))
  {
    if z != [] {
      assert Valid(z[1..]) by {
        forall i, j | 0 <= i < j < |z| - 1 ensures Before(z[1..][i], z[1..][j]) && z[1..][i].member != z[1..][j].member {
          assert z[1..][i] == z[i + 1] && z[1..][j] == z[j + 1];
        }
      }
      RemoveValid(z[1..], m);
      if z[0].member != m {
        RemoveElements(z[1..], m);
        ConsValid(z[0], Remove(z[1..], m)) by {
          forall x | x in Remove(z[1..], m) ensures Before(z[0], x) && z[0].member != x.member {
            var k :| 0 <= k < |z[1..]| && z[1..][k] == x;
            assert z[k + 1] == x;
          }
        }
      }
    }
  }

  /** A valid set stays valid when an entry that precedes all of it is put in front. */
  lemma ConsValid(e: Entry, r: seq<Entry>)
    requires Valid(r)
    requires forall x :: x in r ==> Before(e, x) && e.member != x.member
    ensures Valid([e] + r)
  {
    var z := [e] + r;
    forall i, j | 0 <= i < j < |z| ensures Before(z[i], z[j]) && z[i].member != z[j].member {
      if i == 0 {
        assert z[j] == r[j - 1] && z[j] in r;
      } else {
        assert z[i] == r[i - 1] && z[j] == r[j - 1];
      }
    }
  }

  lemma {:induction false} InsertElements(z: seq<Entry>, e: Entry)
    ensures |Insert(z, e)| == |z| + 1
    ensures forall x :: x in Insert(z, e) <==> x in z || x == e
  {
    if z != [] && !Before(e, z[0]) {
      InsertElements(z[1..], e);
      assert z == [z[0]] + z[1..];
    }
  }

  lemma {:induction false} InsertValid(z: seq<Entry>, e: Entry)
    requires Valid(z)
    requires forall x :: x in z ==> x.member != e.member
    ensures Valid(Insert(z, e))
  {
    if z == [] {
    } else if Before(e, z[0]) {
      forall x | x in z ensures Before(e, x) && e.member != x.member {
        var k :| 0 <= k < |z| && z[k] == x;
        if k > 0 {
          BeforeTransitive(e, z[0], x);
        }
      }
      ConsValid(e, z);
    } else {
      BeforeTotal(e, z[0]);
      assert Valid(z[1..]) by {
        forall i, j | 0 <= i < j < |z| - 1 ensures Before(z[1..][i], z[1..][j]) && z[1..][i].member != z[1..][j].member {
          assert z[1..][i] == z[i + 1] && z[1..][j] == z[j + 1];
        }
      }
      InsertValid(z[1..], e);
      InsertElements(z[1..], e);
      forall x | x in Insert(z[1..], e) ensures Before(z[0], x) && z[0].member != x.member {
        if x != e {
          var k :| 0 <= k < |z[1..]| && z[1..][k] == x;
          assert z[k + 1] == x;
        }
      }
      ConsValid(z[0], Insert(z[1..], e));
    }
  }

  // ---------------------------------------------------------------------
  // ZADD

  /**
   * ZADD key score member: afterwards the member has exactly the given
   * score, every other member keeps its score, and the set stays in
   * Redis order with one entry per member.
   */
  function Add(z: seq<Entry>, m: string, s: int): (r: seq<Entry>)
    requires Valid(z)
    ensures Valid(r)
    ensures Score(r, m) == Some(s)
    ensures forall m' :: m' != m ==> Score(r, m') == Score(z, m')
    ensures |r| == if Score(z, m).Some? then |z| else |z| + 1
  {
    var e := Entry(m, s);
    var y := Remove(z, m);
    RemoveValid(z, m);
    RemoveElements(z, m);
    InsertValid(y, e);
    InsertElements(y, e);
    RemoveSize(z, m);
    var r := Insert(y, e);
    ScoreIsEntry(r, m);
    ScoreIsEntry(z, m);
    forall m' | m' != m ensures Score(r, m') == Score(z, m') {
      ScoreIsEntry(r, m');
      ScoreIsEntry(z, m');
      if Score(z, m').Some? {
        assert Entry(m', Score(z, m').value) in r;
      }
      if Score(r, m').Some? {
        assert Entry(m', Score(r, m').value) in z;
      }
    }
    r
  }

  lemma {:induction false} RemoveSize(z: seq<Entry>, m: string)
    requires Distinct(z)
    ensures |Remove(z, m)| == if Score(z, m).Some? then |z| - 1 else |z|
  {
    if z != [] {
      assert Distinct(z[1..]) by {
        forall i, j | 0 <= i < j < |z| - 1 ensures z[1..][i].member != z[1..][j].member {
          assert z[1..][i] == z[i + 1] && z[1..][j] == z[j + 1];
        }
      }
      RemoveSize(z[1..], m);
      if z[0].member == m {
        ScoreIsEntry(z[1..], m);
        forall i | 0 <= i < |z[1..]| ensures z[1..][i].member != m {
          assert z[1..][i] == z[i + 1];
        }
      }
    }
  }

  // ---------------------------------------------------------------------
  // The shape of ZADD's result, for reasoning about range queries over it

  lemma {:induction false} RemoveAbsent(z: seq<Entry>, m: string)
    requires forall x :: x in z ==> x.member != m
    ensures Remove(z, m) == z
  {
    if z != [] {
      RemoveAbsent(z[1..], m);
    }
  }

  lemma {:induction false} RemoveAt(z: seq<Entry>, k: nat)
    requires Distinct(z) && k < |z|
    ensures Remove(z, z[k].member) == z[..k] + z[k + 1..]
  {
    var m := z[k].member;
    if k == 0 {
      RemoveAbsent(z[1..], m) by {
        forall x | x in z[1..] ensures x.member != m {
          var j :| 0 <= j < |z[1..]| && z[1..][j] == x;
          assert z[j + 1] == x;
        }
      }
    } else {
      assert Distinct(z[1..]) by {
        forall i, j | 0 <= i < j < |z| - 1 ensures z[1..][i].member != z[1..][j].member {
          assert z[1..][i] == z[i + 1] && z[1..][j] == z[j + 1];
        }
      }
      assert z[1..][k - 1] == z[k];
      RemoveAt(z[1..], k - 1);
      assert z[0].member != m;
      assert z[..k] == [z[0]] + z[1..][..k - 1];
      assert z[k + 1..] == z[1..][k..];
    }
  }

  lemma {:induction false} InsertAt(z: seq<Entry>, e: Entry) returns (k: nat)
    ensures k <= |z| && Insert(z, e) == z[..k] + [e] + z[k..]
  {
    if z == [] || Before(e, z[0]) {
      k := 0;
    } else {
      var k' := InsertAt(z[1..], e);
      k := k' + 1;
      assert z[..k] == [z[0]] + z[1..][..k'];
      assert z[k..] == z[1..][k'..];
    }
  }

  lemma {:induction false} RangeConcat(a: seq<Entry>, b: seq<Entry>, lo: Option<int>, hi: Option<int>)
    ensures RangeByScore(a + b, lo, hi) == RangeByScore(a, lo, hi) + RangeByScore(b, lo, hi)
  {
    if a == [] {
      assert a + b == b;
    } else {
      var head := if InRange(a[0].score, lo, hi) then [a[0].member] else [];
      assert (a + b)[0] == a[0] && (a + b)[1..] == a[1..] + b;
      assert RangeByScore(a + b, lo, hi) == head + RangeByScore(a[1..] + b, lo, hi);
      assert RangeByScore(a, lo, hi) == head + RangeByScore(a[1..], lo, hi);
      RangeConcat(a[1..], b, lo, hi);
      ConcatAssociative(head, RangeByScore(a[1..], lo, hi), RangeByScore(b, lo, hi));
    }
  }

  lemma ConcatAssociative<T>(x: seq<T>, y: seq<T>, z: seq<T>)
    ensures x + (y + z) == (x + y) + z
  {
  }

  /** With both bounds absent, ZRANGEBYSCORE lists every member in set order. */
  lemma {:induction false} UnboundedRange(z: seq<Entry>)
    ensures |RangeByScore(z, None, None)| == |z|
    ensures forall i :: 0 <= i < |z| ==> RangeByScore(z, None, None)[i] == z[i].member
  {
    if z != [] {
      UnboundedRange(z[1..]);
      assert forall i :: 1 <= i < |z| ==> z[1..][i - 1] == z[i];
    }
  }

  /**
   * Adding a member that is not yet in the set puts it into the range
   * query's answer at one place, when its score is in range, and leaves
   * the answer unchanged otherwise.
   */
  lemma AddNewInRange(z: seq<Entry>, m: string, s: int, lo: Option<int>, hi: Option<int>)
    returns (before: seq<string>, after: seq<string>)
    requires Valid(z) && Score(z, m).None?
    ensures RangeByScore(z, lo, hi) == before + after
    ensures RangeByScore(Add(z, m, s), lo, hi)
            == if InRange(s, lo, hi) then before + [m] + after else before + after
  {
    var e := Entry(m, s);
    AddShape(z, m, s);
    ScoreIsEntry(z, m);
    RemoveAbsent(z, m);
    var k := InsertAt(z, e);
    var p, q := z[..k], z[k..];
    assert z == p + q;
    RangeConcat(p, q, lo, hi);
    RangeConcat(p + [e], q, lo, hi);
    RangeConcat(p, [e], lo, hi);
    SingleRange(e, lo, hi);
    before, after := RangeByScore(p, lo, hi), RangeByScore(q, lo, hi);
  }

  /** ZADD removes the member's old entry and inserts the new one in order. */
  lemma AddShape(z: seq<Entry>, m: string, s: int)
    requires Valid(z)
    ensures Add(z, m, s) == Insert(Remove(z, m), Entry(m, s))
  {
  }

  lemma SingleRange(e: Entry, lo: Option<int>, hi: Option<int>)
    ensures RangeByScore([e], lo, hi) == if InRange(e.score, lo, hi) then [e.member] else []
  {
    assert [e][1..] == [];
  }

  /**
   * Writing a member that is already in the set, with any score, leaves
   * one entry for it: the unbounded range lists the same members except
   * that the member may have moved.
   */
  lemma AddExistingUnbounded(z: seq<Entry>, m: string, s: int)
    returns (a: seq<string>, b: seq<string>, c: seq<string>, d: seq<string>)
    requires Valid(z) && Score(z, m).Some?
    ensures RangeByScore(z, None, None) == a + [m] + b
    ensures RangeByScore(Add(z, m, s), None, None) == c + [m] + d
    ensures a + b == c + d
  {
    AddShape(z, m, s);
    ScoreIsEntry(z, m);
    var x := Entry(m, Score(z, m).value);
    var k :| 0 <= k < |z| && z[k] == x;
    RemoveAt(z, k);
    var p, q := z[..k], z[k + 1..];
    var y := p + q;
    assert z == p + [x] + q;
    RangeConcat(p + [x], q, None, None);
    RangeConcat(p, [x], None, None);
    RangeConcat(p, q, None, None);
    SingleRange(x, None, None);
    var e := Entry(m, s);
    var j := InsertAt(y, e);
    var u, v := y[..j], y[j..];
    assert y == u + v;
    RangeConcat(u + [e], v, None, None);
    RangeConcat(u, [e], None, None);
    RangeConcat(u, v, None, None);
    SingleRange(e, None, None);
    a, b := RangeByScore(p, None, None), RangeByScore(q, None, None);
    c, d := RangeByScore(u, None, None), RangeByScore(v, None, None);
  }

  /** ZADD with the score a member already has changes nothing; in particular ZADD is idempotent. */
  lemma AddIdempotent(z: seq<Entry>, m: string, s: int)
    requires Valid(z)
    ensures Add(Add(z, m, s), m, s) == Add(z, m, s)
  {
    RemoveElements(z, m);
    RemoveInsert(Remove(z, m), Entry(m, s));
  }

  lemma {:induction false} RemoveInsert(y: seq<Entry>, e: Entry)
    requires forall x :: x in y ==> x.member != e.member
    ensures Remove(Insert(y, e), e.member) == y
  {
    if y == [] {
    } else if Before(e, y[0]) {
      RemoveAbsent(y, e.member);
    } else {
      RemoveInsert(y[1..], e);
    }
  }

  /** An empty score interval selects nothing. */
  lemma {:induction false} EmptyRange(z: seq<Entry>, lo: int, hi: int)
    requires hi < lo
    ensures RangeByScore(z, Some(lo), Some(hi)) == []
  {
    if z != [] {
      EmptyRange(z[1..], lo, hi);
    }
  }

  /** The range query answers exactly the members whose score is in range. */
  lemma {:induction false} RangeMembers(z: seq<Entry>, lo: Option<int>, hi: Option<int>, m: string)
    requires Distinct(z)
    ensures m in RangeByScore(z, lo, hi) <==> Score(z, m).Some? && InRange(Score(z, m).value, lo, hi)
  {
    if z != [] {
      assert Distinct(z[1..]) by {
        forall i, j | 0 <= i < j < |z| - 1 ensures z[1..][i].member != z[1..][j].member {
          assert z[1..][i] == z[i + 1] && z[1..][j] == z[j + 1];
        }
      }
      RangeMembers(z[1..], lo, hi, m);
      if z[0].member == m {
        ScoreIsEntry(z[1..], m);
        forall i | 0 <= i < |z[1..]| ensures z[1..][i].member != m {
          assert z[1..][i] == z[i + 1];
        }
      }
    }
  }
}
