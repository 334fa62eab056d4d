/** The read side of the backend: `GET /api/transactions` (every document, newest
    first, with aggregate counters) and `GET /api/transactions/phone/:phone`. */
module Listing {
  import opened Transactions

  // ---------------------------------------------------------------------------
  // The collection as a sequence
  // ---------------------------------------------------------------------------

  /** The references under which the store holds the document `r`. */
  ghost function KeysHolding(m: Table, r: Record): set<string> {
    set k | k in m && m[k] == r
  }

  /** The documents of the store in the collection's natural order, which
      server.js never relies on and the model leaves unspecified. Each stored
      document appears once: a document value appears as often as the store holds it. */
  ghost function Documents(m: Table): (ds: seq<Record>)
    ensures |ds| == |m|
    ensures forall r :: r in ds <==> r in m.Values
    ensures forall r :: multiset(ds)[r] == |KeysHolding(m, r)|
    decreases |m|
  {
    if m == map[] then
      assert forall r :: KeysHolding(m, r) == {};
      []
    else
      var k :| k in m;
      var rest := m - {k};
      assert m.Values == rest.Values + {m[k]} by {
        forall r | r in m.Values ensures r in rest.Values + {m[k]} {
          var j :| j in m && m[j] == r;
          if j != k { assert j in rest; }
        }
      }
      var ds := [m[k]] + Documents(rest);
      assert forall r :: multiset(ds)[r] == |KeysHolding(m, r)| by {
        forall r ensures multiset(ds)[r] == |KeysHolding(m, r)| {
          KeysHoldingRemove(m, k, r);
        }
      }
      ds
  }

  /** Taking reference `k` out of the store takes it out of the keys of its document only. */
  lemma KeysHoldingRemove(m: Table, k: string, r: Record)
    requires k in m
    ensures |KeysHolding(m, r)| == |KeysHolding(m - {k}, r)| + (if m[k] == r then 1 else 0)
  {
    if m[k] == r {
      assert KeysHolding(m, r) == KeysHolding(m - {k}, r) + {k};
    } else {
      assert KeysHolding(m, r) == KeysHolding(m - {k}, r);
    }
  }

  /** Under distinct documents (which the store's invariant gives, since each sits
      under its own reference), every stored document appears exactly once. */
  lemma DocumentsOnce(m: Table, r: Record)
    requires TableConsistent(m) && r in m.Values
    ensures multiset(Documents(m))[r] == 1
  {
    var k :| k in m && m[k] == r;
    assert KeysHolding(m, r) == {k} by {
      forall j | j in KeysHolding(m, r) ensures j == k {
        assert Consistent(j, m[j]) && Consistent(k, m[k]);
      }
    }
  }

  // ---------------------------------------------------------------------------
  // Ordering: `.sort({ createdAt: -1 })`
  // ---------------------------------------------------------------------------

  ghost predicate NewestFirst(ts: seq<Record>) {
    forall i, j :: 0 <= i < j < |ts| ==> ts[i].createdAt >= ts[j].createdAt
  }

  /** Inserts `r` into a newest-first sequence, in front of the first document that is
      not strictly newer than `r` (at the end when every document is newer). */
  function InsertNewestFirst(r: Record, ts: seq<Record>): (out: seq<Record>)
    requires NewestFirst(ts)
    ensures NewestFirst(out)
    ensures multiset(out) == multiset(ts) + multiset{r}
    ensures |out| == |ts| + 1
    ensures out[0] == r || (ts != [] && out[0] == ts[0])
  {
    if ts == [] then [r]
    else if r.createdAt >= ts[0].createdAt then
      ConsNewestFirst(r, ts);
      [r] + ts
    else
      var tail := InsertNewestFirst(r, ts[1..]);
      assert ts == [ts[0]] + ts[1..];
      ConsNewestFirst(ts[0], tail);
      [ts[0]] + tail
  }

  /** A document at least as new as the head of a newest-first sequence can go in front. */
  lemma ConsNewestFirst(x: Record, s: seq<Record>)
    requires NewestFirst(s)
    requires s != [] ==> x.createdAt >= s[0].createdAt
    ensures NewestFirst([x] + s)
  {
    var out := [x] + s;
    forall i, j | 0 <= i < j < |out| ensures out[i].createdAt >= out[j].createdAt {
      if i == 0 {
        assert out[j] == s[j - 1];
        if j > 1 {
          assert s[0].createdAt >= s[j - 1].createdAt;
        }
      } else {
        assert out[i] == s[i - 1] && out[j] == s[j - 1];
      }
    }
  }

  /** The documents ordered by `createdAt`, descending; documents with equal times keep
      their relative order. */
  function SortNewestFirst(ts: seq<Record>): (out: seq<Record>)
    ensures NewestFirst(out)
    ensures multiset(out) == multiset(ts)
  {
    if ts == [] then []
    else
      assert ts == [ts[0]] + ts[1..];
      InsertNewestFirst(ts[0], SortNewestFirst(ts[1..]))
  }

  // ---------------------------------------------------------------------------
  // Aggregates: the `filter`/`reduce` expressions of the list handler
  // ---------------------------------------------------------------------------

  /** `ts.filter(t => t.status === st)` */
  function WithStatus(ts: seq<Record>, st: Status): (out: seq<Record>)
    ensures |out| <= |ts|
  {
    if ts == [] then []
    else if ts[0].status == st then [ts[0]] + WithStatus(ts[1..], st)
    else WithStatus(ts[1..], st)
  }

  /** The filter keeps exactly the documents with that status. */
  lemma {:induction false} WithStatusMembers(ts: seq<Record>, st: Status)
    ensures forall r :: r in WithStatus(ts, st) <==> r in ts && r.status == st
  {
    if ts != [] {
      WithStatusMembers(ts[1..], st);
      assert ts == [ts[0]] + ts[1..];
    }
  }

  /** `.reduce((sum, t) => sum + t.amount, 0)` */
  function SumAmounts(ts: seq<Record>): (total: int)
    ensures ts == [] ==> total == 0
    ensures |ts| == 1 ==> total == ts[0].amount
    ensures (forall i :: 0 <= i < |ts| ==> ts[i].amount >= 0) ==> total >= 0
  {
    if ts == [] then 0 else ts[0].amount + SumAmounts(ts[1..])
  }

  /** The listing's `stats` object. Revenue is in pesewas. */
  datatype Stats = Stats(total: nat, successful: nat, pending: nat, failed: nat, totalRevenue: int)

  /** The counters of the list handler: the number of documents, the size of each status
      filter, and the amounts of the successful ones added up. */
  function ComputeStats(ts: seq<Record>): (s: Stats)
    ensures s.total == |ts|
    ensures s.successful <= s.total && s.pending <= s.total && s.failed <= s.total
    ensures ts == [] ==> s == Stats(0, 0, 0, 0, 0)
  {
    Stats(
      |ts|,
      |WithStatus(ts, Success)|,
      |WithStatus(ts, Pending)|,
      |WithStatus(ts, Failed)|,
      SumAmounts(WithStatus(ts, Success)))
  }

  lemma {:induction false} WithStatusAppend(a: seq<Record>, b: seq<Record>, st: Status)
    ensures WithStatus(a + b, st) == WithStatus(a, st) + WithStatus(b, st)
  {
    if a == [] {
      assert a + b == b;
    } else {
      assert (a + b)[1..] == a[1..] + b;
      WithStatusAppend(a[1..], b, st);
    }
  }

  lemma {:induction false} SumAmountsAppend(a: seq<Record>, b: seq<Record>)
    ensures SumAmounts(a + b) == SumAmounts(a) + SumAmounts(b)
  {
    if a == [] {
      assert a + b == b;
    } else {
      assert (a + b)[1..] == a[1..] + b;
      SumAmountsAppend(a[1..], b);
    }
  }

  /** The three status counters partition the documents: `status` takes no other value,
      so together they count every document, and in particular never exceed `total`. */
  lemma {:induction false} StatusCountsPartition(ts: seq<Record>)
    ensures ComputeStats(ts).successful + ComputeStats(ts).pending + ComputeStats(ts).failed
         == ComputeStats(ts).total
  {
    if ts != [] {
      StatusCountsPartition(ts[1..]);
    }
  }

  lemma {:induction false} NoneWithStatus(ts: seq<Record>, st: Status)
    requires forall r :: r in ts ==> r.status != st
    ensures WithStatus(ts, st) == []
  {
    if ts != [] {
      assert ts[0] in ts;
      NoneWithStatus(ts[1..], st);
    }
  }

  /** Taking the element at `i` out of a sequence takes its contribution out of the
      count and the revenue of its status, and nothing else. */
  lemma DropAt(b: seq<Record>, i: nat, st: Status)
    requires i < |b|
    ensures |WithStatus(b, st)| == |WithStatus(b[..i] + b[i + 1..], st)| + |WithStatus([b[i]], st)|
    ensures SumAmounts(WithStatus(b, st))
         == SumAmounts(WithStatus(b[..i] + b[i + 1..], st)) + SumAmounts(WithStatus([b[i]], st))
  {
    assert b == b[..i] + [b[i]] + b[i + 1..];
    WithStatusAppend(b[..i] + [b[i]], b[i + 1..], st);
    WithStatusAppend(b[..i], [b[i]], st);
    WithStatusAppend(b[..i], b[i + 1..], st);
    SumAmountsAppend(WithStatus(b[..i], st) + WithStatus([b[i]], st), WithStatus(b[i + 1..], st));
    SumAmountsAppend(WithStatus(b[..i], st), WithStatus([b[i]], st));
    SumAmountsAppend(WithStatus(b[..i], st), WithStatus(b[i + 1..], st));
  }

  /** In a permutation `b` of `a`, some position holds `a[0]`, and the rest of `b` is a
      permutation of the rest of `a`. */
  lemma PickMatch(a: seq<Record>, b: seq<Record>) returns (i: nat)
    requires a != [] && multiset(a) == multiset(b)
    ensures i < |b| && b[i] == a[0]
    ensures multiset(a[1..]) == multiset(b[..i] + b[i + 1..])
  {
    assert a[0] in multiset(b);
    i :| 0 <= i < |b| && b[i] == a[0];
    assert b == b[..i] + [b[i]] + b[i + 1..];
    assert a == [a[0]] + a[1..];
    assert multiset(b) == multiset(b[..i]) + multiset{b[i]} + multiset(b[i + 1..]);
    assert multiset(a) == multiset{a[0]} + multiset(a[1..]);
    assert multiset(a[1..]) == multiset(a) - multiset{a[0]};
  }

  /** Filtering by one status and summing the amounts are blind to order. */
  lemma {:induction false} StatusFilterIgnoresOrder(a: seq<Record>, b: seq<Record>, st: Status)
    requires multiset(a) == multiset(b)
    ensures |WithStatus(a, st)| == |WithStatus(b, st)|
    ensures SumAmounts(WithStatus(a, st)) == SumAmounts(WithStatus(b, st))
  {
    if a == [] {
      assert |b| == |multiset(b)| == 0;
    } else {
      var i := PickMatch(a, b);
      StatusFilterIgnoresOrder(a[1..], b[..i] + b[i + 1..], st);
      assert a[..0] + a[1..] == a[1..];
      DropAt(a, 0, st);
      DropAt(b, i, st);
    }
  }

  /** The counters and the revenue depend on which documents there are, not on their order. */
  lemma StatsIgnoreOrder(a: seq<Record>, b: seq<Record>)
    requires multiset(a) == multiset(b)
    ensures ComputeStats(a) == ComputeStats(b)
  {
    assert |a| == |multiset(a)| == |multiset(b)| == |b|;
    StatusFilterIgnoresOrder(a, b, Success);
    StatusFilterIgnoresOrder(a, b, Pending);
    StatusFilterIgnoresOrder(a, b, Failed);
  }

  /** `totalRevenue` adds up the amounts of the successful documents only: a document
      of any other status can be added without changing it. */
  lemma RevenueIgnoresUnpaid(ts: seq<Record>, r: Record)
    requires r.status != Success
    ensures ComputeStats(ts + [r]).totalRevenue == ComputeStats(ts).totalRevenue
    ensures ComputeStats([r] + ts).totalRevenue == ComputeStats(ts).totalRevenue
  {
    WithStatusAppend(ts, [r], Success);
    WithStatusAppend([r], ts, Success);
    assert WithStatus(ts, Success) + [] == WithStatus(ts, Success);
  }

  /** A successful document adds its amount to the revenue. */
  lemma RevenueCountsPaid(ts: seq<Record>, r: Record)
    requires r.status == Success
    ensures ComputeStats(ts + [r]).totalRevenue == ComputeStats(ts).totalRevenue + r.amount
  {
    WithStatusAppend(ts, [r], Success);
    assert WithStatus([r], Success) == [r];
    SumAmountsAppend(WithStatus(ts, Success), [r]);
  }

  /** Two successful documents of 10 and 5 cedis, one pending, one failed: four in all,
      two successful, one pending, one failed, 15 cedis of revenue. */
  lemma StatsExample(s1: Record, s2: Record, p: Record, f: Record)
    requires s1.status == Success && s1.amount == 1000
    requires s2.status == Success && s2.amount == 500
    requires p.status == Pending && f.status == Failed
    ensures ComputeStats([s1, s2, p, f]) == Stats(4, 2, 1, 1, 1500)
  {
    var ts := [s1, s2, p, f];
    assert ts[1..] == [s2, p, f] && ts[1..][1..] == [p, f] && ts[1..][1..][1..] == [f];
    assert WithStatus([f], Success) == [] && WithStatus([f], Pending) == [] && WithStatus([f], Failed) == [f];
    assert WithStatus([p, f], Success) == [] && WithStatus([p, f], Pending) == [p];
    assert WithStatus([p, f], Failed) == [f];
    assert WithStatus(ts, Success) == [s1, s2];
    assert WithStatus(ts, Failed) == WithStatus([s2, p, f], Failed) == WithStatus([p, f], Failed) == [f];
    assert WithStatus(ts, Pending) == [p];
    assert SumAmounts([s1, s2]) == 1500 by {
      assert [s1, s2][1..] == [s2] && [s2][1..] == [];
      assert SumAmounts([s2]) == 500;
    }
  }

  // ---------------------------------------------------------------------------
  // The two read handlers
  // ---------------------------------------------------------------------------

  datatype ListReply = ListReply(stats: Stats, transactions: seq<Record>)

  /** `GET /api/transactions`: every document, newest first, with the counters computed
      over that result. */
  ghost function ListTransactions(m: Table): (reply: ListReply)
    ensures NewestFirst(reply.transactions)
    ensures |reply.transactions| == |m|
    ensures forall r :: r in reply.transactions <==> r in m.Values
    ensures forall r :: multiset(reply.transactions)[r] == |KeysHolding(m, r)|
    ensures reply.stats == ComputeStats(reply.transactions)
  {
    var ds := SortNewestFirst(Documents(m));
    assert |ds| == |multiset(ds)| == |multiset(Documents(m))| == |m|;
    assert forall r :: r in ds <==> r in multiset(Documents(m));
    ListReply(ComputeStats(ds), ds)
  }

  /** The listing's counters over a consistent store: `total` counts the documents,
      nothing is ever counted as failed, and every document is pending or successful. */
  lemma ListStatsOfConsistentStore(m: Table)
    requires TableConsistent(m)
    ensures ListTransactions(m).stats.total == |m|
    ensures ListTransactions(m).stats.failed == 0
    ensures ListTransactions(m).stats.successful + ListTransactions(m).stats.pending == |m|
  {
    var ts := ListTransactions(m).transactions;
    forall r | r in ts ensures r.status != Failed {
      assert r in m.Values;
      var k :| k in m && m[k] == r;
      assert Consistent(k, r);
    }
    NoneWithStatus(ts, Failed);
    StatusCountsPartition(ts);
  }

  /** `t => t.phone === phone` over a sequence of documents. */
  function WithPhone(ts: seq<Record>, phone: string): (out: seq<Record>)
    ensures |out| <= |ts|
    ensures forall r :: r in out <==> r in ts && r.phone == phone
    ensures forall r :: multiset(out)[r] == if r.phone == phone then multiset(ts)[r] else 0
  {
    if ts == [] then []
    else
      assert ts == [ts[0]] + ts[1..];
      if ts[0].phone == phone then [ts[0]] + WithPhone(ts[1..], phone)
      else WithPhone(ts[1..], phone)
  }

  /** `GET /api/transactions/phone/:phone`: the documents whose phone matches exactly,
      in the collection's order. */
  ghost function TransactionsByPhone(m: Table, phone: string): (ts: seq<Record>)
    ensures |ts| <= |m|
    ensures forall r :: r in ts <==> r in m.Values && r.phone == phone
    ensures forall r :: multiset(ts)[r] == if r.phone == phone then multiset(Documents(m))[r] else 0
    ensures forall r :: multiset(ts)[r] == if r.phone == phone then |KeysHolding(m, r)| else 0
    ensures TableConsistent(m) ==> forall r :: r in m.Values && r.phone == phone ==> multiset(ts)[r] == 1
  {
    assert TableConsistent(m) ==> forall r :: r in m.Values ==> multiset(Documents(m))[r] == 1 by {
      if TableConsistent(m) {
        forall r | r in m.Values ensures multiset(Documents(m))[r] == 1 {
          DocumentsOnce(m, r);
        }
      }
    }
    WithPhone(Documents(m), phone)
  }
}
