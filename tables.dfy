/**
 The row table and the overview table of one series type, as values, and the
 meaning of the SQL statements the adapter runs against them.

 A series key is `(symbol, exchange, interval)` for bars and `(symbol, exchange)`
 for ticks; here it is the type parameter `K`. A row's primary key is its series
 key together with its timestamp. Timestamps are integers already normalised to
 the database time zone; the non-key columns are the opaque payload `P`.
 */
module Tables {

  datatype Row<K, P> = Row(key: K, time: int, payload: P)

  /** One overview (summary) row: how many rows a series has and the time range they span. */
  datatype Overview = Overview(count: nat, start: int, end: int)

  function Min(a: int, b: int): int { if a <= b then a else b }

  function Max(a: int, b: int): int { if a <= b then b else a }

  /** The primary key of a row. */
  function Pk<K(==), P(==)>(x: Row<K, P>): (K, int) { (x.key, x.time) }

  /** The primary keys present in a table or batch. */
  function Pks<K(==), P(==)>(t: seq<Row<K, P>>): set<(K, int)>
  {
    set x | x in t :: Pk(x)
  }

  /** The timestamps of the rows of series `k` in table `t`. */
  function Times<K(==), P(==)>(t: seq<Row<K, P>>, k: K): set<int>
  {
    set x | x in t && x.key == k :: x.time
  }

  /** The timestamps of a batch, whatever its keys. */
  function BatchTimes<K(==), P(==)>(b: seq<Row<K, P>>): set<int>
  {
    set x | x in b :: x.time
  }

  predicate IsLeast(m: int, s: set<int>)
  {
    m in s && forall y :: y in s ==> m <= y
  }

  predicate IsGreatest(m: int, s: set<int>)
  {
    m in s && forall y :: y in s ==> y <= m
  }

  /** Every row of the batch belongs to series `k`. */
  predicate SingleKey<K(==), P(==)>(b: seq<Row<K, P>>, k: K)
  {
    forall i :: 0 <= i < |b| ==> b[i].key == k
  }

  // ---------------------------------------------------------------------------
  // Ordering by timestamp

  /** Each row is no later than the next one. */
  predicate SortedByTime<K(==), P(==)>(s: seq<Row<K, P>>)
  {
    forall i :: 0 < i < |s| ==> s[i - 1].time <= s[i].time
  }

  lemma {:induction false} SortedByTimeOrders<K, P>(s: seq<Row<K, P>>, i: int, j: int)
    requires SortedByTime(s) && 0 <= i <= j < |s|
    ensures s[i].time <= s[j].time
  {
    if i < j {
      SortedByTimeOrders(s, i, j - 1);
    }
  }

  /** Inserts `x` into a time-ordered sequence, after every row not later than it. */
  function Insert<K(==), P(==)>(x: Row<K, P>, s: seq<Row<K, P>>): (r: seq<Row<K, P>>)
    requires SortedByTime(s)
    ensures |r| == |s| + 1
    ensures multiset(r) == multiset(s) + multiset{x}
    ensures r[0] == x || (s != [] && r[0] == s[0])
    ensures SortedByTime(r)
  {
    if s == [] then [x]
    else if x.time < s[0].time then [x] + s
    else
      var rest := Insert(x, s[1..]);
      assert s == [s[0]] + s[1..];
      [s[0]] + rest
  }

  /** The batch ordered ascending by timestamp (the data frame's `sort(by="datetime")`). */
  function SortByTime<K(==), P(==)>(b: seq<Row<K, P>>): (r: seq<Row<K, P>>)
    ensures SortedByTime(r)
    ensures multiset(r) == multiset(b)
    ensures |r| == |b|
  {
    if b == [] then []
    else
      var init := b[..|b| - 1];
      assert b == init + [b[|b| - 1]];
      Insert(b[|b| - 1], SortByTime(init))
  }

  /** Reference definitions of the earliest and latest timestamp of a batch. */
  function MinTime<K(==), P(==)>(b: seq<Row<K, P>>): int
    requires |b| > 0
  {
    if |b| == 1 then b[0].time else Min(b[0].time, MinTime(b[1..]))
  }

  function MaxTime<K(==), P(==)>(b: seq<Row<K, P>>): int
    requires |b| > 0
  {
    if |b| == 1 then b[0].time else Max(b[0].time, MaxTime(b[1..]))
  }

  lemma {:induction false} MinMaxTimeBound<K, P>(b: seq<Row<K, P>>)
    requires |b| > 0
    ensures IsLeast(MinTime(b), BatchTimes(b))
    ensures IsGreatest(MaxTime(b), BatchTimes(b))
  {
    if |b| == 1 {
      assert b[0] in b;
      assert BatchTimes(b) == {b[0].time};
    } else {
      MinMaxTimeBound(b[1..]);
      assert b == [b[0]] + b[1..];
      assert b[0] in b;
      assert BatchTimes(b) == {b[0].time} + BatchTimes(b[1..]);
    }
  }

  lemma SameElementsSameTimes<K, P>(a: seq<Row<K, P>>, b: seq<Row<K, P>>)
    requires multiset(a) == multiset(b)
    ensures BatchTimes(a) == BatchTimes(b)
    ensures Pks(a) == Pks(b)
    ensures |a| == |b|
  {
    assert forall x :: x in a <==> x in b by {
      forall x ensures x in a <==> x in b {
        assert x in a <==> x in multiset(a);
        assert x in b <==> x in multiset(b);
      }
    }
    assert |a| == |multiset(a)| == |multiset(b)| == |b|;
  }

  lemma SortedBounds<K, P>(s: seq<Row<K, P>>)
    requires |s| > 0 && SortedByTime(s)
    ensures IsLeast(s[0].time, BatchTimes(s))
    ensures IsGreatest(s[|s| - 1].time, BatchTimes(s))
  {
    assert s[0] in s && s[|s| - 1] in s;
    forall y | y in BatchTimes(s) ensures s[0].time <= y <= s[|s| - 1].time {
      var x :| x in s && x.time == y;
      var i :| 0 <= i < |s| && s[i] == x;
      SortedByTimeOrders(s, 0, i);
      SortedByTimeOrders(s, i, |s| - 1);
    }
  }

  /** The ends of the sorted batch are the earliest and the latest timestamp of the batch. */
  lemma SortedEnds<K, P>(b: seq<Row<K, P>>)
    requires |b| > 0
    ensures |SortByTime(b)| == |b|
    ensures SortByTime(b)[0].time == MinTime(b)
    ensures SortByTime(b)[|b| - 1].time == MaxTime(b)
  {
    var s := SortByTime(b);
    SameElementsSameTimes(s, b);
    MinMaxTimeBound(b);
    SortedBounds(s);
  }

  // ---------------------------------------------------------------------------
  // Row write: MERGE ... WHEN NOT MATCHED THEN INSERT

  /** The batch rows whose primary key is absent from the target table `t`.
      Only the target is matched, so two batch rows sharing a new primary key are both kept. */
  function Fresh<K(==), P(==)>(t: seq<Row<K, P>>, b: seq<Row<K, P>>): (r: seq<Row<K, P>>)
    ensures |r| <= |b|
    ensures forall i :: 0 <= i < |r| ==> r[i] in b && Pk(r[i]) !in Pks(t)
    ensures (forall i :: 0 <= i < |b| ==> Pk(b[i]) !in Pks(t)) ==> r == b
    ensures (forall i :: 0 <= i < |b| ==> Pk(b[i]) in Pks(t)) ==> r == []
  {
    if b == [] then []
    else
      assert b == [b[0]] + b[1..];
      (if Pk(b[0]) in Pks(t) then [] else [b[0]]) + Fresh(t, b[1..])
  }

  lemma {:induction false} FreshKeepsNew<K, P>(t: seq<Row<K, P>>, b: seq<Row<K, P>>, x: Row<K, P>)
    requires x in b && Pk(x) !in Pks(t)
    ensures x in Fresh(t, b)
  {
    if b[0] != x {
      assert x in b[1..];
      FreshKeepsNew(t, b[1..], x);
    }
  }

  /** The table after an insert-if-absent MERGE of batch `b`: the old rows kept as they are,
      followed by the batch rows whose primary key was not yet stored. */
  function MergeInsert<K(==), P(==)>(t: seq<Row<K, P>>, b: seq<Row<K, P>>): (r: seq<Row<K, P>>)
    ensures |t| <= |r| && r[..|t|] == t
    ensures Pks(r) == Pks(t) + Pks(b)
    ensures forall i :: |t| <= i < |r| ==> r[i] in b && Pk(r[i]) !in Pks(t)
  {
    var f := Fresh(t, b);
    var r := t + f;
    assert Pks(r) == Pks(t) + Pks(b) by {
      forall pk | pk in Pks(r) ensures pk in Pks(t) + Pks(b) {
        var x :| x in r && Pk(x) == pk;
        if x !in t {
          var i :| 0 <= i < |f| && f[i] == x;
        }
      }
      forall pk | pk in Pks(t) + Pks(b) ensures pk in Pks(r) {
        if pk in Pks(t) {
          var x :| x in t && Pk(x) == pk;
          assert x in r;
        } else {
          var x :| x in b && Pk(x) == pk;
          FreshKeepsNew(t, b, x);
          assert x in r;
        }
      }
    }
    assert forall i :: |t| <= i < |r| ==> r[i] == f[i - |t|];
    r
  }

  // ---------------------------------------------------------------------------
  // Filters behind the COUNT, SELECT and DELETE statements

  /** The rows of series `k`, in table order. */
  function OfKey<K(==), P(==)>(t: seq<Row<K, P>>, k: K): (r: seq<Row<K, P>>)
    ensures |r| <= |t|
    ensures forall i :: 0 <= i < |r| ==> r[i].key == k
  {
    if t == [] then []
    else (if t[0].key == k then [t[0]] else []) + OfKey(t[1..], k)
  }

  lemma {:induction false} OfKeyMember<K, P>(t: seq<Row<K, P>>, k: K, x: Row<K, P>)
    ensures x in OfKey(t, k) <==> x in t && x.key == k
  {
    if t != [] {
      OfKeyMember(t[1..], k, x);
      assert t == [t[0]] + t[1..];
    }
  }

  /** What the COUNT query returns for series `k`. */
  function CountKey<K(==), P(==)>(t: seq<Row<K, P>>, k: K): nat
  {
    |OfKey(t, k)|
  }

  /** The rows the range SELECT matches: series `k`, `lo <= time <= hi`, both bounds inclusive. */
  function Select<K(==), P(==)>(t: seq<Row<K, P>>, k: K, lo: int, hi: int): (r: seq<Row<K, P>>)
    ensures |r| <= |t|
    ensures forall i :: 0 <= i < |r| ==> r[i].key == k && lo <= r[i].time <= hi
  {
    if t == [] then []
    else (if t[0].key == k && lo <= t[0].time <= hi then [t[0]] else []) + Select(t[1..], k, lo, hi)
  }

  lemma {:induction false} SelectMember<K, P>(t: seq<Row<K, P>>, k: K, lo: int, hi: int, x: Row<K, P>)
    ensures x in Select(t, k, lo, hi) <==> x in t && x.key == k && lo <= x.time <= hi
  {
    if t != [] {
      SelectMember(t[1..], k, lo, hi, x);
      assert t == [t[0]] + t[1..];
    }
  }

  /** The table after the DELETE statement for series `k`. */
  function DeleteKey<K(==), P(==)>(t: seq<Row<K, P>>, k: K): (r: seq<Row<K, P>>)
    ensures |r| <= |t|
    ensures forall i :: 0 <= i < |r| ==> r[i].key != k
  {
    if t == [] then []
    else (if t[0].key != k then [t[0]] else []) + DeleteKey(t[1..], k)
  }

  lemma {:induction false} DeleteKeyMember<K, P>(t: seq<Row<K, P>>, k: K, x: Row<K, P>)
    ensures x in DeleteKey(t, k) <==> x in t && x.key != k
  {
    if t != [] {
      DeleteKeyMember(t[1..], k, x);
      assert t == [t[0]] + t[1..];
    }
  }

  lemma {:induction false} OfKeyAppend<K, P>(a: seq<Row<K, P>>, b: seq<Row<K, P>>, k: K)
    ensures OfKey(a + b, k) == OfKey(a, k) + OfKey(b, k)
  {
    if a == [] {
      assert a + b == b;
    } else {
      assert (a + b)[0] == a[0];
      assert (a + b)[1..] == a[1..] + b;
      OfKeyAppend(a[1..], b, k);
    }
  }

  lemma {:induction false} OfKeyAll<K, P>(b: seq<Row<K, P>>, k: K)
    requires SingleKey(b, k)
    ensures OfKey(b, k) == b
  {
    if b != [] {
      OfKeyAll(b[1..], k);
      assert b == [b[0]] + b[1..];
    }
  }

  lemma {:induction false} OfKeyNone<K, P>(b: seq<Row<K, P>>, k: K)
    requires forall i :: 0 <= i < |b| ==> b[i].key != k
    ensures OfKey(b, k) == []
  {
    if b != [] {
      OfKeyNone(b[1..], k);
    }
  }

  lemma {:induction false} DeleteKeyKeepsOthers<K, P>(t: seq<Row<K, P>>, k: K, other: K)
    requires other != k
    ensures OfKey(DeleteKey(t, k), other) == OfKey(t, other)
  {
    if t != [] {
      DeleteKeyKeepsOthers(t[1..], k, other);
      var d := DeleteKey(t[1..], k);
      var head := if t[0].key != k then [t[0]] else [];
      OfKeyAppend(head, d, other);
      assert DeleteKey(t, k) == head + d;
    }
  }

  lemma TimesAppend<K, P>(a: seq<Row<K, P>>, b: seq<Row<K, P>>, k: K)
    ensures Times(a + b, k) == Times(a, k) + Times(b, k)
  {
  }

  /** A series with no stored rows, or a range with `lo > hi`, selects nothing. */
  lemma {:induction false} SelectEmpty<K, P>(t: seq<Row<K, P>>, k: K, lo: int, hi: int)
    requires CountKey(t, k) == 0 || lo > hi
    ensures Select(t, k, lo, hi) == []
  {
    if t != [] {
      SelectEmpty(t[1..], k, lo, hi);
    }
  }
}
