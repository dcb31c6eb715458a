/**
 The overview maintenance protocol of `DuckdbDatabase`, stated on values.

 A save writes the batch with insert-if-absent, then reads the stored overview
 of the batch's series. With no overview ("new contract") the new one counts the
 batch and spans its first and last timestamp; otherwise ("existing contract")
 the count is re-queried from the row table and the time range is widened to
 cover the batch. The result is upserted keyed on the series key alone.
 */
module Reconcile {

  import opened Wrappers
  import opened Tables

  /** The row table and the overview table of one series type. */
  datatype State<K(==), P> = State(rows: seq<Row<K, P>>, overviews: map<K, Overview>)

  /** The point lookup of the overview query: the stored overview, if any. */
  function Lookup<K(==), V>(m: map<K, V>, k: K): Option<V>
  {
    if k in m then Some(m[k]) else None
  }

  /** The overview written after a batch whose sorted timestamps run from `first` to `last`. */
  function NextOverview(prior: Option<Overview>, first: int, last: int, batchLen: nat, recount: nat): (ov: Overview)
    ensures ov.start <= first && last <= ov.end
    ensures first <= last && (prior.Some? ==> prior.value.start <= prior.value.end) ==> ov.start <= ov.end
    ensures prior.Some? ==> ov.start <= prior.value.start && prior.value.end <= ov.end
    ensures prior.Some? ==> ov.count == recount
    ensures prior.None? ==> ov.count == batchLen
  {
    match prior
    case None => Overview(batchLen, first, last)
    case Some(o) => Overview(recount, Min(first, o.start), Max(last, o.end))
  }

  /** The state after saving a non-empty batch. The series key is taken from the first row. */
  function Saved<K(==), P(==)>(s: State<K, P>, batch: seq<Row<K, P>>): (r: State<K, P>)
    requires |batch| > 0
    ensures r.overviews.Keys == s.overviews.Keys + {batch[0].key}
    ensures forall k :: k in s.overviews && k != batch[0].key ==> r.overviews[k] == s.overviews[k]
  {
    var sorted := SortByTime(batch);
    var key := batch[0].key;
    var rows := MergeInsert(s.rows, sorted);
    var ov := NextOverview(Lookup(s.overviews, key), sorted[0].time, sorted[|sorted| - 1].time,
                           |batch|, CountKey(rows, key));
    State(rows, s.overviews[key := ov])
  }

  /** The state after deleting series `key`: its rows and its overview go. */
  function Deleted<K(==), P(==)>(s: State<K, P>, key: K): State<K, P>
  {
    State(DeleteKey(s.rows, key), s.overviews - {key})
  }

  /** `ov` describes the rows of series `k`: their number and their earliest and latest timestamp. */
  predicate Summarises<K(==), P(==)>(ov: Overview, rows: seq<Row<K, P>>, k: K)
  {
    && ov.count == CountKey(rows, k)
    && IsLeast(ov.start, Times(rows, k))
    && IsGreatest(ov.end, Times(rows, k))
  }

  /** Every overview describes its series, and every stored row's series has an overview. */
  predicate Consistent<K(==), P(==)>(s: State<K, P>)
  {
    && (forall k {:trigger s.overviews[k]} :: k in s.overviews ==> Summarises(s.overviews[k], s.rows, k))
    && (forall i :: 0 <= i < |s.rows| ==> s.rows[i].key in s.overviews)
  }

  // ---------------------------------------------------------------------------
  // The two branches of the overview computation

  /** New contract: the overview counts the batch and spans its earliest and latest timestamp. */
  lemma SaveNewContract<K, P>(s: State<K, P>, b: seq<Row<K, P>>)
    requires |b| > 0 && b[0].key !in s.overviews
    ensures Saved(s, b).overviews[b[0].key] == Overview(|b|, MinTime(b), MaxTime(b))
  {
    SortedEnds(b);
  }

  /** Existing contract: the count is the number of rows stored after the write, and the
      range is the old range widened to the batch's earliest and latest timestamp. */
  lemma SaveExistingContract<K, P>(s: State<K, P>, b: seq<Row<K, P>>)
    requires |b| > 0 && b[0].key in s.overviews
    ensures var o := s.overviews[b[0].key];
            var r := Saved(s, b);
            r.overviews[b[0].key] == Overview(CountKey(r.rows, b[0].key), Min(MinTime(b), o.start), Max(MaxTime(b), o.end))
  {
    SortedEnds(b);
  }

  /** The re-counted total grows by the rows the MERGE actually inserted, which is at most the
      batch size and is less whenever the batch overlaps stored rows: the count is not
      `old count + |batch|`. */
  lemma SaveCountsInsertedRows<K, P>(s: State<K, P>, b: seq<Row<K, P>>, k: K)
    requires |b| > 0 && SingleKey(b, k)
    requires k in s.overviews && s.overviews[k].count == CountKey(s.rows, k)
    ensures Saved(s, b).overviews[k].count == s.overviews[k].count + |Fresh(s.rows, SortByTime(b))|
    ensures Saved(s, b).overviews[k].count <= s.overviews[k].count + |b|
  {
    var sorted := SortByTime(b);
    var f := Fresh(s.rows, sorted);
    forall i | 0 <= i < |f| ensures f[i].key == k {
      assert f[i] in multiset(sorted);
      SingleKeyMembers(b, k, f[i]);
    }
    OfKeyAppend(s.rows, f, k);
    OfKeyAll(f, k);
  }

  /** A concrete overlap: re-sending a stored bar with a different payload leaves count 1, where
      adding the batch size would give 2, and the stored payload is the first one. */
  lemma OverlapKeepsCount()
    ensures var s := State([Row(1, 10, 0)], map[1 := Overview(1, 10, 10)]);
            var r := Saved(s, [Row(1, 10, 5)]);
            r.overviews[1] == Overview(1, 10, 10) && r.rows == [Row(1, 10, 0)]
  {
    var s := State([Row(1, 10, 0)], map[1 := Overview(1, 10, 10)]);
    var b := [Row(1, 10, 5)];
    assert s.rows[0] in s.rows;
    assert Pk(b[0]) == Pk(s.rows[0]);
    assert Pk(b[0]) in Pks(s.rows);
    assert SortByTime(b) == b;
    assert Fresh(s.rows, b) == [];
    assert MergeInsert(s.rows, b) == s.rows;
  }

  // ---------------------------------------------------------------------------
  // The row write

  lemma SingleKeyMembers<K, P>(b: seq<Row<K, P>>, k: K, x: Row<K, P>)
    requires SingleKey(b, k) && x in b
    ensures x.key == k
  {
  }

  /** First write wins, scoped to the key: the stored rows stay in place, every primary key of the
      batch is now stored, a row is added only at a primary key that was absent, and the rows of
      every other series are those it had. */
  lemma SaveRows<K, P>(s: State<K, P>, b: seq<Row<K, P>>, k: K)
    requires |b| > 0 && SingleKey(b, k)
    ensures var r := Saved(s, b).rows;
            && |s.rows| <= |r| && r[..|s.rows|] == s.rows
            && Pks(r) == Pks(s.rows) + Pks(b)
            && (forall i :: |s.rows| <= i < |r| ==> r[i] in b && Pk(r[i]) !in Pks(s.rows))
            && (forall i :: 0 <= i < |r| && Pk(r[i]) in Pks(s.rows) ==> r[i] in s.rows)
            && (forall other :: other != k ==> OfKey(r, other) == OfKey(s.rows, other))
  {
    var sorted := SortByTime(b);
    SameElementsSameTimes(sorted, b);
    var f := Fresh(s.rows, sorted);
    var r := Saved(s, b).rows;
    assert r == s.rows + f;
    forall i | 0 <= i < |f| ensures f[i] in b && f[i].key == k {
      assert f[i] in multiset(sorted);
      SingleKeyMembers(b, k, f[i]);
    }
    forall i | 0 <= i < |r| && Pk(r[i]) in Pks(s.rows) ensures r[i] in s.rows {
      assert i < |s.rows|;
      assert r[i] == s.rows[i];
    }
    forall other | other != k ensures OfKey(r, other) == OfKey(s.rows, other) {
      OfKeyAppend(s.rows, f, other);
      OfKeyNone(f, other);
    }
  }

  /** With a single-key batch, the stored timestamps of its series are the old ones plus the batch's. */
  lemma StoredTimes<K, P>(t: seq<Row<K, P>>, b: seq<Row<K, P>>, k: K)
    requires SingleKey(b, k)
    ensures Times(MergeInsert(t, b), k) == Times(t, k) + BatchTimes(b)
  {
    var r := MergeInsert(t, b);
    var f := Fresh(t, b);
    assert r == t + f;
    TimesAppend(t, f, k);
    forall y | y in Times(f, k) ensures y in BatchTimes(b) {
      var x :| x in f && x.key == k && x.time == y;
      var i :| 0 <= i < |f| && f[i] == x;
    }
    forall y | y in BatchTimes(b) ensures y in Times(r, k) {
      var x :| x in b && x.time == y;
      SingleKeyMembers(b, k, x);
      assert Pk(x) in Pks(b);
      var z :| z in r && Pk(z) == Pk(x);
    }
  }

  lemma LeastOfUnion(a: int, s: set<int>, b: int, u: set<int>)
    requires IsLeast(a, s) && IsLeast(b, u)
    ensures IsLeast(Min(a, b), s + u)
  {
  }

  lemma GreatestOfUnion(a: int, s: set<int>, b: int, u: set<int>)
    requires IsGreatest(a, s) && IsGreatest(b, u)
    ensures IsGreatest(Max(a, b), s + u)
  {
  }

  // ---------------------------------------------------------------------------
  // The overview invariant

  lemma SortedSingleKey<K, P>(b: seq<Row<K, P>>, k: K)
    requires SingleKey(b, k)
    ensures SingleKey(SortByTime(b), k)
  {
    var sorted := SortByTime(b);
    forall i | 0 <= i < |sorted| ensures sorted[i].key == k {
      assert sorted[i] in multiset(b);
      SingleKeyMembers(b, k, sorted[i]);
    }
  }

  /** A save leaves the rows of every other series as they were. */
  lemma SaveKeepsOtherSeries<K, P>(s: State<K, P>, b: seq<Row<K, P>>, k: K, other: K)
    requires |b| > 0 && SingleKey(b, k) && other != k
    ensures OfKey(Saved(s, b).rows, other) == OfKey(s.rows, other)
    ensures Times(Saved(s, b).rows, other) == Times(s.rows, other)
  {
    var sorted := SortByTime(b);
    SortedSingleKey(b, k);
    var f := Fresh(s.rows, sorted);
    assert Saved(s, b).rows == s.rows + f;
    assert forall i :: 0 <= i < |f| ==> f[i].key == k by {
      forall i | 0 <= i < |f| ensures f[i].key == k {
        SingleKeyMembers(sorted, k, f[i]);
      }
    }
    OfKeyAppend(s.rows, f, other);
    OfKeyNone(f, other);
    TimesAppend(s.rows, f, other);
    assert Times(f, other) == {};
    assert Times(s.rows, other) + {} == Times(s.rows, other);
  }

  /** The MERGE of a single-key batch into a table with no row of that series inserts it all. */
  lemma MergeIntoEmptySeries<K, P>(t: seq<Row<K, P>>, b: seq<Row<K, P>>, k: K)
    requires SingleKey(b, k)
    requires forall i :: 0 <= i < |t| ==> t[i].key != k
    ensures MergeInsert(t, b) == t + b
  {
  }

  /** Saving into a series with no stored rows inserts the whole batch. */
  lemma SaveIntoEmptySeries<K, P>(s: State<K, P>, b: seq<Row<K, P>>, k: K)
    requires |b| > 0 && SingleKey(b, k)
    requires forall i :: 0 <= i < |s.rows| ==> s.rows[i].key != k
    ensures CountKey(Saved(s, b).rows, k) == |b|
    ensures Times(Saved(s, b).rows, k) == BatchTimes(b)
  {
    var sorted := SortByTime(b);
    SameElementsSameTimes(sorted, b);
    SortedSingleKey(b, k);
    MergeIntoEmptySeries(s.rows, sorted, k);
    assert Saved(s, b).rows == s.rows + sorted;
    OfKeyAppend(s.rows, sorted, k);
    OfKeyNone(s.rows, k);
    OfKeyAll(sorted, k);
    StoredTimes(s.rows, sorted, k);
    assert Times(s.rows, k) == {};
  }

  /** Existing contract: the re-count and the widened range describe the series exactly. */
  lemma SaveSummarisesExisting<K, P>(s: State<K, P>, b: seq<Row<K, P>>, k: K)
    requires |b| > 0 && SingleKey(b, k) && k in s.overviews && Summarises(s.overviews[k], s.rows, k)
    ensures Summarises(Saved(s, b).overviews[k], Saved(s, b).rows, k)
  {
    var sorted := SortByTime(b);
    SameElementsSameTimes(sorted, b);
    SortedEnds(b);
    MinMaxTimeBound(b);
    SortedSingleKey(b, k);
    var o := s.overviews[k];
    var r := Saved(s, b);
    assert r.rows == MergeInsert(s.rows, sorted);
    StoredTimes(s.rows, sorted, k);
    LeastOfUnion(o.start, Times(s.rows, k), MinTime(b), BatchTimes(b));
    GreatestOfUnion(o.end, Times(s.rows, k), MaxTime(b), BatchTimes(b));
    assert b[0].key == k;
    assert r.overviews[k] == Overview(CountKey(r.rows, k), Min(o.start, MinTime(b)), Max(o.end, MaxTime(b)));
  }

  /** New contract: into a series with no rows, the batch size and the batch's bounds describe
      the series exactly. */
  lemma SaveSummarisesNew<K, P>(s: State<K, P>, b: seq<Row<K, P>>, k: K)
    requires |b| > 0 && SingleKey(b, k) && k !in s.overviews
    requires forall i :: 0 <= i < |s.rows| ==> s.rows[i].key != k
    ensures Summarises(Saved(s, b).overviews[k], Saved(s, b).rows, k)
  {
    SortedEnds(b);
    MinMaxTimeBound(b);
    SaveIntoEmptySeries(s, b, k);
    assert b[0].key == k;
    assert Saved(s, b).overviews[k] == Overview(|b|, MinTime(b), MaxTime(b));
  }

  /** After a single-key save every stored row's series has an overview. */
  lemma SaveCoversRows<K, P>(s: State<K, P>, b: seq<Row<K, P>>, k: K)
    requires |b| > 0 && SingleKey(b, k)
    requires forall i :: 0 <= i < |s.rows| ==> s.rows[i].key in s.overviews
    ensures var r := Saved(s, b);
            forall i :: 0 <= i < |r.rows| ==> r.rows[i].key in r.overviews
  {
    var sorted := SortByTime(b);
    SortedSingleKey(b, k);
    var r := Saved(s, b);
    assert r.rows == MergeInsert(s.rows, sorted);
    assert r.rows[..|s.rows|] == s.rows;
    assert b[0].key == k;
    forall i | 0 <= i < |r.rows| ensures r.rows[i].key in r.overviews {
      if i < |s.rows| {
        assert r.rows[i] == s.rows[i];
      } else {
        SingleKeyMembers(sorted, k, r.rows[i]);
      }
    }
  }

  /** Saving a single-key batch keeps every overview an exact description of its series:
      the re-count makes the count right even when the batch overlaps stored rows. */
  lemma SavePreservesConsistent<K, P>(s: State<K, P>, b: seq<Row<K, P>>, k: K)
    requires |b| > 0 && SingleKey(b, k) && Consistent(s)
    ensures Consistent(Saved(s, b))
  {
    var r := Saved(s, b);
    forall other | other in r.overviews ensures Summarises(r.overviews[other], r.rows, other) {
      if other != k {
        SaveKeepsOtherSeries(s, b, k, other);
        assert r.overviews[other] == s.overviews[other];
        assert Summarises(s.overviews[other], s.rows, other);
      } else if k in s.overviews {
        SaveSummarisesExisting(s, b, k);
      } else {
        SaveSummarisesNew(s, b, k);
      }
    }
    SaveCoversRows(s, b, k);
  }

  /** Every overview of a consistent state spans a non-empty, ordered range of a non-empty series. */
  lemma ConsistentOverview<K, P>(s: State<K, P>, k: K)
    requires Consistent(s) && k in s.overviews
    ensures s.overviews[k].start <= s.overviews[k].end
    ensures s.overviews[k].count > 0
  {
    var o := s.overviews[k];
    assert Summarises(o, s.rows, k);
    assert o.start in Times(s.rows, k);
    var x :| x in s.rows && x.key == k && x.time == o.start;
    OfKeyMember(s.rows, k, x);
    assert x in OfKey(s.rows, k);
  }

  /** Deleting a series removes its rows and overview and leaves every other series as it was. */
  lemma DeleteClears<K, P>(s: State<K, P>, key: K)
    ensures var r := Deleted(s, key);
            && CountKey(r.rows, key) == 0 && key !in r.overviews
            && (forall k :: k != key ==> OfKey(r.rows, k) == OfKey(s.rows, k))
            && (forall k :: k != key && k in s.overviews ==> k in r.overviews && r.overviews[k] == s.overviews[k])
  {
    var r := Deleted(s, key);
    OfKeyNone(r.rows, key);
    forall k | k != key ensures OfKey(r.rows, k) == OfKey(s.rows, k) {
      DeleteKeyKeepsOthers(s.rows, key, k);
    }
  }

  lemma DeletePreservesConsistent<K, P>(s: State<K, P>, key: K)
    requires Consistent(s)
    ensures Consistent(Deleted(s, key))
  {
    var r := Deleted(s, key);
    DeleteClears(s, key);
    forall k | k in r.overviews ensures Summarises(r.overviews[k], r.rows, k) {
      assert k != key && r.overviews[k] == s.overviews[k];
      assert Summarises(s.overviews[k], s.rows, k);
      assert Times(r.rows, k) == Times(s.rows, k) by {
        forall y | y in Times(r.rows, k) ensures y in Times(s.rows, k) {
          var x :| x in r.rows && x.key == k && x.time == y;
          DeleteKeyMember(s.rows, key, x);
        }
        forall y | y in Times(s.rows, k) ensures y in Times(r.rows, k) {
          var x :| x in s.rows && x.key == k && x.time == y;
          DeleteKeyMember(s.rows, key, x);
        }
      }
    }
    forall i | 0 <= i < |r.rows| ensures r.rows[i].key in r.overviews {
      DeleteKeyMember(s.rows, key, r.rows[i]);
      var j :| 0 <= j < |s.rows| && s.rows[j] == r.rows[i];
    }
  }

  // ---------------------------------------------------------------------------
  // Idempotence

  /** A MERGE whose primary keys are all stored inserts nothing. */
  lemma MergeStoredIsNoop<K, P>(t: seq<Row<K, P>>, b: seq<Row<K, P>>)
    requires Pks(b) <= Pks(t)
    ensures MergeInsert(t, b) == t
  {
  }

  /** Once an overview exists, saving the same batch a second time changes neither table. */
  lemma SaveTwiceIsSaveOnce<K, P>(s: State<K, P>, b: seq<Row<K, P>>)
    requires |b| > 0 && b[0].key in s.overviews
    ensures Saved(Saved(s, b), b) == Saved(s, b)
  {
    var sorted := SortByTime(b);
    var k := b[0].key;
    var s1 := Saved(s, b);
    assert s1.rows == MergeInsert(s.rows, sorted);
    MergeStoredIsNoop(s1.rows, sorted);
    var o1 := s1.overviews[k];
    assert o1 == Overview(CountKey(s1.rows, k), Min(sorted[0].time, s.overviews[k].start),
                          Max(sorted[|sorted| - 1].time, s.overviews[k].end));
    assert Saved(s1, b) == State(s1.rows, s1.overviews[k := o1]);
  }

  /** The batch's timestamps already lie in a series whose overview is exact: the widened
      range is the old one. */
  lemma StoredRangeKept<K, P>(o: Overview, rows: seq<Row<K, P>>, k: K, b: seq<Row<K, P>>)
    requires |b| > 0 && Summarises(o, rows, k) && BatchTimes(b) <= Times(rows, k)
    ensures Min(MinTime(b), o.start) == o.start && Max(MaxTime(b), o.end) == o.end
  {
    MinMaxTimeBound(b);
  }

  /** A stored primary key of series `k` means the series has an overview, and that overview
      is exact. */
  lemma StoredSeriesOverview<K, P>(s: State<K, P>, b: seq<Row<K, P>>, k: K)
    requires |b| > 0 && SingleKey(b, k) && Consistent(s) && Pks(b) <= Pks(s.rows)
    ensures k in s.overviews && Summarises(s.overviews[k], s.rows, k)
  {
    assert b[0] in b;
    assert Pk(b[0]) in Pks(s.rows);
    var x :| x in s.rows && Pk(x) == Pk(b[0]);
    var i :| 0 <= i < |s.rows| && s.rows[i] == x;
  }

  /** Re-saving a batch whose primary keys are all stored leaves a consistent state unchanged. */
  lemma SaveStoredBatchIsNoop<K, P>(s: State<K, P>, b: seq<Row<K, P>>, k: K)
    requires |b| > 0 && SingleKey(b, k) && Consistent(s) && Pks(b) <= Pks(s.rows)
    ensures Saved(s, b) == s
  {
    var sorted := SortByTime(b);
    SameElementsSameTimes(sorted, b);
    SortedSingleKey(b, k);
    MergeStoredIsNoop(s.rows, sorted);
    StoredSeriesOverview(s, b, k);
    var o := s.overviews[k];
    // every batch timestamp is already a stored timestamp of the series
    StoredTimes(s.rows, sorted, k);
    StoredRangeKept(o, s.rows, k, b);
    SortedEnds(b);
    assert b[0].key == k;
    assert Saved(s, b) == State(s.rows, s.overviews[k := o]);
    assert s.overviews[k := o] == s.overviews;
  }

  // ---------------------------------------------------------------------------
  // Many batches

  /** The state after saving each batch in turn. */
  function SavedAll<K(==), P(==)>(s: State<K, P>, batches: seq<seq<Row<K, P>>>): State<K, P>
    requires forall i :: 0 <= i < |batches| ==> |batches[i]| > 0
    decreases batches
  {
    if batches == [] then s else SavedAll(Saved(s, batches[0]), batches[1..])
  }

  /** However the batches overlap, saving them in turn keeps every overview counting exactly the
      rows of its series and spanning their earliest and latest timestamp. */
  lemma {:induction false} SavedAllConsistent<K, P>(s: State<K, P>, batches: seq<seq<Row<K, P>>>)
    requires forall i :: 0 <= i < |batches| ==> |batches[i]| > 0 && SingleKey(batches[i], batches[i][0].key)
    requires Consistent(s)
    ensures Consistent(SavedAll(s, batches))
    decreases batches
  {
    if batches != [] {
      var b := batches[0];
      var rest := batches[1..];
      assert forall i :: 0 <= i < |rest| ==> rest[i] == batches[i + 1];
      SavePreservesConsistent(s, b, b[0].key);
      var s1 := Saved(s, b);
      SavedAllConsistent(s1, rest);
      assert SavedAll(s, batches) == SavedAll(s1, rest);
    }
  }

  lemma EmptyConsistent<K, P>(s: State<K, P>)
    requires s.rows == [] && s.overviews == map[]
    ensures Consistent(s)
  {
  }
}
