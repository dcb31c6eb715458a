/**
 The database engine's side of one series type: its row table and its overview
 table, updated in place, with one method per SQL statement the adapter issues.
 */
module Store {

  import opened Wrappers
  import opened Tables
  import opened Reconcile

  class SeriesStore<K(==), P(==)> {
    /** The row table (`dbbardata` or `dbtickdata`), in insertion order. */
    var rows: seq<Row<K, P>>
    /** The overview table (`dbbaroverview` or `dbtickoverview`), keyed by series. */
    var overviews: map<K, Overview>

    function Snapshot(): State<K, P>
      reads this
    {
      Reconcile.State(rows, overviews)
    }

    /** `CREATE TABLE IF NOT EXISTS`: a persistent catalogue keeps the tables it already holds
        (`stored`); a new catalogue starts with both tables empty (`EmptyConsistent`). */
    constructor (stored: State<K, P>)
      ensures Snapshot() == stored
    {
      rows := stored.rows;
      overviews := stored.overviews;
    }

    /** `SAVE_*_QUERY`: MERGE the batch, inserting only rows whose primary key is not stored. */
    method MergeRows(batch: seq<Row<K, P>>)
      modifies this
      ensures rows == MergeInsert(old(rows), batch)
      ensures overviews == old(overviews)
    {
      rows := MergeInsert(rows, batch);
    }

    /** `LOAD_*OVERVIEW_QUERY` followed by `fetchone()`: the stored overview of `key`, if any. */
    method FindOverview(key: K) returns (row: Option<Overview>)
      ensures row.Some? <==> key in overviews
      ensures row.Some? ==> row.value == overviews[key]
    {
      if key in overviews {
        row := Some(overviews[key]);
      } else {
        row := None;
      }
    }

    /** `COUNT_*_QUERY`: the number of stored rows of `key`. */
    method CountRows(key: K) returns (n: nat)
      ensures n == |OfKey(rows, key)|
    {
      n := CountKey(rows, key);
    }

    /** `SAVE_*OVERVIEW_QUERY`: MERGE keyed on the series key alone, updating or inserting. */
    method UpsertOverview(key: K, ov: Overview)
      modifies this
      ensures overviews == old(overviews)[key := ov]
      ensures rows == old(rows)
    {
      overviews := overviews[key := ov];
    }

    /** `LOAD_*_QUERY` followed by `fetchall()`: the rows of `key` with `lo <= time <= hi`,
        ascending by timestamp. Rows with equal timestamps may come in either order. */
    method SelectRange(key: K, lo: int, hi: int) returns (data: seq<Row<K, P>>)
      ensures SortedByTime(data)
      ensures multiset(data) == multiset(Select(rows, key, lo, hi))
      ensures forall i :: 0 <= i < |data| ==> data[i].key == key && lo <= data[i].time <= hi
    {
      var selected := Select(rows, key, lo, hi);
      data := SortByTime(selected);
      forall i | 0 <= i < |data| ensures data[i].key == key && lo <= data[i].time <= hi {
        assert data[i] in multiset(selected);
        var j :| 0 <= j < |selected| && selected[j] == data[i];
      }
    }

    /** `DELETE_*_QUERY`: removes every row of `key`. */
    method DeleteRows(key: K)
      modifies this
      ensures rows == DeleteKey(old(rows), key)
      ensures overviews == old(overviews)
    {
      rows := DeleteKey(rows, key);
    }

    /** `DELETE_*OVERVIEW_QUERY`: removes the overview of `key`. */
    method DeleteOverview(key: K)
      modifies this
      ensures overviews == old(overviews) - {key}
      ensures rows == old(rows)
    {
      overviews := overviews - {key};
    }

    /** `LOAD_ALL_*OVERVIEW_QUERY` followed by `fetchall()`: every overview row once, in no
        particular order. */
    method AllOverviews() returns (data: seq<(K, Overview)>)
      ensures |data| == |overviews|
      ensures forall i :: 0 <= i < |data| ==> data[i].0 in overviews && overviews[data[i].0] == data[i].1
      ensures forall k :: k in overviews ==> exists i :: 0 <= i < |data| && data[i].0 == k
      ensures forall i, j :: 0 <= i < j < |data| ==> data[i].0 != data[j].0
    {
      data := [];
      var remaining := overviews.Keys;
      while remaining != {}
        invariant remaining <= overviews.Keys
        invariant |data| + |remaining| == |overviews.Keys|
        invariant forall i :: 0 <= i < |data| ==> data[i].0 in overviews && overviews[data[i].0] == data[i].1
        invariant forall i :: 0 <= i < |data| ==> data[i].0 !in remaining
        invariant forall k :: k in overviews && k !in remaining ==> exists i :: 0 <= i < |data| && data[i].0 == k
        invariant forall i, j :: 0 <= i < j < |data| ==> data[i].0 != data[j].0
        decreases |remaining|
      {
        var k :| k in remaining;
        ghost var before := data;
        data := data + [(k, overviews[k])];
        remaining := remaining - {k};
        forall k' | k' in overviews && k' !in remaining ensures exists i :: 0 <= i < |data| && data[i].0 == k' {
          if k' == k {
            assert data[|data| - 1].0 == k;
          } else {
            var i :| 0 <= i < |before| && before[i].0 == k';
            assert data[i] == before[i];
          }
        }
      }
    }
  }
}
