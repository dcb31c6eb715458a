# vnpy_duckdb: the overview maintenance protocol, in Dafny

`vnpy_duckdb` is the DuckDB (DuckLake) storage adapter of a trading platform.
It stores bars (candles) and ticks in row tables keyed by series and timestamp.
For each series it also keeps an overview row: the number of stored rows and
the earliest and latest timestamp.

This project models the adapter class `DuckdbDatabase` over an in-memory
engine. Each table is a field of a class, updated in place:

- The row table is a `seq` of rows. A row is a series key, an integer
  timestamp and an opaque payload.
- The overview table is a `map` from the series key to `Overview(count, start, end)`.

The SQL statements the adapter issues become methods of that class:

- a MERGE that inserts a row only if its primary key is absent;
- an overview MERGE that updates or inserts, keyed on the series key alone;
- an inclusive range SELECT ordered by timestamp;
- a COUNT;
- the two DELETEs;
- a full overview scan.

Each method is specified by a function on values. The save protocol itself
is a function of the old state and the batch. Its properties are lemmas:

- the two overview branches (new contract and existing contract);
- first write wins;
- saving is idempotent;
- the overview stays consistent with the rows across any sequence of saves and
  deletes.

Bars and ticks share the same generic core. Its parameters are the series key
type (`BarKey(symbol, exchange, interval)` or `TickKey(symbol, exchange)`) and
the payload type.

Modules:

- `Wrappers` (`wrappers.dfy`): `Option`.
- `Tables` (`tables.dfy`): rows and overviews, the sort by timestamp, the
  insert-if-absent MERGE, and the key and range filters behind COUNT, SELECT
  and DELETE.
- `Reconcile` (`reconcile.dfy`):
  - the overview computation, and the save and delete state transitions;
  - the consistency invariant (every overview counts and spans the rows of its
    series);
  - the lemmas about them.
- `Store` (`series_store.dfy`): the class `SeriesStore`, which holds one
  series type's row table and overview table. It has one method per SQL
  statement.
- `Trader` (`trader.dfy`): the platform records (`BarData`, `TickData`,
  `BarOverview`, `TickOverview`). It also holds the conversions to rows and
  back, which tag loaded records with the gateway "DB".
- `Duckdb` (`duckdb_database.dfy`): the class `DuckdbDatabase` with its eight
  public operations. It also holds the generic save and delete bodies they
  share.

The model follows the code as written:

- A batch's series key is the key of its first record. Nothing checks that
  the other records share it.
- `save_*_data` reads `bars[0]` unconditionally, so the model requires a
  non-empty batch.
- A mixed-key batch is still accepted. Its rows are merged as they are, and
  only the first record's overview is written. Each property that needs a
  single-key batch states `SingleKey` as a hypothesis.
- A batch is never deduplicated. The MERGE matches only against rows already
  stored, so two batch rows with the same primary key are both inserted.
- In the existing-contract branch, `count` is a fresh COUNT after the write.
  It is not the old count plus the batch size (`Reconcile.SaveCountsInsertedRows`,
  `Reconcile.OverlapKeepsCount`).

## Model

| member | source | states |
|---|---|---|
| Reconcile.NextOverview | vnpy_duckdb/duckdb_database.py:297-319 | new contract: count is the batch size. Existing contract: count is the re-count. The range always covers the batch's first and last timestamp, only ever widens an existing range, and keeps start <= end |
| Reconcile.Saved | vnpy_duckdb/duckdb_database.py:248-323 | after a save, the overview table has exactly the old keys plus the batch's key, and every other series' overview is unchanged (upsert keyed on the series key alone) |
| Reconcile.SaveNewContract | vnpy_duckdb/duckdb_database.py:282-306 | with no stored overview, the written overview is (batch size, least batch timestamp, greatest batch timestamp) |
| Reconcile.SaveExistingContract | vnpy_duckdb/duckdb_database.py:308-319 | with a stored overview, the written overview is (rows of the series stored after the write, min of batch least and old start, max of batch greatest and old end) |
| Reconcile.SaveCountsInsertedRows | vnpy_duckdb/duckdb_database.py:309-310 | for a correct old count, the re-count is the old count plus the rows the MERGE inserted, so at most the old count plus the batch size |
| Reconcile.OverlapKeepsCount | vnpy_duckdb/duckdb_database.py:134-139 | re-sending a stored bar with a new payload leaves count 1, not 2, and keeps the old payload |
| Reconcile.SaveSummarisesExisting | vnpy_duckdb/duckdb_database.py:308-319 | when the old overview was exact, the existing-contract overview counts the series' rows and spans exactly their least and greatest timestamp |
| Reconcile.SaveSummarisesNew | vnpy_duckdb/duckdb_database.py:298-306 | into a series with no rows, the new-contract overview counts the series' rows and spans exactly their least and greatest timestamp |
| Reconcile.MergeStoredIsNoop | vnpy_duckdb/duckdb_database.py:94 | a MERGE whose primary keys are all stored leaves the row table as it was |
| Reconcile.SaveRows | vnpy_duckdb/duckdb_database.py:85-95 | first write wins, scoped to the key: stored rows stay in place, every batch primary key ends up stored, rows are added only at absent primary keys, and other series' rows are unchanged |
| Reconcile.StoredTimes | vnpy_duckdb/duckdb_database.py:85-95 | after a single-key MERGE, the series' stored timestamps are the old ones plus the batch's |
| Reconcile.SaveKeepsOtherSeries | vnpy_duckdb/duckdb_database.py:285 | a save leaves the rows and timestamps of every other series as they were |
| Reconcile.SaveIntoEmptySeries | vnpy_duckdb/duckdb_database.py:298-306 | into a series with no rows, a save stores exactly the batch size and the batch's timestamps, so the new-contract overview is exact |
| Reconcile.SavePreservesConsistent | vnpy_duckdb/duckdb_database.py:285-321 | a single-key save keeps every overview equal to the count, least timestamp and greatest timestamp of its series' rows |
| Reconcile.ConsistentOverview | vnpy_duckdb/duckdb_database.py:97-115 | in a consistent state, every stored overview has start <= end and a positive count |
| Reconcile.DeleteClears | vnpy_duckdb/duckdb_database.py:193-217 | after a delete, the series has no rows and no overview, and the other series' rows and overviews are unchanged |
| Reconcile.DeletePreservesConsistent | vnpy_duckdb/duckdb_database.py:488-508 | a delete keeps the state consistent |
| Reconcile.SaveTwiceIsSaveOnce | vnpy_duckdb/duckdb_database.py:94 | once the series has an overview, saving the same batch again changes neither table |
| Reconcile.SaveStoredBatchIsNoop | vnpy_duckdb/duckdb_database.py:309-319 | in a consistent state, saving a single-key batch whose primary keys are all stored changes neither table |
| Reconcile.SavedAllConsistent | vnpy_duckdb/duckdb_database.py:248-323 | any sequence of non-empty single-key saves keeps a consistent state consistent |
| Reconcile.EmptyConsistent | vnpy_duckdb/duckdb_database.py:234-246 | a new catalogue, whose tables `CREATE TABLE IF NOT EXISTS` creates empty, is consistent |
| Tables.SortByTime | vnpy_duckdb/duckdb_database.py:270-282 | the batch sorted by datetime: ascending and a permutation of the batch |
| Tables.SortedEnds | vnpy_duckdb/duckdb_database.py:303-304 | the first and last rows of the sorted batch have the least and greatest batch timestamp |
| Tables.MinMaxTimeBound | vnpy_duckdb/duckdb_database.py:303-304 | the least and greatest batch timestamps are the minimum and maximum of the batch's timestamp set |
| Tables.MergeInsert | vnpy_duckdb/duckdb_database.py:85-95 | the insert-if-absent MERGE: old rows kept as a prefix, the primary keys become the union, and each appended row is a batch row with an absent primary key |
| Tables.Fresh | vnpy_duckdb/duckdb_database.py:94 | the NOT MATCHED batch rows: only batch rows with absent primary keys, all of them when none is stored, none when all are stored |
| Tables.OfKeyMember | vnpy_duckdb/duckdb_database.py:134-139 | a row is among those the key filter selects exactly when it is stored and belongs to series k |
| Tables.SelectMember | vnpy_duckdb/duckdb_database.py:117-125 | a row is selected exactly when it is stored, belongs to the key and has start <= datetime <= end, with both bounds inclusive |
| Tables.SelectEmpty | vnpy_duckdb/duckdb_database.py:117-125 | an unknown series or an empty range selects nothing |
| Tables.DeleteKeyMember | vnpy_duckdb/duckdb_database.py:193-198 | a row survives the DELETE exactly when it was stored and belongs to another series |
| Store.SeriesStore.MergeRows | vnpy_duckdb/duckdb_database.py:285 | the row table becomes the MERGE of the batch into it, and the overview table is unchanged |
| Store.SeriesStore.FindOverview | vnpy_duckdb/duckdb_database.py:294-295 | returns a row exactly when the key has an overview, and then returns that overview |
| Store.SeriesStore.CountRows | vnpy_duckdb/duckdb_database.py:134-139 | the number of stored rows of the key |
| Store.SeriesStore.UpsertOverview | vnpy_duckdb/duckdb_database.py:97-115 | the overview of the key is set, others kept, rows unchanged |
| Store.SeriesStore.SelectRange | vnpy_duckdb/duckdb_database.py:117-125 | ascending by timestamp, a permutation of the inclusive-range selection, every row of the key and inside the bounds |
| Store.SeriesStore.DeleteRows | vnpy_duckdb/duckdb_database.py:193-198 | the row table loses the key's rows, overviews unchanged |
| Store.SeriesStore.DeleteOverview | vnpy_duckdb/duckdb_database.py:200-205 | the key's overview is removed, rows unchanged |
| Store.SeriesStore.AllOverviews | vnpy_duckdb/duckdb_database.py:219-221 | every stored overview exactly once, with its key and value |
| Trader.LoadedBar | vnpy_duckdb/duckdb_database.py:422-437 | a loaded bar converts back to the row it was read from, and its gateway is "DB" |
| Trader.LoadedTick | vnpy_duckdb/duckdb_database.py:460-484 | a loaded tick converts back to the row it was read from, and its gateway is "DB" |
| Trader.LoadedBarOverview | vnpy_duckdb/duckdb_database.py:537-546 | the record carries the overview row's key and summary |
| Trader.LoadedTickOverview | vnpy_duckdb/duckdb_database.py:557-566 | the record carries the overview row's key and summary |
| Duckdb.SaveSeries | vnpy_duckdb/duckdb_database.py:282-321 | sort, MERGE, overview lookup, re-count in the existing branch, and upsert leave the tables in the state Saved gives. A single-key save keeps them consistent |
| Duckdb.DeleteSeries | vnpy_duckdb/duckdb_database.py:500-508 | returns the pre-delete count, leaves the state Deleted gives, and keeps consistency |
| Duckdb.DuckdbDatabase.constructor | vnpy_duckdb/duckdb_database.py:234-246 | `CREATE TABLE IF NOT EXISTS` keeps the catalogue's contents: the four tables hold exactly the rows and overviews already stored |
| Duckdb.DuckdbDatabase.SaveBarData | vnpy_duckdb/duckdb_database.py:248-323 | for a non-empty batch whose records all carry an interval: returns true, the bar tables become Saved of the converted batch, consistency is kept for a single-key batch, and the tick tables are untouched |
| Duckdb.DuckdbDatabase.SaveTickData | vnpy_duckdb/duckdb_database.py:325-398 | the same for ticks, keyed on (symbol, exchange), with the bar tables untouched |
| Duckdb.DuckdbDatabase.LoadBarData | vnpy_duckdb/duckdb_database.py:400-439 | the result is exactly (as a multiset of rows) the series' stored bars within [start, end]. They come in ascending datetime order, carry the requested key and gateway "DB", and the result is empty for an unknown series or start > end |
| Duckdb.DuckdbDatabase.LoadTickData | vnpy_duckdb/duckdb_database.py:441-486 | the same for ticks |
| Duckdb.DuckdbDatabase.DeleteBarData | vnpy_duckdb/duckdb_database.py:488-508 | returns the row count before deletion. Afterwards the series has no rows and no overview, consistency is kept, and the tick tables are untouched |
| Duckdb.DuckdbDatabase.DeleteTickData | vnpy_duckdb/duckdb_database.py:510-528 | the same for ticks |
| Duckdb.DuckdbDatabase.GetBarOverview | vnpy_duckdb/duckdb_database.py:530-548 | one record per stored bar overview, each with its stored key and summary, with no key repeated |
| Duckdb.DuckdbDatabase.GetTickOverview | vnpy_duckdb/duckdb_database.py:550-567 | one record per stored tick overview, each with its stored key and summary, with no key repeated |

## Left out

- Connection and catalogue setup are I/O against an external engine: the module-level connection, secrets and DuckLake attach (vnpy_duckdb/duckdb_database.py:16-19), the file-merge call at start-up (:227-229, :238), and the commit after every statement (:571-574).
- Table DDL and partitioning (:21-83) are left out. Only the key and column shape is modelled.
- The polars DataFrame and its replacement scan (:270-285) become a sorted sequence of rows.
- Time zones and timestamps: `convert_tz` (:261, :334) and `datetime.fromtimestamp(..., DB_TZ)` (:426, :464) are external library code. Timestamps are integers, and the conversion is the identity.
- Floating point: the FLOAT columns are carried as `real`. Rounding to single precision on write is not modelled.
- The adapter edits the caller's records in place (`__dict__`, `pop("gateway_name")`, `pop("vt_symbol")`, :263-267, :336-339). This is an object side effect and is not modelled. Only the written row is.
- The `stream` parameter (:248, :325) is unused by the code.
- `COUNT("close_price")` / `COUNT("last_price")` count only rows with a non-null price (:135, :187). Payloads are always present here, so the count is the number of rows of the series.
- Store.SeriesStore.SelectRange: within equal timestamps, the engine's output order is unspecified. The method fixes one order (stable insertion sort), and its contract states only ascending order and a permutation.
- The exchange and interval enumerations are wrapped strings. Rebuilding them from their stored `value` (:540-541) is therefore the identity. Unknown enum values (a `ValueError` in the platform) are not modelled.
- Tick-path defects are left out. The tick path mirrors the bar algorithm, and these defects are not modelled as crashes or wrong values:
  - `SAVE_TICKOVERVIEW_QUERY` selects `$interval` (:158), but the tick overview parameters supply no interval (:376-394).
  - `COUNT_TICK_QUERY` filters on an `interval` column the tick table does not have (:186-191). This affects the existing-contract branch (:385) and `delete_tick_data` (:521).
  - The existing-contract tick branch reads `row[4]`/`row[5]` (:391-392), while a tick overview row holds start and end at indices 3 and 4 (:76-82, :562-563).
  - `get_tick_overview` builds `BarOverview` records (:558). The model builds `TickOverview`.
- Atomicity and concurrency: the row MERGE, the overview read, the count and the overview MERGE are separate statements, each committed on its own. The model runs them in sequence with no interleaving.
- Empty batches: `bars[0]` raises on an empty list (:251, :327). The save operations require a non-empty batch rather than model the exception.
- Duckdb.DuckdbDatabase.SaveBarData: a bar whose `interval` is `None` makes `.value` raise (:254, :265, :291) before any write. The model carries the interval as an `Option` and requires every record to have one (`HasIntervals`) rather than model the exception.
- Duckdb.DuckdbDatabase.constructor: the source's instances all share the one module-level connection (:16, :236) and its persistent catalogue, so a write through one instance is seen by every other. The model gives each instance its own stores, initialised from the stored tables, and does not capture that sharing.
- Reconcile.NextOverview: the overview `count` column is a 32-bit `INTEGER` (:69, :79), so a batch size or re-count above 2147483647 makes the overview MERGE (:321, :396) fail. The model's count is an unbounded `nat`, and that failure is not modelled.
