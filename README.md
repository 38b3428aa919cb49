# Vector-database benchmark driver, modelled in Dafny

The benchmark harness generates synthetic embedding records, bulk-loads them
into a vector backend (Qdrant or ClickHouse) under monthly time partitions,
issues chunked batches of nearest-neighbour queries and probes whether a
just-inserted record is found by a search. This project models the integer
and control-flow core of that driver and proves what it does:

- `builtins.dfy`, module `Builtins`: the Python behaviour the driver relies on.
  This covers `len(range(0, stop, step))` for either sign of step and `len(range(n))`.
  It also covers the exceptions the driver can raise and the division facts the proofs need.
- `utils.dfy`, module `Utils`: `lib/utils.py`.
  - `generate_values` and `time_of_next_month` are pure functions.
  - `run_insert`, `run_query` and `run_insert_query` are methods with loops.
    `run_insert` and `run_query` are proved against specification functions, and lemmas state
    the properties of those functions. `run_insert_query` states its found/not-found promise
    directly in its postcondition.
- `cli.dfy`, module `Cli`: `main.py`.
  - The group callback mutates the click context's dictionary. It is a method that takes the `Context` object.
  - `get_impl` is a pure selection over that dictionary.
  - `load` and `query` clamp or forward their options and call the driver.
  - `Invoke` runs the group callback and then one subcommand, which is how click runs them.

Randomness and clocks are parameters. UUIDs, random vectors and `time.time()` values come from an
`Entropy` value: one function per source, indexed by the draw number. `time.mktime` is a function
of (year, month). Per-query elapsed times are a function of the query number. The insert callback
is modelled by the sequence of batches it receives, in order. The search callback composed with
the id extractor is modelled as a function from a vector to a sequence of ids.

Integers follow Python semantics:

- `range` with a zero step raises `ValueError`.
- `i % 0` raises `ZeroDivisionError`. It is only evaluated for `i > 0` because `and` short-circuits.
- A negative count gives an empty `range(count)`.

Behaviour of the code that the model keeps:

- Every insert gets `batch_size` records, including the last one, so a load writes
  ceil(total / batch_size) × batch_size records.
- `main.py` wires only the `init`, `load` and `query` commands. `run_insert_query` is reachable
  only through the adapters' `insert_and_query`.
- Nothing validates `count`, `batch` or `partition`. `load --count 0` with a positive batch (the default 1000)
  clamps it to 0, and `range` then raises `ValueError`. A zero partition size raises `ZeroDivisionError` at the second
  batch, after the first batch has been inserted.

## Model

| member | source | states |
|---|---|---|
| `Builtins.RangeMembers` | lib/utils.py:69-70 | index k is one of the loop's iterations exactly when k·step lies before `stop` on the side the step moves towards |
| `Builtins.RangeCeiling` | lib/utils.py:45 | a positive-step range has ceil(stop/step) elements: its last start is below `stop` and one more step reaches it |
| `Utils.GenerateValues` | lib/utils.py:15-25 | `count` records (none for a negative count), all stamped with the given `create_time` and `is_deleted == 0`, with id, vector and update time taken from consecutive draws |
| `Utils.GeneratedIdsDistinct` | lib/utils.py:16-25 | with collision-free UUIDs, the records of one call have pairwise distinct ids |
| `Utils.InsertedIdsDistinct` | lib/utils.py:67-78 | with collision-free UUIDs, no two records of a whole load share an id: the draws of different batches never overlap |
| `Utils.TimeOfNextMonth` | lib/utils.py:28-34 | month 12 gives January of the next year, and any other month m gives month m + 1 of the same year, so the result is one month index later and months 0..12 map into 1..12. The timestamp is `mktime` of the new (year, month) |
| `Utils.AdvanceCalendar` | lib/utils.py:28-34 | k successive advances from a valid month land k months later: year = index / 12, month = index % 12 + 1 |
| `Utils.EpochCursor` | lib/utils.py:68 | the initial cursor `time_of_next_month(2000, 0)` is January 2000, and twelve advances give January 2001 |
| `Utils.BatchesRun` | lib/utils.py:69-72 | every iteration of the range runs, except that with a positive batch and a zero partition size only the first batch runs before `i % 0` raises |
| `Utils.InsertStatus` | lib/utils.py:69-72 | the load ends normally iff the batch size is non-zero and no `i % 0` is reached. A zero batch raises ValueError and a zero partition size raises ZeroDivisionError |
| `Utils.RunInsert` | lib/utils.py:67-78 | the loop hands the insert callback exactly the batches of the schedule (`InsertLog`), in order, and ends with `InsertStatus` |
| `Utils.LoadCoversTotal` | lib/utils.py:69-74 | for a positive batch size b there are ceil(total/b) inserts, one per start offset k·b < total. Each insert has exactly b records, so calls × b ≥ total records are written |
| `Utils.CursorCalendar` | lib/utils.py:68-74 | the cursor of batch k is AdvanceCount(k) months after January 2000. Its month stays in 1..12 and its timestamp is that month's, and every record of the batch carries it |
| `Utils.CursorMovesOnlyAtBoundaries` | lib/utils.py:71-72 | the cursor differs between batches k−1 and k exactly when the start offset k·b satisfies `i > 0 and i % partition_size == 0` |
| `Utils.PartitionPerRecords` | lib/utils.py:70-72 | when the partition size is a multiple of the batch size, the cursor has advanced (records loaded) / partition_size times before each batch |
| `Utils.Load25By10` | lib/utils.py:67-78 | total 25, batch 10, partition 10: three inserts of 10 records (30 in all), in partitions 2000-01, 2000-02, 2000-03 |
| `Utils.SubBatchBoundaryDrift` | lib/utils.py:70-72 | batch 10, partition 25: no advance until offset 50, because boundaries are only checked at batch starts |
| `Utils.QueryStatus` | lib/utils.py:45-61 | the query run succeeds iff count > 0 and batch > 0. A zero batch raises ValueError from `range`, and an empty sample list makes the statistics step raise |
| `Utils.RunQuery` | lib/utils.py:37-51 | ceil(count/batch) chunks run sequentially and each issues `batch` queries. `all_seconds` grows by `batch` samples per chunk, in issue order, to chunks × batch |
| `Utils.QueryChunkExamples` | lib/utils.py:45-51 | count 10 / batch 5 runs 2 chunks and collects 10 samples. count 10 / batch 3 runs 4 chunks and issues 12 queries, more than count |
| `Utils.RunInsertQuery` | lib/utils.py:81-93 | one record stamped `now` is inserted and searched for by its own vector. Found is reported iff its id occurs among the returned ids. The scan stops at the first match and looks at no later id |
| `Cli.FlagCheck` | main.py:22-25 | accepted iff exactly one backend flag is set. Both flags set gives "You can't use both qdrant and clickhouse", and neither gives "You must use qdrant or clickhouse" |
| `Cli.Cli` | main.py:15-25 | the four options are stored in the context dictionary, which is created if absent, and then the flags are validated |
| `Cli.GetImpl` | main.py:28-36 | Qdrant if its flag is truthy, otherwise ClickHouse if its flag is, otherwise the "must use" error. An empty URL gets the backend's default, and a non-empty URL and the database pass through. Missing keys raise KeyError |
| `Cli.SelectionAfterCli` | main.py:15-36 | after an accepted callback the backend is the one whose flag is set. The URL is `http://127.0.0.1:6333` or `http://127.0.0.1:18123` when empty, and the database name is unchanged |
| `Cli.Load` | main.py:51-57 | batch and partition are clamped to at most count, and values already ≤ count are unchanged. The selected backend then runs the loader on the clamped values. count 0 with a non-negative batch raises ValueError |
| `Cli.Query` | main.py:64-66 | the selected backend runs the query runner with the options unchanged |
| `Cli.Invoke` | main.py:9-66 | a rejected flag combination returns the error before any backend work: no insert, no query. Otherwise the subcommand runs with the stored options |

## Left out

- Vector normalisation (`make_normalized_random_vector`), all floating point and the 1536 dimensions: vectors are opaque values drawn from the entropy source.
- The numpy statistics (mean, std, percentiles, min, max) and the qps figure: only their failure on an empty sample list is modelled.
- `perf_counter` timing: elapsed times are an abstract function of the query number.
- asyncio concurrency: each query chunk is one atomic step yielding its samples in issue order. The `wait_for(..., timeout=1000)` deadline is not modelled.
- `time.mktime`'s local-time conversion and its OverflowError for years out of range: mktime is an uninterpreted parameter.
- tqdm progress descriptions and all printed output.
- The backend adapters in lib/qdrant.py, lib/clickhouse.py and lib/weaviate.py are not part of this model. They are I/O over client libraries. Their insert and search callbacks are abstract, and the ClickHouse and Qdrant `load`/`query` methods forward to the driver identically.
- The `init` command (schema provisioning in the adapters) and adapter `close`.
- click's option parsing and defaults (count 1000000, batch 1000, partition 10000; query count 10, batch 1): options are parameters of `Command`.
- `ensure_object`'s search of parent contexts.
- The insert and search callbacks are assumed to return normally. In the code, an exception from `insert_func` (lib/utils.py:78) ends `run_insert` with the earlier batches already inserted. An exception from `query_func` (lib/utils.py:40, surfaced by `gather` at line 50) ends `run_query`. One from the insert or search in `run_insert_query` (lines 83 and 85) ends the probe. The model's insert logs, chunk counts and `LoadCoversTotal` hold only for runs whose callbacks all return.
- Utils.RunInsertQuery: does not model whether the search sees the just-inserted record, which depends on the backend.
- Cli.GetImpl: the contract says a KeyError names a key missing from the dictionary. It does not say that this is the first missing key in the lookup order URL, DATABASE, QDRANT, CLICKHOUSE, which the definition follows.
- Cli.Query: the contract does not restate the chunk count. That count is stated by `Utils.RunQuery`.
