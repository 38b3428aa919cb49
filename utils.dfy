/** The benchmark driver of lib/utils.py: record generation, the monthly
    partition cursor, the time-partitioned bulk loader, the chunked query
    runner and the insert-then-search consistency probe.

    Randomness (`uuid.uuid4`, `np.random.rand`), the wall clock (`time.time`,
    `perf_counter`) and `time.mktime` are parameters: the first three as
    functions of a draw number, `mktime` as a function of (year, month). */
module Utils {
  import opened Builtins

  type Uuid = string
  type Vector = seq<real>
  type Timestamp = real

  /** `time.mktime((year, month, 1, 12, 0, 0, 0, 0, 0))`: noon on the first day of the month. */
  type Mktime = (int, int) -> Timestamp

  /** The tuple `(id, vector, create_time, update_time, is_deleted)`. */
  datatype Record = Record(id: Uuid, vector: Vector, createTime: Timestamp, updateTime: Timestamp, isDeleted: int)

  /** The random and clock values drawn for the n-th generated record or query. */
  datatype Entropy = Entropy(uuid4: nat -> Uuid, randomVector: nat -> Vector, wallClock: nat -> Timestamp)

  // ---------------------------------------------------------------------------
  // generate_values
  // ---------------------------------------------------------------------------

  /** `generate_values(count, create_time)`, whose records take draws
      `draw`, `draw + 1`, ... of the entropy source. */
  function GenerateValues(count: int, createTime: Timestamp, env: Entropy, draw: nat): (values: seq<Record>)
    ensures |values| == Max0(count)
    ensures forall j :: 0 <= j < |values| ==> values[j].createTime == createTime && values[j].isDeleted == 0
    ensures forall j :: 0 <= j < |values| ==>
      values[j].id == env.uuid4(draw + j) &&
      values[j].vector == env.randomVector(draw + j) &&
      values[j].updateTime == env.wallClock(draw + j)
  {
    seq(Max0(count), j requires 0 <= j < Max0(count) =>
      Record(env.uuid4(draw + j), env.randomVector(draw + j), createTime, env.wallClock(draw + j), 0))
  }

  /** With collision-free UUIDs, one call never yields two records with the same id. */
  lemma GeneratedIdsDistinct(count: int, createTime: Timestamp, env: Entropy, draw: nat)
    requires forall a: nat, b: nat :: a != b ==> env.uuid4(a) != env.uuid4(b)
    ensures var values := GenerateValues(count, createTime, env, draw);
      forall j, l :: 0 <= j < l < |values| ==> values[j].id != values[l].id
  {
  }

  // ---------------------------------------------------------------------------
  // time_of_next_month
  // ---------------------------------------------------------------------------

  /** The partition cursor `(year, month, create_time)`. */
  datatype Partition = Partition(year: int, month: int, time: Timestamp)

  /** Months since January of year 0, the calendar order of (year, month). */
  function MonthIndex(year: int, month: int): int
  {
    12 * year + month - 1
  }

  /** `time_of_next_month(year, month)`: the following calendar month and its timestamp. */
  function TimeOfNextMonth(year: int, month: int, mktime: Mktime): (next: Partition)
    ensures MonthIndex(next.year, next.month) == MonthIndex(year, month) + 1
    ensures month == 12 ==> next.year == year + 1 && next.month == 1
    ensures month != 12 ==> next.year == year && next.month == month + 1
    ensures 0 <= month <= 12 ==> 1 <= next.month <= 12 && year <= next.year <= year + 1
    ensures next.time == mktime(next.year, next.month)
  {
    if month == 12 then Partition(year + 1, 1, mktime(year + 1, 1))
    else Partition(year, month + 1, mktime(year, month + 1))
  }

  lemma MonthIndexInverse(year: int, month: int)
    requires 1 <= month <= 12
    ensures MonthIndex(year, month) / 12 == year && MonthIndex(year, month) % 12 == month - 1
  {
  }

  /** The cursor reached from `start` by `k` further calls of time_of_next_month. */
  function Advance(start: Partition, k: nat, mktime: Mktime): Partition
  {
    if k == 0 then start
    else
      var p := Advance(start, k - 1, mktime);
      TimeOfNextMonth(p.year, p.month, mktime)
  }

  /** k advances move the cursor k months forward in the calendar. */
  lemma {:induction false} AdvanceCalendar(start: Partition, k: nat, mktime: Mktime)
    requires 1 <= start.month <= 12
    ensures var p := Advance(start, k, mktime);
      p.year == (MonthIndex(start.year, start.month) + k) / 12 &&
      p.month == (MonthIndex(start.year, start.month) + k) % 12 + 1 &&
      (k > 0 ==> p.time == mktime(p.year, p.month))
  {
    var idx := MonthIndex(start.year, start.month);
    if k == 0 {
      MonthIndexInverse(start.year, start.month);
    } else {
      AdvanceCalendar(start, k - 1, mktime);
      var p := Advance(start, k - 1, mktime);
      assert MonthIndex(p.year, p.month) == idx + k - 1;
      var q := Advance(start, k, mktime);
      MonthIndexInverse(q.year, q.month);
    }
  }

  /** The loader's first cursor is January 2000, and twelve advances later it is January 2001. */
  lemma EpochCursor(mktime: Mktime)
    ensures TimeOfNextMonth(2000, 0, mktime) == Partition(2000, 1, mktime(2000, 1))
    ensures var later := Advance(TimeOfNextMonth(2000, 0, mktime), 12, mktime);
      later.year == 2001 && later.month == 1 && later.time == mktime(2001, 1)
  {
    AdvanceCalendar(TimeOfNextMonth(2000, 0, mktime), 12, mktime);
  }

  // ---------------------------------------------------------------------------
  // run_insert: the specification
  // ---------------------------------------------------------------------------

  /** The guard `i > 0 and i % partition_size == 0` on batch start `i`, for the
      case where it does not raise. Python's floored `%` and Dafny's Euclidean
      `%` are zero for the same operands. */
  predicate AdvancesAt(i: int, partitionSize: int)
  {
    i > 0 && partitionSize != 0 && i % partitionSize == 0
  }

  /** The cursor in force for the batch with index k (starting at offset k * batchSize). */
  function CursorBefore(k: nat, batchSize: int, partitionSize: int, mktime: Mktime): Partition
  {
    if k == 0 then TimeOfNextMonth(2000, 0, mktime)
    else
      var c := CursorBefore(k - 1, batchSize, partitionSize, mktime);
      if AdvancesAt(k * batchSize, partitionSize) then TimeOfNextMonth(c.year, c.month, mktime) else c
  }

  /** How many of the batch starts 1..k advance the cursor. */
  function AdvanceCount(k: nat, batchSize: int, partitionSize: int): nat
  {
    if k == 0 then 0
    else AdvanceCount(k - 1, batchSize, partitionSize) + (if AdvancesAt(k * batchSize, partitionSize) then 1 else 0)
  }

  /** The records handed to the insert callback for the batch with index k. */
  function LoadBatch(k: nat, batchSize: int, partitionSize: int, mktime: Mktime, env: Entropy): seq<Record>
  {
    GenerateValues(batchSize, CursorBefore(k, batchSize, partitionSize, mktime).time, env, k * Max0(batchSize))
  }

  /** How many batches are inserted before the loop ends or raises: with a
      zero partition size, the guard of the second batch divides by zero. */
  function BatchesRun(total: int, batchSize: int, partitionSize: int): (n: nat)
    requires batchSize != 0
    ensures n <= RangeLen(total, batchSize)
    ensures n < RangeLen(total, batchSize) ==> n == 1
    ensures n < RangeLen(total, batchSize) <==> batchSize > 0 && partitionSize == 0 && RangeLen(total, batchSize) > 1
  {
    var n := RangeLen(total, batchSize);
    if batchSize > 0 && partitionSize == 0 && n > 1 then 1 else n
  }

  /** The batches `run_insert` hands to the insert callback, in order. */
  function InsertLog(total: int, batchSize: int, partitionSize: int, mktime: Mktime, env: Entropy): seq<seq<Record>>
  {
    if batchSize == 0 then []
    else
      seq(BatchesRun(total, batchSize, partitionSize), k requires 0 <= k =>
        LoadBatch(k, batchSize, partitionSize, mktime, env))
  }

  /** How `run_insert` ends. */
  function InsertStatus(total: int, batchSize: int, partitionSize: int): (r: Result<()>)
    ensures batchSize == 0 ==> r == Raised(ValueError)
    ensures r.Ok? <==> batchSize != 0 && (batchSize < 0 || partitionSize != 0 || RangeLen(total, batchSize) <= 1)
    ensures r.Raised? && batchSize != 0 ==> r == Raised(ZeroDivisionError)
  {
    if batchSize == 0 then Raised(ValueError)
    else if BatchesRun(total, batchSize, partitionSize) < RangeLen(total, batchSize) then Raised(ZeroDivisionError)
    else Ok(())
  }

  // ---------------------------------------------------------------------------
  // run_insert: the loop
  // ---------------------------------------------------------------------------

  /** `run_insert(total, batch_size, partition_size, insert_func)`. The insert
      callback is modelled by `inserted`, the batches it received in order;
      batches inserted before an exception stay inserted. */
  method RunInsert(total: int, batchSize: int, partitionSize: int, mktime: Mktime, env: Entropy)
    returns (inserted: seq<seq<Record>>, status: Result<()>)
    ensures inserted == InsertLog(total, batchSize, partitionSize, mktime, env)
    ensures status == InsertStatus(total, batchSize, partitionSize)
  {
    var cursor := TimeOfNextMonth(2000, 0, mktime);
    inserted := [];
    if batchSize == 0 {
      status := Raised(ValueError);
      return;
    }
    var n := RangeLen(total, batchSize);
    var k := 0;
    var i := 0;
    while k < n
      invariant 0 <= k <= n
      invariant i == k * batchSize
      invariant cursor == CursorBefore(if k == 0 then 0 else k - 1, batchSize, partitionSize, mktime)
      invariant |inserted| == k
      invariant forall j :: 0 <= j < k ==> inserted[j] == LoadBatch(j, batchSize, partitionSize, mktime, env)
      invariant k > 1 ==> batchSize < 0 || partitionSize != 0
    {
      if i > 0 {
        if partitionSize == 0 {
          status := Raised(ZeroDivisionError);
          return;
        }
        if i % partitionSize == 0 {
          cursor := TimeOfNextMonth(cursor.year, cursor.month, mktime);
        }
      }
      var values := GenerateValues(batchSize, cursor.time, env, k * Max0(batchSize));
      inserted := inserted + [values];
      k := k + 1;
      i := i + batchSize;
    }
    status := Ok(());
  }

  // ---------------------------------------------------------------------------
  // run_insert: properties of the schedule
  // ---------------------------------------------------------------------------

  /** Total number of records in a sequence of batches. */
  function RecordCount(log: seq<seq<Record>>): nat
  {
    if log == [] then 0 else RecordCount(log[..|log| - 1]) + |log[|log| - 1]|
  }

  lemma {:induction false} RecordCountUniform(log: seq<seq<Record>>, size: nat)
    requires forall k :: 0 <= k < |log| ==> |log[k]| == size
    ensures RecordCount(log) == |log| * size
  {
    if log != [] {
      RecordCountUniform(log[..|log| - 1], size);
    }
  }

  /** With a positive batch size (and no zero partition size to fault on),
      the loader issues one insert per start offset 0, b, 2b, ... below
      `total`, ceil(total / b) of them, each with exactly b records: the last
      batch is not shortened, so at least `total` records are produced. */
  lemma LoadCoversTotal(total: int, batchSize: int, partitionSize: int, mktime: Mktime, env: Entropy)
    requires batchSize > 0
    requires partitionSize != 0 || total <= batchSize
    ensures var log := InsertLog(total, batchSize, partitionSize, mktime, env);
      |log| == RangeLen(total, batchSize) &&
      InsertStatus(total, batchSize, partitionSize) == Ok(()) &&
      (forall k :: 0 <= k < |log| ==> k * batchSize < total && |log[k]| == batchSize) &&
      |log| * batchSize >= total &&
      (|log| > 0 ==> (|log| - 1) * batchSize < total) &&
      RecordCount(log) == |log| * batchSize
  {
    var log := InsertLog(total, batchSize, partitionSize, mktime, env);
    RangeCeiling(total, batchSize);
    if partitionSize == 0 {
      assert RangeLen(total, batchSize) <= 1 by {
        if RangeLen(total, batchSize) > 1 {
          PositiveRangeMembers(total, batchSize, 1);
        }
      }
    }
    forall k | 0 <= k < |log|
      ensures k * batchSize < total
    {
      PositiveRangeMembers(total, batchSize, k);
    }
    RecordCountUniform(log, batchSize);
  }

  lemma DrawsDistinct(k1: nat, j1: nat, k2: nat, j2: nat, b: nat)
    requires j1 < b && j2 < b && (k1 != k2 || j1 != j2)
    ensures k1 * b + j1 != k2 * b + j2
  {
    if k1 < k2 {
      MulMonotone(k1 + 1, k2, b);
    } else if k2 < k1 {
      MulMonotone(k2 + 1, k1, b);
    }
  }

  /** With collision-free UUIDs, no two records of a whole load share an id:
      batch k draws k * b .. k * b + b - 1, so draws never repeat across batches. */
  lemma InsertedIdsDistinct(total: int, batchSize: int, partitionSize: int, mktime: Mktime, env: Entropy)
    requires forall a: nat, b: nat :: a != b ==> env.uuid4(a) != env.uuid4(b)
    ensures var log := InsertLog(total, batchSize, partitionSize, mktime, env);
      forall k1, j1, k2, j2 ::
        (0 <= k1 < |log| && 0 <= j1 < |log[k1]| && 0 <= k2 < |log| && 0 <= j2 < |log[k2]| &&
         (k1 != k2 || j1 != j2)) ==> log[k1][j1].id != log[k2][j2].id
  {
    var log: seq<seq<Record>> := InsertLog(total, batchSize, partitionSize, mktime, env);
    forall k1: int, j1: int, k2: int, j2: int |
      0 <= k1 < |log| && 0 <= j1 < |log[k1]| && 0 <= k2 < |log| && 0 <= j2 < |log[k2]| &&
      (k1 != k2 || j1 != j2)
      ensures log[k1][j1].id != log[k2][j2].id
    {
      DrawsDistinct(k1, j1, k2, j2, Max0(batchSize));
    }
  }

  /** The cursor of batch k sits AdvanceCount(k) months after January 2000,
      so its month stays in 1..12 and its timestamp is that month's; every
      record of the batch carries that timestamp as its create_time. */
  lemma {:induction false} CursorCalendar(k: nat, batchSize: int, partitionSize: int, mktime: Mktime, env: Entropy)
    ensures var c := CursorBefore(k, batchSize, partitionSize, mktime);
      var idx := MonthIndex(2000, 1) + AdvanceCount(k, batchSize, partitionSize);
      c.year == idx / 12 && c.month == idx % 12 + 1 && 1 <= c.month <= 12 &&
      c.time == mktime(c.year, c.month) &&
      forall r :: r in LoadBatch(k, batchSize, partitionSize, mktime, env) ==> r.createTime == c.time
  {
    if k == 0 {
      MonthIndexInverse(2000, 1);
    } else {
      CursorCalendar(k - 1, batchSize, partitionSize, mktime, env);
      var c := CursorBefore(k, batchSize, partitionSize, mktime);
      MonthIndexInverse(c.year, c.month);
    }
  }

  /** The cursor changes between consecutive batches exactly when the
      advance guard holds at the later batch's start offset. */
  lemma CursorMovesOnlyAtBoundaries(k: nat, batchSize: int, partitionSize: int, mktime: Mktime)
    requires k > 0
    ensures CursorBefore(k, batchSize, partitionSize, mktime) != CursorBefore(k - 1, batchSize, partitionSize, mktime)
      <==> AdvancesAt(k * batchSize, partitionSize)
  {
  }

  lemma ScaledModZero(k: nat, m: int, b: int)
    requires m > 0 && b > 0
    ensures (k * b) % (m * b) == 0 <==> k % m == 0
    ensures (k * b) / (m * b) == k / m
  {
    var q, r := k / m, k % m;
    assert k * b == q * (m * b) + r * b;
    MulMonotone(r, m - 1, b);
    assert (m - 1) * b == m * b - b;
    DivModUnique(k * b, m * b, q, r * b);
    if r > 0 {
      MulMonotone(1, r, b);
    }
  }

  lemma DivStep(k: nat, m: int)
    requires k > 0 && m > 0
    ensures k / m == (k - 1) / m + (if k % m == 0 then 1 else 0)
  {
    var q, r := (k - 1) / m, (k - 1) % m;
    if r + 1 < m {
      DivModUnique(k, m, q, r + 1);
    } else {
      DivModUnique(k, m, q + 1, 0);
    }
  }

  /** When the partition size is a multiple of the batch size, the cursor
      advances once per `partitionSize` records: before batch k, after
      k * batchSize records, it has advanced (k * batchSize) / partitionSize times. */
  lemma {:induction false} PartitionPerRecords(k: nat, batchSize: int, partitionSize: int)
    requires batchSize > 0 && partitionSize > 0 && partitionSize % batchSize == 0
    ensures AdvanceCount(k, batchSize, partitionSize) == (k * batchSize) / partitionSize
  {
    var m := partitionSize / batchSize;
    assert partitionSize == m * batchSize;
    assert m > 0;
    AdvanceCountMultiple(k, batchSize, m);
    ScaledModZero(k, m, batchSize);
  }

  lemma {:induction false} AdvanceCountMultiple(k: nat, batchSize: int, m: int)
    requires batchSize > 0 && m > 0
    ensures AdvanceCount(k, batchSize, m * batchSize) == k / m
  {
    if k > 0 {
      AdvanceCountMultiple(k - 1, batchSize, m);
      ScaledModZero(k, m, batchSize);
      DivStep(k, m);
      assert k * batchSize > 0 by {
        MulMonotone(1, k, batchSize);
      }
    }
  }

  /** total = 25, batch = 10, partition = 10: three full batches of ten
      records, in partitions 2000-01, 2000-02 and 2000-03. */
  lemma Load25By10(mktime: Mktime, env: Entropy)
    ensures var log := InsertLog(25, 10, 10, mktime, env);
      |log| == 3 && RecordCount(log) == 30 && InsertStatus(25, 10, 10) == Ok(()) &&
      CursorBefore(0, 10, 10, mktime) == Partition(2000, 1, mktime(2000, 1)) &&
      CursorBefore(1, 10, 10, mktime) == Partition(2000, 2, mktime(2000, 2)) &&
      CursorBefore(2, 10, 10, mktime) == Partition(2000, 3, mktime(2000, 3))
  {
    LoadCoversTotal(25, 10, 10, mktime, env);
    assert RangeLen(25, 10) == 3;
  }

  /** When the partition size is not a multiple of the batch size the
      boundary is only seen at batch starts: batch = 10, partition = 25
      advances first at offset 50, not after 25 records. */
  lemma SubBatchBoundaryDrift()
    ensures AdvanceCount(2, 10, 25) == 0 && AdvanceCount(4, 10, 25) == 0 && AdvanceCount(5, 10, 25) == 1
  {
  }

  // ---------------------------------------------------------------------------
  // run_query
  // ---------------------------------------------------------------------------

  /** How `run_query` ends: range() refuses a zero batch, and the statistics
      step refuses an empty sample list. */
  function QueryStatus(count: int, batch: int): (r: Result<()>)
    ensures batch == 0 ==> r == Raised(ValueError)
    ensures r.Ok? <==> count > 0 && batch > 0
    ensures r.Raised? && batch != 0 ==> r == Raised(EmptyStatistics)
  {
    if batch == 0 then Raised(ValueError)
    else
      var samples := RangeLen(count, batch) * Max0(batch);
      assert batch > 0 ==> (samples > 0 <==> count > 0) by {
        if batch > 0 {
          RangeCeiling(count, batch);
          if RangeLen(count, batch) > 0 {
            MulMonotone(1, RangeLen(count, batch), batch);
          }
        }
      }
      if samples == 0 then Raised(EmptyStatistics) else Ok(())
  }

  /** `run_query(count, batch, query_func)`: chunks of `batch` queries run
      one after the other. Query q (counted over the whole run) searches for
      draw q of the random vectors and takes `elapsed(q)` seconds; a chunk is
      one step that yields its samples in issue order. */
  method RunQuery(count: int, batch: int, env: Entropy, elapsed: nat -> real)
    returns (chunks: nat, issued: seq<Vector>, allSeconds: seq<real>, status: Result<()>)
    ensures batch == 0 ==> chunks == 0
    ensures batch != 0 ==> chunks == RangeLen(count, batch)
    ensures |issued| == |allSeconds| == chunks * Max0(batch)
    ensures forall q :: 0 <= q < |allSeconds| ==> issued[q] == env.randomVector(q) && allSeconds[q] == elapsed(q)
    ensures status == QueryStatus(count, batch)
  {
    chunks, issued, allSeconds := 0, [], [];
    if batch == 0 {
      status := Raised(ValueError);
      return;
    }
    var n := RangeLen(count, batch);
    while chunks < n
      invariant chunks <= n
      invariant |issued| == |allSeconds| == chunks * Max0(batch)
      invariant forall q :: 0 <= q < |allSeconds| ==> issued[q] == env.randomVector(q) && allSeconds[q] == elapsed(q)
    {
      var first := |allSeconds|;
      var crs: seq<Vector> := [];
      var j := 0;
      while j < batch
        invariant 0 <= j <= Max0(batch)
        invariant |crs| == j
        invariant forall l :: 0 <= l < j ==> crs[l] == env.randomVector(first + l)
      {
        crs := crs + [env.randomVector(first + j)];
        j := j + 1;
      }
      var seconds := seq(|crs|, l requires 0 <= l < |crs| => elapsed(first + l));
      issued := issued + crs;
      allSeconds := allSeconds + seconds;
      chunks := chunks + 1;
    }
    status := QueryStatus(count, batch);
  }

  /** count = 10, batch = 5 runs 2 chunks and collects 10 samples;
      count = 10, batch = 3 runs 4 chunks and issues 12 queries, more than count. */
  lemma QueryChunkExamples()
    ensures RangeLen(10, 5) == 2 && RangeLen(10, 5) * Max0(5) == 10
    ensures RangeLen(10, 3) == 4 && RangeLen(10, 3) * Max0(3) == 12
  {
  }

  // ---------------------------------------------------------------------------
  // run_insert_query
  // ---------------------------------------------------------------------------

  /** `run_insert_query(insert_func, query_func, result_func)`: insert one
      fresh record stamped `now`, search with its own vector and scan the
      returned ids for it, stopping at the first match. `search` stands for
      `result_func(query_func(vector))`; `examined` counts the ids looked at. */
  method RunInsertQuery(env: Entropy, draw: nat, now: Timestamp, search: Vector -> seq<Uuid>)
    returns (inserted: seq<Record>, found: bool, examined: nat)
    ensures inserted == GenerateValues(1, now, env, draw)
    ensures |inserted| == 1
    ensures var ids := search(inserted[0].vector);
      examined <= |ids| &&
      (found <==> inserted[0].id in ids) &&
      (found ==> examined > 0 && ids[examined - 1] == inserted[0].id && inserted[0].id !in ids[..examined - 1]) &&
      (!found ==> examined == |ids|)
  {
    inserted := GenerateValues(1, now, env, draw);
    var id, vector := inserted[0].id, inserted[0].vector;
    var ids := search(vector);
    found := false;
    examined := 0;
    while examined < |ids|
      invariant examined <= |ids|
      invariant id !in ids[..examined]
    {
      var pointId := ids[examined];
      examined := examined + 1;
      if pointId == id {
        found := true;
        break;
      }
    }
    assert !found ==> ids[..examined] == ids;
  }
}
