/** The command-line driver of main.py: the group callback that records the
    global options in the click context and validates the backend flags,
    backend selection with default URLs, and the `load` and `query`
    commands, which clamp their arguments and hand over to the driver. */
module Cli {
  import opened Builtins
  import opened Utils

  /** A value stored in the context dictionary: a flag or a string option. */
  datatype Setting = Flag(on: bool) | Text(text: string)

  /** Python truthiness, as used by `if ctx.obj[...]` and `url or default`. */
  predicate Truthy(s: Setting)
  {
    match s
    case Flag(on) => on
    case Text(text) => text != ""
  }

  /** Python's `s or default`. */
  function OrDefault(s: Setting, default: string): Setting
  {
    if Truthy(s) then s else Text(default)
  }

  datatype Kind = Qdrant | ClickHouse

  /** A backend adapter as constructed by `get_impl`: its kind, URL and database/collection name. */
  datatype Impl = Impl(kind: Kind, url: Setting, database: Setting)

  const QdrantDefaultUrl := "http://127.0.0.1:6333"
  const ClickHouseDefaultUrl := "http://127.0.0.1:18123"
  const BothMessage := "You can't use both qdrant and clickhouse"
  const NeitherMessage := "You must use qdrant or clickhouse"

  function DefaultUrl(kind: Kind): string
  {
    match kind
    case Qdrant => QdrantDefaultUrl
    case ClickHouse => ClickHouseDefaultUrl
  }

  /** The click context; `obj` is None until `ensure_object(dict)` creates the dictionary. */
  class Context {
    var obj: Option<map<string, Setting>>

    constructor ()
      ensures obj == None
    {
      obj := None;
    }
  }

  /** The dictionary after the group callback stored the four global options in it. */
  function CliSettings(base: map<string, Setting>, qdrant: bool, clickhouse: bool, url: string, database: string): map<string, Setting>
  {
    base["QDRANT" := Flag(qdrant)]["CLICKHOUSE" := Flag(clickhouse)]["URL" := Text(url)]["DATABASE" := Text(database)]
  }

  /** The backend-flag validation of the group callback. */
  function FlagCheck(qdrant: bool, clickhouse: bool): (r: Result<()>)
    ensures r.Ok? <==> qdrant != clickhouse
    ensures r.Raised? ==> r == Raised(ClickException(if qdrant then BothMessage else NeitherMessage))
  {
    if qdrant && clickhouse then Raised(ClickException(BothMessage))
    else if !qdrant && !clickhouse then Raised(ClickException(NeitherMessage))
    else Ok(())
  }

  /** The group callback `cli(ctx, qdrant, clickhouse, url, database)`: the
      options are stored before the flags are validated. */
  method Cli(ctx: Context, qdrant: bool, clickhouse: bool, url: string, database: string) returns (status: Result<()>)
    modifies ctx
    ensures ctx.obj == Some(CliSettings(if old(ctx.obj).Some? then old(ctx.obj).value else map[], qdrant, clickhouse, url, database))
    ensures status == FlagCheck(qdrant, clickhouse)
  {
    if ctx.obj.None? {
      ctx.obj := Some(map[]);
    }
    ctx.obj := Some(ctx.obj.value["QDRANT" := Flag(qdrant)]);
    ctx.obj := Some(ctx.obj.value["CLICKHOUSE" := Flag(clickhouse)]);
    ctx.obj := Some(ctx.obj.value["URL" := Text(url)]);
    ctx.obj := Some(ctx.obj.value["DATABASE" := Text(database)]);
    if qdrant && clickhouse {
      return Raised(ClickException(BothMessage));
    }
    if !qdrant && !clickhouse {
      return Raised(ClickException(NeitherMessage));
    }
    return Ok(());
  }

  /** `get_impl(ctx)` over the context dictionary: keys are read in the
      order URL, DATABASE, QDRANT, CLICKHOUSE, a missing one raising KeyError. */
  function GetImpl(obj: map<string, Setting>): (r: Result<Impl>)
    ensures r.Ok? <==>
      "URL" in obj && "DATABASE" in obj && "QDRANT" in obj &&
      (Truthy(obj["QDRANT"]) || ("CLICKHOUSE" in obj && Truthy(obj["CLICKHOUSE"])))
    ensures r.Ok? ==>
      (r.value.kind == Qdrant <==> Truthy(obj["QDRANT"])) &&
      r.value.database == obj["DATABASE"] &&
      (Truthy(obj["URL"]) ==> r.value.url == obj["URL"]) &&
      (!Truthy(obj["URL"]) ==> r.value.url == Text(DefaultUrl(r.value.kind)))
    ensures r.Raised? && r.error.KeyError? ==> r.error.key !in obj
    ensures r.Raised? && !r.error.KeyError? ==> r == Raised(ClickException(NeitherMessage))
    ensures "URL" !in obj ==> r == Raised(KeyError("URL"))
  {
    if "URL" !in obj then Raised(KeyError("URL"))
    else if "DATABASE" !in obj then Raised(KeyError("DATABASE"))
    else if "QDRANT" !in obj then Raised(KeyError("QDRANT"))
    else if Truthy(obj["QDRANT"]) then Ok(Impl(Qdrant, OrDefault(obj["URL"], QdrantDefaultUrl), obj["DATABASE"]))
    else if "CLICKHOUSE" !in obj then Raised(KeyError("CLICKHOUSE"))
    else if Truthy(obj["CLICKHOUSE"]) then Ok(Impl(ClickHouse, OrDefault(obj["URL"], ClickHouseDefaultUrl), obj["DATABASE"]))
    else Raised(ClickException(NeitherMessage))
  }

  /** Once the group callback has accepted the flags, `get_impl` picks the
      backend whose flag is set, fills in its default URL for an empty one
      and passes a non-empty URL and the database name through. */
  lemma SelectionAfterCli(base: map<string, Setting>, qdrant: bool, clickhouse: bool, url: string, database: string)
    requires FlagCheck(qdrant, clickhouse).Ok?
    ensures var kind := if qdrant then Qdrant else ClickHouse;
      GetImpl(CliSettings(base, qdrant, clickhouse, url, database))
        == Ok(Impl(kind, Text(if url == "" then DefaultUrl(kind) else url), Text(database)))
  {
  }

  /** The `load` command: `batch` and `partition` are clamped to `count`
      before the selected backend runs the bulk loader. */
  method Load(ctx: Context, count: int, batch: int, partition: int, mktime: Mktime, env: Entropy)
    returns (batchUsed: int, partitionUsed: int, impl: Result<Impl>, inserted: seq<seq<Record>>, status: Result<()>)
    requires ctx.obj.Some?
    ensures batchUsed <= count && partitionUsed <= count
    ensures batch <= count ==> batchUsed == batch
    ensures batch > count ==> batchUsed == count
    ensures partition <= count ==> partitionUsed == partition
    ensures partition > count ==> partitionUsed == count
    ensures impl == GetImpl(ctx.obj.value)
    ensures impl.Raised? ==> inserted == [] && status == Raised(impl.error)
    ensures impl.Ok? ==>
      inserted == InsertLog(count, batchUsed, partitionUsed, mktime, env) &&
      status == InsertStatus(count, batchUsed, partitionUsed)
    ensures impl.Ok? && count == 0 && batch >= 0 ==> inserted == [] && status == Raised(ValueError)
  {
    batchUsed, partitionUsed := batch, partition;
    if batchUsed > count {
      batchUsed := count;
    }
    if partitionUsed > count {
      partitionUsed := count;
    }
    impl := GetImpl(ctx.obj.value);
    if impl.Raised? {
      inserted, status := [], Raised(impl.error);
      return;
    }
    inserted, status := RunInsert(count, batchUsed, partitionUsed, mktime, env);
  }

  /** The `query` command: the selected backend runs the query runner. */
  method Query(ctx: Context, count: int, batch: int, env: Entropy, elapsed: nat -> real)
    returns (impl: Result<Impl>, issued: seq<Vector>, allSeconds: seq<real>, status: Result<()>)
    requires ctx.obj.Some?
    ensures impl == GetImpl(ctx.obj.value)
    ensures impl.Raised? ==> issued == [] && allSeconds == [] && status == Raised(impl.error)
    ensures impl.Ok? ==> status == QueryStatus(count, batch)
    ensures |allSeconds| == |issued|
    ensures impl.Ok? && batch != 0 ==> |allSeconds| == RangeLen(count, batch) * Max0(batch)
    ensures forall q :: 0 <= q < |allSeconds| ==> issued[q] == env.randomVector(q) && allSeconds[q] == elapsed(q)
  {
    impl := GetImpl(ctx.obj.value);
    if impl.Raised? {
      issued, allSeconds, status := [], [], Raised(impl.error);
      return;
    }
    var chunks;
    chunks, issued, allSeconds, status := RunQuery(count, batch, env, elapsed);
  }

  /** The subcommands the model covers, with their option values. */
  datatype Command =
    | LoadCommand(count: int, batch: int, partition: int)
    | QueryCommand(count: int, batch: int)

  /** One invocation of the program: click runs the group callback on a
      fresh context and runs the subcommand only if the callback returned. */
  method Invoke(qdrant: bool, clickhouse: bool, url: string, database: string, cmd: Command,
                mktime: Mktime, env: Entropy, elapsed: nat -> real)
    returns (status: Result<()>, inserted: seq<seq<Record>>, issued: seq<Vector>)
    ensures FlagCheck(qdrant, clickhouse).Raised? ==>
      status == FlagCheck(qdrant, clickhouse) && inserted == [] && issued == []
    ensures FlagCheck(qdrant, clickhouse).Ok? && cmd.LoadCommand? ==>
      var batch := if cmd.batch > cmd.count then cmd.count else cmd.batch;
      var partition := if cmd.partition > cmd.count then cmd.count else cmd.partition;
      issued == [] &&
      inserted == InsertLog(cmd.count, batch, partition, mktime, env) &&
      status == InsertStatus(cmd.count, batch, partition)
    ensures FlagCheck(qdrant, clickhouse).Ok? && cmd.QueryCommand? ==>
      inserted == [] &&
      status == QueryStatus(cmd.count, cmd.batch) &&
      (cmd.batch != 0 ==> |issued| == RangeLen(cmd.count, cmd.batch) * Max0(cmd.batch))
  {
    var ctx := new Context();
    inserted, issued := [], [];
    status := Cli(ctx, qdrant, clickhouse, url, database);
    if status.Raised? {
      return;
    }
    SelectionAfterCli(map[], qdrant, clickhouse, url, database);
    match cmd
    case LoadCommand(count, batch, partition) =>
      var b, p, impl;
      b, p, impl, inserted, status := Load(ctx, count, batch, partition, mktime, env);
    case QueryCommand(count, batch) =>
      var impl, allSeconds;
      impl, issued, allSeconds, status := Query(ctx, count, batch, env, elapsed);
  }
}
