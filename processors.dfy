/**
  The result processors: each turns a finished timer into one log record or
  one stats observation, and emits nothing when the timed target has no
  database identity. Emission is the returned record; the logger and the
  stats client are not modelled.
 */
module Processors {
  import opened Wrappers
  import opened Breadcrumbs
  import opened Timers
  import opened Managers

  /** A value in the `database` payload: a string, a bool, or None. */
  datatype Value = Str(s: string) | Flag(b: bool) | Null

  /**
    `log.info(message, <subject>=name, latency_ms=…, database=…, caller=…)`,
    where `subject` is `query` or `transaction`.
   */
  datatype LogRecord = LogRecord(message: string, subject: string, name: string, latencyMs: real,
                                 database: map<string, Value>, caller: map<string, string>)

  /** `stats.timing(name, value, tags=tags)` */
  datatype StatRecord = StatRecord(name: string, valueMs: real, tags: map<string, string>)

  const StatName := "io.db.latency"
  const TransactionQueryType := "transaction"

  const CallerFields := {ApplicationName, ProcessorName, RepositoryName}
  const TagFields := {ApplicationName, TransactionName}

  /** Key `k` is in `m` exactly when `present`, and then maps to `v`. */
  predicate Entry<V(==)>(m: map<string, V>, k: string, present: bool, v: V) {
    (k in m <==> present) && (present ==> m[k] == v)
  }

  /** The `caller` payload: the set caller fields of the breadcrumb, and `module_name` when known. */
  predicate CallerPayload(caller: map<string, string>, b: Breadcrumb, moduleName: string) {
    && caller.Keys == (b.Keys * CallerFields) + (if moduleName != "" then {"module_name"} else {})
    && (forall k :: k in CallerFields && k in b ==> caller[k] == b[k])
    && Entry(caller, "module_name", moduleName != "", moduleName)
  }

  /** The identity, status and exception keys both log processors put in `database`. */
  predicate CommonDatabasePayload(database: map<string, Value>, id: DbIdentity, timer: QueryTimer)
    reads timer
  {
    && Entry(database, "database_name", true, Str(id.databaseName))
    && Entry(database, "instance_name", true, Str(id.instanceName))
    && Entry(database, "request_status", true, Str(timer.requestStatus))
    && Entry(database, "exception_name", timer.exceptionName != "", Str(timer.exceptionName))
  }

  /** `log_query_timing` */
  method LogQueryTimingRecord(tracker: Manager, timer: QueryTimer, breadcrumb: Breadcrumb, deltaMs: real)
    returns (record: Option<LogRecord>)
    ensures record.None? <==> timer.database.None?
    ensures record.Some? ==>
      var r := record.value;
      && r.message == tracker.message && r.subject == "query" && r.name == timer.callingFunctionName
      && r.latencyMs == deltaMs
      && r.database.Keys == {"database_name", "instance_name", "transaction", "transaction_name", "request_status"}
                            + (if timer.exceptionName != "" then {"exception_name"} else {})
      && CommonDatabasePayload(r.database, timer.database.value, timer)
      && r.database["transaction"] == Flag(InTransaction(breadcrumb))
      && r.database["transaction_name"] == (if TransactionName in breadcrumb then Str(breadcrumb[TransactionName]) else Null)
      && CallerPayload(r.caller, breadcrumb, timer.callingModuleName)
  {
    if timer.database.None? {
      return None;
    }
    var id := timer.database.value;
    var database := map[
      "database_name" := Str(id.databaseName),
      "instance_name" := Str(id.instanceName),
      "transaction" := Flag(InTransaction(breadcrumb)),
      "transaction_name" := if TransactionName in breadcrumb then Str(breadcrumb[TransactionName]) else Null,
      "request_status" := Str(timer.requestStatus)
    ];
    var caller := Fields(breadcrumb, CallerFields);
    if timer.callingModuleName != "" {
      caller := caller["module_name" := timer.callingModuleName];
    }
    if timer.exceptionName != "" {
      database := database["exception_name" := Str(timer.exceptionName)];
    }
    record := Some(LogRecord(tracker.message, "query", timer.callingFunctionName, deltaMs, database, caller));
  }

  /** `log_transaction_timing`: like the query log, without the transaction keys. */
  method LogTransactionTimingRecord(tracker: Manager, timer: QueryTimer, breadcrumb: Breadcrumb, deltaMs: real)
    returns (record: Option<LogRecord>)
    ensures record.None? <==> timer.database.None?
    ensures record.Some? ==>
      var r := record.value;
      && r.message == tracker.message && r.subject == "transaction" && r.name == timer.callingFunctionName
      && r.latencyMs == deltaMs
      && r.database.Keys == {"database_name", "instance_name", "request_status"}
                            + (if timer.exceptionName != "" then {"exception_name"} else {})
      && CommonDatabasePayload(r.database, timer.database.value, timer)
      && CallerPayload(r.caller, breadcrumb, timer.callingModuleName)
  {
    if timer.database.None? {
      return None;
    }
    var id := timer.database.value;
    var database := map[
      "database_name" := Str(id.databaseName),
      "instance_name" := Str(id.instanceName),
      "request_status" := Str(timer.requestStatus)
    ];
    var caller := Fields(breadcrumb, CallerFields);
    if timer.callingModuleName != "" {
      caller := caller["module_name" := timer.callingModuleName];
    }
    if timer.exceptionName != "" {
      database := database["exception_name" := Str(timer.exceptionName)];
    }
    record := Some(LogRecord(tracker.message, "transaction", timer.callingFunctionName, deltaMs, database, caller));
  }

  /** The tags of a stats observation: the set tag fields of the breadcrumb and each non-empty label. */
  predicate StatTags(tags: map<string, string>, b: Breadcrumb, queryType: string, timer: QueryTimer, id: DbIdentity)
    reads timer
  {
    && (forall k :: k in TagFields ==> Entry(tags, k, k in b, if k in b then b[k] else ""))
    && Entry(tags, "query_type", queryType != "", queryType)
    && Entry(tags, "query_name", timer.callingFunctionName != "", timer.callingFunctionName)
    && Entry(tags, "database_name", id.databaseName != "", id.databaseName)
    && Entry(tags, "instance_name", id.instanceName != "", id.instanceName)
    && Entry(tags, "request_status", timer.requestStatus != "", timer.requestStatus)
    && tags.Keys <= TagFields + {"query_type", "query_name", "database_name", "instance_name", "request_status"}
  }

  /** `_stat_query_timing`: the latency under `io.db.latency`, tagged as `StatTags` says. */
  method StatTiming(tracker: Manager, timer: QueryTimer, breadcrumb: Breadcrumb, deltaMs: real, queryType: string)
    returns (stat: Option<StatRecord>)
    ensures stat.None? <==> timer.database.None?
    ensures stat.Some? ==>
      && stat.value.name == StatName && stat.value.valueMs == deltaMs
      && StatTags(stat.value.tags, breadcrumb, queryType, timer, timer.database.value)
  {
    if timer.database.None? {
      return None;
    }
    var id := timer.database.value;
    var tags := Fields(breadcrumb, TagFields);
    if queryType != "" {
      tags := tags["query_type" := queryType];
    }
    if timer.callingFunctionName != "" {
      tags := tags["query_name" := timer.callingFunctionName];
    }
    if id.databaseName != "" {
      tags := tags["database_name" := id.databaseName];
    }
    if id.instanceName != "" {
      tags := tags["instance_name" := id.instanceName];
    }
    if timer.requestStatus != "" {
      tags := tags["request_status" := timer.requestStatus];
    }
    stat := Some(StatRecord(StatName, deltaMs, tags));
  }

  /** `stat_query_timing`: a query observation carries no `query_type`. */
  method StatQueryTimingRecord(tracker: Manager, timer: QueryTimer, breadcrumb: Breadcrumb, deltaMs: real)
    returns (stat: Option<StatRecord>)
    ensures stat.None? <==> timer.database.None?
    ensures stat.Some? ==>
      && stat.value.name == StatName && stat.value.valueMs == deltaMs && "query_type" !in stat.value.tags
      && StatTags(stat.value.tags, breadcrumb, "", timer, timer.database.value)
  {
    stat := StatTiming(tracker, timer, breadcrumb, deltaMs, "");
  }

  /** `stat_transaction_timing`: a transaction observation is tagged `query_type: transaction`. */
  method StatTransactionTimingRecord(tracker: Manager, timer: QueryTimer, breadcrumb: Breadcrumb, deltaMs: real)
    returns (stat: Option<StatRecord>)
    ensures stat.None? <==> timer.database.None?
    ensures stat.Some? ==>
      && stat.value.name == StatName && stat.value.valueMs == deltaMs && "query_type" in stat.value.tags
      && stat.value.tags["query_type"] == TransactionQueryType
      && StatTags(stat.value.tags, breadcrumb, TransactionQueryType, timer, timer.database.value)
  {
    stat := StatTiming(tracker, timer, breadcrumb, deltaMs, TransactionQueryType);
  }

  /** One emission of a processor. */
  datatype Emission = Logged(log: LogRecord) | Measured(stat: StatRecord) | Skipped

  /**
    Runs one processor of the list. A stats observation is tagged
    `query_type: transaction` exactly when it comes from the transaction
    stats processor, and only a transaction manager has that processor.
   */
  method RunProcessor(p: Processor, tracker: Manager, timer: QueryTimer, breadcrumb: Breadcrumb, deltaMs: real)
    returns (e: Emission)
    requires p in Processors(tracker)
    ensures e.Skipped? <==> timer.database.None?
    ensures timer.database.Some? ==> (e.Logged? <==> IsLogProcessor(p))
    ensures e.Logged? ==> e.log.subject == (if p == LogQueryTiming then "query" else "transaction")
    ensures e.Measured? ==> e.stat.name == StatName && e.stat.valueMs == deltaMs
    ensures e.Measured? ==> (("query_type" in e.stat.tags) <==> tracker.kind == TransactionTimingManager)
    ensures e.Measured? ==> ("query_type" in e.stat.tags ==> e.stat.tags["query_type"] == TransactionQueryType)
    ensures e.Logged? ==> (e.log.subject == "transaction" <==> tracker.kind == TransactionTimingManager)
  {
    var r: Option<LogRecord>;
    var s: Option<StatRecord>;
    match p {
      case LogQueryTiming =>
        r := LogQueryTimingRecord(tracker, timer, breadcrumb, deltaMs);
        e := if r.Some? then Logged(r.value) else Skipped;
      case LogTransactionTiming =>
        r := LogTransactionTimingRecord(tracker, timer, breadcrumb, deltaMs);
        e := if r.Some? then Logged(r.value) else Skipped;
      case StatQueryTiming =>
        s := StatQueryTimingRecord(tracker, timer, breadcrumb, deltaMs);
        e := if s.Some? then Measured(s.value) else Skipped;
      case StatTransactionTiming =>
        s := StatTransactionTimingRecord(tracker, timer, breadcrumb, deltaMs);
        e := if s.Some? then Measured(s.value) else Skipped;
    }
  }
}
