/**
  The timing managers as configuration values, the timer each one creates,
  the processors each one runs, and the two query decorators.
 */
module Managers {
  import opened Wrappers
  import opened Discovery
  import opened Timers
  import opened Prefixes

  datatype ManagerKind = QueryTimingManager | ExecuteTimingManager | TransactionTimingManager

  /** The result processors of this module. */
  datatype Processor = LogQueryTiming | StatQueryTiming | LogTransactionTiming | StatTransactionTiming

  const DatabaseModule := "app.commons.database"
  const QueryComplete := "query complete"

  /** A manager's configuration; managers keep no per-call state. */
  datatype Manager = Manager(kind: ManagerKind, message: string, additionalIgnores: seq<string>,
                             callingModuleName: string, callingFunctionName: string)

  /** `QueryTimingManager.__init__` and the inherited constructors of its subclasses. */
  function NewManager(kind: ManagerKind, message: string, callingFunctionName: string, callingModuleName: string): (m: Manager)
    ensures m.kind == kind && m.message == message
    ensures m.callingFunctionName == callingFunctionName && m.callingModuleName == callingModuleName
    ensures m.additionalIgnores == [DatabaseModule]
  {
    Manager(kind, message, [DatabaseModule], callingModuleName, callingFunctionName)
  }

  /** `TransactionTimingManager.__init__` passes the message only, so both names stay empty. */
  function NewTransactionTimingManager(message: string): (m: Manager)
    ensures m.kind == TransactionTimingManager && m.callingModuleName == "" && m.callingFunctionName == ""
  {
    NewManager(TransactionTimingManager, message, "", "")
  }

  /** `track_query`: names the timer after the decorated function and its module. */
  function TrackQuery(funcName: string, funcModule: string): (m: Manager)
    ensures m.kind == QueryTimingManager && m.message == QueryComplete
    ensures m.callingFunctionName == funcName && m.callingModuleName == funcModule
  {
    NewManager(QueryTimingManager, QueryComplete, funcName, funcModule)
  }

  /** `track_execute`: leaves naming to discovery. */
  function TrackExecute(): (m: Manager)
    ensures m.kind == ExecuteTimingManager && m.message == QueryComplete
  {
    NewManager(ExecuteTimingManager, QueryComplete, "", "")
  }

  predicate IsLogProcessor(p: Processor) {
    p == LogQueryTiming || p == LogTransactionTiming
  }

  /** The class-level `processors` list: the log processor first, then the stats processor. */
  function Processors(m: Manager): (ps: seq<Processor>)
    ensures |ps| == 2 && IsLogProcessor(ps[0]) && !IsLogProcessor(ps[1])
    ensures (LogQueryTiming in ps) <==> m.kind != TransactionTimingManager
    ensures (StatTransactionTiming in ps) <==> m.kind == TransactionTimingManager
    ensures (LogTransactionTiming in ps) <==> m.kind == TransactionTimingManager
    ensures (StatQueryTiming in ps) <==> m.kind != TransactionTimingManager
  {
    if m.kind == TransactionTimingManager then [LogTransactionTiming, StatTransactionTiming]
    else [LogQueryTiming, StatQueryTiming]
  }

  /** What `create_tracker` passes to the timer's constructor. */
  datatype TrackerConfig = TrackerConfig(kind: TimerKind, callingModuleName: string, callingFunctionName: string,
                                         additionalIgnores: Option<seq<string>>)

  function TrackerConfigOf(m: Manager): (c: TrackerConfig)
    ensures c.additionalIgnores == Some(m.additionalIgnores)
    ensures c.kind == QueryTimerKind <==> m.kind == QueryTimingManager
    ensures c.kind == ExecuteTimerKind <==> m.kind == ExecuteTimingManager
    ensures c.kind == TransactionTimerKind <==> m.kind == TransactionTimingManager
    ensures m.kind == ExecuteTimingManager ==> c.callingModuleName == "" && c.callingFunctionName == ""
    ensures m.kind != ExecuteTimingManager ==> c.callingModuleName == m.callingModuleName && c.callingFunctionName == m.callingFunctionName
  {
    match m.kind
    case QueryTimingManager =>
      TrackerConfig(QueryTimerKind, m.callingModuleName, m.callingFunctionName, Some(m.additionalIgnores))
    case ExecuteTimingManager =>
      TrackerConfig(ExecuteTimerKind, "", "", Some(m.additionalIgnores))
    case TransactionTimingManager =>
      TrackerConfig(TransactionTimerKind, m.callingModuleName, m.callingFunctionName, Some(m.additionalIgnores))
  }

  /** `create_tracker(obj)`: a fresh timer over the target, built as `TrackerConfigOf` says. */
  method CreateTracker(m: Manager, database: Option<DbIdentity>) returns (t: QueryTimer)
    ensures fresh(t)
    ensures var c := TrackerConfigOf(m);
      && t.kind == c.kind && t.database == database && t.additionalIgnores == c.additionalIgnores
      && t.callingModuleName == c.callingModuleName && t.callingFunctionName == c.callingFunctionName
    ensures t.requestStatus == DefaultStatus(t.kind) && t.exceptionName == "" && t.stackFrame == None
  {
    var c := TrackerConfigOf(m);
    t := new QueryTimer(c.kind, database, c.callingFunctionName, c.callingModuleName, c.additionalIgnores);
  }

  /** The names a manager's timer reports once entered on the given stack. */
  function EnteredNames(m: Manager, stack: seq<Frame>): (string, string)
    requires |stack| > 0
  {
    var c := TrackerConfigOf(m);
    NamesAfterEnter(c.kind, c.additionalIgnores, c.callingModuleName, c.callingFunctionName, stack)
  }

  /** A `track_query` timer reports the decorated function's own names, whatever the stack. */
  lemma TrackQueryKeepsNames(funcName: string, funcModule: string, stack: seq<Frame>)
    requires |stack| > 0
    ensures EnteredNames(TrackQuery(funcName, funcModule), stack) == (funcModule, funcName)
  {
  }

  /**
    Execute and transaction timers report what discovery finds: the names the
    manager was configured with never reach the entered timer.
   */
  lemma DiscoveryOverwritesNames(m: Manager, m': Manager, stack: seq<Frame>)
    requires |stack| > 0
    requires m.kind == m'.kind && m.kind != QueryTimingManager
    requires m.additionalIgnores == m'.additionalIgnores
    ensures EnteredNames(m, stack) == EnteredNames(m', stack)
    ensures EnteredNames(m, stack) == (Discovered(stack, Some(m.additionalIgnores)).1, Discovered(stack, Some(m.additionalIgnores)).2)
  {
  }

  /** Every manager's timers skip `app.commons.database` frames besides the three defaults. */
  lemma ManagersSkipDatabaseModule(kind: ManagerKind, message: string, funcName: string, funcModule: string, name: string)
    requires StartsWith(name, DatabaseModule)
    ensures Ignored(name, IgnoreList(TrackerConfigOf(NewManager(kind, message, funcName, funcModule)).additionalIgnores))
  {
    AdditionalIgnored(name, [DatabaseModule], 0);
  }
}
