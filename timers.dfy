/**
  The query timer and its two refinements. `QueryTimer`, `ExecuteTimer` and
  `TransactionTimer` are one class here, told apart by `kind`: an execute or
  transaction timer rediscovers its caller on entry, and a transaction timer
  starts in the status `commit` and has `process_result`.
 */
module Timers {
  import opened Wrappers
  import opened Discovery
  import opened Status

  datatype TimerKind = QueryTimerKind | ExecuteTimerKind | TransactionTimerKind

  /** The `database_name` and `instance_name` a timed target exposes. */
  datatype DbIdentity = DbIdentity(databaseName: string, instanceName: string)

  /** The class-level default of `request_status`. */
  function DefaultStatus(kind: TimerKind): (status: string)
    ensures Settled(status) <==> kind == TransactionTimerKind
    ensures kind != TransactionTimerKind ==> status == Success
    ensures kind == TransactionTimerKind ==> status == Commit
  {
    if kind == TransactionTimerKind then Commit else Success
  }

  /** Whether `__enter__` runs caller discovery (ExecuteTimer and its subclass do). */
  predicate Rediscovers(kind: TimerKind) {
    kind != QueryTimerKind
  }

  /** The frame and the (module, function) names caller discovery yields. */
  function Discovered(stack: seq<Frame>, additionalIgnores: Option<seq<string>>): (r: (Frame, string, string))
    requires |stack| > 0
    ensures exists i :: 0 <= i < |stack| && r.0 == stack[i] && r.2 == stack[i].functionName
    ensures r.1 == Unknown || !Ignored(r.1, IgnoreList(additionalIgnores))
  {
    var found := Discover(stack, IgnoreList(additionalIgnores), 0);
    (stack[found.0], found.1, stack[found.0].functionName)
  }

  /** The (module, function) names a timer holds after `__enter__`, given those it was built with. */
  function NamesAfterEnter(kind: TimerKind, additionalIgnores: Option<seq<string>>,
                           moduleName: string, functionName: string, stack: seq<Frame>): (r: (string, string))
    requires |stack| > 0
    ensures !Rediscovers(kind) ==> r == (moduleName, functionName)
    ensures Rediscovers(kind) ==> r == (Discovered(stack, additionalIgnores).1, Discovered(stack, additionalIgnores).2)
  {
    if Rediscovers(kind) then
      var d := Discovered(stack, additionalIgnores);
      (d.1, d.2)
    else (moduleName, functionName)
  }

  class QueryTimer {
    const kind: TimerKind
    /** The timed target's database identity; None when it is not a `Database`. */
    const database: Option<DbIdentity>
    const additionalIgnores: Option<seq<string>>
    var callingModuleName: string
    var callingFunctionName: string
    var stackFrame: Option<Frame>
    var requestStatus: string
    var exceptionName: string

    constructor (kind: TimerKind, database: Option<DbIdentity>, callingFunctionName: string,
                 callingModuleName: string, additionalIgnores: Option<seq<string>>)
      ensures this.kind == kind && this.database == database && this.additionalIgnores == additionalIgnores
      ensures this.callingFunctionName == callingFunctionName && this.callingModuleName == callingModuleName
      ensures stackFrame == None
      ensures requestStatus == DefaultStatus(kind) && exceptionName == ""
    {
      this.kind := kind;
      this.database := database;
      this.additionalIgnores := additionalIgnores;
      this.callingFunctionName := callingFunctionName;
      this.callingModuleName := callingModuleName;
      stackFrame := None;
      requestStatus := DefaultStatus(kind);
      exceptionName := "";
    }

    /**
      `__enter__`. A plain query timer keeps its names; an execute or transaction
      timer overwrites both with what discovery finds, whatever it was built with.
      The start timestamp the base timer records is not modelled.
     */
    method Enter(stack: seq<Frame>)
      requires |stack| > 0
      modifies this`stackFrame, this`callingModuleName, this`callingFunctionName
      ensures (callingModuleName, callingFunctionName)
           == NamesAfterEnter(kind, additionalIgnores, old(callingModuleName), old(callingFunctionName), stack)
      ensures Rediscovers(kind) ==> stackFrame == Some(Discovered(stack, additionalIgnores).0)
      ensures !Rediscovers(kind) ==> stackFrame == old(stackFrame)
    {
      if Rediscovers(kind) {
        var frame, name := DiscoverCaller(stack, additionalIgnores);
        AnswerIsDiscover(stack, IgnoreList(additionalIgnores), 0, frame, name);
        stackFrame := Some(stack[frame]);
        callingModuleName := name;
        callingFunctionName := stack[frame].functionName;
      }
    }

    /**
      `__exit__`: never suppresses the exception. A clean exit changes nothing;
      an exception is always recorded by name, and classifies the status only
      when no other status has been set.
     */
    method Exit(exc: Option<Exc>) returns (suppressed: bool)
      modifies this`requestStatus, this`exceptionName
      ensures !suppressed
      ensures requestStatus == StatusAfterExit(old(requestStatus), exc)
      ensures exceptionName == NameAfterExit(old(exceptionName), exc)
    {
      suppressed := false;
      if exc.None? {
        return;
      }
      exceptionName := exc.value.name;
      if requestStatus != "" && requestStatus != Success {
        return;
      }
      if TimeoutLike(exc.value) {
        requestStatus := Timeout;
      } else {
        requestStatus := ErrorStatus;
      }
    }

    /** `TransactionTimer.process_result`: the phase outcome becomes the status. */
    method ProcessResult(result: string)
      requires kind == TransactionTimerKind
      modifies this`requestStatus
      ensures requestStatus == result
    {
      requestStatus := result;
    }
  }

  /** A transaction timer still in its default `commit` keeps it through an exception. */
  lemma TransactionDefaultSurvivesException(e: Exc)
    ensures StatusAfterExit(DefaultStatus(TransactionTimerKind), Some(e)) == Commit
  {
  }

  /** A fresh query or execute timer is classified by the first exception it exits with. */
  lemma FreshQueryTimerClassifies(kind: TimerKind, e: Exc)
    requires kind != TransactionTimerKind
    ensures StatusAfterExit(DefaultStatus(kind), Some(e)) == (if TimeoutLike(e) then Timeout else ErrorStatus)
  {
  }
}
