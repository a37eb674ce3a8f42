/**
  The multi-phase transaction tracking of `TransactionTimingManager`: the
  transaction object's `tracker`/`stack` record, the phases `start`, `commit`,
  `rollback` and `error`, and the `track_*` wrappers around the decorated
  coroutine methods.

  Two calls go to code that is not modelled: the base manager's
  `_exit_tracker(tracker, result)` and the `__exit__` of the contexts held on
  the exit stack. The manager records each of them, in order, in `calls`;
  what `_exit_tracker` raises, if anything, is an input of each phase. The
  base manager's `_start_tracker` is not modelled either: what it registers on
  the stack and whether it returns a timer or raises are inputs of `start`.
 */
module Transactions {
  import opened Wrappers
  import opened Status
  import opened Breadcrumbs
  import opened Timers
  import opened Managers

  /**
    A context registered on an exit stack: the transaction breadcrumb of `start`,
    or one registered by code outside the model, known only by an identity.
   */
  datatype Context = BreadcrumbContext(crumb: Breadcrumb) | OtherContext(id: nat)

  /** The contexts of `s` in the order an exit stack releases them: last registered first. */
  function Reversed(s: seq<Context>): (r: seq<Context>)
    ensures |r| == |s|
    ensures forall i :: 0 <= i < |s| ==> r[i] == s[|s| - 1 - i]
  {
    if s == [] then [] else Reversed(s[1..]) + [s[0]]
  }

  /** A `contextlib.ExitStack`, reduced to the contexts it will release on exit. */
  class ExitStack {
    var contexts: seq<Context>

    /** `ExitStack()` followed by `__enter__()`, which only returns the stack. */
    constructor ()
      ensures contexts == []
    {
      contexts := [];
    }

    /** `enter_context(cm)` */
    method EnterContext(c: Context)
      modifies this
      ensures contexts == old(contexts) + [c]
    {
      contexts := contexts + [c];
    }

    /**
      `__exit__(...)`: releases every context still registered, last in first
      out, and leaves the stack empty. The exception info is handed to the
      contexts' own exits, which are not modelled; the manager records it.
     */
    method Exit() returns (released: seq<Context>)
      modifies this
      ensures released == Reversed(old(contexts)) && contexts == []
    {
      released := Reversed(contexts);
      contexts := [];
    }
  }

  /**
    An object decorated with the transaction wrappers. `hasTracker` and
    `hasStack` say whether it has a `tracker` and a `stack` attribute at all;
    it is a `TrackedTransaction` exactly when it has both.
   */
  class TrackedTransaction {
    var hasTracker: bool
    var hasStack: bool
    var tracker: QueryTimer?
    var stack: ExitStack?

    constructor (hasTracker: bool, hasStack: bool)
      ensures this.hasTracker == hasTracker && this.hasStack == hasStack
      ensures tracker == null && stack == null
    {
      this.hasTracker := hasTracker;
      this.hasStack := hasStack;
      tracker := null;
      stack := null;
    }
  }

  /** A call from a phase into code outside the model. */
  datatype Call =
    | ExitTracker(tracker: QueryTimer, result: string)
    | UnwindStack(stack: ExitStack, exc: Option<Exc>, released: seq<Context>)

  /** A snapshot of a transaction object as a phase sees it. */
  datatype TxView = TxView(hasTracker: bool, tracker: QueryTimer?, hasStack: bool, stack: ExitStack?,
                           contexts: seq<Context>)

  ghost function View(obj: TrackedTransaction): TxView
    reads obj, obj.stack
  {
    TxView(obj.hasTracker, obj.tracker, obj.hasStack, obj.stack, if obj.stack != null then obj.stack.contexts else [])
  }

  /** `isinstance(obj, TrackedTransaction)` */
  predicate Tracked(v: TxView) {
    v.hasTracker && v.hasStack
  }

  /** The calls a phase makes and the exception it raises, if any. */
  datatype Effect = Effect(calls: seq<Call>, raised: Option<Exc>)

  predicate Unwound(e: Effect) {
    e.calls != [] && e.calls[|e.calls| - 1].UnwindStack?
  }

  /** Some call in `calls` unwinds a stack. */
  predicate Unwinds(calls: seq<Call>) {
    exists i :: 0 <= i < |calls| && calls[i].UnwindStack?
  }

  lemma {:induction false} UnwindsAppend(a: seq<Call>, b: seq<Call>)
    ensures Unwinds(a + b) <==> Unwinds(a) || Unwinds(b)
  {
    if Unwinds(a + b) {
      var i :| 0 <= i < |a + b| && (a + b)[i].UnwindStack?;
      if i < |a| {
        assert a[i].UnwindStack?;
      } else {
        assert b[i - |a|].UnwindStack?;
      }
    }
    if Unwinds(a) {
      var i :| 0 <= i < |a| && a[i].UnwindStack?;
      assert (a + b)[i].UnwindStack?;
    }
    if Unwinds(b) {
      var i :| 0 <= i < |b| && b[i].UnwindStack?;
      assert (a + b)[|a| + i].UnwindStack?;
    }
  }

  /**
    The object after the calls `calls`: a stack that was unwound holds no
    contexts any more, and nothing else changes (the phases never clear
    `tracker` or `stack`).
   */
  function ViewAfter(v: TxView, calls: seq<Call>): (w: TxView)
    ensures w.hasTracker == v.hasTracker && w.tracker == v.tracker
    ensures w.hasStack == v.hasStack && w.stack == v.stack
    ensures Unwinds(calls) ==> w.contexts == []
    ensures !Unwinds(calls) ==> w == v
  {
    if Unwinds(calls) then v.(contexts := []) else v
  }

  /**
    A terminal phase (`commit`, `rollback` or `error`) on the object `v`, finishing
    with `result` and unwinding with the exception info `exc`; `trackerFault` is
    what `_exit_tracker` raises. The tracker is exited first and only when
    present, the stack is unwound second and only when present, and an
    exception from either step ends the phase there.
   */
  function Phase(v: TxView, result: string, exc: Option<Exc>, trackerFault: Option<Exc>): (e: Effect)
    ensures |e.calls| <= 2
    ensures forall i :: 0 <= i < |e.calls| && e.calls[i].ExitTracker? ==>
              i == 0 && v.tracker != null && e.calls[i] == ExitTracker(v.tracker, result)
    ensures forall i :: 0 <= i < |e.calls| && e.calls[i].UnwindStack? ==>
              i == |e.calls| - 1 && v.stack != null && e.calls[i] == UnwindStack(v.stack, exc, Reversed(v.contexts))
    ensures e.raised.Some? ==> !Unwound(e)
    ensures !v.hasTracker ==> e == Effect([], Some(AttributeError))
    ensures Tracked(v) && v.tracker != null && trackerFault.Some? ==> e == Effect([ExitTracker(v.tracker, result)], trackerFault)
    ensures Tracked(v) && (v.tracker == null || trackerFault.None?) ==>
              && e.raised.None?
              && (v.tracker != null ==> e.calls != [] && e.calls[0] == ExitTracker(v.tracker, result))
              && (v.stack != null <==> Unwound(e))
    ensures v.hasTracker && !v.hasStack ==>
              && e.calls == (if v.tracker != null then [ExitTracker(v.tracker, result)] else [])
              && e.raised == (if v.tracker != null && trackerFault.Some? then trackerFault else Some(AttributeError))
    ensures Tracked(v) && v.tracker == null && v.stack == null ==> e == Effect([], None)
    ensures Unwinds(e.calls) <==> Unwound(e)
  {
    if !v.hasTracker then Effect([], Some(AttributeError))
    else
      var exited := if v.tracker != null then [ExitTracker(v.tracker, result)] else [];
      if v.tracker != null && trackerFault.Some? then Effect(exited, trackerFault)
      else if !v.hasStack then Effect(exited, Some(AttributeError))
      else if v.stack == null then Effect(exited, None)
      else Effect(exited + [UnwindStack(v.stack, exc, Reversed(v.contexts))], None)
  }

  /** The wrapped coroutine's outcome: its return value, or the exception it raised. */
  datatype Outcome<T> = Returned(value: T) | Raised(exc: Exc)

  /** What a wrapper does: the calls it makes and how it ends. */
  datatype Wrapped<T> = Wrapped(calls: seq<Call>, outcome: Outcome<T>)

  /**
    The `except:` branch of every wrapper: `error` with the caught exception,
    then a bare `raise`. The caught exception propagates unless `error` itself
    raises (an object without the attributes, or a failing `_exit_tracker`).
   */
  function OnFailure<T>(v: TxView, e: Exc, errorFault: Option<Exc>): (w: Wrapped<T>)
    ensures w.outcome.Raised?
    ensures Phase(v, ErrorStatus, Some(e), errorFault).raised.None? ==> w.outcome == Raised(e)
    ensures Phase(v, ErrorStatus, Some(e), errorFault).raised.Some? ==>
              w.outcome == Raised(Phase(v, ErrorStatus, Some(e), errorFault).raised.value)
    ensures w.calls == Phase(v, ErrorStatus, Some(e), errorFault).calls
    ensures Tracked(v) && v.tracker != null && v.stack != null && errorFault.None? ==>
              w == Wrapped([ExitTracker(v.tracker, ErrorStatus), UnwindStack(v.stack, Some(e), Reversed(v.contexts))], Raised(e))
  {
    var err := Phase(v, ErrorStatus, Some(e), errorFault);
    Wrapped(err.calls, Raised(if err.raised.Some? then err.raised.value else e))
  }

  /**
    `track_commit` (result `commit`, no exception info) and `track_rollback`
    (result `rollback`, the arguments after `obj` as exception info) on the
    object `v`, after the wrapped coroutine ended with `call`.
   */
  function FinishWrapped<T>(v: TxView, result: string, excArgs: Option<Exc>, call: Outcome<T>,
                            faults: string -> Option<Exc>): (w: Wrapped<T>)
    ensures w.outcome.Returned? ==> w.outcome == call
    ensures call.Raised? ==> w == OnFailure(v, call.exc, faults(ErrorStatus))
    ensures call.Returned? && !Tracked(v) ==> w == Wrapped([], call)
    ensures call.Returned? && Tracked(v) && Phase(v, result, excArgs, faults(result)).raised.Some? ==>
              var f := OnFailure<T>(v, Phase(v, result, excArgs, faults(result)).raised.value, faults(ErrorStatus));
              w == Wrapped(Phase(v, result, excArgs, faults(result)).calls + f.calls, f.outcome)
    ensures call.Returned? && Tracked(v) && (v.tracker == null || faults(result).None?) ==>
              w == Wrapped(Phase(v, result, excArgs, faults(result)).calls, call)
    ensures call.Returned? && Tracked(v) && v.tracker != null && v.stack != null ==>
              && (faults(result).None? ==> w == Wrapped([ExitTracker(v.tracker, result), UnwindStack(v.stack, excArgs, Reversed(v.contexts))], call))
              && (faults(result).Some? && faults(ErrorStatus).None? ==>
                    w == Wrapped([ExitTracker(v.tracker, result), ExitTracker(v.tracker, ErrorStatus),
                                  UnwindStack(v.stack, faults(result), Reversed(v.contexts))], Raised(faults(result).value)))
  {
    match call
    case Raised(e) => OnFailure(v, e, faults(ErrorStatus))
    case Returned(_) =>
      if !Tracked(v) then Wrapped([], call)
      else
        var finished := Phase(v, result, excArgs, faults(result));
        if finished.raised.None? then Wrapped(finished.calls, call)
        else
          var failed := OnFailure<T>(v, finished.raised.value, faults(ErrorStatus));
          Wrapped(finished.calls + failed.calls, failed.outcome)
  }

  /**
    The object `v` after `start` put the fresh stack `s` on it, `_start_tracker`
    registered `registered` on `s` and then returned a timer or raised (`start`).
    On a timer, the timer becomes the tracker and the transaction breadcrumb
    with `name` (the timer's function name, `StartedName`) is registered last;
    on an exception the tracker
    is left as it was and nothing more is registered.
   */
  function AfterStart(v: TxView, s: ExitStack, registered: seq<Context>, start: Outcome<QueryTimer>, name: string): (w: TxView)
    ensures w.hasStack && w.stack == s
    ensures |w.contexts| >= |registered| && w.contexts[..|registered|] == registered
    ensures start.Returned? ==> && w.hasTracker && w.tracker == start.value
                                && |w.contexts| == |registered| + 1
                                && w.contexts[|registered|] == BreadcrumbContext(TransactionBreadcrumb(name))
    ensures start.Raised? ==> w.hasTracker == v.hasTracker && w.tracker == v.tracker && w.contexts == registered
  {
    match start
    case Returned(t) =>
      TxView(true, t, true, s, registered + [BreadcrumbContext(TransactionBreadcrumb(name))])
    case Raised(_) =>
      TxView(v.hasTracker, v.tracker, true, s, registered)
  }

  /** The function name of the timer `_start_tracker` returned, which names the transaction. */
  function StartedName(start: Outcome<QueryTimer>): string
    reads if start.Returned? then {start.value} else {}
  {
    if start.Returned? then start.value.callingFunctionName else ""
  }

  class TransactionTimingManager {
    const config: Manager
    /** The calls the phases have made so far. */
    var calls: seq<Call>

    constructor (message: string)
      ensures config == NewTransactionTimingManager(message) && calls == []
    {
      config := NewTransactionTimingManager(message);
      calls := [];
    }

    /**
      `start`: a fresh exit stack on the object, then `_start_tracker` on it,
      which registers `registered` and returns a timer or raises (`start`). A
      returned timer becomes the tracker and its function name is registered on
      the stack as the transaction name; an exception propagates.
     */
    method Start(obj: TrackedTransaction, registered: seq<Context>, start: Outcome<QueryTimer>) returns (r: Outcome<QueryTimer>)
      modifies obj
      ensures r == start && obj.stack != null && fresh(obj.stack)
      ensures View(obj) == AfterStart(old(View(obj)), obj.stack, registered, start, StartedName(start))
    {
      var s := new ExitStack();
      obj.stack, obj.hasStack := s, true;
      // what `_start_tracker` registers on the stack it is handed
      s.contexts := registered;
      r := start;
      match start {
        case Raised(_) =>
          return;
        case Returned(t) =>
          obj.tracker, obj.hasTracker := t, true;
          s.EnterContext(BreadcrumbContext(TransactionBreadcrumb(t.callingFunctionName)));
      }
    }

    /** The body shared by `commit`, `rollback` and `error`; `fault` is what `_exit_tracker` raises. */
    method Finish(result: string, exc: Option<Exc>, obj: TrackedTransaction, fault: Option<Exc>) returns (raised: Option<Exc>)
      modifies this, obj.stack, obj.tracker
      ensures var e := Phase(old(View(obj)), result, exc, fault);
        && calls == old(calls) + e.calls && raised == e.raised
        && View(obj) == ViewAfter(old(View(obj)), e.calls)
    {
      if !obj.hasTracker {
        return Some(AttributeError);
      }
      if obj.tracker != null {
        calls := calls + [ExitTracker(obj.tracker, result)];
        if fault.Some? {
          return fault;
        }
      }
      if !obj.hasStack {
        return Some(AttributeError);
      }
      if obj.stack != null {
        var released := obj.stack.Exit();
        calls := calls + [UnwindStack(obj.stack, exc, released)];
      }
      return None;
    }

    /** `commit`: exits the tracker with `commit` and unwinds the stack without exception info. */
    method Commit(obj: TrackedTransaction, fault: Option<Exc>) returns (raised: Option<Exc>)
      modifies this, obj.stack, obj.tracker
      ensures var e := Phase(old(View(obj)), Status.Commit, None, fault);
        && calls == old(calls) + e.calls && raised == e.raised
        && View(obj) == ViewAfter(old(View(obj)), e.calls)
    {
      raised := Finish(Status.Commit, None, obj, fault);
    }

    /** `rollback(*exc_info)`: exits the tracker with `rollback` and forwards the exception info to the stack. */
    method Rollback(exc: Option<Exc>, obj: TrackedTransaction, fault: Option<Exc>) returns (raised: Option<Exc>)
      modifies this, obj.stack, obj.tracker
      ensures var e := Phase(old(View(obj)), Status.Rollback, exc, fault);
        && calls == old(calls) + e.calls && raised == e.raised
        && View(obj) == ViewAfter(old(View(obj)), e.calls)
    {
      raised := Finish(Status.Rollback, exc, obj, fault);
    }

    /** `error(*exc_info)`: exits the tracker with `error` and forwards the exception info to the stack. */
    method Error(exc: Option<Exc>, obj: TrackedTransaction, fault: Option<Exc>) returns (raised: Option<Exc>)
      modifies this, obj.stack, obj.tracker
      ensures var e := Phase(old(View(obj)), ErrorStatus, exc, fault);
        && calls == old(calls) + e.calls && raised == e.raised
        && View(obj) == ViewAfter(old(View(obj)), e.calls)
    {
      raised := Finish(ErrorStatus, exc, obj, fault);
    }

    /** The `except:` branch of the wrappers: report `e` through `error`, then re-raise. */
    method Fail<T>(obj: TrackedTransaction, e: Exc, errorFault: Option<Exc>) returns (r: Outcome<T>)
      modifies this, obj.stack, obj.tracker
      ensures var w := OnFailure<T>(old(View(obj)), e, errorFault);
        && calls == old(calls) + w.calls && r == w.outcome
        && View(obj) == ViewAfter(old(View(obj)), w.calls)
    {
      var raised := Error(Some(e), obj, errorFault);
      r := Raised(if raised.Some? then raised.value else e);
    }

    /**
      `track_start`: starts the transaction on a tracked object (an exception
      from `start` propagates before the coroutine runs, outside the `try`),
      then runs the wrapped coroutine (its outcome is `call`); a failure is
      reported once through `error` and re-raised, a result is passed through
      unchanged.
     */
    method TrackStart<T>(obj: TrackedTransaction, registered: seq<Context>, start: Outcome<QueryTimer>,
                         call: Outcome<T>, errorFault: Option<Exc>) returns (r: Outcome<T>)
      modifies this, obj, if obj.hasTracker && obj.hasStack then {} else {obj.stack},
        if obj.hasTracker && obj.hasStack then {} else {obj.tracker}, if start.Returned? then {start.value} else {}
      ensures old(Tracked(View(obj))) ==> obj.stack != null && fresh(obj.stack)
      ensures var v := if old(Tracked(View(obj))) then AfterStart(old(View(obj)), obj.stack, registered, start, old(StartedName(start)))
                       else old(View(obj));
        if old(Tracked(View(obj))) && start.Raised? then
          r == Raised(start.exc) && calls == old(calls) && View(obj) == v
        else
          && (call.Returned? ==> r == call && calls == old(calls) && View(obj) == v)
          && (call.Raised? ==> var w := OnFailure<T>(v, call.exc, errorFault);
                r == w.outcome && calls == old(calls) + w.calls && View(obj) == ViewAfter(v, w.calls))
    {
      if obj.hasTracker && obj.hasStack {
        var started := Start(obj, registered, start);
        if started.Raised? {
          return Raised(started.exc);
        }
      }
      match call {
        case Returned(_) =>
          r := call;
        case Raised(e) =>
          r := Fail(obj, e, errorFault);
      }
    }

    /**
      `track_commit`: on success a tracked object is committed and the result
      returned; a failure of the coroutine or of `commit` itself is reported
      once through `error` and re-raised. `faults` gives what each
      `_exit_tracker` call raises, by result.
     */
    method TrackCommit<T>(obj: TrackedTransaction, call: Outcome<T>, faults: string -> Option<Exc>) returns (r: Outcome<T>)
      modifies this, obj.stack, obj.tracker
      ensures var w := FinishWrapped(old(View(obj)), Status.Commit, None, call, faults);
        && calls == old(calls) + w.calls && r == w.outcome
        && View(obj) == ViewAfter(old(View(obj)), w.calls)
    {
      match call {
        case Raised(e) =>
          r := Fail(obj, e, faults(ErrorStatus));
        case Returned(_) =>
          if obj.hasTracker && obj.hasStack {
            ghost var v := View(obj);
            var raised := Commit(obj, faults(Status.Commit));
            if raised.Some? {
              ghost var finished := Phase(v, Status.Commit, None, faults(Status.Commit));
              r := Fail(obj, raised.value, faults(ErrorStatus));
              UnwindsAppend(finished.calls, OnFailure<T>(v, raised.value, faults(ErrorStatus)).calls);
              return;
            }
          }
          r := call;
      }
    }

    /**
      `track_rollback`: like `track_commit`, with `rollback` receiving the
      wrapped call's arguments after `obj` (`excArgs`) as exception info.
     */
    method TrackRollback<T>(obj: TrackedTransaction, excArgs: Option<Exc>, call: Outcome<T>,
                            faults: string -> Option<Exc>) returns (r: Outcome<T>)
      modifies this, obj.stack, obj.tracker
      ensures var w := FinishWrapped(old(View(obj)), Status.Rollback, excArgs, call, faults);
        && calls == old(calls) + w.calls && r == w.outcome
        && View(obj) == ViewAfter(old(View(obj)), w.calls)
    {
      match call {
        case Raised(e) =>
          r := Fail(obj, e, faults(ErrorStatus));
        case Returned(_) =>
          if obj.hasTracker && obj.hasStack {
            ghost var v := View(obj);
            var raised := Rollback(excArgs, obj, faults(Status.Rollback));
            if raised.Some? {
              ghost var finished := Phase(v, Status.Rollback, excArgs, faults(Status.Rollback));
              r := Fail(obj, raised.value, faults(ErrorStatus));
              UnwindsAppend(finished.calls, OnFailure<T>(v, raised.value, faults(ErrorStatus)).calls);
              return;
            }
          }
          r := call;
      }
    }
  }
}
