# Query and transaction timing, modelled in Dafny

This project models the outcome-tracking part of `app/commons/timing/database.py`, the
instrumentation that times database queries and multi-phase transactions. The model covers:

- **Caller discovery** (`Discovery`): the walk outward over the call stack, past the framework's
  own frames, to the first application frame.
- **The query timer** (`Timers`): `QueryTimer`, `ExecuteTimer` and `TransactionTimer` as one class
  with a `kind`, with their entry, exit classification and `process_result`.
- **The managers** (`Managers`): the timing manager configurations, the timer each one creates,
  their processor lists, and the `track_query` / `track_execute` decorators.
- **The transaction phases** (`Transactions`): `start`, `commit`, `rollback`, `error` and the three
  `track_*` wrappers of `TransactionTimingManager`, over a transaction object whose `tracker` and
  `stack` fields they assign and unwind.
- **The result processors** (`Processors`): the log payload and the stats tags, built by
  conditional insertion.

Everything that the code reaches outside this file is an input of the model:

- **The call stack** is a sequence of frames, innermost first. Each frame has a module name
  (`globalName`, None when `__name__` is missing) and a function name.
- **An exception** is its formatted name plus the set of timeout classes it is an instance of.
- **The current breadcrumb** is the map of its explicitly set fields.
- **The latency** is a number handed to the processors.
- **The two calls into the base manager `tracing.TimingManager` in `app.commons.tracing`, which this model does not cover:**
  - `_start_tracker` is handed the fresh stack. The contexts it registers there (`registered`)
    and whether it returns a timer or raises (`start`) are parameters of `Start`.
  - `_exit_tracker` becomes a recorded `ExitTracker` call. What that call raises, if anything,
    is a parameter of each phase.
- **The exit stack** releases its contexts when it exits. Each such release is recorded as an
  `UnwindStack` call, together with the exception info it was handed.

Behaviour worth noting, as the code has it:

- After `commit`, `rollback` or `error`, the code does not clear `obj.tracker` or `obj.stack`. A
  second terminal call therefore exits the tracker again. It only unwinds an already-empty stack.
- Setting the `commit` / `rollback` / `error` status and running the transaction processors
  happen inside `_exit_tracker`, which this model does not cover. The model records the call and does not
  claim those effects. The phases and wrappers may therefore change the tracker timer, and their
  contracts say nothing about its fields afterwards.
- The wrappers call `error` on `args[0]` even when it is not a `TrackedTransaction`. On an object
  without the `tracker` attribute, that raises `AttributeError`, and the `AttributeError`
  propagates instead of the original exception. An object that has `tracker` but not `stack`
  gets its tracker exited when it is not None and then raises `AttributeError`, unless that
  exit raised first. This is what `Phase` and
  `OnFailure` state.

## Model

| member | source | states |
|---|---|---|
| `Discovery.FrameName` | app/commons/timing/database.py:84 | a missing or empty `__name__` reads as "?"; otherwise the frame's own module name |
| `Discovery.IgnoreList` | app/commons/timing/database.py:75-82 | the ignore list is this module, `app.commons.tracing`, `contextlib`, then exactly the extra prefixes (none when None) |
| `Discovery.Discover` | app/commons/timing/database.py:83-91 | the walk from a frame stops at the first frame whose name starts with no ignore prefix, every frame before it being ignored, or at the root with "?" when the root is still ignored |
| `Discovery.AnswerIsDiscover` | app/commons/timing/database.py:85-90 | there is exactly one frame and name meeting the walk's postcondition, and it is the one `Discover` computes |
| `Discovery.DiscoverCaller` | app/commons/timing/database.py:63-91 | the loop returns the first unignored frame and its name, or the root frame and "?"; every skipped frame is ignored, and the loop never passes the root |
| `Discovery.DefaultsAlwaysIgnored` | app/commons/timing/database.py:75-82 | frames of this module, the tracing module and contextlib are skipped whatever the extra ignores |
| `Discovery.AdditionalIgnored` | app/commons/timing/database.py:82 | every extra prefix is honoured |
| `Discovery.OuterFramesIrrelevant` | app/commons/timing/database.py:85-90 | once an application frame is found, frames further out never change the result |
| `Discovery.UnknownOnlyWhenNamelessOrExhausted` | app/commons/timing/database.py:84-90 | "?" is reported only for a nameless frame or at the root when every frame is ignored |
| `Discovery.AllIgnoredReachesRoot` | app/commons/timing/database.py:85-88 | when every frame is ignored the result is the root frame with "?" |
| `Status.StatusAfterExit` | app/commons/timing/database.py:127-150 | a clean exit keeps the status; an exceptional exit keeps a set non-success status and otherwise yields `timeout` exactly for the timeout classes and `error` for the rest, never leaving it empty or `success` |
| `Status.NameAfterExit` | app/commons/timing/database.py:127-131 | an exceptional exit always records the exception's name, before the status check; a clean exit keeps it |
| `Status.SettledIsFrozen` | app/commons/timing/database.py:133-135 | a set non-success status survives any series of later exits |
| `Status.FirstExceptionDecides` | app/commons/timing/database.py:127-150 | over a series of exits the first exceptional one decides the status for good |
| `Status.CleanExitsKeepStatus` | app/commons/timing/database.py:127-128 | clean exits never change the status |
| `Timers.DefaultStatus` | app/commons/timing/database.py:174 | query and execute timers start at `success`; only a transaction timer starts settled, at `commit` |
| `Timers.Discovered` | app/commons/timing/database.py:162-165 | discovery yields one of the stack's frames, that frame's function name, and a module name that is "?" or unignored |
| `Timers.NamesAfterEnter` | app/commons/timing/database.py:160-166 | a query timer keeps its constructor names; execute and transaction timers take both names from discovery |
| `Timers.QueryTimer.constructor` | app/commons/timing/database.py:103-115 | the timer holds the target, the names and the ignores it was given, with the class-default status and no exception name |
| `Timers.QueryTimer.Enter` | app/commons/timing/database.py:160-166 | entry sets the names and stack frame as `NamesAfterEnter` and `Discovered` say |
| `Timers.QueryTimer.Exit` | app/commons/timing/database.py:117-152 | exit never suppresses, and updates status and exception name as `StatusAfterExit` and `NameAfterExit` say |
| `Timers.QueryTimer.ProcessResult` | app/commons/timing/database.py:176-178 | a transaction timer's status becomes the given phase result |
| `Timers.TransactionDefaultSurvivesException` | app/commons/timing/database.py:133-135 | a transaction timer still at `commit` keeps `commit` through an exception |
| `Timers.FreshQueryTimerClassifies` | app/commons/timing/database.py:137-150 | a fresh query or execute timer is classified by its exception |
| `Managers.NewManager` | app/commons/timing/database.py:328-339 | a manager keeps its message and both calling names as given, and always ignores `app.commons.database` in addition |
| `Managers.NewTransactionTimingManager` | app/commons/timing/database.py:383-384 | a transaction manager has empty configured names |
| `Managers.TrackQuery` | app/commons/timing/database.py:188-198 | `track_query` configures a query manager named after the decorated function and its module |
| `Managers.TrackExecute` | app/commons/timing/database.py:181-185 | `track_execute` configures an execute manager with the message "query complete" |
| `Managers.Processors` | app/commons/timing/database.py:375 | two processors, the log processor first and the stats processor second: `log_query_timing` and `stat_query_timing` for query and execute managers, the two transaction processors exactly for a transaction manager |
| `Managers.TrackerConfigOf` | app/commons/timing/database.py:341-399 | a query manager builds a `QueryTimer`, an execute manager an `ExecuteTimer` and a transaction manager a `TransactionTimer`; an execute timer gets no names, query and transaction timers get the manager's names; all get the manager's ignores |
| `Managers.CreateTracker` | app/commons/timing/database.py:341-354 | `create_tracker` returns a fresh timer over the target built as `TrackerConfigOf` says |
| `Managers.TrackQueryKeepsNames` | app/commons/timing/database.py:188-198 | a `track_query` timer reports the decorated function's own names, whatever the stack |
| `Managers.DiscoveryOverwritesNames` | app/commons/timing/database.py:160-166 | execute and transaction timers report what discovery finds, whatever names the manager passed |
| `Managers.ManagersSkipDatabaseModule` | app/commons/timing/database.py:337 | timers built by any manager from its constructor skip `app.commons.database` frames |
| `Breadcrumbs.Fields` | app/commons/timing/database.py:215-218 | the breadcrumb dictionary holds exactly the requested fields that were set, with their values |
| `Breadcrumbs.TransactionBreadcrumb` | app/commons/timing/database.py:410 | the breadcrumb pushed by `start` sets the transaction name only |
| `Processors.LogQueryTimingRecord` | app/commons/timing/database.py:201-230 | nothing is logged without database identity; otherwise the record has the manager's message, the query name, the latency, identity and status, `transaction` true exactly when the breadcrumb's transaction name is non-empty, and `exception_name` / `module_name` present exactly when non-empty |
| `Processors.LogTransactionTimingRecord` | app/commons/timing/database.py:233-261 | as for queries, under `transaction`, with no transaction keys in `database` |
| `Processors.StatTiming` | app/commons/timing/database.py:264-301 | nothing is emitted without database identity; otherwise `io.db.latency` is emitted with the latency, and each tag is present exactly when its value is set or non-empty |
| `Processors.StatQueryTimingRecord` | app/commons/timing/database.py:304-305 | a query observation is `io.db.latency` with the latency as its value and carries no `query_type` |
| `Processors.StatTransactionTimingRecord` | app/commons/timing/database.py:308-309 | a transaction observation is `io.db.latency` with the latency as its value and is tagged `query_type: transaction` |
| `Processors.RunProcessor` | app/commons/timing/database.py:375 | with database identity, a log processor logs and a stats processor measures; the log subject is `query` for `log_query_timing` and `transaction` otherwise; a measurement is `io.db.latency` with the latency; `query_type` (always `transaction`) and the `transaction` subject appear exactly for a transaction manager |
| `Transactions.ExitStack.constructor` | app/commons/timing/database.py:402-403 | a new exit stack holds no contexts |
| `Transactions.ExitStack.EnterContext` | app/commons/timing/database.py:408-414 | a context is appended to the stack |
| `Transactions.ExitStack.Exit` | app/commons/timing/database.py:423 | exit releases every registered context, last registered first, and leaves the stack empty |
| `Transactions.TrackedTransaction.constructor` | app/commons/timing/database.py:32-35 | a transaction object starts with neither tracker nor stack |
| `Transactions.Phase` | app/commons/timing/database.py:417-453 | a terminal phase exits the tracker only when present, then unwinds the stack only when present, forwarding the exception info and releasing the contexts last first; an exception from either step stops the phase; with both fields None nothing happens; a missing `tracker` raises `AttributeError` at once; a missing `stack` raises `AttributeError` after the tracker is exited, unless that exit raised first |
| `Transactions.OnFailure` | app/commons/timing/database.py:463-467 | the `except` branch reports the caught exception through `error` once and re-raises it, or raises what `error` itself raised |
| `Transactions.FinishWrapped` | app/commons/timing/database.py:471-507 | a result is passed through unchanged after the phase; a failure of the coroutine, or of the phase itself, goes through `error` once, and the failure, or `error`'s own exception, is raised |
| `Transactions.AfterStart` | app/commons/timing/database.py:401-415 | after `start` the object has the fresh stack, which begins with what `_start_tracker` registered; a returned timer becomes the tracker and one breadcrumb naming its function follows; after an exception the tracker is as before and nothing follows |
| `Transactions.TransactionTimingManager.constructor` | app/commons/timing/database.py:383-384 | the manager is configured as `NewTransactionTimingManager` says and has made no calls |
| `Transactions.TransactionTimingManager.Start` | app/commons/timing/database.py:401-415 | after `start` the stack is fresh and holds what `_start_tracker` registered; when a timer is returned it becomes the tracker and the stack ends with one breadcrumb naming its function; when `_start_tracker` raises, the tracker is unchanged and the exception propagates |
| `Transactions.TransactionTimingManager.Finish` | app/commons/timing/database.py:417-453 | the shared body of the terminal phases makes the calls `Phase` lists and empties the stack exactly when it unwinds it; nothing else on the object changes |
| `Transactions.TransactionTimingManager.Commit` | app/commons/timing/database.py:417-423 | `commit` is `Phase` with result `commit` and no exception info |
| `Transactions.TransactionTimingManager.Rollback` | app/commons/timing/database.py:425-438 | `rollback` is `Phase` with result `rollback` and the given exception info |
| `Transactions.TransactionTimingManager.Error` | app/commons/timing/database.py:440-453 | `error` is `Phase` with result `error` and the given exception info |
| `Transactions.TransactionTimingManager.Fail` | app/commons/timing/database.py:463-467 | the `except` branch does what `OnFailure` says, and empties the stack exactly when `error` unwinds it |
| `Transactions.TransactionTimingManager.TrackStart` | app/commons/timing/database.py:455-469 | a tracked object is started first, and an exception from `start` propagates without `error` and before the coroutine; a result is returned unchanged with no further calls; a failure goes through `error` on the started object once and is re-raised; the stack is emptied exactly when it is unwound |
| `Transactions.TransactionTimingManager.TrackCommit` | app/commons/timing/database.py:471-488 | `track_commit` does what `FinishWrapped` says for `commit`, and empties the stack exactly when it is unwound |
| `Transactions.TransactionTimingManager.TrackRollback` | app/commons/timing/database.py:490-507 | `track_rollback` does what `FinishWrapped` says for `rollback`, with the arguments after `obj` as exception info, and empties the stack exactly when it is unwound |

## Left out

- `app/commons/async_kafka_producer.py` is not part of this model. It is a thread-and-callback bridge around a foreign Kafka client, and its point is concurrency.
- `app/payin/core/feature_flags.py` is not part of this model. It only reads flags from an external configuration service.
- Timestamps and `delta_ms` belong to the base timer in `app.commons.tracing`, which this model does not cover. The log processors round the latency to three decimals and the stats processor emits it unrounded; the model hands both the same unrounded `real`, so the log record's latency is the unrounded value.
- Stack introspection (`sys._getframe`, `f_back`, `f_globals`, `f_code.co_name`) is replaced by the given sequence of frames. The sequence is required to be non-empty, because the current frame always exists.
- The structured logger, the stats client and the `log.debug` echo of each observation are left out. An emission is the returned record.
- `format_exc_name` is not part of this model. An exception carries its formatted name.
- The breadcrumb context manager, context variables and pydantic's `dict(skip_defaults=True)` are left out. The breadcrumb is the map of its set fields. An unset `transaction_name` reads as None.
- `_start_tracker`, `_exit_tracker` and `_decorate_class_method` are defined in the base manager in `app.commons.tracing`, which this model does not cover. Only their calls and results are modelled. `QueryTimingManager.__call__` and `TransactionTimingManager.__call__` (which only raises `NotImplementedError`) are left out.
- Timers.QueryTimer.Exit: does not record the end timestamp that the base timer's `__exit__` takes, because that timer is not part of this model.
- Timers.QueryTimer.ProcessResult: does not model the base timer's `process_result`, whose return value is passed back, because that timer is not part of this model.
- Transactions.TransactionTimingManager.Start: what `_start_tracker` registers on the stack and whether it raises are inputs, not derived, because its body is in the base manager in `app.commons.tracing`, which this model does not cover.
- Transactions.ExitStack.Exit: the released contexts' own exits never raise or suppress in the model. Their bodies are in the tracing module and in `contextlib`.
- Transactions.TransactionTimingManager.TrackStart and likewise `TrackCommit` and `TrackRollback`: the wrapped coroutine is a single step with a given outcome, and its effects on the object are not modelled. `await` scheduling is left out.
- The wrappers' argument handling is reduced to `obj` plus an optional exception for `rollback`. A call without arguments (`args[0]` failing) and `rollback` receiving more than three positional arguments are left out.
- `isinstance` checks against the `Database` and `TrackedTransaction` protocols are modelled as capability flags: an optional database identity, and the `hasTracker` / `hasStack` attributes.
- Running a manager's processor list is done by the base manager in `app.commons.tracing`, which this model does not cover. Only one processor's run is modelled, in `RunProcessor`.
