/**
  Outcome classification of a measured span: the query and transaction
  status values, the exceptions a span can end with, and how a span's
  `request_status` evolves when it is exited.
 */
module Status {
  import opened Wrappers

  /** `QueryStatus` */
  const Success := "success"
  const Timeout := "timeout"
  const ErrorStatus := "error"

  /** `TransactionStatus` (its `error` is the same string as `QueryStatus.error`) */
  const Commit := "commit"
  const Rollback := "rollback"

  /** The exception classes the timer treats as timeouts. */
  datatype TimeoutClass =
    | AsyncioTimeoutError
    | AsyncioCancelledError
    | FuturesTimeoutError
    | QueryCanceledError

  /**
    An exception raised inside a span: `name` is its formatted class name (what
    `format_exc_name` gives for its type) and `timeoutBases` the timeout classes
    it is an instance of.
   */
  datatype Exc = Exc(name: string, timeoutBases: set<TimeoutClass>)

  /** What Python raises when a phase reads an attribute the object lacks. */
  const AttributeError := Exc("AttributeError", {})

  /** `isinstance(exc_value, (asyncio.TimeoutError, asyncio.CancelledError, concurrent.futures.TimeoutError, QueryCanceledError))` */
  predicate TimeoutLike(e: Exc) {
    e.timeoutBases != {}
  }

  /** A status that an exit must not override: set and not `success`. */
  predicate Settled(status: string) {
    status != "" && status != Success
  }

  /** `request_status` after `__exit__` with the given exception (None: a clean exit). */
  function StatusAfterExit(status: string, exc: Option<Exc>): (r: string)
    ensures exc.None? ==> r == status
    ensures exc.Some? ==> Settled(r)
    ensures Settled(status) ==> r == status
    ensures exc.Some? && !Settled(status) ==> (r == Timeout <==> TimeoutLike(exc.value))
    ensures exc.Some? && !Settled(status) ==> (r == ErrorStatus <==> !TimeoutLike(exc.value))
  {
    match exc
    case None => status
    case Some(e) =>
      if Settled(status) then status
      else if TimeoutLike(e) then Timeout
      else ErrorStatus
  }

  /** `exception_name` after `__exit__`: an exception is always recorded, whatever the status. */
  function NameAfterExit(name: string, exc: Option<Exc>): (r: string)
    ensures exc.None? ==> r == name
    ensures exc.Some? ==> r == exc.value.name
  {
    if exc.Some? then exc.value.name else name
  }

  /** The status after a series of exits of the same timer, in order. */
  function StatusAfterExits(status: string, exits: seq<Option<Exc>>): string
    decreases |exits|
  {
    if exits == [] then status else StatusAfterExits(StatusAfterExit(status, exits[0]), exits[1..])
  }

  /** A settled status survives every later exit, clean or not. */
  lemma {:induction false} SettledIsFrozen(status: string, exits: seq<Option<Exc>>)
    requires Settled(status)
    ensures StatusAfterExits(status, exits) == status
    decreases |exits|
  {
    if exits != [] {
      SettledIsFrozen(StatusAfterExit(status, exits[0]), exits[1..]);
    }
  }

  /**
    The first exit that carries an exception decides the status for good:
    clean exits before it change nothing, and every exit after it is ignored.
   */
  lemma {:induction false} FirstExceptionDecides(status: string, exits: seq<Option<Exc>>, k: nat)
    requires k < |exits| && exits[k].Some?
    requires forall j :: 0 <= j < k ==> exits[j].None?
    ensures StatusAfterExits(status, exits) == StatusAfterExit(status, exits[k])
    decreases k
  {
    if k == 0 {
      SettledIsFrozen(StatusAfterExit(status, exits[0]), exits[1..]);
    } else {
      assert exits[0].None?;
      FirstExceptionDecides(status, exits[1..], k - 1);
    }
  }

  /** Clean exits alone never change the status. */
  lemma {:induction false} CleanExitsKeepStatus(status: string, exits: seq<Option<Exc>>)
    requires forall j :: 0 <= j < |exits| ==> exits[j].None?
    ensures StatusAfterExits(status, exits) == status
    decreases |exits|
  {
    if exits != [] {
      CleanExitsKeepStatus(status, exits[1..]);
    }
  }
}
