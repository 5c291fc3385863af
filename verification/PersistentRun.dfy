/**
 One run of a persistent job: an optional record of its start, a lock when only one instance may run, the
 handler, and one way out through `Finish`, whichever way it ends.

 What the world outside does in a run is a `Scenario`. The run leaves a trace of the calls it made; the
 reference is the trace that the scenario calls for, written out from front to back.
 */
module PersistentRun {
  import opened Wrappers

  datatype Status = Success | Failed | TimedOut | Canceled | Skipped

  /** What the handler's error is, or wraps. */
  datatype HandlerError = HandlerError(deadlineExceeded: bool, canceled: bool)

  /** How TryLock ends; a panic inside it is an error. */
  datatype LockTry = LockError | NotAcquired | NoLock | Acquired

  /** `Exits`: the handler ends its goroutine, and nothing is recovered. */
  datatype HandlerEnd = Returns(err: Option<HandlerError>) | Panics | Exits

  datatype ContextEnd = Live | PastDeadline | Cancelled

  /** `errorPanics`: asking the handler's error for its text panics. */
  datatype Scenario = Scenario(
    recorded: bool, startFails: bool, finishFails: bool, singleton: bool, lockTry: LockTry, handler: HandlerEnd, context: ContextEnd,
    unlockFails: bool, errorPanics: bool)

  datatype Act = RecordStart | TryLock | Handle | Unlock | RecordFinish(status: Status)

  datatype Way = Returning | Panicking | Exiting

  /** How the run ends for its caller. */
  datatype End = Completed | Errored | Panicked | Exited

  // ---------------------------------------------------------------------------------------------
  // What a scenario calls for
  // ---------------------------------------------------------------------------------------------

  predicate Locked(s: Scenario) {
    s.singleton && s.lockTry == Acquired
  }

  predicate Handled(s: Scenario) {
    s.singleton ==> s.lockTry == Acquired
  }

  /** The handler returned an error whose text cannot be had. */
  predicate Unreadable(s: Scenario) {
    Handled(s) && s.errorPanics && s.handler.Returns? && s.handler.err.Some?
  }

  /** The handler took the goroutine with it. */
  predicate Vanishes(s: Scenario) {
    Handled(s) && s.handler.Exits?
  }

  /** The handler returned no error before its time was up, and the lock, if there was one, was given back. */
  predicate Succeeds(s: Scenario) {
    Handled(s) && s.handler == Returns(None) && s.context == Live && !(Locked(s) && s.unlockFails)
  }

  predicate Overran(s: Scenario) {
    s.context == PastDeadline || (s.handler.Returns? && s.handler.err.Some? && s.handler.err.value.deadlineExceeded)
  }

  predicate WasCanceled(s: Scenario) {
    s.context == Cancelled || (s.handler.Returns? && s.handler.err.Some? && s.handler.err.value.canceled)
  }

  predicate BlowsUp(s: Scenario) {
    (Handled(s) && s.handler.Panics?) || Unreadable(s)
  }

  /** A recorder that fails does not change how the run ends, but it is reported. */
  predicate Unobserved(s: Scenario) {
    s.recorded && (s.startFails || s.finishFails)
  }

  function FinalStatus(s: Scenario): Status {
    if !Handled(s) then (if s.lockTry == NotAcquired then Skipped else Failed)
    else if !s.handler.Returns? then Failed
    else if Overran(s) then TimedOut
    else if WasCanceled(s) then Canceled
    else if Succeeds(s) then Success
    else Failed
  }

  function Opening(s: Scenario): seq<Act> {
    (if s.recorded then [RecordStart] else []) + (if s.singleton then [TryLock] else []) + (if Handled(s) then [Handle] else [])
  }

  predicate IsRecorded(s: Scenario) {
    s.recorded && !Unreadable(s) && !Vanishes(s)
  }

  function Calls(s: Scenario): seq<Act> {
    Opening(s)
    + (if Locked(s) && !Vanishes(s) then [Unlock] else [])
    + (if IsRecorded(s) then [RecordFinish(FinalStatus(s))] else [])
  }

  function Count(acts: seq<Act>, act: Act): nat {
    if acts == [] then 0 else Count(acts[..|acts| - 1], act) + if acts[|acts| - 1] == act then 1 else 0
  }

  function Finishes(acts: seq<Act>): nat {
    if acts == [] then 0 else Finishes(acts[..|acts| - 1]) + if acts[|acts| - 1].RecordFinish? then 1 else 0
  }

  lemma CountsMore(acts: seq<Act>, more: Act, act: Act)
    ensures Count(acts + [more], act) == Count(acts, act) + if more == act then 1 else 0
    ensures Finishes(acts + [more]) == Finishes(acts) + if more.RecordFinish? then 1 else 0
  {
    assert (acts + [more])[..|acts + [more]| - 1] == acts;
  }

  // ---------------------------------------------------------------------------------------------
  // The run
  // ---------------------------------------------------------------------------------------------

  class Run {
    const s: Scenario
    var trace: seq<Act>
    var lock: bool
    var finalized: bool

    constructor (s: Scenario)
      ensures this.s == s && trace == [] && !lock && !finalized
    {
      this.s, trace, lock, finalized := s, [], false, false;
    }

    /** Gives the lock back and records how the run ended, once; `panics` when the error's text cannot be had. */
    method Finish(initial: Status, failed: bool, unreadable: bool) returns (panics: bool, failed': bool)
      modifies this
      ensures finalized && (!old(finalized) ==> !lock)
      ensures old(finalized) ==> trace == old(trace) && lock == old(lock) && finalized && !panics && failed' == failed
      ensures !old(finalized) ==>
                && panics == ((failed || (old(lock) && s.unlockFails)) && unreadable)
                && trace == old(trace) + (if old(lock) then [Unlock] else [])
                            + (if s.recorded && !panics
                               then [RecordFinish(if initial == Success && old(lock) && s.unlockFails then Failed else initial)] else [])
                && (!panics ==> (failed' <==> failed || (old(lock) && s.unlockFails) || (s.recorded && s.finishFails)))
    {
      if finalized {
        return false, failed;
      }
      finalized := true;
      var status := initial;
      failed' := failed;
      if lock {
        trace, lock := trace + [Unlock], false;
        if s.unlockFails {
          failed' := true;
          if status == Success {
            status := Failed;
          }
        }
      }
      if failed' && unreadable {
        return true, failed';
      }
      if s.recorded {
        trace := trace + [RecordFinish(status)];
        failed' := failed' || s.finishFails;
      }
      panics := false;
    }

    /** Everything but the deferred recovery; `way` says how the body is left. */
    method Body() returns (way: Way, failed: bool)
      requires trace == [] && !lock && !finalized
      modifies this
      ensures way.Exiting? <==> Vanishes(s)
      ensures way.Panicking? <==> BlowsUp(s)
      ensures if Handled(s) && !s.handler.Returns? then !finalized && lock == Locked(s) && trace == Opening(s)
              else finalized && !lock && trace == Calls(s)
      ensures way.Returning? ==> (failed <==> (FinalStatus(s) != Success && FinalStatus(s) != Skipped) || Unobserved(s))
    {
      failed := false;
      if s.recorded {
        trace := [RecordStart];
        failed := s.startFails;
      }
      var observed := failed;
      var panics;
      if s.singleton {
        trace := trace + [TryLock];
        if s.lockTry != Acquired {
          panics, failed := Finish(if s.lockTry == NotAcquired then Skipped else Failed, s.lockTry != NotAcquired, false);
          return Returning, failed || observed;
        }
        lock := true;
      }
      trace := trace + [Handle];
      if !s.handler.Returns? {
        return if s.handler.Panics? then Panicking else Exiting, false;
      }
      panics, failed := Conclude();
      return if panics then Panicking else Returning, failed || observed;
    }

    /** From the handler's return on. */
    method Conclude() returns (panics: bool, failed: bool)
      requires !finalized && Handled(s) && s.handler.Returns? && lock == Locked(s) && trace == Opening(s)
      modifies this
      ensures finalized && !lock && trace == Calls(s) && panics == Unreadable(s)
      ensures !panics ==> (failed <==> FinalStatus(s) != Success || (s.recorded && s.finishFails))
    {
      var err := s.handler.err;
      if s.context == PastDeadline || (err.Some? && err.value.deadlineExceeded) {
        panics, failed := Finish(TimedOut, true, err.Some? && s.errorPanics);
      } else if s.context == Cancelled || (err.Some? && err.value.canceled) {
        panics, failed := Finish(Canceled, true, err.Some? && s.errorPanics);
      } else if err.Some? {
        panics, failed := Finish(Failed, true, s.errorPanics);
      } else {
        panics, failed := Finish(Success, false, false);
      }
    }

    /** The body, and the recovery that runs whichever way it ends; it has nothing to recover when the goroutine exits. */
    method Execute() returns (end: End)
      requires trace == [] && !lock && !finalized
      modifies this
      ensures trace == Calls(s) && lock == (Locked(s) && Vanishes(s))
      ensures end == Panicked <==> BlowsUp(s)
      ensures end == Exited <==> Vanishes(s)
      ensures end == Completed
              <==> !BlowsUp(s) && !Vanishes(s) && (FinalStatus(s) == Success || FinalStatus(s) == Skipped) && !Unobserved(s)
    {
      var way, failed := Body();
      match way {
        case Panicking =>
          var again, still := Finish(Failed, true, false);
          return Panicked;
        case Exiting =>
          return Exited;
        case Returning =>
          return if failed then Errored else Completed;
      }
    }
  }

  // ---------------------------------------------------------------------------------------------
  // What the calls of every run have in common
  // ---------------------------------------------------------------------------------------------

  /** A lock that was taken is given back exactly once, unless the handler exits; one that was not is never given back. */
  lemma LockIsGivenBackExactlyUnless(s: Scenario)
    ensures Count(Calls(s), Unlock) == if Locked(s) && !Vanishes(s) then 1 else 0
    ensures Count(Calls(s), Handle) == if Handled(s) then 1 else 0
  {
    CallsCounted(s, Unlock);
    CallsCounted(s, Handle);
  }

  /** The end of a run is recorded exactly once if runs are recorded, unless the handler exits or the text of its error cannot be had. */
  lemma FinishIsRecordedExactlyUnless(s: Scenario)
    ensures Finishes(Calls(s)) == if s.recorded && !Unreadable(s) && !Vanishes(s) then 1 else 0
    ensures Count(Calls(s), RecordStart) == if s.recorded then 1 else 0
  {
    CallsCounted(s, RecordStart);
  }

  /** Success is recorded exactly for runs that succeed. */
  lemma SuccessIsRecordedExactlyIf(s: Scenario)
    ensures RecordFinish(Success) in Calls(s) <==> s.recorded && Succeeds(s)
  {
  }

  /** What each of the other ends is recorded for; a run past its deadline is timed out even if it was canceled as well. */
  predicate Fits(s: Scenario, status: Status) {
    var returned := Handled(s) && s.handler.Returns?;
    var late := returned && (s.context == PastDeadline || (s.handler.err.Some? && s.handler.err.value.deadlineExceeded));
    var canceled := returned && (s.context == Cancelled || (s.handler.err.Some? && s.handler.err.value.canceled));
    match status
    case Success => returned && s.handler.err.None? && s.context == Live && !(Locked(s) && s.unlockFails)
    case Skipped => s.singleton && s.lockTry == NotAcquired
    case TimedOut => late
    case Canceled => canceled && !late
    case Failed =>
      || (s.singleton && (s.lockTry == LockError || s.lockTry == NoLock))
      || (Handled(s) && s.handler.Panics?)
      || (returned && !late && !canceled && (s.handler.err.Some? || (Locked(s) && s.unlockFails)))
  }

  /** The status recorded is the one that fits the run; exactly one does, unless the handler exits. */
  lemma StatusIsRecordedExactlyIf(s: Scenario, status: Status)
    ensures RecordFinish(status) in Calls(s) <==> s.recorded && !Unreadable(s) && Fits(s, status)
    ensures !Vanishes(s) ==> Fits(s, FinalStatus(s)) && (Fits(s, status) ==> status == FinalStatus(s))
    ensures Vanishes(s) ==> !Fits(s, status)
  {
    FinishIsTheLast(s, status);
  }

  lemma FinishIsTheLast(s: Scenario, status: Status)
    ensures RecordFinish(status) in Calls(s) <==> IsRecorded(s) && status == FinalStatus(s)
  {
    assert RecordFinish(status) !in Opening(s);
  }

  /** The handler runs before the lock is given back, and the end is recorded last. */
  lemma CallsAreInOrder(s: Scenario, i: nat, j: nat)
    requires i < |Calls(s)| && j < |Calls(s)|
    ensures Calls(s)[i] == Handle && Calls(s)[j] == Unlock ==> i < j
    ensures Calls(s)[i] == TryLock && Calls(s)[j] == Handle ==> i < j
    ensures Calls(s)[i].RecordFinish? ==> i == |Calls(s)| - 1
  {
  }

  lemma CountsIf(acts: seq<Act>, b: bool, more: Act, act: Act)
    ensures var all := acts + (if b then [more] else []);
            && Count(all, act) == Count(acts, act) + (if b && more == act then 1 else 0)
            && Finishes(all) == Finishes(acts) + (if b && more.RecordFinish? then 1 else 0)
  {
    CountsMore(acts, more, act);
    assert acts + [] == acts;
  }

  lemma CallsCounted(s: Scenario, act: Act)
    ensures Count(Calls(s), act) == (match act
                                     case RecordStart => if s.recorded then 1 else 0
                                     case TryLock => if s.singleton then 1 else 0
                                     case Handle => if Handled(s) then 1 else 0
                                     case Unlock => if Locked(s) && !Vanishes(s) then 1 else 0
                                     case RecordFinish(status) => if IsRecorded(s) && status == FinalStatus(s) then 1 else 0)
    ensures Finishes(Calls(s)) == if IsRecorded(s) then 1 else 0
  {
    OpeningCounted(s, act);
    var d := Opening(s) + if Locked(s) && !Vanishes(s) then [Unlock] else [];
    CountsIf(Opening(s), Locked(s) && !Vanishes(s), Unlock, act);
    CountsIf(d, IsRecorded(s), RecordFinish(FinalStatus(s)), act);
  }

  lemma OpeningCounted(s: Scenario, act: Act)
    ensures Count(Opening(s), act) == (match act
                                       case RecordStart => if s.recorded then 1 else 0
                                       case TryLock => if s.singleton then 1 else 0
                                       case Handle => if Handled(s) then 1 else 0
                                       case _ => 0)
    ensures Finishes(Opening(s)) == 0
  {
    var a := if s.recorded then [RecordStart] else [];
    var b := a + if s.singleton then [TryLock] else [];
    CountsIf([], s.recorded, RecordStart, act);
    assert [] + a == a;
    CountsIf(a, s.singleton, TryLock, act);
    CountsIf(b, Handled(s), Handle, act);
  }
}
