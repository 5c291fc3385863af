/**
 The phases of a server's life: startup hooks before and after the listener is bound, shutdown hooks, and
 stop hooks.

 A call that runs hooks takes the lock twice, once to enter and once to leave; its hooks run in between,
 without the lock, and may themselves call in again. So a call is an invocation with two steps, and a run
 is any interleaving of the steps of any number of invocations.
 */
module Lifecycle {
  import opened Wrappers
  import Tasks

  datatype Phase = Start | Started | Shutdown | Stop

  /** `Hook` is an error from a hook or its context; it may itself wrap a phase-in-progress error. */
  datatype Error = PhaseInProgress(phase: Phase) | StartupInProgress | Canceled | Hook(code: int, wrapsPhase: bool)

  type Outcome = Option<Error>

  /** What errors.Is(err, ErrPhaseInProgress) says. */
  predicate IsPhaseError(o: Outcome) {
    o.Some? && (o.value.PhaseInProgress? || o.value.StartupInProgress? || (o.value.Hook? && o.value.wrapsPhase))
  }

  datatype State = State(
    startHooksRun: bool, startRunning: bool,
    started: bool, starting: bool,
    shutdown: bool, shutdownOnce: bool,
    shutdownHooksRun: bool, shutdownRunning: bool, shutdownResult: Outcome,
    stopRunning: bool, stopResult: Outcome)

  const NEW: State := State(false, false, false, false, false, false, false, false, None, false, None)

  predicate Intended(s: State) {
    s.shutdownOnce || s.shutdown
  }

  // ---------------------------------------------------------------------------------------------
  // Entering and leaving
  // ---------------------------------------------------------------------------------------------

  /** Answered at once, or the caller runs the hooks. */
  datatype Entry = Return(result: Outcome) | RunHooks

  function Enter(s: State, phase: Phase, shutdownErr: Outcome): (State, Entry) {
    match phase
    case Start =>
      if s.startHooksRun then (s, Return(None))
      else if Intended(s) then (s, Return(Some(Canceled)))
      else if s.startRunning then (s, Return(Some(PhaseInProgress(Start))))
      else (s.(startRunning := true), RunHooks)
    case Started =>
      if s.started then (s, Return(None))
      else if Intended(s) then (s, Return(Some(Canceled)))
      else if s.starting then (s, Return(Some(PhaseInProgress(Started))))
      else (s.(starting := true), RunHooks)
    case Shutdown =>
      if s.shutdownRunning then (s, Return(Some(PhaseInProgress(Shutdown))))
      else if s.shutdownHooksRun then (s, Return(s.shutdownResult))
      else if s.startRunning || s.starting then (s.(shutdownOnce := true), Return(Some(StartupInProgress)))
      else (s.(shutdownOnce := true, shutdownRunning := true, shutdownResult := None), RunHooks)
    case Stop =>
      if !s.shutdownHooksRun then (s, Return(shutdownErr))
      else if s.stopRunning then (s, Return(Some(PhaseInProgress(Stop))))
      else if s.shutdown then (s, Return(s.stopResult))
      else (s.(stopRunning := true, stopResult := None), RunHooks)
  }

  /** What the hooks came to, and what it counts as: startup that shutdown overtook is canceled. */
  function ResultOf(s: State, phase: Phase, hooks: Outcome): Outcome {
    if (phase.Start? || phase.Started?) && hooks.None? && Intended(s) then Some(Canceled) else hooks
  }

  function Leave(s: State, phase: Phase, hooks: Outcome): State {
    var r := ResultOf(s, phase, hooks);
    match phase
    case Start => s.(startHooksRun := r.None?, startRunning := false)
    case Started => s.(started := r.None?, starting := false)
    case Shutdown => s.(shutdownRunning := false, shutdownHooksRun := true, shutdownResult := r)
    case Stop => s.(shutdown := true, stopRunning := false, stopResult := r)
  }

  // ---------------------------------------------------------------------------------------------
  // Runs
  // ---------------------------------------------------------------------------------------------

  datatype Event = Began(phase: Phase, id: nat) | Ended(phase: Phase, id: nat, result: Outcome)

  /**
   `running` are the batches of hooks under way, by invocation; `ready` are the invocations whose BeginStart
   returned without error, and `stopping` those that may go on to stop, with what shutdown returned to them.
   */
  datatype World = World(s: State, running: map<nat, Phase>, ready: set<nat>, stopping: map<nat, Outcome>, log: seq<Event>)

  datatype Move = Call(id: nat, phase: Phase) | Finish(id: nat, hooks: Outcome)

  const BEGIN: World := World(NEW, map[], {}, map[], [])

  /** An invocation calls when it is not running hooks; MarkStarted after BeginStart, Stop after BeginShutdown. */
  predicate Enabled(w: World, move: Move) {
    match move
    case Call(id, phase) =>
      id !in w.running && (phase.Started? ==> id in w.ready) && (phase.Stop? ==> id in w.stopping)
    case Finish(id, _) => id in w.running
  }

  /** What a call has been answered, whether at once or after its hooks, opens the way to the next call. */
  function Answered(w: World, id: nat, phase: Phase, result: Outcome): World {
    match phase
    case Start => if result.None? then w.(ready := w.ready + {id}) else w
    case Shutdown => if IsPhaseError(result) then w else w.(stopping := w.stopping[id := result])
    case _ => w
  }

  /** Stop reports what shutdown returned before what its own hooks did. */
  function HooksResult(w: World, id: nat, phase: Phase, hooks: Outcome): Outcome {
    if phase.Stop? && id in w.stopping && w.stopping[id].Some? then w.stopping[id] else hooks
  }

  function Step(w: World, move: Move): World
    requires Enabled(w, move)
  {
    match move
    case Call(id, phase) =>
      var (s, entry) := Enter(w.s, phase, if phase.Stop? then w.stopping[id] else None);
      (match entry
       case Return(result) => Answered(w.(s := s), id, phase, result)
       case RunHooks => w.(s := s, running := w.running[id := phase], log := w.log + [Began(phase, id)]))
    case Finish(id, hooks) =>
      var phase := w.running[id];
      var all := HooksResult(w, id, phase, hooks);
      var r := ResultOf(w.s, phase, all);
      Answered(w.(s := Leave(w.s, phase, all), running := w.running - {id}, log := w.log + [Ended(phase, id, r)]), id, phase, r)
  }

  /** The world after the moves; a move that is not enabled does not happen. */
  function Run(moves: seq<Move>): World {
    if moves == [] then BEGIN
    else
      var w := Run(moves[..|moves| - 1]);
      if Enabled(w, moves[|moves| - 1]) then Step(w, moves[|moves| - 1]) else w
  }

  // ---------------------------------------------------------------------------------------------
  // What every step keeps
  // ---------------------------------------------------------------------------------------------

  /** The flags exclude each other in the order of the phases. */
  predicate Ordered(s: State) {
    && (s.startHooksRun ==> !s.startRunning) && (s.starting || s.started ==> s.startHooksRun)
    && (s.shutdownRunning || s.shutdownHooksRun ==> s.shutdownOnce && !s.startRunning && !s.starting)
    && !(s.shutdownRunning && s.shutdownHooksRun)
    && (s.stopRunning || s.shutdown ==> s.shutdownHooksRun) && !(s.stopRunning && s.shutdown) && !(s.started && s.starting)
  }

  /** Every batch that began ended before the next began. */
  ghost predicate Bracketed(log: seq<Event>) {
    forall i :: 0 <= i < |log| ==> Follows(Previous(log, i), log[i])
  }

  function Previous(log: seq<Event>, i: nat): Option<Event>
    requires i <= |log|
  {
    if i == 0 then None else Some(log[i - 1])
  }

  predicate Follows(previous: Option<Event>, e: Event) {
    match e
    case Began(_, _) => previous.None? || previous.value.Ended?
    case Ended(phase, id, _) => previous == Some(Began(phase, id))
  }

  /** The batch that has begun and not ended. */
  function Current(log: seq<Event>): Option<Event> {
    if log != [] && log[|log| - 1].Began? then Some(log[|log| - 1]) else None
  }

  /** Exactly that batch is running, and its flag alone is up. */
  predicate RunningIs(s: State, running: map<nat, Phase>, current: Option<Event>) {
    && running == (match current case Some(e) => map[e.id := e.phase] case None => map[])
    && s.startRunning == (current.Some? && current.value.phase == Start)
    && s.starting == (current.Some? && current.value.phase == Started)
    && s.shutdownRunning == (current.Some? && current.value.phase == Shutdown)
    && s.stopRunning == (current.Some? && current.value.phase == Stop)
  }

  function Begun(log: seq<Event>, phase: Phase): nat {
    if log == [] then 0
    else Begun(log[..|log| - 1], phase) + if log[|log| - 1].Began? && log[|log| - 1].phase == phase then 1 else 0
  }

  /** How often the hooks of a phase succeeded. */
  function Succeeded(log: seq<Event>, phase: Phase): nat {
    if log == [] then 0
    else
      var e := log[|log| - 1];
      Succeeded(log[..|log| - 1], phase) + if e.Ended? && e.phase == phase && e.result.None? then 1 else 0
  }

  predicate Flag(b: bool, n: nat) {
    n == if b then 1 else 0
  }

  ghost predicate Counted(s: State, log: seq<Event>) {
    && Flag(s.shutdownRunning || s.shutdownHooksRun, Begun(log, Shutdown)) && Flag(s.stopRunning || s.shutdown, Begun(log, Stop))
    && Flag(s.startHooksRun, Succeeded(log, Start)) && Flag(s.started, Succeeded(log, Started))
  }

  /** What invocations carry from one call to the next is still so. */
  ghost predicate Carried(w: World) {
    && (w.ready != {} ==> w.s.startHooksRun)
    && (forall id :: id in w.stopping ==>
          w.s.shutdownHooksRun && w.stopping[id] == w.s.shutdownResult && !IsPhaseError(w.s.shutdownResult))
    && (w.s.stopRunning || w.s.shutdown ==> !IsPhaseError(w.s.shutdownResult))
    && (w.s.shutdown && w.s.shutdownResult.Some? ==> w.s.stopResult == w.s.shutdownResult)
    && (forall id :: id in w.running && w.running[id].Stop? ==> id in w.stopping)
  }

  ghost predicate Inv(w: World) {
    Ordered(w.s) && Bracketed(w.log) && RunningIs(w.s, w.running, Current(w.log)) && Counted(w.s, w.log) && Carried(w)
  }

  lemma BeganMore(log: seq<Event>, phase: Phase, id: nat, p: Phase)
    ensures Begun(log + [Began(phase, id)], p) == Begun(log, p) + if p == phase then 1 else 0
    ensures Succeeded(log + [Began(phase, id)], p) == Succeeded(log, p)
  {
    var more := log + [Began(phase, id)];
    assert more[..|more| - 1] == log;
  }

  lemma EndedMore(log: seq<Event>, phase: Phase, id: nat, r: Outcome, p: Phase)
    ensures Begun(log + [Ended(phase, id, r)], p) == Begun(log, p)
    ensures Succeeded(log + [Ended(phase, id, r)], p) == Succeeded(log, p) + if p == phase && r.None? then 1 else 0
  {
    var more := log + [Ended(phase, id, r)];
    assert more[..|more| - 1] == log;
  }

  lemma BracketedMore(log: seq<Event>, e: Event)
    requires Bracketed(log) && Follows(Previous(log, |log|), e)
    ensures Bracketed(log + [e])
  {
    var more := log + [e];
    forall i | 0 <= i < |more|
      ensures Follows(Previous(more, i), more[i])
    {
      if i < |log| {
        assert Follows(Previous(log, i), log[i]) && Previous(more, i) == Previous(log, i);
      }
    }
  }

  function EnterOf(w: World, id: nat, phase: Phase): (State, Entry)
    requires Enabled(w, Call(id, phase))
  {
    Enter(w.s, phase, if phase.Stop? then w.stopping[id] else None)
  }

  /** When hooks begin, none are running. */
  lemma NothingRunsAtEntry(w: World, id: nat, phase: Phase)
    requires Inv(w) && Enabled(w, Call(id, phase)) && EnterOf(w, id, phase).1.RunHooks?
    ensures Current(w.log) == None && w.running == map[]
    ensures Ordered(EnterOf(w, id, phase).0) && RunningIs(EnterOf(w, id, phase).0, map[id := phase], Some(Began(phase, id)))
  {
  }

  lemma EntryKeepsInv(w: World, id: nat, phase: Phase)
    requires Inv(w) && Enabled(w, Call(id, phase)) && EnterOf(w, id, phase).1.RunHooks?
    ensures Inv(Step(w, Call(id, phase)))
  {
    NothingRunsAtEntry(w, id, phase);
    BracketedMore(w.log, Began(phase, id));
    BeganMore(w.log, phase, id, Shutdown);
    BeganMore(w.log, phase, id, Stop);
    BeganMore(w.log, phase, id, Start);
    BeganMore(w.log, phase, id, Started);
    assert w.running[id := phase] == map[id := phase];
  }

  lemma ReturnKeepsInv(w: World, id: nat, phase: Phase)
    requires Inv(w) && Enabled(w, Call(id, phase)) && EnterOf(w, id, phase).1.Return?
    ensures Inv(Step(w, Call(id, phase)))
  {
  }

  /** The state after the hooks, and what they came to. */
  function LeaveOf(w: World, id: nat, hooks: Outcome): (State, Outcome)
    requires id in w.running
  {
    var all := HooksResult(w, id, w.running[id], hooks);
    (Leave(w.s, w.running[id], all), ResultOf(w.s, w.running[id], all))
  }

  lemma LeavingIsOrdered(w: World, id: nat, hooks: Outcome)
    requires Inv(w) && id in w.running
    ensures Current(w.log) == Some(Began(w.running[id], id)) && w.running - {id} == map[]
    ensures Ordered(LeaveOf(w, id, hooks).0) && RunningIs(LeaveOf(w, id, hooks).0, map[], None)
  {
    assert w.running == map[id := w.running[id]];
  }

  lemma LeavingIsCounted(w: World, id: nat, hooks: Outcome)
    requires Inv(w) && id in w.running
    ensures var (s, r) := LeaveOf(w, id, hooks);
            Counted(s, w.log + [Ended(w.running[id], id, r)])
  {
    var phase, r := w.running[id], LeaveOf(w, id, hooks).1;
    LeavingIsOrdered(w, id, hooks);
    EndedMore(w.log, phase, id, r, Shutdown);
    EndedMore(w.log, phase, id, r, Stop);
    EndedMore(w.log, phase, id, r, Start);
    EndedMore(w.log, phase, id, r, Started);
  }

  lemma LeavingIsCarried(w: World, id: nat, hooks: Outcome)
    requires Inv(w) && id in w.running
    ensures Carried(Step(w, Finish(id, hooks)))
  {
    LeavingIsOrdered(w, id, hooks);
  }

  lemma FinishKeepsInv(w: World, id: nat, hooks: Outcome)
    requires Inv(w) && id in w.running
    ensures Inv(Step(w, Finish(id, hooks)))
  {
    LeavingIsOrdered(w, id, hooks);
    LeavingIsCounted(w, id, hooks);
    LeavingIsCarried(w, id, hooks);
    BracketedMore(w.log, Ended(w.running[id], id, LeaveOf(w, id, hooks).1));
  }

  lemma {:induction false} RunKeepsInv(moves: seq<Move>)
    ensures Inv(Run(moves))
  {
    if moves != [] {
      var front, move := moves[..|moves| - 1], moves[|moves| - 1];
      RunKeepsInv(front);
      var w := Run(front);
      if Enabled(w, move) {
        match move
        case Call(id, phase) =>
          if EnterOf(w, id, phase).1.RunHooks? {
            EntryKeepsInv(w, id, phase);
          } else {
            ReturnKeepsInv(w, id, phase);
          }
        case Finish(id, hooks) => FinishKeepsInv(w, id, hooks);
      }
    }
  }

  // ---------------------------------------------------------------------------------------------
  // Over whole runs
  // ---------------------------------------------------------------------------------------------

  /** No two batches of hooks are ever under way together. */
  lemma BatchesNeverOverlap(moves: seq<Move>, i: nat, j: nat)
    requires i in Run(moves).running && j in Run(moves).running
    ensures i == j && Bracketed(Run(moves).log)
  {
    RunKeepsInv(moves);
  }

  lemma {:induction false} EndingIsLogged(moves: seq<Move>)
    ensures var w := Run(moves);
            w.s.shutdownHooksRun ==> exists i :: 0 <= i < |w.log| && w.log[i].Ended? && w.log[i].phase == Shutdown
  {
    if moves != [] {
      var front := moves[..|moves| - 1];
      EndingIsLogged(front);
      RunKeepsInv(front);
      LogOnlyGrows(front, moves[|moves| - 1]);
      var w, w' := Run(front), Run(moves);
      if w.s.shutdownHooksRun {
        var i :| 0 <= i < |w.log| && w.log[i].Ended? && w.log[i].phase == Shutdown;
        assert w'.log[i] == w.log[i];
      } else if w'.s.shutdownHooksRun {
        assert w'.log[|w.log|].Ended? && w'.log[|w.log|].phase == Shutdown;
      }
    }
  }

  lemma LogOnlyGrows(moves: seq<Move>, move: Move)
    ensures Run(moves).log <= Run(moves + [move]).log
    ensures |Run(moves + [move]).log| <= |Run(moves).log| + 1
  {
    assert (moves + [move])[..|moves + [move]| - 1] == moves;
  }

  /** Shutdown hooks run at most once, and so do stop hooks; startup succeeds at most once. */
  lemma PhasesHappenOnce(moves: seq<Move>)
    ensures Begun(Run(moves).log, Shutdown) <= 1 && Begun(Run(moves).log, Stop) <= 1
    ensures Succeeded(Run(moves).log, Start) <= 1 && Succeeded(Run(moves).log, Started) <= 1
  {
    RunKeepsInv(moves);
  }

  /** When stop hooks begin, the shutdown hooks have ended. */
  lemma {:induction false} StopFollowsShutdown(moves: seq<Move>, j: nat)
    requires j < |Run(moves).log| && Run(moves).log[j].Began? && Run(moves).log[j].phase == Stop
    ensures exists i :: 0 <= i < j && Run(moves).log[i].Ended? && Run(moves).log[i].phase == Shutdown
  {
    if moves != [] {
      var front := moves[..|moves| - 1];
      LogOnlyGrows(front, moves[|moves| - 1]);
      assert front + [moves[|moves| - 1]] == moves;
      var w := Run(front);
      if j < |w.log| {
        assert w.log[j] == Run(moves).log[j];
        StopFollowsShutdown(front, j);
        var i :| 0 <= i < j && w.log[i].Ended? && w.log[i].phase == Shutdown;
        assert Run(moves).log[i] == w.log[i];
      } else {
        RunKeepsInv(front);
        EndingIsLogged(front);
        var i :| 0 <= i < |w.log| && w.log[i].Ended? && w.log[i].phase == Shutdown;
        assert Run(moves).log[i] == w.log[i];
      }
    }
  }

  /** Somebody has called for shutdown. */
  ghost predicate ShutdownCalled(moves: seq<Move>) {
    exists k :: 0 <= k < |moves| && CallsShutdown(moves, k)
  }

  ghost predicate CallsShutdown(moves: seq<Move>, k: nat)
    requires k < |moves|
  {
    moves[k].Call? && moves[k].phase.Shutdown? && Enabled(Run(moves[..k]), moves[k])
  }

  lemma ShutdownCalledMore(moves: seq<Move>)
    requires moves != []
    ensures var front := moves[..|moves| - 1];
            ShutdownCalled(moves) <==> ShutdownCalled(front) || CallsShutdown(moves, |moves| - 1)
  {
    var front := moves[..|moves| - 1];
    forall k | 0 <= k < |front|
      ensures CallsShutdown(front, k) <==> CallsShutdown(moves, k)
    {
      assert front[..k] == moves[..k];
    }
    if ShutdownCalled(front) {
      var k :| 0 <= k < |front| && CallsShutdown(front, k);
      assert CallsShutdown(moves, k);
    }
  }

  /** Shutdown is intended exactly once somebody has called for it, even if startup was in the way. */
  lemma {:induction false} IntendedExactlyOnceCalled(moves: seq<Move>)
    ensures Intended(Run(moves).s) <==> ShutdownCalled(moves)
  {
    if moves != [] {
      var front, move := moves[..|moves| - 1], moves[|moves| - 1];
      IntendedExactlyOnceCalled(front);
      RunKeepsInv(front);
      ShutdownCalledMore(moves);
      if Enabled(Run(front), move) {
        IntentComesFromShutdown(Run(front), move);
      }
    }
  }

  lemma IntentComesFromShutdown(w: World, move: Move)
    requires Inv(w) && Enabled(w, move)
    ensures Intended(Step(w, move).s) <==> Intended(w.s) || (move.Call? && move.phase.Shutdown?)
  {
  }

  /** The phase whose hooks are under way. */
  function Underway(log: seq<Event>): Option<Phase> {
    match Current(log) case Some(e) => Some(e.phase) case None => None
  }

  /**
   What a call of either startup phase comes to: nothing more to do once it has succeeded, canceled once shutdown was
   called for, refused while it is under way; and otherwise it runs the hooks.
   */
  lemma StartupIsAnswered(moves: seq<Move>, id: nat, phase: Phase)
    requires (phase.Start? || phase.Started?) && Enabled(Run(moves), Call(id, phase))
    ensures var w, entry := Run(moves), EnterOf(Run(moves), id, phase).1;
            && (entry == Return(None) <==> Succeeded(w.log, phase) > 0)
            && (entry == Return(Some(Canceled)) <==> Succeeded(w.log, phase) == 0 && ShutdownCalled(moves))
            && (entry == Return(Some(PhaseInProgress(phase)))
                <==> Succeeded(w.log, phase) == 0 && !ShutdownCalled(moves) && Underway(w.log) == Some(phase))
            && (entry.RunHooks? <==> Succeeded(w.log, phase) == 0 && !ShutdownCalled(moves) && Underway(w.log) != Some(phase))
  {
    RunKeepsInv(moves);
    IntendedExactlyOnceCalled(moves);
  }

  /** A call for shutdown runs the hooks exactly if none have begun and no startup is under way. */
  lemma ShutdownIsAnswered(moves: seq<Move>, id: nat)
    requires id !in Run(moves).running
    ensures var w, entry := Run(moves), EnterOf(Run(moves), id, Shutdown).1;
            && (entry.RunHooks? <==> Begun(w.log, Shutdown) == 0 && Underway(w.log) != Some(Start) && Underway(w.log) != Some(Started))
            && (Underway(w.log) == Some(Start) || Underway(w.log) == Some(Started) ==> entry == Return(Some(StartupInProgress)))
            && (Underway(w.log) == Some(Shutdown) ==> entry == Return(Some(PhaseInProgress(Shutdown))))
            && (Begun(w.log, Shutdown) > 0 && Underway(w.log) != Some(Shutdown) ==> entry == Return(w.s.shutdownResult))
  {
    RunKeepsInv(moves);
  }

  /** What a batch of hooks comes to: what they did, but for startup that shutdown overtook, and stop after a failed shutdown. */
  lemma BatchEndsWith(moves: seq<Move>, id: nat, hooks: Outcome)
    requires id in Run(moves).running
    ensures var w, w', phase := Run(moves), Step(Run(moves), Finish(id, hooks)), Run(moves).running[id];
            && w'.log == w.log + [w'.log[|w.log|]] && w'.log[|w.log|].Ended? && w'.log[|w.log|].phase == phase
            && var r := w'.log[|w.log|].result;
            && (phase.Start? || phase.Started? ==>
                  r == if hooks.Some? then hooks else if ShutdownCalled(moves) then Some(Canceled) else None)
            && (phase.Shutdown? ==> r == hooks && w'.s.shutdownHooksRun && w'.s.shutdownResult == hooks)
            && (phase.Stop? ==> r == (if w.s.shutdownResult.Some? then w.s.shutdownResult else hooks) && w'.s.shutdown && w'.s.stopResult == r)
  {
    RunKeepsInv(moves);
    IntendedExactlyOnceCalled(moves);
    LeavingIsOrdered(Run(moves), id, hooks);
  }

  /** What is settled after `k` moves stays settled. */
  ghost predicate Settled(early: World, late: World) {
    && early.log <= late.log && (Intended(early.s) ==> Intended(late.s))
    && (early.s.shutdownHooksRun ==> late.s.shutdownHooksRun && late.s.shutdownResult == early.s.shutdownResult)
    && (early.s.shutdown ==> late.s.shutdown && late.s.stopResult == early.s.stopResult)
    && (early.s.startHooksRun ==> late.s.startHooksRun) && (early.s.started ==> late.s.started)
    && (Intended(early.s) ==> forall i :: |early.log| <= i < |late.log| && late.log[i].Began? ==> late.log[i].phase in {Shutdown, Stop})
  }

  lemma StepSettles(w: World, move: Move)
    requires Inv(w) && Enabled(w, move)
    ensures Settled(w, Step(w, move))
  {
    match move
    case Call(id, phase) =>
      if EnterOf(w, id, phase).1.RunHooks? {
        NothingRunsAtEntry(w, id, phase);
      }
    case Finish(id, hooks) => LeavingIsOrdered(w, id, hooks);
  }

  lemma SettledChains(a: World, b: World, c: World)
    requires Settled(a, b) && Settled(b, c)
    ensures Settled(a, c)
  {
    assert b.log == c.log[..|b.log|];
    if Intended(a.s) {
      forall i | |a.log| <= i < |c.log| && c.log[i].Began?
        ensures c.log[i].phase in {Shutdown, Stop}
      {
        if i < |b.log| {
          assert b.log[i] == c.log[i];
        }
      }
    }
  }

  /**
   No startup begins once shutdown is intended, and results are final: later worlds agree on what shutdown
   and stop came to.
   */
  lemma {:induction false} RunSettles(moves: seq<Move>, k: nat)
    requires k <= |moves|
    ensures Settled(Run(moves[..k]), Run(moves))
  {
    if k == |moves| {
      assert moves[..k] == moves;
    } else {
      var front, move := moves[..|moves| - 1], moves[|moves| - 1];
      RunSettles(front, k);
      assert front[..k] == moves[..k];
      RunKeepsInv(front);
      if Enabled(Run(front), move) {
        StepSettles(Run(front), move);
        SettledChains(Run(moves[..k]), Run(front), Run(moves));
      }
    }
  }

  /** Whoever asks later is answered with what shutdown, and stop, came to. */
  lemma LaterCallsReturnTheResult(moves: seq<Move>, k: nat, shutdownErr: Outcome)
    requires k <= |moves|
    ensures var early, late := Run(moves[..k]).s, Run(moves).s;
            && (early.shutdownHooksRun ==> Enter(late, Shutdown, None).1 == Return(early.shutdownResult))
            && (early.shutdown ==> Enter(late, Stop, shutdownErr).1 == Return(early.stopResult))
            && (early.startHooksRun ==> Enter(late, Start, None).1 == Return(None))
            && (early.started ==> Enter(late, Started, None).1 == Return(None))
  {
    RunSettles(moves, k);
    RunKeepsInv(moves);
  }

  /** What stop came to is what shutdown came to, when that was an error. */
  lemma StopReportsShutdownFirst(moves: seq<Move>)
    ensures Run(moves).s.shutdown && Run(moves).s.shutdownResult.Some? ==> Run(moves).s.stopResult == Run(moves).s.shutdownResult
  {
    RunKeepsInv(moves);
  }

  /** After shutdown, a new call of Stop runs the stop hooks exactly if shutdown's error is not a phase error and no Stop has begun. */
  lemma StopRunsExactlyIf(moves: seq<Move>, id: nat)
    requires Run(moves).s.shutdownHooksRun && id !in Run(moves).running
    ensures var w := Step(Run(moves), Call(id, Shutdown));
            (Enabled(w, Call(id, Stop)) && EnterOf(w, id, Stop).1.RunHooks?)
            <==> !IsPhaseError(w.s.shutdownResult) && Begun(w.log, Stop) == 0
  {
    RunKeepsInv(moves);
    ReturnKeepsInv(Run(moves), id, Shutdown);
  }

  /** So a shutdown hook whose error wraps a phase error keeps the stop hooks from ever running. */
  lemma PhaseErrorFromShutdownBlocksStop(moves: seq<Move>, k: nat)
    requires k <= |moves| && Run(moves[..k]).s.shutdownHooksRun && IsPhaseError(Run(moves[..k]).s.shutdownResult)
    ensures Begun(Run(moves).log, Stop) == 0 && !Run(moves).s.shutdown
  {
    RunSettles(moves, k);
    RunKeepsInv(moves);
  }

  lemma OneMove(moves: seq<Move>, move: Move)
    ensures Run(moves + [move]) == if Enabled(Run(moves), move) then Step(Run(moves), move) else Run(moves)
  {
    assert (moves + [move])[..|moves + [move]| - 1] == moves;
  }

  /** It takes one hook that calls Stop while shutdown is running and returns the error it gets. */
  lemma StopCanBeBlocked()
    ensures var w := Run([Call(0, Shutdown)] + [Finish(0, Some(PhaseInProgress(Shutdown)))]);
            w.s.shutdownHooksRun && IsPhaseError(w.s.shutdownResult)
    ensures Enter(Run([Call(0, Shutdown)]).s, Shutdown, None).1 == Return(Some(PhaseInProgress(Shutdown)))
  {
    OneMove([], Call(0, Shutdown));
    assert [] + [Call(0, Shutdown)] == [Call(0, Shutdown)];
    OneMove([Call(0, Shutdown)], Finish(0, Some(PhaseInProgress(Shutdown))));
  }

  // ---------------------------------------------------------------------------------------------
  // What others do meanwhile
  // ---------------------------------------------------------------------------------------------

  /** The same state, or one in which shutdown has come to be intended. */
  predicate Meanwhile(s: State, s': State) {
    s' == s || s' == s.(shutdownOnce := true)
  }

  /** While a batch is under way, no other invocation changes anything but the intent to shut down. */
  lemma OthersOnlyIntend(w: World, id: nat, move: Move)
    requires Inv(w) && id in w.running && Enabled(w, move) && move.id != id
    ensures move.Call? && Meanwhile(w.s, Step(w, move).s) && Step(w, move).running == w.running
  {
  }

  // ---------------------------------------------------------------------------------------------
  // The lifecycle itself
  // ---------------------------------------------------------------------------------------------

  /** What a hook returns, and what its context says afterwards. */
  datatype HookRun = HookRun(err: Outcome, contextErr: Outcome)

  /** Startup stops at the first failure, of a hook or of its context. */
  function FirstFailure(hooks: seq<HookRun>, contextErr: Outcome): Outcome {
    if hooks == [] then contextErr
    else if hooks[0].err.Some? then hooks[0].err
    else if hooks[0].contextErr.Some? then hooks[0].contextErr
    else FirstFailure(hooks[1..], contextErr)
  }

  /** Shutdown runs every hook, and reports the first error after `first`. */
  function FirstError(first: Outcome, hooks: seq<HookRun>): Outcome
    decreases |hooks|
  {
    if first.Some? || hooks == [] then first else FirstError(hooks[0].err, hooks[1..])
  }

  predicate Fails(hook: HookRun) {
    hook.err.Some? || hook.contextErr.Some?
  }

  /** The error that stops startup at a hook: its own before its context's. */
  function FailureOf(hook: HookRun): Outcome {
    if hook.err.Some? then hook.err else hook.contextErr
  }

  /** The first `n` hooks ran: all of them, or those up to the first that failed, which is what they came to. */
  predicate StopsAtFirst(hooks: seq<HookRun>, contextErr: Outcome, n: nat, result: Outcome) {
    && n <= |hooks| && (forall i :: 0 <= i < n - 1 ==> !Fails(hooks[i]))
    && if n > 0 && Fails(hooks[n - 1]) then result == FailureOf(hooks[n - 1]) else n == |hooks| && result == contextErr
  }

  /** Startup comes to the failure at the least index that has one, and to none exactly if there is none. */
  lemma {:induction false} StartupComesToItsFirstFailure(hooks: seq<HookRun>, contextErr: Outcome) returns (n: nat)
    ensures StopsAtFirst(hooks, contextErr, n, FirstFailure(hooks, contextErr))
    ensures FirstFailure(hooks, contextErr) == None
            <==> (forall i :: 0 <= i < |hooks| ==> hooks[i].err == None && hooks[i].contextErr == None) && contextErr == None
  {
    n := 0;
    if hooks != [] {
      if Fails(hooks[0]) {
        n := 1;
      } else {
        n := StartupComesToItsFirstFailure(hooks[1..], contextErr);
        n := n + 1;
        assert forall i :: 0 < i < |hooks| ==> hooks[i] == hooks[1..][i - 1];
      }
    }
  }

  /** Which hooks ran, and what came of it, are one thing. */
  lemma {:induction false} StoppingIsFirstFailure(hooks: seq<HookRun>, contextErr: Outcome, n: nat, result: Outcome)
    requires StopsAtFirst(hooks, contextErr, n, result)
    ensures result == FirstFailure(hooks, contextErr)
  {
    if n > 1 || (n == 1 && !Fails(hooks[0])) {
      assert forall i :: 0 < i < |hooks| ==> hooks[i] == hooks[1..][i - 1];
      StoppingIsFirstFailure(hooks[1..], contextErr, n - 1, result);
    }
  }

  /** Shutdown comes to `first`, or to the error at the least index that has one, and to none exactly if there is none. */
  lemma {:induction false} ShutdownComesToItsFirstError(first: Outcome, hooks: seq<HookRun>)
    ensures first.Some? ==> FirstError(first, hooks) == first
    ensures FirstError(first, hooks) == None <==> first == None && forall i :: 0 <= i < |hooks| ==> hooks[i].err == None
    ensures first == None ==> forall k :: 0 <= k < |hooks| && hooks[k].err.Some? && (forall i :: 0 <= i < k ==> hooks[i].err == None) ==>
                                FirstError(first, hooks) == hooks[k].err
    decreases |hooks|
  {
    if first == None && hooks != [] {
      ShutdownComesToItsFirstError(hooks[0].err, hooks[1..]);
      assert forall i :: 0 < i < |hooks| ==> hooks[i] == hooks[1..][i - 1];
      forall k | 0 < k < |hooks| && hooks[k].err.Some? && forall i :: 0 <= i < k ==> hooks[i].err == None
        ensures FirstError(first, hooks) == hooks[k].err
      {
        assert forall i :: 0 <= i < k - 1 ==> hooks[1..][i].err == None;
        assert hooks[1..][k - 1].err.Some?;
      }
    }
  }

  /** The state and the answer once a call has entered, run its hooks if it was to, and left. */
  ghost predicate Completes(s: State, phase: Phase, shutdownErr: Outcome, hooks: Outcome, s': State, r: Outcome) {
    var (entered, entry) := Enter(s, phase, shutdownErr);
    match entry
    case Return(result) => s' == entered && r == result
    case RunHooks => exists late :: Meanwhile(entered, late) && s' == Leave(late, phase, hooks) && r == ResultOf(late, phase, hooks)
  }

  class ServerLifecycle {
    var startHooksRun: bool
    var startRunning: bool
    var started: bool
    var starting: bool
    var shutdown: bool
    var shutdownOnce: bool
    var shutdownHooksRun: bool
    var shutdownRunning: bool
    var shutdownResult: Outcome
    var stopRunning: bool
    var stopResult: Outcome
    var taskCount: nat
    var closed: seq<bool>
    var taskDone: nat
    ghost var ran: seq<HookRun>  // the hooks that have run, oldest first

    ghost function Phases(): State
      reads this
    {
      State(
        startHooksRun, startRunning, started, starting, shutdown, shutdownOnce, shutdownHooksRun, shutdownRunning,
        shutdownResult, stopRunning, stopResult)
    }

    ghost function TaskState(): Tasks.State
      reads this
    {
      Tasks.State(taskCount, closed, taskDone)
    }

    /** The channel of the moment is closed exactly while there are no tasks. */
    predicate TasksOk()
      reads this
    {
      taskDone < |closed| && (closed[taskDone] <==> taskCount == 0)
    }

    constructor ()
      ensures Phases() == NEW && TaskState() == Tasks.NEW && TasksOk() && ran == []
    {
      startHooksRun, startRunning, started, starting, shutdown, shutdownOnce := false, false, false, false, false, false;
      shutdownHooksRun, shutdownRunning, shutdownResult, stopRunning, stopResult := false, false, None, false, None;
      taskCount, closed, taskDone, ran := 0, [true], 0, [];
    }

    /** Hooks of this call run here; others may call in, and tasks start and finish. */
    method Others()
      requires TasksOk()
      modifies this`shutdownOnce, this`taskCount, this`closed, this`taskDone
      ensures Meanwhile(old(Phases()), Phases()) && TasksOk()
    {
      var calls: nat :| 0 <= calls;
      for i := 0 to calls
        invariant Meanwhile(old(Phases()), Phases()) && TasksOk()
      {
        AnotherCall();
      }
    }

    method AnotherCall()
      requires TasksOk()
      modifies this`shutdownOnce, this`taskCount, this`closed, this`taskDone
      ensures Meanwhile(old(Phases()), Phases()) && TasksOk()
    {
      var which: int := *;
      if which == 0 {
        shutdownOnce := true;
      } else if which == 1 {
        var ok := Go();
      } else {
        TaskFinished();
      }
    }

    /** A hook runs; others call in meanwhile. */
    method RunHook(hook: HookRun) returns (err: Outcome)
      requires TasksOk()
      modifies this`shutdownOnce, this`taskCount, this`closed, this`taskDone, this`ran
      ensures err == hook.err && ran == old(ran) + [hook] && Meanwhile(old(Phases()), Phases()) && TasksOk()
    {
      Others();
      ran := ran + [hook];
      return hook.err;
    }

    /** Runs the hooks up to the first failure; `n` says how many. */
    method RunUntilFailure(hooks: seq<HookRun>, contextErr: Outcome) returns (first: Outcome, ghost n: nat)
      requires TasksOk()
      modifies this`shutdownOnce, this`taskCount, this`closed, this`taskDone, this`ran
      ensures StopsAtFirst(hooks, contextErr, n, first) && ran == old(ran) + hooks[..n]
      ensures Meanwhile(old(Phases()), Phases()) && TasksOk()
    {
      first, n := None, 0;
      for i := 0 to |hooks|
        invariant first == None && Meanwhile(old(Phases()), Phases()) && TasksOk()
        invariant n == i && (forall j :: 0 <= j < i ==> !Fails(hooks[j])) && ran == old(ran) + hooks[..i]
      {
        first := RunHook(hooks[i]);
        n := i + 1;
        assert hooks[..i + 1] == hooks[..i] + [hooks[i]];
        if first.Some? {
          return;
        }
        if hooks[i].contextErr.Some? {
          return hooks[i].contextErr, n;
        }
      }
      assert hooks[..|hooks|] == hooks;
      first := contextErr;
    }

    /** Runs every hook. */
    method RunAll(hooks: seq<HookRun>, initial: Outcome) returns (first: Outcome)
      requires TasksOk()
      modifies this`shutdownOnce, this`taskCount, this`closed, this`taskDone, this`ran
      ensures first == FirstError(initial, hooks) && ran == old(ran) + hooks && Meanwhile(old(Phases()), Phases()) && TasksOk()
    {
      first := initial;
      for i := 0 to |hooks|
        invariant Meanwhile(old(Phases()), Phases()) && TasksOk() && ran == old(ran) + hooks[..i]
        invariant FirstError(initial, hooks) == FirstError(first, hooks[i..])
      {
        ghost var rest := hooks[i..];
        assert rest[0] == hooks[i] && rest[1..] == hooks[i + 1..] && hooks[..i + 1] == hooks[..i] + [hooks[i]];
        var err := RunHook(hooks[i]);
        if first.None? {
          first := err;
        }
      }
      assert hooks[..|hooks|] == hooks;
    }

    // -------------------------------------------------------------------------------------------
    // The locked sections
    // -------------------------------------------------------------------------------------------

    method EnterStart() returns (entry: Entry)
      modifies this`startRunning
      ensures (Phases(), entry) == Enter(old(Phases()), Start, None)
    {
      if startHooksRun {
        return Return(None);
      }
      if shutdownOnce || shutdown {
        return Return(Some(Canceled));
      }
      if startRunning {
        return Return(Some(PhaseInProgress(Start)));
      }
      startRunning := true;
      return RunHooks;
    }

    method LeaveStart(hooks: Outcome) returns (r: Outcome)
      modifies this`startHooksRun, this`startRunning
      ensures Phases() == Leave(old(Phases()), Start, hooks) && r == ResultOf(old(Phases()), Start, hooks)
    {
      r := hooks;
      if r.None? && (shutdownOnce || shutdown) {
        r := Some(Canceled);
      }
      startHooksRun, startRunning := r.None?, false;
    }

    method EnterStarted() returns (entry: Entry)
      modifies this`starting
      ensures (Phases(), entry) == Enter(old(Phases()), Started, None)
    {
      if started {
        return Return(None);
      }
      if shutdownOnce || shutdown {
        return Return(Some(Canceled));
      }
      if starting {
        return Return(Some(PhaseInProgress(Started)));
      }
      starting := true;
      return RunHooks;
    }

    method LeaveStarted(hooks: Outcome) returns (r: Outcome)
      modifies this`started, this`starting
      ensures Phases() == Leave(old(Phases()), Started, hooks) && r == ResultOf(old(Phases()), Started, hooks)
    {
      r := hooks;
      if r.None? && (shutdownOnce || shutdown) {
        r := Some(Canceled);
      }
      started, starting := r.None?, false;
    }

    method EnterShutdown() returns (entry: Entry)
      modifies this`shutdownOnce, this`shutdownRunning, this`shutdownResult
      ensures (Phases(), entry) == Enter(old(Phases()), Shutdown, None)
    {
      if shutdownRunning {
        return Return(Some(PhaseInProgress(Shutdown)));
      }
      if shutdownHooksRun {
        return Return(shutdownResult);
      }
      shutdownOnce := true;
      if startRunning || starting {
        return Return(Some(StartupInProgress));
      }
      shutdownRunning, shutdownResult := true, None;
      return RunHooks;
    }

    method LeaveShutdown(hooks: Outcome)
      modifies this`shutdownRunning, this`shutdownHooksRun, this`shutdownResult
      ensures Phases() == Leave(old(Phases()), Shutdown, hooks)
    {
      shutdownRunning, shutdownHooksRun, shutdownResult := false, true, hooks;
    }

    method EnterStop(shutdownErr: Outcome) returns (entry: Entry)
      modifies this`stopRunning, this`stopResult
      ensures (Phases(), entry) == Enter(old(Phases()), Stop, shutdownErr)
    {
      if !shutdownHooksRun {
        return Return(shutdownErr);
      }
      if stopRunning {
        return Return(Some(PhaseInProgress(Stop)));
      }
      if shutdown {
        return Return(stopResult);
      }
      stopRunning, stopResult := true, None;
      return RunHooks;
    }

    method LeaveStop(hooks: Outcome)
      modifies this`shutdown, this`stopRunning, this`stopResult
      ensures Phases() == Leave(old(Phases()), Stop, hooks)
    {
      shutdown, stopRunning, stopResult := true, false, hooks;
    }

    // -------------------------------------------------------------------------------------------
    // The calls: `expired` is what the caller's context says on the way in
    // -------------------------------------------------------------------------------------------

    method BeginStart(expired: Outcome, hooks: seq<HookRun>, contextErr: Outcome) returns (r: Outcome, ghost n: nat)
      requires TasksOk()
      modifies this
      ensures if expired.Some? then Phases() == old(Phases()) && r == expired else
                Completes(old(Phases()), Start, None, FirstFailure(hooks, contextErr), Phases(), r)
      ensures StopsAtFirst(hooks, contextErr, n, FirstFailure(hooks, contextErr)) && TasksOk()
      ensures ran == old(ran) + if expired.None? && Enter(old(Phases()), Start, None).1.RunHooks? then hooks[..n] else []
    {
      n := StartupComesToItsFirstFailure(hooks, contextErr);
      if expired.Some? {
        return expired, n;
      }
      var entry := EnterStart();
      if entry.Return? {
        return entry.result, n;
      }
      var first;
      first, n := RunUntilFailure(hooks, contextErr);
      StoppingIsFirstFailure(hooks, contextErr, n, first);
      r := LeaveStart(first);
    }

    /** The second half of MarkStarted, once BeginStart has returned without error. */
    method FinishStart(expired: Outcome, hooks: seq<HookRun>, contextErr: Outcome) returns (r: Outcome, ghost n: nat)
      requires TasksOk()
      modifies this
      ensures if expired.Some? then Phases() == old(Phases()) && r == expired else
                Completes(old(Phases()), Started, None, FirstFailure(hooks, contextErr), Phases(), r)
      ensures StopsAtFirst(hooks, contextErr, n, FirstFailure(hooks, contextErr)) && TasksOk()
      ensures ran == old(ran) + if expired.None? && Enter(old(Phases()), Started, None).1.RunHooks? then hooks[..n] else []
    {
      n := StartupComesToItsFirstFailure(hooks, contextErr);
      if expired.Some? {
        return expired, n;
      }
      var entry := EnterStarted();
      if entry.Return? {
        return entry.result, n;
      }
      var first;
      first, n := RunUntilFailure(hooks, contextErr);
      StoppingIsFirstFailure(hooks, contextErr, n, first);
      r := LeaveStarted(first);
    }

    method BeginShutdown(expired: Outcome, hooks: seq<HookRun>) returns (r: Outcome)
      requires TasksOk()
      modifies this
      ensures if expired.Some? then Phases() == old(Phases()) && r == expired else
                Completes(old(Phases()), Shutdown, None, FirstError(None, hooks), Phases(), r)
      ensures TasksOk()
      ensures ran == old(ran) + if expired.None? && Enter(old(Phases()), Shutdown, None).1.RunHooks? then hooks else []
    {
      if expired.Some? {
        return expired;
      }
      var entry := EnterShutdown();
      if entry.Return? {
        return entry.result;
      }
      r := RunAll(hooks, None);
      LeaveShutdown(r);
    }

    /** The second half of Stop, with what BeginShutdown returned, which is not a phase error. */
    method FinishStop(expired: Outcome, hooks: seq<HookRun>, shutdownErr: Outcome) returns (r: Outcome)
      requires TasksOk()
      modifies this
      ensures if expired.Some? then Phases() == old(Phases()) && r == expired else
                Completes(old(Phases()), Stop, shutdownErr, FirstError(shutdownErr, hooks), Phases(), r)
      ensures TasksOk()
      ensures ran == old(ran) + if expired.None? && Enter(old(Phases()), Stop, shutdownErr).1.RunHooks? then hooks else []
    {
      if expired.Some? {
        return expired;
      }
      var entry := EnterStop(shutdownErr);
      if entry.Return? {
        return entry.result;
      }
      r := RunAll(hooks, shutdownErr);
      LeaveStop(r);
    }

    /** `false` when the task is not started. */
    method Go() returns (ok: bool)
      requires TasksOk()
      modifies this`taskCount, this`closed, this`taskDone
      ensures ok == !Intended(Phases()) && Phases() == old(Phases()) && TasksOk()
      ensures TaskState() == if ok then Tasks.Go(old(TaskState())) else old(TaskState())
    {
      if shutdownOnce || shutdown {
        return false;
      }
      if taskCount == 0 {
        taskDone, closed := |closed|, closed + [false];
      }
      taskCount := taskCount + 1;
      return true;
    }

    method TaskFinished()
      requires TasksOk()
      modifies this`taskCount, this`closed
      ensures Tasks.Finished(old(TaskState())) == Some(TaskState()) && Phases() == old(Phases()) && TasksOk()
    {
      if taskCount == 0 {
        return;
      }
      taskCount := taskCount - 1;
      if taskCount == 0 {
        closed := closed[taskDone := true];
      }
    }
  }
}
