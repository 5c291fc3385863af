/**
 Background tasks: a count, and a channel that is closed when the count returns to zero. Waiting samples the
 channel and returns when it is closed.

 `World` adds which tasks are alive and what each waiter saw when it sampled, so that the count and the
 channels can be said to mean something.
 */
module Tasks {
  import opened Wrappers

  /** Channels are numbered in the order they are made; `closed` says which are. */
  datatype State = State(count: nat, closed: seq<bool>, current: nat)

  const NEW: State := State(0, [true], 0)

  function Go(s: State): State {
    if s.count == 0 then State(1, s.closed + [false], |s.closed|) else s.(count := s.count + 1)
  }

  /** `None` is the panic of closing a channel twice. */
  function Finished(s: State): Option<State> {
    if s.count == 0 then Some(s)
    else if s.count > 1 then Some(s.(count := s.count - 1))
    else if s.current < |s.closed| && !s.closed[s.current] then Some(s.(count := 0, closed := s.closed[s.current := true]))
    else None
  }

  /** What a waiter saw: the channel, the tasks alive, and whether shutdown was intended; a waiter that found none waits for nothing. */
  datatype Waiter = Waiter(channel: Option<nat>, alive: set<nat>, intended: bool)

  datatype World = World(s: State, intended: bool, alive: set<nat>, gone: set<nat>, waiters: map<nat, Waiter>, panicked: bool)

  datatype Move = Start(task: nat) | Finish(task: nat) | Intend | Sample(waiter: nat)

  const BEGIN: World := World(NEW, false, {}, {}, map[], false)

  predicate Enabled(w: World, move: Move) {
    match move
    case Start(task) => task !in w.alive && task !in w.gone
    case Finish(task) => task in w.alive
    case Intend => true
    case Sample(waiter) => waiter !in w.waiters
  }

  /** A task is started unless shutdown is intended. */
  function Step(w: World, move: Move): World {
    match move
    case Start(task) => if w.intended then w else w.(s := Go(w.s), alive := w.alive + {task})
    case Finish(task) =>
      (match Finished(w.s)
       case None => w.(panicked := true)
       case Some(s) => w.(s := s, alive := w.alive - {task}, gone := w.gone + {task}))
    case Intend => w.(intended := true)
    case Sample(waiter) =>
      w.(waiters := w.waiters[waiter := Waiter(if w.s.count == 0 then None else Some(w.s.current), w.alive, w.intended)])
  }

  function Run(moves: seq<Move>): World {
    if moves == [] then BEGIN
    else
      var w := Run(moves[..|moves| - 1]);
      if Enabled(w, moves[|moves| - 1]) then Step(w, moves[|moves| - 1]) else w
  }

  /** Waiting returns without error when there was nothing to wait for, or the channel is closed. */
  predicate Returns(w: World, waiter: nat)
    requires waiter in w.waiters
  {
    match w.waiters[waiter].channel
    case None => true
    case Some(c) => c < |w.s.closed| && w.s.closed[c]
  }

  ghost predicate WaiterOk(w: World, x: Waiter) {
    && (x.intended ==> w.intended && w.alive <= x.alive)
    && x.alive <= w.alive + w.gone
    && match x.channel
       case None => x.alive == {}
       case Some(c) => c < |w.s.closed| && (if w.s.closed[c] then x.alive !! w.alive else c == w.s.current)
  }

  ghost predicate Inv(w: World) {
    && !w.panicked && w.s.count == |w.alive| && w.alive !! w.gone
    && w.s.current < |w.s.closed| && (w.s.closed[w.s.current] <==> w.s.count == 0)
    && (forall c :: 0 <= c < |w.s.closed| && c != w.s.current ==> w.s.closed[c])
    && (forall k :: k in w.waiters ==> WaiterOk(w, w.waiters[k]))
  }

  lemma StartKeepsInv(w: World, task: nat)
    requires Inv(w) && Enabled(w, Start(task))
    ensures Inv(Step(w, Start(task)))
  {
  }

  lemma FinishKeepsInv(w: World, task: nat)
    requires Inv(w) && task in w.alive
    ensures Finished(w.s).Some? && Inv(Step(w, Finish(task)))
  {
    var w' := Step(w, Finish(task));
    assert |w.alive - {task}| == |w.alive| - 1;
    if w.s.count == 1 {
      assert w.alive - {task} == {};
    }
    forall k | k in w'.waiters
      ensures WaiterOk(w', w'.waiters[k])
    {
      assert WaiterOk(w, w.waiters[k]);
    }
  }

  lemma SampleKeepsInv(w: World, waiter: nat)
    requires Inv(w) && Enabled(w, Sample(waiter))
    ensures Inv(Step(w, Sample(waiter)))
  {
    var w' := Step(w, Sample(waiter));
    forall k | k in w'.waiters
      ensures WaiterOk(w', w'.waiters[k])
    {
      assert k != waiter ==> WaiterOk(w, w.waiters[k]);
      assert w.s.count == 0 ==> w.alive == {};
    }
  }

  lemma {:induction false} RunKeepsInv(moves: seq<Move>)
    ensures Inv(Run(moves))
  {
    if moves != [] {
      var front, move := moves[..|moves| - 1], moves[|moves| - 1];
      RunKeepsInv(front);
      var w := Run(front);
      if Enabled(w, move) {
        match move
        case Start(task) => StartKeepsInv(w, task);
        case Finish(task) => FinishKeepsInv(w, task);
        case Intend => assert forall k :: k in w.waiters ==> WaiterOk(w, w.waiters[k]);
        case Sample(waiter) => SampleKeepsInv(w, waiter);
      }
    }
  }

  /** The count is the number of live tasks, the channel is closed exactly when there are none, and none is closed twice. */
  lemma CountAndChannelTellTheTruth(moves: seq<Move>)
    ensures var w := Run(moves);
            && w.s.count == |w.alive| && !w.panicked && w.s.current < |w.s.closed|
            && (w.s.closed[w.s.current] <==> w.alive == {})
  {
    RunKeepsInv(moves);
  }

  lemma {:induction false} IntendedExactlyIfMoved(moves: seq<Move>)
    ensures Run(moves).intended <==> Intend in moves
  {
    if moves != [] {
      var front := moves[..|moves| - 1];
      IntendedExactlyIfMoved(front);
      assert moves == front + [moves[|moves| - 1]];
    }
  }

  /** A task is started exactly unless shutdown has been intended; and a finished one is gone. */
  lemma StartedExactlyUnlessIntended(moves: seq<Move>, task: nat)
    ensures Enabled(Run(moves), Start(task)) ==> (task in Step(Run(moves), Start(task)).alive <==> Intend !in moves)
    ensures task in Run(moves).alive ==>
              var w := Step(Run(moves), Finish(task)); w.alive == Run(moves).alive - {task} && task in w.gone
  {
    IntendedExactlyIfMoved(moves);
    RunKeepsInv(moves);
    if task in Run(moves).alive {
      FinishKeepsInv(Run(moves), task);
    }
  }

  /** The waiter sampled in step `k`. */
  ghost predicate SampledIn(moves: seq<Move>, k: nat, waiter: nat) {
    k < |moves| && moves[k] == Sample(waiter) && Enabled(Run(moves[..k]), moves[k])
  }

  lemma StepReturns(w: World, move: Move, waiter: nat)
    requires Inv(w) && Enabled(w, move) && Inv(Step(w, move)) && waiter in w.waiters
    ensures waiter in Step(w, move).waiters && Step(w, move).waiters[waiter] == w.waiters[waiter]
    ensures Returns(Step(w, move), waiter) <==> Returns(w, waiter) || Step(w, move).alive == {}
  {
    var w' := Step(w, move);
    assert WaiterOk(w, w.waiters[waiter]) && WaiterOk(w', w'.waiters[waiter]);
    assert w'.s.count == 0 <==> w'.alive == {};
  }

  ghost predicate IdleAt(moves: seq<Move>, j: nat) {
    j <= |moves| && Run(moves[..j]).alive == {}
  }

  ghost predicate IdleSince(moves: seq<Move>, k: nat) {
    exists j :: k <= j <= |moves| && IdleAt(moves, j)
  }

  lemma IdleAtFront(moves: seq<Move>, j: nat)
    requires moves != []
    ensures IdleAt(moves[..|moves| - 1], j) <==> j < |moves| && IdleAt(moves, j)
  {
    if j < |moves| {
      assert moves[..|moves| - 1][..j] == moves[..j];
    }
  }

  lemma IdleSinceMore(moves: seq<Move>, k: nat)
    requires k < |moves|
    ensures IdleSince(moves, k) <==> IdleSince(moves[..|moves| - 1], k) || Run(moves).alive == {}
  {
    var front := moves[..|moves| - 1];
    if IdleSince(moves, k) {
      var j :| k <= j <= |moves| && IdleAt(moves, j);
      if j == |moves| {
        assert moves[..j] == moves;
      } else {
        IdleAtFront(moves, j);
      }
    }
    if IdleSince(front, k) {
      var j :| k <= j <= |front| && IdleAt(front, j);
      IdleAtFront(moves, j);
    }
    if Run(moves).alive == {} {
      NothingNew(moves, k);
    }
  }

  /** A wait returns exactly once there has been a moment without tasks since it sampled. */
  lemma {:induction false} WaitReturnsExactlyOnceIdle(moves: seq<Move>, k: nat, waiter: nat)
    requires SampledIn(moves, k, waiter)
    ensures waiter in Run(moves).waiters && (Returns(Run(moves), waiter) <==> IdleSince(moves, k))
  {
    var front, move := moves[..|moves| - 1], moves[|moves| - 1];
    RunKeepsInv(moves);
    RunKeepsInv(front);
    IdleSinceMore(moves, k);
    if k == |front| {
      assert front == moves[..k];
      SampledNow(front, waiter);
      IdleOnlyNow(front);
    } else {
      assert front[..k] == moves[..k] && front[k] == moves[k];
      WaitReturnsExactlyOnceIdle(front, k, waiter);
      if Enabled(Run(front), move) {
        StepReturns(Run(front), move, waiter);
      } else {
        assert Run(moves) == Run(front);
        if Run(front).alive == {} {
          NothingNew(front, k);
        }
      }
    }
  }

  lemma NothingNew(moves: seq<Move>, k: nat)
    requires k <= |moves| && Run(moves).alive == {}
    ensures IdleSince(moves, k)
  {
    assert moves[..|moves|] == moves;
    assert IdleAt(moves, |moves|);
  }

  lemma IdleOnlyNow(moves: seq<Move>)
    ensures IdleSince(moves, |moves|) <==> Run(moves).alive == {}
  {
    assert moves[..|moves|] == moves;
    assert IdleAt(moves, |moves|) <==> Run(moves).alive == {};
  }

  lemma SampledNow(moves: seq<Move>, waiter: nat)
    requires Enabled(Run(moves), Sample(waiter))
    ensures var w := Step(Run(moves), Sample(waiter));
            w.alive == Run(moves).alive && waiter in w.waiters && (Returns(w, waiter) <==> w.alive == {})
  {
    RunKeepsInv(moves);
    assert Run(moves).s.count == 0 <==> Run(moves).alive == {};
  }

  /** Waiting returns only once every task that was alive when it sampled has finished. */
  lemma WaitMeansFinished(moves: seq<Move>, waiter: nat)
    requires waiter in Run(moves).waiters && Returns(Run(moves), waiter)
    ensures forall task :: task in Run(moves).waiters[waiter].alive ==> task in Run(moves).gone
  {
    RunKeepsInv(moves);
    assert WaiterOk(Run(moves), Run(moves).waiters[waiter]);
  }

  /** And it returns as soon as no task is alive. */
  lemma WaitReturnsWhenIdle(moves: seq<Move>, waiter: nat)
    requires waiter in Run(moves).waiters && Run(moves).alive == {}
    ensures Returns(Run(moves), waiter)
  {
    RunKeepsInv(moves);
    assert WaiterOk(Run(moves), Run(moves).waiters[waiter]);
  }

  lemma {:induction false} IntentStays(moves: seq<Move>, k: nat)
    requires k <= |moves| && Run(moves[..k]).intended
    ensures Run(moves).intended && Run(moves).alive <= Run(moves[..k]).alive
  {
    if k == |moves| {
      assert moves[..k] == moves;
    } else {
      var front := moves[..|moves| - 1];
      assert front[..k] == moves[..k];
      IntentStays(front, k);
    }
  }

  /** A wait begun after shutdown was intended means, when it returns, that no task is alive or ever will be. */
  lemma WaitAfterIntentIsFinal(moves: seq<Move>, k: nat, waiter: nat)
    requires k <= |moves| && waiter in Run(moves[..k]).waiters
    requires Run(moves[..k]).waiters[waiter].intended && Returns(Run(moves[..k]), waiter)
    ensures Run(moves).alive == {}
  {
    RunKeepsInv(moves[..k]);
    assert WaiterOk(Run(moves[..k]), Run(moves[..k]).waiters[waiter]);
    IntentStays(moves, k);
  }
}
