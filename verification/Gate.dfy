/**
 The overlap gate of a scheduled job: who may start while another execution of the same job is
 running, and what happens to the one trigger that a QueueOne policy may hold back.

 `OverlapGate` has the gate's fields, and one method for each of its mutex sections. `Admit` and
 `Complete` say what the sections compute. `World` is the gate together with every goroutine that
 is inside it, and a run is any interleaving of triggers, completions and policy changes.
 */
module Gate {
  import opened Wrappers

  datatype OverlapPolicy = SkipIfRunning | AllowOverlap | QueueOne

  /** Identifies a job generation. */
  type Token = nat

  /** The closure built for one trigger of one generation. */
  datatype Handler = Handler(token: Token, trigger: nat)

  datatype Decision = Executed | Queued | Refused

  /** What an execution is told when it leaves the gate: stop, or run the queued trigger next. */
  datatype Continuation = Stop | Resume(token: Token, handler: Handler)

  datatype GateState = GateState(
    policy: OverlapPolicy,
    active: nat,
    activeToken: Option<Token>,
    queued: bool,
    queuedToken: Option<Token>,
    queuedHandler: Option<Handler>)

  function Idle(policy: OverlapPolicy): GateState {
    GateState(policy, 0, None, false, None, None)
  }

  /** The locked part of runWithToken. */
  function Admit(g: GateState, token: Token, handler: Option<Handler>): (r: (GateState, Decision))
  {
    if handler.None? then (g, Refused)
    else if g.policy == AllowOverlap then
      (g.(active := g.active + 1, activeToken := if g.active == 0 then Some(token) else g.activeToken), Executed)
    else if g.active == 0 then (g.(active := 1, activeToken := Some(token)), Executed)
    else if g.policy == QueueOne && !g.queued then
      (g.(queued := true, queuedToken := Some(token),
          queuedHandler := if Some(token) != g.activeToken then handler else g.queuedHandler), Queued)
    else (g, Refused)
  }

  /** The locked part of one round of executeAccepted. */
  function Complete(g: GateState, token: Token, handler: Handler): (r: (GateState, Continuation))
  {
    var left := if g.active > 0 then g.active - 1 else 0;
    if left != 0 || !g.queued then
      (g.(active := left, activeToken := if left == 0 then None else g.activeToken), Stop)
    else
      var next := if g.queuedHandler.None? && g.queuedToken == Some(token) then Some(handler) else g.queuedHandler;
      var emptied := g.(queued := false, queuedToken := None, queuedHandler := None);
      if next.None? || g.queuedToken.None? then
        (emptied.(active := 0, activeToken := None), Stop)
      else
        (emptied.(active := 1, activeToken := g.queuedToken), Resume(g.queuedToken.value, next.value))
  }

  /** The queued trigger is thrown away when this execution leaves. */
  predicate Drops(g: GateState, token: Token) {
    g.active <= 1 && g.queued && g.queuedHandler.None? && g.queuedToken != Some(token)
  }

  /** What runs after `handler` when it leaves the gate undisturbed: the queued trigger, or nothing. */
  function Replayed(g: GateState, token: Token, handler: Handler): seq<Handler> {
    if g.active > 1 || !g.queued || Drops(g, token) then []
    else [if g.queuedHandler.Some? then g.queuedHandler.value else handler]
  }

  class OverlapGate {
    var policy: OverlapPolicy
    var active: nat
    var activeToken: Option<Token>
    var queued: bool
    var queuedToken: Option<Token>
    var queuedHandler: Option<Handler>
    /** Handlers that ran to their end inside `ExecuteAccepted`, oldest first. */
    var log: seq<Handler>

    function State(): GateState
      reads this
    {
      GateState(policy, active, activeToken, queued, queuedToken, queuedHandler)
    }

    /** The queue fields agree with each other, as every section leaves them. */
    ghost predicate Valid()
      reads this
    {
      && queued == queuedToken.Some?
      && (queuedHandler.Some? ==> queued)
      && (queued ==> active > 0)
    }

    constructor (policy: OverlapPolicy)
      ensures Valid() && State() == Idle(policy) && log == []
    {
      this.policy := policy;
      active, activeToken := 0, None;
      queued, queuedToken, queuedHandler := false, None, None;
      log := [];
    }

    method Enter(token: Token, handler: Option<Handler>) returns (decision: Decision)
      requires Valid()
      modifies this
      ensures Valid() && log == old(log)
      ensures (State(), decision) == Admit(old(State()), token, handler)
    {
      if handler.None? {
        return Refused;
      }
      if policy == AllowOverlap {
        if active == 0 {
          activeToken := Some(token);
        }
        active := active + 1;
        return Executed;
      }
      if active > 0 {
        if policy == QueueOne && !queued {
          queued := true;
          queuedToken := Some(token);
          if Some(token) != activeToken {
            queuedHandler := handler;
          }
          return Queued;
        }
        return Refused;
      }
      active := 1;
      activeToken := Some(token);
      return Executed;
    }

    method Leave(token: Token, handler: Handler) returns (continuation: Continuation)
      requires Valid()
      modifies this
      ensures Valid() && log == old(log)
      ensures (State(), continuation) == Complete(old(State()), token, handler)
    {
      if active > 0 {
        active := active - 1;
      }
      if active != 0 || !queued {
        if active == 0 {
          activeToken := None;
        }
        return Stop;
      }
      var nextToken := queuedToken;
      var next := queuedHandler;
      if next.None? && nextToken == Some(token) {
        next := Some(handler);
      }
      queued := false;
      queuedToken := None;
      queuedHandler := None;
      if next.None? {
        activeToken := None;
        return Stop;
      }
      active := 1;
      activeToken := nextToken;
      return Resume(nextToken.value, next.value);
    }

    method SetPolicy(policy: OverlapPolicy)
      requires Valid()
      modifies this`policy
      ensures Valid() && State() == old(State()).(policy := policy)
    {
      this.policy := policy;
    }

    /**
     The whole drain loop of one execution while no other goroutine enters the gate: it runs its own
     handler, then the queued trigger if it is the last one out, and leaves nothing queued behind.
     */
    method ExecuteAccepted(token: Token, handler: Handler)
      requires Valid() && active > 0
      modifies this
      ensures Valid() && active == old(active) - 1
      ensures log == old(log) + [handler] + Replayed(old(State()), token, handler)
      ensures State() == if active > 0 then old(State()).(active := active) else Idle(old(policy))
    {
      var currentToken, current := token, Some(handler);
      while current.Some?
        invariant Valid() && policy == old(policy)
        invariant current.Some? ==>
                    && active == old(active)
                    && (active > 1 ==> State() == old(State()))
                    && log + [current.value] + Replayed(State(), currentToken, current.value)
                       == old(log) + [handler] + Replayed(old(State()), token, handler)
        invariant current.None? ==>
                    && active == old(active) - 1
                    && log == old(log) + [handler] + Replayed(old(State()), token, handler)
                    && State() == if active > 0 then old(State()).(active := active) else Idle(old(policy))
        decreases current.Some?, active + if queued then 1 else 0
      {
        log := log + [current.value];
        var continuation := Leave(currentToken, current.value);
        match continuation {
          case Stop => current := None;
          case Resume(nextToken, next) => currentToken, current := nextToken, Some(next);
        }
      }
    }
  }

  // ---------------------------------------------------------------------------------------------
  // Every interleaving
  // ---------------------------------------------------------------------------------------------

  /** A goroutine inside executeAccepted: its current generation, handler and trigger. */
  datatype Execution = Execution(token: Token, handler: Handler, trigger: nat)

  /** The trigger a QueueOne policy holds back. */
  datatype Held = Held(trigger: nat, token: Token)

  /** What has become of an accepted trigger. A trigger in flight names its goroutine. */
  datatype Fate = Waiting | InFlight(goroutine: nat) | Done | Lost

  /** The gate, the goroutines inside it, and the fate of every trigger it ever accepted. */
  datatype World = World(
    gate: GateState,
    running: map<nat, Execution>,
    held: Option<Held>,
    next: nat,
    fate: map<nat, Fate>,
    completed: nat,
    discarded: nat,
    started: seq<nat>)

  datatype Step =
    | Trigger(token: Token)
    | Finish(goroutine: nat)
    | ChangePolicy(policy: OverlapPolicy)

  function Start(policy: OverlapPolicy): World {
    World(Idle(policy), map[], None, 0, map[], 0, 0, [])
  }

  predicate Enabled(w: World, step: Step) {
    step.Finish? ==> step.goroutine in w.running
  }

  function Next(w: World, step: Step): World
    requires Enabled(w, step)
  {
    match step
    case Trigger(token) => OnTrigger(w, token)
    case Finish(goroutine) => OnFinish(w, goroutine)
    case ChangePolicy(policy) => w.(gate := w.gate.(policy := policy))
  }

  /** A trigger of generation `token` arrives; an executed one runs in a goroutine of its own. */
  function OnTrigger(w: World, token: Token): World {
    var id := w.next;
    var (gate, decision) := Admit(w.gate, token, Some(Handler(token, id)));
    var seen := w.(gate := gate, next := id + 1);
    match decision
    case Executed =>
      seen.(running := w.running[id := Execution(token, Handler(token, id), id)],
            fate := w.fate[id := InFlight(id)], started := w.started + [id])
    case Queued =>
      seen.(held := Some(Held(id, token)), fate := w.fate[id := Waiting])
    case Refused => seen
  }

  /** A goroutine's handler has returned and it passes through the gate again. */
  function OnFinish(w: World, goroutine: nat): World
    requires goroutine in w.running
  {
    var execution := w.running[goroutine];
    var (gate, continuation) := Complete(w.gate, execution.token, execution.handler);
    var over := w.(gate := gate, completed := w.completed + 1, fate := w.fate[execution.trigger := Done]);
    match continuation
    case Stop =>
      var gone := over.(running := w.running - {goroutine});
      if gate.queued || w.held.None? then gone
      else gone.(held := None, discarded := w.discarded + 1, fate := over.fate[w.held.value.trigger := Lost])
    case Resume(token, handler) =>
      if w.held.None? then over
      else
        var trigger := w.held.value.trigger;
        over.(running := w.running[goroutine := Execution(token, handler, trigger)], held := None,
              fate := over.fate[trigger := InFlight(goroutine)], started := w.started + [trigger])
  }

  /** `worlds` is the state sequence that `steps` drives from an idle gate. */
  ghost predicate IsRun(policy: OverlapPolicy, worlds: seq<World>, steps: seq<Step>) {
    && |worlds| == |steps| + 1
    && worlds[0] == Start(policy)
    && forall i :: 0 <= i < |steps| ==> StepAt(worlds, steps, i)
  }

  ghost predicate StepAt(worlds: seq<World>, steps: seq<Step>, i: nat)
    requires i < |steps| < |worlds|
  {
    IsStep(worlds[i], steps[i], worlds[i + 1])
  }

  ghost predicate IsStep(w: World, step: Step, v: World) {
    Enabled(w, step) && v == Next(w, step)
  }

  /** Every accepted trigger has one fate, and the goroutines and the queue agree with it. */
  ghost predicate Conserved(w: World) {
    && |w.fate| == w.completed + |w.running| + (if w.held.Some? then 1 else 0) + w.discarded
    && (forall g :: g in w.running ==> w.running[g].trigger in w.fate && w.fate[w.running[g].trigger] == InFlight(g))
    && (forall t :: t in w.fate && w.fate[t].InFlight? ==>
          w.fate[t].goroutine in w.running && w.running[w.fate[t].goroutine].trigger == t)
    && (w.held.Some? ==> w.held.value.trigger in w.fate)
    && (forall t :: t in w.fate ==> (w.fate[t] == Waiting <==> w.held.Some? && w.held.value.trigger == t))
  }

  /** No trigger is started twice, and those started are the completed ones and those in flight. */
  ghost predicate StartedOnce(w: World) {
    && (forall i, j :: 0 <= i < j < |w.started| ==> w.started[i] != w.started[j])
    && (forall t :: t in w.started <==> t in w.fate && (w.fate[t].InFlight? || w.fate[t].Done?))
  }

  /** The gate's fields tell the truth about the goroutines and the held trigger. */
  ghost predicate GateAgrees(w: World) {
    && w.gate.active == |w.running|
    && w.gate.queued == w.held.Some?
    && (w.gate.queued ==> w.gate.active > 0)
    && w.gate.queuedToken == (if w.held.Some? then Some(w.held.value.token) else None)
    && w.gate.activeToken.Some? == (w.gate.active > 0)
    && (w.gate.queuedHandler.Some? ==>
          w.held.Some? && w.gate.queuedHandler == Some(Handler(w.held.value.token, w.held.value.trigger)))
    && (w.held.Some? && w.gate.queuedHandler.None? ==> w.gate.activeToken == Some(w.held.value.token))
    && (forall g :: g in w.running ==> w.running[g].handler.token == w.running[g].token)
  }

  ghost predicate Fresh(w: World) {
    && (forall t :: t in w.fate ==> t < w.next)
    && (forall g :: g in w.running ==> g < w.next)
  }

  ghost predicate Inv(w: World) {
    Conserved(w) && StartedOnce(w) && GateAgrees(w) && Fresh(w)
  }

  lemma StartConserves(w: World, token: Token)
    requires Conserved(w) && Fresh(w) && OnTrigger(w, token).started != w.started
    ensures Conserved(OnTrigger(w, token))
  {
    assert w.next !in w.fate && w.next !in w.running;
  }

  lemma QueueingConserves(w: World, token: Token)
    requires Conserved(w) && Fresh(w) && w.held.None? && OnTrigger(w, token).held.Some?
    ensures Conserved(OnTrigger(w, token))
  {
    assert w.next !in w.fate;
  }

  lemma TriggerConserves(w: World, token: Token)
    requires Inv(w)
    ensures Conserved(OnTrigger(w, token))
  {
    match Admit(w.gate, token, Some(Handler(token, w.next))).1
    case Executed => StartConserves(w, token);
    case Queued => QueueingConserves(w, token);
    case Refused =>
  }

  lemma TriggerStartsOnce(w: World, token: Token)
    requires Inv(w)
    ensures StartedOnce(OnTrigger(w, token))
  {
    var v := OnTrigger(w, token);
    assert w.next !in w.fate && w.next !in w.started;
    if v.started != w.started {
      assert forall t :: t in v.started <==> t in w.started || t == w.next;
    }
  }

  lemma TriggerAgrees(w: World, token: Token)
    requires Inv(w)
    ensures GateAgrees(OnTrigger(w, token))
  {
    assert w.next !in w.running;
  }

  lemma SameSize<T>(m: map<nat, T>, k: nat, x: T)
    requires k in m
    ensures |m[k := x]| == |m|
  {
    assert m[k := x].Keys == m.Keys;
  }

  /** The fates after a finish: its trigger is done, and the held one moves on if the gate empties. */
  lemma FinishFates(w: World, goroutine: nat)
    requires Inv(w) && goroutine in w.running
    ensures var v := OnFinish(w, goroutine);
            var own := w.running[goroutine].trigger;
            && own in w.fate && (w.held.Some? ==> w.held.value.trigger != own)
            && v.fate.Keys == w.fate.Keys && |v.fate| == |w.fate|
            && v.running == (if v.held == w.held || v.discarded > w.discarded then w.running - {goroutine}
                             else w.running[goroutine := v.running[goroutine]])
            && (v.held == w.held || (v.held.None? && w.held.Some?))
            && (forall t :: t in w.fate && t != own && (w.held.Some? ==> t != w.held.value.trigger) ==> v.fate[t] == w.fate[t])
            && v.fate[own] == Done
            && (v.held == w.held ==> v.discarded == w.discarded && (w.held.Some? ==> v.fate[w.held.value.trigger] == Waiting))
            && (v.held != w.held && v.discarded > w.discarded ==>
                  v.discarded == w.discarded + 1 && v.fate[w.held.value.trigger] == Lost)
            && (v.held != w.held && v.discarded == w.discarded ==>
                  && v.fate[w.held.value.trigger] == InFlight(goroutine)
                  && v.running[goroutine].trigger == w.held.value.trigger)
  {
    var own := w.running[goroutine].trigger;
    SameSize(w.fate, own, Done);
    if w.held.Some? {
      SameSize(w.fate[own := Done], w.held.value.trigger, Lost);
      SameSize(w.fate[own := Done], w.held.value.trigger, InFlight(goroutine));
    }
  }

  lemma FinishConserves(w: World, goroutine: nat)
    requires Inv(w) && goroutine in w.running
    ensures Conserved(OnFinish(w, goroutine))
  {
    var v := OnFinish(w, goroutine);
    FinishFates(w, goroutine);
    assert (w.running - {goroutine}).Keys == w.running.Keys - {goroutine};
    if v.held != w.held && v.discarded == w.discarded {
      SameSize(w.running, goroutine, v.running[goroutine]);
    }
  }

  lemma FinishStartsOnce(w: World, goroutine: nat)
    requires Inv(w) && goroutine in w.running
    ensures StartedOnce(OnFinish(w, goroutine))
  {
    var v := OnFinish(w, goroutine);
    if v.started != w.started {
      var trigger := w.held.value.trigger;
      assert trigger !in w.started;
      assert forall t :: t in v.started <==> t in w.started || t == trigger;
    }
  }

  lemma FinishAgrees(w: World, goroutine: nat)
    requires Inv(w) && goroutine in w.running
    ensures GateAgrees(OnFinish(w, goroutine))
  {
    assert (w.running - {goroutine}).Keys == w.running.Keys - {goroutine};
  }

  lemma StepKeepsFresh(w: World, step: Step)
    requires Inv(w) && Enabled(w, step)
    ensures Fresh(Next(w, step))
  {
  }

  lemma StepKeepsInv(w: World, step: Step)
    requires Inv(w) && Enabled(w, step)
    ensures Inv(Next(w, step))
  {
    StepKeepsFresh(w, step);
    match step {
      case Trigger(token) =>
        TriggerConserves(w, token);
        TriggerStartsOnce(w, token);
        TriggerAgrees(w, token);
      case Finish(goroutine) =>
        FinishConserves(w, goroutine);
        FinishStartsOnce(w, goroutine);
        FinishAgrees(w, goroutine);
      case ChangePolicy(_) =>
    }
  }

  // ---------------------------------------------------------------------------------------------
  // Whole runs
  // ---------------------------------------------------------------------------------------------

  lemma StepReaches(w: World, step: Step, v: World)
    requires Inv(w) && IsStep(w, step, v)
    ensures Inv(v)
  {
    StepKeepsInv(w, step);
  }

  lemma StartHasInv(policy: OverlapPolicy)
    ensures Inv(Start(policy))
  {
  }

  lemma {:induction false} RunKeepsInv(policy: OverlapPolicy, worlds: seq<World>, steps: seq<Step>, i: nat)
    requires IsRun(policy, worlds, steps) && i <= |steps|
    ensures Inv(worlds[i])
  {
    if i > 0 {
      RunKeepsInv(policy, worlds, steps, i - 1);
      assert StepAt(worlds, steps, i - 1);
      StepReaches(worlds[i - 1], steps[i - 1], worlds[i]);
    } else {
      StartHasInv(policy);
    }
  }

  lemma NothingRunsIffIdle(w: World)
    requires Inv(w)
    ensures w.running == map[] <==> w.gate.active == 0
  {
    if w.gate.active == 0 {
      assert w.running.Keys == {};
    }
  }

  /** A trigger may run at once: beside others, or because nothing runs. */
  predicate RunsAtOnce(w: World) {
    w.gate.policy == AllowOverlap || w.running == map[]
  }

  /** A trigger may wait: the policy lets one wait, and none does. */
  predicate MayWait(w: World) {
    w.gate.policy == QueueOne && w.held.None?
  }

  /**
   In every reachable state a new trigger is accepted exactly if it may run at once or may wait. It runs with its own
   handler; and if it waits, it keeps its handler unless the execution in flight is of its generation.
   */
  lemma AcceptedExactlyWhen(policy: OverlapPolicy, worlds: seq<World>, steps: seq<Step>, i: nat, token: Token)
    requires IsRun(policy, worlds, steps) && i <= |steps|
    ensures var w, v := worlds[i], Next(worlds[i], Trigger(token));
            var own := Handler(token, w.next);
            && w.next !in w.fate
            && (w.next in v.fate <==> RunsAtOnce(w) || MayWait(w))
            && (RunsAtOnce(w) ==> v.fate[w.next] == InFlight(w.next) && v.running == w.running[w.next := Execution(token, own, w.next)])
            && (!RunsAtOnce(w) && MayWait(w) ==>
                  && v.fate[w.next] == Waiting && v.running == w.running && v.held == Some(Held(w.next, token))
                  && v.gate.queuedHandler == if w.gate.activeToken == Some(token) then None else Some(own))
            && (!RunsAtOnce(w) && !MayWait(w) ==> v == w.(next := w.next + 1))
  {
    RunKeepsInv(policy, worlds, steps, i);
    NothingRunsIffIdle(worlds[i]);
  }

  /**
   In every reachable state a finish lets the waiting trigger run exactly if it is the last one and the trigger is not
   lost; it runs with its own handler, or with one of its generation.
   */
  lemma LastOneOutRunsTheHeld(policy: OverlapPolicy, worlds: seq<World>, steps: seq<Step>, i: nat, g: nat)
    requires IsRun(policy, worlds, steps) && i <= |steps| && g in worlds[i].running
    ensures var w, v := worlds[i], Next(worlds[i], Finish(g));
            && v.fate[w.running[g].trigger] == Done
            && (w.held.Some? && |w.running| == 1 && !LossStep(w, Finish(g)) ==>
                  && v.running.Keys == {g} && v.running[g].trigger == w.held.value.trigger && v.running[g].token == w.held.value.token
                  && v.running[g].handler.token == w.held.value.token
                  && (w.gate.queuedHandler.Some? ==> v.running[g].handler.trigger == w.held.value.trigger))
            && (w.held.None? || |w.running| > 1 || LossStep(w, Finish(g)) ==> v.running == w.running - {g})
  {
    RunKeepsInv(policy, worlds, steps, i);
    var w := worlds[i];
    if |w.running| == 1 {
      Singleton(w.running.Keys, g);
    }
  }

  /** Conservation: every accepted trigger is completed, in flight, queued or discarded. */
  lemma AcceptedWorkIsConserved(policy: OverlapPolicy, worlds: seq<World>, steps: seq<Step>, i: nat)
    requires IsRun(policy, worlds, steps) && i <= |steps|
    ensures var w := worlds[i];
            && |w.fate| == w.completed + w.gate.active + (if w.gate.queued then 1 else 0) + w.discarded
            && w.gate.active == |w.running|
            && (w.gate.queued ==> w.gate.active > 0)
  {
    RunKeepsInv(policy, worlds, steps, i);
  }

  /** Once the gate is idle, an accepted trigger was run exactly once or, if lost, not at all. */
  lemma DrainedWorkRanOnce(policy: OverlapPolicy, worlds: seq<World>, steps: seq<Step>, t: nat)
    requires IsRun(policy, worlds, steps) && worlds[|steps|].gate.active == 0
    requires t in worlds[|steps|].fate
    ensures var w := worlds[|steps|];
            && (w.fate[t] == Done || w.fate[t] == Lost)
            && multiset(w.started)[t] == if w.fate[t] == Lost then 0 else 1
  {
    var w := worlds[|steps|];
    RunKeepsInv(policy, worlds, steps, |steps|);
    assert w.running.Keys == {};
    if w.fate[t] != Lost {
      OccursOnce(w.started, t);
    } else {
      assert t !in multiset(w.started);
    }
  }

  lemma {:induction false} OccursOnce(s: seq<nat>, t: nat)
    requires forall i, j :: 0 <= i < j < |s| ==> s[i] != s[j]
    requires t in s
    ensures multiset(s)[t] == 1
  {
    var k :| 0 <= k < |s| && s[k] == t;
    assert s == s[..k] + [t] + s[k + 1..];
    assert t !in multiset(s[..k]) && t !in multiset(s[k + 1..]);
  }

  /** The queued trigger has no handler of its own, and the last execution out is of another generation. */
  predicate LossStep(w: World, step: Step) {
    step.Finish? && step.goroutine in w.running && Drops(w.gate, w.running[step.goroutine].token)
  }

  ghost predicate Loses(w: World, step: Step, t: nat) {
    LossStep(w, step) && w.held.Some? && w.held.value.trigger == t
  }

  lemma StepFate(w: World, step: Step, t: nat)
    requires Inv(w) && Enabled(w, step)
    ensures t in w.fate ==> t in Next(w, step).fate
    ensures t in w.fate && w.fate[t] == Lost ==> Next(w, step).fate[t] == Lost
    ensures t in Next(w, step).fate && Next(w, step).fate[t] == Lost && (t in w.fate ==> w.fate[t] != Lost)
            <==> Loses(w, step, t)
    ensures Next(w, step).discarded == w.discarded + if LossStep(w, step) then 1 else 0
  {
    if step.Finish? {
      FinishFates(w, step.goroutine);
    }
  }

  lemma FateInRun(policy: OverlapPolicy, worlds: seq<World>, steps: seq<Step>, t: nat, i: nat)
    requires IsRun(policy, worlds, steps) && i < |steps|
    ensures var w, v := worlds[i], worlds[i + 1];
            && (t in v.fate && v.fate[t] == Lost <==> (t in w.fate && w.fate[t] == Lost) || Loses(w, steps[i], t))
            && v.discarded == w.discarded + if LossStep(w, steps[i]) then 1 else 0
  {
    RunKeepsInv(policy, worlds, steps, i);
    assert StepAt(worlds, steps, i);
    StepFate(worlds[i], steps[i], t);
  }

  /** An accepted trigger is lost by state `n` exactly when an earlier step meets the loss condition on it. */
  lemma {:induction false} LostExactlyAtLossSteps(policy: OverlapPolicy, worlds: seq<World>, steps: seq<Step>, t: nat, n: nat)
    requires IsRun(policy, worlds, steps) && n <= |steps|
    ensures t in worlds[n].fate && worlds[n].fate[t] == Lost
            <==> exists i :: 0 <= i < n && Loses(worlds[i], steps[i], t)
  {
    if n > 0 {
      LostExactlyAtLossSteps(policy, worlds, steps, t, n - 1);
      FateInRun(policy, worlds, steps, t, n - 1);
    }
  }

  /** Nothing is discarded by state `n` exactly when no earlier step meets the loss condition. */
  lemma {:induction false} NothingLostIffNoLossStep(policy: OverlapPolicy, worlds: seq<World>, steps: seq<Step>, n: nat)
    requires IsRun(policy, worlds, steps) && n <= |steps|
    ensures worlds[n].discarded == 0 <==> forall i :: 0 <= i < n ==> !LossStep(worlds[i], steps[i])
  {
    if n > 0 {
      NothingLostIffNoLossStep(policy, worlds, steps, n - 1);
      FateInRun(policy, worlds, steps, 0, n - 1);
    }
  }

  /** All executions in flight together are of one generation. */
  ghost predicate SharesToken(w: World) {
    forall g, h :: g in w.running && h in w.running ==> w.running[g].token == w.running[h].token
  }

  ghost predicate Marked(w: World) {
    forall g :: g in w.running ==> w.gate.activeToken == Some(w.running[g].token)
  }

  lemma TriggerKeepsMark(w: World, token: Token)
    requires Inv(w) && Marked(w) && SharesToken(OnTrigger(w, token))
    ensures Marked(OnTrigger(w, token))
  {
    var v := OnTrigger(w, token);
    assert w.next !in w.running;
    if w.running == map[] {
      assert |w.running| == 0;
    } else if v.running != w.running {
      var g :| g in w.running;
      assert v.running[g] == w.running[g] && v.running[w.next].token == token;
    }
  }

  lemma FinishKeepsMark(w: World, goroutine: nat)
    requires Inv(w) && Marked(w) && goroutine in w.running
    ensures Marked(OnFinish(w, goroutine)) && !LossStep(w, Finish(goroutine))
  {
    if w.gate.active == 1 {
      Singleton(w.running.Keys, goroutine);
    }
  }

  lemma StepKeepsMark(w: World, step: Step)
    requires Inv(w) && Marked(w) && Enabled(w, step) && SharesToken(Next(w, step))
    ensures Marked(Next(w, step)) && !LossStep(w, step)
  {
    match step
    case Trigger(token) => TriggerKeepsMark(w, token);
    case Finish(goroutine) => FinishKeepsMark(w, goroutine);
    case ChangePolicy(_) =>
  }

  lemma Singleton(s: set<nat>, x: nat)
    requires |s| == 1 && x in s
    ensures s == {x}
  {
    assert |s - {x}| == 0;
  }

  /** Runs whose concurrent executions always share a generation lose nothing, whatever setPolicy does. */
  lemma {:induction false} SharedGenerationLosesNothing(policy: OverlapPolicy, worlds: seq<World>, steps: seq<Step>, n: nat)
    requires IsRun(policy, worlds, steps) && n <= |steps|
    requires forall i :: 0 <= i <= n ==> SharesToken(worlds[i])
    ensures worlds[n].discarded == 0 && Marked(worlds[n])
  {
    if n > 0 {
      SharedGenerationLosesNothing(policy, worlds, steps, n - 1);
      RunKeepsInv(policy, worlds, steps, n - 1);
      assert StepAt(worlds, steps, n - 1);
      StepKeepsMark(worlds[n - 1], steps[n - 1]);
      StepFate(worlds[n - 1], steps[n - 1], 0);
    }
  }

  /** One step's effect on the number of executions in flight and on the pending work. */
  lemma StepAgrees(w: World, step: Step)
    requires Inv(w) && Enabled(w, step)
    ensures |Next(w, step).running| == Next(w, step).gate.active
  {
    StepKeepsInv(w, step);
  }

  lemma StepSizes(w: World, step: Step)
    requires Inv(w) && Enabled(w, step)
    ensures w.gate.policy != AllowOverlap ==>
              |Next(w, step).running| <= if |w.running| > 1 then |w.running| else 1
    ensures !step.Trigger? ==> Pending(Next(w, step)) + (if step.Finish? then 1 else 0) <= Pending(w)
  {
    StepAgrees(w, step);
  }

  lemma StepAddsNoOverlap(w: World, step: Step, w': World, bound: nat)
    requires Inv(w) && Enabled(w, step) && w' == Next(w, step)
    requires w.gate.policy != AllowOverlap && |w.running| <= bound && 1 <= bound
    ensures |w'.running| <= bound
  {
    StepSizes(w, step);
  }

  /** From a state where overlap is not allowed on, concurrency never rises above what it was. */
  lemma {:induction false} NoNewOverlap(policy: OverlapPolicy, worlds: seq<World>, steps: seq<Step>, from: nat, to: nat)
    requires IsRun(policy, worlds, steps) && from <= to <= |steps|
    requires forall i :: from <= i <= to ==> worlds[i].gate.policy != AllowOverlap
    ensures |worlds[to].running| <= if |worlds[from].running| > 1 then |worlds[from].running| else 1
  {
    if from < to {
      NoNewOverlap(policy, worlds, steps, from, to - 1);
      RunKeepsInv(policy, worlds, steps, to - 1);
      assert StepAt(worlds, steps, to - 1);
      var bound := if |worlds[from].running| > 1 then |worlds[from].running| else 1;
      StepAddsNoOverlap(worlds[to - 1], steps[to - 1], worlds[to], bound);
    }
  }

  /** Without AllowOverlap at any time, at most one execution is in flight and no trigger is lost. */
  lemma WithoutOverlapNothingIsLost(policy: OverlapPolicy, worlds: seq<World>, steps: seq<Step>)
    requires IsRun(policy, worlds, steps)
    requires forall i :: 0 <= i <= |steps| ==> worlds[i].gate.policy != AllowOverlap
    ensures worlds[|steps|].discarded == 0
    ensures forall i :: 0 <= i <= |steps| ==> |worlds[i].running| <= 1
  {
    forall i | 0 <= i <= |steps|
      ensures |worlds[i].running| <= 1 && SharesToken(worlds[i])
    {
      NoNewOverlap(policy, worlds, steps, 0, i);
      forall g, h | g in worlds[i].running && h in worlds[i].running
        ensures g == h
      {
        Singleton(worlds[i].running.Keys, g);
      }
    }
    SharedGenerationLosesNothing(policy, worlds, steps, |steps|);
  }

  function Pending(w: World): nat {
    w.gate.active + if w.gate.queued then 1 else 0
  }

  /** How many of the steps from `from` up to `to` are finishes. */
  function Finishes(steps: seq<Step>, from: nat, to: nat): nat
    requires from <= to <= |steps|
  {
    if from == to then 0
    else Finishes(steps, from, to - 1) + if steps[to - 1].Finish? then 1 else 0
  }

  /**
   With no new trigger from index `from` on, each finish takes the pending work down by one or more,
   so at most `Pending` of them happen; and while work is pending, some goroutine can finish.
   */
  lemma {:induction false} GateDrains(policy: OverlapPolicy, worlds: seq<World>, steps: seq<Step>, from: nat, to: nat)
    requires IsRun(policy, worlds, steps) && from <= to <= |steps|
    requires forall i :: from <= i < to ==> !steps[i].Trigger?
    ensures Pending(worlds[to]) + Finishes(steps, from, to) <= Pending(worlds[from])
    ensures Pending(worlds[to]) > 0 ==> exists g :: g in worlds[to].running
  {
    if from < to {
      GateDrains(policy, worlds, steps, from, to - 1);
      RunKeepsInv(policy, worlds, steps, to - 1);
      assert StepAt(worlds, steps, to - 1);
      StepSizes(worlds[to - 1], steps[to - 1]);
    }
    RunKeepsInv(policy, worlds, steps, to);
    if worlds[to].running == map[] {
      assert |worlds[to].running| == 0;
    }
  }

  const LOSING: seq<Step> := [Trigger(1), Trigger(1), ChangePolicy(AllowOverlap), Trigger(2), Finish(0), Finish(2)]

  /** The worlds the losing trace passes through. */
  function Trace(i: nat): World {
    var first, second := Execution(1, Handler(1, 0), 0), Execution(2, Handler(2, 2), 2);
    var one := GateState(QueueOne, 1, Some(1), false, None, None);
    var held := one.(queued := true, queuedToken := Some(1));
    var open := held.(policy := AllowOverlap);
    match i
    case 0 => Start(QueueOne)
    case 1 => World(one, map[0 := first], None, 1, map[0 := InFlight(0)], 0, 0, [0])
    case 2 => World(held, map[0 := first], Some(Held(1, 1)), 2, map[0 := InFlight(0), 1 := Waiting], 0, 0, [0])
    case 3 => World(open, map[0 := first], Some(Held(1, 1)), 2, map[0 := InFlight(0), 1 := Waiting], 0, 0, [0])
    case 4 => World(open.(active := 2), map[0 := first, 2 := second], Some(Held(1, 1)), 3,
                    map[0 := InFlight(0), 1 := Waiting, 2 := InFlight(2)], 0, 0, [0, 2])
    case 5 => World(open, map[2 := second], Some(Held(1, 1)), 3, map[0 := Done, 1 := Waiting, 2 := InFlight(2)], 1, 0, [0, 2])
    case _ => World(Idle(AllowOverlap), map[], None, 3, map[0 := Done, 1 := Lost, 2 := Done], 2, 1, [0, 2])
  }

  lemma TraceQueues()
    ensures IsStep(Trace(0), LOSING[0], Trace(1)) && IsStep(Trace(1), LOSING[1], Trace(2))
  {
  }

  lemma TraceOpens()
    ensures IsStep(Trace(2), LOSING[2], Trace(3)) && IsStep(Trace(3), LOSING[3], Trace(4))
  {
  }

  lemma TraceFinishes()
    ensures IsStep(Trace(4), LOSING[4], Trace(5)) && IsStep(Trace(5), LOSING[5], Trace(6))
  {
  }

  /**
   The trace that loses an accepted trigger. Generation 1 runs under QueueOne and its second trigger
   is queued without a handler. The policy becomes AllowOverlap, generation 2 is admitted, generation
   1 finishes, and generation 2 leaves last: the queued trigger is dropped.
   */
  lemma OverlapAcrossGenerationsLosesATrigger() returns (worlds: seq<World>, steps: seq<Step>)
    ensures IsRun(QueueOne, worlds, steps) && |steps| == 6
    ensures worlds[2].fate == map[0 := InFlight(0), 1 := Waiting]
    ensures worlds[|steps|].fate == map[0 := Done, 1 := Lost, 2 := Done]
    ensures worlds[|steps|].gate == Idle(AllowOverlap)
  {
    steps := LOSING;
    worlds := seq(7, i requires 0 <= i < 7 => Trace(i));
    TraceQueues();
    TraceOpens();
    TraceFinishes();
    forall i | 0 <= i < 6
      ensures StepAt(worlds, steps, i)
    {
      assert worlds[i] == Trace(i) && worlds[i + 1] == Trace(i + 1);
    }
  }
}
