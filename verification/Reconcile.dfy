/**
 Persistent job reconciliation: one Sync turns the jobs a loader owns in a scheduler into the ones its
 store lists, in three phases, and takes everything back if any step fails.

 Map iteration order, cancellation points and scheduler failures are all arbitrary here. A failed
 scheduler call has no effect.
 */
module Reconcile {
  import opened Wrappers

  datatype ExecutionMode = Singleton | EveryInstance | Unknown(code: nat)

  /** `body` stands for the schedule, the payload, the timeout and the overlap policy. */
  datatype Definition = Definition(
    id: string, name: string, handler: string, version: int, enabled: bool, mode: ExecutionMode, body: nat)

  /** A job in the scheduler: one made from a definition by the loader, or anyone else's. */
  datatype Job = Persistent(definition: Definition) | Other(tag: nat)

  type Jobs = map<string, Job>

  datatype Loaded = Loaded(version: int, name: string, definition: Definition)

  function Get(jobs: Jobs, n: string): Option<Job> {
    if n in jobs then Some(jobs[n]) else None
  }

  // ---------------------------------------------------------------------------------------------
  // Preparing the desired state
  // ---------------------------------------------------------------------------------------------

  /** What strings.TrimSpace takes for white space. */
  predicate IsSpace(c: char) {
    || c == ' ' || '\t' <= c <= '\r' || c == '\U{85}' || c == '\U{A0}' || c == '\U{1680}' || '\U{2000}' <= c <= '\U{200A}'
    || c == '\U{2028}' || c == '\U{2029}' || c == '\U{202F}' || c == '\U{205F}' || c == '\U{3000}'
  }

  function TrimLeft(s: string): string {
    if s != "" && IsSpace(s[0]) then TrimLeft(s[1..]) else s
  }

  function TrimRight(s: string): string {
    if s != "" && IsSpace(s[|s| - 1]) then TrimRight(s[..|s| - 1]) else s
  }

  function Trim(s: string): string {
    TrimRight(TrimLeft(s))
  }

  ghost predicate Spaces(s: string) {
    forall c :: c in s ==> IsSpace(c)
  }

  /** `t` is all of `s` but white space around it, and neither begins nor ends with any. */
  ghost predicate Trims(s: string, before: string, t: string, after: string) {
    s == before + t + after && Spaces(before) && Spaces(after) && (t != "" ==> !IsSpace(t[0]) && !IsSpace(t[|t| - 1]))
  }

  lemma {:induction false} TrimLeftIs(s: string) returns (before: string)
    ensures s == before + TrimLeft(s) && Spaces(before) && (TrimLeft(s) != "" ==> !IsSpace(TrimLeft(s)[0]))
  {
    before := "";
    if s != "" && IsSpace(s[0]) {
      var rest := TrimLeftIs(s[1..]);
      before := [s[0]] + rest;
      assert s == [s[0]] + s[1..];
    }
  }

  lemma {:induction false} TrimRightIs(s: string) returns (after: string)
    ensures s == TrimRight(s) + after && Spaces(after) && (TrimRight(s) != "" ==> !IsSpace(TrimRight(s)[|TrimRight(s)| - 1]))
  {
    after := "";
    if s != "" && IsSpace(s[|s| - 1]) {
      var rest := TrimRightIs(s[..|s| - 1]);
      after := rest + [s[|s| - 1]];
      assert s == s[..|s| - 1] + [s[|s| - 1]];
    }
  }

  /** Trimming takes away the white space around a string, and nothing else. */
  lemma TrimIs(s: string) returns (before: string, after: string)
    ensures Trims(s, before, Trim(s), after)
  {
    before := TrimLeftIs(s);
    after := TrimRightIs(TrimLeft(s));
    if Trim(s) != "" {
      assert TrimLeft(s)[0] == Trim(s)[0];
    }
  }

  function Normalize(d: Definition): Definition {
    d.(id := Trim(d.id), name := Trim(d.name), handler := Trim(d.handler))
  }

  function NormalizeAll(raw: seq<Definition>): (r: seq<Definition>)
    ensures |r| == |raw|
  {
    seq(|raw|, i requires 0 <= i < |raw| => Normalize(raw[i]))
  }

  lemma NormalizedAt(raw: seq<Definition>, k: nat)
    requires k < |raw|
    ensures NormalizeAll(raw)[k] == Normalize(raw[k])
  {
  }

  datatype PrepareError =
    | BlankIdentity | DuplicateID | DuplicateName | LockerRequired | InvalidMode | UnknownHandler | InvalidJob

  /** What a Sync finds around it: a locker, the registered handlers, and the scheduler's verdict on jobs. */
  datatype Environment = Environment(hasLocker: bool, handlers: set<string>, valid: Definition -> bool)

  ghost predicate TakenID(listed: seq<Definition>, k: nat, id: string)
    requires k <= |listed|
  {
    exists j :: 0 <= j < k && listed[j].id == id
  }

  ghost predicate TakenName(listed: seq<Definition>, k: nat, name: string)
    requires k <= |listed|
  {
    exists j :: 0 <= j < k && listed[j].name == name
  }

  /** What is wrong with an enabled definition on its own. */
  function OwnFault(d: Definition, env: Environment): Option<PrepareError> {
    if d.mode.Unknown? then Some(InvalidMode)
    else if d.mode.Singleton? && !env.hasLocker then Some(LockerRequired)
    else if d.handler !in env.handlers then Some(UnknownHandler)
    else if !env.valid(d) then Some(InvalidJob)
    else None
  }

  /** What is wrong with definition `i` of the normalized list, given those before it. */
  ghost function Fault(listed: seq<Definition>, i: nat, env: Environment): Option<PrepareError>
    requires i < |listed|
  {
    if listed[i].id == "" || listed[i].name == "" then Some(BlankIdentity)
    else if TakenID(listed, i, listed[i].id) then Some(DuplicateID)
    else if TakenName(listed, i, listed[i].name) then Some(DuplicateName)
    else if listed[i].enabled then OwnFault(listed[i], env)
    else None
  }

  /** What each error says about definition `i`. */
  ghost predicate Wrong(listed: seq<Definition>, i: nat, env: Environment, error: PrepareError)
    requires i < |listed|
  {
    var d := listed[i];
    match error
    case BlankIdentity => d.id == "" || d.name == ""
    case DuplicateID => exists j :: 0 <= j < i && listed[j].id == d.id
    case DuplicateName => exists j :: 0 <= j < i && listed[j].name == d.name
    case LockerRequired => d.enabled && d.mode == Singleton && !env.hasLocker
    case InvalidMode => d.enabled && d.mode.Unknown?
    case UnknownHandler => d.enabled && d.handler !in env.handlers
    case InvalidJob => d.enabled && !env.valid(d)
  }

  /** In which order the checks are made. */
  function Rank(error: PrepareError): nat {
    match error
    case BlankIdentity => 0
    case DuplicateID => 1
    case DuplicateName => 2
    case LockerRequired => 3
    case InvalidMode => 3
    case UnknownHandler => 4
    case InvalidJob => 5
  }

  /** The error reported is right, and the first in order that is; a definition passes exactly if none is. */
  lemma FaultIsTheFirstWrong(listed: seq<Definition>, i: nat, env: Environment, error: PrepareError)
    requires i < |listed|
    ensures Fault(listed, i, env) == Some(error)
            <==> Wrong(listed, i, env, error) && forall other :: Rank(other) < Rank(error) ==> !Wrong(listed, i, env, other)
    ensures Fault(listed, i, env) == None <==> forall other :: !Wrong(listed, i, env, other)
  {
    match Fault(listed, i, env)
    case None =>
    case Some(found) =>
      assert Wrong(listed, i, env, found);
  }

  /** IDs and names are there and differ, but for white space around them. */
  ghost predicate Distinct(raw: seq<Definition>) {
    && (forall i :: 0 <= i < |raw| ==> Trim(raw[i].id) != "" && Trim(raw[i].name) != "")
    && (forall i, j :: 0 <= i < j < |raw| ==> Trim(raw[i].id) != Trim(raw[j].id) && Trim(raw[i].name) != Trim(raw[j].name))
  }

  /** The mode can be had, the handler is registered, and the scheduler takes the job. */
  predicate CanRun(d: Definition, env: Environment) {
    && (d.mode == EveryInstance || (d.mode == Singleton && env.hasLocker)) && Trim(d.handler) in env.handlers
    && env.valid(d.(id := Trim(d.id), name := Trim(d.name), handler := Trim(d.handler)))
  }

  lemma CleanIsDistinct(raw: seq<Definition>, env: Environment)
    requires Clean(NormalizeAll(raw), |raw|, env)
    ensures Distinct(raw)
  {
    var listed := NormalizeAll(raw);
    forall i, j | 0 <= i < j < |raw|
      ensures Trim(raw[i].id) != Trim(raw[j].id) && Trim(raw[i].name) != Trim(raw[j].name)
    {
      assert Fault(listed, j, env) == None;
      assert listed[i].id == Trim(raw[i].id) && listed[i].name == Trim(raw[i].name);
    }
    forall i | 0 <= i < |raw|
      ensures Trim(raw[i].id) != "" && Trim(raw[i].name) != ""
    {
      assert Fault(listed, i, env) == None;
    }
  }

  lemma DistinctIsNotTaken(raw: seq<Definition>, i: nat)
    requires Distinct(raw) && i < |raw|
    ensures var listed := NormalizeAll(raw); !TakenID(listed, i, listed[i].id) && !TakenName(listed, i, listed[i].name)
  {
  }

  lemma FaultlessExactlyIf(raw: seq<Definition>, i: nat, env: Environment)
    requires Distinct(raw) && i < |raw|
    ensures Fault(NormalizeAll(raw), i, env) == None <==> (raw[i].enabled ==> CanRun(raw[i], env))
  {
    DistinctIsNotTaken(raw, i);
    NormalizedAt(raw, i);
  }

  /** A list is accepted exactly if its IDs and names are there and differ, and every enabled definition can run. */
  lemma AcceptedExactlyIf(raw: seq<Definition>, env: Environment)
    ensures Clean(NormalizeAll(raw), |raw|, env)
            <==> Distinct(raw) && forall i :: 0 <= i < |raw| && raw[i].enabled ==> CanRun(raw[i], env)
  {
    if Clean(NormalizeAll(raw), |raw|, env) {
      CleanIsDistinct(raw, env);
    }
    if Distinct(raw) {
      forall i | 0 <= i < |raw|
        ensures Fault(NormalizeAll(raw), i, env) == None <==> (raw[i].enabled ==> CanRun(raw[i], env))
      {
        FaultlessExactlyIf(raw, i, env);
      }
    }
  }

  type Prepared = map<string, Definition>

  /** `prepared` holds those of the first `k` definitions that are enabled, by ID. */
  ghost predicate Holds(prepared: Prepared, listed: seq<Definition>, k: nat)
    requires k <= |listed|
  {
    && (forall i :: 0 <= i < k && listed[i].enabled ==> listed[i].id in prepared && prepared[listed[i].id] == listed[i])
    && (forall id :: id in prepared ==> exists i :: 0 <= i < k && listed[i].enabled && listed[i] == prepared[id])
  }

  /** IDs lead to their own definitions, and no two share a name. */
  ghost predicate Named(prepared: Prepared) {
    && (forall id :: id in prepared ==> prepared[id].id == id)
    && (forall a, b :: a in prepared && b in prepared && prepared[a].name == prepared[b].name ==> a == b)
  }

  /** One more definition, disabled or filed under its own ID. */
  lemma HoldsOneMore(prepared: Prepared, listed: seq<Definition>, k: nat)
    requires k < |listed| && Holds(prepared, listed, k)
    requires Named(prepared)
    requires !TakenID(listed, k, listed[k].id) && !TakenName(listed, k, listed[k].name)
    ensures var next := if listed[k].enabled then prepared[listed[k].id := listed[k]] else prepared;
            Holds(next, listed, k + 1) && Named(next)
  {
    forall id | id in prepared
      ensures id != listed[k].id && prepared[id].name != listed[k].name
    {
      var i :| 0 <= i < k && listed[i].enabled && listed[i] == prepared[id];
    }
  }

  /** The first `k` definitions pass. */
  ghost predicate Clean(listed: seq<Definition>, k: nat, env: Environment)
    requires k <= |listed|
  {
    forall i :: 0 <= i < k ==> Fault(listed, i, env) == None
  }

  lemma CleanOneMore(listed: seq<Definition>, k: nat, env: Environment)
    requires k < |listed| && Clean(listed, k, env) && Fault(listed, k, env) == None
    ensures Clean(listed, k + 1, env)
  {
  }

  lemma TakenOneMore(listed: seq<Definition>, k: nat)
    requires k < |listed|
    ensures forall x :: TakenID(listed, k + 1, x) <==> TakenID(listed, k, x) || x == listed[k].id
    ensures forall x :: TakenName(listed, k + 1, x) <==> TakenName(listed, k, x) || x == listed[k].name
  {
    var last := listed[k];
    assert TakenID(listed, k + 1, last.id) && TakenName(listed, k + 1, last.name);
  }

  /** What has been gathered from the first `k` definitions. */
  ghost predicate Scanned(listed: seq<Definition>, k: nat, env: Environment, ids: set<string>, names: set<string>, prepared: Prepared)
    requires k <= |listed|
  {
    && Clean(listed, k, env) && Holds(prepared, listed, k) && Named(prepared)
    && (forall x :: x in ids <==> TakenID(listed, k, x)) && (forall x :: x in names <==> TakenName(listed, k, x))
  }

  lemma NothingScanned(listed: seq<Definition>, env: Environment)
    ensures Scanned(listed, 0, env, {}, {}, map[])
  {
  }

  lemma AllScanned(listed: seq<Definition>, env: Environment, ids: set<string>, names: set<string>, prepared: Prepared)
    requires Scanned(listed, |listed|, env, ids, names, prepared)
    ensures Clean(listed, |listed|, env) && Holds(prepared, listed, |listed|) && Named(prepared)
  {
  }

  /** `error` is what is wrong with the first definition that does not pass. */
  ghost predicate FirstFault(listed: seq<Definition>, env: Environment, error: PrepareError) {
    exists i :: 0 <= i < |listed| && Clean(listed, i, env) && Fault(listed, i, env) == Some(error)
  }

  lemma FaultFound(listed: seq<Definition>, k: nat, env: Environment, error: PrepareError)
    requires k < |listed| && Clean(listed, k, env) && Fault(listed, k, env) == Some(error)
    ensures FirstFault(listed, env, error) && !Clean(listed, |listed|, env)
  {
  }

  lemma ScanOneMore(listed: seq<Definition>, k: nat, env: Environment, ids: set<string>, names: set<string>, prepared: Prepared)
    requires k < |listed| && Scanned(listed, k, env, ids, names, prepared) && Fault(listed, k, env) == None
    ensures var d := listed[k];
            Scanned(listed, k + 1, env, ids + {d.id}, names + {d.name}, if d.enabled then prepared[d.id := d] else prepared)
  {
    CleanOneMore(listed, k, env);
    TakenOneMore(listed, k);
    HoldsOneMore(prepared, listed, k);
  }

  /** The fault of a definition, given the IDs and names seen before it. */
  function FaultAmong(d: Definition, ids: set<string>, names: set<string>, env: Environment): Option<PrepareError> {
    if d.id == "" || d.name == "" then Some(BlankIdentity)
    else if d.id in ids then Some(DuplicateID)
    else if d.name in names then Some(DuplicateName)
    else if d.enabled then OwnFault(d, env)
    else None
  }

  lemma FaultIsAmong(listed: seq<Definition>, k: nat, env: Environment, ids: set<string>, names: set<string>, prepared: Prepared)
    requires k < |listed| && Scanned(listed, k, env, ids, names, prepared)
    ensures FaultAmong(listed[k], ids, names, env) == Fault(listed, k, env) && Clean(listed, k, env)
  {
  }

  /** One round over the definitions: the first fault, or one more definition scanned. */
  lemma Round(raw: seq<Definition>, k: nat, env: Environment, ids: set<string>, names: set<string>, prepared: Prepared)
    requires k < |raw| && Scanned(NormalizeAll(raw), k, env, ids, names, prepared)
    ensures var listed, d := NormalizeAll(raw), Normalize(raw[k]);
            match FaultAmong(d, ids, names, env)
            case Some(error) => FirstFault(listed, env, error) && !Clean(listed, |listed|, env)
            case None => Scanned(listed, k + 1, env, ids + {d.id}, names + {d.name}, if d.enabled then prepared[d.id := d] else prepared)
  {
    var listed := NormalizeAll(raw);
    NormalizedAt(raw, k);
    FaultIsAmong(listed, k, env, ids, names, prepared);
    match Fault(listed, k, env)
    case Some(error) => FaultFound(listed, k, env, error);
    case None => ScanOneMore(listed, k, env, ids, names, prepared);
  }

  /** The checks of one definition, given the IDs and names of those before it. */
  method PrepareOne(
    definitions: seq<Definition>, k: nat, env: Environment, ids: set<string>, names: map<string, string>, prepared: Prepared)
    returns (fault: Option<PrepareError>, ids': set<string>, names': map<string, string>, prepared': Prepared)
    requires k < |definitions| && Scanned(NormalizeAll(definitions), k, env, ids, names.Keys, prepared)
    ensures var listed := NormalizeAll(definitions);
            match fault
            case Some(error) => FirstFault(listed, env, error) && !Clean(listed, |listed|, env)
            case None => Scanned(listed, k + 1, env, ids', names'.Keys, prepared')
  {
    var d := Normalize(definitions[k]);
    Round(definitions, k, env, ids, names.Keys, prepared);
    fault := FaultAmong(d, ids, names.Keys, env);
    ids', names' := ids + {d.id}, names[d.name := d.id];
    prepared' := if d.enabled then prepared[d.id := d] else prepared;
    assert names'.Keys == names.Keys + {d.name};
  }

  /** The checks of the desired state: all or the first fault, and the enabled definitions by ID. */
  method PrepareDefinitions(definitions: seq<Definition>, env: Environment) returns (r: Result<Prepared, PrepareError>)
    ensures var listed := NormalizeAll(definitions);
            && (r.Ok? <==> Clean(listed, |listed|, env))
            && (r.Ok? ==> Holds(r.value, listed, |listed|) && Named(r.value))
            && (r.Err? ==> FirstFault(listed, env, r.error))
  {
    ghost var listed := NormalizeAll(definitions);
    var prepared: Prepared := map[];
    var ids: set<string> := {};
    var names: map<string, string> := map[];
    NothingScanned(listed, env);
    for k := 0 to |definitions|
      invariant Scanned(listed, k, env, ids, names.Keys, prepared)
    {
      var fault;
      fault, ids, names, prepared := PrepareOne(definitions, k, env, ids, names, prepared);
      if fault.Some? {
        return Err(fault.value);
      }
    }
    AllScanned(listed, env, ids, names.Keys, prepared);
    return Ok(prepared);
  }

  // ---------------------------------------------------------------------------------------------
  // The scheduler and the undo stack
  // ---------------------------------------------------------------------------------------------

  /** `Invalid`: the job is refused for what it is, such as a time to run at that has passed. */
  datatype CallError = Failed | Invalid | DuplicateJob | JobNotFound

  /**
   The MutableScheduler a loader works on. Which jobs it accepts depends on the time of the call. `faults` counts
   the calls that failed for a reason from outside: the engine, or a scheduler stopped meanwhile.
   */
  class Runtime {
    const valid: (Definition, int) -> bool
    var jobs: Jobs
    var now: int
    ghost var faults: nat

    constructor (jobs: Jobs, valid: (Definition, int) -> bool, now: int)
      ensures this.jobs == jobs && this.valid == valid && this.now == now && faults == 0
    {
      this.jobs, this.valid, this.now := jobs, valid, now;
      faults := 0;
    }

    /** Time passes up to a call, which may fail for a reason from outside. */
    method Call() returns (fault: bool)
      modifies `now, `faults
      ensures now >= old(now) && faults == if fault then old(faults) + 1 else old(faults)
    {
      var later :| now <= later;
      now := later;
      fault := *;
      if fault {
        faults := faults + 1;
      }
    }

    method Add(d: Definition) returns (r: Option<CallError>)
      modifies this
      ensures now >= old(now) && faults == old(faults) + if r == Some(Failed) then 1 else 0
      ensures faults == old(faults) ==>
                r == if !valid(d, now) then Some(Invalid) else if d.name in old(jobs) then Some(DuplicateJob) else None
      ensures jobs == if r.None? then old(jobs)[d.name := Persistent(d)] else old(jobs)
    {
      var fault := Call();
      if fault {
        return Some(Failed);
      }
      if !valid(d, now) {
        return Some(Invalid);
      }
      if d.name in jobs {
        return Some(DuplicateJob);
      }
      jobs := jobs[d.name := Persistent(d)];
      return None;
    }

    method Replace(d: Definition) returns (r: Option<CallError>)
      modifies this
      ensures now >= old(now) && faults == old(faults) + if r == Some(Failed) then 1 else 0
      ensures faults == old(faults) ==>
                r == if !valid(d, now) then Some(Invalid) else if d.name !in old(jobs) then Some(JobNotFound) else None
      ensures jobs == if r.None? then old(jobs)[d.name := Persistent(d)] else old(jobs)
    {
      var fault := Call();
      if fault {
        return Some(Failed);
      }
      if !valid(d, now) {
        return Some(Invalid);
      }
      if d.name !in jobs {
        return Some(JobNotFound);
      }
      jobs := jobs[d.name := Persistent(d)];
      return None;
    }

    method Remove(name: string) returns (r: Option<CallError>)
      modifies this
      ensures now >= old(now) && faults == old(faults) + if r == Some(Failed) then 1 else 0
      ensures faults == old(faults) ==> r == if name !in old(jobs) then Some(JobNotFound) else None
      ensures jobs == if r.None? then old(jobs) - {name} else old(jobs)
    {
      var fault := Call();
      if fault {
        return Some(Failed);
      }
      if name !in jobs {
        return Some(JobNotFound);
      }
      jobs := jobs - {name};
      return None;
    }
  }

  /** The caller's context, as it was when last asked. Once it is cancelled it stays so. */
  class Context {
    var cancelled: bool

    method Err() returns (r: bool)
      modifies this
      ensures r == cancelled && (old(cancelled) ==> cancelled)
    {
      if !cancelled {
        cancelled := *;
      }
      return cancelled;
    }
  }

  datatype Undo = UndoReplace(definition: Definition) | UndoRemove(definition: Definition) | UndoAdd(name: string)

  /** The name an undo operation works on. */
  function Target(u: Undo): string {
    if u.UndoAdd? then u.name else u.definition.name
  }

  /** The scheduler takes the job that `u` puts back, at that time. */
  predicate Acceptable(valid: (Definition, int) -> bool, u: Undo, time: int) {
    !u.UndoAdd? ==> valid(u.definition, time)
  }

  /** One undo operation, if nothing but the job itself could make the scheduler refuse it. */
  function ApplyUndo(jobs: Jobs, u: Undo): Option<Jobs> {
    match u
    case UndoReplace(d) => if d.name in jobs then Some(jobs[d.name := Persistent(d)]) else None
    case UndoRemove(d) => if d.name in jobs then None else Some(jobs[d.name := Persistent(d)])
    case UndoAdd(name) => if name in jobs then Some(jobs - {name}) else None
  }

  /** The whole stack, newest first. */
  function ApplyUndos(jobs: Jobs, undos: seq<Undo>): Option<Jobs>
    decreases |undos|
  {
    if undos == [] then Some(jobs)
    else
      var next := ApplyUndo(jobs, undos[|undos| - 1]);
      if next.None? then None else ApplyUndos(next.value, undos[..|undos| - 1])
  }

  /** The scheduler takes every job that is put back, each at the time of its undo. */
  ghost predicate AllAcceptable(valid: (Definition, int) -> bool, undos: seq<Undo>, times: seq<int>)
    requires |times| == |undos|
  {
    forall i :: 0 <= i < |undos| ==> Acceptable(valid, undos[i], times[i])
  }

  /** What an accepted undo operation does. */
  function Taken(jobs: Jobs, u: Undo): Jobs {
    if u.UndoAdd? then jobs - {u.name} else jobs[u.definition.name := Persistent(u.definition)]
  }

  type Answer = Option<CallError>

  /** An undo operation is refused for its job or for the jobs that are there, or fails for a reason from outside. */
  predicate Answers(valid: (Definition, int) -> bool, jobs: Jobs, u: Undo, time: int, answer: Answer) {
    match answer
    case None => Acceptable(valid, u, time) && (u.UndoReplace? ==> Target(u) in jobs) && (u.UndoRemove? ==> Target(u) !in jobs)
    case Some(Failed) => true
    case Some(Invalid) => !Acceptable(valid, u, time)
    case Some(DuplicateJob) => Acceptable(valid, u, time) && u.UndoRemove? && Target(u) in jobs
    case Some(JobNotFound) => Acceptable(valid, u, time) && u.UndoReplace? && Target(u) !in jobs
  }

  /** The jobs once every operation has been tried, newest first. */
  function Unwound(jobs: Jobs, undos: seq<Undo>, answers: seq<Answer>): Jobs
    requires |answers| == |undos|
  {
    if undos == [] then jobs
    else
      var later := Unwound(jobs, undos[1..], answers[1..]);
      if answers[0].None? then Taken(later, undos[0]) else later
  }

  /** Every operation was tried, and answered by the scheduler as it was at that moment. */
  ghost predicate AllAnswered(
    valid: (Definition, int) -> bool, jobs: Jobs, undos: seq<Undo>, answers: seq<Answer>, times: seq<int>)
    requires |answers| == |times| == |undos|
  {
    undos != [] ==>
      && AllAnswered(valid, jobs, undos[1..], answers[1..], times[1..])
      && Answers(valid, Unwound(jobs, undos[1..], answers[1..]), undos[0], times[0], answers[0])
  }

  /** The errors among the answers, newest operation first. */
  function Errors(answers: seq<Answer>): (r: seq<CallError>)
    ensures r == [] <==> forall i :: 0 <= i < |answers| ==> answers[i].None?
    ensures Failed in r <==> Some(Failed) in answers
  {
    if answers == [] then []
    else
      assert answers == [answers[0]] + answers[1..];
      Errors(answers[1..]) + if answers[0].Some? then [answers[0].value] else []
  }

  /** How many operations failed for a reason from outside. */
  function Faults(answers: seq<Answer>): (n: nat)
    ensures n == 0 <==> Some(Failed) !in answers
  {
    if answers == [] then 0
    else
      assert answers == [answers[0]] + answers[1..];
      Faults(answers[1..]) + if answers[0] == Some(Failed) then 1 else 0
  }

  lemma AnsweredFirst(
    valid: (Definition, int) -> bool, jobs: Jobs, undos: seq<Undo>, index: nat, answers: seq<Answer>, times: seq<int>,
    answer: Answer, time: int)
    requires index < |undos| && |answers| == |times| == |undos| - index - 1
    requires AllAnswered(valid, jobs, undos[index + 1..], answers, times)
    requires Answers(valid, Unwound(jobs, undos[index + 1..], answers), undos[index], time, answer)
    ensures AllAnswered(valid, jobs, undos[index..], [answer] + answers, [time] + times)
    ensures Unwound(jobs, undos[index..], [answer] + answers)
            == var later := Unwound(jobs, undos[index + 1..], answers); if answer.None? then Taken(later, undos[index]) else later
    ensures Errors([answer] + answers) == Errors(answers) + if answer.Some? then [answer.value] else []
    ensures Faults([answer] + answers) == Faults(answers) + if answer == Some(Failed) then 1 else 0
  {
    assert undos[index..][1..] == undos[index + 1..];
    assert ([answer] + answers)[1..] == answers && ([time] + times)[1..] == times;
  }

  lemma PushUndo(jobs: Jobs, undos: seq<Undo>, u: Undo)
    requires ApplyUndo(jobs, u).Some?
    ensures ApplyUndos(jobs, undos + [u]) == ApplyUndos(ApplyUndo(jobs, u).value, undos)
  {
    assert (undos + [u])[..|undos|] == undos;
  }

  ghost predicate WorksOn(undos: seq<Undo>, name: string) {
    exists u :: u in undos && Target(u) == name
  }

  /** A name no undo works on can be given any job beforehand. */
  lemma {:induction false} UndosLeaveOtherNames(jobs: Jobs, undos: seq<Undo>, name: string, job: Job)
    requires ApplyUndos(jobs, undos).Some? && !WorksOn(undos, name)
    ensures ApplyUndos(jobs[name := job], undos) == Some(ApplyUndos(jobs, undos).value[name := job])
    decreases |undos|
  {
    if undos != [] {
      var u, rest := undos[|undos| - 1], undos[..|undos| - 1];
      var next := ApplyUndo(jobs, u).value;
      assert forall v :: v in rest ==> v in undos;
      UndosLeaveOtherNames(next, rest, name, job);
      assert u in undos && Target(u) != name;
      var moved := ApplyUndo(jobs[name := job], u);
      assert moved.Some? && moved.value == next[name := job];
    }
  }

  lemma {:induction false} AnsweredFrom(
    valid: (Definition, int) -> bool, jobs: Jobs, undos: seq<Undo>, answers: seq<Answer>, times: seq<int>, k: nat)
    requires |answers| == |times| == |undos| && AllAnswered(valid, jobs, undos, answers, times) && k < |undos|
    ensures Answers(valid, Unwound(jobs, undos[k + 1..], answers[k + 1..]), undos[k], times[k], answers[k])
  {
    if k > 0 {
      AnsweredFrom(valid, jobs, undos[1..], answers[1..], times[1..], k - 1);
      assert undos[1..][k..] == undos[k + 1..] && answers[1..][k..] == answers[k + 1..];
    }
  }

  lemma AcceptedIsApplied(
    valid: (Definition, int) -> bool, jobs: Jobs, u: Undo, time: int, answer: Answer, rest: seq<Undo>, goal: Jobs)
    requires Answers(valid, jobs, u, time, answer) && answer != Some(Failed) && Acceptable(valid, u, time)
    requires ApplyUndos(jobs, rest + [u]) == Some(goal)
    ensures answer.None? && ApplyUndos(Taken(jobs, u), rest) == Some(goal)
  {
    assert (rest + [u])[..|rest|] == rest;
  }

  lemma UnwoundHead(jobs: Jobs, undos: seq<Undo>, answers: seq<Answer>, k: nat)
    requires |answers| == |undos| && k < |undos|
    ensures var later := Unwound(jobs, undos[k + 1..], answers[k + 1..]);
            Unwound(jobs, undos[k..], answers[k..]) == if answers[k].None? then Taken(later, undos[k]) else later
  {
    assert undos[k..][1..] == undos[k + 1..] && answers[k..][1..] == answers[k + 1..];
  }

  lemma UnwindingStep(
    valid: (Definition, int) -> bool, jobs: Jobs, undos: seq<Undo>, answers: seq<Answer>, times: seq<int>, goal: Jobs, k: nat)
    requires |answers| == |times| == |undos| && k < |undos|
    requires Answers(valid, Unwound(jobs, undos[k + 1..], answers[k + 1..]), undos[k], times[k], answers[k])
    requires answers[k] != Some(Failed) && Acceptable(valid, undos[k], times[k])
    requires ApplyUndos(Unwound(jobs, undos[k + 1..], answers[k + 1..]), undos[..k + 1]) == Some(goal)
    ensures answers[k].None? && ApplyUndos(Unwound(jobs, undos[k..], answers[k..]), undos[..k]) == Some(goal)
  {
    assert undos[..k + 1] == undos[..k] + [undos[k]];
    AcceptedIsApplied(valid, Unwound(jobs, undos[k + 1..], answers[k + 1..]), undos[k], times[k], answers[k], undos[..k], goal);
    UnwoundHead(jobs, undos, answers, k);
  }

  ghost predicate EachAnswered(
    valid: (Definition, int) -> bool, jobs: Jobs, undos: seq<Undo>, answers: seq<Answer>, times: seq<int>)
    requires |answers| == |times| == |undos|
  {
    forall k :: 0 <= k < |undos| ==> Answers(valid, Unwound(jobs, undos[k + 1..], answers[k + 1..]), undos[k], times[k], answers[k])
  }

  /** If every job is acceptable and nothing fails from outside, each operation is accepted, and the rest leads on. */
  lemma {:induction false} UnwindingLeadsOn(
    valid: (Definition, int) -> bool, jobs: Jobs, undos: seq<Undo>, answers: seq<Answer>, times: seq<int>, goal: Jobs, k: nat)
    requires |answers| == |times| == |undos| && EachAnswered(valid, jobs, undos, answers, times) && k <= |undos|
    requires ApplyUndos(jobs, undos) == Some(goal) && Some(Failed) !in answers && AllAcceptable(valid, undos, times)
    ensures forall i :: k <= i < |answers| ==> answers[i].None?
    ensures ApplyUndos(Unwound(jobs, undos[k..], answers[k..]), undos[..k]) == Some(goal)
    decreases |undos| - k
  {
    if k == |undos| {
      assert undos[..k] == undos;
    } else {
      UnwindingLeadsOn(valid, jobs, undos, answers, times, goal, k + 1);
      UnwindingStep(valid, jobs, undos, answers, times, goal, k);
    }
  }

  lemma UnwoundIsGoal(
    valid: (Definition, int) -> bool, jobs: Jobs, undos: seq<Undo>, answers: seq<Answer>, times: seq<int>, goal: Jobs)
    requires |answers| == |times| == |undos| && AllAnswered(valid, jobs, undos, answers, times)
    requires ApplyUndos(jobs, undos) == Some(goal)
    ensures Failed !in Errors(answers) ==> (Errors(answers) == [] <==> AllAcceptable(valid, undos, times))
    ensures Errors(answers) == [] ==> Unwound(jobs, undos, answers) == goal
  {
    if Errors(answers) == [] {
      forall i | 0 <= i < |undos|
        ensures Acceptable(valid, undos[i], times[i])
      {
        AnsweredFrom(valid, jobs, undos, answers, times, i);
      }
    }
    if Failed !in Errors(answers) && AllAcceptable(valid, undos, times) {
      forall k | 0 <= k < |undos|
        ensures Answers(valid, Unwound(jobs, undos[k + 1..], answers[k + 1..]), undos[k], times[k], answers[k])
      {
        AnsweredFrom(valid, jobs, undos, answers, times, k);
      }
      UnwindingLeadsOn(valid, jobs, undos, answers, times, goal, 0);
      assert undos[0..] == undos && answers[0..] == answers;
    }
  }

  lemma {:induction false} UnwoundLeavesOthers(jobs: Jobs, undos: seq<Undo>, answers: seq<Answer>)
    requires |answers| == |undos|
    ensures forall n :: !WorksOn(undos, n) ==> Get(Unwound(jobs, undos, answers), n) == Get(jobs, n)
  {
    if undos != [] {
      UnwoundLeavesOthers(jobs, undos[1..], answers[1..]);
      forall n | !WorksOn(undos, n)
        ensures !WorksOn(undos[1..], n) && n != Target(undos[0])
      {
        assert undos[0] in undos;
      }
    }
  }

  /** Undoing `undos` leads from `jobs` back to the start, but for the jobs put back from their definitions. */
  ghost predicate LeadsBack(jobs: Jobs, undos: seq<Undo>, start: Jobs, restored: Jobs) {
    ApplyUndos(jobs, undos) == Some(start + restored)
  }

  lemma ReplaceLeadsBack(jobs: Jobs, undos: seq<Undo>, start: Jobs, restored: Jobs, prior: Definition, job: Job)
    requires LeadsBack(jobs, undos, start, restored) && !WorksOn(undos, prior.name) && prior.name in jobs
    ensures LeadsBack(jobs[prior.name := job], undos + [UndoReplace(prior)], start, restored[prior.name := Persistent(prior)])
  {
    var n, put := prior.name, Persistent(prior);
    PushUndo(jobs[n := job], undos, UndoReplace(prior));
    UndosLeaveOtherNames(jobs, undos, n, put);
    assert jobs[n := job][n := put] == jobs[n := put];
    assert (start + restored)[n := put] == start + restored[n := put];
  }

  lemma RemoveLeadsBack(jobs: Jobs, undos: seq<Undo>, start: Jobs, restored: Jobs, prior: Definition)
    requires LeadsBack(jobs, undos, start, restored) && !WorksOn(undos, prior.name)
    ensures LeadsBack(jobs - {prior.name}, undos + [UndoRemove(prior)], start, restored[prior.name := Persistent(prior)])
  {
    var n, put := prior.name, Persistent(prior);
    PushUndo(jobs - {n}, undos, UndoRemove(prior));
    UndosLeaveOtherNames(jobs, undos, n, put);
    assert (jobs - {n})[n := put] == jobs[n := put];
    assert (start + restored)[n := put] == start + restored[n := put];
  }

  lemma AddLeadsBack(jobs: Jobs, undos: seq<Undo>, start: Jobs, restored: Jobs, name: string, job: Job)
    requires LeadsBack(jobs, undos, start, restored) && name !in jobs
    ensures LeadsBack(jobs[name := job], undos + [UndoAdd(name)], start, restored)
  {
    PushUndo(jobs[name := job], undos, UndoAdd(name));
    assert jobs[name := job] - {name} == jobs;
  }

  // ---------------------------------------------------------------------------------------------
  // Sync
  // ---------------------------------------------------------------------------------------------

  datatype Cause =
    | Cancelled
    | HandlerMissing(id: string)
    | ReplaceFailed(id: string, error: CallError)
    | RemoveFailed(id: string)
    | AddFailed(id: string, error: CallError)

  datatype SyncResult =
    | Synced
    | NotBegun                     // cancelled, the store failed, or the list has a fault
    | RolledBack(cause: Cause, undoErrors: seq<CallError>)

  type Ledger = map<string, Loaded>

  /** The loader's own records: each ID with its own definition, and no two with the same name. */
  ghost predicate Coherent(loaded: Ledger) {
    && (forall id :: id in loaded ==>
          && loaded[id].definition.id == id
          && loaded[id].name == loaded[id].definition.name
          && loaded[id].version == loaded[id].definition.version)
    && (forall a, b :: a in loaded && b in loaded && loaded[a].name == loaded[b].name ==> a == b)
  }

  ghost predicate OwnName(loaded: Ledger, n: string) {
    exists id :: id in loaded && loaded[id].name == n
  }

  /** The definition keeps its name; the scheduler's Replace can update it. */
  predicate Renewed(loaded: Ledger, prepared: Prepared, id: string) {
    id in loaded && id in prepared && loaded[id].name == prepared[id].name && loaded[id].version != prepared[id].version
  }

  /** The definition is gone or has another name. */
  predicate Stale(loaded: Ledger, prepared: Prepared, id: string) {
    id in loaded && (id in prepared ==> loaded[id].name != prepared[id].name)
  }

  /** The definition is new or has another name. */
  predicate Novel(loaded: Ledger, prepared: Prepared, id: string) {
    id in prepared && (id in loaded ==> loaded[id].name != prepared[id].name)
  }

  /** `job` is made from a prepared definition that is renewed or novel, and goes under its name. */
  ghost predicate Desired(loaded: Ledger, prepared: Prepared, n: string, job: Job) {
    exists id :: (Renewed(loaded, prepared, id) || Novel(loaded, prepared, id))
                 && prepared[id].name == n && job == Persistent(prepared[id])
  }

  /** `job` is made from the loader's own record of the definition with that name. */
  ghost predicate Recorded(loaded: Ledger, n: string, job: Job) {
    exists id :: id in loaded && loaded[id].name == n && job == Persistent(loaded[id].definition)
  }

  /** What has been done so far: jobs put in, names taken out, and what undoing puts back. */
  datatype Trail = Trail(placed: Jobs, gone: set<string>, restored: Jobs)

  const BEGIN := Trail(map[], {}, map[])

  /** The scheduler's jobs are what the trail says, and the undo stack leads back. */
  ghost predicate Follows(start: Jobs, jobs: Jobs, undos: seq<Undo>, t: Trail) {
    && jobs == (start - t.gone) + t.placed
    && LeadsBack(jobs, undos, start, t.restored)
    && t.gone <= t.restored.Keys
    && (forall n :: WorksOn(undos, n) ==> n in t.restored || (n in t.placed && n !in start - t.gone))
  }

  lemma TrailBegins(start: Jobs)
    ensures Follows(start, start, [], BEGIN)
  {
    assert start + BEGIN.restored == start;
    assert start == (start - BEGIN.gone) + BEGIN.placed;
  }

  lemma WorksOnMore(undos: seq<Undo>, u: Undo)
    ensures forall n :: WorksOn(undos + [u], n) <==> WorksOn(undos, n) || Target(u) == n
  {
    forall n
      ensures WorksOn(undos + [u], n) <==> WorksOn(undos, n) || Target(u) == n
    {
      assert u in undos + [u];
      if WorksOn(undos, n) {
        var v :| v in undos && Target(v) == n;
        assert v in undos + [u];
      }
    }
  }

  lemma PutOver(base: Jobs, placed: Jobs, n: string, job: Job)
    ensures (base + placed)[n := job] == base + placed[n := job]
  {
  }

  lemma TakeFrom(start: Jobs, gone: set<string>, placed: Jobs, n: string)
    requires n !in placed
    ensures ((start - gone) + placed) - {n} == (start - (gone + {n})) + placed
  {
  }

  lemma TrailReplaces(start: Jobs, jobs: Jobs, undos: seq<Undo>, t: Trail, prior: Definition, job: Job)
    requires Follows(start, jobs, undos, t) && prior.name in jobs && !WorksOn(undos, prior.name)
    ensures Follows(start, jobs[prior.name := job], undos + [UndoReplace(prior)],
                    t.(placed := t.placed[prior.name := job], restored := t.restored[prior.name := Persistent(prior)]))
  {
    var n := prior.name;
    ReplaceLeadsBack(jobs, undos, start, t.restored, prior, job);
    WorksOnMore(undos, UndoReplace(prior));
    PutOver(start - t.gone, t.placed, n, job);
  }

  lemma TrailRemoves(start: Jobs, jobs: Jobs, undos: seq<Undo>, t: Trail, prior: Definition)
    requires Follows(start, jobs, undos, t) && prior.name !in t.placed && !WorksOn(undos, prior.name)
    ensures Follows(start, jobs - {prior.name}, undos + [UndoRemove(prior)],
                    t.(gone := t.gone + {prior.name}, restored := t.restored[prior.name := Persistent(prior)]))
  {
    var n := prior.name;
    RemoveLeadsBack(jobs, undos, start, t.restored, prior);
    WorksOnMore(undos, UndoRemove(prior));
    TakeFrom(start, t.gone, t.placed, n);
  }

  lemma TrailAdds(start: Jobs, jobs: Jobs, undos: seq<Undo>, t: Trail, n: string, job: Job)
    requires Follows(start, jobs, undos, t) && n !in jobs
    ensures Follows(start, jobs[n := job], undos + [UndoAdd(n)], t.(placed := t.placed[n := job]))
  {
    AddLeadsBack(jobs, undos, start, t.restored, n, job);
    WorksOnMore(undos, UndoAdd(n));
    PutOver(start - t.gone, t.placed, n, job);
  }

  ghost predicate StaleName(loaded: Ledger, prepared: Prepared, n: string) {
    exists id :: Stale(loaded, prepared, id) && loaded[id].name == n
  }

  /** `job` is made from a renewed definition, and goes under its name. */
  ghost predicate Updated(loaded: Ledger, prepared: Prepared, n: string, job: Job) {
    exists id :: Renewed(loaded, prepared, id) && prepared[id].name == n && job == Persistent(prepared[id])
  }

  /** Phase one with the IDs of `todo` still to come. */
  ghost predicate Replacing(loaded: Ledger, prepared: Prepared, todo: set<string>, t: Trail) {
    && t.gone == {} && t.restored.Keys == t.placed.Keys
    && (forall n :: n in t.placed ==> Updated(loaded, prepared, n, t.placed[n]))
    && (forall n :: n in t.restored ==> Recorded(loaded, n, t.restored[n]))
    && (forall id :: id in loaded && id in todo ==> loaded[id].name !in t.restored)
    && (forall id :: Stale(loaded, prepared, id) ==> loaded[id].name !in t.restored)
    && (forall id :: Renewed(loaded, prepared, id) && id !in todo ==>
          prepared[id].name in t.placed && t.placed[prepared[id].name] == Persistent(prepared[id]))
  }

  lemma ReplacedOne(loaded: Ledger, prepared: Prepared, todo: set<string>, t: Trail, id: string)
    requires Coherent(loaded) && Named(prepared)
    requires Replacing(loaded, prepared, todo, t) && id in todo && Renewed(loaded, prepared, id)
    ensures var n, prior, next := loaded[id].name, loaded[id].definition, prepared[id];
            Replacing(loaded, prepared, todo - {id},
                      t.(placed := t.placed[n := Persistent(next)], restored := t.restored[n := Persistent(prior)]))
  {
    assert Recorded(loaded, loaded[id].name, Persistent(loaded[id].definition));
    assert Updated(loaded, prepared, loaded[id].name, Persistent(prepared[id]));
    assert forall x :: x in loaded && x != id ==> loaded[x].name != loaded[id].name;
  }

  lemma KeptOne(loaded: Ledger, prepared: Prepared, todo: set<string>, t: Trail, id: string)
    requires Replacing(loaded, prepared, todo, t) && !Renewed(loaded, prepared, id)
    ensures Replacing(loaded, prepared, todo - {id}, t)
  {
  }

  lemma RemovingBegins(loaded: Ledger, prepared: Prepared, t: Trail)
    requires Replacing(loaded, prepared, {}, t)
    ensures Removing(loaded, prepared, loaded.Keys, t)
  {
  }

  /** Phase two with the IDs of `todo` still to come. */
  ghost predicate Removing(loaded: Ledger, prepared: Prepared, todo: set<string>, t: Trail) {
    && t.placed.Keys !! t.gone
    && t.restored.Keys == t.placed.Keys + t.gone
    && (forall n :: n in t.restored ==> Recorded(loaded, n, t.restored[n]))
    && (forall n :: n in t.gone ==> StaleName(loaded, prepared, n))
    && (forall id :: Stale(loaded, prepared, id) ==> if id in todo then loaded[id].name !in t.restored else loaded[id].name in t.gone)
  }

  lemma NotWorkedOn(start: Jobs, jobs: Jobs, undos: seq<Undo>, t: Trail, n: string)
    requires Follows(start, jobs, undos, t) && n !in t.restored && t.placed.Keys <= t.restored.Keys
    ensures !WorksOn(undos, n) && n !in t.placed
  {
  }

  lemma RemovedOne(loaded: Ledger, prepared: Prepared, todo: set<string>, t: Trail, id: string)
    requires Coherent(loaded) && Removing(loaded, prepared, todo, t) && id in todo && Stale(loaded, prepared, id)
    ensures var n, prior := loaded[id].name, loaded[id].definition;
            Removing(loaded, prepared, todo - {id}, t.(gone := t.gone + {n}, restored := t.restored[n := Persistent(prior)]))
  {
    assert Recorded(loaded, loaded[id].name, Persistent(loaded[id].definition));
    assert StaleName(loaded, prepared, loaded[id].name);
  }

  lemma SkippedOne(loaded: Ledger, prepared: Prepared, todo: set<string>, t: Trail, id: string)
    requires Removing(loaded, prepared, todo, t) && !Stale(loaded, prepared, id)
    ensures Removing(loaded, prepared, todo - {id}, t)
  {
  }

  /** Phase three with the IDs of `todo` still to come. */
  ghost predicate Adding(loaded: Ledger, prepared: Prepared, start: Jobs, todo: set<string>, t: Trail) {
    && (forall n :: n in t.placed ==> Desired(loaded, prepared, n, t.placed[n]))
    && (forall n :: n in t.placed ==> n in t.restored || n !in start)
    && (forall id :: Renewed(loaded, prepared, id) ==>
          prepared[id].name in t.placed && t.placed[prepared[id].name] == Persistent(prepared[id]))
    && (forall id :: Novel(loaded, prepared, id) ==>
          if id in todo then forall n :: n in t.placed ==> t.placed[n] != Persistent(prepared[id])
          else prepared[id].name in t.placed && t.placed[prepared[id].name] == Persistent(prepared[id]))
  }

  lemma AddingBegins(loaded: Ledger, prepared: Prepared, start: Jobs, t: Trail, r: Trail)
    requires Named(prepared)
    requires Replacing(loaded, prepared, {}, t) && Removing(loaded, prepared, {}, r) && r.placed == t.placed
    ensures Adding(loaded, prepared, start, prepared.Keys, r)
  {
    forall n | n in r.placed
      ensures Desired(loaded, prepared, n, r.placed[n])
      ensures forall id :: Novel(loaded, prepared, id) ==> r.placed[n] != Persistent(prepared[id])
    {
      assert Updated(loaded, prepared, n, t.placed[n]);
    }
  }

  lemma AddedOne(loaded: Ledger, prepared: Prepared, start: Jobs, todo: set<string>, t: Trail, id: string)
    requires Named(prepared) && Adding(loaded, prepared, start, todo, t) && Novel(loaded, prepared, id)
    requires prepared[id].name in t.restored || prepared[id].name !in start
    ensures Adding(loaded, prepared, start, todo - {id}, t.(placed := t.placed[prepared[id].name := Persistent(prepared[id])]))
  {
    assert Desired(loaded, prepared, prepared[id].name, Persistent(prepared[id]));
  }

  lemma PassedOne(loaded: Ledger, prepared: Prepared, start: Jobs, todo: set<string>, t: Trail, id: string)
    requires Adding(loaded, prepared, start, todo, t) && !Novel(loaded, prepared, id)
    ensures Adding(loaded, prepared, start, todo - {id}, t)
  {
  }

  /** No Add of phase three meets a name of the loader: a name in the way is someone else's. */
  lemma ConflictIsForeign(loaded: Ledger, prepared: Prepared, start: Jobs, jobs: Jobs, undos: seq<Undo>, t: Trail,
                          todo: set<string>, id: string)
    requires Named(prepared) && Follows(start, jobs, undos, t) && Adding(loaded, prepared, start, todo, t)
    requires forall x :: Stale(loaded, prepared, x) ==> loaded[x].name in t.gone
    requires Novel(loaded, prepared, id) && id in todo && prepared[id].name in jobs
    ensures prepared[id].name in start && !OwnName(loaded, prepared[id].name)
  {
    var n := prepared[id].name;
    assert n in t.placed ==> Desired(loaded, prepared, n, t.placed[n]);
    forall x | x in loaded
      ensures loaded[x].name != n
    {
    }
  }

  /** Names the loader does not own stay as they were, whatever part of the trail is undone. */
  lemma OthersAreLeftAlone(start: Jobs, jobs: Jobs, undos: seq<Undo>, loaded: Ledger, t: Trail, n: string)
    requires Follows(start, jobs, undos, t)
    requires forall m :: m in t.restored ==> Recorded(loaded, m, t.restored[m])
    requires forall m :: m in t.placed ==> m in t.restored || m !in start
    requires n in start && !OwnName(loaded, n)
    ensures !WorksOn(undos, n) && n in jobs && jobs[n] == start[n]
  {
    assert n in t.restored ==> Recorded(loaded, n, t.restored[n]);
  }

  function LoadedFrom(prepared: Prepared): Ledger {
    map id | id in prepared :: Loaded(prepared[id].version, prepared[id].name, prepared[id])
  }

  /** `n` is the name of a definition the Sync has to put in. */
  ghost predicate DesiredName(loaded: Ledger, prepared: Prepared, n: string) {
    exists id :: (Renewed(loaded, prepared, id) || Novel(loaded, prepared, id)) && prepared[id].name == n
  }

  /** After a successful Sync: every definition that had to be put in runs, and name by name. */
  ghost predicate Reconciled(start: Jobs, loaded: Ledger, prepared: Prepared, jobs: Jobs) {
    && (forall id :: Renewed(loaded, prepared, id) || Novel(loaded, prepared, id) ==>
          Get(jobs, prepared[id].name) == Some(Persistent(prepared[id])))
    && (forall n :: ReconciledName(start, loaded, prepared, jobs, n))
  }

  /** A name put in was free or the loader's own; any other is free if it was a stale one's, or as before. */
  ghost predicate ReconciledName(start: Jobs, loaded: Ledger, prepared: Prepared, jobs: Jobs, n: string) {
    if DesiredName(loaded, prepared, n) then n in start ==> OwnName(loaded, n)
    else Get(jobs, n) == if StaleName(loaded, prepared, n) then None else Get(start, n)
  }

  lemma PlacedAreDesired(loaded: Ledger, prepared: Prepared, start: Jobs, t: Trail, n: string)
    requires Adding(loaded, prepared, start, {}, t)
    ensures n in t.placed <==> DesiredName(loaded, prepared, n)
  {
    assert n in t.placed ==> Desired(loaded, prepared, n, t.placed[n]);
  }

  lemma TrailByName(start: Jobs, jobs: Jobs, undos: seq<Undo>, t: Trail, n: string)
    requires Follows(start, jobs, undos, t)
    ensures Get(jobs, n) == if n in t.placed then Some(t.placed[n]) else if n in t.gone then None else Get(start, n)
  {
  }

  lemma FinishedName(start: Jobs, jobs: Jobs, undos: seq<Undo>, loaded: Ledger, prepared: Prepared, t: Trail, n: string)
    requires Follows(start, jobs, undos, t) && Adding(loaded, prepared, start, {}, t)
    requires n in t.restored ==> Recorded(loaded, n, t.restored[n])
    requires n in t.gone <==> StaleName(loaded, prepared, n)
    ensures ReconciledName(start, loaded, prepared, jobs, n)
  {
    PlacedAreDesired(loaded, prepared, start, t, n);
    TrailByName(start, jobs, undos, t, n);
  }

  lemma FinishedIsReconciled(start: Jobs, jobs: Jobs, undos: seq<Undo>, loaded: Ledger, prepared: Prepared, t: Trail)
    requires Follows(start, jobs, undos, t) && Adding(loaded, prepared, start, {}, t)
    requires forall n :: n in t.restored ==> Recorded(loaded, n, t.restored[n])
    requires forall n :: n in t.gone <==> StaleName(loaded, prepared, n)
    ensures Reconciled(start, loaded, prepared, jobs)
  {
    forall id | Renewed(loaded, prepared, id) || Novel(loaded, prepared, id)
      ensures Get(jobs, prepared[id].name) == Some(Persistent(prepared[id]))
    {
      TrailByName(start, jobs, undos, t, prepared[id].name);
    }
    forall n
      ensures ReconciledName(start, loaded, prepared, jobs, n)
    {
      FinishedName(start, jobs, undos, loaded, prepared, t, n);
    }
  }

  /** The job carries the recorded ID, name and version. */
  predicate Matches(job: Job, l: Loaded) {
    job.Persistent? && job.definition.id == l.definition.id && job.definition.name == l.name && job.definition.version == l.version
  }

  /** Every definition the loader has on record runs under its name, in the recorded version. */
  ghost predicate Owned(jobs: Jobs, loaded: Ledger) {
    forall id :: id in loaded ==> loaded[id].name in jobs && Matches(jobs[loaded[id].name], loaded[id])
  }

  /** Every recorded definition runs exactly as recorded. */
  ghost predicate InStep(jobs: Jobs, loaded: Ledger) {
    forall id :: id in loaded ==> Get(jobs, loaded[id].name) == Some(Persistent(loaded[id].definition))
  }

  // ---------------------------------------------------------------------------------------------
  // Executions: which operations a Sync performs, in which order, up to where it fails
  // ---------------------------------------------------------------------------------------------

  datatype Op = Replaces(id: string) | Removes(id: string) | Adds(id: string)

  /** The jobs and the undo stack after some operations, which those were, and what undoing them puts back. */
  datatype Progress = Progress(
    jobs: Jobs, undos: seq<Undo>, restored: Jobs, replaced: set<string>, removed: set<string>, added: set<string>)

  function Untouched(start: Jobs): Progress {
    Progress(start, [], map[], {}, {}, {})
  }

  /** The operation is due: the phases come one after the other, each in any order. */
  ghost predicate Due(loaded: Ledger, prepared: Prepared, p: Progress, op: Op) {
    match op
    case Replaces(id) =>
      Renewed(loaded, prepared, id) && id !in p.replaced && p.removed == {} && p.added == {} && loaded[id].name in p.jobs
    case Removes(id) =>
      Stale(loaded, prepared, id) && id !in p.removed && p.added == {} && RenewedDone(loaded, prepared, p)
    case Adds(id) =>
      && Novel(loaded, prepared, id) && id !in p.added && prepared[id].name !in p.jobs
      && RenewedDone(loaded, prepared, p) && forall x :: Stale(loaded, prepared, x) ==> x in p.removed
  }

  ghost predicate RenewedDone(loaded: Ledger, prepared: Prepared, p: Progress) {
    forall x :: Renewed(loaded, prepared, x) ==> x in p.replaced
  }

  function Puts(restored: Jobs, d: Definition): Jobs {
    restored[d.name := Persistent(d)]
  }

  ghost function Do(loaded: Ledger, prepared: Prepared, p: Progress, op: Op): Progress
    requires Due(loaded, prepared, p, op)
  {
    match op
    case Replaces(id) =>
      var prior := loaded[id].definition;
      p.(jobs := p.jobs[prior.name := Persistent(prepared[id])], undos := p.undos + [UndoReplace(prior)],
         restored := Puts(p.restored, prior), replaced := p.replaced + {id})
    case Removes(id) =>
      var prior := loaded[id].definition;
      p.(jobs := p.jobs - {prior.name}, undos := p.undos + [UndoRemove(prior)],
         restored := Puts(p.restored, prior), removed := p.removed + {id})
    case Adds(id) =>
      p.(jobs := p.jobs[prepared[id].name := Persistent(prepared[id])], undos := p.undos + [UndoAdd(prepared[id].name)],
         added := p.added + {id})
  }

  /** Where the operations lead, if each of them is due in its turn. */
  ghost function After(start: Jobs, loaded: Ledger, prepared: Prepared, ops: seq<Op>): Option<Progress> {
    if ops == [] then Some(Untouched(start))
    else
      var p := After(start, loaded, prepared, ops[..|ops| - 1]);
      if p.Some? && Due(loaded, prepared, p.value, ops[|ops| - 1])
      then Some(Do(loaded, prepared, p.value, ops[|ops| - 1])) else None
  }

  lemma AfterOneMore(start: Jobs, loaded: Ledger, prepared: Prepared, ops: seq<Op>, op: Op)
    ensures var p := After(start, loaded, prepared, ops);
            After(start, loaded, prepared, ops + [op])
            == if p.Some? && Due(loaded, prepared, p.value, op) then Some(Do(loaded, prepared, p.value, op)) else None
  {
    assert (ops + [op])[..|ops + [op]| - 1] == ops;
  }

  /** The jobs after a failure at that point whose undos are all accepted. */
  ghost function RolledBackTo(start: Jobs, loaded: Ledger, prepared: Prepared, ops: seq<Op>): Option<Jobs>
    requires After(start, loaded, prepared, ops).Some?
  {
    var p := After(start, loaded, prepared, ops).value;
    ApplyUndos(p.jobs, p.undos)
  }

  predicate RecordedAs(loaded: Ledger, id: string, n: string, job: Job) {
    id in loaded && loaded[id].name == n && job == Persistent(loaded[id].definition)
  }

  predicate Touched(p: Progress, id: string) {
    id in p.replaced || id in p.removed
  }

  /** What is put back is what the loader has on record for the definitions replaced or removed. */
  ghost predicate PutsBackRecords(loaded: Ledger, p: Progress) {
    && (forall n :: n in p.restored ==> exists id :: Touched(p, id) && RecordedAs(loaded, id, n, p.restored[n]))
    && (forall id :: Touched(p, id) ==> id in loaded && Get(p.restored, loaded[id].name) == Some(Persistent(loaded[id].definition)))
  }

  ghost predicate Undoable(start: Jobs, loaded: Ledger, prepared: Prepared, p: Progress) {
    && LeadsBack(p.jobs, p.undos, start, p.restored) && PutsBackRecords(loaded, p)
    && (p.added == {} ==> forall n :: WorksOn(p.undos, n) ==> n in p.restored)
    && (forall id :: id in p.replaced ==> Renewed(loaded, prepared, id)) && (forall id :: id in p.removed ==> Stale(loaded, prepared, id))
  }

  lemma RestoredIsTouched(loaded: Ledger, p: Progress, id: string)
    requires Coherent(loaded) && PutsBackRecords(loaded, p) && id in loaded && loaded[id].name in p.restored
    ensures Touched(p, id)
  {
    var x :| Touched(p, x) && RecordedAs(loaded, x, loaded[id].name, p.restored[loaded[id].name]);
  }

  lemma NotTouched(loaded: Ledger, p: Progress, id: string)
    requires Coherent(loaded) && PutsBackRecords(loaded, p) && id in loaded && !Touched(p, id)
    ensures loaded[id].name !in p.restored
  {
    if loaded[id].name in p.restored {
      RestoredIsTouched(loaded, p, id);
    }
  }

  lemma PuttingBackMore(loaded: Ledger, p: Progress, id: string, q: Progress)
    requires Coherent(loaded) && PutsBackRecords(loaded, p) && id in loaded && !Touched(p, id)
    requires q.restored == Puts(p.restored, loaded[id].definition)
    requires forall x :: Touched(q, x) <==> Touched(p, x) || x == id
    ensures PutsBackRecords(loaded, q)
  {
    assert RecordedAs(loaded, id, loaded[id].name, Persistent(loaded[id].definition));
    forall n | n in q.restored
      ensures exists x :: Touched(q, x) && RecordedAs(loaded, x, n, q.restored[n])
    {
      if n == loaded[id].name {
        assert Touched(q, id);
      } else {
        var x :| Touched(p, x) && RecordedAs(loaded, x, n, p.restored[n]);
        assert Touched(q, x);
      }
    }
    forall x | Touched(q, x)
      ensures x in loaded && Get(q.restored, loaded[x].name) == Some(Persistent(loaded[x].definition))
    {
      if x != id {
        assert loaded[x].name != loaded[id].name;
      }
    }
  }

  lemma ReplacingKeepsUndoable(start: Jobs, loaded: Ledger, prepared: Prepared, p: Progress, id: string)
    requires Coherent(loaded) && Undoable(start, loaded, prepared, p) && Due(loaded, prepared, p, Replaces(id))
    ensures Undoable(start, loaded, prepared, Do(loaded, prepared, p, Replaces(id)))
  {
    NotTouched(loaded, p, id);
    ReplaceLeadsBack(p.jobs, p.undos, start, p.restored, loaded[id].definition, Persistent(prepared[id]));
    PuttingBackMore(loaded, p, id, Do(loaded, prepared, p, Replaces(id)));
    WorksOnMore(p.undos, UndoReplace(loaded[id].definition));
  }

  lemma RemovingKeepsUndoable(start: Jobs, loaded: Ledger, prepared: Prepared, p: Progress, id: string)
    requires Coherent(loaded) && Undoable(start, loaded, prepared, p) && Due(loaded, prepared, p, Removes(id))
    ensures Undoable(start, loaded, prepared, Do(loaded, prepared, p, Removes(id)))
  {
    NotTouched(loaded, p, id);
    RemoveLeadsBack(p.jobs, p.undos, start, p.restored, loaded[id].definition);
    PuttingBackMore(loaded, p, id, Do(loaded, prepared, p, Removes(id)));
    WorksOnMore(p.undos, UndoRemove(loaded[id].definition));
  }

  lemma AddingKeepsUndoable(start: Jobs, loaded: Ledger, prepared: Prepared, p: Progress, id: string)
    requires Undoable(start, loaded, prepared, p) && Due(loaded, prepared, p, Adds(id))
    ensures Undoable(start, loaded, prepared, Do(loaded, prepared, p, Adds(id)))
  {
    AddLeadsBack(p.jobs, p.undos, start, p.restored, prepared[id].name, Persistent(prepared[id]));
    assert forall x :: Touched(Do(loaded, prepared, p, Adds(id)), x) <==> Touched(p, x);
  }

  lemma DoKeepsUndoable(start: Jobs, loaded: Ledger, prepared: Prepared, p: Progress, op: Op)
    requires Coherent(loaded) && Undoable(start, loaded, prepared, p) && Due(loaded, prepared, p, op)
    ensures Undoable(start, loaded, prepared, Do(loaded, prepared, p, op))
  {
    match op
    case Replaces(id) => ReplacingKeepsUndoable(start, loaded, prepared, p, id);
    case Removes(id) => RemovingKeepsUndoable(start, loaded, prepared, p, id);
    case Adds(id) => AddingKeepsUndoable(start, loaded, prepared, p, id);
  }

  lemma {:induction false} ExecutionIsUndoable(start: Jobs, loaded: Ledger, prepared: Prepared, ops: seq<Op>)
    requires Coherent(loaded) && Named(prepared) && After(start, loaded, prepared, ops).Some?
    ensures Undoable(start, loaded, prepared, After(start, loaded, prepared, ops).value)
  {
    if ops == [] {
      assert start + map[] == start;
    } else {
      ExecutionIsUndoable(start, loaded, prepared, ops[..|ops| - 1]);
      DoKeepsUndoable(start, loaded, prepared, After(start, loaded, prepared, ops[..|ops| - 1]).value, ops[|ops| - 1]);
    }
  }

  /** The definition's job runs as recorded. */
  predicate InStepAt(jobs: Jobs, loaded: Ledger, id: string)
    requires id in loaded
  {
    Get(jobs, loaded[id].name) == Some(Persistent(loaded[id].definition))
  }

  /** The Sync is to replace or remove the definition's job. */
  predicate ToChange(loaded: Ledger, prepared: Prepared, id: string) {
    Renewed(loaded, prepared, id) || Stale(loaded, prepared, id)
  }

  lemma InStepIsRestored(start: Jobs, loaded: Ledger, prepared: Prepared, ops: seq<Op>)
    requires Coherent(loaded) && Named(prepared) && After(start, loaded, prepared, ops).Some?
    requires forall id :: ToChange(loaded, prepared, id) ==> InStepAt(start, loaded, id)
    ensures RolledBackTo(start, loaded, prepared, ops) == Some(start)
  {
    ExecutionIsUndoable(start, loaded, prepared, ops);
    var p := After(start, loaded, prepared, ops).value;
    forall n | n in p.restored
      ensures n in start && start[n] == p.restored[n]
    {
      var id :| Touched(p, id) && RecordedAs(loaded, id, n, p.restored[n]);
      assert ToChange(loaded, prepared, id);
    }
    assert start + p.restored == start;
  }

  /** All replacements done, in some order. */
  lemma ReplacingAll(start: Jobs, loaded: Ledger, prepared: Prepared, todo: set<string>) returns (ops: seq<Op>)
    requires Coherent(loaded) && forall id :: id in loaded ==> loaded[id].name in start
    requires forall id :: id in todo ==> Renewed(loaded, prepared, id)
    ensures var p := After(start, loaded, prepared, ops);
            p.Some? && p.value.replaced == todo && p.value.removed == {} && p.value.added == {} && start.Keys <= p.value.jobs.Keys
  {
    if todo == {} {
      ops := [];
    } else {
      var id :| id in todo;
      var front := ReplacingAll(start, loaded, prepared, todo - {id});
      AfterOneMore(start, loaded, prepared, front, Replaces(id));
      ops := front + [Replaces(id)];
    }
  }

  /** A definition whose job does not run as recorded has an order, and a point to fail at, from which it does not come back. */
  lemma OutOfStepIsNotRestored(start: Jobs, loaded: Ledger, prepared: Prepared, id: string) returns (ops: seq<Op>)
    requires Coherent(loaded) && Named(prepared) && Owned(start, loaded)
    requires ToChange(loaded, prepared, id) && !InStepAt(start, loaded, id)
    ensures After(start, loaded, prepared, ops).Some? && RolledBackTo(start, loaded, prepared, ops) != Some(start)
  {
    var first: seq<Op>, last: Op;
    if Renewed(loaded, prepared, id) {
      first, last := [], Replaces(id);
    } else {
      var all := set x | x in loaded && Renewed(loaded, prepared, x);
      first := ReplacingAll(start, loaded, prepared, all);
      last := Removes(id);
    }
    AfterOneMore(start, loaded, prepared, first, last);
    ops := first + [last];
    ExecutionIsUndoable(start, loaded, prepared, ops);
    var p := After(start, loaded, prepared, ops).value;
    assert Touched(p, id);
    assert Get(start + p.restored, loaded[id].name) == Some(Persistent(loaded[id].definition));
  }

  /**
   Whatever the order and wherever it fails, a rollback whose undos are accepted leaves the very same jobs: if and
   only if every job that the Sync is to replace or remove runs as the loader has it on record.
   */
  lemma RollbackRestoresExactlyIf(start: Jobs, loaded: Ledger, prepared: Prepared)
    requires Coherent(loaded) && Named(prepared) && Owned(start, loaded)
    ensures (forall ops :: After(start, loaded, prepared, ops).Some? ==> RolledBackTo(start, loaded, prepared, ops) == Some(start))
            <==> (forall id :: ToChange(loaded, prepared, id) ==> InStepAt(start, loaded, id))
  {
    if id :| ToChange(loaded, prepared, id) && !InStepAt(start, loaded, id) {
      var ops := OutOfStepIsNotRestored(start, loaded, prepared, id);
    } else {
      forall ops | After(start, loaded, prepared, ops).Some?
        ensures RolledBackTo(start, loaded, prepared, ops) == Some(start)
      {
        InStepIsRestored(start, loaded, prepared, ops);
      }
    }
  }

  // How far the phases have come

  function RenewedBut(loaded: Ledger, prepared: Prepared, todo: set<string>): set<string> {
    set id | id in loaded && Renewed(loaded, prepared, id) && id !in todo
  }

  function StaleBut(loaded: Ledger, prepared: Prepared, todo: set<string>): set<string> {
    set id | id in loaded && Stale(loaded, prepared, id) && id !in todo
  }

  function NovelBut(loaded: Ledger, prepared: Prepared, todo: set<string>): set<string> {
    set id | id in prepared && Novel(loaded, prepared, id) && id !in todo
  }

  lemma ReplacementIsDone(start: Jobs, loaded: Ledger, prepared: Prepared, ops: seq<Op>, p: Progress, todo: set<string>, id: string)
    requires Coherent(loaded) && After(start, loaded, prepared, ops) == Some(p)
    requires p.replaced == RenewedBut(loaded, prepared, todo) && p.removed == {} && p.added == {}
    requires id in todo && Renewed(loaded, prepared, id) && loaded[id].name in p.jobs
    ensures Due(loaded, prepared, p, Replaces(id))
    ensures After(start, loaded, prepared, ops + [Replaces(id)]) == Some(Do(loaded, prepared, p, Replaces(id)))
    ensures Do(loaded, prepared, p, Replaces(id)).replaced == RenewedBut(loaded, prepared, todo - {id})
  {
    AfterOneMore(start, loaded, prepared, ops, Replaces(id));
  }

  lemma RemovalIsDone(start: Jobs, loaded: Ledger, prepared: Prepared, ops: seq<Op>, p: Progress, todo: set<string>, id: string)
    requires Coherent(loaded) && After(start, loaded, prepared, ops) == Some(p)
    requires p.replaced == RenewedBut(loaded, prepared, {}) && p.removed == StaleBut(loaded, prepared, todo) && p.added == {}
    requires id in todo && Stale(loaded, prepared, id)
    ensures Due(loaded, prepared, p, Removes(id))
    ensures After(start, loaded, prepared, ops + [Removes(id)]) == Some(Do(loaded, prepared, p, Removes(id)))
    ensures Do(loaded, prepared, p, Removes(id)).removed == StaleBut(loaded, prepared, todo - {id})
  {
    AfterOneMore(start, loaded, prepared, ops, Removes(id));
  }

  lemma AdditionIsDone(start: Jobs, loaded: Ledger, prepared: Prepared, ops: seq<Op>, p: Progress, todo: set<string>, id: string)
    requires After(start, loaded, prepared, ops) == Some(p)
    requires p.replaced == RenewedBut(loaded, prepared, {}) && p.removed == StaleBut(loaded, prepared, {})
    requires p.added == NovelBut(loaded, prepared, todo)
    requires id in todo && Novel(loaded, prepared, id) && prepared[id].name !in p.jobs
    ensures Due(loaded, prepared, p, Adds(id))
    ensures After(start, loaded, prepared, ops + [Adds(id)]) == Some(Do(loaded, prepared, p, Adds(id)))
    ensures Do(loaded, prepared, p, Adds(id)).added == NovelBut(loaded, prepared, todo - {id})
  {
    AfterOneMore(start, loaded, prepared, ops, Adds(id));
  }

  lemma NothingToDo(loaded: Ledger, prepared: Prepared, todo: set<string>, id: string)
    ensures !Renewed(loaded, prepared, id) ==> RenewedBut(loaded, prepared, todo - {id}) == RenewedBut(loaded, prepared, todo)
    ensures !Stale(loaded, prepared, id) ==> StaleBut(loaded, prepared, todo - {id}) == StaleBut(loaded, prepared, todo)
    ensures !Novel(loaded, prepared, id) ==> NovelBut(loaded, prepared, todo - {id}) == NovelBut(loaded, prepared, todo)
  {
  }

  /** The ghost account of a Sync so far: what it has performed, and where that has led. */
  datatype Account = Account(ops: seq<Op>, p: Progress)

  /** The account is right about the scheduler, the undo stack and the jobs to put back. */
  ghost predicate Right(start: Jobs, loaded: Ledger, prepared: Prepared, a: Account, jobs: Jobs, undos: seq<Undo>, restored: Jobs) {
    After(start, loaded, prepared, a.ops) == Some(a.p) && a.p.jobs == jobs && a.p.undos == undos && a.p.restored == restored
  }

  /** Everything that is known in phase one, with the IDs of `todo` still to come. */
  ghost predicate PhaseOne(
    start: Jobs, jobs: Jobs, undos: seq<Undo>, loaded: Ledger, prepared: Prepared, todo: set<string>, t: Trail, a: Account)
  {
    && Follows(start, jobs, undos, t) && Replacing(loaded, prepared, todo, t)
    && Right(start, loaded, prepared, a, jobs, undos, t.restored)
    && a.p.replaced == RenewedBut(loaded, prepared, todo) && a.p.removed == {} && a.p.added == {}
  }

  ghost predicate PhaseTwo(
    start: Jobs, jobs: Jobs, undos: seq<Undo>, loaded: Ledger, prepared: Prepared, todo: set<string>, t: Trail, a: Account)
  {
    && Follows(start, jobs, undos, t) && Removing(loaded, prepared, todo, t)
    && Right(start, loaded, prepared, a, jobs, undos, t.restored)
    && a.p.replaced == RenewedBut(loaded, prepared, {}) && a.p.removed == StaleBut(loaded, prepared, todo) && a.p.added == {}
  }

  ghost predicate PhaseThree(
    start: Jobs, jobs: Jobs, undos: seq<Undo>, loaded: Ledger, prepared: Prepared, todo: set<string>, t: Trail, a: Account)
  {
    && Follows(start, jobs, undos, t) && Adding(loaded, prepared, start, todo, t)
    && Right(start, loaded, prepared, a, jobs, undos, t.restored)
    && a.p.replaced == RenewedBut(loaded, prepared, {}) && a.p.removed == StaleBut(loaded, prepared, {})
    && a.p.added == NovelBut(loaded, prepared, todo)
  }

  lemma PhaseOneBegins(start: Jobs, loaded: Ledger, prepared: Prepared)
    ensures PhaseOne(start, start, [], loaded, prepared, loaded.Keys, BEGIN, Account([], Untouched(start)))
  {
    TrailBegins(start);
    NothingDone(loaded, prepared);
  }

  lemma NothingDone(loaded: Ledger, prepared: Prepared)
    ensures Replacing(loaded, prepared, loaded.Keys, BEGIN) && RenewedBut(loaded, prepared, loaded.Keys) == {}
  {
  }

  lemma StillThere(
    start: Jobs, jobs: Jobs, undos: seq<Undo>, loaded: Ledger, prepared: Prepared, todo: set<string>, t: Trail, a: Account,
    id: string)
    requires Coherent(loaded) && PhaseOne(start, jobs, undos, loaded, prepared, todo, t, a) && id in todo && id in loaded
    ensures var n := loaded[id].name; !WorksOn(undos, n) && (n in jobs <==> n in start)
  {
    NotWorkedOn(start, jobs, undos, t, loaded[id].name);
  }

  lemma PhaseOneReplaces(
    start: Jobs, jobs: Jobs, undos: seq<Undo>, loaded: Ledger, prepared: Prepared, todo: set<string>, t: Trail, a: Account,
    id: string)
    returns (t': Trail, a': Account)
    requires Coherent(loaded) && Named(prepared) && PhaseOne(start, jobs, undos, loaded, prepared, todo, t, a)
    requires id in todo && Renewed(loaded, prepared, id) && loaded[id].name in jobs
    ensures var prior, next := loaded[id].definition, Persistent(prepared[id]);
            PhaseOne(start, jobs[prior.name := next], undos + [UndoReplace(prior)], loaded, prepared, todo - {id}, t', a')
  {
    var prior, next := loaded[id].definition, Persistent(prepared[id]);
    NotWorkedOn(start, jobs, undos, t, prior.name);
    TrailReplaces(start, jobs, undos, t, prior, next);
    ReplacedOne(loaded, prepared, todo, t, id);
    ReplacementIsDone(start, loaded, prepared, a.ops, a.p, todo, id);
    t' := t.(placed := t.placed[prior.name := next], restored := t.restored[prior.name := Persistent(prior)]);
    a' := Account(a.ops + [Replaces(id)], Do(loaded, prepared, a.p, Replaces(id)));
  }

  lemma PhaseOnePasses(
    start: Jobs, jobs: Jobs, undos: seq<Undo>, loaded: Ledger, prepared: Prepared, todo: set<string>, t: Trail, a: Account,
    id: string)
    requires PhaseOne(start, jobs, undos, loaded, prepared, todo, t, a) && !Renewed(loaded, prepared, id)
    ensures PhaseOne(start, jobs, undos, loaded, prepared, todo - {id}, t, a)
  {
    KeptOne(loaded, prepared, todo, t, id);
    NothingToDo(loaded, prepared, todo, id);
  }

  lemma PhaseTwoRemoves(
    start: Jobs, jobs: Jobs, undos: seq<Undo>, loaded: Ledger, prepared: Prepared, todo: set<string>, t: Trail, a: Account,
    id: string)
    returns (t': Trail, a': Account)
    requires Coherent(loaded) && PhaseTwo(start, jobs, undos, loaded, prepared, todo, t, a) && id in todo && Stale(loaded, prepared, id)
    ensures var prior := loaded[id].definition;
            PhaseTwo(start, jobs - {prior.name}, undos + [UndoRemove(prior)], loaded, prepared, todo - {id}, t', a')
    ensures t'.placed == t.placed
  {
    var prior := loaded[id].definition;
    NotWorkedOn(start, jobs, undos, t, prior.name);
    TrailRemoves(start, jobs, undos, t, prior);
    RemovedOne(loaded, prepared, todo, t, id);
    RemovalIsDone(start, loaded, prepared, a.ops, a.p, todo, id);
    t' := t.(gone := t.gone + {prior.name}, restored := t.restored[prior.name := Persistent(prior)]);
    a' := Account(a.ops + [Removes(id)], Do(loaded, prepared, a.p, Removes(id)));
  }

  lemma PhaseTwoPasses(
    start: Jobs, jobs: Jobs, undos: seq<Undo>, loaded: Ledger, prepared: Prepared, todo: set<string>, t: Trail, a: Account,
    id: string)
    requires PhaseTwo(start, jobs, undos, loaded, prepared, todo, t, a) && !Stale(loaded, prepared, id)
    ensures PhaseTwo(start, jobs, undos, loaded, prepared, todo - {id}, t, a)
  {
    SkippedOne(loaded, prepared, todo, t, id);
    NothingToDo(loaded, prepared, todo, id);
  }

  lemma PhaseThreeAdds(
    start: Jobs, jobs: Jobs, undos: seq<Undo>, loaded: Ledger, prepared: Prepared, todo: set<string>, t: Trail, a: Account,
    id: string)
    returns (t': Trail, a': Account)
    requires Named(prepared) && PhaseThree(start, jobs, undos, loaded, prepared, todo, t, a)
    requires id in todo && Novel(loaded, prepared, id) && prepared[id].name !in jobs
    ensures var next := prepared[id];
            PhaseThree(start, jobs[next.name := Persistent(next)], undos + [UndoAdd(next.name)], loaded, prepared, todo - {id}, t', a')
    ensures t'.gone == t.gone && t'.restored == t.restored
  {
    var next := prepared[id];
    TrailAdds(start, jobs, undos, t, next.name, Persistent(next));
    AddedOne(loaded, prepared, start, todo, t, id);
    AdditionIsDone(start, loaded, prepared, a.ops, a.p, todo, id);
    t' := t.(placed := t.placed[next.name := Persistent(next)]);
    a' := Account(a.ops + [Adds(id)], Do(loaded, prepared, a.p, Adds(id)));
  }

  lemma PhaseThreePasses(
    start: Jobs, jobs: Jobs, undos: seq<Undo>, loaded: Ledger, prepared: Prepared, todo: set<string>, t: Trail, a: Account,
    id: string)
    requires PhaseThree(start, jobs, undos, loaded, prepared, todo, t, a) && !Novel(loaded, prepared, id)
    ensures PhaseThree(start, jobs, undos, loaded, prepared, todo - {id}, t, a)
  {
    PassedOne(loaded, prepared, start, todo, t, id);
    NothingToDo(loaded, prepared, todo, id);
  }

  lemma PhaseThreeConflicts(
    start: Jobs, jobs: Jobs, undos: seq<Undo>, loaded: Ledger, prepared: Prepared, todo: set<string>, t0: Trail, t: Trail, a: Account,
    id: string)
    requires Coherent(loaded) && Named(prepared) && Removing(loaded, prepared, {}, t0)
    requires PhaseThree(start, jobs, undos, loaded, prepared, todo, t, a) && t.gone == t0.gone && t.restored == t0.restored
    requires id in todo && Novel(loaded, prepared, id) && prepared[id].name in jobs
    ensures prepared[id].name in start && !OwnName(loaded, prepared[id].name)
  {
    ConflictIsForeign(loaded, prepared, start, jobs, undos, t, todo, id);
  }

  /** What the loader met on its way: handlers, the time of the last call, calls failed from outside, a cancelled context. */
  datatype Met = Met(handlers: set<string>, valid: (Definition, int) -> bool, at: int, faults: nat, cancelled: bool)

  /**
   Nothing goes wrong without a reason. A name in the way of an addition is never the loader's own, and a job to
   replace is never missing, as long as it is there at the start.
   */
  ghost predicate Explained(cause: Cause, start: Jobs, loaded: Ledger, prepared: Prepared, m: Met) {
    && m.faults == CauseFaults(cause)
    && match cause
       case Cancelled => m.cancelled
       case HandlerMissing(id) => ToChange(loaded, prepared, id) && loaded[id].definition.handler !in m.handlers
       case ReplaceFailed(id, error) => Renewed(loaded, prepared, id) && ReplaceExplained(error, start, prepared[id], m)
       case RemoveFailed(id) => Stale(loaded, prepared, id)
       case AddFailed(id, error) => Novel(loaded, prepared, id) && AddExplained(error, start, loaded, prepared[id], m)
  }

  ghost predicate ReplaceExplained(error: CallError, start: Jobs, d: Definition, m: Met) {
    match error
    case Failed => true
    case Invalid => !m.valid(d, m.at)
    case JobNotFound => d.name !in start
    case DuplicateJob => false
  }

  ghost predicate AddExplained(error: CallError, start: Jobs, loaded: Ledger, d: Definition, m: Met) {
    match error
    case Failed => true
    case Invalid => !m.valid(d, m.at)
    case JobNotFound => false
    case DuplicateJob => d.name in start && !OwnName(loaded, d.name)
  }

  /** How many calls failed from outside for this to be the cause. */
  function CauseFaults(cause: Cause): nat {
    match cause
    case Cancelled => 0
    case HandlerMissing(_) => 0
    case ReplaceFailed(_, error) => if error == Failed then 1 else 0
    case RemoveFailed(_) => 1
    case AddFailed(_, error) => if error == Failed then 1 else 0
  }

  /** What a Sync performed up to its failure at the time `at`, and how and when each of it was undone. */
  datatype Attempt = Attempt(a: Account, at: int, answers: seq<Answer>, times: seq<int>)

  /**
   What was performed is taken back: every undo is tried, and the jobs are what those that were accepted lead to.
   Without failures from outside, every undo is accepted exactly if the scheduler still takes every job that is put
   back, each at the time of its undo. Then the jobs are what undoing leads to, and the very same as before if those
   to be changed ran as recorded.
   */
  ghost predicate TakenBack(
    start: Jobs, loaded: Ledger, prepared: Prepared, run: Attempt, errors: seq<CallError>, valid: (Definition, int) -> bool, jobs: Jobs)
  {
    && After(start, loaded, prepared, run.a.ops) == Some(run.a.p) && |run.answers| == |run.times| == |run.a.p.undos|
    && AllAnswered(valid, run.a.p.jobs, run.a.p.undos, run.answers, run.times)
    && jobs == Unwound(run.a.p.jobs, run.a.p.undos, run.answers) && errors == Errors(run.answers)
    && (Failed !in errors ==> (errors == [] <==> AllAcceptable(valid, run.a.p.undos, run.times)))
    && (errors == [] ==> RolledBackTo(start, loaded, prepared, run.a.ops) == Some(jobs))
    && (errors == [] && (forall id :: ToChange(loaded, prepared, id) ==> InStepAt(start, loaded, id)) ==> jobs == start)
  }

  lemma UnwoundIsTakenBack(
    start: Jobs, loaded: Ledger, prepared: Prepared, run: Attempt, errors: seq<CallError>, valid: (Definition, int) -> bool, jobs: Jobs)
    requires Coherent(loaded) && Named(prepared) && After(start, loaded, prepared, run.a.ops) == Some(run.a.p)
    requires |run.answers| == |run.times| == |run.a.p.undos| && AllAnswered(valid, run.a.p.jobs, run.a.p.undos, run.answers, run.times)
    requires jobs == Unwound(run.a.p.jobs, run.a.p.undos, run.answers) && errors == Errors(run.answers)
    requires Failed !in errors ==> (errors == [] <==> AllAcceptable(valid, run.a.p.undos, run.times))
    requires errors == [] ==> ApplyUndos(run.a.p.jobs, run.a.p.undos) == Some(jobs)
    ensures TakenBack(start, loaded, prepared, run, errors, valid, jobs)
  {
    if errors == [] && forall id :: ToChange(loaded, prepared, id) ==> InStepAt(start, loaded, id) {
      InStepIsRestored(start, loaded, prepared, run.a.ops);
    }
  }

  /** A definition that keeps its name and its version is the same. */
  ghost predicate VersionsTell(loaded: Ledger, prepared: Prepared) {
    forall id :: Unchanged(loaded, prepared, id) ==> loaded[id].definition == prepared[id]
  }

  /** The definition keeps its name and its version, so Sync leaves its job alone. */
  predicate Unchanged(loaded: Ledger, prepared: Prepared, id: string) {
    id in loaded && id in prepared && loaded[id].name == prepared[id].name && loaded[id].version == prepared[id].version
  }

  class Loader {
    var loaded: Ledger
    const runtime: Runtime

    constructor (runtime: Runtime)
      ensures this.runtime == runtime && loaded == map[]
    {
      this.runtime := runtime;
      loaded := map[];
    }

    /** What has been met since the calls failed from outside were `faults`. */
    ghost function Meets(ctx: Context, handlers: set<string>, faults: nat): Met
      reads runtime, ctx
      requires faults <= runtime.faults
    {
      Met(handlers, runtime.valid, runtime.now, runtime.faults - faults, ctx.cancelled)
    }

    /** Remove, taking a missing job for success. */
    method RemovePersistentJob(name: string) returns (ok: bool)
      modifies runtime
      ensures runtime.now >= old(runtime.now)
      ensures runtime.faults == old(runtime.faults) + if ok then 0 else 1
      ensures runtime.jobs == if ok then old(runtime.jobs) - {name} else old(runtime.jobs)
    {
      var r := runtime.Remove(name);
      ok := r != Some(Failed);
      if r == Some(JobNotFound) {
        assert runtime.jobs == runtime.jobs - {name};
      }
    }

    /** Runs one undo operation, at the time `at`. */
    method Perform(u: Undo) returns (r: Answer, ghost at: int)
      modifies runtime
      ensures old(runtime.now) <= at == runtime.now
      ensures runtime.faults == old(runtime.faults) + if r == Some(Failed) then 1 else 0
      ensures Answers(runtime.valid, old(runtime.jobs), u, at, r)
      ensures runtime.jobs == if r.None? then Taken(old(runtime.jobs), u) else old(runtime.jobs)
    {
      match u {
        case UndoReplace(d) => r := runtime.Replace(d);
        case UndoRemove(d) => r := runtime.Add(d);
        case UndoAdd(name) =>
          var ok := RemovePersistentJob(name);
          r := if ok then None else Some(Failed);
      }
      at := runtime.now;
    }

    /**
     Runs the undo stack, newest first, and goes on after a failed operation; operation `i` runs at `times[i]` and is
     answered with `answers[i]`. As many operations fail as the scheduler has calls that fail from outside.
     */
    method Rollback(undos: seq<Undo>, ghost goal: Jobs)
      returns (errors: seq<CallError>, ghost answers: seq<Answer>, ghost times: seq<int>)
      requires ApplyUndos(runtime.jobs, undos) == Some(goal)
      modifies runtime
      ensures |answers| == |times| == |undos| && forall i :: 0 <= i < |times| ==> times[i] >= old(runtime.now)
      ensures errors == Errors(answers) && runtime.faults == old(runtime.faults) + Faults(answers)
      ensures AllAnswered(runtime.valid, old(runtime.jobs), undos, answers, times)
      ensures runtime.jobs == Unwound(old(runtime.jobs), undos, answers)
      ensures Failed !in errors ==> (errors == [] <==> AllAcceptable(runtime.valid, undos, times))
      ensures errors == [] ==> runtime.jobs == goal
      ensures forall n :: !WorksOn(undos, n) ==> Get(runtime.jobs, n) == Get(old(runtime.jobs), n)
    {
      errors, answers, times := [], [], [];
      var index := |undos|;
      while index > 0
        invariant 0 <= index <= |undos| && |answers| == |times| == |undos| - index && runtime.now >= old(runtime.now)
        invariant forall i :: 0 <= i < |times| ==> times[i] >= old(runtime.now)
        invariant errors == Errors(answers) && runtime.faults == old(runtime.faults) + Faults(answers)
        invariant AllAnswered(runtime.valid, old(runtime.jobs), undos[index..], answers, times)
        invariant runtime.jobs == Unwound(old(runtime.jobs), undos[index..], answers)
      {
        index := index - 1;
        var r;
        ghost var at;
        r, at := Perform(undos[index]);
        AnsweredFirst(runtime.valid, old(runtime.jobs), undos, index, answers, times, r, at);
        answers, times := [r] + answers, [at] + times;
        if r.Some? {
          errors := errors + [r.value];
        }
      }
      assert undos[0..] == undos;
      UnwoundIsGoal(runtime.valid, old(runtime.jobs), undos, answers, times, goal);
      UnwoundLeavesOthers(old(runtime.jobs), undos, answers);
    }

    /** Phase one: Replace every job whose definition changed but kept its name. */
    method ReplacePhase(ctx: Context, previous: Ledger, prepared: Prepared, handlers: set<string>)
      returns (cause: Option<Cause>, undos: seq<Undo>, todo: set<string>, ghost t: Trail, ghost a: Account)
      requires Coherent(previous) && Named(prepared) && !ctx.cancelled
      modifies runtime, ctx
      ensures PhaseOne(old(runtime.jobs), runtime.jobs, undos, previous, prepared, todo, t, a) && (cause.None? ==> todo == {})
      ensures cause.None? ==> runtime.faults == old(runtime.faults) && !ctx.cancelled
      ensures cause.Some? ==> runtime.faults >= old(runtime.faults)
                              && Explained(cause.value, old(runtime.jobs), previous, prepared, Meets(ctx, handlers, old(runtime.faults)))
    {
      undos, t, todo := [], BEGIN, previous.Keys;
      a := Account([], Untouched(runtime.jobs));
      PhaseOneBegins(runtime.jobs, previous, prepared);
      while todo != {}
        invariant todo <= previous.Keys && runtime.faults == old(runtime.faults) && !ctx.cancelled
        invariant PhaseOne(old(runtime.jobs), runtime.jobs, undos, previous, prepared, todo, t, a)
      {
        var id :| id in todo;
        var cancelled := ctx.Err();
        if cancelled {
          return Some(Cancelled), undos, todo, t, a;
        }
        if Renewed(previous, prepared, id) {
          var prior := previous[id].definition;
          if prior.handler !in handlers {
            return Some(HandlerMissing(id)), undos, todo, t, a;
          }
          ghost var before := runtime.jobs;
          StillThere(old(runtime.jobs), before, undos, previous, prepared, todo, t, a, id);
          var r := runtime.Replace(prepared[id]);
          if r.Some? {
            return Some(ReplaceFailed(id, r.value)), undos, todo, t, a;
          }
          t, a := PhaseOneReplaces(old(runtime.jobs), before, undos, previous, prepared, todo, t, a, id);
          undos := undos + [UndoReplace(prior)];
        } else {
          PhaseOnePasses(old(runtime.jobs), runtime.jobs, undos, previous, prepared, todo, t, a, id);
        }
        todo := todo - {id};
      }
      return None, undos, todo, t, a;
    }

    /** One round of phase two. */
    method RemoveOne(ctx: Context, previous: Ledger, prepared: Prepared, handlers: set<string>, ghost start: Jobs, id: string)
      returns (cause: Option<Cause>)
      requires Coherent(previous) && id in previous
      modifies runtime, ctx
      ensures cause.None? ==> runtime.faults == old(runtime.faults) && !ctx.cancelled
      ensures cause.None? ==>
                runtime.jobs == if Stale(previous, prepared, id) then old(runtime.jobs) - {previous[id].name} else old(runtime.jobs)
      ensures cause.Some? ==> runtime.jobs == old(runtime.jobs) && runtime.faults >= old(runtime.faults)
      ensures cause.Some? ==> Explained(cause.value, start, previous, prepared, Meets(ctx, handlers, old(runtime.faults)))
    {
      var cancelled := ctx.Err();
      if cancelled {
        return Some(Cancelled);
      }
      if !Stale(previous, prepared, id) {
        return None;
      }
      if previous[id].definition.handler !in handlers {
        return Some(HandlerMissing(id));
      }
      var ok := RemovePersistentJob(previous[id].name);
      return if ok then None else Some(RemoveFailed(id));
    }

    /** Phase two: Remove every job whose definition is gone or has another name. */
    method RemovePhase(ctx: Context, previous: Ledger, prepared: Prepared, handlers: set<string>,
                       ghost start: Jobs, undos0: seq<Undo>, ghost t0: Trail, ghost a0: Account)
      returns (cause: Option<Cause>, undos: seq<Undo>, todo: set<string>, ghost t: Trail, ghost a: Account)
      requires Coherent(previous) && !ctx.cancelled
      requires PhaseTwo(start, runtime.jobs, undos0, previous, prepared, previous.Keys, t0, a0)
      modifies runtime, ctx
      ensures PhaseTwo(start, runtime.jobs, undos, previous, prepared, todo, t, a)
      ensures t.placed == t0.placed && (cause.None? ==> todo == {})
      ensures cause.None? ==> runtime.faults == old(runtime.faults) && !ctx.cancelled
      ensures cause.Some? ==> runtime.faults >= old(runtime.faults)
                              && Explained(cause.value, start, previous, prepared, Meets(ctx, handlers, old(runtime.faults)))
    {
      cause, undos, todo, t, a := None, undos0, previous.Keys, t0, a0;
      while todo != {}
        invariant todo <= previous.Keys && runtime.faults == old(runtime.faults) && !ctx.cancelled
        invariant PhaseTwo(start, runtime.jobs, undos, previous, prepared, todo, t, a) && t.placed == t0.placed
      {
        var id :| id in todo;
        ghost var before := runtime.jobs;
        cause := RemoveOne(ctx, previous, prepared, handlers, start, id);
        if cause.Some? {
          return;
        }
        if Stale(previous, prepared, id) {
          t, a := PhaseTwoRemoves(start, before, undos, previous, prepared, todo, t, a, id);
          undos := undos + [UndoRemove(previous[id].definition)];
        } else {
          PhaseTwoPasses(start, runtime.jobs, undos, previous, prepared, todo, t, a, id);
        }
        todo := todo - {id};
      }
      return None, undos, todo, t, a;
    }

    /** One round of phase three. */
    method AddOne(ctx: Context, previous: Ledger, prepared: Prepared, handlers: set<string>, ghost start: Jobs, id: string)
      returns (cause: Option<Cause>)
      requires id in prepared
      requires var n := prepared[id].name; Novel(previous, prepared, id) && n in runtime.jobs ==> n in start && !OwnName(previous, n)
      modifies runtime, ctx
      ensures cause.None? ==> runtime.faults == old(runtime.faults) && !ctx.cancelled
      ensures cause.None? && Novel(previous, prepared, id) ==>
                && prepared[id].name !in old(runtime.jobs)
                && runtime.jobs == old(runtime.jobs)[prepared[id].name := Persistent(prepared[id])]
      ensures cause.None? && !Novel(previous, prepared, id) ==> runtime.jobs == old(runtime.jobs)
      ensures cause.Some? ==> runtime.jobs == old(runtime.jobs) && runtime.faults >= old(runtime.faults)
      ensures cause.Some? ==> Explained(cause.value, start, previous, prepared, Meets(ctx, handlers, old(runtime.faults)))
    {
      var cancelled := ctx.Err();
      if cancelled {
        return Some(Cancelled);
      }
      if !Novel(previous, prepared, id) {
        return None;
      }
      var r := runtime.Add(prepared[id]);
      return if r.Some? then Some(AddFailed(id, r.value)) else None;
    }

    /** Phase three: Add every job whose definition is new or has another name. */
    method AddPhase(ctx: Context, previous: Ledger, prepared: Prepared, handlers: set<string>,
                    ghost start: Jobs, undos0: seq<Undo>, ghost t0: Trail, ghost a0: Account)
      returns (cause: Option<Cause>, undos: seq<Undo>, todo: set<string>, ghost t: Trail, ghost a: Account)
      requires Coherent(previous) && Named(prepared) && !ctx.cancelled
      requires Removing(previous, prepared, {}, t0)
      requires PhaseThree(start, runtime.jobs, undos0, previous, prepared, prepared.Keys, t0, a0)
      modifies runtime, ctx
      ensures PhaseThree(start, runtime.jobs, undos, previous, prepared, todo, t, a)
      ensures t.gone == t0.gone && t.restored == t0.restored && (cause.None? ==> todo == {})
      ensures cause.None? ==> runtime.faults == old(runtime.faults) && !ctx.cancelled
      ensures cause.Some? ==> runtime.faults >= old(runtime.faults)
                              && Explained(cause.value, start, previous, prepared, Meets(ctx, handlers, old(runtime.faults)))
    {
      cause, undos, todo, t, a := None, undos0, prepared.Keys, t0, a0;
      while todo != {}
        invariant todo <= prepared.Keys && runtime.faults == old(runtime.faults) && !ctx.cancelled
        invariant PhaseThree(start, runtime.jobs, undos, previous, prepared, todo, t, a)
        invariant t.gone == t0.gone && t.restored == t0.restored
      {
        var id :| id in todo;
        ghost var before := runtime.jobs;
        if Novel(previous, prepared, id) && prepared[id].name in before {
          PhaseThreeConflicts(start, before, undos, previous, prepared, todo, t0, t, a, id);
        }
        cause := AddOne(ctx, previous, prepared, handlers, start, id);
        if cause.Some? {
          return;
        }
        if Novel(previous, prepared, id) {
          t, a := PhaseThreeAdds(start, before, undos, previous, prepared, todo, t, a, id);
          undos := undos + [UndoAdd(prepared[id].name)];
        } else {
          PhaseThreePasses(start, runtime.jobs, undos, previous, prepared, todo, t, a, id);
        }
        todo := todo - {id};
      }
      return None, undos, todo, t, a;
    }

    /** The three phases, up to the end or to the first failure. */
    method Reconcile(ctx: Context, previous: Ledger, prepared: Prepared, handlers: set<string>)
      returns (cause: Option<Cause>, undos: seq<Undo>, ghost t: Trail, ghost a: Account)
      requires Coherent(previous) && Named(prepared) && !ctx.cancelled
      modifies runtime, ctx
      ensures Follows(old(runtime.jobs), runtime.jobs, undos, t)
      ensures Right(old(runtime.jobs), previous, prepared, a, runtime.jobs, undos, t.restored)
      ensures forall n :: n in t.restored ==> Recorded(previous, n, t.restored[n])
      ensures forall n :: n in t.placed ==> n in t.restored || n !in old(runtime.jobs)
      ensures cause.None? ==> Reconciled(old(runtime.jobs), previous, prepared, runtime.jobs)
      ensures cause.None? ==> runtime.faults == old(runtime.faults) && !ctx.cancelled
      ensures cause.Some? ==> runtime.faults >= old(runtime.faults)
                              && Explained(cause.value, old(runtime.jobs), previous, prepared, Meets(ctx, handlers, old(runtime.faults)))
    {
      ghost var start := runtime.jobs;
      var todo;
      cause, undos, todo, t, a := ReplacePhase(ctx, previous, prepared, handlers);
      if cause.Some? {
        return cause, undos, t, a;
      }
      ghost var replaced := t;
      RemovingBegins(previous, prepared, t);
      cause, undos, todo, t, a := RemovePhase(ctx, previous, prepared, handlers, start, undos, t, a);
      if cause.Some? {
        return cause, undos, t, a;
      }
      AddingBegins(previous, prepared, start, replaced, t);
      cause, undos, todo, t, a := AddPhase(ctx, previous, prepared, handlers, start, undos, t, a);
      if cause.None? {
        FinishedIsReconciled(start, runtime.jobs, undos, previous, prepared, t);
      }
    }

    /** Takes everything back; `t` says what that puts back. */
    method TakeBack(undos: seq<Undo>, ghost start: Jobs, ghost prepared: Prepared, ghost t: Trail, ghost a: Account)
      returns (errors: seq<CallError>, ghost run: Attempt)
      requires Coherent(loaded) && Named(prepared) && Follows(start, runtime.jobs, undos, t)
      requires Right(start, loaded, prepared, a, runtime.jobs, undos, t.restored)
      requires forall n :: n in t.restored ==> Recorded(loaded, n, t.restored[n])
      requires forall n :: n in start && !OwnName(loaded, n) ==> !WorksOn(undos, n) && Get(runtime.jobs, n) == Get(start, n)
      modifies runtime
      ensures TakenBack(start, loaded, prepared, run, errors, runtime.valid, runtime.jobs) && run.at == old(runtime.now)
      ensures runtime.faults == old(runtime.faults) + Faults(run.answers)
      ensures errors == [] && Owned(start, loaded) ==> Owned(runtime.jobs, loaded)
      ensures forall n :: n in start && !OwnName(loaded, n) ==> Get(runtime.jobs, n) == Get(start, n)
    {
      ghost var at := runtime.now;
      ghost var answers, times;
      errors, answers, times := Rollback(undos, start + t.restored);
      run := Attempt(a, at, answers, times);
      RollbackKeepsOwnership(start, loaded, t.restored);
      UnwoundIsTakenBack(start, loaded, prepared, run, errors, runtime.valid, runtime.jobs);
    }

    /** The three phases, and taking them back when one of them fails. */
    method Settle(ctx: Context, desired: Prepared, handlers: set<string>) returns (r: SyncResult, ghost run: Attempt)
      requires Coherent(loaded) && Named(desired) && !ctx.cancelled
      modifies this, runtime, ctx
      ensures Coherent(loaded) && !r.NotBegun?
      ensures r.Synced? ==> loaded == LoadedFrom(desired) && Reconciled(old(runtime.jobs), old(loaded), desired, runtime.jobs)
      ensures r.Synced? ==> runtime.faults == old(runtime.faults) && !ctx.cancelled
      ensures r.RolledBack? ==> loaded == old(loaded) && TakenBack(old(runtime.jobs), loaded, desired, run, r.undoErrors, runtime.valid, runtime.jobs)
      ensures r.RolledBack? ==>
                && runtime.faults == old(runtime.faults) + CauseFaults(r.cause) + Faults(run.answers)
                && Explained(r.cause, old(runtime.jobs), old(loaded), desired,
                             Met(handlers, runtime.valid, run.at, CauseFaults(r.cause), ctx.cancelled))
      ensures old(Owned(runtime.jobs, loaded)) && (r.RolledBack? ==> r.undoErrors == []) ==> Owned(runtime.jobs, loaded)
      ensures forall n :: n in old(runtime.jobs) && !OwnName(old(loaded), n) ==> Get(runtime.jobs, n) == Get(old(runtime.jobs), n)
    {
      var previous := loaded;
      ghost var start, t, a := runtime.jobs, BEGIN, Account([], Untouched(runtime.jobs));
      var cause, undos;
      cause, undos, t, a := Reconcile(ctx, previous, desired, handlers);
      forall n | n in start && !OwnName(previous, n)
        ensures !WorksOn(undos, n) && Get(runtime.jobs, n) == Get(start, n)
      {
        OthersAreLeftAlone(start, runtime.jobs, undos, previous, t, n);
      }
      if cause.Some? {
        var errors;
        errors, run := TakeBack(undos, start, desired, t, a);
        loaded := previous;
        return RolledBack(cause.value, errors), run;
      }
      if Owned(start, previous) {
        SyncedJobsArePrepared(start, previous, desired, runtime.jobs);
      }
      loaded := LoadedFrom(desired);
      return Synced, Attempt(a, runtime.now, [], []);
    }

    /** The list, checked, while the context lasts. */
    method Desire(ctx: Context, listed: Option<seq<Definition>>, env: Environment) returns (desired: Option<Prepared>)
      modifies ctx
      ensures desired.None? ==> ctx.cancelled || listed.None? || !Clean(NormalizeAll(listed.value), |listed.value|, env)
      ensures desired.Some? ==> !ctx.cancelled && !old(ctx.cancelled)
      ensures desired.Some? ==>
                && listed.Some? && Clean(NormalizeAll(listed.value), |listed.value|, env)
                && Holds(desired.value, NormalizeAll(listed.value), |listed.value|) && Named(desired.value)
    {
      var cancelled := ctx.Err();
      if cancelled || listed.None? {
        return None;
      }
      cancelled := ctx.Err();
      if cancelled {
        return None;
      }
      var result := PrepareDefinitions(listed.value, env);
      if result.Err? {
        return None;
      }
      cancelled := ctx.Err();
      return if cancelled then None else Some(result.value);
    }

    /**
     One reconciliation. `listed` is what the store answers, None for an error. On success the jobs are reconciled
     with the list; on any failure after the first change everything is taken back. `run` is what was performed up
     to the failure, and what became of each undo. It is not begun only if the context is cancelled, the store fails or
     the list has a fault, and rolled back only for a reason; with no call failing from outside after that reason, all
     undos are accepted that the scheduler still takes the job of.
     */
    method Sync(ctx: Context, listed: Option<seq<Definition>>, env: Environment)
      returns (r: SyncResult, ghost prepared: Prepared, ghost run: Attempt)
      requires Coherent(loaded)
      modifies this, runtime, ctx
      ensures Coherent(loaded)
      ensures r.NotBegun? ==> loaded == old(loaded) && runtime.jobs == old(runtime.jobs) && runtime.faults == old(runtime.faults)
      ensures r.NotBegun? ==> ctx.cancelled || listed.None? || !Clean(NormalizeAll(listed.value), |listed.value|, env)
      ensures !r.NotBegun? ==> !old(ctx.cancelled) && listed.Some? && Clean(NormalizeAll(listed.value), |listed.value|, env)
      ensures !r.NotBegun? ==> Holds(prepared, NormalizeAll(listed.value), |listed.value|) && Named(prepared)
      ensures r.Synced? ==> loaded == LoadedFrom(prepared) && Reconciled(old(runtime.jobs), old(loaded), prepared, runtime.jobs)
      ensures r.Synced? ==> runtime.faults == old(runtime.faults) && !ctx.cancelled
      ensures r.RolledBack? ==>
                && loaded == old(loaded)
                && TakenBack(old(runtime.jobs), loaded, prepared, run, r.undoErrors, runtime.valid, runtime.jobs)
      ensures r.RolledBack? ==>
                && runtime.faults == old(runtime.faults) + CauseFaults(r.cause) + Faults(run.answers)
                && Explained(r.cause, old(runtime.jobs), old(loaded), prepared,
                             Met(env.handlers, runtime.valid, run.at, CauseFaults(r.cause), ctx.cancelled))
      ensures r.RolledBack? && runtime.faults == old(runtime.faults) + CauseFaults(r.cause)
              && AllAcceptable(runtime.valid, run.a.p.undos, run.times) ==>
                r.undoErrors == [] && RolledBackTo(old(runtime.jobs), old(loaded), prepared, run.a.ops) == Some(runtime.jobs)
      ensures old(InStep(runtime.jobs, loaded)) && r.RolledBack? && r.undoErrors == [] ==> runtime.jobs == old(runtime.jobs)
      ensures old(InStep(runtime.jobs, loaded)) && r.Synced? && VersionsTell(old(loaded), prepared) ==> InStep(runtime.jobs, loaded)
      ensures old(Owned(runtime.jobs, loaded)) && (r.RolledBack? ==> r.undoErrors == []) ==> Owned(runtime.jobs, loaded)
      ensures forall n :: n in old(runtime.jobs) && !OwnName(old(loaded), n) ==> Get(runtime.jobs, n) == Get(old(runtime.jobs), n)
    {
      prepared, run := map[], Attempt(Account([], Untouched(runtime.jobs)), runtime.now, [], []);
      var desired := Desire(ctx, listed, env);
      if desired.None? {
        return NotBegun, prepared, run;
      }
      prepared := desired.value;
      ghost var start, previous := runtime.jobs, loaded;
      r, run := Settle(ctx, desired.value, env.handlers);
      if r.Synced? && InStep(start, previous) && VersionsTell(previous, prepared) {
        InStepExactlyIfVersionsTell(start, previous, prepared, runtime.jobs);
      }
    }
  }

  // ---------------------------------------------------------------------------------------------
  // What a loader can rely on
  // ---------------------------------------------------------------------------------------------

  ghost predicate PreparedName(prepared: Prepared, n: string) {
    exists id :: id in prepared && prepared[id].name == n
  }

  lemma UnchangedJobStays(start: Jobs, loaded: Ledger, prepared: Prepared, jobs: Jobs, id: string)
    requires Coherent(loaded) && Named(prepared) && Reconciled(start, loaded, prepared, jobs)
    requires Unchanged(loaded, prepared, id)
    ensures Get(jobs, prepared[id].name) == Get(start, loaded[id].name)
  {
    var n := prepared[id].name;
    forall x | x in prepared && x != id
      ensures prepared[x].name != n
    {
    }
    assert !DesiredName(loaded, prepared, n);
    forall x | x in loaded && x != id
      ensures loaded[x].name != n
    {
    }
    assert !StaleName(loaded, prepared, n);
    assert ReconciledName(start, loaded, prepared, jobs, n);
  }

  /** After a successful Sync every prepared definition runs, by ID, name and version. */
  lemma SyncedJobsArePrepared(start: Jobs, loaded: Ledger, prepared: Prepared, jobs: Jobs)
    requires Coherent(loaded) && Named(prepared) && Owned(start, loaded) && Reconciled(start, loaded, prepared, jobs)
    ensures Coherent(LoadedFrom(prepared)) && Owned(jobs, LoadedFrom(prepared))
  {
    forall id | id in prepared
      ensures prepared[id].name in jobs && Matches(jobs[prepared[id].name], LoadedFrom(prepared)[id])
    {
      if Unchanged(loaded, prepared, id) {
        UnchangedJobStays(start, loaded, prepared, jobs, id);
      }
    }
  }

  /** After a successful Sync the loader has no other job, and a job that is not its own is as before. */
  lemma SyncedJobsAreNoOthers(start: Jobs, loaded: Ledger, prepared: Prepared, jobs: Jobs, n: string)
    requires Reconciled(start, loaded, prepared, jobs)
    ensures OwnName(loaded, n) && !PreparedName(prepared, n) ==> n !in jobs
    ensures !OwnName(loaded, n) ==> if PreparedName(prepared, n) then n !in start else Get(jobs, n) == Get(start, n)
  {
    if PreparedName(prepared, n) && !OwnName(loaded, n) {
      var id :| id in prepared && prepared[id].name == n;
      assert Novel(loaded, prepared, id);
      assert DesiredName(loaded, prepared, n);
    }
    if OwnName(loaded, n) && !PreparedName(prepared, n) {
      var id :| id in loaded && loaded[id].name == n;
      assert Stale(loaded, prepared, id);
      assert StaleName(loaded, prepared, n);
    }
    assert PreparedName(prepared, n) || !DesiredName(loaded, prepared, n);
    assert OwnName(loaded, n) || !StaleName(loaded, prepared, n);
    assert ReconciledName(start, loaded, prepared, jobs, n);
  }

  /**
   The jobs stay exactly as recorded through a successful Sync if and only if every definition that
   kept its name and version is otherwise the same too: the version has to determine the definition.
   */
  lemma InStepExactlyIfVersionsTell(start: Jobs, loaded: Ledger, prepared: Prepared, jobs: Jobs)
    requires Coherent(loaded) && Named(prepared) && InStep(start, loaded) && Reconciled(start, loaded, prepared, jobs)
    ensures InStep(jobs, LoadedFrom(prepared)) <==> VersionsTell(loaded, prepared)
  {
    var next := LoadedFrom(prepared);
    forall id | id in prepared
      ensures Get(jobs, next[id].name) == Some(Persistent(
                if Unchanged(loaded, prepared, id) then loaded[id].definition else prepared[id]))
    {
      if Unchanged(loaded, prepared, id) {
        UnchangedJobStays(start, loaded, prepared, jobs, id);
      }
    }
  }

  /** In any case a rollback whose undos are accepted leaves the same IDs, names and versions, and others' jobs alone. */
  lemma RollbackKeepsOwnership(start: Jobs, loaded: Ledger, restored: Jobs)
    requires Coherent(loaded)
    requires forall n :: n in restored ==> Recorded(loaded, n, restored[n])
    ensures Owned(start, loaded) ==> Owned(start + restored, loaded) && (start + restored).Keys == start.Keys
    ensures forall n :: !OwnName(loaded, n) ==> Get(start + restored, n) == Get(start, n)
  {
    forall n | n in restored
      ensures exists id :: id in loaded && loaded[id].name == n && restored[n] == Persistent(loaded[id].definition)
    {
      assert Recorded(loaded, n, restored[n]);
    }
  }

  // ---------------------------------------------------------------------------------------------
  // One loader over many Syncs
  // ---------------------------------------------------------------------------------------------

  /** A Sync that succeeds, one that is rolled back after `ops`, or anything others do to their own jobs. */
  datatype Event = Succeeds(prepared: Prepared) | RollsBack(prepared: Prepared, ops: seq<Op>) | Others

  datatype Situation = Situation(jobs: Jobs, loaded: Ledger)

  ghost predicate Happens(s: Situation, e: Event, t: Situation) {
    match e
    case Succeeds(prepared) =>
      Named(prepared) && Reconciled(s.jobs, s.loaded, prepared, t.jobs) && t.loaded == LoadedFrom(prepared)
    case RollsBack(prepared, ops) =>
      && Named(prepared) && After(s.jobs, s.loaded, prepared, ops).Some?
      && RolledBackTo(s.jobs, s.loaded, prepared, ops) == Some(t.jobs) && t.loaded == s.loaded
    case Others => t.loaded == s.loaded && forall n :: OwnName(s.loaded, n) ==> Get(t.jobs, n) == Get(s.jobs, n)
  }

  ghost predicate IsHistory(ss: seq<Situation>, events: seq<Event>) {
    && |ss| == |events| + 1 && ss[0].loaded == map[]
    && forall k :: 0 <= k < |events| ==> HappensAt(ss, events, k)
  }

  ghost predicate HappensAt(ss: seq<Situation>, events: seq<Event>, k: nat)
    requires k < |events| < |ss|
  {
    Happens(ss[k], events[k], ss[k + 1])
  }

  predicate Lists(e: Event, d: Definition) {
    !e.Others? && exists id :: id in e.prepared && e.prepared[id] == d
  }

  ghost predicate Listed(events: seq<Event>, d: Definition) {
    exists i :: 0 <= i < |events| && Lists(events[i], d)
  }

  /** Whatever is listed with the same ID and version is the same. */
  ghost predicate Versioned(events: seq<Event>) {
    forall d, e :: Listed(events, d) && Listed(events, e) && d.id == e.id && d.version == e.version ==> d == e
  }

  /** What the loader has on record is listed by some Sync. */
  ghost predicate FromHistory(loaded: Ledger, events: seq<Event>) {
    forall id :: id in loaded ==> Listed(events, loaded[id].definition)
  }

  lemma NamedIsCoherent(prepared: Prepared)
    requires Named(prepared)
    ensures Coherent(LoadedFrom(prepared))
  {
  }

  lemma PreparedIsListed(events: seq<Event>, k: nat, prepared: Prepared)
    requires k < |events| && !events[k].Others? && events[k].prepared == prepared
    ensures forall id :: id in prepared ==> Listed(events, prepared[id])
  {
    forall id | id in prepared
      ensures Listed(events, prepared[id])
    {
      assert Lists(events[k], prepared[id]);
    }
  }

  lemma VersionedTells(loaded: Ledger, prepared: Prepared, events: seq<Event>)
    requires Coherent(loaded) && Named(prepared) && Versioned(events) && FromHistory(loaded, events)
    requires forall id :: id in prepared ==> Listed(events, prepared[id])
    ensures VersionsTell(loaded, prepared)
  {
  }

  ghost predicate Steady(s: Situation, events: seq<Event>) {
    Coherent(s.loaded) && InStep(s.jobs, s.loaded) && FromHistory(s.loaded, events)
  }

  /** While versions tell, the jobs are in step with the records in every situation. */
  lemma {:induction false} HistoryStaysInStep(ss: seq<Situation>, events: seq<Event>, k: nat)
    requires IsHistory(ss, events) && Versioned(events) && k <= |events|
    ensures Steady(ss[k], events)
  {
    if k > 0 {
      HistoryStaysInStep(ss, events, k - 1);
      assert HappensAt(ss, events, k - 1);
      HappeningStaysInStep(ss[k - 1], events, k - 1, ss[k]);
    }
  }

  /** So every Sync that is rolled back ends with exactly the jobs it began with. */
  lemma RolledBackSyncChangesNothing(ss: seq<Situation>, events: seq<Event>, k: nat)
    requires IsHistory(ss, events) && Versioned(events) && k < |events| && events[k].RollsBack?
    ensures ss[k + 1] == ss[k]
  {
    HistoryStaysInStep(ss, events, k);
    assert HappensAt(ss, events, k);
    InStepIsRestored(ss[k].jobs, ss[k].loaded, events[k].prepared, events[k].ops);
  }

  lemma HappeningStaysInStep(s: Situation, events: seq<Event>, k: nat, t: Situation)
    requires k < |events| && Versioned(events) && Happens(s, events[k], t) && Steady(s, events)
    ensures Steady(t, events)
  {
    match events[k]
    case Succeeds(prepared) => SuccessStaysInStep(s, events, k, prepared, t);
    case RollsBack(prepared, ops) => InStepIsRestored(s.jobs, s.loaded, prepared, ops);
    case Others =>
      forall id | id in t.loaded
        ensures InStepAt(t.jobs, t.loaded, id)
      {
        assert OwnName(s.loaded, s.loaded[id].name);
      }
  }

  lemma SuccessStaysInStep(s: Situation, events: seq<Event>, k: nat, prepared: Prepared, t: Situation)
    requires k < |events| && Versioned(events) && Steady(s, events)
    requires events[k] == Succeeds(prepared) && Happens(s, events[k], t)
    ensures Steady(t, events)
  {
    PreparedIsListed(events, k, prepared);
    VersionedTells(s.loaded, prepared, events);
    NamedIsCoherent(prepared);
    InStepExactlyIfVersionsTell(s.jobs, s.loaded, prepared, t.jobs);
  }

  /**
   Why versions have to tell: two Syncs list a job before and after an edit without a new version, and a third,
   which lists it no more, fails once it has removed it. The rollback puts the edited job in the place of the other.
   */
  lemma EditWithoutNewVersionIsNotRestored(before: Definition, after: Definition) returns (ss: seq<Situation>, events: seq<Event>)
    requires before.id == after.id && before.name == after.name && before.version == after.version && before != after
    ensures IsHistory(ss, events) && |events| == 3 && events[2].RollsBack?
    ensures ss[2].jobs == map[before.name := Persistent(before)] && ss[3].jobs == map[before.name := Persistent(after)]
  {
    var n := before.name;
    var first, second := map[before.id := before], map[after.id := after];
    var a := Situation(map[], map[]);
    var b, c := Situation(map[n := Persistent(before)], LoadedFrom(first)), Situation(map[n := Persistent(before)], LoadedFrom(second));
    var d := Situation(map[n := Persistent(after)], LoadedFrom(second));
    ss := [a, b, c, d];
    events := [Succeeds(first), Succeeds(second), RollsBack(map[], [Removes(after.id)])];
    FirstSync(before);
    SecondSync(before, after);
    ThirdSync(before, after);
    assert HappensAt(ss, events, 0) && HappensAt(ss, events, 1) && HappensAt(ss, events, 2);
  }

  lemma FirstSync(d: Definition)
    ensures Reconciled(map[], map[], map[d.id := d], map[d.name := Persistent(d)])
  {
    var prepared := map[d.id := d];
    assert Novel(map[], prepared, d.id);
    forall n
      ensures ReconciledName(map[], map[], prepared, map[d.name := Persistent(d)], n)
    {
      assert n == d.name ==> DesiredName(map[], prepared, n);
    }
  }

  lemma SecondSync(before: Definition, after: Definition)
    requires before.id == after.id && before.name == after.name && before.version == after.version
    ensures var jobs := map[before.name := Persistent(before)];
            Reconciled(jobs, LoadedFrom(map[before.id := before]), map[after.id := after], jobs)
  {
    var jobs := map[before.name := Persistent(before)];
    var loaded, prepared := LoadedFrom(map[before.id := before]), map[after.id := after];
    forall n
      ensures ReconciledName(jobs, loaded, prepared, jobs, n)
    {
    }
  }

  lemma ThirdSync(before: Definition, after: Definition)
    requires before.id == after.id && before.name == after.name
    ensures var jobs, loaded := map[before.name := Persistent(before)], LoadedFrom(map[after.id := after]);
            && After(jobs, loaded, map[], [Removes(after.id)]).Some?
            && RolledBackTo(jobs, loaded, map[], [Removes(after.id)]) == Some(map[before.name := Persistent(after)])
  {
    var jobs, loaded := map[before.name := Persistent(before)], LoadedFrom(map[after.id := after]);
    AfterOneMore(jobs, loaded, map[], [], Removes(after.id));
    assert [] + [Removes(after.id)] == [Removes(after.id)];
    assert Due(loaded, map[], Untouched(jobs), Removes(after.id));
    var undo := UndoRemove(after);
    PushUndo(jobs - {after.name}, [], undo);
    assert [] + [undo] == [undo];
    assert (jobs - {after.name})[after.name := Persistent(after)] == map[before.name := Persistent(after)];
  }
}
