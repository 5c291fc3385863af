/**
 The in-process scheduler: named jobs, the engine jobs installed for them, and the generations a
 replaced job goes through.

 Each public operation runs under the manager's lock. A function on `State` says what it does for
 every pattern of engine failures, the methods of `Scheduler` compute it step by step, and the
 lemmas show what holds whenever the lock is free. Engine calls that fail have no effect.
 */
module Manager {
  import opened Wrappers
  import opened Gate

  type Handle = nat
  type RecordId = nat
  type GateId = nat

  /** `body` stands for the schedule, the handler, the timeout and the middleware. */
  datatype Job = Job(name: string, policy: OverlapPolicy, body: nat)

  datatype Error = Invalid | Stopped | AlreadyStarted | DuplicateJob | JobNotFound | EngineFailed

  datatype Outcome = Success | Failure(error: Error)

  /** What goes wrong in one call: validation, NewJob, and RemoveJob for each of the stuck handles. */
  datatype Faults = Faults(invalid: bool, install: bool, stuck: set<Handle>)

  /** The stages of one generation of a job. */
  datatype Stage = Pending | Active | Retired | Aborted

  /** One generation of a job: its definition, gate and engine handles, and whether it may run. */
  datatype Record = Record(
    id: RecordId,
    job: Job,
    gate: GateId,
    inner: Option<Handle>,
    cleanup: set<Handle>,
    ready: bool,    // the ready channel is closed
    active: bool,
    exposed: bool)  // some trigger could have seen `active`
  {
    function Stage(): Stage {
      if active then Active else if !ready then Pending else if exposed then Retired else Aborted
    }

    /** The engine handles it has to take out of the engine some time. */
    function Held(): set<Handle> {
      cleanup + if inner.Some? then {inner.value} else {}
    }

    function Publish(): Record {
      this.(active := true, exposed := true, ready := true)
    }

    function Abort(): Record {
      this.(active := false, ready := true)
    }

    function Deactivate(): Record {
      this.(active := false)
    }
  }

  function NewRecord(id: RecordId, job: Job, gate: GateId, published: bool): Record {
    Record(id, job, gate, None, {}, published, published, published)
  }

  datatype State = State(
    jobs: map<string, Record>,
    retired: map<RecordId, Record>,  // generations that are no longer registered, or never were
    gates: map<GateId, GateState>,
    created: nat,
    live: set<Handle>,               // the jobs installed in the engine
    issued: nat,
    started: bool,
    stopped: bool,
    stopping: bool)

  function NewState(): State {
    State(map[], map[], map[], 0, {}, 0, false, false, false)
  }

  /**
   Takes a record's engine jobs out of the engine, stale ones first. A handle whose removal fails
   stays with the record, and then so does the primary one.
   */
  function RemoveEngineJobs(record: Record, live: set<Handle>, stuck: set<Handle>): (r: (Record, set<Handle>, bool))
  {
    var free := live - stuck;
    var remaining := record.cleanup - free;
    var rest := live - (record.cleanup * free);
    if remaining != {} then (record.(cleanup := remaining), rest, false)
    else if record.inner.Some? && record.inner.value !in rest - stuck then (record.(cleanup := {}), rest, false)
    else (record.(cleanup := {}, inner := None), if record.inner.Some? then rest - {record.inner.value} else rest, true)
  }

  function Remove(s: State, name: string, stuck: set<Handle>): (State, Outcome) {
    if name !in s.jobs then (s, Failure(JobNotFound))
    else
      var (record, live, ok) :=
        if s.started then RemoveEngineJobs(s.jobs[name], s.live, stuck) else (s.jobs[name], s.live, true);
      if !ok then (s.(jobs := s.jobs[name := record], live := live), Failure(EngineFailed))
      else (s.(jobs := s.jobs - {name}, retired := s.retired[record.id := record.Deactivate()], live := live), Success)
  }

  function Add(s: State, job: Job, f: Faults): (State, Outcome) {
    if f.invalid then (s, Failure(Invalid))
    else if s.stopped || s.stopping then (s, Failure(Stopped))
    else if job.name in s.jobs then (s, Failure(DuplicateJob))
    else
      var id := s.created;
      var record := NewRecord(id, job, id, !s.started);
      var made := s.(created := id + 1, gates := s.gates[id := Idle(job.policy)]);
      if !s.started then (made.(jobs := s.jobs[job.name := record]), Success)
      else if f.install then (made.(retired := s.retired[id := record.Abort()]), Failure(EngineFailed))
      else
        (made.(jobs := s.jobs[job.name := record.(inner := Some(s.issued)).Publish()],
               live := s.live + {s.issued}, issued := s.issued + 1), Success)
  }

  /** The replacement is registered and takes over the gate. */
  function Commit(s: State, prior: Record, next: Record): State {
    s.(jobs := s.jobs[next.job.name := next],
       retired := s.retired[prior.id := prior.Deactivate()],
       gates := SetPolicy(s.gates, next.gate, next.job.policy))
  }

  function SetPolicy(gates: map<GateId, GateState>, gate: GateId, policy: OverlapPolicy): map<GateId, GateState> {
    if gate in gates then gates[gate := gates[gate].(policy := policy)] else gates
  }

  function Replace(s: State, job: Job, f: Faults): (State, Outcome) {
    if f.invalid then (s, Failure(Invalid))
    else if s.stopped || s.stopping then (s, Failure(Stopped))
    else if job.name !in s.jobs then (s, Failure(JobNotFound))
    else
      var prior := s.jobs[job.name];
      var next := NewRecord(s.created, job, prior.gate, !s.started);
      var made := s.(created := s.created + 1);
      if !s.started then (Commit(made, prior, next), Success)
      else if f.install then (made.(retired := s.retired[next.id := next.Abort()]), Failure(EngineFailed))
      else
        var installed := next.(inner := Some(s.issued));
        var issued := made.(issued := s.issued + 1);
        var (gone, live, ok) := RemoveEngineJobs(prior, s.live + {s.issued}, f.stuck);
        if ok then (Commit(issued.(live := live), gone, installed.Publish()), Success)
        else (GivenUp(issued.(live := live), gone, installed.Abort(), f.stuck), Failure(EngineFailed))
  }

  /** The old generation stays, with what could not be removed of the aborted one among its stale handles. */
  function GivenUp(s: State, gone: Record, aborted: Record, stuck: set<Handle>): State {
    var (left, rest, _) := RemoveEngineJobs(aborted, s.live, stuck);
    s.(live := rest, jobs := s.jobs[aborted.job.name := gone.(cleanup := gone.cleanup + left.Held())],
       retired := s.retired[left.id := left.(inner := None, cleanup := {})])
  }

  // ---------------------------------------------------------------------------------------------
  // What holds whenever the lock is free
  // ---------------------------------------------------------------------------------------------

  type Jobs = map<string, Record>

  /** Registered generations are active, each with its own name, id and gate; all others are over. */
  ghost predicate Generations(jobs: Jobs, retired: map<RecordId, Record>, created: nat) {
    && (forall n :: n in jobs ==>
          && jobs[n].active && jobs[n].ready && jobs[n].exposed
          && jobs[n].job.name == n && jobs[n].id < created && jobs[n].id !in retired)
    && (forall n, m :: n in jobs && m in jobs && n != m ==> jobs[n].id != jobs[m].id && jobs[n].gate != jobs[m].gate)
    && (forall id :: id in retired ==> id < created && !retired[id].active && retired[id].ready)
  }

  ghost predicate InUse(jobs: Jobs, id: RecordId) {
    exists n :: n in jobs && jobs[n].id == id
  }

  /** No record is forgotten: each is registered or over. */
  ghost predicate Accounted(jobs: Jobs, retired: map<RecordId, Record>, created: nat) {
    forall id: RecordId {:trigger InUse(jobs, id)} :: id < created ==> id in retired || InUse(jobs, id)
  }

  /** A job's gate, shared by its generations, follows the registered one. */
  ghost predicate Policies(jobs: Jobs, gates: map<GateId, GateState>, created: nat) {
    && (forall n :: n in jobs ==> jobs[n].gate in gates && gates[jobs[n].gate].policy == jobs[n].job.policy)
    && (forall g :: g in gates ==> g < created)
  }

  /** Every live engine handle is held by exactly one record, and every record holds its primary handle. */
  ghost predicate Owned(jobs: Jobs, live: set<Handle>) {
    && (forall n, h :: n in jobs && h in jobs[n].Held() ==> h in live)
    && (forall h :: h in live ==> exists n :: n in jobs && h in jobs[n].Held())
    && (forall n, m, h :: n in jobs && m in jobs && h in jobs[n].Held() && h in jobs[m].Held() ==> n == m)
    && (forall n :: n in jobs ==> jobs[n].inner.Some? && jobs[n].inner.value !in jobs[n].cleanup)
  }

  /** While started, the engine handles are owned; before, no record has a stale one. */
  ghost predicate Ownership(s: State) {
    && (forall h :: h in s.live ==> h < s.issued)
    && if s.started then Owned(s.jobs, s.live) else forall n :: n in s.jobs ==> s.jobs[n].cleanup == {}
  }

  ghost predicate Sound(s: State) {
    && Generations(s.jobs, s.retired, s.created)
    && Accounted(s.jobs, s.retired, s.created)
    && Policies(s.jobs, s.gates, s.created)
    && Ownership(s)
  }

  /** What a removal leaves: handles leave the engine and the record together, and no other handle does. */
  lemma RemovalIsExact(record: Record, live: set<Handle>, stuck: set<Handle>)
    requires record.Held() <= live && (record.inner.Some? ==> record.inner.value !in record.cleanup)
    ensures var (after, rest, ok) := RemoveEngineJobs(record, live, stuck);
            && rest == live - (record.Held() - after.Held())
            && after.Held() <= record.Held()
            && SameGeneration(record, after)
            && (if ok then after.Held() == {} && after.inner.None? else after.inner == record.inner)
            && (record.Held() !! stuck <==> ok)
            && (!ok ==> after.cleanup == record.cleanup * stuck)
  {
  }

  predicate SameGeneration(r: Record, t: Record) {
    t == r.(inner := t.inner, cleanup := t.cleanup)
  }

  lemma HandlesKeepTable(jobs: Jobs, retired: map<RecordId, Record>, created: nat, name: string, after: Record)
    requires Generations(jobs, retired, created) && name in jobs && SameGeneration(jobs[name], after)
    requires Accounted(jobs, retired, created)
    ensures Generations(jobs[name := after], retired, created)
    ensures Accounted(jobs[name := after], retired, created)
  {
    var next := jobs[name := after];
    forall id: RecordId | id < created && id !in retired
      ensures InUse(next, id)
    {
      assert InUse(jobs, id);
      var n :| n in jobs && jobs[n].id == id;
      assert next[n].id == id;
    }
  }

  lemma RetiringKeepsTable(jobs: Jobs, retired: map<RecordId, Record>, created: nat, name: string, over: Record)
    requires Generations(jobs, retired, created) && name in jobs && over.id == jobs[name].id
    requires !over.active && over.ready
    requires Accounted(jobs, retired, created)
    ensures Generations(jobs - {name}, retired[over.id := over], created)
    ensures Accounted(jobs - {name}, retired[over.id := over], created)
  {
    var next := jobs - {name};
    forall id: RecordId | id < created && id !in retired && id != over.id
      ensures InUse(next, id)
    {
      assert InUse(jobs, id);
      var n :| n in jobs && jobs[n].id == id;
      assert next[n].id == id;
    }
  }

  lemma AddingKeepsTable(jobs: Jobs, retired: map<RecordId, Record>, created: nat, next: Record)
    requires Generations(jobs, retired, created) && Accounted(jobs, retired, created)
    requires next.id == created && next.active && next.ready && next.exposed && next.job.name !in jobs
    requires forall n :: n in jobs ==> jobs[n].gate != next.gate
    ensures Generations(jobs[next.job.name := next], retired, created + 1)
    ensures Accounted(jobs[next.job.name := next], retired, created + 1)
  {
    var all := jobs[next.job.name := next];
    forall id: RecordId | id < created + 1 && id !in retired
      ensures InUse(all, id)
    {
      if id == created {
        assert all[next.job.name].id == id;
      } else {
        assert InUse(jobs, id);
        var n :| n in jobs && jobs[n].id == id;
        assert all[n].id == id;
      }
    }
  }

  lemma AbortingKeepsTable(jobs: Jobs, retired: map<RecordId, Record>, created: nat, over: Record)
    requires Generations(jobs, retired, created) && Accounted(jobs, retired, created)
    requires over.id == created && !over.active && over.ready
    ensures Generations(jobs, retired[created := over], created + 1)
    ensures Accounted(jobs, retired[created := over], created + 1)
  {
    forall id: RecordId | id < created + 1 && id !in retired && id != created
      ensures InUse(jobs, id)
    {
      assert InUse(jobs, id);
    }
  }

  lemma ReductionKeepsOwned(jobs: Jobs, live: set<Handle>, name: string, after: Record)
    requires Owned(jobs, live) && name in jobs && after.inner == jobs[name].inner && after.Held() <= jobs[name].Held()
    requires after.inner.value !in after.cleanup
    ensures Owned(jobs[name := after], live - (jobs[name].Held() - after.Held()))
  {
    var next, rest := jobs[name := after], live - (jobs[name].Held() - after.Held());
    forall h | h in rest
      ensures exists n :: n in next && h in next[n].Held()
    {
      var n :| n in jobs && h in jobs[n].Held();
      assert h in next[n].Held();
    }
  }

  lemma RemovalKeepsOwned(jobs: Jobs, live: set<Handle>, name: string)
    requires Owned(jobs, live) && name in jobs
    ensures Owned(jobs - {name}, live - jobs[name].Held())
  {
    var next := jobs - {name};
    forall h | h in live - jobs[name].Held()
      ensures exists n :: n in next && h in next[n].Held()
    {
      var n :| n in jobs && h in jobs[n].Held();
      assert h in next[n].Held();
    }
  }

  lemma AdditionKeepsOwned(jobs: Jobs, live: set<Handle>, name: string, next: Record)
    requires Owned(jobs, live) && name !in jobs
    requires next.inner.Some? && next.inner.value !in live && next.cleanup == {}
    ensures Owned(jobs[name := next], live + {next.inner.value})
  {
    var all := jobs[name := next];
    forall h | h in live + {next.inner.value}
      ensures exists n :: n in all && h in all[n].Held()
    {
      if h in live {
        var n :| n in jobs && h in jobs[n].Held();
        assert h in all[n].Held();
      } else {
        assert h in all[name].Held();
      }
    }
  }

  lemma OrphanKeepsOwned(jobs: Jobs, live: set<Handle>, name: string, h: Handle)
    requires Owned(jobs, live) && name in jobs && h !in live
    ensures Owned(jobs[name := jobs[name].(cleanup := jobs[name].cleanup + {h})], live + {h})
  {
    var all := jobs[name := jobs[name].(cleanup := jobs[name].cleanup + {h})];
    forall x | x in live + {h}
      ensures exists n :: n in all && x in all[n].Held()
    {
      if x in live {
        var n :| n in jobs && x in jobs[n].Held();
        assert x in all[n].Held();
      } else {
        assert x in all[name].Held();
      }
    }
  }

  lemma OrphanOrNot(jobs: Jobs, live: set<Handle>, name: string, h: Handle, left: set<Handle>)
    requires Owned(jobs, live) && name in jobs && h !in live && (left == {} || left == {h})
    ensures Owned(jobs[name := jobs[name].(cleanup := jobs[name].cleanup + left)], live + left)
  {
    if left == {} {
      assert jobs[name].cleanup + left == jobs[name].cleanup && live + left == live;
      assert jobs[name := jobs[name]] == jobs;
    } else {
      OrphanKeepsOwned(jobs, live, name, h);
    }
  }

  lemma RemoveKeepsTable(s: State, name: string, stuck: set<Handle>)
    requires Sound(s)
    ensures var t := Remove(s, name, stuck).0;
            Generations(t.jobs, t.retired, t.created) && Accounted(t.jobs, t.retired, t.created) && Policies(t.jobs, t.gates, t.created)
  {
    if name in s.jobs {
      var record := s.jobs[name];
      var (after, rest, ok) :=
        if s.started then RemoveEngineJobs(record, s.live, stuck) else (record, s.live, true);
      if ok {
        RetiringKeepsTable(s.jobs, s.retired, s.created, name, after.Deactivate());
      } else {
        HandlesKeepTable(s.jobs, s.retired, s.created, name, after);
      }
    }
  }

  lemma RemoveKeepsOwnership(s: State, name: string, stuck: set<Handle>)
    requires Ownership(s)
    ensures Ownership(Remove(s, name, stuck).0)
  {
    if name in s.jobs && s.started {
      var record := s.jobs[name];
      RemovalIsExact(record, s.live, stuck);
      var (after, rest, ok) := RemoveEngineJobs(record, s.live, stuck);
      if ok {
        RemovalKeepsOwned(s.jobs, s.live, name);
        assert rest == s.live - record.Held();
      } else {
        ReductionKeepsOwned(s.jobs, s.live, name, after);
      }
    }
  }

  lemma AddKeepsTable(s: State, job: Job, f: Faults)
    requires Sound(s)
    ensures var t := Add(s, job, f).0;
            Generations(t.jobs, t.retired, t.created) && Accounted(t.jobs, t.retired, t.created) && Policies(t.jobs, t.gates, t.created)
  {
    if !f.invalid && !s.stopped && !s.stopping && job.name !in s.jobs {
      var record := NewRecord(s.created, job, s.created, !s.started);
      if !s.started {
        AddingKeepsTable(s.jobs, s.retired, s.created, record);
      } else if f.install {
        AbortingKeepsTable(s.jobs, s.retired, s.created, record.Abort());
      } else {
        AddingKeepsTable(s.jobs, s.retired, s.created, record.(inner := Some(s.issued)).Publish());
      }
    }
  }

  lemma AddKeepsOwnership(s: State, job: Job, f: Faults)
    requires Sound(s)
    ensures Ownership(Add(s, job, f).0)
  {
    if !f.invalid && !s.stopped && !s.stopping && job.name !in s.jobs && s.started && !f.install {
      var record := NewRecord(s.created, job, s.created, false).(inner := Some(s.issued)).Publish();
      AdditionKeepsOwned(s.jobs, s.live, job.name, record);
    }
  }

  lemma CommitKeepsTable(s: State, prior: Record, next: Record)
    requires Generations(s.jobs, s.retired, s.created) && Accounted(s.jobs, s.retired, s.created) && Policies(s.jobs, s.gates, s.created)
    requires next.job.name in s.jobs && SameGeneration(s.jobs[next.job.name], prior) && next.gate == prior.gate
    requires next.id == s.created && next.active && next.ready && next.exposed
    ensures var t := Commit(s, prior, next);
            && Generations(t.jobs, t.retired, t.created + 1) && Accounted(t.jobs, t.retired, t.created + 1)
            && Policies(t.jobs, t.gates, t.created)
  {
    var name := next.job.name;
    var without, over := s.jobs - {name}, s.retired[prior.id := prior.Deactivate()];
    RetiringKeepsTable(s.jobs, s.retired, s.created, name, prior.Deactivate());
    AddingKeepsTable(without, over, s.created, next);
    assert without[name := next] == s.jobs[name := next];
  }

  lemma GivingUpKeepsTable(s: State, gone: Record, live: set<Handle>, aborted: Record, stuck: set<Handle>)
    requires Generations(s.jobs, s.retired, s.created) && Accounted(s.jobs, s.retired, s.created) && Policies(s.jobs, s.gates, s.created)
    requires aborted.job.name in s.jobs && SameGeneration(s.jobs[aborted.job.name], gone)
    requires aborted.id == s.created && !aborted.active && aborted.ready
    ensures var t := GivenUp(s.(live := live), gone, aborted, stuck);
            && Generations(t.jobs, t.retired, s.created + 1) && Accounted(t.jobs, t.retired, s.created + 1)
            && Policies(t.jobs, t.gates, s.created + 1)
  {
    var left := RemoveEngineJobs(aborted, live, stuck).0;
    var kept := gone.(cleanup := gone.cleanup + left.Held());
    HandlesKeepTable(s.jobs, s.retired, s.created, aborted.job.name, kept);
    AbortingKeepsTable(s.jobs[aborted.job.name := kept], s.retired, s.created, left.(inner := None, cleanup := {}));
  }

  lemma ReplaceKeepsTable(s: State, job: Job, f: Faults)
    requires Sound(s)
    ensures var t := Replace(s, job, f).0;
            Generations(t.jobs, t.retired, t.created) && Accounted(t.jobs, t.retired, t.created) && Policies(t.jobs, t.gates, t.created)
  {
    if !f.invalid && !s.stopped && !s.stopping && job.name in s.jobs {
      var prior := s.jobs[job.name];
      var next := NewRecord(s.created, job, prior.gate, !s.started);
      var installed := next.(inner := Some(s.issued));
      var (gone, live, ok) := RemoveEngineJobs(prior, s.live + {s.issued}, f.stuck);
      if !s.started {
        CommitKeepsTable(s, prior, next);
      } else if f.install {
        AbortingKeepsTable(s.jobs, s.retired, s.created, next.Abort());
      } else if ok {
        CommitKeepsTable(s.(live := live), gone, installed.Publish());
      } else {
        GivingUpKeepsTable(s, gone, live, installed.Abort(), f.stuck);
      }
    }
  }

  /** Both removals of a replacement that is not committed: of the old handles, and of the new one. */
  lemma FailedSwapRemovals(prior: Record, live: set<Handle>, installed: Record, stuck: set<Handle>)
    requires prior.Held() <= live && (prior.inner.Some? ==> prior.inner.value !in prior.cleanup)
    requires installed.inner.Some? && installed.inner.value !in live && installed.cleanup == {}
    requires !RemoveEngineJobs(prior, live + {installed.inner.value}, stuck).2
    ensures var (gone, rest, _) := RemoveEngineJobs(prior, live + {installed.inner.value}, stuck);
            var (left, last, _) := RemoveEngineJobs(installed, rest, stuck);
            && gone.inner == prior.inner && gone.Held() <= prior.Held() && SameGeneration(prior, gone)
            && (left.Held() == {} || left.Held() == {installed.inner.value})
            && last == live - (prior.Held() - gone.Held()) + left.Held()
  {
    var h := installed.inner.value;
    RemovalIsExact(prior, live + {h}, stuck);
    var (gone, rest, _) := RemoveEngineJobs(prior, live + {h}, stuck);
    assert rest == live - (prior.Held() - gone.Held()) + {h};
    RemovalIsExact(installed, rest, stuck);
  }

  /** The engine part of a replacement that is not committed: the new handle is gone or joins the stale ones. */
  lemma FailedSwapKeepsOwned(jobs: Jobs, live: set<Handle>, name: string, installed: Record, stuck: set<Handle>)
    requires Owned(jobs, live) && name in jobs
    requires installed.inner.Some? && installed.inner.value !in live && installed.cleanup == {}
    requires !RemoveEngineJobs(jobs[name], live + {installed.inner.value}, stuck).2
    ensures var (gone, rest, _) := RemoveEngineJobs(jobs[name], live + {installed.inner.value}, stuck);
            var (left, last, _) := RemoveEngineJobs(installed, rest, stuck);
            && gone.inner == jobs[name].inner
            && Owned(jobs[name := gone.(cleanup := gone.cleanup + left.Held())], last)
            && last <= live + {installed.inner.value}
  {
    var h := installed.inner.value;
    FailedSwapRemovals(jobs[name], live, installed, stuck);
    var (gone, rest, _) := RemoveEngineJobs(jobs[name], live + {h}, stuck);
    var (left, last, _) := RemoveEngineJobs(installed, rest, stuck);
    ReductionKeepsOwned(jobs, live, name, gone);
    OrphanOrNot(jobs[name := gone], live - (jobs[name].Held() - gone.Held()), name, h, left.Held());
    assert jobs[name := gone][name := gone.(cleanup := gone.cleanup + left.Held())]
        == jobs[name := gone.(cleanup := gone.cleanup + left.Held())];
  }

  lemma DoneSwapKeepsOwned(jobs: Jobs, live: set<Handle>, name: string, next: Record, stuck: set<Handle>)
    requires Owned(jobs, live) && name in jobs
    requires next.inner.Some? && next.inner.value !in live && next.cleanup == {}
    requires RemoveEngineJobs(jobs[name], live + {next.inner.value}, stuck).2
    ensures var left := RemoveEngineJobs(jobs[name], live + {next.inner.value}, stuck).1;
            Owned(jobs[name := next], left) && left <= live + {next.inner.value}
  {
    var h := next.inner.value;
    RemovalIsExact(jobs[name], live + {h}, stuck);
    RemovalKeepsOwned(jobs, live, name);
    AdditionKeepsOwned(jobs - {name}, live - jobs[name].Held(), name, next);
    assert live - jobs[name].Held() + {h} == live + {h} - jobs[name].Held();
    assert (jobs - {name})[name := next] == jobs[name := next];
  }

  lemma ReplaceKeepsOwnership(s: State, job: Job, f: Faults)
    requires Sound(s)
    ensures Ownership(Replace(s, job, f).0)
  {
    if !f.invalid && !s.stopped && !s.stopping && job.name in s.jobs && s.started && !f.install {
      var name, prior := job.name, s.jobs[job.name];
      var installed := NewRecord(s.created, job, prior.gate, false).(inner := Some(s.issued));
      if RemoveEngineJobs(prior, s.live + {s.issued}, f.stuck).2 {
        DoneSwapKeepsOwned(s.jobs, s.live, name, installed.Publish(), f.stuck);
      } else {
        FailedSwapKeepsOwned(s.jobs, s.live, name, installed.Abort(), f.stuck);
      }
    }
  }

  // ---------------------------------------------------------------------------------------------
  // What each operation promises its caller
  // ---------------------------------------------------------------------------------------------

  /** What runs under each name. */
  function Definitions(jobs: Jobs): map<string, Job> {
    map n | n in jobs :: jobs[n].job
  }

  lemma DefinitionsWith(jobs: Jobs, name: string, record: Record)
    ensures Definitions(jobs[name := record]) == Definitions(jobs)[name := record.job]
  {
  }

  /** The generations made by a call that committed none of them were never open to a trigger. */
  ghost predicate OnlyAborted(s: State, t: State) {
    forall id :: id in t.retired && id !in s.retired ==> t.retired[id].Stage() == Aborted
  }

  /** Nothing but the stale handles of `name` differs among the registered generations. */
  ghost predicate Kept(s: State, t: State, name: string) {
    && t.jobs.Keys == s.jobs.Keys
    && (forall n :: n in s.jobs && n != name ==> t.jobs[n] == s.jobs[n])
    && (name in s.jobs ==> t.jobs[name] == s.jobs[name].(cleanup := t.jobs[name].cleanup))
  }

  /** Replace commits exactly when nothing stands in its way. */
  lemma ReplaceCommitsExactlyWhen(s: State, job: Job, f: Faults)
    requires Sound(s)
    ensures Replace(s, job, f).1.Success? <==>
              && !f.invalid && !s.stopped && !s.stopping && job.name in s.jobs
              && (s.started ==> !f.install && s.jobs[job.name].Held() !! f.stuck)
  {
    if job.name in s.jobs && s.started {
      RemovalIsExact(s.jobs[job.name], s.live + {s.issued}, f.stuck);
      assert s.jobs[job.name].Held() <= s.live;
    }
  }

  /** Of the reasons to refuse a call, the first in this order is the one given. */
  lemma RefusalsAreExplained(s: State, job: Job, f: Faults)
    requires Sound(s)
    ensures var r, open := Add(s, job, f).1, !f.invalid && !s.stopped && !s.stopping;
            && (r == Failure(Invalid) <==> f.invalid)
            && (r == Failure(Stopped) <==> !f.invalid && (s.stopped || s.stopping))
            && (r == Failure(DuplicateJob) <==> open && job.name in s.jobs)
            && (r == Failure(EngineFailed) <==> open && job.name !in s.jobs && s.started && f.install)
    ensures var r, open := Replace(s, job, f).1, !f.invalid && !s.stopped && !s.stopping;
            && (r == Failure(Invalid) <==> f.invalid)
            && (r == Failure(Stopped) <==> !f.invalid && (s.stopped || s.stopping))
            && (r == Failure(JobNotFound) <==> open && job.name !in s.jobs)
            && (r == Failure(EngineFailed)
                <==> open && job.name in s.jobs && s.started && (f.install || s.jobs[job.name].Held() * f.stuck != {}))
  {
    if job.name in s.jobs && s.started {
      RemovalIsExact(s.jobs[job.name], s.live + {s.issued}, f.stuck);
      assert s.jobs[job.name].Held() <= s.live;
    }
  }

  /** A committed replacement retires the old generation and takes over its gate with its queued work. */
  lemma CommittedReplaceHandsOverTheGate(s: State, job: Job, f: Faults)
    requires Sound(s) && Replace(s, job, f).1.Success?
    ensures var t, prior := Replace(s, job, f).0, s.jobs[job.name];
            && Definitions(t.jobs) == Definitions(s.jobs)[job.name := job]
            && prior.id in t.retired && t.retired[prior.id].Stage() == Retired
            && t.jobs[job.name].gate == prior.gate
            && t.gates == s.gates[prior.gate := s.gates[prior.gate].(policy := job.policy)]
            && (s.started ==> t.jobs[job.name].Held() == {s.issued})
            && (forall n :: n in s.jobs && n != job.name ==> t.jobs[n] == s.jobs[n])
  {
  }

  /** What is left of the old generation, and who has its name now. */
  lemma CommittedReplaceRetires(s: State, job: Job, f: Faults)
    requires Sound(s) && Replace(s, job, f).1.Success?
    ensures var t, prior := Replace(s, job, f).0, s.jobs[job.name];
            && prior.id in t.retired && SameGeneration(prior.Deactivate(), t.retired[prior.id])
            && job.name in t.jobs && t.jobs[job.name].id == s.created && prior.id < s.created && prior.exposed
  {
  }

  lemma FailedSwapKeepsTheOld(s: State, job: Job, f: Faults)
    requires Sound(s) && Replace(s, job, f).1.Failure? && job.name in s.jobs && s.started
    ensures Kept(s, Replace(s, job, f).0, job.name)
  {
    RemovalIsExact(s.jobs[job.name], s.live + {s.issued}, f.stuck);
  }

  /**
   A replacement that does not commit leaves the old generation active with its primary handle in the
   engine, and the gate as it was. Its own generation was never open to a trigger.
   */
  lemma FailedReplaceKeepsTheOld(s: State, job: Job, f: Faults)
    requires Sound(s) && Replace(s, job, f).1.Failure?
    ensures var t := Replace(s, job, f).0;
            && Kept(s, t, job.name) && t.gates == s.gates && OnlyAborted(s, t)
            && (s.started && job.name in s.jobs ==> t.jobs[job.name].inner.value in t.live)
  {
    if job.name in s.jobs && s.started {
      ReplaceKeepsOwnership(s, job, f);
      FailedSwapKeepsTheOld(s, job, f);
      var t := Replace(s, job, f).0;
      assert t.jobs[job.name].inner.value in t.jobs[job.name].Held();
    }
  }

  /** Remove succeeds exactly when the job is there and none of its engine jobs is stuck. */
  lemma RemoveSucceedsExactlyWhen(s: State, name: string, stuck: set<Handle>)
    requires Sound(s)
    ensures Remove(s, name, stuck).1.Success? <==> name in s.jobs && (s.started ==> s.jobs[name].Held() !! stuck)
    ensures Remove(s, name, stuck).1 == Failure(JobNotFound) <==> name !in s.jobs
  {
    if name in s.jobs && s.started {
      RemovalIsExact(s.jobs[name], s.live, stuck);
    }
  }

  /** Remove deletes exactly the named job, or keeps it active with its primary handle in the engine. */
  lemma RemoveDeletesOrKeeps(s: State, name: string, stuck: set<Handle>)
    requires Sound(s)
    ensures var (t, r) := Remove(s, name, stuck);
            && t.gates == s.gates
            && (r.Success? ==>
                  && t.jobs == s.jobs - {name}
                  && s.jobs[name].id in t.retired && t.retired[s.jobs[name].id].Stage() == Retired
                  && (s.started ==> t.live == s.live - s.jobs[name].Held()))
            && (r.Failure? ==>
                  && Kept(s, t, name) && t.retired == s.retired
                  && (s.started && name in s.jobs ==> t.jobs[name].inner.value in t.live))
  {
    if name in s.jobs && s.started {
      RemovalIsExact(s.jobs[name], s.live, stuck);
      var (after, rest, ok) := RemoveEngineJobs(s.jobs[name], s.live, stuck);
      assert after.inner.Some? ==> after.inner.value in after.Held();
      assert s.jobs[name].Held() <= s.live;
    }
  }

  lemma AddedAlone(s: State, job: Job, f: Faults)
    requires Sound(s) && Add(s, job, f).1.Success?
    ensures var t := Add(s, job, f).0;
            && Definitions(t.jobs) == Definitions(s.jobs)[job.name := job]
            && (forall n :: n in s.jobs ==> t.jobs[n] == s.jobs[n])
            && t.jobs[job.name].gate !in s.gates && t.gates[t.jobs[job.name].gate] == Idle(job.policy)
  {
    var t := Add(s, job, f).0;
    var record := t.jobs[job.name];
    assert t.jobs == s.jobs[job.name := record];
    DefinitionsWith(s.jobs, job.name, record);
  }

  /** Add registers a job under a free name with a gate of its own, or registers nothing. */
  lemma AddRegistersOrNot(s: State, job: Job, f: Faults)
    requires Sound(s)
    ensures var (t, r) := Add(s, job, f);
            && (r.Success? <==>
                  && !f.invalid && !s.stopped && !s.stopping && job.name !in s.jobs && (s.started ==> !f.install))
            && (r.Success? ==>
                  && Definitions(t.jobs) == Definitions(s.jobs)[job.name := job]
                  && (forall n :: n in s.jobs ==> t.jobs[n] == s.jobs[n])
                  && t.jobs[job.name].gate !in s.gates
                  && t.gates[t.jobs[job.name].gate] == Idle(job.policy))
            && (r.Failure? ==> t.jobs == s.jobs && t.live == s.live && OnlyAborted(s, t))
  {
    if Add(s, job, f).1.Success? {
      AddedAlone(s, job, f);
    }
  }

  // ---------------------------------------------------------------------------------------------
  // Every sequence of operations
  // ---------------------------------------------------------------------------------------------

  /** The handle of each name and the name of each handle, as two maps inverse to each other. */
  datatype Assignment = Assignment(handles: map<string, Handle>, names: map<Handle, string>) {
    predicate Valid() {
      && (forall n :: n in handles ==> handles[n] in names && names[handles[n]] == n)
      && (forall h :: h in names ==> names[h] in handles && handles[names[h]] == h)
    }

    function With(name: string, h: Handle): Assignment {
      Assignment(handles[name := h], names[h := name])
    }
  }

  /** All but `todo` of the jobs are installed, as `a` says; nothing but the handles of records has changed. */
  ghost predicate Installed(before: Jobs, jobs: Jobs, a: Assignment, todo: set<string>, live: set<Handle>, issued: nat) {
    && todo <= jobs.Keys == before.Keys && a.Valid() && a.handles.Keys == jobs.Keys - todo && a.names.Keys == live
    && (forall h :: h in live ==> h < issued)
    && (forall n :: n in jobs ==> jobs[n] == before[n].(inner := jobs[n].inner))
    && (forall n :: n in a.handles ==> jobs[n].inner == Some(a.handles[n]))
  }

  lemma AllInstalled(before: Jobs, jobs: Jobs, a: Assignment, live: set<Handle>, issued: nat)
    requires Installed(before, jobs, a, {}, live, issued)
    ensures jobs == map n | n in before :: before[n].(inner := Some(a.handles[n]))
    ensures a.handles.Keys == before.Keys
  {
  }

  lemma InstalledOneMore(
    before: Jobs, jobs: Jobs, a: Assignment, todo: set<string>, live: set<Handle>, issued: nat, name: string)
    requires Installed(before, jobs, a, todo, live, issued) && name in todo
    ensures Installed(before, jobs[name := jobs[name].(inner := Some(issued))], a.With(name, issued), todo - {name},
                      live + {issued}, issued + 1)
  {
    assert issued !in a.names && name !in a.handles;
    assert (a.handles.Keys + {name}) == jobs.Keys - (todo - {name});
  }

  /** Start installed every registered job in a new engine, in any order, as `a` says. */
  ghost predicate StartedFrom(s: State, a: Assignment, t: State) {
    && !s.stopped && !s.stopping && !s.started
    && a.Valid() && a.handles.Keys == s.jobs.Keys
    && (forall h :: h in a.names ==> h < t.issued)
    && t == s.(jobs := map n | n in s.jobs :: s.jobs[n].(inner := Some(a.handles[n])),
               live := a.names.Keys, issued := t.issued, started := true)
  }

  /** Start gave up: the engine is gone, though some records still name a job in it. */
  ghost predicate StartAbandoned(s: State, t: State) {
    && !s.started && t.jobs.Keys == s.jobs.Keys && t.issued >= s.issued
    && (forall n :: n in t.jobs ==> t.jobs[n] == s.jobs[n].(inner := t.jobs[n].inner))
    && t == s.(jobs := t.jobs, live := {}, issued := t.issued)
  }

  datatype Operation =
    | OpStart(assignment: Assignment)
    | OpAdd(job: Job, faults: Faults)
    | OpReplace(job: Job, faults: Faults)
    | OpRemove(name: string, stuck: set<Handle>)
    | OpStop
    | OpStopped
    | OpGate(gate: GateId, after: GateState)  // a trigger or a finished execution passes through a gate

  ghost predicate Step(s: State, op: Operation, t: State) {
    match op
    case OpStart(a) => StartedFrom(s, a, t) || StartAbandoned(s, t)
    case OpAdd(job, f) => t == Add(s, job, f).0
    case OpReplace(job, f) => t == Replace(s, job, f).0
    case OpRemove(name, stuck) => t == Remove(s, name, stuck).0
    case OpStop => t == s.(stopping := true)
    case OpStopped => t == s.(stopping := false, stopped := true)
    case OpGate(g, after) =>
      g in s.gates && after.policy == s.gates[g].policy && t == s.(gates := s.gates[g := after])
  }

  // ---------------------------------------------------------------------------------------------
  // What others can see of an operation while it holds the lock
  // ---------------------------------------------------------------------------------------------

  /**
   The steps of an operation that a trigger can notice, or that decide whom a name belongs to: a generation
   is made, its engine job can fire, its flags change, a name changes hands, a gate's policy changes.
   */
  datatype Act =
    | Make(id: RecordId, job: Job, gate: GateId)
    | Install(ids: set<RecordId>)
    | SetActive(id: RecordId)
    | ClearActive(id: RecordId)
    | CloseReady(id: RecordId)
    | Register(name: string, id: RecordId)
    | Unregister(name: string)
    | Govern(gate: GateId, policy: OverlapPolicy)

  function Publishing(id: RecordId): seq<Act> {
    [SetActive(id), CloseReady(id)]
  }

  function AddScript(s: State, job: Job, f: Faults): seq<Act> {
    var id := s.created;
    if f.invalid || s.stopped || s.stopping || job.name in s.jobs then []
    else if !s.started then [Make(id, job, id)] + Publishing(id) + [Register(job.name, id)]
    else if f.install then [Make(id, job, id), CloseReady(id)]
    else [Make(id, job, id), Install({id}), Register(job.name, id)] + Publishing(id)
  }

  /** The old generation gives way before the new one is registered and published. */
  function Handover(prior: Record, job: Job, id: RecordId): seq<Act> {
    [ClearActive(prior.id), Govern(prior.gate, job.policy), Register(job.name, id)]
  }

  function ReplaceScript(s: State, job: Job, f: Faults): seq<Act> {
    var id := s.created;
    if f.invalid || s.stopped || s.stopping || job.name !in s.jobs then []
    else
      var prior := s.jobs[job.name];
      var made := Make(id, job, prior.gate);
      if !s.started then [made] + Publishing(id) + Handover(prior, job, id)
      else if f.install then [made, CloseReady(id)]
      else if !RemoveEngineJobs(prior, s.live + {s.issued}, f.stuck).2 then [made, Install({id}), CloseReady(id)]
      else [made, Install({id})] + Handover(prior, job, id) + Publishing(id)
  }

  function RemoveScript(s: State, name: string, stuck: set<Handle>): seq<Act> {
    if name !in s.jobs || (s.started && !RemoveEngineJobs(s.jobs[name], s.live, stuck).2) then []
    else [ClearActive(s.jobs[name].id), Unregister(name)]
  }

  function Registered(jobs: Jobs): set<RecordId> {
    set n | n in jobs :: jobs[n].id
  }

  function Script(s: State, op: Operation): seq<Act> {
    match op
    case OpStart(_) => [Install(Registered(s.jobs))]
    case OpAdd(job, f) => AddScript(s, job, f)
    case OpReplace(job, f) => ReplaceScript(s, job, f)
    case OpRemove(name, stuck) => RemoveScript(s, name, stuck)
    case _ => []
  }

  /** The gate's own sections never change its policy, so OpGate covers them. */
  lemma SectionsKeepPolicy(g: GateState, token: Token, handler: Handler)
    ensures Admit(g, token, Some(handler)).0.policy == g.policy
    ensures Complete(g, token, handler).0.policy == g.policy
  {
  }

  lemma StartKeepsTable(s: State, a: Assignment, t: State)
    requires Sound(s) && (StartedFrom(s, a, t) || StartAbandoned(s, t))
    ensures Generations(t.jobs, t.retired, t.created) && Accounted(t.jobs, t.retired, t.created) && Policies(t.jobs, t.gates, t.created)
  {
    forall id: RecordId | id < t.created && id !in t.retired
      ensures InUse(t.jobs, id)
    {
      assert InUse(s.jobs, id);
      var n :| n in s.jobs && s.jobs[n].id == id;
      assert t.jobs[n].id == id;
    }
  }

  lemma InstalledIsOwned(jobs: Jobs, a: Assignment)
    requires a.Valid() && a.handles.Keys == jobs.Keys
    requires forall n :: n in jobs ==> jobs[n].inner == Some(a.handles[n]) && jobs[n].cleanup == {}
    ensures Owned(jobs, a.names.Keys)
  {
    forall n | n in jobs
      ensures forall h :: h in jobs[n].Held() <==> h == a.handles[n]
    {
    }
    forall n, h | n in jobs && h in jobs[n].Held()
      ensures h in a.names && a.names[h] == n
    {
    }
    forall h | h in a.names.Keys
      ensures exists n :: n in jobs && h in jobs[n].Held()
    {
      assert h in jobs[a.names[h]].Held();
    }
  }

  lemma StartKeepsOwnership(s: State, a: Assignment, t: State)
    requires Ownership(s) && (StartedFrom(s, a, t) || StartAbandoned(s, t))
    ensures Ownership(t)
  {
    if t.started {
      InstalledIsOwned(t.jobs, a);
    }
  }

  lemma StepIsSound(s: State, op: Operation, t: State)
    requires Sound(s) && Step(s, op, t)
    ensures Sound(t)
  {
    match op {
      case OpStart(a) =>
        StartKeepsTable(s, a, t);
        StartKeepsOwnership(s, a, t);
      case OpAdd(job, f) =>
        AddKeepsTable(s, job, f);
        AddKeepsOwnership(s, job, f);
      case OpReplace(job, f) =>
        ReplaceKeepsTable(s, job, f);
        ReplaceKeepsOwnership(s, job, f);
      case OpRemove(name, stuck) =>
        RemoveKeepsTable(s, name, stuck);
        RemoveKeepsOwnership(s, name, stuck);
      case OpStop =>
      case OpStopped =>
      case OpGate(_, _) =>
    }
  }

  /** `states` is what `ops` drive a fresh scheduler through. */
  ghost predicate IsHistory(states: seq<State>, ops: seq<Operation>) {
    && |states| == |ops| + 1
    && states[0] == NewState()
    && forall i :: 0 <= i < |ops| ==> Step(states[i], ops[i], states[i + 1])
  }

  lemma {:induction false} HistoryIsSound(states: seq<State>, ops: seq<Operation>, i: nat)
    requires IsHistory(states, ops) && i <= |ops|
    ensures Sound(states[i])
  {
    if i > 0 {
      HistoryIsSound(states, ops, i - 1);
      StepIsSound(states[i - 1], ops[i - 1], states[i]);
    }
  }

  /**
   In every reachable state, a record is active exactly when it is the one registered under its name,
   every record ever made has its ready channel closed, and the gate policy is the registered one.
   */
  lemma SettledWheneverUnlocked(states: seq<State>, ops: seq<Operation>, i: nat, id: RecordId)
    requires IsHistory(states, ops) && i <= |ops| && id < states[i].created
    ensures var s := states[i];
            if id in s.retired then s.retired[id].ready && !s.retired[id].active
            else exists n :: && n in s.jobs && s.jobs[n].id == id && s.jobs[n].job.name == n
                             && s.jobs[n].active && s.jobs[n].ready && s.jobs[n].gate in s.gates
                             && s.gates[s.jobs[n].gate].policy == s.jobs[n].job.policy
  {
    HistoryIsSound(states, ops, i);
    var s := states[i];
    if id !in s.retired {
      assert InUse(s.jobs, id);
    }
  }

  /** In every reachable started state a live engine handle has exactly one registered owner. */
  lemma EveryHandleHasOneOwner(states: seq<State>, ops: seq<Operation>, i: nat, h: Handle)
    requires IsHistory(states, ops) && i <= |ops| && states[i].started
    ensures var s := states[i];
            && (h in s.live <==> exists n :: n in s.jobs && h in s.jobs[n].Held())
            && (forall n, m :: n in s.jobs && m in s.jobs && h in s.jobs[n].Held() && h in s.jobs[m].Held() ==> n == m)
  {
    HistoryIsSound(states, ops, i);
  }

  // ---------------------------------------------------------------------------------------------
  // The operations, step by step
  // ---------------------------------------------------------------------------------------------

  class Scheduler {
    var jobs: Jobs
    var retired: map<RecordId, Record>
    var gates: map<GateId, GateState>
    var created: nat
    var live: set<Handle>
    var issued: nat
    var started: bool
    var stopped: bool
    var stopping: bool
    ghost var acts: seq<Act>  // what others could see of the latest operation

    function View(): State
      reads this
    {
      State(jobs, retired, gates, created, live, issued, started, stopped, stopping)
    }

    constructor ()
      ensures View() == NewState() && acts == []
    {
      jobs, retired, gates, created := map[], map[], map[], 0;
      live, issued := {}, 0;
      started, stopped, stopping, acts := false, false, false, [];
    }

    /** The engine refuses to remove a stuck handle, and one it does not have. */
    method RemoveJob(h: Handle, stuck: set<Handle>) returns (ok: bool)
      modifies `live
      ensures ok == (h in old(live) && h !in stuck)
      ensures live == if ok then old(live) - {h} else old(live)
    {
      ok := h in live && h !in stuck;
      if ok {
        live := live - {h};
      }
    }

    method RemoveHandles(record: Record, stuck: set<Handle>) returns (after: Record, ok: bool)
      modifies `live
      ensures (after, live, ok) == RemoveEngineJobs(record, old(live), stuck)
    {
      after := record;
      var pending, remaining: set<Handle> := record.cleanup, {};
      while pending != {}
        invariant pending <= record.cleanup
        invariant remaining == (record.cleanup - pending) - (old(live) - stuck)
        invariant live == old(live) - ((record.cleanup - pending) * (old(live) - stuck))
      {
        var h :| h in pending;
        var removed := RemoveJob(h, stuck);
        if !removed {
          remaining := remaining + {h};
        }
        pending := pending - {h};
      }
      assert record.cleanup - pending == record.cleanup;
      after := after.(cleanup := remaining);
      if remaining != {} {
        return after, false;
      }
      if record.inner.Some? {
        var removed := RemoveJob(record.inner.value, stuck);
        if !removed {
          return after, false;
        }
        after := after.(inner := None);
      }
      return after, true;
    }

    /** Installs the registered jobs in an empty engine, in any order, until NewJob fails, as it does for those refused. */
    method InstallAll(refused: set<string>) returns (ok: bool, ghost a: Assignment, ghost todo: set<string>)
      modifies `jobs, `live, `issued
      ensures ok <==> old(jobs).Keys !! refused
      ensures issued >= old(issued) && Installed(old(jobs), jobs, a, todo, live, issued)
      ensures ok ==> todo == {}
    {
      a := Assignment(map[], map[]);
      live := {};
      var left := jobs.Keys;
      while left != {}
        invariant issued >= old(issued) && Installed(old(jobs), jobs, a, left, live, issued) && (old(jobs).Keys - left) !! refused
      {
        var name :| name in left;
        if name in refused {
          return false, a, left;
        }
        InstalledOneMore(old(jobs), jobs, a, left, live, issued, name);
        jobs := jobs[name := jobs[name].(inner := Some(issued))];
        a := a.With(name, issued);
        live := live + {issued};
        issued := issued + 1;
        left := left - {name};
      }
      return true, a, left;
    }

    /** `made`: the engine could be created; `refused`: the jobs it does not take. */
    method StartAll(made: bool, refused: set<string>) returns (r: Outcome, ghost a: Assignment)
      modifies this
      ensures r.Success? <==> !old(stopped || stopping || started) && made && old(jobs).Keys !! refused
      ensures r.Success? ==> StartedFrom(old(View()), a, View())
      ensures r == Failure(EngineFailed) ==> StartAbandoned(old(View()), View())
      ensures r.Failure? && r.error != EngineFailed ==> View() == old(View())
      ensures old(stopped || stopping) ==> r == Failure(Stopped)
      ensures !old(stopped || stopping) && old(started) ==> r == Failure(AlreadyStarted)
    {
      a := Assignment(map[], map[]);
      if stopped || stopping {
        return Failure(Stopped), a;
      }
      if started {
        return Failure(AlreadyStarted), a;
      }
      var ok;
      ghost var todo;
      if !made {
        live := {};
        return Failure(EngineFailed), a;
      }
      ok, a, todo := InstallAll(refused);
      if !ok {
        live := {};
        return Failure(EngineFailed), a;
      }
      AllInstalled(old(jobs), jobs, a, live, issued);
      started := true;
      return Success, a;
    }

    method AddJob(job: Job, f: Faults) returns (r: Outcome)
      modifies this
      ensures (View(), r) == Add(old(View()), job, f)
      ensures acts == AddScript(old(View()), job, f)
    {
      acts := [];
      if f.invalid {
        return Failure(Invalid);
      }
      if stopped || stopping {
        return Failure(Stopped);
      }
      if job.name in jobs {
        return Failure(DuplicateJob);
      }
      r := Enroll(job, f, View());
    }

    /** The record, its engine job if the engine runs, and its registration. */
    method Enroll(job: Job, f: Faults, ghost s: State) returns (r: Outcome)
      requires View() == s && acts == [] && !f.invalid && !stopped && !stopping && job.name !in jobs
      modifies this
      ensures (View(), r) == Add(s, job, f)
      ensures acts == AddScript(s, job, f)
    {
      var record := NewRecord(created, job, created, !started);
      gates := gates[created := Idle(job.policy)];
      created := created + 1;
      if !started {
        acts := [Make(record.id, job, record.gate)] + Publishing(record.id);
        jobs := jobs[job.name := record];
        acts := acts + [Register(job.name, record.id)];
        return Success;
      }
      acts := [Make(record.id, job, record.gate)];
      if f.install {
        retired := retired[record.id := record.Abort()];
        acts := acts + [CloseReady(record.id)];
        return Failure(EngineFailed);
      }
      record := record.(inner := Some(issued));
      live, issued := live + {issued}, issued + 1;
      acts := acts + [Install({record.id})];
      Enter(record);
      return Success;
    }

    /** Registers a record and publishes it. */
    method Enter(record: Record)
      modifies `jobs, `acts
      ensures View() == old(View()).(jobs := old(jobs)[record.job.name := record.Publish()])
      ensures acts == old(acts) + [Register(record.job.name, record.id)] + Publishing(record.id)
    {
      jobs := jobs[record.job.name := record];
      acts := acts + [Register(record.job.name, record.id)];
      jobs := jobs[record.job.name := record.Publish()];
      acts := acts + Publishing(record.id);
      assert jobs == old(jobs)[record.job.name := record.Publish()];
    }

    method ReplaceJob(job: Job, f: Faults) returns (r: Outcome)
      modifies this
      ensures (View(), r) == Replace(old(View()), job, f)
      ensures acts == ReplaceScript(old(View()), job, f)
    {
      acts := [];
      if f.invalid {
        return Failure(Invalid);
      }
      if stopped || stopping {
        return Failure(Stopped);
      }
      if job.name !in jobs {
        return Failure(JobNotFound);
      }
      if !started {
        TakeOver(job, View());
        return Success;
      }
      r := Swap(job, f, View());
    }

    /** Before the engine runs there is nothing that could fail. */
    method TakeOver(job: Job, ghost s: State)
      requires View() == s && acts == [] && !stopped && !stopping && !started && job.name in jobs
      modifies this
      ensures (View(), Success) == Replace(s, job, Faults(false, false, {}))
      ensures acts == ReplaceScript(s, job, Faults(false, false, {}))
    {
      var prior := jobs[job.name];
      var replacement := NewRecord(created, job, prior.gate, true);
      created := created + 1;
      acts := [Make(replacement.id, job, prior.gate)] + Publishing(replacement.id);
      HandOver(prior, replacement);
    }

    /** The old generation gives way, and the new one is registered in its place. */
    method HandOver(prior: Record, replacement: Record)
      requires replacement.gate == prior.gate
      modifies `retired, `gates, `jobs, `acts
      ensures View() == Commit(old(View()), prior, replacement)
      ensures acts == old(acts) + Handover(prior, replacement.job, replacement.id)
    {
      retired := retired[prior.id := prior.Deactivate()];
      acts := acts + [ClearActive(prior.id)];
      gates := SetPolicy(gates, replacement.gate, replacement.job.policy);
      acts := acts + [Govern(replacement.gate, replacement.job.policy)];
      jobs := jobs[replacement.job.name := replacement];
      acts := acts + [Register(replacement.job.name, replacement.id)];
    }

    /** Installs the replacement and removes the old engine jobs; gives the replacement up if either fails. */
    method Swap(job: Job, f: Faults, ghost s: State) returns (r: Outcome)
      requires View() == s && acts == [] && !f.invalid && !stopped && !stopping && started && job.name in jobs
      modifies this
      ensures (View(), r) == Replace(s, job, f)
      ensures acts == ReplaceScript(s, job, f)
    {
      var replacement := NewRecord(created, job, jobs[job.name].gate, false);
      created := created + 1;
      acts := [Make(replacement.id, job, replacement.gate)];
      if f.install {
        retired := retired[replacement.id := replacement.Abort()];
        acts := acts + [CloseReady(replacement.id)];
        return Failure(EngineFailed);
      }
      replacement := replacement.(inner := Some(issued));
      live, issued := live + {issued}, issued + 1;
      acts := acts + [Install({replacement.id})];
      r := Settle(replacement, f.stuck);
    }

    /** The old engine jobs go and the replacement takes over, or the old generation stays. */
    method Settle(replacement: Record, stuck: set<Handle>) returns (r: Outcome)
      requires replacement.job.name in jobs && replacement.gate == jobs[replacement.job.name].gate
      modifies `live, `jobs, `retired, `gates, `acts
      ensures var s := old(View());
              var prior := s.jobs[replacement.job.name];
              var (gone, live, ok) := RemoveEngineJobs(prior, s.live, stuck);
              && r == (if ok then Success else Failure(EngineFailed))
              && View() == (if ok then Commit(s.(live := live), gone, replacement.Publish())
                            else GivenUp(s.(live := live), gone, replacement.Abort(), stuck))
              && acts == old(acts) + if ok then Handover(prior, replacement.job, replacement.id) + Publishing(replacement.id)
                                     else [CloseReady(replacement.id)]
    {
      var prior := jobs[replacement.job.name];
      ghost var (after, rest, free) := RemoveEngineJobs(prior, live, stuck);
      var gone, ok := RemoveHandles(prior, stuck);
      if !ok {
        GiveUp(gone, replacement.Abort(), stuck);
        return Failure(EngineFailed);
      }
      HandOver(gone, replacement);
      jobs := jobs[replacement.job.name := replacement.Publish()];
      acts := acts + Publishing(replacement.id);
      assert jobs == old(jobs)[replacement.job.name := replacement.Publish()];
      return Success;
    }

    /** What cannot be removed of an aborted replacement joins the stale handles of the old generation. */
    method GiveUp(gone: Record, aborted: Record, stuck: set<Handle>)
      modifies `live, `jobs, `retired, `acts
      ensures View() == GivenUp(old(View()), gone, aborted, stuck)
      ensures acts == old(acts) + [CloseReady(aborted.id)]
    {
      acts := acts + [CloseReady(aborted.id)];
      var left, _ := RemoveHandles(aborted, stuck);
      jobs := jobs[aborted.job.name := gone.(cleanup := gone.cleanup + left.Held())];
      retired := retired[left.id := left.(inner := None, cleanup := {})];
    }

    method RemoveByName(name: string, stuck: set<Handle>) returns (r: Outcome)
      modifies this
      ensures (View(), r) == Remove(old(View()), name, stuck)
      ensures acts == RemoveScript(old(View()), name, stuck)
    {
      acts := [];
      if name !in jobs {
        return Failure(JobNotFound);
      }
      var record := jobs[name];
      if started {
        var ok;
        record, ok := RemoveHandles(record, stuck);
        if !ok {
          jobs := jobs[name := record];
          return Failure(EngineFailed);
        }
      }
      retired := retired[record.id := record.Deactivate()];
      acts := acts + [ClearActive(record.id)];
      jobs := jobs - {name};
      acts := acts + [Unregister(name)];
      return Success;
    }
  }
}
