/**
 Triggers against the manager: an engine trigger of a job generation looks whether its generation is active,
 waits if it is not published yet, looks again, and only then enters the gate. It holds no lock meanwhile,
 so operations of the manager proceed between any two of its steps, and it proceeds between any two steps of
 an operation.

 An operation is the script of its visible acts (module Manager). A world is the manager, the rest of the
 script of the operation that holds the lock, what can be seen of every generation, and every trigger.
 */
module Generations {
  import opened Wrappers
  import Gate
  import opened Manager

  /** What can be seen of a generation. `exposed`: it has been active; `listed`: it has been registered. */
  datatype Generation = Generation(
    name: string, gate: GateId, active: bool, ready: bool, exposed: bool, installed: bool, listed: bool)

  function StageOf(g: Generation): Stage {
    if g.active then Active else if g.exposed then Retired else if g.ready then Aborted else Pending
  }

  /** The stages a generation may go through from `before` on. */
  predicate CanBecome(before: Stage, after: Stage) {
    before == after || before == Pending || (before == Active && after == Retired)
  }

  type Table = map<RecordId, Generation>

  /** All generations, which of them each name belongs to, and the policy of each gate. */
  datatype View = View(all: Table, registry: map<string, RecordId>, policies: map<GateId, Gate.OverlapPolicy>)

  function Apply(v: View, act: Act): View {
    match act
    case Make(id, job, gate) =>
      v.(all := v.all[id := Generation(job.name, gate, false, false, false, false, false)],
         policies := if gate in v.policies then v.policies else v.policies[gate := job.policy])
    case Install(ids) => v.(all := map id | id in v.all :: if id in ids then v.all[id].(installed := true) else v.all[id])
    case SetActive(id) => if id in v.all then v.(all := v.all[id := v.all[id].(active := true, exposed := true)]) else v
    case ClearActive(id) => if id in v.all then v.(all := v.all[id := v.all[id].(active := false)]) else v
    case CloseReady(id) => if id in v.all then v.(all := v.all[id := v.all[id].(ready := true)]) else v
    case Register(name, id) =>
      if id in v.all then v.(all := v.all[id := v.all[id].(listed := true)], registry := v.registry[name := id]) else v
    case Unregister(name) => v.(registry := v.registry - {name})
    case Govern(gate, policy) => v.(policies := v.policies[gate := policy])
  }

  function ApplyAll(v: View, script: seq<Act>): View
    decreases |script|
  {
    if script == [] then v else ApplyAll(Apply(v, script[0]), script[1..])
  }

  // ---------------------------------------------------------------------------------------------
  // Which acts are in order
  // ---------------------------------------------------------------------------------------------

  /** The name has a registered generation, and it is `id`. */
  predicate Holds(v: View, name: string, id: RecordId) {
    name in v.registry && v.registry[name] == id
  }

  /** Whoever holds the name is not active. */
  predicate GaveWay(v: View, name: string) {
    name in v.registry ==> v.registry[name] in v.all && !v.all[v.registry[name]].active
  }

  ghost predicate Legal(v: View, act: Act) {
    match act
    case Make(id, _, _) => id !in v.all
    case Install(ids) =>
      forall id :: id in ids ==> id in v.all && (v.all[id].active ==> Holds(v, v.all[id].name, id))
    case SetActive(id) =>
      id in v.all && StageOf(v.all[id]) == Pending && (v.all[id].installed ==> Holds(v, v.all[id].name, id))
    case ClearActive(id) => id in v.all && v.all[id].active
    case CloseReady(id) => id in v.all && StageOf(v.all[id]) in {Pending, Active}
    case Register(name, id) =>
      && id in v.all && v.all[id].name == name && !v.all[id].listed && GaveWay(v, name)
      && (name in v.registry ==> v.registry[name] in v.all && v.all[v.registry[name]].gate == v.all[id].gate)
    case Unregister(name) => GaveWay(v, name)
    case Govern(gate, _) => gate in v.policies
  }

  ghost predicate LegalAll(v: View, script: seq<Act>)
    decreases |script|
  {
    script == [] || (Legal(v, script[0]) && LegalAll(Apply(v, script[0]), script[1..]))
  }

  /** An active generation that can fire is the one its name belongs to; names belong to listed generations. */
  ghost predicate Proper(v: View) {
    && (forall id :: id in v.all && v.all[id].active && v.all[id].installed ==> Holds(v, v.all[id].name, id))
    && (forall id :: id in v.all && v.all[id].active ==> v.all[id].exposed)
    && (forall id :: id in v.all ==> v.all[id].gate in v.policies)
    && (forall n :: n in v.registry ==>
          v.registry[n] in v.all && v.all[v.registry[n]].name == n && v.all[v.registry[n]].listed)
  }

  lemma ApplyKeepsProper(v: View, act: Act)
    requires Proper(v) && Legal(v, act)
    ensures Proper(Apply(v, act))
  {
  }

  /** One act takes a generation at most one stage on, and never takes anything else from it. */
  lemma ApplyMovesStage(v: View, act: Act, id: RecordId)
    requires Legal(v, act) && id in v.all && (v.all[id].active ==> v.all[id].exposed)
    ensures var w := Apply(v, act);
            && id in w.all && CanBecome(StageOf(v.all[id]), StageOf(w.all[id]))
            && w.all[id].name == v.all[id].name && w.all[id].gate == v.all[id].gate
            && (v.all[id].listed ==> w.all[id].listed) && (v.all[id].exposed ==> w.all[id].exposed)
  {
  }

  // ---------------------------------------------------------------------------------------------
  // Scripts are in order, and lead to what the operation promises
  // ---------------------------------------------------------------------------------------------

  /** What can be seen of a record. */
  predicate Shows(v: View, r: Record) {
    r.id in v.all
    && v.all[r.id].(installed := false, listed := false) == Generation(r.job.name, r.gate, r.active, r.ready, r.exposed, false, false)
  }

  ghost predicate JobsShow(jobs: Jobs, v: View) {
    v.registry.Keys == jobs.Keys && forall n :: n in jobs ==> Shows(v, jobs[n]) && v.registry[n] == jobs[n].id
  }

  ghost predicate RetiredShow(retired: map<RecordId, Record>, v: View) {
    forall id :: id in retired ==> retired[id].id == id && Shows(v, retired[id])
  }

  ghost predicate GatesShow(gates: map<GateId, Gate.GateState>, v: View) {
    v.policies.Keys == gates.Keys && forall g :: g in gates ==> v.policies[g] == gates[g].policy
  }

  /** With the lock free, what can be seen is what the manager has. */
  ghost predicate Settled(s: State, v: View) {
    && (forall id: RecordId :: id in v.all <==> id < s.created)
    && JobsShow(s.jobs, v) && RetiredShow(s.retired, v) && GatesShow(s.gates, v)
  }

  /** The view of a generation is the same. */
  predicate SameView(v: View, w: View, id: RecordId) {
    id in v.all && id in w.all && w.all[id] == v.all[id]
  }

  lemma OneJobShows(jobs: Jobs, v: View, next: Record, w: View)
    requires JobsShow(jobs, v) && w.registry == v.registry[next.job.name := next.id] && Shows(w, next)
    requires forall n :: n in jobs && n != next.job.name ==> SameView(v, w, jobs[n].id)
    ensures JobsShow(jobs[next.job.name := next], w)
  {
    forall n | n in jobs && n != next.job.name
      ensures Shows(w, jobs[n])
    {
      assert Shows(v, jobs[n]) && SameView(v, w, jobs[n].id);
    }
  }

  lemma OneRetiredShows(retired: map<RecordId, Record>, v: View, over: Record, w: View)
    requires RetiredShow(retired, v) && Shows(w, over)
    requires forall id :: id in retired && id != over.id ==> SameView(v, w, id)
    ensures RetiredShow(retired[over.id := over], w)
  {
    forall id | id in retired && id != over.id
      ensures Shows(w, retired[id])
    {
      assert Shows(v, retired[id]) && SameView(v, w, id);
    }
  }

  /** Only what is made or changed is viewed otherwise. */
  ghost predicate OnlyThese(v: View, w: View, ids: set<RecordId>) {
    forall id :: id in v.all && id !in ids ==> SameView(v, w, id)
  }

  lemma RetiredStay(retired: map<RecordId, Record>, v: View, w: View, ids: set<RecordId>)
    requires RetiredShow(retired, v) && OnlyThese(v, w, ids) && retired.Keys !! ids
    ensures RetiredShow(retired, w)
  {
    forall id | id in retired
      ensures Shows(w, retired[id])
    {
      assert Shows(v, retired[id]) && SameView(v, w, id);
    }
  }

  lemma JobsStay(jobs: Jobs, v: View, w: View, ids: set<RecordId>)
    requires JobsShow(jobs, v) && OnlyThese(v, w, ids) && w.registry == v.registry
    requires forall n :: n in jobs ==> jobs[n].id !in ids
    ensures JobsShow(jobs, w)
  {
    forall n | n in jobs
      ensures Shows(w, jobs[n])
    {
      assert Shows(v, jobs[n]) && SameView(v, w, jobs[n].id);
    }
  }

  /** What the lemmas here need of a sound state. */
  ghost predicate Tidy(s: State) {
    Manager.Generations(s.jobs, s.retired, s.created) && Policies(s.jobs, s.gates, s.created)
  }

  /** The script is in order from `v` on, and leads to `w`. */
  ghost predicate Leads(v: View, script: seq<Act>, w: View) {
    LegalAll(v, script) && ApplyAll(v, script) == w
  }

  /** The script is in order from `v` on, and ends where the state `t` is what can be seen. */
  ghost predicate Reaches(v: View, script: seq<Act>, t: State) {
    exists w :: Leads(v, script, w) && Settled(t, w)
  }

  lemma LeadsOne(v: View, act: Act)
    requires Legal(v, act)
    ensures Leads(v, [act], Apply(v, act))
  {
    assert [act][1..] == [];
  }

  lemma {:induction false} LeadsOn(v: View, first: seq<Act>, m: View, second: seq<Act>, w: View)
    requires Leads(v, first, m) && Leads(m, second, w)
    ensures Leads(v, first + second, w)
    decreases |first|
  {
    if first == [] {
      assert first + second == second;
    } else {
      LeadsOn(Apply(v, first[0]), first[1..], m, second, w);
      assert (first + second)[1..] == first[1..] + second;
    }
  }

  lemma LeadsThen(v: View, first: seq<Act>, m: View, act: Act)
    requires Leads(v, first, m) && Legal(m, act)
    ensures Leads(v, first + [act], Apply(m, act))
  {
    LeadsOne(m, act);
    LeadsOn(v, first, m, [act], Apply(m, act));
  }

  /** A generation has been made for `job`. */
  function Made(v: View, id: RecordId, job: Job, gate: GateId): View {
    Apply(v, Make(id, job, gate))
  }

  function With(v: View, id: RecordId, g: Generation): View {
    v.(all := v.all[id := g])
  }

  lemma PublishingLeads(v: View, id: RecordId)
    requires id in v.all && StageOf(v.all[id]) == Pending && (v.all[id].installed ==> Holds(v, v.all[id].name, id))
    ensures Leads(v, Publishing(id), With(v, id, v.all[id].(active := true, exposed := true, ready := true)))
  {
    LeadsOne(v, SetActive(id));
    var m := Apply(v, SetActive(id));
    LeadsThen(v, [SetActive(id)], m, CloseReady(id));
    assert m.all[id := m.all[id].(ready := true)] == v.all[id := v.all[id].(active := true, exposed := true, ready := true)];
    assert [SetActive(id)] + [CloseReady(id)] == Publishing(id);
  }

  /** What a handover leaves: the old generation inactive, the gate under the new policy, the name with the new one. */
  function HandedOver(v: View, prior: Record, job: Job, id: RecordId): View
    requires prior.id in v.all && id in v.all
  {
    View(v.all[prior.id := v.all[prior.id].(active := false)][id := v.all[id].(listed := true)],
         v.registry[job.name := id], v.policies[prior.gate := job.policy])
  }

  lemma HandoverLeads(v: View, prior: Record, job: Job, id: RecordId)
    requires Proper(v) && prior.id in v.all && v.all[prior.id].active && Holds(v, job.name, prior.id)
    requires v.all[prior.id].gate == prior.gate
    requires id in v.all && id != prior.id && v.all[id].name == job.name && !v.all[id].listed && v.all[id].gate == prior.gate
    ensures Leads(v, Handover(prior, job, id), HandedOver(v, prior, job, id))
  {
    LeadsOne(v, ClearActive(prior.id));
    var m := Apply(v, ClearActive(prior.id));
    LeadsThen(v, [ClearActive(prior.id)], m, Govern(prior.gate, job.policy));
    var n := Apply(m, Govern(prior.gate, job.policy));
    LeadsThen(v, [ClearActive(prior.id)] + [Govern(prior.gate, job.policy)], n, Register(job.name, id));
    assert [ClearActive(prior.id)] + [Govern(prior.gate, job.policy)] + [Register(job.name, id)] == Handover(prior, job, id);
  }

  // The operations one by one

  lemma MakingLeads(v: View, id: RecordId, job: Job, gate: GateId)
    requires Proper(v) && id !in v.all
    ensures Leads(v, [Make(id, job, gate)], Made(v, id, job, gate)) && Proper(Made(v, id, job, gate))
  {
    LeadsOne(v, Make(id, job, gate));
    ApplyKeepsProper(v, Make(id, job, gate));
  }

  /** A generation that is made and given up. */
  function GivenUp(v: View, id: RecordId, job: Job, gate: GateId, installed: bool): View {
    With(Made(v, id, job, gate), id, Generation(job.name, gate, false, true, false, installed, false))
  }

  lemma AbortingLeads(v: View, id: RecordId, job: Job, gate: GateId)
    requires Proper(v) && id !in v.all
    ensures Leads(v, [Make(id, job, gate), CloseReady(id)], GivenUp(v, id, job, gate, false))
  {
    MakingLeads(v, id, job, gate);
    var m := Made(v, id, job, gate);
    LeadsThen(v, [Make(id, job, gate)], m, CloseReady(id));
    assert [Make(id, job, gate)] + [CloseReady(id)] == [Make(id, job, gate), CloseReady(id)];
  }

  /** A generation that is made and can fire. */
  function Readied(v: View, id: RecordId, job: Job, gate: GateId): View {
    With(Made(v, id, job, gate), id, Generation(job.name, gate, false, false, false, true, false))
  }

  lemma InstallingLeads(v: View, id: RecordId, job: Job, gate: GateId)
    requires Proper(v) && id !in v.all
    ensures Leads(v, [Make(id, job, gate), Install({id})], Readied(v, id, job, gate))
    ensures Proper(Readied(v, id, job, gate))
  {
    MakingLeads(v, id, job, gate);
    var m := Made(v, id, job, gate);
    LeadsThen(v, [Make(id, job, gate)], m, Install({id}));
    ApplyKeepsProper(m, Install({id}));
    assert [Make(id, job, gate)] + [Install({id})] == [Make(id, job, gate), Install({id})];
    assert Apply(m, Install({id})).all == Readied(v, id, job, gate).all;
  }

  lemma AbortingLater(v: View, id: RecordId, job: Job, gate: GateId)
    requires Proper(v) && id !in v.all
    ensures Leads(v, [Make(id, job, gate), Install({id}), CloseReady(id)], GivenUp(v, id, job, gate, true))
  {
    InstallingLeads(v, id, job, gate);
    LeadsThen(v, [Make(id, job, gate), Install({id})], Readied(v, id, job, gate), CloseReady(id));
    assert [Make(id, job, gate), Install({id})] + [CloseReady(id)] == [Make(id, job, gate), Install({id}), CloseReady(id)];
  }

  /** What is left of it in the view is what the manager keeps of it. */
  lemma GivenUpSettles(s: State, v: View, over: Record, installed: bool, t: State)
    requires Settled(s, v) && Tidy(s) && over.id == s.created && !over.active && over.ready && !over.exposed
    requires t.created == s.created + 1 && t.retired == s.retired[over.id := over]
    requires t.jobs.Keys == s.jobs.Keys && forall n :: n in s.jobs ==> SameGeneration(s.jobs[n], t.jobs[n])
    requires t.gates == if over.gate in s.gates then s.gates else s.gates[over.gate := Gate.Idle(over.job.policy)]
    ensures Settled(t, GivenUp(v, s.created, over.job, over.gate, installed))
  {
    var w := GivenUp(v, s.created, over.job, over.gate, installed);
    assert OnlyThese(v, w, {s.created});
    JobsStay(s.jobs, v, w, {s.created});
    SameJobsShow(s.jobs, w, t.jobs);
    OneRetiredShows(s.retired, v, over, w);
  }

  lemma SameJobsShow(jobs: Jobs, v: View, jobs': Jobs)
    requires JobsShow(jobs, v) && jobs'.Keys == jobs.Keys && forall n :: n in jobs ==> SameGeneration(jobs[n], jobs'[n])
    ensures JobsShow(jobs', v)
  {
    forall n | n in jobs'
      ensures Shows(v, jobs'[n]) && v.registry[n] == jobs'[n].id
    {
      assert Shows(v, jobs[n]) && SameGeneration(jobs[n], jobs'[n]);
    }
  }

  /** A generation that is made, published and registered under a free name. */
  function Enrolled(v: View, id: RecordId, job: Job, gate: GateId, installed: bool): View {
    var w := With(Made(v, id, job, gate), id, Generation(job.name, gate, true, true, true, installed, true));
    w.(registry := v.registry[job.name := id])
  }

  lemma EnrollingLeads(v: View, id: RecordId, job: Job, gate: GateId)
    requires Proper(v) && id !in v.all && job.name !in v.registry
    ensures Leads(v, [Make(id, job, gate)] + Publishing(id) + [Register(job.name, id)],
                  Enrolled(v, id, job, gate, false))
  {
    MakingLeads(v, id, job, gate);
    var m := Made(v, id, job, gate);
    var p := With(m, id, m.all[id].(active := true, exposed := true, ready := true));
    PublishingLeads(m, id);
    LeadsOn(v, [Make(id, job, gate)], m, Publishing(id), p);
    LeadsThen(v, [Make(id, job, gate)] + Publishing(id), p, Register(job.name, id));
    assert Apply(p, Register(job.name, id)).all == Enrolled(v, id, job, gate, false).all;
  }

  lemma EnrollingLater(v: View, id: RecordId, job: Job, gate: GateId)
    requires Proper(v) && id !in v.all && job.name !in v.registry
    ensures Leads(v, [Make(id, job, gate), Install({id}), Register(job.name, id)] + Publishing(id),
                  Enrolled(v, id, job, gate, true))
  {
    InstallingLeads(v, id, job, gate);
    var m := Readied(v, id, job, gate);
    LeadsThen(v, [Make(id, job, gate), Install({id})], m, Register(job.name, id));
    var n := Apply(m, Register(job.name, id));
    PublishingLeads(n, id);
    var first := [Make(id, job, gate), Install({id})] + [Register(job.name, id)];
    assert first == [Make(id, job, gate), Install({id}), Register(job.name, id)];
    LeadsOn(v, first, n, Publishing(id), With(n, id, n.all[id].(active := true, exposed := true, ready := true)));
    assert With(n, id, n.all[id].(active := true, exposed := true, ready := true)).all == Enrolled(v, id, job, gate, true).all;
  }

  predicate MayAdd(s: State, job: Job, f: Faults) {
    !f.invalid && !s.stopped && !s.stopping && job.name !in s.jobs
  }

  lemma AddSettles(s: State, v: View, job: Job, f: Faults)
    requires Settled(s, v) && Proper(v) && Tidy(s)
    ensures Reaches(v, AddScript(s, job, f), Add(s, job, f).0)
  {
    if !MayAdd(s, job, f) {
      assert Leads(v, [], v);
    } else if s.started && f.install {
      FailedAddSettles(s, v, job, f);
    } else {
      DoneAddSettles(s, v, job, f);
    }
  }

  lemma FailedAddSettles(s: State, v: View, job: Job, f: Faults)
    requires Settled(s, v) && Proper(v) && Tidy(s) && MayAdd(s, job, f) && s.started && f.install
    ensures Reaches(v, AddScript(s, job, f), Add(s, job, f).0)
  {
    AbortingLeads(v, s.created, job, s.created);
    GivenUpSettles(s, v, NewRecord(s.created, job, s.created, false).Abort(), false, Add(s, job, f).0);
  }

  lemma DoneAddSettles(s: State, v: View, job: Job, f: Faults)
    requires Settled(s, v) && Proper(v) && Tidy(s) && MayAdd(s, job, f) && !(s.started && f.install)
    ensures Reaches(v, AddScript(s, job, f), Add(s, job, f).0)
  {
    if s.started {
      EnrollingLater(v, s.created, job, s.created);
    } else {
      EnrollingLeads(v, s.created, job, s.created);
    }
    EnrolledSettles(s, v, Add(s, job, f).0.jobs[job.name], s.started, Add(s, job, f).0);
  }

  lemma EnrolledSettles(s: State, v: View, next: Record, installed: bool, t: State)
    requires Settled(s, v) && Tidy(s) && next.job.name !in s.jobs
    requires next.id == next.gate == s.created && next.active && next.ready && next.exposed
    requires t == s.(created := s.created + 1, jobs := s.jobs[next.job.name := next], live := t.live, issued := t.issued,
                     gates := s.gates[s.created := Gate.Idle(next.job.policy)])
    ensures Settled(t, Enrolled(v, s.created, next.job, s.created, installed))
  {
    var w := Enrolled(v, s.created, next.job, s.created, installed);
    assert OnlyThese(v, w, {s.created});
    OthersShow(s.jobs, s.retired, s.created, v, w, next.job.name, {s.created});
    OneJobShows(s.jobs, v, next, w);
    RetiredStay(s.retired, v, w, {s.created});
  }

  /** No registered generation but the one named is among `ids`. */
  lemma OthersShow(jobs: Jobs, retired: map<RecordId, Record>, created: nat, v: View, w: View, name: string, ids: set<RecordId>)
    requires Manager.Generations(jobs, retired, created) && JobsShow(jobs, v) && OnlyThese(v, w, ids)
    requires forall id :: id in ids ==> id == created || (name in jobs && id == jobs[name].id)
    ensures forall n :: n in jobs && n != name ==> SameView(v, w, jobs[n].id)
  {
    forall n | n in jobs && n != name
      ensures SameView(v, w, jobs[n].id)
    {
      assert Shows(v, jobs[n]) && jobs[n].id !in ids;
    }
  }

  /** A generation that takes a name over from `prior`. */
  function Replaced(v: View, prior: Record, id: RecordId, job: Job, installed: bool): View
    requires prior.id in v.all
  {
    var w := With(Made(v, id, job, prior.gate), id, Generation(job.name, prior.gate, true, true, true, installed, true));
    View(w.all[prior.id := v.all[prior.id].(active := false)], v.registry[job.name := id], v.policies[prior.gate := job.policy])
  }

  ghost predicate Incumbent(v: View, prior: Record, job: Job) {
    && prior.id in v.all && v.all[prior.id].active && Holds(v, job.name, prior.id)
    && v.all[prior.id].gate == prior.gate && prior.gate in v.policies
  }

  lemma ReplacingLeads(v: View, id: RecordId, prior: Record, job: Job)
    requires Proper(v) && id !in v.all && Incumbent(v, prior, job)
    ensures Leads(v, [Make(id, job, prior.gate)] + Publishing(id) + Handover(prior, job, id), Replaced(v, prior, id, job, false))
  {
    MakingLeads(v, id, job, prior.gate);
    var m := Made(v, id, job, prior.gate);
    var p := With(m, id, m.all[id].(active := true, exposed := true, ready := true));
    PublishingLeads(m, id);
    LeadsOn(v, [Make(id, job, prior.gate)], m, Publishing(id), p);
    HandoverLeads(p, prior, job, id);
    LeadsOn(v, [Make(id, job, prior.gate)] + Publishing(id), p, Handover(prior, job, id), HandedOver(p, prior, job, id));
    assert HandedOver(p, prior, job, id).all == Replaced(v, prior, id, job, false).all;
  }

  lemma ReplacingLater(v: View, id: RecordId, prior: Record, job: Job)
    requires Proper(v) && id !in v.all && Incumbent(v, prior, job)
    ensures Leads(v, [Make(id, job, prior.gate), Install({id})] + Handover(prior, job, id) + Publishing(id),
                  Replaced(v, prior, id, job, true))
  {
    InstallingLeads(v, id, job, prior.gate);
    var m := Readied(v, id, job, prior.gate);
    var first := [Make(id, job, prior.gate), Install({id})];
    HandoverLeads(m, prior, job, id);
    var h := HandedOver(m, prior, job, id);
    LeadsOn(v, first, m, Handover(prior, job, id), h);
    PublishingLeads(h, id);
    var p := With(h, id, h.all[id].(active := true, exposed := true, ready := true));
    LeadsOn(v, first + Handover(prior, job, id), h, Publishing(id), p);
    assert p.all == Replaced(v, prior, id, job, true).all;
  }

  lemma ReplacedShows(jobs: Jobs, retired: map<RecordId, Record>, created: nat, v: View, prior: Record, next: Record, installed: bool)
    requires Manager.Generations(jobs, retired, created) && JobsShow(jobs, v) && RetiredShow(retired, v)
    requires created !in v.all && next.job.name in jobs && SameGeneration(jobs[next.job.name], prior)
    requires next.id == created && next.gate == prior.gate && next.active && next.ready && next.exposed
    ensures prior.id in v.all
    ensures var w := Replaced(v, prior, created, next.job, installed);
            JobsShow(jobs[next.job.name := next], w) && RetiredShow(retired[prior.id := prior.Deactivate()], w)
  {
    assert Shows(v, jobs[next.job.name]);
    var w := Replaced(v, prior, created, next.job, installed);
    assert OnlyThese(v, w, {created, prior.id});
    OthersShow(jobs, retired, created, v, w, next.job.name, {created, prior.id});
    OneJobShows(jobs, v, next, w);
    OneRetiredShows(retired, v, prior.Deactivate(), w);
  }

  lemma ReplacedSettles(s: State, v: View, prior: Record, next: Record, installed: bool, t: State)
    requires Settled(s, v) && Tidy(s) && next.job.name in s.jobs && SameGeneration(s.jobs[next.job.name], prior)
    requires next.id == s.created && next.gate == prior.gate && next.active && next.ready && next.exposed
    requires t == Commit(s, prior, next).(created := s.created + 1, live := t.live, issued := t.issued)
    ensures prior.id in v.all && Settled(t, Replaced(v, prior, s.created, next.job, installed))
  {
    ReplacedShows(s.jobs, s.retired, s.created, v, prior, next, installed);
  }

  lemma ReplaceSettles(s: State, v: View, job: Job, f: Faults)
    requires Settled(s, v) && Proper(v) && Tidy(s)
    ensures Reaches(v, ReplaceScript(s, job, f), Replace(s, job, f).0)
  {
    assert Leads(v, [], v);
    if !f.invalid && !s.stopped && !s.stopping && job.name in s.jobs {
      var prior := s.jobs[job.name];
      assert Shows(v, prior);
      if !s.started {
        ReplacingLeads(v, s.created, prior, job);
        ReplacedSettles(s, v, prior, NewRecord(s.created, job, prior.gate, true), false, Replace(s, job, f).0);
      } else if f.install {
        AbortingLeads(v, s.created, job, prior.gate);
        GivenUpSettles(s, v, Replace(s, job, f).0.retired[s.created], false, Replace(s, job, f).0);
      } else {
        SwapSettles(s, v, job, f);
      }
    }
  }

  predicate MaySwap(s: State, job: Job, f: Faults) {
    !f.invalid && !s.stopped && !s.stopping && job.name in s.jobs && s.started && !f.install
  }

  lemma SwapSettles(s: State, v: View, job: Job, f: Faults)
    requires Settled(s, v) && Proper(v) && Tidy(s) && MaySwap(s, job, f)
    ensures Reaches(v, ReplaceScript(s, job, f), Replace(s, job, f).0)
  {
    if RemoveEngineJobs(s.jobs[job.name], s.live + {s.issued}, f.stuck).2 {
      DoneSwapSettles(s, v, job, f);
    } else {
      FailedSwapSettles(s, v, job, f);
    }
  }

  lemma DoneSwapSettles(s: State, v: View, job: Job, f: Faults)
    requires Settled(s, v) && Proper(v) && Tidy(s) && MaySwap(s, job, f)
    requires RemoveEngineJobs(s.jobs[job.name], s.live + {s.issued}, f.stuck).2
    ensures Reaches(v, ReplaceScript(s, job, f), Replace(s, job, f).0)
  {
    var prior, t := s.jobs[job.name], Replace(s, job, f).0;
    var gone := RemoveEngineJobs(prior, s.live + {s.issued}, f.stuck).0;
    SwapCommits(s, v, gone, t.jobs[job.name], t);
  }

  lemma FailedSwapSettles(s: State, v: View, job: Job, f: Faults)
    requires Settled(s, v) && Proper(v) && Tidy(s) && MaySwap(s, job, f)
    requires !RemoveEngineJobs(s.jobs[job.name], s.live + {s.issued}, f.stuck).2
    ensures Reaches(v, ReplaceScript(s, job, f), Replace(s, job, f).0)
  {
    var t := Replace(s, job, f).0;
    var over := NewRecord(s.created, job, s.jobs[job.name].gate, false).Abort().(inner := None);
    FailedSwapLeaves(s, job, f, over);
    SwapGivesUp(s, v, s.jobs[job.name], over, t);
  }

  lemma FailedSwapLeaves(s: State, job: Job, f: Faults, over: Record)
    requires Tidy(s) && MaySwap(s, job, f) && !RemoveEngineJobs(s.jobs[job.name], s.live + {s.issued}, f.stuck).2
    requires over == NewRecord(s.created, job, s.jobs[job.name].gate, false).Abort().(inner := None)
    ensures var t := Replace(s, job, f).0;
            && t == s.(created := s.created + 1, retired := s.retired[over.id := over], jobs := t.jobs, live := t.live, issued := t.issued)
            && t.jobs.Keys == s.jobs.Keys && forall n :: n in s.jobs ==> SameGeneration(s.jobs[n], t.jobs[n])
  {
  }

  lemma SwapCommits(s: State, v: View, prior: Record, next: Record, t: State)
    requires Settled(s, v) && Proper(v) && Tidy(s) && next.job.name in s.jobs && SameGeneration(s.jobs[next.job.name], prior)
    requires next.id == s.created && next.gate == prior.gate && next.active && next.ready && next.exposed
    requires t == Commit(s, prior, next).(created := s.created + 1, live := t.live, issued := t.issued)
    ensures Reaches(v, [Make(next.id, next.job, prior.gate), Install({next.id})] + Handover(prior, next.job, next.id) + Publishing(next.id), t)
  {
    assert Shows(v, s.jobs[next.job.name]);
    ReplacingLater(v, s.created, prior, next.job);
    ReplacedSettles(s, v, prior, next, true, t);
  }

  lemma SwapGivesUp(s: State, v: View, prior: Record, over: Record, t: State)
    requires Settled(s, v) && Proper(v) && Tidy(s) && over.id == s.created && !over.active && over.ready && !over.exposed
    requires over.gate == prior.gate && prior.gate in s.gates
    requires t == s.(created := s.created + 1, retired := s.retired[over.id := over], jobs := t.jobs, live := t.live, issued := t.issued)
    requires t.jobs.Keys == s.jobs.Keys && forall n :: n in s.jobs ==> SameGeneration(s.jobs[n], t.jobs[n])
    ensures Reaches(v, [Make(over.id, over.job, prior.gate), Install({over.id}), CloseReady(over.id)], t)
  {
    AbortingLater(v, s.created, over.job, prior.gate);
    GivenUpSettles(s, v, over, true, t);
  }

  lemma RemovingLeads(v: View, name: string, id: RecordId)
    requires Proper(v) && id in v.all && v.all[id].active && Holds(v, name, id)
    ensures Leads(v, [ClearActive(id), Unregister(name)], Removed(v, name, id))
  {
    LeadsOne(v, ClearActive(id));
    LeadsThen(v, [ClearActive(id)], Apply(v, ClearActive(id)), Unregister(name));
    assert [ClearActive(id)] + [Unregister(name)] == [ClearActive(id), Unregister(name)];
  }

  /** A generation that has given its name up. */
  function Removed(v: View, name: string, id: RecordId): View
    requires id in v.all
  {
    View(v.all[id := v.all[id].(active := false)], v.registry - {name}, v.policies)
  }

  lemma RemovedShows(jobs: Jobs, retired: map<RecordId, Record>, created: nat, v: View, name: string, prior: Record)
    requires Manager.Generations(jobs, retired, created) && JobsShow(jobs, v) && RetiredShow(retired, v)
    requires name in jobs && SameGeneration(jobs[name], prior)
    ensures prior.id in v.all
    ensures var w := Removed(v, name, prior.id);
            JobsShow(jobs - {name}, w) && RetiredShow(retired[prior.id := prior.Deactivate()], w)
  {
    assert Shows(v, jobs[name]);
    var w := Removed(v, name, prior.id);
    assert OnlyThese(v, w, {prior.id});
    OthersShow(jobs, retired, created, v, w, name, {prior.id});
    forall n | n in jobs && n != name
      ensures Shows(w, jobs[n])
    {
      assert Shows(v, jobs[n]) && SameView(v, w, jobs[n].id);
    }
    OneRetiredShows(retired, v, prior.Deactivate(), w);
  }

  /** Handles may change hands, and more generations may come to fire. */
  lemma StaysSettled(s: State, v: View, t: State, w: View)
    requires Settled(s, v) && t.created == s.created && t.retired == s.retired && t.gates == s.gates
    requires t.jobs.Keys == s.jobs.Keys && forall n :: n in s.jobs ==> SameGeneration(s.jobs[n], t.jobs[n])
    requires w.registry == v.registry && w.policies == v.policies && w.all.Keys == v.all.Keys
    requires forall id :: id in v.all ==> w.all[id] == v.all[id].(installed := w.all[id].installed)
    ensures Settled(t, w)
  {
    forall n | n in t.jobs
      ensures Shows(w, t.jobs[n]) && w.registry[n] == t.jobs[n].id
    {
      assert Shows(v, s.jobs[n]);
    }
    forall id | id in t.retired
      ensures t.retired[id].id == id && Shows(w, t.retired[id])
    {
      assert Shows(v, s.retired[id]);
    }
  }

  lemma RemoveSettles(s: State, v: View, name: string, stuck: set<Handle>)
    requires Settled(s, v) && Proper(v) && Tidy(s)
    ensures Reaches(v, RemoveScript(s, name, stuck), Remove(s, name, stuck).0)
  {
    assert Leads(v, [], v);
    if name in s.jobs {
      var (after, rest, ok) := if s.started then RemoveEngineJobs(s.jobs[name], s.live, stuck) else (s.jobs[name], s.live, true);
      var t := Remove(s, name, stuck).0;
      RemoveLeaves(s, name, stuck);
      if ok {
        RemovalSettles(s, v, name, after, t);
      } else {
        StaysSettled(s, v, t, v);
      }
    }
  }

  lemma RemoveLeaves(s: State, name: string, stuck: set<Handle>)
    requires name in s.jobs
    ensures var (after, rest, ok) := if s.started then RemoveEngineJobs(s.jobs[name], s.live, stuck) else (s.jobs[name], s.live, true);
            var t := Remove(s, name, stuck).0;
            && SameGeneration(s.jobs[name], after)
            && if ok then t == s.(jobs := s.jobs - {name}, retired := s.retired[after.id := after.Deactivate()], live := t.live)
               else && t == s.(jobs := t.jobs, live := t.live) && t.jobs.Keys == s.jobs.Keys
                    && forall n :: n in s.jobs ==> SameGeneration(s.jobs[n], t.jobs[n])
  {
  }

  lemma RemovalSettles(s: State, v: View, name: string, after: Record, t: State)
    requires Settled(s, v) && Proper(v) && Tidy(s) && name in s.jobs && SameGeneration(s.jobs[name], after)
    requires t == s.(jobs := s.jobs - {name}, retired := s.retired[after.id := after.Deactivate()], live := t.live)
    ensures Reaches(v, [ClearActive(after.id), Unregister(name)], t)
  {
    assert Shows(v, s.jobs[name]);
    RemovingLeads(v, name, after.id);
    RemovedShows(s.jobs, s.retired, s.created, v, name, after);
    assert Settled(t, Removed(v, name, after.id));
  }

  lemma InstallingAll(s: State, v: View)
    requires JobsShow(s.jobs, v) && Manager.Generations(s.jobs, s.retired, s.created)
    ensures Leads(v, [Install(Registered(s.jobs))], Apply(v, Install(Registered(s.jobs))))
  {
    var ids := Registered(s.jobs);
    forall id | id in ids
      ensures id in v.all && Holds(v, v.all[id].name, id)
    {
      var n :| n in s.jobs && s.jobs[n].id == id;
      assert Shows(v, s.jobs[n]);
    }
    LeadsOne(v, Install(ids));
  }

  lemma InstalledIsSame(v: View, ids: set<RecordId>)
    ensures var w := Apply(v, Install(ids));
            && w.registry == v.registry && w.policies == v.policies && w.all.Keys == v.all.Keys
            && forall id :: id in v.all ==> w.all[id] == v.all[id].(installed := w.all[id].installed)
  {
  }

  lemma StartSame(s: State, a: Assignment, t: State)
    requires Manager.Step(s, OpStart(a), t)
    ensures t.created == s.created && t.retired == s.retired && t.gates == s.gates && t.jobs.Keys == s.jobs.Keys
    ensures forall n :: n in s.jobs ==> SameGeneration(s.jobs[n], t.jobs[n])
  {
  }

  lemma StartSettles(s: State, v: View, a: Assignment, t: State)
    requires Settled(s, v) && Proper(v) && Tidy(s) && Manager.Step(s, OpStart(a), t)
    ensures Reaches(v, Script(s, OpStart(a)), t)
  {
    var ids := Registered(s.jobs);
    InstallingAll(s, v);
    InstalledIsSame(v, ids);
    StartSame(s, a, t);
    StaysSettled(s, v, t, Apply(v, Install(ids)));
  }

  predicate Locking(op: Operation) {
    !op.OpGate?
  }

  /** Every operation's script is in order, and what it leads to is what the operation leaves. */
  lemma ScriptSettles(s: State, v: View, op: Operation, t: State)
    requires Settled(s, v) && Proper(v) && Tidy(s) && Manager.Step(s, op, t) && Locking(op)
    ensures Reaches(v, Script(s, op), t)
  {
    match op
    case OpStart(a) => StartSettles(s, v, a, t);
    case OpAdd(job, f) => AddSettles(s, v, job, f);
    case OpReplace(job, f) => ReplaceSettles(s, v, job, f);
    case OpRemove(name, stuck) => RemoveSettles(s, v, name, stuck);
    case OpStop => assert Leads(v, [], v);
    case OpStopped => assert Leads(v, [], v);
  }

  // ---------------------------------------------------------------------------------------------
  // Operations and triggers, interleaved
  // ---------------------------------------------------------------------------------------------

  /** Where a trigger is: before its first look, waiting for its second, past its look, or done. */
  datatype Position = Looking | Waiting | Passed | TurnedAway | Entered(decision: Gate.Decision)

  datatype Trigger = Trigger(id: RecordId, at: Position)

  /** `s` is the manager when its lock was last free, `goal` what the operation that holds it will leave. */
  datatype World = World(
    s: State, goal: Option<State>, script: seq<Act>, v: View, gates: map<GateId, Gate.GateState>, triggers: map<nat, Trigger>)

  datatype Move =
    | Lock(op: Operation, t: State)
    | Proceed
    | Unlock
    | Arrive(x: nat, id: RecordId)
    | Look(x: nat)
    | Wake(x: nat, cancelled: bool)
    | EnterGate(x: nat)
    | UseGate(gate: GateId, after: Gate.GateState)  // an execution leaves the gate

  const START := World(NewState(), None, [], View(map[], map[], map[]), map[], map[])

  /** The manager with its gates as they are. */
  function Now(w: World): State {
    w.s.(gates := w.gates)
  }

  predicate At(w: World, x: nat, at: Position) {
    x in w.triggers && w.triggers[x].at == at && w.triggers[x].id in w.v.all
  }

  ghost predicate Enabled(w: World, move: Move) {
    match move
    case Lock(op, t) => w.goal.None? && Locking(op) && Manager.Step(Now(w), op, t)
    case Proceed => w.script != []
    case Unlock => w.goal.Some? && w.script == []
    case Arrive(x, id) => x !in w.triggers && id in w.v.all && w.v.all[id].installed
    case Look(x) => At(w, x, Looking)
    case Wake(x, cancelled) => At(w, x, Waiting) && (!cancelled ==> w.v.all[w.triggers[x].id].ready)
    case EnterGate(x) => At(w, x, Passed) && w.v.all[w.triggers[x].id].gate in w.gates
    case UseGate(gate, after) => gate in w.gates && after.policy == w.gates[gate].policy
  }

  /** What an act does to the gates themselves. */
  function ApplyToGates(gates: map<GateId, Gate.GateState>, act: Act): map<GateId, Gate.GateState> {
    match act
    case Make(_, job, gate) => if gate in gates then gates else gates[gate := Gate.Idle(job.policy)]
    case Govern(gate, policy) => SetPolicy(gates, gate, policy)
    case _ => gates
  }

  function MoveTo(w: World, x: nat, at: Position): World
    requires x in w.triggers
  {
    w.(triggers := w.triggers[x := w.triggers[x].(at := at)])
  }

  ghost function Next(w: World, move: Move): World
    requires Enabled(w, move)
  {
    match move
    case Lock(op, t) => w.(goal := Some(t), script := Script(Now(w), op))
    case Proceed => w.(v := Apply(w.v, w.script[0]), gates := ApplyToGates(w.gates, w.script[0]), script := w.script[1..])
    case Unlock => w.(s := w.goal.value, goal := None)
    case Arrive(x, id) => w.(triggers := w.triggers[x := Trigger(id, Looking)])
    case Look(x) => MoveTo(w, x, if w.v.all[w.triggers[x].id].active then Passed else Waiting)
    case Wake(x, cancelled) => MoveTo(w, x, if !cancelled && w.v.all[w.triggers[x].id].active then Passed else TurnedAway)
    case EnterGate(x) =>
      var id := w.triggers[x].id;
      var gate := w.v.all[id].gate;
      var (g, decision) := Gate.Admit(w.gates[gate], id, Some(Gate.Handler(id, x)));
      MoveTo(w, x, Entered(decision)).(gates := w.gates[gate := g])
    case UseGate(gate, after) => w.(gates := w.gates[gate := after])
  }

  /** A move that is not enabled does not happen. */
  ghost function Run(w: World, moves: seq<Move>): World {
    if moves == [] then w
    else
      var u := Run(w, moves[..|moves| - 1]);
      if Enabled(u, moves[|moves| - 1]) then Next(u, moves[|moves| - 1]) else u
  }

  // ---------------------------------------------------------------------------------------------
  // What every move keeps
  // ---------------------------------------------------------------------------------------------

  /** A trigger past its look is of a generation that has been active and registered. */
  ghost predicate TriggersOk(v: View, triggers: map<nat, Trigger>) {
    forall x :: x in triggers ==> TriggerOk(v, triggers[x])
  }

  predicate TriggerOk(v: View, trigger: Trigger) {
    && trigger.id in v.all && v.all[trigger.id].installed
    && (trigger.at.Passed? || trigger.at.Entered? ==> v.all[trigger.id].exposed && v.all[trigger.id].listed)
  }

  ghost predicate OnTrack(w: World) {
    match w.goal
    case None => w.script == [] && Sound(Now(w)) && Settled(Now(w), w.v)
    case Some(t) => Sound(t) && Settled(t, ApplyAll(w.v, w.script))
  }

  ghost predicate Inv(w: World) {
    Proper(w.v) && LegalAll(w.v, w.script) && GatesShow(w.gates, w.v) && OnTrack(w) && TriggersOk(w.v, w.triggers)
  }

  lemma PoliciesAreEnough(s: State, gates: map<GateId, Gate.GateState>, v: View)
    requires Sound(s) && Settled(s, v) && GatesShow(gates, v)
    ensures Sound(s.(gates := gates)) && Settled(s.(gates := gates), v)
  {
    var t := s.(gates := gates);
    forall n | n in t.jobs
      ensures t.jobs[n].gate in t.gates && t.gates[t.jobs[n].gate].policy == t.jobs[n].job.policy
    {
      assert s.jobs[n].gate in s.gates;
    }
    forall id: RecordId | id < t.created && id !in t.retired
      ensures InUse(t.jobs, id)
    {
      assert InUse(s.jobs, id);
    }
  }

  lemma SettledIsReached(v: View, script: seq<Act>, t: State)
    requires Reaches(v, script, t)
    ensures LegalAll(v, script) && Settled(t, ApplyAll(v, script))
  {
    var w :| Leads(v, script, w) && Settled(t, w);
  }

  lemma LockKeepsInv(w: World, op: Operation, t: State)
    requires Inv(w) && Enabled(w, Lock(op, t))
    ensures Inv(Next(w, Lock(op, t)))
  {
    StepIsSound(Now(w), op, t);
    ScriptSettles(Now(w), w.v, op, t);
    SettledIsReached(w.v, Script(Now(w), op), t);
  }

  lemma GatesKeepShowing(gates: map<GateId, Gate.GateState>, v: View, act: Act)
    requires GatesShow(gates, v) && Legal(v, act)
    ensures GatesShow(ApplyToGates(gates, act), Apply(v, act))
  {
  }

  lemma ProceedKeepsInv(w: World)
    requires Inv(w) && Enabled(w, Proceed)
    ensures Inv(Next(w, Proceed))
  {
    var act := w.script[0];
    ApplyKeepsProper(w.v, act);
    GatesKeepShowing(w.gates, w.v, act);
    ActKeepsTriggers(w, act);
  }

  lemma ActKeepsTriggers(w: World, act: Act)
    requires Proper(w.v) && Legal(w.v, act) && TriggersOk(w.v, w.triggers)
    ensures TriggersOk(Apply(w.v, act), w.triggers)
  {
    forall x | x in w.triggers
      ensures TriggerOk(Apply(w.v, act), w.triggers[x])
    {
      assert TriggerOk(w.v, w.triggers[x]);
      ApplyMovesStage(w.v, act, w.triggers[x].id);
    }
  }

  lemma UnlockKeepsInv(w: World)
    requires Inv(w) && Enabled(w, Unlock)
    ensures Inv(Next(w, Unlock))
  {
    PoliciesAreEnough(w.goal.value, w.gates, w.v);
  }

  lemma GateMoveKeepsInv(w: World, gate: GateId, after: Gate.GateState)
    requires Inv(w) && gate in w.gates && after.policy == w.gates[gate].policy
    ensures Inv(w.(gates := w.gates[gate := after]))
  {
    var gates := w.gates[gate := after];
    if w.goal.None? {
      PoliciesAreEnough(Now(w), gates, w.v);
    }
  }

  lemma TriggerMoveKeepsInv(w: World, x: nat, trigger: Trigger)
    requires Inv(w) && TriggerOk(w.v, trigger)
    ensures Inv(w.(triggers := w.triggers[x := trigger]))
  {
  }

  lemma EntryKeepsInv(w: World, x: nat)
    requires Inv(w) && Enabled(w, EnterGate(x))
    ensures Inv(Next(w, EnterGate(x)))
  {
    var id := w.triggers[x].id;
    var gate := w.v.all[id].gate;
    SectionsKeepPolicy(w.gates[gate], id, Gate.Handler(id, x));
    var (g, decision) := Gate.Admit(w.gates[gate], id, Some(Gate.Handler(id, x)));
    assert TriggerOk(w.v, w.triggers[x]);
    TriggerMoveKeepsInv(w, x, Trigger(id, Entered(decision)));
    GateMoveKeepsInv(MoveTo(w, x, Entered(decision)), gate, g);
  }

  lemma NextKeepsInv(w: World, move: Move)
    requires Inv(w) && Enabled(w, move)
    ensures Inv(Next(w, move))
  {
    match move
    case Lock(op, t) => LockKeepsInv(w, op, t);
    case Proceed => ProceedKeepsInv(w);
    case Unlock => UnlockKeepsInv(w);
    case Arrive(x, id) => TriggerMoveKeepsInv(w, x, Trigger(id, Looking));
    case Look(x) => TriggerMoveKeepsInv(w, x, Next(w, move).triggers[x]);
    case Wake(x, _) => TriggerMoveKeepsInv(w, x, Next(w, move).triggers[x]);
    case EnterGate(x) => EntryKeepsInv(w, x);
    case UseGate(gate, after) => GateMoveKeepsInv(w, gate, after);
  }

  lemma {:induction false} RunKeepsInv(w: World, moves: seq<Move>)
    requires Inv(w)
    ensures Inv(Run(w, moves))
  {
    if moves != [] {
      var u := Run(w, moves[..|moves| - 1]);
      RunKeepsInv(w, moves[..|moves| - 1]);
      if Enabled(u, moves[|moves| - 1]) {
        NextKeepsInv(u, moves[|moves| - 1]);
      }
    }
  }

  lemma StartHasInv()
    ensures Inv(START)
  {
    var s := NewState();
    assert Now(START) == s;
    assert START.v.registry.Keys == {} == s.jobs.Keys;
    assert START.v.policies.Keys == {} == s.gates.Keys;
    assert Sound(s);
    assert Settled(s, START.v);
    assert GatesShow(START.gates, START.v);
  }

  // ---------------------------------------------------------------------------------------------
  // Generations over whole runs
  // ---------------------------------------------------------------------------------------------

  /** What one move, or many, leave of a generation. */
  predicate OnwardOne(v: View, w: View, id: RecordId)
    requires id in v.all
  {
    && id in w.all && CanBecome(StageOf(v.all[id]), StageOf(w.all[id])) && (v.all[id].exposed ==> w.all[id].exposed)
    && w.all[id].name == v.all[id].name && w.all[id].gate == v.all[id].gate && (v.all[id].listed ==> w.all[id].listed)
  }

  ghost predicate Onward(v: View, w: View) {
    forall id :: id in v.all ==> OnwardOne(v, w, id)
  }

  lemma ApplyMovesOnward(v: View, act: Act)
    requires Proper(v) && Legal(v, act)
    ensures Onward(v, Apply(v, act))
  {
    forall id | id in v.all
      ensures OnwardOne(v, Apply(v, act), id)
    {
      ApplyMovesStage(v, act, id);
    }
  }

  lemma NextMovesOnward(w: World, move: Move)
    requires Inv(w) && Enabled(w, move)
    ensures Onward(w.v, Next(w, move).v)
  {
    if move.Proceed? {
      ApplyMovesOnward(w.v, w.script[0]);
    } else {
      assert Next(w, move).v == w.v;
    }
  }

  lemma OnwardChains(u: View, v: View, w: View)
    requires Onward(u, v) && Onward(v, w)
    ensures Onward(u, w)
  {
    forall id | id in u.all
      ensures OnwardOne(u, w, id)
    {
      assert OnwardOne(u, v, id) && OnwardOne(v, w, id);
    }
  }

  lemma {:induction false} RunMovesOnward(w: World, moves: seq<Move>, k: nat)
    requires Inv(w) && k <= |moves|
    ensures Onward(Run(w, moves[..k]).v, Run(w, moves).v)
  {
    if k == |moves| {
      assert moves[..k] == moves;
    } else {
      var front, move := moves[..|moves| - 1], moves[|moves| - 1];
      RunMovesOnward(w, front, k);
      assert front[..k] == moves[..k];
      RunKeepsInv(w, front);
      if Enabled(Run(w, front), move) {
        NextMovesOnward(Run(w, front), move);
        OnwardChains(Run(w, moves[..k]).v, Run(w, front).v, Run(w, moves).v);
      }
    }
  }

  /** In every run each generation moves along its stages: pending, then active and retired, or aborted. */
  lemma StagesMoveAlong(moves: seq<Move>, k: nat, id: RecordId)
    requires k <= |moves| && id in Run(START, moves[..k]).v.all
    ensures id in Run(START, moves).v.all
    ensures CanBecome(StageOf(Run(START, moves[..k]).v.all[id]), StageOf(Run(START, moves).v.all[id]))
  {
    StartHasInv();
    RunMovesOnward(START, moves, k);
    assert OnwardOne(Run(START, moves[..k]).v, Run(START, moves).v, id);
  }

  /** A trigger of a generation that is ever aborted never gets past its look, before or after, and so never to the gate. */
  lemma AbortedGenerationNeverRuns(moves: seq<Move>, aborted: nat, k: nat, x: nat)
    requires aborted <= |moves| && k <= |moves|
    requires x in Run(START, moves[..k]).triggers
    requires var id := Run(START, moves[..k]).triggers[x].id;
             id in Run(START, moves[..aborted]).v.all && StageOf(Run(START, moves[..aborted]).v.all[id]) == Aborted
    ensures var at := Run(START, moves[..k]).triggers[x].at;
            !at.Passed? && !at.Entered?
  {
    StartHasInv();
    RunKeepsInv(START, moves[..k]);
    var u, w := Run(START, moves[..k]), Run(START, moves[..aborted]);
    var id := u.triggers[x].id;
    assert TriggerOk(u.v, u.triggers[x]);
    if aborted <= k {
      assert moves[..k][..aborted] == moves[..aborted];
      RunMovesOnward(START, moves[..k], aborted);
      assert OnwardOne(w.v, u.v, id);
    } else {
      assert moves[..aborted][..k] == moves[..k];
      RunMovesOnward(START, moves[..aborted], k);
      assert OnwardOne(u.v, w.v, id);
    }
  }

  /** With the lock free no trigger waits in vain: every generation is ready. */
  lemma NobodyWaitsForever(moves: seq<Move>, x: nat)
    requires Run(START, moves).goal.None? && x in Run(START, moves).triggers && Run(START, moves).triggers[x].at.Waiting?
    ensures Enabled(Run(START, moves), Wake(x, false))
  {
    StartHasInv();
    RunKeepsInv(START, moves);
    var w := Run(START, moves);
    var id := w.triggers[x].id;
    assert TriggerOk(w.v, w.triggers[x]);
    assert id < w.s.created;
    if id in w.s.retired {
      assert Shows(w.v, Now(w).retired[id]);
    } else {
      assert InUse(w.s.jobs, id);
      var n :| n in w.s.jobs && w.s.jobs[n].id == id;
      assert Shows(w.v, Now(w).jobs[n]);
    }
  }

  /** The move takes trigger `x` past its look. */
  ghost predicate Passes(w: World, move: Move, x: nat) {
    Enabled(w, move) && (move == Look(x) || move == Wake(x, false)) && Next(w, move).triggers[x].at.Passed?
  }

  /** A generation whose trigger passes its look is active, and the one its name belongs to, at that moment. */
  lemma PassingIsRegistered(w: World, move: Move, x: nat)
    requires Inv(w) && Passes(w, move, x)
    ensures var g := w.v.all[w.triggers[x].id];
            g.active && Holds(w.v, g.name, w.triggers[x].id)
  {
    assert TriggerOk(w.v, w.triggers[x]);
  }

  /** With the lock free, a generation is active exactly if it is the one registered under its name. */
  lemma ActiveExactlyIfHolder(w: World, id: RecordId)
    requires Inv(w) && w.goal.None? && id in w.v.all
    ensures w.v.all[id].active <==> Holds(w.v, w.v.all[id].name, id)
  {
    var s := Now(w);
    if id in s.retired {
      assert Shows(w.v, s.retired[id]);
    } else {
      assert InUse(s.jobs, id);
      var n :| n in s.jobs && s.jobs[n].id == id;
      assert Shows(w.v, s.jobs[n]);
    }
  }

  /** With the lock free, a trigger gets past its look exactly if its generation is the one registered; otherwise it waits, or is turned away. */
  lemma LookPassesExactlyTheHolder(w: World, x: nat)
    requires Inv(w) && w.goal.None? && x in w.triggers
    ensures var id := w.triggers[x].id;
            && id in w.v.all
            && (Enabled(w, Look(x)) ==>
                  Next(w, Look(x)).triggers[x].at == if Holds(w.v, w.v.all[id].name, id) then Passed else Waiting)
            && (Enabled(w, Wake(x, false)) ==>
                  Next(w, Wake(x, false)).triggers[x].at == if Holds(w.v, w.v.all[id].name, id) then Passed else TurnedAway)
  {
    assert TriggerOk(w.v, w.triggers[x]);
    ActiveExactlyIfHolder(w, w.triggers[x].id);
  }

  predicate IsPast(triggers: map<nat, Trigger>, x: nat) {
    x in triggers && (triggers[x].at.Passed? || triggers[x].at.Entered?)
  }

  lemma GetsPastByLooking(w: World, move: Move, x: nat)
    requires Enabled(w, move) && !IsPast(w.triggers, x) && IsPast(Next(w, move).triggers, x)
    ensures Passes(w, move, x) && w.triggers[x].id == Next(w, move).triggers[x].id
  {
  }

  lemma PastKeepsItsGeneration(w: World, move: Move, x: nat)
    requires Enabled(w, move) && IsPast(w.triggers, x)
    ensures x in Next(w, move).triggers && w.triggers[x].id == Next(w, move).triggers[x].id
  {
  }

  /** Whatever is past its look has looked. */
  lemma {:induction false} PassedHasLooked(moves: seq<Move>, x: nat) returns (k: nat)
    requires IsPast(Run(START, moves).triggers, x)
    ensures k < |moves| && Passes(Run(START, moves[..k]), moves[k], x)
    ensures Run(START, moves[..k]).triggers[x].id == Run(START, moves).triggers[x].id
  {
    var front, move := moves[..|moves| - 1], moves[|moves| - 1];
    var u := Run(START, front);
    if IsPast(u.triggers, x) {
      k := PassedHasLooked(front, x);
      assert front[..k] == moves[..k];
      if Enabled(u, move) {
        PastKeepsItsGeneration(u, move, x);
      }
    } else {
      k := |moves| - 1;
      GetsPastByLooking(u, move, x);
    }
  }

  /** The generation that enters a gate was active, and registered under its name, at the trigger's look. */
  lemma EntrantWasRegisteredAtItsLook(moves: seq<Move>, x: nat) returns (k: nat)
    requires x in Run(START, moves).triggers && Run(START, moves).triggers[x].at.Entered?
    ensures k < |moves|
    ensures var v, id := Run(START, moves[..k]).v, Run(START, moves).triggers[x].id;
            id in v.all && v.all[id].active && Holds(v, v.all[id].name, id)
  {
    StartHasInv();
    k := PassedHasLooked(moves, x);
    RunKeepsInv(START, moves[..k]);
    PassingIsRegistered(Run(START, moves[..k]), moves[k], x);
  }

  predicate Renames(act: Act, name: string) {
    (act.Register? && act.name == name) || (act.Unregister? && act.name == name)
  }

  lemma ActReassigns(v: View, act: Act, name: string, id: RecordId)
    requires Proper(v) && Legal(v, act) && id in v.all && v.all[id].listed
    ensures Holds(Apply(v, act), name, id) <==> Holds(v, name, id) && !Renames(act, name)
  {
  }

  /** The move commits a Replace or a Remove of `name`, or an Add under it. */
  ghost predicate Reassigns(w: World, move: Move, name: string) {
    move.Proceed? && w.script != [] && Renames(w.script[0], name)
  }

  lemma NextReassigns(w: World, move: Move, name: string, id: RecordId)
    requires Inv(w) && Enabled(w, move) && id in w.v.all && w.v.all[id].listed
    ensures Holds(Next(w, move).v, name, id) <==> Holds(w.v, name, id) && !Reassigns(w, move, name)
  {
    if move.Proceed? {
      ActReassigns(w.v, w.script[0], name, id);
    } else {
      assert Next(w, move).v == w.v;
    }
  }

  /** No move from the `k`-th on commits a Replace or a Remove of `name`. */
  ghost predicate NotReassigned(moves: seq<Move>, k: nat, name: string) {
    forall j :: k <= j < |moves| ==> !Reassigns(Run(START, moves[..j]), moves[j], name)
  }

  lemma NotReassignedMore(moves: seq<Move>, k: nat, name: string)
    requires k < |moves|
    ensures var front := moves[..|moves| - 1];
            NotReassigned(moves, k, name) <==> NotReassigned(front, k, name) && !Reassigns(Run(START, front), moves[|moves| - 1], name)
  {
    var front := moves[..|moves| - 1];
    forall j | k <= j < |front|
      ensures front[..j] == moves[..j] && front[j] == moves[j]
    {
    }
  }

  lemma HolderIsListed(moves: seq<Move>, k: nat, name: string, id: RecordId)
    requires k <= |moves| && Holds(Run(START, moves[..k]).v, name, id)
    ensures id in Run(START, moves).v.all && Run(START, moves).v.all[id].listed
  {
    StartHasInv();
    RunKeepsInv(START, moves[..k]);
    RunMovesOnward(START, moves, k);
    assert OnwardOne(Run(START, moves[..k]).v, Run(START, moves).v, id);
  }

  /** From its look on, a generation holds its name exactly until a Replace or a Remove of that name commits. */
  lemma {:induction false} HoldsExactlyUntilReassigned(moves: seq<Move>, k: nat, name: string, id: RecordId)
    requires k <= |moves| && Holds(Run(START, moves[..k]).v, name, id)
    ensures Holds(Run(START, moves).v, name, id) <==> NotReassigned(moves, k, name)
  {
    if k == |moves| {
      assert moves[..k] == moves;
    } else {
      var front, move := moves[..|moves| - 1], moves[|moves| - 1];
      assert front[..k] == moves[..k];
      HoldsExactlyUntilReassigned(front, k, name, id);
      NotReassignedMore(moves, k, name);
      StartHasInv();
      RunKeepsInv(START, front);
      HolderIsListed(front, k, name, id);
      if Enabled(Run(START, front), move) {
        NextReassigns(Run(START, front), move, name, id);
      }
    }
  }

  /** The holder of the name and generation `id` have one gate. */
  predicate ShareGate(v: View, name: string, id: RecordId) {
    name in v.registry && id in v.all && v.registry[name] in v.all && v.all[v.registry[name]].gate == v.all[id].gate
  }

  lemma ActKeepsTheGate(v: View, act: Act, name: string, id: RecordId)
    requires Proper(v) && Legal(v, act) && ShareGate(v, name, id) && act != Unregister(name)
    ensures ShareGate(Apply(v, act), name, id)
  {
    ApplyMovesStage(v, act, id);
    ApplyMovesStage(v, act, v.registry[name]);
  }

  lemma NextKeepsTheGate(w: World, move: Move, name: string, id: RecordId)
    requires Inv(w) && Enabled(w, move) && ShareGate(w.v, name, id)
    requires !(move.Proceed? && w.script[0] == Unregister(name))
    ensures ShareGate(Next(w, move).v, name, id)
  {
    if move.Proceed? {
      ActKeepsTheGate(w.v, w.script[0], name, id);
    } else {
      assert Next(w, move).v == w.v;
    }
  }

  /** No move from the `k`-th on commits a Remove of `name`. */
  ghost predicate NotRemoved(moves: seq<Move>, k: nat, name: string) {
    forall j :: k <= j < |moves| && Enabled(Run(START, moves[..j]), moves[j]) && moves[j].Proceed? ==>
      Run(START, moves[..j]).script[0] != Unregister(name)
  }

  lemma NotRemovedLess(moves: seq<Move>, k: nat, name: string)
    requires k < |moves| && NotRemoved(moves, k, name)
    ensures var front, move := moves[..|moves| - 1], moves[|moves| - 1];
            && NotRemoved(front, k, name)
            && (Enabled(Run(START, front), move) && move.Proceed? ==> Run(START, front).script[0] != Unregister(name))
  {
    var front := moves[..|moves| - 1];
    forall j | k <= j < |front|
      ensures front[..j] == moves[..j] && front[j] == moves[j]
    {
    }
  }

  /**
   Until its name is removed, whoever holds the name shares the gate of the generation that held it: a trigger
   that looked before a replacement enters the gate that the replacement uses.
   */
  lemma {:induction false} GateIsShared(moves: seq<Move>, k: nat, name: string, id: RecordId)
    requires k <= |moves| && Holds(Run(START, moves[..k]).v, name, id) && NotRemoved(moves, k, name)
    ensures ShareGate(Run(START, moves).v, name, id)
  {
    StartHasInv();
    if k == |moves| {
      assert moves[..k] == moves;
      RunKeepsInv(START, moves);
    } else {
      var front, move := moves[..|moves| - 1], moves[|moves| - 1];
      assert front[..k] == moves[..k];
      NotRemovedLess(moves, k, name);
      GateIsShared(front, k, name, id);
      RunKeepsInv(START, front);
      if Enabled(Run(START, front), move) {
        NextKeepsTheGate(Run(START, front), move, name, id);
      }
    }
  }

  // ---------------------------------------------------------------------------------------------
  // A trigger that comes late
  // ---------------------------------------------------------------------------------------------

  lemma OneMove(w: World, moves: seq<Move>, move: Move)
    ensures Run(w, moves + [move]) == if Enabled(Run(w, moves), move) then Next(Run(w, moves), move) else Run(w, moves)
  {
    assert (moves + [move])[..|moves + [move]| - 1] == moves;
  }

  lemma {:induction false} RunOn(w: World, first: seq<Move>, second: seq<Move>)
    ensures Run(w, first + second) == Run(Run(w, first), second)
    decreases |second|
  {
    if second == [] {
      assert first + second == first;
    } else {
      var front := second[..|second| - 1];
      RunOn(w, first, front);
      assert first + second == (first + front) + [second[|second| - 1]];
      OneMove(w, first + front, second[|second| - 1]);
    }
  }

  /** An operation left to itself runs its script to the end. */
  lemma {:induction false} ScriptRunsOut(w: World, gate: GateId) returns (moves: seq<Move>)
    requires gate in w.gates
    ensures var u := Run(w, moves);
            && u.script == [] && u.v == ApplyAll(w.v, w.script) && u.goal == w.goal && u.s == w.s && u.triggers == w.triggers
            && gate in u.gates && u.gates[gate] == w.gates[gate].(policy := u.gates[gate].policy)
    decreases |w.script|
  {
    moves := [];
    if w.script != [] {
      var u := Next(w, Proceed);
      var rest := ScriptRunsOut(u, gate);
      assert [] + [Proceed] == [Proceed];
      OneMove(w, [], Proceed);
      RunOn(w, [Proceed], rest);
      moves := [Proceed] + rest;
    }
  }

  lemma OperationRunsOut(w: World, op: Operation, t: State, gate: GateId) returns (moves: seq<Move>)
    requires Inv(w) && Enabled(w, Lock(op, t)) && gate in w.gates
    ensures var u := Run(w, moves);
            && Settled(t, u.v) && u.triggers == w.triggers
            && gate in u.gates && u.gates[gate].active == w.gates[gate].active
  {
    var locked := Next(w, Lock(op, t));
    LockKeepsInv(w, op, t);
    OneMove(w, [], Lock(op, t));
    assert [] + [Lock(op, t)] == [Lock(op, t)];
    var acts := ScriptRunsOut(locked, gate);
    RunOn(w, [Lock(op, t)], acts);
    moves := [Lock(op, t)] + acts;
  }

  /**
   A trigger that has passed its look enters the gate all the same after its generation has been replaced:
   the retired generation runs, through the gate it shares with its successor.
   */
  lemma RetiredGenerationCanEnter(w: World, x: nat, job: Job, f: Faults) returns (moves: seq<Move>)
    requires Inv(w) && w.goal.None? && x in w.triggers && w.triggers[x].at == Passed
    requires Replace(Now(w), job, f).1.Success? && Now(w).jobs[job.name].id == w.triggers[x].id
    requires w.gates[Now(w).jobs[job.name].gate].active == 0
    ensures var u, id := Run(w, moves), w.triggers[x].id;
            && x in u.triggers && u.triggers[x] == Trigger(id, Entered(Gate.Executed))
            && id in u.v.all && StageOf(u.v.all[id]) == Retired && !Holds(u.v, job.name, id)
  {
    var acts, over := ReplacementRunsOut(w, job, f);
    LateEntry(Run(w, acts), x, over);
    OneMove(w, acts, EnterGate(x));
    moves := acts + [EnterGate(x)];
  }

  /** The generation of an idle gate is replaced. */
  lemma ReplacementRunsOut(w: World, job: Job, f: Faults) returns (moves: seq<Move>, over: Record)
    requires Inv(w) && w.goal.None? && Replace(Now(w), job, f).1.Success?
    requires w.gates[Now(w).jobs[job.name].gate].active == 0
    ensures var u, prior := Run(w, moves), Now(w).jobs[job.name];
            && u.triggers == w.triggers && over.id == prior.id && Shows(u.v, over) && !over.active && over.exposed
            && over.gate in u.gates && u.gates[over.gate].active == 0 && !Holds(u.v, job.name, over.id)
  {
    var s, t := Now(w), Replace(Now(w), job, f).0;
    CommittedReplaceRetires(s, job, f);
    moves := OperationRunsOut(w, OpReplace(job, f), t, s.jobs[job.name].gate);
    over := t.retired[s.jobs[job.name].id];
    var u := Run(w, moves);
    assert Shows(u.v, over) && Shows(u.v, t.jobs[job.name]) && u.v.registry[job.name] == t.jobs[job.name].id;
  }

  lemma LateEntry(w: World, x: nat, over: Record)
    requires x in w.triggers && w.triggers[x] == Trigger(over.id, Passed)
    requires Shows(w.v, over) && !over.active && over.exposed
    requires over.gate in w.gates && w.gates[over.gate].active == 0
    ensures Enabled(w, EnterGate(x))
    ensures var u := Next(w, EnterGate(x));
            u.v == w.v && u.triggers[x] == Trigger(over.id, Entered(Gate.Executed)) && StageOf(u.v.all[over.id]) == Retired
  {
  }
}
