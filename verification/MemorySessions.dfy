/**
 The process-local session store. Expired entries are dropped on the way, by reads of them and by a sweep
 that writes start; the reference is a map that is never swept and is only read with the expiry in hand.

 A read takes the lock twice, once to look and once more when what it saw had expired, and other calls may
 come in between; so each locked section is a step of its own.
 */
module MemorySessions {
  import opened Wrappers
  import opened Tokens

  const CLEANUP_INTERVAL: nat := 60

  /** No expiry when `expiresAt` is missing. */
  datatype Entry = Entry(values: Values, expiresAt: Option<int>)

  predicate Expired(entry: Entry, now: int) {
    entry.expiresAt.Some? && now > entry.expiresAt.value
  }

  datatype Section =
    | Look(id: string, now: int)
    | LookAgain(id: string, now: int)
    | Set(id: string, values: Values, ttl: int, now: int)
    | Delete(id: string)

  /** `Expiry` sends a read on to its second section. */
  datatype Answer = Values(values: Values) | NotFound | Expiry | Done

  type Entries = map<string, Entry>

  datatype Store = Store(entries: Entries, nextCleanup: Option<int>)

  function NewEntry(values: Values, ttl: int, now: int): Entry {
    Entry(values, if ttl > 0 then Some(now + ttl) else None)
  }

  function Swept(entries: Entries, now: int): Entries {
    entries - (set id | id in entries && Expired(entries[id], now))
  }

  function Sweep(s: Store, now: int): Store {
    if s.nextCleanup.Some? && now < s.nextCleanup.value then s
    else Store(Swept(s.entries, now), Some(now + CLEANUP_INTERVAL))
  }

  function Perform(s: Store, step: Section): (Store, Answer) {
    match step
    case Look(id, now) =>
      (s, if id !in s.entries then NotFound else if Expired(s.entries[id], now) then Expiry else Answer.Values(s.entries[id].values))
    case LookAgain(id, now) =>
      if id !in s.entries then (s, NotFound)
      else if Expired(s.entries[id], now) then (s.(entries := s.entries - {id}), NotFound)
      else (s, Answer.Values(s.entries[id].values))
    case Set(id, values, ttl, now) => (Sweep(s.(entries := s.entries[id := NewEntry(values, ttl, now)]), now), Done)
    case Delete(id) => (s.(entries := s.entries - {id}), Done)
  }

  // ---------------------------------------------------------------------------------------------
  // The reference
  // ---------------------------------------------------------------------------------------------

  /** What was last set and not deleted since. */
  function Written(all: Entries, step: Section): Entries {
    match step
    case Set(id, values, ttl, now) => all[id := NewEntry(values, ttl, now)]
    case Delete(id) => all - {id}
    case _ => all
  }

  /** The values of an entry that has not expired. */
  function Read(all: Entries, id: string, now: int): Option<Values> {
    if id in all && !Expired(all[id], now) then Some(all[id].values) else None
  }

  /** A read that goes on to its second section has not answered yet. */
  predicate Faithful(all: Entries, step: Section, answer: Answer) {
    match step
    case Look(id, now) =>
      (match Read(all, id, now) case Some(v) => answer == Answer.Values(v) case None => answer == NotFound || answer == Expiry)
    case LookAgain(id, now) =>
      (match Read(all, id, now) case Some(v) => answer == Answer.Values(v) case None => answer == NotFound)
    case _ => answer == Done
  }

  function TimeOf(step: Section, last: int): int {
    if step.Delete? then last else step.now
  }

  /** The store has what was written, except for some of what has expired. */
  ghost predicate Follows(s: Store, all: Entries, last: int) {
    && (forall id :: id in s.entries ==> id in all && all[id] == s.entries[id])
    && (forall id :: id in all && id !in s.entries ==> Expired(all[id], last))
  }

  lemma StepFollows(s: Store, all: Entries, last: int, step: Section)
    requires Follows(s, all, last) && last <= TimeOf(step, last)
    ensures Follows(Perform(s, step).0, Written(all, step), TimeOf(step, last))
    ensures Faithful(all, step, Perform(s, step).1)
  {
  }

  function Run(start: Store, steps: seq<Section>): (Store, seq<Answer>) {
    if steps == [] then (start, [])
    else
      var (s, answers) := Run(start, steps[..|steps| - 1]);
      var (s', answer) := Perform(s, steps[|steps| - 1]);
      (s', answers + [answer])
  }

  function AllWritten(steps: seq<Section>): Entries {
    if steps == [] then map[] else Written(AllWritten(steps[..|steps| - 1]), steps[|steps| - 1])
  }

  function LastTime(steps: seq<Section>, start: int): int {
    if steps == [] then start else TimeOf(steps[|steps| - 1], LastTime(steps[..|steps| - 1], start))
  }

  /** Times do not go back. */
  ghost predicate InOrder(steps: seq<Section>, begun: int) {
    forall i :: 0 <= i < |steps| ==> LastTime(steps[..i], begun) <= TimeOf(steps[i], LastTime(steps[..i], begun))
  }

  ghost predicate AllFaithful(steps: seq<Section>, answers: seq<Answer>) {
    |answers| == |steps| && forall i :: 0 <= i < |steps| ==> Faithful(AllWritten(steps[..i]), steps[i], answers[i])
  }

  /** Whatever sections interleave, sweeping never shows. */
  lemma {:induction false} SweepingNeverShows(start: Store, begun: int, steps: seq<Section>)
    requires start.entries == map[] && InOrder(steps, begun)
    ensures Follows(Run(start, steps).0, AllWritten(steps), LastTime(steps, begun))
    ensures AllFaithful(steps, Run(start, steps).1)
  {
    if steps != [] {
      var front, step := steps[..|steps| - 1], steps[|steps| - 1];
      assert forall i :: 0 <= i < |front| ==> steps[..i] == front[..i];
      SweepingNeverShows(start, begun, front);
      var s := Run(start, front).0;
      assert LastTime(steps[..|front|], begun) <= TimeOf(step, LastTime(steps[..|front|], begun));
      StepFollows(s, AllWritten(front), LastTime(front, begun), step);
      OneMoreFaithful(front, step, Run(start, front).1, Perform(s, step).1);
      assert steps == front + [step];
    }
  }

  lemma OneMoreFaithful(steps: seq<Section>, step: Section, answers: seq<Answer>, answer: Answer)
    requires AllFaithful(steps, answers) && Faithful(AllWritten(steps), step, answer)
    ensures AllFaithful(steps + [step], answers + [answer])
  {
    var all := steps + [step];
    assert all[..|steps|] == steps;
    assert forall i :: 0 <= i < |steps| ==> all[..i] == steps[..i];
  }

  predicate Writes(step: Section, id: string) {
    (step.Set? && step.id == id) || (step.Delete? && step.id == id)
  }

  /** Step `k` set the session, and nothing has set or deleted it since. */
  ghost predicate LastSet(steps: seq<Section>, k: nat, id: string) {
    k < |steps| && steps[k].Set? && steps[k].id == id && forall j :: k < j < |steps| ==> !Writes(steps[j], id)
  }

  lemma LastSetStays(steps: seq<Section>, step: Section, k: nat, id: string)
    requires !Writes(step, id)
    ensures LastSet(steps + [step], k, id) <==> LastSet(steps, k, id)
  {
    var all := steps + [step];
    assert k < |steps| ==> all[k] == steps[k];
    if LastSet(all, k, id) {
      assert forall j :: k < j < |steps| ==> all[j] == steps[j];
    }
  }

  lemma LastSetIsNew(steps: seq<Section>, step: Section, k: nat, id: string)
    requires Writes(step, id)
    ensures LastSet(steps + [step], k, id) <==> step.Set? && k == |steps|
  {
    var all := steps + [step];
    assert all[|steps|] == step;
  }

  /** A read finds the values last set, up to the ttl after that, or for ever if there is no ttl; and nothing else. */
  lemma {:induction false} ReadsWhatWasLastSet(steps: seq<Section>, id: string, now: int)
    ensures forall k: nat :: LastSet(steps, k, id) ==>
              Read(AllWritten(steps), id, now)
              == if steps[k].ttl > 0 && steps[k].now + steps[k].ttl < now then None else Some(steps[k].values)
    ensures (forall k: nat :: !LastSet(steps, k, id)) ==> Read(AllWritten(steps), id, now) == None
  {
    if steps != [] {
      var front, step := steps[..|steps| - 1], steps[|steps| - 1];
      assert steps == front + [step];
      ReadsWhatWasLastSet(front, id, now);
      if Writes(step, id) {
        forall k: nat
          ensures LastSet(steps, k, id) <==> step.Set? && k == |front|
        {
          LastSetIsNew(front, step, k, id);
        }
        assert step.Set? ==> LastSet(steps, |front|, id);
      } else {
        forall k: nat
          ensures LastSet(steps, k, id) <==> LastSet(front, k, id)
        {
          LastSetStays(front, step, k, id);
        }
      }
    }
  }

  /** The second look at an entry that has expired drops it; and a write drops nothing before a sweep is due. */
  lemma DroppedWhenSeen(s: Store, id: string, now: int, step: Section)
    ensures var after := Perform(s, LookAgain(id, now)).0.entries;
            (id in after ==> !Expired(after[id], now)) && forall other :: other in s.entries && other != id ==> other in after
    ensures step.Set? && s.nextCleanup.Some? && step.now < s.nextCleanup.value ==>
              Perform(s, step).0 == s.(entries := s.entries[step.id := NewEntry(step.values, step.ttl, step.now)])
  {
  }

  /** A sweep bounds what is kept: nothing that has expired is left. */
  lemma SweptIsFresh(s: Store, id: string, values: Values, ttl: int, now: int)
    requires s.nextCleanup.None? || s.nextCleanup.value <= now
    ensures var after := Perform(s, Set(id, values, ttl, now)).0;
            && (forall k :: k in after.entries ==> !Expired(after.entries[k], now))
            && after.nextCleanup == Some(now + CLEANUP_INTERVAL)
  {
  }

  // ---------------------------------------------------------------------------------------------
  // The store itself
  // ---------------------------------------------------------------------------------------------

  class MemoryStorage {
    var entries: Entries
    var nextCleanup: Option<int>

    ghost function State(): Store
      reads this
    {
      Store(entries, nextCleanup)
    }

    constructor (now: int)
      ensures State() == Store(map[], Some(now + CLEANUP_INTERVAL))
    {
      entries, nextCleanup := map[], Some(now + CLEANUP_INTERVAL);
    }

    method Look(id: string, now: int) returns (answer: Answer)
      ensures (State(), answer) == Perform(State(), Section.Look(id, now))
    {
      if id in entries && !Expired(entries[id], now) {
        return Answer.Values(entries[id].values);
      }
      return if id in entries then Expiry else NotFound;
    }

    method LookAgain(id: string, now: int) returns (answer: Answer)
      modifies this`entries
      ensures (State(), answer) == Perform(old(State()), Section.LookAgain(id, now))
    {
      if id !in entries {
        return NotFound;
      }
      if Expired(entries[id], now) {
        entries := entries - {id};
        return NotFound;
      }
      return Answer.Values(entries[id].values);
    }

    method Set(id: string, values: Values, ttl: int, now: int)
      modifies this
      ensures (State(), Done) == Perform(old(State()), Section.Set(id, values, ttl, now))
    {
      entries := entries[id := NewEntry(values, ttl, now)];
      CleanupExpired(now);
    }

    method CleanupExpired(now: int)
      modifies this
      ensures State() == Sweep(old(State()), now)
    {
      if nextCleanup.Some? && now < nextCleanup.value {
        return;
      }
      ghost var before := entries;
      var todo := entries.Keys;
      while todo != {}
        invariant todo <= before.Keys
        invariant forall id :: id in entries <==> id in todo || id in Swept(before, now)
        invariant forall id :: id in entries ==> id in before && entries[id] == before[id]
      {
        var id :| id in todo;
        if Expired(entries[id], now) {
          entries := entries - {id};
        }
        todo := todo - {id};
      }
      assert entries == Swept(before, now);
      nextCleanup := Some(now + CLEANUP_INTERVAL);
    }

    method Delete(id: string)
      modifies this`entries
      ensures (State(), Done) == Perform(old(State()), Section.Delete(id))
    {
      entries := entries - {id};
    }
  }
}
