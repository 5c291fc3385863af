/**
 Publishing generated code: two directories and the module files go.mod and go.sum change together.

 The directories are swapped first and stay reversible until they are committed; the module files are then
 rewritten by steps that may fail having changed anything in them. A failure before the commit puts both
 back; a failure in cleaning up after the commit puts back neither.
 */
module Pipeline {
  import opened Wrappers
  import opened FileTree
  import D = Directories

  const MODULE_FILES: set<string> := {"go.mod", "go.sum"}

  type Contents = map<string, string>

  /** How a run ends after its code was generated and validated. */
  datatype Ending =
    | NotStarted(cause: Status)
    | NotSwapped(cause: Status, undo: D.Undo)
    | NotStaged(undo: D.Undo)
    | Undone(undo: D.Undo, unrestored: nat)
    | Uncleaned(errors: nat)
    | Published

  /** How many steps failed from outside: the cause, what was not undone, what was not cleaned up. */
  function OutsideFaults(ending: Ending): nat {
    match ending
    case NotStarted(cause) => if cause == Fault then 1 else 0
    case NotSwapped(cause, undo) => (if cause == Fault then 1 else 0) + undo.undone + undo.uncleaned
    case NotStaged(undo) => 1 + undo.undone + undo.uncleaned
    case Undone(undo, unrestored) => 1 + undo.undone + undo.uncleaned + unrestored
    case Uncleaned(errors) => errors
    case Published => 0
  }

  /** The swaps are in place: each target is what was staged for it. */
  ghost predicate AllNew(before: Tree, items: seq<D.Item>, tree: Tree) {
    forall i :: 0 <= i < |items| ==> D.Subtree(tree, items[i].target) == D.Subtree(before, items[i].stage)
  }

  /** Removing the backup leaves what was installed. */
  lemma CommitKeepsSwapped(plan: D.Swaps, tree: Tree, after: Tree)
    requires D.Sound(plan) && D.Swapped(plan, tree)
    requires forall q :: !(plan.backup <= q) ==> Lookup(after, q) == Lookup(tree, q)
    ensures AllNew(plan.before, plan.items, after)
  {
    forall i | 0 <= i < |plan.items|
      ensures D.Subtree(after, plan.items[i].target) == D.Subtree(plan.before, plan.items[i].stage)
    {
      assert D.Stands(plan, tree, i, D.New);
      D.BackupIsApart(plan, i);
      D.SameElsewhere(tree, after, plan.backup, plan.items[i].target);
    }
  }

  /** `faults` counts the steps outside the root handle that failed. */
  class Workspace {
    const root: Root
    var modules: Contents
    ghost var faults: nat

    ghost predicate Valid()
      reads this, root
    {
      root.Valid() && modules.Keys <= MODULE_FILES
    }

    constructor (root: Root, modules: Contents)
      requires root.Valid() && modules.Keys <= MODULE_FILES
      ensures Valid() && this.root == root && this.modules == modules && faults == 0
    {
      this.root, this.modules := root, modules;
      faults := 0;
    }

    ghost function Faults(): nat
      reads this, root
    {
      root.faults + faults
    }

    /** Something outside may fail. */
    method Outside() returns (fault: bool)
      modifies `faults
      ensures faults == old(faults) + if fault then 1 else 0
    {
      fault := *;
      if fault {
        faults := faults + 1;
      }
    }

    /** Adding dependencies, or tidying: done or failed, it may leave anything in the module files. */
    method Rewrite() returns (ok: bool)
      requires Valid()
      modifies `modules, `faults
      ensures Valid() && faults == old(faults) + if ok then 0 else 1
    {
      var fault := Outside();
      ok := !fault;
      var mod: Option<string> := *;
      var sum: Option<string> := *;
      modules := (if mod.Some? then map["go.mod" := mod.value] else map[]) + (if sum.Some? then map["go.sum" := sum.value] else map[]);
    }

    /** Writes file `i` as it was, or removes it if there was none; a failed write may leave anything in it. */
    method RestoreFile(snapshot: Contents, file: string) returns (ok: bool)
      requires Valid() && snapshot.Keys <= MODULE_FILES && file in MODULE_FILES
      modifies `modules, `faults
      ensures Valid() && faults == old(faults) + (if ok then 0 else 1) && (ok ==> Same(modules, snapshot, file))
      ensures forall other :: other != file ==> Same(modules, old(modules), other)
    {
      var fault := Outside();
      ok := !fault;
      if file in snapshot {
        var content := snapshot[file];
        if fault {
          content := *;
        }
        modules := modules[file := content];
      } else if !fault {
        modules := modules - {file};
      }
    }

    /** Puts each module file back, going on past failures; as many are not as they were as steps have failed, at most. */
    method RestoreModuleFiles(snapshot: Contents) returns (unrestored: nat)
      requires Valid() && snapshot.Keys <= MODULE_FILES
      modifies `modules, `faults
      ensures Valid() && (unrestored == 0 ==> modules == snapshot) && faults == old(faults) + unrestored
      ensures |Differing(modules, snapshot)| <= unrestored
    {
      unrestored := 0;
      assert "go.mod"[3] != "go.sum"[3];
      var files := ["go.mod", "go.sum"];
      for i := 0 to |files|
        invariant Valid() && faults == old(faults) + unrestored
        invariant unrestored >= (if i < 1 || Same(modules, snapshot, files[0]) then 0 else 1)
                                + (if i < 2 || Same(modules, snapshot, files[1]) then 0 else 1)
      {
        ghost var was := modules;
        var ok := RestoreFile(snapshot, files[i]);
        assert files[1] != files[0];
        assert i == 1 ==> Same(modules, was, files[0]);
        if !ok {
          unrestored := unrestored + 1;
        }
      }
      FewDiffer(modules, snapshot, unrestored);
    }

    /** The steps between the swap and the commit, which only touch the module files. */
    method Update() returns (ok: bool)
      requires Valid()
      modifies `modules, `faults
      ensures Valid() && faults == old(faults) + if ok then 0 else 1
    {
      ok := Rewrite();
      if !ok {
        return;
      }
      ok := Rewrite();
      if !ok {
        return;
      }
      var unlisted := Outside();
      ok := !unlisted;
    }

    /** Swaps the directories, and has the swap undone when what was swapped cannot be listed. */
    method Stage(swaps: seq<D.Swap>) returns (r: Option<D.DirectoryTransaction>, ending: Ending)
      requires Valid()
      modifies root, `faults
      ensures Valid() && (r.Some? ==> ending == Published) && Faults() == old(Faults()) + OutsideFaults(ending)
      ensures r.Some? ==> D.Acceptable(old(root.tree), swaps) && D.DirsOnly(old(root.tree), D.Items(swaps))
      ensures r.None? ==> Reasoned(old(root.tree), swaps, ending)
      ensures r.Some? ==>
                && fresh(r.value) && r.value.Valid() && r.value.root == root && !r.value.done && !r.value.committed
                && r.value.plan == D.Swaps(old(root.tree), r.value.backupRoot, D.Items(swaps))
                && D.Swapped(r.value.plan, root.tree)
      ensures r.None? ==> (ending.NotStarted? || ending.NotSwapped? || ending.NotStaged?) && Untouched(old(root.tree), swaps, ending, root.tree)
    {
      var start := D.Begin(root, swaps);
      match start {
        case Rejected(cause) =>
          return None, NotStarted(cause);
        case RolledBack(cause, undo) =>
          return None, NotSwapped(cause, undo);
        case Started(transaction) =>
          var unlisted := Outside();
          if unlisted {
            var undo := transaction.Rollback();
            assert D.Undone(transaction.plan, root.tree, undo);
            return None, NotStaged(undo);
          }
          return Some(transaction), Published;
      }
    }

    /** Undoes the swap and the module files, unless the swap has been committed. */
    method RollbackFailedStage(snapshot: Contents, transaction: D.DirectoryTransaction) returns (undo: D.Undo, unrestored: nat)
      requires Valid() && transaction.Valid() && transaction.root == root && snapshot.Keys <= MODULE_FILES
      requires (transaction.committed ==> transaction.done) && (transaction.done ==> transaction.committed)
      modifies `modules, `faults, root, transaction
      ensures Valid()
      ensures Faults() == old(Faults()) + undo.undone + undo.uncleaned + unrestored
      ensures old(transaction.committed) ==> root.tree == old(root.tree) && modules == old(modules) && undo == D.Undo(0, false, 0) && unrestored == 0
      ensures !old(transaction.committed) ==>
                && D.Undone(transaction.plan, root.tree, undo)
                && (unrestored == 0 ==> modules == snapshot) && |Differing(modules, snapshot)| <= unrestored
    {
      if transaction.committed {
        return D.Undo(0, false, 0), 0;
      }
      undo := transaction.Rollback();
      unrestored := RestoreModuleFiles(snapshot);
    }

    /**
     The run from the swap on. With nothing failing from outside it publishes exactly if the swaps are acceptable and
     every old target is a directory; and with nothing failing after the cause, all is undone.
     */
    method Publish(swaps: seq<D.Swap>) returns (ending: Ending, ghost updated: Contents)
      requires Valid()
      modifies `modules, `faults, root
      ensures Faults() == old(Faults()) + OutsideFaults(ending) && Reasoned(old(root.tree), swaps, ending)
      ensures Valid() && Paired(old(root.tree), old(modules), updated, swaps, ending, root.tree, modules)
    {
      var snapshot := modules;
      updated := modules;
      var staged;
      staged, ending := Stage(swaps);
      if staged.None? {
        return;
      }
      var transaction := staged.value;
      ghost var plan := transaction.plan;
      var ok := Update();
      updated := modules;
      if !ok {
        var undo, unrestored := RollbackFailedStage(snapshot, transaction);
        assert D.Undone(plan, root.tree, undo);
        return Undone(undo, unrestored), updated;
      }
      ghost var swapped := root.tree;
      var uncleaned := transaction.Commit();
      CommitKeepsSwapped(plan, swapped, root.tree);
      if uncleaned > 0 {
        ghost var committed := root.tree;
        var undo, unrestored := RollbackFailedStage(snapshot, transaction);
        return Uncleaned(uncleaned), updated;
      }
      return Published, updated;
    }
  }

  predicate Same(a: Contents, b: Contents, file: string) {
    if file in b then file in a && a[file] == b[file] else file !in a
  }

  /** The module files that are not as in `b`. */
  function Differing(a: Contents, b: Contents): set<string> {
    set file | file in MODULE_FILES && !Same(a, b, file)
  }

  lemma FewDiffer(a: Contents, b: Contents, unrestored: nat)
    requires a.Keys <= MODULE_FILES && b.Keys <= MODULE_FILES
    requires unrestored >= (if Same(a, b, "go.mod") then 0 else 1) + (if Same(a, b, "go.sum") then 0 else 1)
    ensures |Differing(a, b)| <= unrestored && (unrestored == 0 ==> a == b)
  {
    var mod: set<string> := if Same(a, b, "go.mod") then {} else {"go.mod"};
    var sum: set<string> := if Same(a, b, "go.sum") then {} else {"go.sum"};
    assert Differing(a, b) == mod + sum;
    if unrestored == 0 {
      assert a.Keys == b.Keys;
    }
  }

  /** What the swaps are refused for, and what they have to be for a publication. */
  ghost predicate Reasoned(before: Tree, swaps: seq<D.Swap>, ending: Ending) {
    match ending
    case NotStarted(cause) => cause == Fault || (cause == Refused && !D.Acceptable(before, swaps))
    case NotSwapped(cause, _) => cause == Fault || (cause == Refused && !D.DirsOnly(before, D.Items(swaps)))
    case NotStaged(_) => true
    case Undone(_, _) => true
    case _ => D.Acceptable(before, swaps) && D.DirsOnly(before, D.Items(swaps))
  }

  /** Rejected without a change, or undone as far as the undo tells. */
  ghost predicate Untouched(before: Tree, swaps: seq<D.Swap>, ending: Ending, tree: Tree)
    requires ending.NotStarted? || ending.NotSwapped? || ending.NotStaged?
  {
    if ending.NotStarted? then tree == before
    else exists backup: Path :: D.Unused(before, backup) && D.Undone(D.Swaps(before, backup, D.Items(swaps)), tree, ending.undo)
  }

  /** Both old or both new; what could not be undone is counted. */
  ghost predicate Paired(
    before: Tree, modules: Contents, updated: Contents, swaps: seq<D.Swap>, ending: Ending, tree: Tree, modules': Contents) {
    match ending
    case Undone(undo, unrestored) =>
      && (exists backup: Path :: D.Unused(before, backup) && D.Undone(D.Swaps(before, backup, D.Items(swaps)), tree, undo))
      && (unrestored == 0 ==> modules' == modules) && |Differing(modules', modules)| <= unrestored
    case Uncleaned(_) => AllNew(before, D.Items(swaps), tree) && modules' == updated
    case Published => AllNew(before, D.Items(swaps), tree) && modules' == updated
    case _ => Untouched(before, swaps, ending, tree) && modules' == modules
  }

  /** Everything could be undone. */
  predicate CleanlyUndone(ending: Ending) {
    match ending
    case NotStarted(_) => true
    case NotSwapped(_, undo) => undo.undone == 0
    case NotStaged(undo) => undo.undone == 0
    case Undone(undo, unrestored) => undo.undone == 0 && unrestored == 0
    case _ => false
  }

  /** So a run that could undo what it had to undo leaves every directory and both module files as they were. */
  lemma CleanUndoIsOld(
    before: Tree, modules: Contents, updated: Contents, swaps: seq<D.Swap>, ending: Ending, tree: Tree, modules': Contents, q: Path)
    requires Paired(before, modules, updated, swaps, ending, tree, modules') && CleanlyUndone(ending)
    requires Project(q) && forall i :: 0 <= i < |swaps| ==> !(D.Items(swaps)[i].stage <= q)
    ensures modules' == modules
    ensures Lookup(tree, q) == Lookup(before, q)
            || (q !in before && Lookup(tree, q) == Some(Dir) && exists i :: 0 <= i < |swaps| && q <= D.Items(swaps)[i].target)
  {
    if !ending.NotStarted? {
      var backup: Path :| D.Unused(before, backup) && D.Undone(D.Swaps(before, backup, D.Items(swaps)), tree, ending.undo);
      var plan := D.Swaps(before, backup, D.Items(swaps));
      assert D.RestoredAt(plan, tree, q);
    }
  }
}
