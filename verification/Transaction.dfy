/**
 Staged file writes and deletes, published together: each destination is moved to a backup, each staged
 file is moved into place, and any failure on the way is undone.

 `Between` describes the tree at every moment of a Commit. Project paths start with a name; the stage
 and the backup are temporary directories, so no project path leads into them.
 */
module Transaction {
  import opened Wrappers
  import opened FileTree
  import opened Paths

  /** Of two paths of `s`, neither leads to the other. */
  ghost predicate Antichain(s: set<Path>) {
    forall a, b :: a in s && b in s && a != b ==> !Overlap(a, b)
  }

  /** The file (or link) at `p`. */
  function FileAt(tree: Tree, p: Path): Option<Node> {
    if p in tree && tree[p] != Dir then Some(tree[p]) else None
  }

  /** `p` is on the way to one of `writes`. */
  ghost predicate LeadsTo(p: Path, writes: set<Path>) {
    exists w :: w in writes && p <= w && p != w
  }

  // ---------------------------------------------------------------------------------------------
  // What the operations do to files and directories
  // ---------------------------------------------------------------------------------------------

  lemma MkdirFileAt(tree: Tree, p: Path, q: Path)
    requires CanMkdirAll(tree, p)
    ensures FileAt(WithDirs(tree, p), q) == FileAt(tree, q)
    ensures IsDir(WithDirs(tree, p), q) <==> IsDir(tree, q) || q <= p
  {
    WithDirsAt(tree, p, q);
    if q <= p && q != [] {
      assert p[..|q|] == q;
    }
  }

  /** Directories on the way to `dir` were made, and that is all that changed. */
  ghost predicate Widened(tree: Tree, after: Tree, dir: Path) {
    && WellFormed(after)
    && (forall p :: FileAt(after, p) == FileAt(tree, p))
    && (forall p :: (IsDir(tree, p) ==> IsDir(after, p)) && (IsDir(after, p) ==> IsDir(tree, p) || p <= dir))
  }

  /** Even a failed MkdirAll makes nothing else. */
  lemma MkdirWidens(tree: Tree, after: Tree, dir: Path)
    requires WellFormed(tree) && CanMkdirAll(tree, dir)
    requires exists k :: 0 <= k <= |dir| && after == WithDirs(tree, dir[..k])
    ensures Widened(tree, after, dir)
  {
    var k :| 0 <= k <= |dir| && after == WithDirs(tree, dir[..k]);
    var part := dir[..k];
    assert forall j :: 0 < j <= k ==> part[..j] == dir[..j];
    WithDirsIsWellFormed(tree, part);
    forall p
      ensures FileAt(after, p) == FileAt(tree, p)
      ensures (IsDir(tree, p) ==> IsDir(after, p)) && (IsDir(after, p) ==> IsDir(tree, p) || p <= dir)
    {
      MkdirFileAt(tree, part, p);
      if p <= part {
        assert p == part[..|p|] == dir[..|p|];
      }
    }
  }

  lemma MkdirMakesDirs(tree: Tree, dir: Path)
    requires CanMkdirAll(tree, dir)
    ensures forall p :: p <= dir ==> IsDir(WithDirs(tree, dir), p)
  {
    forall p | p <= dir
      ensures IsDir(WithDirs(tree, dir), p)
    {
      MkdirFileAt(tree, dir, p);
    }
  }

  lemma RemoveFileAt(tree: Tree, p: Path, q: Path)
    requires WellFormed(tree) && p in tree && tree[p] != Dir
    ensures FileAt(Without(tree, p), q) == if q == p then None else FileAt(tree, q)
    ensures IsDir(Without(tree, p), q) <==> IsDir(tree, q)
  {
    if p <= q && q in tree {
      FilesAreLeaves(tree, p, q);
    }
  }

  /** A file moved onto a file or onto nothing. */
  lemma MoveFileAt(tree: Tree, src: Path, dst: Path, q: Path)
    requires WellFormed(tree) && CanRename(tree, src, dst) && tree[src] != Dir
    ensures FileAt(Move(tree, src, dst), q) == if q == dst then Some(tree[src]) else if q == src then None else FileAt(tree, q)
    ensures IsDir(Move(tree, src, dst), q) <==> IsDir(tree, q)
  {
    MoveAt(tree, src, dst, q);
    if dst <= q {
      MoveBelow(tree, src, dst, q);
    } else if src <= q && q in tree {
      FilesAreLeaves(tree, src, q);
    }
  }

  lemma MoveBelow(tree: Tree, src: Path, dst: Path, q: Path)
    requires WellFormed(tree) && CanRename(tree, src, dst) && tree[src] != Dir && dst <= q
    ensures q in tree ==> q == dst
    ensures Lookup(Move(tree, src, dst), q) == if q == dst then Some(tree[src]) else None
  {
    MoveAt(tree, src, dst, q);
    if q == dst {
      assert src + q[|dst|..] == src;
    } else {
      if src + q[|dst|..] in tree {
        FilesAreLeaves(tree, src, src + q[|dst|..]);
      }
      if q in tree {
        if dst in tree {
          FilesAreLeaves(tree, dst, q);
        } else {
          NothingBelow(tree, dst, q);
        }
      }
    }
  }

  /** The file at `src` is at `dst` instead, and that is all that changed. */
  ghost predicate Moved(tree: Tree, after: Tree, src: Path, dst: Path) {
    && WellFormed(after) && src != dst && FileAt(tree, src).Some?
    && (forall p :: FileAt(after, p) == if p == dst then FileAt(tree, src) else if p == src then None else FileAt(tree, p))
    && (forall p :: IsDir(after, p) <==> IsDir(tree, p))
  }

  lemma RenameMoves(tree: Tree, src: Path, dst: Path)
    requires WellFormed(tree) && CanRename(tree, src, dst) && tree[src] != Dir
    ensures Moved(tree, Move(tree, src, dst), src, dst)
  {
    MoveIsWellFormed(tree, src, dst);
    forall p
      ensures FileAt(Move(tree, src, dst), p) == if p == dst then FileAt(tree, src) else if p == src then None else FileAt(tree, p)
      ensures IsDir(Move(tree, src, dst), p) <==> IsDir(tree, p)
    {
      MoveFileAt(tree, src, dst, p);
    }
  }

  // ---------------------------------------------------------------------------------------------
  // The tree during a Commit
  // ---------------------------------------------------------------------------------------------

  datatype Plan = Plan(before: Tree, stage: Path, backup: Path, writes: set<Path>, deletes: set<Path>)

  ghost predicate Sound(plan: Plan) {
    && Scratch(plan.stage) && Scratch(plan.backup) && plan.stage != plan.backup
    && WellFormed(plan.before)
    && (forall p :: p in plan.writes + plan.deletes ==> Project(p))
    && Antichain(plan.writes + plan.deletes)
  }

  /** What a project path shows once `installed` are in place and `saved` are in the backup. */
  function Shown(plan: Plan, installed: set<Path>, saved: set<Path>, p: Path): Option<Node> {
    if p in installed then FileAt(plan.before, plan.stage + p)
    else if p in saved then None
    else FileAt(plan.before, p)
  }

  /** What is left at a staged place is the file that was staged there. */
  predicate StagedAs(before: Tree, tree: Tree, p: Path) {
    p in tree ==> tree[p].File? && p in before && before[p] == tree[p]
  }

  ghost predicate SavedAt(plan: Plan, tree: Tree, b: Path) {
    FileAt(plan.before, b).Some? && FileAt(tree, plan.backup + b) == FileAt(plan.before, b)
  }

  /** Directories are kept, and new ones are only those that staged files need. */
  ghost predicate DirsKept(before: Tree, tree: Tree, writes: set<Path>) {
    forall p :: Project(p) ==> (IsDir(before, p) ==> IsDir(tree, p)) && (IsDir(tree, p) ==> IsDir(before, p) || LeadsTo(p, writes))
  }

  ghost predicate Between(plan: Plan, tree: Tree, staged: set<Path>, installed: set<Path>, saved: set<Path>) {
    && WellFormed(tree)
    && installed <= plan.writes && staged <= plan.writes && saved <= plan.writes + plan.deletes
    && (forall p :: Project(p) ==> FileAt(tree, p) == Shown(plan, installed, saved, p))
    && (forall b :: b in saved ==> SavedAt(plan, tree, b))
    && (forall w :: w in staged ==> FileAt(tree, plan.stage + w) == FileAt(plan.before, plan.stage + w))
    && (forall w :: w in plan.writes ==> StagedAs(plan.before, tree, plan.stage + w))
    && (forall p :: p in installed ==> plan.stage + p in plan.before && plan.before[plan.stage + p].File?)
    && (forall p :: p in installed && p !in saved ==> FileAt(plan.before, p).None?)
    && IsDir(tree, plan.stage)
    && DirsKept(plan.before, tree, plan.writes)
  }

  /** A file is at its place or in the backup. */
  ghost predicate NothingLost(plan: Plan, tree: Tree) {
    forall p :: Project(p) && FileAt(plan.before, p).Some? ==>
      FileAt(plan.before, p) == FileAt(tree, p) || FileAt(plan.before, p) == FileAt(tree, plan.backup + p)
  }

  /** What Commit demands of a staged path: nothing but a file, or nothing at all, where it leads. */
  ghost predicate Admissible(tree: Tree, p: Path) {
    Clear(tree, p) && !IsDir(tree, p)
  }

  /** And of a staged file that it is there. */
  ghost predicate Ready(plan: Plan, w: Path) {
    Admissible(plan.before, w) && FileAt(plan.before, plan.stage + w).Some?
  }

  ghost predicate AllReady(plan: Plan) {
    (forall w :: w in plan.writes ==> Ready(plan, w)) && forall d :: d in plan.deletes ==> Admissible(plan.before, d)
  }

  /** The backup holds the saved originals, and directories that lead to them or were made for one. */
  ghost predicate BackupOk(plan: Plan, tree: Tree, saved: set<Path>) {
    && IsDir(tree, plan.backup)
    && (forall p :: FileAt(tree, plan.backup + p).Some? ==> p in saved)
    && (forall p :: p != [] && IsDir(tree, plan.backup + p) ==> LeadsTo(p, plan.writes + plan.deletes))
  }

  lemma PrefixIsNotStaged(plan: Plan, p: Path, k: nat)
    requires Sound(plan) && p in plan.writes + plan.deletes && 0 < k < |p|
    ensures p[..k] !in plan.writes + plan.deletes && Project(p[..k])
  {
    assert p[..k] <= p && p[..k] != p;
  }

  lemma PrefixIsSame(
    plan: Plan, tree: Tree, staged: set<Path>, installed: set<Path>, saved: set<Path>, p: Path, k: nat)
    requires Sound(plan) && Between(plan, tree, staged, installed, saved) && p in plan.writes + plan.deletes && 0 < k < |p|
    ensures FileAt(tree, p[..k]) == FileAt(plan.before, p[..k])
  {
    PrefixIsNotStaged(plan, p, k);
    assert FileAt(tree, p[..k]) == Shown(plan, installed, saved, p[..k]);
  }

  lemma StagedIsNoDir(plan: Plan, tree: Tree, staged: set<Path>, installed: set<Path>, saved: set<Path>, p: Path)
    requires Sound(plan) && Between(plan, tree, staged, installed, saved) && p in plan.writes + plan.deletes
    ensures IsDir(tree, p) <==> IsDir(plan.before, p)
  {
    assert Project(p);
    if LeadsTo(p, plan.writes) {
      var w :| w in plan.writes && p <= w && p != w;
      assert Overlap(p, w);
    }
  }

  /** What is admissible when the Commit begins is admissible until it is installed. */
  lemma StaysAdmissible(plan: Plan, tree: Tree, staged: set<Path>, installed: set<Path>, saved: set<Path>, p: Path)
    requires Sound(plan) && Between(plan, tree, staged, installed, saved)
    requires p in plan.writes + plan.deletes && p !in installed && Admissible(plan.before, p)
    ensures Admissible(tree, p) && CanMkdirAll(tree, Parent(p))
  {
    StagedIsNoDir(plan, tree, staged, installed, saved, p);
    assert FileAt(tree, p) == Shown(plan, installed, saved, p) && p[..|p|] == p;
    forall k | 0 < k <= |p| && p[..k] in tree
      ensures tree[p[..k]] != Link && (k < |p| ==> tree[p[..k]] == Dir)
    {
      if k < |p| {
        PrefixIsSame(plan, tree, staged, installed, saved, p, k);
      }
    }
    assert forall k :: 0 < k <= |p| - 1 ==> Parent(p)[..k] == p[..k];
  }

  lemma WasAdmissible(plan: Plan, tree: Tree, staged: set<Path>, installed: set<Path>, saved: set<Path>, p: Path)
    requires Sound(plan) && Between(plan, tree, staged, installed, saved)
    requires p in plan.writes + plan.deletes && p !in installed && p !in saved && Admissible(tree, p)
    ensures Admissible(plan.before, p)
  {
    StagedIsNoDir(plan, tree, staged, installed, saved, p);
    assert FileAt(tree, p) == Shown(plan, installed, saved, p) && p[..|p|] == p;
    forall k | 0 < k <= |p| && p[..k] in plan.before
      ensures plan.before[p[..k]] != Link && (k < |p| ==> plan.before[p[..k]] == Dir)
    {
      if k < |p| {
        PrefixIsSame(plan, tree, staged, installed, saved, p, k);
      }
    }
  }

  lemma StagedCanMove(plan: Plan, tree: Tree, staged: set<Path>, installed: set<Path>, saved: set<Path>, w: Path)
    requires Sound(plan) && Between(plan, tree, staged, installed, saved) && w in staged && Ready(plan, w)
    requires Admissible(tree, w) && IsDir(tree, Parent(w))
    ensures Clear(tree, plan.stage + w) && CanRename(tree, plan.stage + w, w)
  {
    assert StagedAs(plan.before, tree, plan.stage + w);
    assert (plan.stage + w)[0] == plan.stage[0];
    FilesAreClear(tree, plan.stage + w);
  }

  lemma BackupPrefix(plan: Plan, b: Path, k: nat)
    requires Scratch(plan.backup) && b != [] && 0 < k <= |b|
    ensures Parent(plan.backup + b)[..k] == plan.backup + b[..k - 1]
  {
    assert (plan.backup + b)[..k] == plan.backup + b[..k - 1];
  }

  /** The backup always has a place for one more original. */
  lemma CanBackUp(plan: Plan, tree: Tree, staged: set<Path>, installed: set<Path>, saved: set<Path>, b: Path)
    requires Sound(plan) && Between(plan, tree, staged, installed, saved) && BackupOk(plan, tree, saved)
    requires b in plan.writes + plan.deletes && b !in saved
    ensures CanMkdirAll(tree, Parent(plan.backup + b))
    ensures plan.backup + b !in tree
  {
    forall k | 0 < k <= |Parent(plan.backup + b)| && Parent(plan.backup + b)[..k] in tree
      ensures tree[Parent(plan.backup + b)[..k]] == Dir
    {
      BackupPrefix(plan, b, k);
      if k > 1 {
        PrefixIsNotStaged(plan, b, k - 1);
      } else {
        assert plan.backup + b[..0] == plan.backup;
      }
    }
    if IsDir(tree, plan.backup + b) {
      var q :| q in plan.writes + plan.deletes && b <= q && b != q;
      assert Overlap(b, q);
    }
  }

  lemma SavingKeepsBackupOk(plan: Plan, tree: Tree, after: Tree, saved: set<Path>, b: Path)
    requires Sound(plan) && BackupOk(plan, tree, saved) && Project(b) && Moved(tree, after, b, plan.backup + b)
    ensures BackupOk(plan, after, saved + {b})
  {
    forall p | FileAt(after, plan.backup + p).Some?
      ensures p in saved + {b}
    {
      assert (plan.backup + p)[0] == plan.backup[0];
      if plan.backup + p == plan.backup + b {
        assert p == (plan.backup + p)[1..] == (plan.backup + b)[1..] == b;
      }
    }
  }

  lemma Saved(plan: Plan, tree: Tree, staged: set<Path>, installed: set<Path>, saved: set<Path>, b: Path)
    requires Sound(plan) && Between(plan, tree, staged, installed, saved) && BackupOk(plan, tree, saved)
    requires b in plan.writes + plan.deletes && b !in installed && b !in saved && FileAt(tree, b).Some?
    requires CanRename(tree, b, plan.backup + b)
    ensures Between(plan, Move(tree, b, plan.backup + b), staged, installed, saved + {b})
    ensures BackupOk(plan, Move(tree, b, plan.backup + b), saved + {b})
  {
    RenameMoves(tree, b, plan.backup + b);
    SaveKeepsBetween(plan, tree, Move(tree, b, plan.backup + b), staged, installed, saved, b);
    SavingKeepsBackupOk(plan, tree, Move(tree, b, plan.backup + b), saved, b);
  }

  lemma InstallingKeepsBackupOk(plan: Plan, tree: Tree, after: Tree, saved: set<Path>, w: Path)
    requires Sound(plan) && BackupOk(plan, tree, saved) && Project(w) && Moved(tree, after, plan.stage + w, w)
    ensures BackupOk(plan, after, saved)
  {
    forall p
      ensures plan.backup + p != w
    {
      assert (plan.backup + p)[0] == plan.backup[0];
    }
  }

  lemma WideningKeepsBackupOk(plan: Plan, tree: Tree, after: Tree, saved: set<Path>, dir: Path)
    requires Sound(plan) && BackupOk(plan, tree, saved) && Widened(tree, after, dir)
    requires (dir != [] ==> dir[0] != plan.backup[0]) || exists b :: b in plan.writes + plan.deletes && dir == Parent(plan.backup + b)
    ensures BackupOk(plan, after, saved)
  {
    forall p | p != [] && IsDir(after, plan.backup + p)
      ensures LeadsTo(p, plan.writes + plan.deletes)
    {
      assert (plan.backup + p)[0] == plan.backup[0];
      if !IsDir(tree, plan.backup + p) {
        var b :| b in plan.writes + plan.deletes && dir == Parent(plan.backup + b);
        BelowParent(plan.backup + p, plan.backup + b);
        assert p == (plan.backup + p)[1..] == (plan.backup + b)[1..][..|p|] == b[..|p|];
        assert |p| < |b|;
      }
    }
  }

  lemma BetweenLosesNothing(plan: Plan, tree: Tree, staged: set<Path>, installed: set<Path>, saved: set<Path>)
    requires Between(plan, tree, staged, installed, saved)
    ensures NothingLost(plan, tree)
  {
  }

  /** Directories may be made in the backup, and on the way to a file that is published or restored. */
  lemma MkdirKeepsBetween(
    plan: Plan, tree: Tree, after: Tree, staged: set<Path>, installed: set<Path>, saved: set<Path>, dir: Path)
    requires Sound(plan) && Between(plan, tree, staged, installed, saved) && Widened(tree, after, dir)
    requires forall p :: Project(p) && p <= dir ==> IsDir(tree, p) || LeadsTo(p, plan.writes)
    requires dir != [] ==> dir[0] != plan.stage[0]
    ensures Between(plan, after, staged, installed, saved)
  {
    forall w | w in plan.writes
      ensures StagedAs(plan.before, after, plan.stage + w)
    {
      assert (plan.stage + w)[0] == plan.stage[0];
      assert StagedAs(plan.before, tree, plan.stage + w);
      assert FileAt(after, plan.stage + w) == FileAt(tree, plan.stage + w);
      assert IsDir(after, plan.stage + w) ==> IsDir(tree, plan.stage + w);
    }
  }

  /** An original moved to the backup. */
  lemma SaveKeepsBetween(
    plan: Plan, tree: Tree, after: Tree, staged: set<Path>, installed: set<Path>, saved: set<Path>, b: Path)
    requires Sound(plan) && Between(plan, tree, staged, installed, saved)
    requires b in plan.writes + plan.deletes && b !in installed && b !in saved
    requires Moved(tree, after, b, plan.backup + b)
    ensures Between(plan, after, staged, installed, saved + {b})
  {
    var dst := plan.backup + b;
    assert dst[0] == plan.backup[0];
    assert FileAt(tree, b) == Shown(plan, installed, saved, b) == FileAt(plan.before, b);
    forall c | c in saved
      ensures SavedAt(plan, after, c)
    {
      assert (plan.backup + c)[1..] == c && dst[1..] == b;
      assert (plan.backup + c)[0] == plan.backup[0];
    }
    StagesApart(plan, tree, after, b, dst);
  }

  /** Moving between project and backup leaves the stage alone. */
  lemma StagesApart(plan: Plan, tree: Tree, after: Tree, src: Path, dst: Path)
    requires src != [] && dst != [] && plan.stage != [] && src[0] != plan.stage[0] && dst[0] != plan.stage[0]
    requires Moved(tree, after, src, dst)
    ensures forall w :: FileAt(after, plan.stage + w) == FileAt(tree, plan.stage + w)
    ensures forall w :: StagedAs(plan.before, tree, plan.stage + w) ==> StagedAs(plan.before, after, plan.stage + w)
  {
    forall w
      ensures FileAt(after, plan.stage + w) == FileAt(tree, plan.stage + w)
      ensures StagedAs(plan.before, tree, plan.stage + w) ==> StagedAs(plan.before, after, plan.stage + w)
    {
      var p := plan.stage + w;
      assert p[0] == plan.stage[0];
      assert IsDir(after, p) <==> IsDir(tree, p);
    }
  }

  lemma InstallShows(
    plan: Plan, tree: Tree, after: Tree, staged: set<Path>, installed: set<Path>, saved: set<Path>, w: Path)
    requires Sound(plan) && Between(plan, tree, staged, installed, saved)
    requires w in staged && w !in installed && Moved(tree, after, plan.stage + w, w)
    ensures plan.stage + w in plan.before && plan.before[plan.stage + w].File?
    ensures forall p :: Project(p) ==> FileAt(after, p) == Shown(plan, installed + {w}, saved, p)
  {
    assert StagedAs(plan.before, tree, plan.stage + w);
    assert (plan.stage + w)[0] == plan.stage[0];
  }

  lemma InstallKeepsSaved(plan: Plan, tree: Tree, after: Tree, saved: set<Path>, w: Path)
    requires Sound(plan) && Project(w) && Moved(tree, after, plan.stage + w, w)
    requires forall b :: b in saved ==> SavedAt(plan, tree, b)
    ensures forall b :: b in saved ==> SavedAt(plan, after, b)
  {
    assert (plan.stage + w)[0] == plan.stage[0];
    forall b | b in saved
      ensures SavedAt(plan, after, b)
    {
      assert SavedAt(plan, tree, b) && (plan.backup + b)[0] == plan.backup[0];
    }
  }

  lemma InstallKeepsStaged(plan: Plan, tree: Tree, after: Tree, staged: set<Path>, w: Path)
    requires Sound(plan) && Project(w) && Moved(tree, after, plan.stage + w, w) && staged <= plan.writes
    requires forall v :: v in plan.writes ==> StagedAs(plan.before, tree, plan.stage + v)
    requires forall v :: v in staged ==> FileAt(tree, plan.stage + v) == FileAt(plan.before, plan.stage + v)
    ensures forall v :: v in plan.writes ==> StagedAs(plan.before, after, plan.stage + v)
    ensures forall v :: v in staged - {w} ==> FileAt(after, plan.stage + v) == FileAt(plan.before, plan.stage + v)
  {
    forall v | v in plan.writes
      ensures StagedAs(plan.before, after, plan.stage + v)
      ensures v in staged - {w} ==> FileAt(after, plan.stage + v) == FileAt(plan.before, plan.stage + v)
    {
      StageApart(plan, tree, after, w, v);
    }
  }

  /** A staged file moved into its place. */
  lemma InstallKeepsBetween(
    plan: Plan, tree: Tree, after: Tree, staged: set<Path>, installed: set<Path>, saved: set<Path>, w: Path)
    requires Sound(plan) && Between(plan, tree, staged, installed, saved)
    requires w in staged && w !in installed && (w !in saved ==> FileAt(plan.before, w).None?)
    requires Moved(tree, after, plan.stage + w, w)
    ensures Between(plan, after, staged - {w}, installed + {w}, saved)
  {
    InstallShows(plan, tree, after, staged, installed, saved, w);
    InstallKeepsSaved(plan, tree, after, saved, w);
    InstallKeepsStaged(plan, tree, after, staged, w);
  }

  lemma StageApart(plan: Plan, tree: Tree, after: Tree, w: Path, v: Path)
    requires Scratch(plan.stage) && Project(w) && StagedAs(plan.before, tree, plan.stage + v)
    requires Moved(tree, after, plan.stage + w, w)
    ensures StagedAs(plan.before, after, plan.stage + v)
    ensures v != w ==> FileAt(after, plan.stage + v) == FileAt(tree, plan.stage + v)
  {
    var p := plan.stage + v;
    assert p[0] == plan.stage[0];
    assert p[1..] == v && (plan.stage + w)[1..] == w;
    assert FileAt(after, p) == if v == w then None else FileAt(tree, p);
    assert IsDir(after, p) <==> IsDir(tree, p);
  }

  // ---------------------------------------------------------------------------------------------
  // Undoing
  // ---------------------------------------------------------------------------------------------

  /** The file at `p` is gone, and that is all that changed. */
  ghost predicate Removed(tree: Tree, after: Tree, p: Path) {
    && WellFormed(after)
    && (forall q :: FileAt(after, q) == if q == p then None else FileAt(tree, q))
    && (forall q :: IsDir(after, q) <==> IsDir(tree, q))
  }

  lemma RemoveRemoves(tree: Tree, p: Path)
    requires WellFormed(tree) && p != [] && p in tree && tree[p] != Dir
    ensures Removed(tree, Without(tree, p), p)
  {
    WithoutIsWellFormed(tree, p);
    forall q
      ensures FileAt(Without(tree, p), q) == if q == p then None else FileAt(tree, q)
      ensures IsDir(Without(tree, p), q) <==> IsDir(tree, q)
    {
      RemoveFileAt(tree, p, q);
    }
  }

  /** An installed file can be taken away again. */
  lemma CanUninstall(plan: Plan, tree: Tree, installed: set<Path>, saved: set<Path>, p: Path)
    requires Sound(plan) && Between(plan, tree, {}, installed, saved) && p in installed
    ensures p in tree && tree[p] != Dir && Clear(tree, p) && !HasChild(tree, p)
  {
    assert FileAt(tree, p) == Shown(plan, installed, saved, p);
    FilesAreClear(tree, p);
  }

  lemma RemovedElsewhere(plan: Plan, tree: Tree, after: Tree, p: Path, top: Path)
    requires Removed(tree, after, p) && Project(p) && Scratch(top)
    ensures forall q :: FileAt(after, top + q) == FileAt(tree, top + q) && (IsDir(after, top + q) <==> IsDir(tree, top + q))
  {
    forall q
      ensures FileAt(after, top + q) == FileAt(tree, top + q) && (IsDir(after, top + q) <==> IsDir(tree, top + q))
    {
      assert (top + q)[0] == top[0];
    }
  }

  lemma UninstallKeepsStaged(plan: Plan, tree: Tree, after: Tree, w: Path)
    requires plan.stage != [] && StagedAs(plan.before, tree, plan.stage + w)
    requires FileAt(after, plan.stage + w) == FileAt(tree, plan.stage + w)
    requires IsDir(after, plan.stage + w) <==> IsDir(tree, plan.stage + w)
    ensures StagedAs(plan.before, after, plan.stage + w)
  {
  }

  lemma UninstallKeepsBetween(plan: Plan, tree: Tree, after: Tree, installed: set<Path>, saved: set<Path>, p: Path)
    requires Sound(plan) && Between(plan, tree, {}, installed, saved) && p in installed
    requires Removed(tree, after, p)
    ensures Between(plan, after, {}, installed - {p}, saved)
  {
    RemovedElsewhere(plan, tree, after, p, plan.backup);
    RemovedElsewhere(plan, tree, after, p, plan.stage);
    forall w | w in plan.writes
      ensures StagedAs(plan.before, after, plan.stage + w)
    {
      UninstallKeepsStaged(plan, tree, after, w);
    }
  }

  lemma FilesAreClear(tree: Tree, p: Path)
    requires WellFormed(tree) && p in tree && tree[p].File?
    ensures Clear(tree, p) && !HasChild(tree, p)
  {
    forall k | 0 < k <= |p| && p[..k] in tree
      ensures tree[p[..k]] != Link && (k < |p| ==> tree[p[..k]] == Dir)
    {
      if k < |p| {
        PrefixesAreDirs(tree, p, k);
      } else {
        assert p[..k] == p;
      }
    }
    forall q | q in tree && p <= q
      ensures q == p
    {
      FilesAreLeaves(tree, p, q);
    }
  }

  lemma SavedPrefixIsDir(plan: Plan, tree: Tree, installed: set<Path>, saved: set<Path>, b: Path, k: nat)
    requires Sound(plan) && Between(plan, tree, {}, installed, saved) && b in saved && k < |b|
    ensures IsDir(tree, b[..k])
  {
    assert SavedAt(plan, tree, b) && Project(b);
    if 0 < k {
      PrefixesAreDirs(plan.before, b, k);
      assert Project(b[..k]);
    }
  }

  /** The place of a saved file is free, or holds what was installed there. */
  lemma PlaceIsFree(plan: Plan, tree: Tree, installed: set<Path>, saved: set<Path>, b: Path)
    requires Sound(plan) && Between(plan, tree, {}, installed, saved) && b in saved
    ensures b in tree ==> tree[b].File?
    ensures forall k :: 0 <= k < |b| ==> IsDir(tree, b[..k])
  {
    forall k | 0 <= k < |b|
      ensures IsDir(tree, b[..k])
    {
      SavedPrefixIsDir(plan, tree, installed, saved, b, k);
    }
    assert SavedAt(plan, tree, b) && Project(b);
    StagedIsNoDir(plan, tree, {}, installed, saved, b);
    assert FileAt(tree, b) == Shown(plan, installed, saved, b);
  }

  lemma CanRestore(plan: Plan, tree: Tree, installed: set<Path>, saved: set<Path>, b: Path)
    requires Sound(plan) && Between(plan, tree, {}, installed, saved) && b in saved
    ensures Clear(tree, b) && CanMkdirAll(tree, Parent(b))
    ensures CanRename(tree, plan.backup + b, b) && tree[plan.backup + b] != Dir
    ensures forall p :: Project(p) && p <= Parent(b) ==> IsDir(tree, p)
  {
    PlaceIsFree(plan, tree, installed, saved, b);
    assert SavedAt(plan, tree, b) && Project(b);
    assert (plan.backup + b)[0] == plan.backup[0];
    assert b[..|b|] == b;
    assert forall k :: 0 <= k <= |b| - 1 ==> Parent(b)[..k] == b[..k];
    forall p | Project(p) && p <= Parent(b)
      ensures IsDir(tree, p)
    {
      assert p == Parent(b)[..|p|] == b[..|p|];
    }
  }

  /** Moving a saved file back. */
  lemma RestoreKeepsBetween(plan: Plan, tree: Tree, after: Tree, installed: set<Path>, saved: set<Path>, b: Path)
    requires Sound(plan) && Between(plan, tree, {}, installed, saved) && b in saved
    requires Moved(tree, after, plan.backup + b, b)
    ensures Between(plan, after, {}, installed - {b}, saved - {b})
  {
    var src := plan.backup + b;
    assert SavedAt(plan, tree, b);
    assert src[0] == plan.backup[0];
    forall c | c in saved && c != b
      ensures SavedAt(plan, after, c)
    {
      assert SavedAt(plan, tree, c);
      assert (plan.backup + c)[1..] == c && src[1..] == b;
      assert (plan.backup + c)[0] == plan.backup[0];
    }
    StagesApart(plan, tree, after, src, b);
  }

  // ---------------------------------------------------------------------------------------------
  // Staging
  // ---------------------------------------------------------------------------------------------

  function Elements(s: seq<Path>): set<Path> {
    set p | p in s
  }

  ghost predicate Distinct(s: seq<Path>) {
    forall i, j :: 0 <= i < j < |s| ==> s[i] != s[j]
  }

  ghost predicate Lists(s: seq<Path>, elements: set<Path>) {
    Distinct(s) && Elements(s) == elements
  }

  lemma ListsMore(s: seq<Path>, elements: set<Path>, p: Path)
    requires Lists(s, elements) && p !in elements
    ensures Lists(s + [p], elements + {p})
  {
    forall i | 0 <= i < |s|
      ensures s[i] != p
    {
      assert s[i] in Elements(s);
    }
  }

  /** The first `n` of `s` are in `left`. */
  ghost predicate Awaits(s: seq<Path>, n: nat, left: set<Path>)
    requires n <= |s|
  {
    forall i :: 0 <= i < n ==> s[i] in left
  }

  /** Besides the first `n` of `s` there are at most so many in `left`. */
  ghost predicate LeavesAtMost(s: seq<Path>, n: nat, left: set<Path>, most: nat)
    requires n <= |s|
  {
    |left - Elements(s[..n])| <= most
  }

  lemma TakeLast(s: seq<Path>, n: nat, left: set<Path>, most: nat)
    requires n < |s| && Distinct(s) && Awaits(s, n + 1, left) && LeavesAtMost(s, n + 1, left, most)
    ensures s[n] in left && Awaits(s, n, left) && Awaits(s, n, left - {s[n]})
    ensures LeavesAtMost(s, n, left - {s[n]}, most) && LeavesAtMost(s, n, left, most + 1)
  {
    assert s[..n + 1] == s[..n] + [s[n]];
    assert left - Elements(s[..n]) == left - Elements(s[..n + 1]) + {s[n]};
    assert left - {s[n]} - Elements(s[..n]) == left - Elements(s[..n + 1]);
  }

  lemma FewerLeft(a: set<Path>, b: set<Path>)
    requires a <= b
    ensures |a| <= |b|
  {
    assert b == a + (b - a) && |b| == |a| + |b - a|;
  }

  lemma NotYet(s: seq<Path>, n: nat)
    requires n < |s| && Distinct(s)
    ensures s[n] in Elements(s) && s[n] !in Elements(s[..n])
    ensures Elements(s[..n + 1]) == Elements(s[..n]) + {s[n]}
  {
    assert s[..n + 1] == s[..n] + [s[n]];
  }

  /** Of `done`, exactly the paths that had a file are saved. */
  ghost predicate AllSaved(plan: Plan, done: set<Path>, saved: set<Path>) {
    forall p :: p in done ==> (p in saved <==> FileAt(plan.before, p).Some?)
  }

  /** All staged files but `todo` are ready, installed, and saved if they have an original. */
  ghost predicate Tally(plan: Plan, todo: set<Path>, installed: seq<Path>, backedUp: seq<Path>, inst: set<Path>, saved: set<Path>) {
    && todo <= plan.writes && inst == plan.writes - todo && saved <= inst
    && Lists(installed, inst) && Lists(backedUp, saved) && AllSaved(plan, inst, saved)
    && forall w :: w in inst ==> Ready(plan, w)
  }

  lemma TallyMore(
    plan: Plan, todo: set<Path>, installed: seq<Path>, backedUp: seq<Path>, inst: set<Path>, saved: set<Path>,
    w: Path, kept: bool, st: Status)
    requires Tally(plan, todo, installed, backedUp, inst, saved) && w in todo
    requires st == Done ==> Ready(plan, w) && (kept <==> FileAt(plan.before, w).Some?)
    ensures var backedUp', saved' := if kept then backedUp + [w] else backedUp, if kept then saved + {w} else saved;
            && Lists(backedUp', saved') && saved' <= plan.writes
            && (st == Done ==> Tally(plan, todo - {w}, installed + [w], backedUp', inst + {w}, saved'))
  {
    ListsMore(backedUp, saved, w);
    ListsMore(installed, inst, w);
    assert inst + {w} == plan.writes - (todo - {w});
  }

  lemma ForgetStaged(plan: Plan, tree: Tree, staged: set<Path>, installed: set<Path>, saved: set<Path>)
    requires Between(plan, tree, staged, installed, saved)
    ensures Between(plan, tree, {}, installed, saved)
  {
  }

  /** What is staged for `w` is not on the way to what is staged for `p`. */
  lemma ApartInStage(stage: Path, p: Path, w: Path)
    ensures stage + w <= stage + p ==> w <= p
  {
    if stage + w <= stage + p {
      assert w == (stage + w)[|stage|..] == (stage + p)[|stage|..][..|w|];
    }
  }

  lemma DirsMeanLookup(tree: Tree, after: Tree, q: Path)
    requires q != [] && FileAt(after, q) == FileAt(tree, q) && (IsDir(after, q) <==> IsDir(tree, q))
    ensures Lookup(after, q) == Lookup(tree, q)
  {
  }

  predicate StagedContent(tree: Tree, p: Path, content: string) {
    p in tree ==> tree[p] == File(content)
  }

  ghost predicate Starts(plan: Plan, contents: map<Path, string>) {
    contents.Keys == plan.writes && forall w :: w in plan.writes ==> StagedContent(plan.before, plan.stage + w, contents[w])
  }

  lemma BackupIsNew(plan: Plan)
    requires Scratch(plan.backup) && forall p :: p in plan.before ==> !(plan.backup <= p)
    ensures BackupOk(plan, plan.before[plan.backup := Dir], {})
  {
    forall p | p != []
      ensures plan.backup + p !in plan.before[plan.backup := Dir]
    {
      assert plan.backup <= plan.backup + p;
      assert |plan.backup + p| > |plan.backup|;
    }
  }

  /** The backup directory is new, so nothing else has changed. */
  lemma CommitStarts(plan: Plan, contents: map<Path, string>)
    requires Sound(plan) && Starts(plan, contents)
    requires forall p :: p in plan.before ==> !(plan.backup <= p)
    requires WellFormed(plan.before[plan.backup := Dir]) && IsDir(plan.before, plan.stage)
    ensures Between(plan, plan.before[plan.backup := Dir], plan.writes, {}, {})
    ensures BackupOk(plan, plan.before[plan.backup := Dir], {})
  {
    BackupIsNew(plan);
    var tree := plan.before[plan.backup := Dir];
    assert forall p :: FileAt(tree, p) == FileAt(plan.before, p);
    forall w | w in plan.writes
      ensures StagedAs(plan.before, tree, plan.stage + w)
    {
      assert (plan.stage + w)[0] == plan.stage[0];
      assert StagedContent(plan.before, plan.stage + w, contents[w]);
    }
  }

  /** What Commit makes of a project path. */
  function PublishedAt(before: Tree, contents: map<Path, string>, deletes: set<Path>, p: Path): Option<Node> {
    if p in contents then Some(File(contents[p])) else if p in deletes then None else FileAt(before, p)
  }

  lemma CommitEnds(plan: Plan, tree: Tree, saved: set<Path>, contents: map<Path, string>, p: Path)
    requires Sound(plan) && Starts(plan, contents) && Project(p)
    requires Between(plan, tree, {}, plan.writes, saved) && AllSaved(plan, plan.writes + plan.deletes, saved)
    ensures FileAt(tree, p) == PublishedAt(plan.before, contents, plan.deletes, p)
  {
    assert FileAt(tree, p) == Shown(plan, plan.writes, saved, p);
    if p in plan.writes {
      assert StagedContent(plan.before, plan.stage + p, contents[p]);
    }
  }

  /** What a Commit came to; `undone` counts the steps that could not be undone. */
  datatype Outcome =
    | Closed
    | NoBackup
    | Published(uncleaned: nat)
    | Failed(cause: Status, undone: nat)

  /** How many operations failed from outside: the cause, what was not undone, what was not cleaned up. */
  function OutsideFaults(r: Outcome): nat {
    match r
    case Closed => 0
    case NoBackup => 1
    case Published(uncleaned) => uncleaned
    case Failed(cause, undone) => undone + if cause == Fault then 1 else 0
  }

  /** The two ends of a Commit: all published, or, when all is undone, all as before. */
  ghost predicate Settles(plan: Plan, contents: map<Path, string>, r: Outcome, tree: Tree)
    requires r.Published? || r.Failed?
  {
    && DirsKept(plan.before, tree, plan.writes)
    && (r.Published? ==> forall p :: Project(p) ==> FileAt(tree, p) == PublishedAt(plan.before, contents, plan.deletes, p))
    && (r.Failed? ==> r.cause != Done && NothingLost(plan, tree))
    && (r.Failed? && r.undone == 0 ==> forall p :: Project(p) ==> FileAt(tree, p) == FileAt(plan.before, p))
  }

  /** The originals of `left` are in the backup; every other is at its place. */
  ghost predicate LeftBehind(plan: Plan, tree: Tree, left: set<Path>) {
    && (forall b :: b in left ==> Project(b) && SavedAt(plan, tree, b))
    && (forall p :: Project(p) && FileAt(plan.before, p).Some? && p !in left ==> FileAt(tree, p) == FileAt(plan.before, p))
  }

  lemma BetweenLeavesBehind(plan: Plan, tree: Tree, installed: set<Path>, saved: set<Path>)
    requires Sound(plan) && Between(plan, tree, {}, installed, saved)
    ensures LeftBehind(plan, tree, saved)
  {
    forall p | Project(p) && FileAt(plan.before, p).Some? && p !in saved
      ensures FileAt(tree, p) == FileAt(plan.before, p)
    {
      assert FileAt(tree, p) == Shown(plan, installed, saved, p);
    }
  }

  /** Once the backup is removed, nothing is lost exactly if each original left in it is at its place anyway. */
  lemma CleanupLosesExactly(plan: Plan, tree: Tree, after: Tree, left: set<Path>)
    requires Scratch(plan.backup) && LeftBehind(plan, tree, left)
    requires forall p :: Project(p) ==> Lookup(after, p) == Lookup(tree, p)
    requires forall p :: plan.backup <= p ==> p !in after
    ensures NothingLost(plan, after) <==> forall b :: b in left ==> FileAt(after, b) == FileAt(plan.before, b)
  {
    forall p | Project(p)
      ensures FileAt(after, p) == FileAt(tree, p) && FileAt(after, plan.backup + p).None?
    {
      assert Lookup(after, p) == Lookup(tree, p);
      assert plan.backup <= plan.backup + p;
    }
    forall b | b in left
      ensures Project(b) && FileAt(plan.before, b).Some?
    {
      assert SavedAt(plan, tree, b);
    }
  }

  /**
   A run that loses an original: it is moved to the backup, its replacement cannot be installed, it cannot be
   moved back either, and then stage and backup are removed.
   */
  lemma OriginalCanBeLost(plan: Plan, tree: Tree, w: Path)
    requires Sound(plan) && Between(plan, tree, plan.writes, {}, {}) && w in plan.writes && FileAt(plan.before, w).Some?
    requires CanRename(tree, w, plan.backup + w)
    ensures var saved := Move(tree, w, plan.backup + w);
            && Between(plan, saved, {}, {}, {w})
            && !NothingLost(plan, Without(Without(saved, plan.stage), plan.backup))
  {
    var saved := Move(tree, w, plan.backup + w);
    assert FileAt(tree, w) == Shown(plan, {}, {}, w);
    RenameMoves(tree, w, plan.backup + w);
    SaveKeepsBetween(plan, tree, saved, plan.writes, {}, {}, w);
    assert {} + {w} == {w};
    ForgetStaged(plan, saved, plan.writes, {}, {w});
    BetweenLeavesBehind(plan, saved, {}, {w});
    var after := Without(Without(saved, plan.stage), plan.backup);
    CleanupLosesExactly(plan, saved, after, {w});
    assert FileAt(saved, w) == Shown(plan, {}, {w}, w);
  }

  lemma CommitSettles(
    plan: Plan, contents: map<Path, string>, tree: Tree, st: Status, undone: nat, inst: set<Path>, saved: set<Path>)
    requires Sound(plan) && Starts(plan, contents) && Between(plan, tree, {}, inst, saved)
    requires st == Done ==> inst == plan.writes && AllSaved(plan, plan.writes + plan.deletes, saved)
    requires st != Done && undone == 0 ==> inst == {} && saved == {}
    ensures Settles(plan, contents, if st == Done then Published(0) else Failed(st, undone), tree)
  {
    if st == Done {
      forall p | Project(p)
        ensures FileAt(tree, p) == PublishedAt(plan.before, contents, plan.deletes, p)
      {
        CommitEnds(plan, tree, saved, contents, p);
      }
    } else {
      BetweenLosesNothing(plan, tree, {}, inst, saved);
    }
  }

  /** Cleaning up, done or failed, does not take the publication back. */
  lemma CleaningSettles(plan: Plan, contents: map<Path, string>, tree: Tree, after: Tree, uncleaned: nat)
    requires Settles(plan, contents, Published(0), tree)
    requires forall p :: Project(p) ==> Lookup(after, p) == Lookup(tree, p)
    ensures Settles(plan, contents, Published(uncleaned), after)
  {
    forall p | Project(p)
      ensures FileAt(after, p) == FileAt(tree, p) && (IsDir(after, p) <==> IsDir(tree, p))
    {
      assert Lookup(after, p) == Lookup(tree, p);
    }
  }

  class FileTransaction {
    const root: Root
    const stage: Path
    var backup: Option<Path>
    var deletes: seq<Path>
    var writes: set<Path>
    var open: bool
    ghost var contents: map<Path, string>

    ghost predicate Valid()
      reads this, root
    {
      && root.Valid() && Scratch(stage)
      && (backup.Some? ==> Scratch(backup.value) && backup.value != stage)
      && Distinct(deletes) && writes !! Elements(deletes)
      && (forall p :: p in writes + Elements(deletes) ==> Project(p))
      && Antichain(writes + Elements(deletes))
      && (open ==> IsDir(root.tree, stage))
      && contents.Keys == writes
      && (open ==> forall w :: w in writes ==> StagedContent(root.tree, stage + w, contents[w]))
    }

    /** What a Commit that began with the tree `before` is about. */
    ghost function PlanFrom(before: Tree): Plan
      requires backup.Some?
      reads this
    {
      Plan(before, stage, backup.value, writes, Elements(deletes))
    }

    /** What staging `p` demands of the project and of what is staged already. */
    ghost predicate Admits(p: Path)
      reads this, root
    {
      open && Clear(root.tree, p) && !IsDir(root.tree, p) && forall q :: q in writes + Elements(deletes) ==> !Overlap(q, p)
    }

    constructor (root: Root, stage: Path)
      requires root.Valid() && Scratch(stage) && IsDir(root.tree, stage)
      ensures Valid() && this.root == root && this.stage == stage
      ensures open && writes == {} && deletes == [] && backup == None
    {
      this.root := root;
      this.stage := stage;
      backup := None;
      deletes := [];
      writes, contents := {}, map[];
      open := true;
    }

    /** The checks that Write and Delete share. */
    method Check(p: Path) returns (st: Status)
      requires Valid() && open && Project(p)
      modifies root`faults
      ensures root.faults == old(root.faults) + if st == Fault then 1 else 0
      ensures st == Fault || st == if Admits(p) then Done else Refused
    {
      st := root.Validate(p);
      if st != Done {
        return;
      }
      var s := root.Lstat(p);
      if s == StatFault {
        return Fault;
      }
      assert p[..|p|] == p;
      if s == Found(Dir) {
        return Refused;
      }
      if s == StatRefused || (exists q :: q in deletes && Overlap(q, p)) || (exists q :: q in writes && Overlap(q, p)) {
        return Refused;
      }
    }

    method Delete(relative: string) returns (st: Status)
      requires Valid()
      modifies this, root`faults
      ensures root.faults == old(root.faults) + if st == Fault then 1 else 0
      ensures Valid() && open == old(open) && writes == old(writes) && contents == old(contents) && backup == old(backup)
      ensures st == Done ==> Locate(relative).Some? && old(Admits(Locate(relative).value))
      ensures deletes == if st == Done then old(deletes) + [Locate(relative).value] else old(deletes)
      ensures st == Refused ==> Locate(relative).None? || !old(Admits(Locate(relative).value))
      ensures st != Absent
    {
      var place := Locate(relative);
      if !open || place.None? {
        return Refused;
      }
      LocatedInProject(relative);
      st := Check(place.value);
      if st == Done {
        assert Elements(deletes + [place.value]) == Elements(deletes) + {place.value};
        deletes := deletes + [place.value];
      }
    }

    /** Creates the staged file, and the directories it needs inside the stage. */
    method Stage(p: Path, content: string) returns (st: Status)
      requires root.Valid() && p != []
      modifies root
      ensures root.faults == old(root.faults) + if st == Fault then 1 else 0
      ensures root.Valid() && st != Absent
      ensures st == Done ==> FileAt(root.tree, stage + p) == Some(File(content))
      ensures forall q :: IsDir(old(root.tree), q) ==> IsDir(root.tree, q)
      ensures forall q :: q != [] && !(q <= stage + p) ==> Lookup(root.tree, q) == Lookup(old(root.tree), q)
    {
      ghost var before := root.tree;
      var dir := Parent(stage + p);
      st := root.MkdirAll(dir);
      ghost var made := root.tree;
      if st != Refused {
        assert dir[..|dir|] == dir;
        MkdirWidens(before, made, dir);
      }
      forall q | q != [] && !(q <= stage + p)
        ensures Lookup(made, q) == Lookup(before, q)
      {
        if st != Refused {
          if q <= dir {
            BelowParent(q, stage + p);
          }
          DirsMeanLookup(before, made, q);
        }
      }
      if st == Done {
        st := root.WriteFile(stage + p, content);
      }
    }

    /** The project does not change until Commit. */
    method Write(relative: string, content: string) returns (st: Status)
      requires Valid()
      modifies this, root
      ensures root.faults == old(root.faults) + if st == Fault then 1 else 0
      ensures Valid() && open == old(open) && deletes == old(deletes) && backup == old(backup)
      ensures st == Done ==> Locate(relative).Some? && old(Admits(Locate(relative).value))
      ensures writes == if st == Done then old(writes) + {Locate(relative).value} else old(writes)
      ensures contents == if st == Done then old(contents)[Locate(relative).value := content] else old(contents)
      ensures st == Done ==> FileAt(root.tree, stage + Locate(relative).value) == Some(File(content))
      ensures forall p :: Project(p) ==> Lookup(root.tree, p) == Lookup(old(root.tree), p)
      ensures forall w :: w in old(writes) ==> Lookup(root.tree, stage + w) == Lookup(old(root.tree), stage + w)
      ensures st != Absent
    {
      var place := Locate(relative);
      if !open || place.None? {
        return Refused;
      }
      LocatedInProject(relative);
      st := Check(place.value);
      if st == Done {
        st := Enlist(place.value, content);
      }
    }

    /** Stages an admitted file. */
    method Enlist(p: Path, content: string) returns (st: Status)
      requires Valid() && Project(p) && Admits(p)
      modifies this, root
      ensures root.faults == old(root.faults) + if st == Fault then 1 else 0
      ensures Valid() && open == old(open) && deletes == old(deletes) && backup == old(backup)
      ensures writes == if st == Done then old(writes) + {p} else old(writes)
      ensures contents == if st == Done then old(contents)[p := content] else old(contents)
      ensures st == Done ==> FileAt(root.tree, stage + p) == Some(File(content))
      ensures forall q :: Project(q) ==> Lookup(root.tree, q) == Lookup(old(root.tree), q)
      ensures forall w :: w in old(writes) ==> Lookup(root.tree, stage + w) == Lookup(old(root.tree), stage + w)
      ensures st != Absent
    {
      st := Stage(p, content);
      assert (stage + p)[0] == stage[0];
      forall w | w in writes
        ensures Lookup(root.tree, stage + w) == Lookup(old(root.tree), stage + w)
      {
        ApartInStage(stage, p, w);
      }
      if st == Done {
        writes, contents := writes + {p}, contents[p := content];
      }
    }

    // -------------------------------------------------------------------------------------------
    // Publishing
    // -------------------------------------------------------------------------------------------

    method MakeDirs(dir: Path, ghost plan: Plan, ghost staged: set<Path>, ghost installed: set<Path>, ghost saved: set<Path>)
      returns (st: Status)
      requires Sound(plan) && Between(plan, root.tree, staged, installed, saved)
      requires forall p :: Project(p) && p <= dir ==> IsDir(root.tree, p) || LeadsTo(p, plan.writes)
      requires dir != [] ==> dir[0] != plan.stage[0]
      modifies root
      ensures root.faults == old(root.faults) + if st == Fault then 1 else 0
      ensures Between(plan, root.tree, staged, installed, saved)
      ensures st == Done ==> forall p :: p <= dir ==> IsDir(root.tree, p)
      ensures CanMkdirAll(old(root.tree), dir) && st != Fault ==> st == Done
      ensures st != Refused ==> Widened(old(root.tree), root.tree, dir)
      ensures st == Refused ==> root.tree == old(root.tree)
      ensures st != Absent
    {
      ghost var before := root.tree;
      st := root.MkdirAll(dir);
      if st != Refused {
        assert dir[..|dir|] == dir;
        MkdirWidens(before, root.tree, dir);
        MkdirKeepsBetween(plan, before, root.tree, staged, installed, saved, dir);
        if st == Done {
          MkdirMakesDirs(before, dir);
        }
      }
    }

    /** Moves the file at `b` to the backup. */
    method BackUp(
      b: Path, ghost plan: Plan, ghost staged: set<Path>, ghost installed: set<Path>, ghost saved: set<Path>)
      returns (st: Status)
      requires Sound(plan) && Between(plan, root.tree, staged, installed, saved)
      requires b in plan.writes + plan.deletes && b !in installed && b !in saved
      requires FileAt(root.tree, b).Some? && BackupOk(plan, root.tree, saved)
      requires backup == Some(plan.backup)
      modifies root
      ensures root.faults == old(root.faults) + if st == Fault then 1 else 0
      ensures st != Absent && (Admissible(plan.before, b) ==> st != Refused)
      ensures Between(plan, root.tree, staged, installed, if st == Done then saved + {b} else saved)
      ensures BackupOk(plan, root.tree, if st == Done then saved + {b} else saved)
    {
      var to := backup.value + b;
      ghost var start := root.tree;
      BackupIsScratch(plan, b);
      CanBackUp(plan, start, staged, installed, saved, b);
      st := MakeDirs(Parent(to), plan, staged, installed, saved);
      WideningKeepsBackupOk(plan, start, root.tree, saved, Parent(to));
      if st != Done {
        return;
      }
      if Admissible(plan.before, b) {
        StaysAdmissible(plan, root.tree, staged, installed, saved, b);
      }
      st := root.Validate(b);
      if st != Done {
        return;
      }
      ghost var before := root.tree;
      assert FileAt(before, b).Some?;
      CanBackUp(plan, before, staged, installed, saved, b);
      st := root.Rename(b, to);
      if st == Done {
        Saved(plan, before, staged, installed, saved, b);
      }
    }

    lemma BackupIsScratch(plan: Plan, b: Path)
      requires Scratch(plan.backup) && Scratch(plan.stage) && plan.stage != plan.backup && b != []
      ensures forall p :: Project(p) ==> !(p <= Parent(plan.backup + b))
      ensures Parent(plan.backup + b) != [] && Parent(plan.backup + b)[0] != plan.stage[0]
    {
      assert Parent(plan.backup + b)[0] == plan.backup[0];
    }

    /** One staged file: its original to the backup, its parents made, itself moved into place. */
    method PublishFile(
      w: Path, ghost plan: Plan, ghost staged: set<Path>, ghost installed: set<Path>, ghost saved: set<Path>)
      returns (st: Status, kept: bool)
      requires Sound(plan) && Between(plan, root.tree, staged, installed, saved)
      requires w in staged && w !in installed && w !in saved
      requires backup == Some(plan.backup) && stage == plan.stage && BackupOk(plan, root.tree, saved)
      modifies root
      ensures root.faults == old(root.faults) + if st == Fault then 1 else 0
      ensures st != Absent && (st == Done ==> Ready(plan, w)) && (Ready(plan, w) ==> st != Refused)
      ensures BackupOk(plan, root.tree, if kept then saved + {w} else saved)
      ensures Between(
                plan, root.tree, if st == Done then staged - {w} else staged,
                if st == Done then installed + {w} else installed, if kept then saved + {w} else saved)
      ensures st == Done ==> (kept <==> FileAt(plan.before, w).Some?)
    {
      kept := false;
      if Admissible(plan.before, w) {
        StaysAdmissible(plan, root.tree, staged, installed, saved, w);
      }
      st := root.Validate(w);
      if st != Done {
        return;
      }
      var s := root.Lstat(w);
      if s == StatFault || s == StatRefused || s == Found(Dir) {
        assert w[..|w|] == w;
        return if s == StatFault then Fault else Refused, false;
      }
      WasAdmissible(plan, root.tree, staged, installed, saved, w);
      assert FileAt(root.tree, w) == Shown(plan, installed, saved, w) == FileAt(plan.before, w);
      if s.Found? {
        st := BackUp(w, plan, staged, installed, saved);
        if st != Done {
          return;
        }
        kept := true;
      }
      st := Install(w, plan, staged, installed, if kept then saved + {w} else saved);
    }

    /** The parents are made, and the staged file is moved into place. */
    method Install(
      w: Path, ghost plan: Plan, ghost staged: set<Path>, ghost installed: set<Path>, ghost saved: set<Path>)
      returns (st: Status)
      requires Sound(plan) && Between(plan, root.tree, staged, installed, saved) && BackupOk(plan, root.tree, saved)
      requires w in staged && w !in installed && (w !in saved ==> FileAt(plan.before, w).None?) && Admissible(plan.before, w)
      requires stage == plan.stage
      modifies root
      ensures root.faults == old(root.faults) + if st == Fault then 1 else 0
      ensures st != Absent && (st == Done ==> Ready(plan, w)) && (Ready(plan, w) ==> st != Refused)
      ensures BackupOk(plan, root.tree, saved)
      ensures Between(
                plan, root.tree, if st == Done then staged - {w} else staged,
                if st == Done then installed + {w} else installed, saved)
    {
      ghost var start := root.tree;
      ParentsLeadThere(plan, w);
      StaysAdmissible(plan, start, staged, installed, saved, w);
      st := MakeDirs(Parent(w), plan, staged, installed, saved);
      WideningKeepsBackupOk(plan, start, root.tree, saved, Parent(w));
      if st != Done {
        return;
      }
      StaysAdmissible(plan, root.tree, staged, installed, saved, w);
      st := root.Validate(w);
      if st != Done {
        return;
      }
      if Ready(plan, w) {
        StagedCanMove(plan, root.tree, staged, installed, saved, w);
      }
      st := root.Validate(stage + w);
      if st != Done {
        return;
      }
      ghost var before := root.tree;
      assert StagedAs(plan.before, before, stage + w);
      st := root.Rename(stage + w, w);
      if st == Done {
        RenameMoves(before, stage + w, w);
        InstallKeepsBetween(plan, before, root.tree, staged, installed, saved, w);
        InstallingKeepsBackupOk(plan, before, root.tree, saved, w);
      }
    }

    lemma ParentsLeadThere(plan: Plan, w: Path)
      requires Sound(plan) && w in plan.writes
      ensures forall p :: Project(p) && p <= Parent(w) ==> LeadsTo(p, plan.writes)
      ensures Parent(w) != [] ==> Parent(w)[0] != plan.stage[0] && Parent(w)[0] != plan.backup[0]
    {
      forall p | Project(p) && p <= Parent(w)
        ensures LeadsTo(p, plan.writes)
      {
        BelowParent(p, w);
      }
    }

    /** One staged removal: whatever is there goes to the backup. */
    method RetireFile(d: Path, ghost plan: Plan, ghost installed: set<Path>, ghost saved: set<Path>)
      returns (st: Status, kept: bool)
      requires Sound(plan) && Between(plan, root.tree, {}, installed, saved)
      requires d in plan.deletes && d !in installed && d !in saved
      requires backup == Some(plan.backup) && BackupOk(plan, root.tree, saved)
      modifies root
      ensures root.faults == old(root.faults) + if st == Fault then 1 else 0
      ensures st != Absent && (st == Done ==> Admissible(plan.before, d)) && (Admissible(plan.before, d) ==> st != Refused)
      ensures BackupOk(plan, root.tree, if kept then saved + {d} else saved)
      ensures Between(plan, root.tree, {}, installed, if kept then saved + {d} else saved)
      ensures st == Done ==> (kept <==> FileAt(plan.before, d).Some?)
    {
      kept := false;
      if Admissible(plan.before, d) {
        StaysAdmissible(plan, root.tree, {}, installed, saved, d);
      }
      st := root.Validate(d);
      if st != Done {
        return;
      }
      var s := root.Lstat(d);
      assert d[..|d|] == d;
      if s != StatFault && s != StatRefused && s != Found(Dir) {
        WasAdmissible(plan, root.tree, {}, installed, saved, d);
      }
      assert FileAt(root.tree, d) == Shown(plan, installed, saved, d) == FileAt(plan.before, d);
      if s == NotExist {
        return;
      }
      if s == StatFault || s == StatRefused || s == Found(Dir) {
        return if s == StatFault then Fault else Refused, false;
      }
      st := BackUp(d, plan, {}, installed, saved);
      kept := st == Done;
    }

    // -------------------------------------------------------------------------------------------
    // Undoing
    // -------------------------------------------------------------------------------------------

    /** Takes installed file `p` away again. */
    method Uninstall(p: Path, ghost plan: Plan, ghost installed: set<Path>, ghost saved: set<Path>) returns (st: Status)
      requires Sound(plan) && Between(plan, root.tree, {}, installed, saved) && p in installed
      modifies root
      ensures root.faults == old(root.faults) + if st == Fault then 1 else 0
      ensures st == Done || st == Fault
      ensures Between(plan, root.tree, {}, if st == Done then installed - {p} else installed, saved)
    {
      CanUninstall(plan, root.tree, installed, saved, p);
      st := root.Validate(p);
      if st == Done {
        ghost var before := root.tree;
        st := root.Remove(p);
        if st == Done {
          RemoveRemoves(before, p);
          UninstallKeepsBetween(plan, before, root.tree, installed, saved, p);
        }
      }
    }

    /** Moves saved file `b` back to its place. */
    method Restore(b: Path, ghost plan: Plan, ghost installed: set<Path>, ghost saved: set<Path>) returns (st: Status)
      requires Sound(plan) && Between(plan, root.tree, {}, installed, saved) && b in saved
      requires backup == Some(plan.backup)
      modifies root
      ensures root.faults == old(root.faults) + if st == Fault then 1 else 0
      ensures st == Done || st == Fault
      ensures st == Done ==> Between(plan, root.tree, {}, installed - {b}, saved - {b})
      ensures st == Fault ==> Between(plan, root.tree, {}, installed, saved)
    {
      CanRestore(plan, root.tree, installed, saved, b);
      st := root.Validate(b);
      if st != Done {
        return;
      }
      st := MakeDirs(Parent(b), plan, {}, installed, saved);
      if st != Done {
        return;
      }
      ghost var before := root.tree;
      CanRestore(plan, before, installed, saved, b);
      st := root.Rename(backup.value + b, b);
      if st == Done {
        RenameMoves(before, backup.value + b, b);
        RestoreKeepsBetween(plan, before, root.tree, installed, saved, b);
      }
    }

    /** Newest first, going on past failures; only a fault from outside can leave a file installed. */
    method UninstallAll(installed: seq<Path>, ghost plan: Plan, ghost saved: set<Path>)
      returns (faults: nat, ghost left: set<Path>)
      requires Sound(plan) && Between(plan, root.tree, {}, Elements(installed), saved) && Distinct(installed)
      modifies root
      ensures Between(plan, root.tree, {}, left, saved) && |left| <= faults
      ensures root.faults == old(root.faults) + faults
    {
      faults, left := 0, Elements(installed);
      var index := |installed|;
      while index > 0
        invariant 0 <= index <= |installed|
        invariant Between(plan, root.tree, {}, left, saved)
        invariant Awaits(installed, index, left) && LeavesAtMost(installed, index, left, faults)
        invariant root.faults == old(root.faults) + faults
      {
        index := index - 1;
        TakeLast(installed, index, left, faults);
        var st := Uninstall(installed[index], plan, left, saved);
        if st == Done {
          left := left - {installed[index]};
        } else {
          faults := faults + 1;
        }
      }
    }

    /** Newest first, going on past failures; only a fault from outside can leave a file in the backup. */
    method RestoreAll(backedUp: seq<Path>, ghost plan: Plan, ghost installed: set<Path>)
      returns (faults: nat, ghost left: set<Path>, ghost kept: set<Path>)
      requires Sound(plan) && Between(plan, root.tree, {}, installed, Elements(backedUp)) && Distinct(backedUp)
      requires backup == Some(plan.backup)
      modifies root
      ensures Between(plan, root.tree, {}, left, kept) && left <= installed && |kept| <= faults
      ensures root.faults == old(root.faults) + faults
    {
      faults, left, kept := 0, installed, Elements(backedUp);
      var index := |backedUp|;
      while index > 0
        invariant 0 <= index <= |backedUp|
        invariant Between(plan, root.tree, {}, left, kept) && left <= installed
        invariant Awaits(backedUp, index, kept) && LeavesAtMost(backedUp, index, kept, faults)
        invariant root.faults == old(root.faults) + faults
      {
        index := index - 1;
        TakeLast(backedUp, index, kept, faults);
        var b := backedUp[index];
        var st := Restore(b, plan, left, kept);
        if st == Done {
          left, kept := left - {b}, kept - {b};
        } else {
          faults := faults + 1;
        }
      }
    }

    /**
     Undoes the installations and then the backups. It leaves no more behind than operations failed from outside
     meanwhile, so nothing if none did.
     */
    method Unwind(installed: seq<Path>, backedUp: seq<Path>, ghost plan: Plan)
      returns (faults: nat, ghost left: set<Path>, ghost kept: set<Path>)
      requires Sound(plan) && Between(plan, root.tree, {}, Elements(installed), Elements(backedUp))
      requires Distinct(installed) && Distinct(backedUp)
      requires backup == Some(plan.backup)
      modifies root
      ensures Between(plan, root.tree, {}, left, kept) && |left| + |kept| <= faults
      ensures root.faults == old(root.faults) + faults
    {
      faults, left := UninstallAll(installed, plan, Elements(backedUp));
      var more;
      ghost var before := left;
      more, left, kept := RestoreAll(backedUp, plan, left);
      FewerLeft(left, before);
      faults := faults + more;
    }

    // -------------------------------------------------------------------------------------------
    // Commit
    // -------------------------------------------------------------------------------------------

    /** Moves every staged file into place, in any order, until one cannot be. */
    method PublishAll(ghost plan: Plan)
      returns (st: Status, installed: seq<Path>, backedUp: seq<Path>, ghost inst: set<Path>, ghost saved: set<Path>)
      requires Sound(plan) && plan.writes == writes
      requires Between(plan, root.tree, writes, {}, {}) && BackupOk(plan, root.tree, {})
      requires backup == Some(plan.backup) && stage == plan.stage
      modifies root
      ensures root.faults == old(root.faults) + if st == Fault then 1 else 0
      ensures st != Absent && (st == Done ==> forall w :: w in writes ==> Ready(plan, w)) && (AllReady(plan) ==> st != Refused)
      ensures BackupOk(plan, root.tree, saved)
      ensures Lists(installed, inst) && Lists(backedUp, saved) && saved <= writes
      ensures Between(plan, root.tree, {}, inst, saved)
      ensures st == Done ==> inst == writes && AllSaved(plan, writes, saved)
    {
      st, installed, backedUp, inst, saved := Done, [], [], {}, {};
      var todo := writes;
      while todo != {}
        invariant Tally(plan, todo, installed, backedUp, inst, saved)
        invariant Between(plan, root.tree, todo, inst, saved) && BackupOk(plan, root.tree, saved)
        invariant root.faults == old(root.faults) && st == Done
      {
        var w :| w in todo;
        var kept;
        st, kept := PublishFile(w, plan, todo, inst, saved);
        TallyMore(plan, todo, installed, backedUp, inst, saved, w, kept, st);
        if kept {
          backedUp, saved := backedUp + [w], saved + {w};
        }
        if st != Done {
          ForgetStaged(plan, root.tree, todo, inst, saved);
          return;
        }
        installed, inst, todo := installed + [w], inst + {w}, todo - {w};
      }
    }

    /** Moves everything to be deleted to the backup, until something cannot be. */
    method RetireAll(backedUp: seq<Path>, ghost plan: Plan, ghost inst: set<Path>, ghost saved: set<Path>)
      returns (st: Status, backedUp': seq<Path>, ghost saved': set<Path>)
      requires Sound(plan) && plan.writes == writes && plan.deletes == Elements(deletes) && writes !! plan.deletes
      requires Distinct(deletes) && Lists(backedUp, saved) && saved <= writes && inst <= writes
      requires Between(plan, root.tree, {}, inst, saved) && AllSaved(plan, writes, saved) && BackupOk(plan, root.tree, saved)
      requires backup == Some(plan.backup)
      modifies root
      ensures root.faults == old(root.faults) + if st == Fault then 1 else 0
      ensures st != Absent && (st == Done ==> forall d :: d in plan.deletes ==> Admissible(plan.before, d))
      ensures AllReady(plan) ==> st != Refused
      ensures Lists(backedUp', saved')
      ensures Between(plan, root.tree, {}, inst, saved')
      ensures st == Done ==> AllSaved(plan, plan.writes + plan.deletes, saved')
    {
      st, backedUp', saved' := Done, backedUp, saved;
      ghost var done := writes;
      for i := 0 to |deletes|
        invariant Lists(backedUp', saved') && saved' <= done && done == writes + Elements(deletes[..i])
        invariant Between(plan, root.tree, {}, inst, saved') && BackupOk(plan, root.tree, saved')
        invariant AllSaved(plan, done, saved')
        invariant root.faults == old(root.faults) && st == Done
        invariant forall d :: d in Elements(deletes[..i]) ==> Admissible(plan.before, d)
      {
        var d := deletes[i];
        NotYet(deletes, i);
        var kept;
        st, kept := RetireFile(d, plan, inst, saved');
        if kept {
          ListsMore(backedUp', saved', d);
          backedUp', saved' := backedUp' + [d], saved' + {d};
        }
        if st != Done {
          return;
        }
        done := done + {d};
      }
      assert deletes[..|deletes|] == deletes;
    }

    /** Publishes and retires everything, or undoes what was done. */
    method Attempt(ghost plan: Plan) returns (st: Status, undone: nat, ghost inst: set<Path>, ghost saved: set<Path>)
      requires Sound(plan) && plan.writes == writes && plan.deletes == Elements(deletes) && writes !! plan.deletes
      requires Distinct(deletes) && Between(plan, root.tree, writes, {}, {}) && BackupOk(plan, root.tree, {})
      requires backup == Some(plan.backup) && stage == plan.stage
      modifies root
      ensures root.faults == old(root.faults) + (if st == Fault then 1 else 0) + undone && (st == Done ==> undone == 0)
      ensures st != Absent && (st == Done ==> AllReady(plan)) && (AllReady(plan) ==> st != Refused)
      ensures st != Done ==> |inst| + |saved| <= undone
      ensures Between(plan, root.tree, {}, inst, saved)
      ensures st == Done ==> inst == writes && AllSaved(plan, plan.writes + plan.deletes, saved)
      ensures st != Done && undone == 0 ==> inst == {} && saved == {}
    {
      var installed, backedUp;
      undone := 0;
      st, installed, backedUp, inst, saved := PublishAll(plan);
      if st == Done {
        st, backedUp, saved := RetireAll(backedUp, plan, inst, saved);
      }
      if st != Done {
        undone, inst, saved := Unwind(installed, backedUp, plan);
      }
    }

    /** Removes the stage and the backup; `gone` says that all of the backup was removed. */
    method Close() returns (uncleaned: nat, gone: bool)
      requires Valid() && open
      modifies this, root
      ensures root.faults == old(root.faults) + uncleaned
      ensures uncleaned == 0 ==> forall p :: stage <= p ==> p !in root.tree
      ensures (uncleaned == 0 && backup.Some? ==> gone) && (gone ==> backup.Some? && forall p :: backup.value <= p ==> p !in root.tree)
      ensures Valid() && !open && writes == old(writes) && deletes == old(deletes) && backup == old(backup)
      ensures contents == old(contents)
      ensures forall p :: Project(p) ==> Lookup(root.tree, p) == Lookup(old(root.tree), p)
    {
      open, gone := false, false;
      uncleaned := 0;
      var st := root.RemoveAll(stage);
      if st != Done {
        uncleaned := 1;
      }
      if backup.Some? {
        st := root.RemoveAll(backup.value);
        gone := st == Done;
        if !gone {
          uncleaned := uncleaned + 1;
        }
      }
      st := root.Close();
      if st != Done {
        uncleaned := uncleaned + 1;
      }
    }

    /** Gives up what is staged; the project stays as it is. */
    method Rollback() returns (uncleaned: nat, gone: bool)
      requires Valid()
      modifies this, root
      ensures root.faults == old(root.faults) + uncleaned
      ensures Valid() && !open && writes == old(writes) && deletes == old(deletes) && contents == old(contents) && backup == old(backup)
      ensures gone ==> backup.Some? && forall p :: backup.value <= p ==> p !in root.tree
      ensures old(open) && uncleaned == 0 ==> (backup.Some? ==> gone) && forall p :: stage <= p ==> p !in root.tree
      ensures !old(open) ==> root.tree == old(root.tree)
      ensures forall p :: Project(p) ==> Lookup(root.tree, p) == Lookup(old(root.tree), p)
    {
      uncleaned, gone := 0, false;
      if open {
        uncleaned, gone := Close();
      }
    }

    /** Makes the backup directory. */
    method Prepare() returns (ok: bool, ghost plan: Plan)
      requires Valid() && open
      modifies this, root
      ensures Valid() && open && writes == old(writes) && deletes == old(deletes) && contents == old(contents)
      ensures root.faults == old(root.faults) + if ok then 0 else 1
      ensures !ok ==> root.tree == old(root.tree)
      ensures ok ==> BackupOk(plan, root.tree, {})
      ensures ok ==> && backup.Some? && plan == PlanFrom(old(root.tree))
                     && Starts(plan, contents) && Between(plan, root.tree, writes, {}, {})
    {
      plan := Plan(root.tree, stage, stage, writes, Elements(deletes));
      var temp := root.MkdirTemp();
      ok := temp.Some?;
      if ok {
        plan := plan.(backup := temp.value);
        CommitStarts(plan, contents);
        forall w | w in writes
          ensures StagedContent(root.tree, stage + w, contents[w])
        {
          assert StagedContent(plan.before, stage + w, contents[w]);
          assert (stage + w)[0] != temp.value[0];
        }
        backup := temp;
      }
    }

    /**
     Either everything staged is published, even if cleaning up fails; or nothing is, unless undoing failed
     too, and then every file is still at its place or in the backup. With nothing failing from outside it
     publishes exactly if every staged path is ready, and with nothing failing after the cause, all is undone.
     */
    method Commit() returns (r: Outcome, ghost left: set<Path>)
      requires Valid()
      modifies this, root
      ensures Valid() && writes == old(writes) && deletes == old(deletes) && contents == old(contents)
      ensures root.faults == old(root.faults) + OutsideFaults(r)
      ensures r.Failed? ==> (r.cause == Refused || r.cause == Fault) && |left| <= r.undone
      ensures r.Closed? <==> !old(open)
      ensures r.Closed? || r.NoBackup? ==> root.tree == old(root.tree)
      ensures open <==> old(open) && !r.Published?
      ensures r.Published? || r.Failed? ==> backup.Some? && Settles(PlanFrom(old(root.tree)), contents, r, root.tree)
      ensures r.Published? ==> AllReady(PlanFrom(old(root.tree)))
      ensures r == Published(0) ==> forall p :: stage <= p || backup.value <= p ==> p !in root.tree
      ensures r.Failed? && r.cause == Refused ==> !AllReady(PlanFrom(old(root.tree)))
      ensures r.Failed? ==>
                && LeftBehind(PlanFrom(old(root.tree)), root.tree, left)
                && (r.undone == 0 ==> left == {})
    {
      left := {};
      if !open {
        return Closed, left;
      }
      var ok;
      ghost var plan, inst, saved;
      ok, plan := Prepare();
      if !ok {
        return NoBackup, left;
      }
      var st, undone;
      st, undone, inst, saved := Attempt(plan);
      CommitSettles(plan, contents, root.tree, st, undone, inst, saved);
      if st != Done {
        BetweenLeavesBehind(plan, root.tree, inst, saved);
        return Failed(st, undone), saved;
      }
      ghost var published := root.tree;
      var uncleaned, _ := Close();
      CleaningSettles(plan, contents, published, root.tree, uncleaned);
      return Published(uncleaned), left;
    }

    /**
     How generators use it: a Commit, and a Rollback whatever it came to. If the Commit failed and the Rollback
     removed the backup, nothing is lost exactly if each original that could not be moved back is at its place anyway.
     */
    method CommitOrDiscard() returns (r: Outcome, gone: bool, ghost left: set<Path>)
      requires Valid()
      modifies this, root
      ensures Valid() && !open
      ensures r.Published? || r.Failed? ==> backup.Some?
      ensures r.Failed? && root.faults == old(root.faults) + (if r.cause == Fault then 1 else 0) ==>
                && (forall p :: Project(p) ==> FileAt(root.tree, p) == FileAt(old(root.tree), p))
                && left == {} && gone
      ensures r.Failed? && r.cause == Refused ==> !AllReady(PlanFrom(old(root.tree)))
      ensures r.Published? ==>
                && Settles(PlanFrom(old(root.tree)), contents, r, root.tree)
      ensures r.NoBackup? || (r.Failed? && r.undone == 0) ==>
                forall p :: Project(p) ==> FileAt(root.tree, p) == FileAt(old(root.tree), p)
      ensures r.Failed? ==> backup.Some? && (r.undone == 0 ==> left == {})
      ensures r.Failed? && gone ==>
                (NothingLost(PlanFrom(old(root.tree)), root.tree)
                 <==> forall b :: b in left ==> FileAt(root.tree, b) == FileAt(old(root.tree), b))
    {
      r, left := Commit();
      ghost var committed := root.tree;
      var uncleaned;
      uncleaned, gone := Rollback();
      if r.Failed? && gone {
        CleanupLosesExactly(PlanFrom(old(root.tree)), committed, root.tree, left);
      }
      if r.NoBackup? || r.Failed? {
        forall p | Project(p)
          ensures FileAt(root.tree, p) == FileAt(committed, p)
        {
          assert Lookup(root.tree, p) == Lookup(committed, p);
        }
      }
    }
  }
}
