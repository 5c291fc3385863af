/**
 A set of staged directories swapped into the project together, with the old ones recoverable from a
 backup until Commit.

 A rename carries a whole subtree, so the state is told in subtrees: `Between` says, for each swap, which
 subtree is at its target, and that the old one is in the backup when it is not. The overlap checks make
 the swaps independent: each step concerns one of them and leaves the others' subtrees alone.
 */
module Directories {
  import opened Wrappers
  import opened FileTree
  import opened Paths

  /** Everything at and below `p`, by its path from there. */
  function Subtree(tree: Tree, p: Path): set<(Path, Node)> {
    set q | q in tree && p <= q :: (q[|p|..], tree[q])
  }

  lemma SubtreeAt(tree: Tree, p: Path, r: Path)
    ensures forall n :: (r, n) in Subtree(tree, p) <==> Lookup(tree, p + r) == Some(n)
  {
    assert (p + r)[|p|..] == r;
    forall n | (r, n) in Subtree(tree, p)
      ensures Lookup(tree, p + r) == Some(n)
    {
      var q :| q in tree && p <= q && (q[|p|..], tree[q]) == (r, n);
      assert q == p + r;
    }
  }

  lemma SameSubtree(a: Tree, p: Path, b: Tree, q: Path)
    requires forall r: Path :: Lookup(a, p + r) == Lookup(b, q + r)
    ensures Subtree(a, p) == Subtree(b, q)
  {
    forall r, n
      ensures (r, n) in Subtree(a, p) <==> (r, n) in Subtree(b, q)
    {
      SubtreeAt(a, p, r);
      SubtreeAt(b, q, r);
      assert Lookup(a, p + r) == Lookup(b, q + r);
    }
  }

  lemma NoSubtree(tree: Tree, p: Path)
    requires forall r: Path :: p + r !in tree
    ensures Subtree(tree, p) == {}
  {
    forall r, n
      ensures (r, n) !in Subtree(tree, p)
    {
      SubtreeAt(tree, p, r);
    }
  }

  // ---------------------------------------------------------------------------------------------
  // What the operations do to subtrees
  // ---------------------------------------------------------------------------------------------

  lemma BothPrefixes(p: Path, q: Path, r: Path)
    requires q <= p + r
    ensures Overlap(p, q)
  {
    if |q| <= |p| {
      assert q == (p + r)[..|q|] == p[..|q|];
    } else {
      assert p == (p + r)[..|q|][..|p|] == q[..|p|];
    }
  }

  lemma ApartBelow(p: Path, q: Path, r: Path)
    requires !Overlap(p, q)
    ensures !(q <= p + r)
  {
    if q <= p + r {
      BothPrefixes(p, q, r);
    }
  }

  /** A move leaves every subtree away from both ends alone. */
  lemma MoveApart(tree: Tree, src: Path, dst: Path, p: Path)
    requires !Overlap(p, src) && !Overlap(p, dst)
    ensures Subtree(Move(tree, src, dst), p) == Subtree(tree, p)
  {
    forall r: Path
      ensures Lookup(Move(tree, src, dst), p + r) == Lookup(tree, p + r)
    {
      ApartBelow(p, src, r);
      ApartBelow(p, dst, r);
      MoveAt(tree, src, dst, p + r);
    }
    SameSubtree(Move(tree, src, dst), p, tree, p);
  }

  /** A move carries the subtree over. */
  lemma MoveCarries(tree: Tree, src: Path, dst: Path)
    requires !Overlap(src, dst)
    ensures Subtree(Move(tree, src, dst), dst) == Subtree(tree, src)
    ensures Subtree(Move(tree, src, dst), src) == {}
  {
    forall r: Path
      ensures Lookup(Move(tree, src, dst), dst + r) == Lookup(tree, src + r)
      ensures src + r !in Move(tree, src, dst)
    {
      assert (dst + r)[|dst|..] == r;
      MoveAt(tree, src, dst, dst + r);
      ApartBelow(src, dst, r);
      MoveAt(tree, src, dst, src + r);
    }
    SameSubtree(Move(tree, src, dst), dst, tree, src);
    NoSubtree(Move(tree, src, dst), src);
  }

  lemma OutsideMove(tree: Tree, src: Path, dst: Path, q: Path)
    requires !(src <= q) && !(dst <= q)
    ensures Lookup(Move(tree, src, dst), q) == Lookup(tree, q)
  {
    MoveAt(tree, src, dst, q);
  }

  // ---------------------------------------------------------------------------------------------
  // The swaps
  // ---------------------------------------------------------------------------------------------

  datatype Item = Item(stage: Path, target: Path)

  datatype Swaps = Swaps(before: Tree, backup: Path, items: seq<Item>)

  /** Where a target stands: untouched, moved away, replaced, or partly removed. */
  datatype Phase = Original | Away | New | Torn

  function Slot(plan: Swaps, i: nat): Path {
    plan.backup + [Numbered(i)]
  }

  predicate Apart(a: Item, b: Item) {
    !Overlap(a.target, b.target) && !Overlap(a.stage, b.stage)
  }

  /** The publication graph: nothing staged or replaced lies in another's way. */
  ghost predicate Disjoint(items: seq<Item>) {
    && (forall i, j :: 0 <= i < |items| && 0 <= j < |items| && i != j ==> Apart(items[i], items[j]))
    && (forall i, j :: 0 <= i < |items| && 0 <= j < |items| ==> !Overlap(items[i].stage, items[j].target))
  }

  predicate IsStage(tree: Tree, p: Path) {
    p in tree && tree[p] == Dir
  }

  /** A temporary directory that was not there. */
  ghost predicate Unused(tree: Tree, backup: Path) {
    Scratch(backup) && forall q :: q in tree ==> !(backup <= q)
  }

  ghost predicate Sane(tree: Tree, item: Item) {
    Project(item.target) && Clear(tree, item.target) && item.stage != [] && IsStage(tree, item.stage)
  }

  ghost predicate Sound(plan: Swaps) {
    && WellFormed(plan.before) && Disjoint(plan.items)
    && (forall i :: 0 <= i < |plan.items| ==> Sane(plan.before, plan.items[i]))
    && Unused(plan.before, plan.backup)
  }

  lemma SlotsAreApart(plan: Swaps, i: nat, j: nat, k: nat)
    requires Sound(plan) && i < |plan.items|
    ensures !Overlap(plan.items[i].target, Slot(plan, j))
    ensures !Overlap(plan.items[i].stage, Slot(plan, j))
    ensures j != k ==> !Overlap(Slot(plan, j), Slot(plan, k))
  {
    var item := plan.items[i];
    assert Sane(plan.before, item);
    assert Slot(plan, j)[0] == plan.backup[0] && Slot(plan, j)[1] == Numbered(j) && Slot(plan, k)[1] == Numbered(k);
    assert item.stage[0] == plan.backup[0] ==> plan.backup <= item.stage;
  }

  ghost predicate Kept(plan: Swaps, tree: Tree, i: nat)
    requires i < |plan.items|
  {
    plan.items[i].target in plan.before ==> Subtree(tree, Slot(plan, i)) == Subtree(plan.before, plan.items[i].target)
  }

  /** What is at target `i`; and, once it has been moved away, that the old subtree is in the backup. */
  ghost predicate Stands(plan: Swaps, tree: Tree, i: nat, phase: Phase)
    requires i < |plan.items|
  {
    var item := plan.items[i];
    match phase
    case Original => Subtree(tree, item.target) == Subtree(plan.before, item.target)
    case Away => Subtree(tree, item.target) == {} && Kept(plan, tree, i)
    case New => Subtree(tree, item.target) == Subtree(plan.before, item.stage) && Kept(plan, tree, i)
    case Torn => Kept(plan, tree, i)
  }

  ghost predicate Staged(plan: Swaps, tree: Tree, i: nat)
    requires i < |plan.items|
  {
    Subtree(tree, plan.items[i].stage) == Subtree(plan.before, plan.items[i].stage)
  }

  /** Neither swapped nor in the backup. */
  ghost predicate Free(plan: Swaps, q: Path) {
    !(plan.backup <= q) && forall i :: 0 <= i < |plan.items| ==> !(plan.items[i].target <= q) && !(plan.items[i].stage <= q)
  }

  ghost predicate OnTheWay(plan: Swaps, q: Path) {
    exists i :: 0 <= i < |plan.items| && q <= plan.items[i].target
  }

  /** Unchanged, or a directory made on the way to a target. */
  ghost predicate SameOrMade(plan: Swaps, before: Tree, after: Tree, q: Path) {
    Lookup(after, q) == Lookup(before, q) || (q !in before && Lookup(after, q) == Some(Dir) && OnTheWay(plan, q))
  }

  ghost predicate Around(plan: Swaps, before: Tree, after: Tree) {
    forall q :: Free(plan, q) ==> SameOrMade(plan, before, after, q)
  }

  ghost predicate AllStand(plan: Swaps, tree: Tree, phases: seq<Phase>) {
    |phases| == |plan.items| && forall i :: 0 <= i < |phases| ==> Stands(plan, tree, i, phases[i])
  }

  ghost predicate Between(plan: Swaps, tree: Tree, phases: seq<Phase>, from: nat) {
    && WellFormed(tree) && AllStand(plan, tree, phases)
    && (forall i :: from <= i < |plan.items| ==> Staged(plan, tree, i))
    && Around(plan, plan.before, tree)
  }

  // ---------------------------------------------------------------------------------------------
  // One step concerns one swap
  // ---------------------------------------------------------------------------------------------

  ghost predicate SameItem(plan: Swaps, tree: Tree, after: Tree, j: nat)
    requires j < |plan.items|
  {
    && Subtree(after, plan.items[j].target) == Subtree(tree, plan.items[j].target)
    && Subtree(after, plan.items[j].stage) == Subtree(tree, plan.items[j].stage)
    && Subtree(after, Slot(plan, j)) == Subtree(tree, Slot(plan, j))
  }

  ghost predicate OnlyItem(plan: Swaps, tree: Tree, after: Tree, i: nat) {
    && WellFormed(after) && Around(plan, tree, after)
    && forall j :: 0 <= j < |plan.items| && j != i ==> SameItem(plan, tree, after, j)
  }

  lemma StepKeepsBetween(plan: Swaps, tree: Tree, after: Tree, phases: seq<Phase>, from: nat, i: nat, phase: Phase, next: nat)
    requires i < |plan.items| && Between(plan, tree, phases, from) && OnlyItem(plan, tree, after, i)
    requires Stands(plan, after, i, phase) && from <= next
    requires next <= i ==> Staged(plan, after, i)
    ensures Between(plan, after, phases[i := phase], next)
  {
    var phases' := phases[i := phase];
    forall j | 0 <= j < |phases'|
      ensures Stands(plan, after, j, phases'[j])
    {
      if j != i {
        assert SameItem(plan, tree, after, j) && Stands(plan, tree, j, phases[j]);
      }
    }
    forall j | next <= j < |plan.items|
      ensures Staged(plan, after, j)
    {
      if j != i {
        assert SameItem(plan, tree, after, j) && Staged(plan, tree, j);
      }
    }
    forall q | Free(plan, q)
      ensures SameOrMade(plan, plan.before, after, q)
    {
      assert SameOrMade(plan, plan.before, tree, q) && SameOrMade(plan, tree, after, q);
    }
  }

  function Places(plan: Swaps, i: nat): set<Path>
    requires i < |plan.items|
  {
    {plan.items[i].target, plan.items[i].stage, Slot(plan, i)}
  }

  /** A move between two of the places of swap `i`. */
  lemma MoveTouchesOne(plan: Swaps, tree: Tree, i: nat, src: Path, dst: Path)
    requires Sound(plan) && WellFormed(tree) && i < |plan.items| && CanRename(tree, src, dst)
    requires src in Places(plan, i) && dst in Places(plan, i)
    ensures OnlyItem(plan, tree, Move(tree, src, dst), i)
  {
    var after := Move(tree, src, dst);
    MoveIsWellFormed(tree, src, dst);
    forall q | Free(plan, q)
      ensures SameOrMade(plan, tree, after, q)
    {
      assert plan.backup <= Slot(plan, i);
      OutsideMove(tree, src, dst, q);
    }
    forall j | 0 <= j < |plan.items| && j != i
      ensures SameItem(plan, tree, after, j)
    {
      ItemsAreApart(plan, i, j);
      MoveApart(tree, src, dst, plan.items[j].target);
      MoveApart(tree, src, dst, plan.items[j].stage);
      MoveApart(tree, src, dst, Slot(plan, j));
    }
  }

  /** No place of one swap overlaps a place of another. */
  lemma ItemsAreApart(plan: Swaps, i: nat, j: nat)
    requires Sound(plan) && i < |plan.items| && j < |plan.items| && i != j
    ensures forall a, b :: a in Places(plan, i) && b in Places(plan, j) ==> !Overlap(b, a)
  {
    SlotsAreApart(plan, i, j, i);
    SlotsAreApart(plan, j, i, j);
    assert Apart(plan.items[i], plan.items[j]);
  }

  // ---------------------------------------------------------------------------------------------
  // The steps
  // ---------------------------------------------------------------------------------------------

  lemma SameWhenAbsent(plan: Swaps, tree: Tree, i: nat)
    requires i < |plan.items| && WellFormed(plan.before) && WellFormed(tree) && plan.items[i].target != []
    ensures plan.items[i].target !in tree <==> Subtree(tree, plan.items[i].target) == {}
  {
    var target := plan.items[i].target;
    assert target + [] == target;
    SubtreeAt(tree, target, []);
    if target !in tree {
      forall r: Path
        ensures target + r !in tree
      {
        NothingBelow(tree, target, target + r);
      }
      NoSubtree(tree, target);
    }
  }

  /** The target moved to the backup. */
  lemma BackUpKeepsBetween(plan: Swaps, tree: Tree, phases: seq<Phase>, i: nat)
    requires Sound(plan) && Between(plan, tree, phases, 0) && i < |phases| && phases[i] == Original
    requires CanRename(tree, plan.items[i].target, Slot(plan, i))
    ensures Between(plan, Move(tree, plan.items[i].target, Slot(plan, i)), phases[i := Away], 0)
  {
    var item, slot := plan.items[i], Slot(plan, i);
    var after := Move(tree, item.target, slot);
    SlotsAreApart(plan, i, i, i);
    MoveTouchesOne(plan, tree, i, item.target, slot);
    MoveCarries(tree, item.target, slot);
    MoveApart(tree, item.target, slot, item.stage);
    assert Stands(plan, tree, i, Original) && Staged(plan, tree, i);
    StepKeepsBetween(plan, tree, after, phases, 0, i, Away, 0);
  }

  /** The backup is there, and has room from slot `n` on. */
  ghost predicate HasRoom(plan: Swaps, tree: Tree, n: nat) {
    IsDir(tree, plan.backup) && forall j :: n <= j < |plan.items| ==> Slot(plan, j) !in tree
  }

  /** Old targets are directories, and so can be moved. */
  ghost predicate DirsOnly(tree: Tree, items: seq<Item>) {
    DirsOnlyTo(tree, items, |items|)
  }

  ghost predicate DirsOnlyTo(tree: Tree, items: seq<Item>, n: nat)
    requires n <= |items|
  {
    forall i :: 0 <= i < n && items[i].target in tree ==> tree[items[i].target] == Dir
  }

  lemma DirsOnlyMore(tree: Tree, items: seq<Item>, n: nat)
    requires n < |items| && DirsOnlyTo(tree, items, n) && (items[n].target in tree ==> tree[items[n].target] == Dir)
    ensures DirsOnlyTo(tree, items, n + 1)
  {
  }

  lemma ClearIsNotBlocked(tree: Tree, p: Path)
    requires Clear(tree, p)
    ensures !Blocked(tree, p)
  {
  }

  lemma CanMoveAway(plan: Swaps, tree: Tree, i: nat)
    requires Sound(plan) && i < |plan.items| && HasRoom(plan, tree, i)
    requires plan.items[i].target in tree && tree[plan.items[i].target] == Dir
    ensures CanRename(tree, plan.items[i].target, Slot(plan, i))
  {
    SlotsAreApart(plan, i, i, i);
    assert Parent(Slot(plan, i)) == plan.backup;
  }

  lemma MovingLeavesRoom(plan: Swaps, tree: Tree, i: nat)
    requires Sound(plan) && i < |plan.items| && HasRoom(plan, tree, i)
    ensures HasRoom(plan, Move(tree, plan.items[i].target, Slot(plan, i)), i + 1)
  {
    var target, slot := plan.items[i].target, Slot(plan, i);
    BackupIsApart(plan, i);
    MoveAt(tree, target, slot, plan.backup);
    forall j | i + 1 <= j < |plan.items|
      ensures Slot(plan, j) !in Move(tree, target, slot)
    {
      SlotsAreApart(plan, i, j, i);
      MoveAt(tree, target, slot, Slot(plan, j));
    }
  }

  /** A staged directory can be moved to its place once that is free and its parent is there. */
  lemma CanInstall(plan: Swaps, tree: Tree, i: nat)
    requires Sound(plan) && WellFormed(tree) && i < |plan.items| && Staged(plan, tree, i)
    ensures Clear(tree, plan.items[i].stage)
    ensures Stands(plan, tree, i, Away) && IsDir(tree, Above(plan.items[i].target)) ==>
              CanRename(tree, plan.items[i].stage, plan.items[i].target)
  {
    var item := plan.items[i];
    assert Sane(plan.before, item);
    assert item.stage + [] == item.stage && item.stage[..|item.stage|] == item.stage;
    SubtreeAt(tree, item.stage, []);
    SubtreeAt(plan.before, item.stage, []);
    forall k | 0 < k < |item.stage|
      ensures IsDir(tree, item.stage[..k])
    {
      PrefixesAreDirs(tree, item.stage, k);
    }
    if Stands(plan, tree, i, Away) {
      StandingAt(plan, tree, i, Away);
    }
  }

  /** There was nothing to move. */
  lemma MissingIsAway(plan: Swaps, tree: Tree, phases: seq<Phase>, i: nat)
    requires Sound(plan) && Between(plan, tree, phases, 0) && i < |phases| && phases[i] == Original
    requires plan.items[i].target !in tree
    ensures plan.items[i].target !in plan.before && Between(plan, tree, phases[i := Away], 0)
  {
    assert Stands(plan, tree, i, Original) && Sane(plan.before, plan.items[i]);
    SameWhenAbsent(plan, tree, i);
    SameWhenAbsent(plan, plan.before, i);
    assert forall q :: SameOrMade(plan, tree, tree, q);
    assert Stands(plan, tree, i, Away);
    StepKeepsBetween(plan, tree, tree, phases, 0, i, Away, 0);
  }

  /** The staged subtree moved to the target. */
  lemma InstallKeepsBetween(plan: Swaps, tree: Tree, phases: seq<Phase>, i: nat)
    requires Sound(plan) && Between(plan, tree, phases, i) && i < |phases| && phases[i] == Away
    requires CanRename(tree, plan.items[i].stage, plan.items[i].target)
    ensures Between(plan, Move(tree, plan.items[i].stage, plan.items[i].target), phases[i := New], i + 1)
  {
    var item, slot := plan.items[i], Slot(plan, i);
    var after := Move(tree, item.stage, item.target);
    SlotsAreApart(plan, i, i, i);
    MoveTouchesOne(plan, tree, i, item.stage, item.target);
    MoveCarries(tree, item.stage, item.target);
    MoveApart(tree, item.stage, item.target, slot);
    assert Stands(plan, tree, i, Away) && Staged(plan, tree, i);
    StepKeepsBetween(plan, tree, after, phases, i, i, New, i + 1);
  }

  /** The saved subtree moved back. */
  lemma RestoreKeepsBetween(plan: Swaps, tree: Tree, phases: seq<Phase>, i: nat)
    requires Sound(plan) && Between(plan, tree, phases, |plan.items|) && i < |phases| && phases[i] == Away
    requires plan.items[i].target in plan.before && CanRename(tree, Slot(plan, i), plan.items[i].target)
    ensures Between(plan, Move(tree, Slot(plan, i), plan.items[i].target), phases[i := Original], |plan.items|)
  {
    var item, slot := plan.items[i], Slot(plan, i);
    SlotsAreApart(plan, i, i, i);
    MoveTouchesOne(plan, tree, i, slot, item.target);
    MoveCarries(tree, slot, item.target);
    assert Stands(plan, tree, i, Away);
    StepKeepsBetween(plan, tree, Move(tree, slot, item.target), phases, |phases|, i, Original, |phases|);
  }

  /** Where there was nothing, having it away is having it restored. */
  lemma AwayIsOriginal(plan: Swaps, tree: Tree, phases: seq<Phase>, i: nat)
    requires Sound(plan) && Between(plan, tree, phases, |plan.items|) && i < |phases| && phases[i] == Away
    requires plan.items[i].target !in plan.before
    ensures Between(plan, tree, phases[i := Original], |plan.items|)
  {
    assert Stands(plan, tree, i, Away) && Sane(plan.before, plan.items[i]);
    SameWhenAbsent(plan, plan.before, i);
    assert forall q :: SameOrMade(plan, tree, tree, q);
    assert Stands(plan, tree, i, Original);
    StepKeepsBetween(plan, tree, tree, phases, |phases|, i, Original, |phases|);
  }

  // ---------------------------------------------------------------------------------------------
  // Directories made, and subtrees removed
  // ---------------------------------------------------------------------------------------------

  ghost predicate Made(tree: Tree, after: Tree, dir: Path, q: Path) {
    Lookup(after, q) == Lookup(tree, q) || (q !in tree && q <= dir && Lookup(after, q) == Some(Dir))
  }

  lemma MkdirMakes(tree: Tree, after: Tree, dir: Path, q: Path)
    requires exists k :: 0 <= k <= |dir| && after == WithDirs(tree, dir[..k])
    ensures Made(tree, after, dir, q)
  {
    var k :| 0 <= k <= |dir| && after == WithDirs(tree, dir[..k]);
    WithDirsAt(tree, dir[..k], q);
    if q <= dir[..k] {
      assert q == dir[..k][..|q|] == dir[..|q|];
    }
  }

  lemma PrefixOfPrefix(p: Path, q: Path, r: Path)
    requires p <= q <= r
    ensures p <= r
  {
    assert p == q[..|p|] == r[..|p|];
  }

  lemma MadeApart(tree: Tree, after: Tree, dir: Path, p: Path)
    requires !(p <= dir) && forall q :: Made(tree, after, dir, q)
    ensures Subtree(after, p) == Subtree(tree, p)
  {
    forall r: Path
      ensures Lookup(after, p + r) == Lookup(tree, p + r)
    {
      assert Made(tree, after, dir, p + r);
      if p + r <= dir {
        PrefixOfPrefix(p, p + r, dir);
      }
    }
    SameSubtree(after, p, tree, p);
  }

  /** No place of a swap is on the way to a target. */
  lemma NotOnTheWay(plan: Swaps, i: nat, j: nat)
    requires Sound(plan) && i < |plan.items| && j < |plan.items|
    ensures forall p :: p in Places(plan, j) ==> !(p <= Above(plan.items[i].target))
    ensures !(plan.backup <= plan.items[i].target)
  {
    var a, b := plan.items[i], plan.items[j];
    assert Sane(plan.before, a) && Sane(plan.before, b);
    forall p | p in Places(plan, j)
      ensures !(p <= Above(a.target))
    {
      if p <= Parent(a.target) {
        BelowParent(p, a.target);
        SlotsAreApart(plan, i, j, j);
        if i != j {
          ItemsAreApart(plan, i, j);
        }
      }
    }
  }

  function Above(p: Path): Path {
    if p == [] then [] else Parent(p)
  }

  lemma MkdirTouchesNone(plan: Swaps, tree: Tree, after: Tree, i: nat, j: nat)
    requires Sound(plan) && i < |plan.items| && j < |plan.items|
    requires forall q :: Made(tree, after, Above(plan.items[i].target), q)
    ensures SameItem(plan, tree, after, j)
  {
    var dir := Above(plan.items[i].target);
    NotOnTheWay(plan, i, j);
    MadeApart(tree, after, dir, plan.items[j].target);
    MadeApart(tree, after, dir, plan.items[j].stage);
    MadeApart(tree, after, dir, Slot(plan, j));
  }

  lemma MkdirIsAround(plan: Swaps, tree: Tree, after: Tree, i: nat)
    requires i < |plan.items|
    requires forall q :: Made(tree, after, Above(plan.items[i].target), q)
    ensures Around(plan, tree, after)
  {
    var dir := Above(plan.items[i].target);
    forall q | Free(plan, q)
      ensures SameOrMade(plan, tree, after, q)
    {
      assert Made(tree, after, dir, q);
      if q <= dir {
        PrefixOfPrefix(q, dir, plan.items[i].target);
      }
    }
  }

  lemma MkdirKeepsBetween(plan: Swaps, tree: Tree, after: Tree, phases: seq<Phase>, from: nat, i: nat)
    requires Sound(plan) && Between(plan, tree, phases, from) && i < |phases| && WellFormed(after)
    requires forall q :: Made(tree, after, Above(plan.items[i].target), q)
    ensures Between(plan, after, phases, from)
    ensures Subtree(after, plan.items[i].target) == Subtree(tree, plan.items[i].target)
  {
    MkdirIsAround(plan, tree, after, i);
    forall j | 0 <= j < |plan.items|
      ensures SameItem(plan, tree, after, j)
    {
      MkdirTouchesNone(plan, tree, after, i, j);
    }
    assert SameItem(plan, tree, after, i) && Stands(plan, tree, i, phases[i]);
    assert from <= i ==> Staged(plan, tree, i);
    StepKeepsBetween(plan, tree, after, phases, from, i, phases[i], from);
    assert phases[i := phases[i]] == phases;
  }

  /** Whatever happened below the target, the rest stands. */
  lemma RemovalKeepsBetween(plan: Swaps, tree: Tree, after: Tree, phases: seq<Phase>, i: nat, gone: bool)
    requires Sound(plan) && Between(plan, tree, phases, |plan.items|) && i < |phases| && WellFormed(after)
    requires phases[i] == New
    requires forall q :: !(plan.items[i].target <= q) ==> Lookup(after, q) == Lookup(tree, q)
    requires gone ==> forall q :: plan.items[i].target <= q ==> q !in after
    ensures Between(plan, after, phases[i := if gone then Away else Torn], |plan.items|)
  {
    var target := plan.items[i].target;
    forall q | Free(plan, q)
      ensures SameOrMade(plan, tree, after, q)
    {
    }
    forall j | 0 <= j < |plan.items|
      ensures Subtree(after, Slot(plan, j)) == Subtree(tree, Slot(plan, j))
      ensures j != i ==> SameItem(plan, tree, after, j)
    {
      SlotsAreApart(plan, i, j, j);
      SameElsewhere(tree, after, target, Slot(plan, j));
      if j != i {
        ItemsAreApart(plan, i, j);
        SameElsewhere(tree, after, target, plan.items[j].target);
        SameElsewhere(tree, after, target, plan.items[j].stage);
      }
    }
    if gone {
      NoSubtree(after, target);
    }
    assert Stands(plan, tree, i, New);
    StepKeepsBetween(plan, tree, after, phases, |phases|, i, if gone then Away else Torn, |phases|);
  }

  lemma SameElsewhere(tree: Tree, after: Tree, gone: Path, p: Path)
    requires !Overlap(p, gone)
    requires forall q :: !(gone <= q) ==> Lookup(after, q) == Lookup(tree, q)
    ensures Subtree(after, p) == Subtree(tree, p)
  {
    forall r: Path
      ensures Lookup(after, p + r) == Lookup(tree, p + r)
    {
      ApartBelow(p, gone, r);
    }
    SameSubtree(after, p, tree, p);
  }

  // ---------------------------------------------------------------------------------------------
  // Nothing is in the way of undoing
  // ---------------------------------------------------------------------------------------------

  lemma PrefixIsFree(plan: Swaps, i: nat, q: Path)
    requires Sound(plan) && i < |plan.items| && q <= Above(plan.items[i].target)
    ensures Free(plan, q)
  {
    var target := plan.items[i].target;
    if plan.backup <= q {
      PrefixOfPrefix(plan.backup, q, Above(target));
      PrefixOfPrefix(plan.backup, Above(target), target);
      NotOnTheWay(plan, i, i);
    }
    forall j | 0 <= j < |plan.items|
      ensures !(plan.items[j].target <= q) && !(plan.items[j].stage <= q)
    {
      NotOnTheWay(plan, i, j);
      var other := plan.items[j];
      if other.target <= q {
        PrefixOfPrefix(other.target, q, Above(target));
      }
      if other.stage <= q {
        PrefixOfPrefix(other.stage, q, Above(target));
      }
    }
  }

  /** What is above a target is a directory, if it is there. */
  lemma PrefixesStayClear(plan: Swaps, tree: Tree, i: nat, k: nat)
    requires Sound(plan) && Around(plan, plan.before, tree) && i < |plan.items| && 0 < k < |plan.items[i].target|
    ensures plan.items[i].target[..k] in tree ==> tree[plan.items[i].target[..k]] == Dir
    ensures plan.items[i].target[..k] in plan.before ==> plan.items[i].target[..k] in tree
  {
    var target := plan.items[i].target;
    assert Sane(plan.before, plan.items[i]);
    assert target[..k] == Above(target)[..k];
    PrefixIsFree(plan, i, target[..k]);
    assert SameOrMade(plan, plan.before, tree, target[..k]);
  }

  lemma StandingAt(plan: Swaps, tree: Tree, i: nat, phase: Phase)
    requires Sound(plan) && i < |plan.items| && Stands(plan, tree, i, phase)
    ensures phase == Original ==> Lookup(tree, plan.items[i].target) == Lookup(plan.before, plan.items[i].target)
    ensures phase == Away ==> plan.items[i].target !in tree
    ensures phase == New ==> Lookup(tree, plan.items[i].target) == Some(Dir)
  {
    var item := plan.items[i];
    assert Sane(plan.before, item);
    assert item.target + [] == item.target && item.stage + [] == item.stage;
    SubtreeAt(tree, item.target, []);
    SubtreeAt(plan.before, item.target, []);
    SubtreeAt(plan.before, item.stage, []);
  }

  lemma TargetIsClear(plan: Swaps, tree: Tree, i: nat, phase: Phase)
    requires Sound(plan) && Around(plan, plan.before, tree) && i < |plan.items| && Stands(plan, tree, i, phase) && phase != Torn
    ensures Clear(tree, plan.items[i].target) && CanMkdirAll(tree, Above(plan.items[i].target))
  {
    var target := plan.items[i].target;
    StandingAt(plan, tree, i, phase);
    assert Sane(plan.before, plan.items[i]);
    assert target[..|target|] == target;
    forall k | 0 < k < |target|
      ensures target[..k] in tree ==> tree[target[..k]] == Dir
    {
      PrefixesStayClear(plan, tree, i, k);
    }
    assert forall k :: 0 < k < |target| ==> Above(target)[..k] == target[..k];
  }

  /** What was at the target can be moved back once its parent is there. */
  lemma CanRestore(plan: Swaps, tree: Tree, i: nat)
    requires Sound(plan) && WellFormed(tree) && i < |plan.items| && Stands(plan, tree, i, Away)
    requires plan.items[i].target in plan.before && IsDir(tree, Above(plan.items[i].target))
    ensures CanRename(tree, Slot(plan, i), plan.items[i].target)
  {
    var target, slot := plan.items[i].target, Slot(plan, i);
    StandingAt(plan, tree, i, Away);
    assert Sane(plan.before, plan.items[i]);
    assert target + [] == target && slot + [] == slot;
    SubtreeAt(tree, slot, []);
    SubtreeAt(plan.before, target, []);
    SlotsAreApart(plan, i, i, i);
  }

  // ---------------------------------------------------------------------------------------------
  // The transaction
  // ---------------------------------------------------------------------------------------------

  datatype Swap = Swap(stage: Option<Path>, target: string)

  datatype Target = Target(stage: Path, relative: Path, backup: Path, hadTarget: bool, prepared: bool, installed: bool)

  /** What an undo came to: how many swaps it could not undo, whether it kept the backup, and cleanup errors. */
  datatype Undo = Undo(undone: nat, retained: bool, uncleaned: nat)

  datatype Start = Started(transaction: DirectoryTransaction) | Rejected(cause: Status) | RolledBack(cause: Status, undo: Undo)

  function PhaseOf(t: Target): Phase {
    if !t.prepared then Original else if t.installed then New else Away
  }

  /** The flags of swap `i` tell where its target stands. */
  ghost predicate Agrees(plan: Swaps, t: Target, i: nat, phase: Phase)
    requires i < |plan.items|
  {
    && Item(t.stage, t.relative) == plan.items[i] && phase == PhaseOf(t)
    && (t.prepared ==> t.backup == Slot(plan, i) && (t.hadTarget <==> t.relative in plan.before))
  }

  ghost predicate AllAgree(plan: Swaps, targets: seq<Target>, phases: seq<Phase>, n: nat) {
    && |targets| == |phases| == |plan.items|
    && forall i :: 0 <= i < n && i < |targets| ==> Agrees(plan, targets[i], i, phases[i])
  }

  /** Every old target is back, or its backup is still there. */
  ghost predicate NothingLost(plan: Swaps, tree: Tree) {
    forall i :: 0 <= i < |plan.items| ==>
      || Subtree(tree, plan.items[i].target) == Subtree(plan.before, plan.items[i].target)
      || Kept(plan, tree, i)
  }

  /** As before, except for the stages, the backup, and directories made on the way to a target. */
  ghost predicate RestoredAt(plan: Swaps, tree: Tree, q: Path) {
    !(plan.backup <= q) && (forall i :: 0 <= i < |plan.items| ==> !(plan.items[i].stage <= q)) ==>
      SameOrMade(plan, plan.before, tree, q)
  }

  /** The swaps whose targets are not as before. */
  ghost function Unrestored(plan: Swaps, tree: Tree): set<nat> {
    set i: nat | i < |plan.items| && Subtree(tree, plan.items[i].target) != Subtree(plan.before, plan.items[i].target)
  }

  function NotBack(phases: seq<Phase>, n: nat): set<nat> {
    set i: nat | n <= i < |phases| && phases[i] != Original
  }

  lemma AllOriginalIsRestored(plan: Swaps, tree: Tree, phases: seq<Phase>, q: Path)
    requires Sound(plan) && Between(plan, tree, phases, |plan.items|)
    requires forall i :: 0 <= i < |phases| ==> phases[i] == Original
    ensures RestoredAt(plan, tree, q)
  {
    if !(plan.backup <= q) && forall i :: 0 <= i < |plan.items| ==> !(plan.items[i].stage <= q) {
      if i :| 0 <= i < |plan.items| && plan.items[i].target <= q {
        var target := plan.items[i].target;
        assert Stands(plan, tree, i, phases[i]);
        assert target + q[|target|..] == q;
        SubtreeAt(tree, target, q[|target|..]);
        SubtreeAt(plan.before, target, q[|target|..]);
      } else {
        assert Free(plan, q);
      }
    }
  }

  /** After an undo: nothing is lost, all but `undone` targets are as before, and everything is if none failed. */
  ghost predicate Undone(plan: Swaps, tree: Tree, undo: Undo) {
    && NothingLost(plan, tree) && Around(plan, plan.before, tree) && |Unrestored(plan, tree)| <= undo.undone
    && (undo.undone == 0 ==> !undo.retained && forall q :: RestoredAt(plan, tree, q))
  }

  /** Swaps from `n` on are undone, as far as `undone` and `retained` admit. */
  ghost predicate UndoneFrom(plan: Swaps, phases: seq<Phase>, n: nat, undone: nat, retained: bool)
    requires |phases| == |plan.items|
  {
    && |NotBack(phases, n)| <= undone
    && (undone == 0 ==> !retained && forall i :: n <= i < |phases| ==> phases[i] == Original)
    && (!retained ==> forall i :: n <= i < |phases| && plan.items[i].target in plan.before ==> phases[i] == Original)
  }

  /** One more swap undone, or not. */
  lemma UndoneMore(plan: Swaps, phases: seq<Phase>, after: seq<Phase>, n: nat, undone: nat, retained: bool, had: bool, ok: bool)
    requires |phases| == |plan.items| && n < |phases| && UndoneFrom(plan, phases, n + 1, undone, retained)
    requires |after| == |phases| && after == phases[n := after[n]] && (ok ==> after[n] == Original)
    requires !ok && !had ==> plan.items[n].target !in plan.before
    ensures UndoneFrom(plan, after, n, if ok then undone else undone + 1, retained || (!ok && had))
  {
    var more := if after[n] == Original then {} else {n};
    assert NotBack(after, n) == NotBack(phases, n + 1) + more;
  }

  lemma FewUnrestored(plan: Swaps, tree: Tree, phases: seq<Phase>)
    requires |phases| == |plan.items| && forall i :: 0 <= i < |plan.items| ==> Stands(plan, tree, i, phases[i])
    ensures |Unrestored(plan, tree)| <= |NotBack(phases, 0)|
  {
    forall i | i in Unrestored(plan, tree)
      ensures i in NotBack(phases, 0)
    {
      assert Stands(plan, tree, i, phases[i]);
    }
    var rest := NotBack(phases, 0) - Unrestored(plan, tree);
    assert NotBack(phases, 0) == Unrestored(plan, tree) + rest;
  }

  /** Every stage at its target, and every old target in the backup. */
  ghost predicate Swapped(plan: Swaps, tree: Tree) {
    Around(plan, plan.before, tree) && forall i :: 0 <= i < |plan.items| ==> Stands(plan, tree, i, New)
  }

  lemma AllNewIsSwapped(plan: Swaps, tree: Tree, phases: seq<Phase>, targets: seq<Target>)
    requires AllAgree(plan, targets, phases, |targets|) && Between(plan, tree, phases, |plan.items|)
    requires forall i :: 0 <= i < |targets| ==> targets[i].prepared && targets[i].installed
    ensures Swapped(plan, tree)
  {
    forall i | 0 <= i < |plan.items|
      ensures Stands(plan, tree, i, New)
    {
      assert Agrees(plan, targets[i], i, phases[i]) && Stands(plan, tree, i, phases[i]);
    }
  }

  lemma UndoSettles(plan: Swaps, tree: Tree, after: Tree, phases: seq<Phase>, undo: Undo)
    requires Sound(plan) && Between(plan, tree, phases, |plan.items|) && WellFormed(after)
    requires UndoneFrom(plan, phases, 0, undo.undone, undo.retained)
    requires if undo.retained then after == tree else forall q :: !(plan.backup <= q) ==> Lookup(after, q) == Lookup(tree, q)
    ensures Undone(plan, after, undo)
  {
    forall i | 0 <= i < |plan.items|
      ensures Stands(plan, after, i, phases[i])
    {
      assert Stands(plan, tree, i, phases[i]);
      if !undo.retained {
        NotOnTheWay(plan, i, i);
        BackupIsApart(plan, i);
        SameElsewhere(tree, after, plan.backup, plan.items[i].target);
      }
    }
    forall q | Free(plan, q)
      ensures SameOrMade(plan, plan.before, after, q)
    {
      assert SameOrMade(plan, plan.before, tree, q);
    }
    FewUnrestored(plan, after, phases);
    if undo.undone == 0 {
      forall q
        ensures RestoredAt(plan, after, q)
      {
        AllOriginalIsRestored(plan, after, phases, q);
      }
    }
  }

  lemma BackupIsApart(plan: Swaps, i: nat)
    requires Sound(plan) && i < |plan.items|
    ensures !Overlap(plan.items[i].target, plan.backup)
  {
    assert Sane(plan.before, plan.items[i]);
    assert plan.items[i].target[0] != plan.backup[0];
  }

  // ---------------------------------------------------------------------------------------------
  // Which swaps are accepted
  // ---------------------------------------------------------------------------------------------

  function ItemOf(swap: Swap): Option<Item> {
    if swap.stage.Some? && swap.stage.value != [] && Locate(swap.target).Some?
    then Some(Item(swap.stage.value, Locate(swap.target).value)) else None
  }

  function Items(swaps: seq<Swap>): seq<Item> {
    seq(|swaps|, i requires 0 <= i < |swaps| => match ItemOf(swaps[i]) case Some(item) => item case None => Item([], []))
  }

  ghost predicate SaneSwap(tree: Tree, swap: Swap) {
    ItemOf(swap).Some? && Sane(tree, ItemOf(swap).value) && Clear(tree, ItemOf(swap).value.stage)
  }

  ghost predicate Acceptable(tree: Tree, swaps: seq<Swap>) {
    (forall i :: 0 <= i < |swaps| ==> SaneSwap(tree, swaps[i])) && Disjoint(Items(swaps))
  }

  ghost predicate TargetsApart(items: seq<Item>) {
    forall i, j :: 0 <= i < j < |items| ==> !Overlap(items[i].target, items[j].target)
  }

  /** Stage `i` is away from the first `n` targets, and from the later stages among those. */
  ghost predicate StageApart(items: seq<Item>, i: nat, n: nat)
    requires i < |items| && n <= |items|
  {
    forall j :: 0 <= j < n ==> !Overlap(items[i].stage, items[j].target) && (i < j ==> !Overlap(items[i].stage, items[j].stage))
  }

  lemma ApartIsDisjoint(items: seq<Item>)
    requires TargetsApart(items) && forall i :: 0 <= i < |items| ==> StageApart(items, i, |items|)
    ensures Disjoint(items)
  {
    forall i, j | 0 <= i < |items| && 0 <= j < |items| && i != j
      ensures Apart(items[i], items[j])
    {
      assert StageApart(items, i, |items|) && StageApart(items, j, |items|);
    }
    forall i, j | 0 <= i < |items| && 0 <= j < |items|
      ensures !Overlap(items[i].stage, items[j].target)
    {
      assert StageApart(items, i, |items|);
    }
  }

  lemma OverlapIsNotDisjoint(items: seq<Item>, i: nat, j: nat)
    requires i < |items| && j < |items|
    requires Overlap(items[i].stage, items[j].target) || (i != j && !Apart(items[i], items[j]))
    ensures !Disjoint(items)
  {
  }

  /** Every stage is away from every target, and from the stages after it. */
  method CheckGraph(items: seq<Item>) returns (ok: bool)
    requires TargetsApart(items)
    ensures ok <==> Disjoint(items)
  {
    for left := 0 to |items|
      invariant forall i :: 0 <= i < left ==> StageApart(items, i, |items|)
    {
      for right := 0 to |items|
        invariant StageApart(items, left, right)
      {
        if Overlap(items[left].stage, items[right].target)
           || (left < right && Overlap(items[left].stage, items[right].stage)) {
          OverlapIsNotDisjoint(items, left, right);
          return false;
        }
      }
    }
    ApartIsDisjoint(items);
    return true;
  }

  /** The first swaps are sane, and give `items`, whose targets are apart. */
  ghost predicate Gathered(tree: Tree, swaps: seq<Swap>, items: seq<Item>) {
    && |items| <= |swaps| && TargetsApart(items)
    && forall i :: 0 <= i < |items| ==> Gives(tree, swaps[i], items[i])
  }

  ghost predicate Gives(tree: Tree, swap: Swap, item: Item) {
    SaneSwap(tree, swap) && ItemOf(swap) == Some(item)
  }

  lemma GatherMore(tree: Tree, swaps: seq<Swap>, items: seq<Item>, item: Item)
    requires Gathered(tree, swaps, items) && |items| < |swaps|
    requires Gives(tree, swaps[|items|], item)
    requires forall i :: 0 <= i < |items| ==> !Overlap(items[i].target, item.target)
    ensures Gathered(tree, swaps, items + [item])
  {
  }

  lemma CannotGather(tree: Tree, swaps: seq<Swap>, items: seq<Item>, item: Item, i: nat)
    requires Gathered(tree, swaps, items) && i < |items| < |swaps|
    requires ItemOf(swaps[|items|]) == Some(item) && Overlap(items[i].target, item.target)
    ensures !Acceptable(tree, swaps)
  {
    assert Items(swaps)[i] == items[i] && Items(swaps)[|items|] == item;
    OverlapIsNotDisjoint(Items(swaps), i, |items|);
  }

  lemma AllGathered(tree: Tree, swaps: seq<Swap>, items: seq<Item>)
    requires Gathered(tree, swaps, items) && |items| == |swaps|
    ensures items == Items(swaps) && (Disjoint(items) <==> Acceptable(tree, swaps))
  {
    assert forall i :: 0 <= i < |items| ==> Items(swaps)[i] == items[i];
  }

  method PrepareTargets(root: Root, swaps: seq<Swap>) returns (st: Status, items: seq<Item>)
    requires root.Valid()
    modifies root`faults
    ensures root.faults == old(root.faults) + if st == Fault then 1 else 0
    ensures st == Done ==> items == Items(swaps) && Acceptable(root.tree, swaps)
    ensures st == Refused ==> !Acceptable(root.tree, swaps)
    ensures st != Absent
  {
    items := [];
    for index := 0 to |swaps|
      invariant |items| == index && Gathered(root.tree, swaps, items) && root.faults == old(root.faults)
    {
      var item;
      st, item := PrepareTarget(root, swaps[index]);
      if st != Done {
        return;
      }
      if i :| 0 <= i < index && Overlap(items[i].target, item.target) {
        CannotGather(root.tree, swaps, items, item, i);
        return Refused, items;
      }
      GatherMore(root.tree, swaps, items, item);
      items := items + [item];
    }
    AllGathered(root.tree, swaps, items);
    var ok := CheckGraph(items);
    st := if ok then Done else Refused;
  }

  /** The checks on one swap alone. */
  method PrepareTarget(root: Root, swap: Swap) returns (st: Status, item: Item)
    requires root.Valid()
    modifies root`faults
    ensures root.faults == old(root.faults) + if st == Fault then 1 else 0
    ensures st == Fault || (st == if SaneSwap(root.tree, swap) then Done else Refused)
    ensures st == Done ==> ItemOf(swap) == Some(item)
  {
    item := Item([], []);
    if ItemOf(swap).None? {
      return Refused, item;
    }
    item := ItemOf(swap).value;
    LocatedInProject(swap.target);
    st := root.Validate(item.target);
    if st != Done {
      return;
    }
    st := root.Validate(item.stage);
    if st != Done {
      return;
    }
    var s := root.Lstat(item.stage);
    if s == StatFault {
      return Fault, item;
    }
    st := if s == Found(Dir) then Done else Refused;
  }

  class DirectoryTransaction {
    const root: Root
    const backupRoot: Path
    var targets: seq<Target>
    var done: bool
    var committed: bool
    ghost const plan: Swaps
    ghost var phases: seq<Phase>

    ghost predicate Valid()
      reads this, root
    {
      && Sound(plan) && plan.backup == backupRoot && root.Valid()
      && (!done ==> AllAgree(plan, targets, phases, |targets|) && Between(plan, root.tree, phases, |plan.items|))
    }

    constructor (root: Root, ghost plan: Swaps, items: seq<Item>, backupRoot: Path)
      requires Sound(plan) && plan.backup == backupRoot && plan.items == items
      requires root.tree == plan.before[backupRoot := Dir] && root.Valid()
      ensures Valid() && this.root == root && this.plan == plan && !done && !committed
      ensures |targets| == |items| && forall i :: 0 <= i < |targets| ==> !targets[i].prepared && !targets[i].installed
      ensures Between(plan, root.tree, phases, 0)
    {
      this.root, this.plan, this.backupRoot := root, plan, backupRoot;
      targets := seq(|items|, i requires 0 <= i < |items| => Target(items[i].stage, items[i].target, [], false, false, false));
      phases := seq(|items|, i => Original);
      done, committed := false, false;
      new;
      BackupIsElsewhere(plan, phases);
    }

    // -------------------------------------------------------------------------------------------
    // Swapping
    // -------------------------------------------------------------------------------------------

    ghost predicate Proceeding(backedUp: nat, installed: nat)
      reads this, root
    {
      && Valid() && !done && Between(plan, root.tree, phases, installed)
      && (forall i :: 0 <= i < |targets| ==> (targets[i].prepared <==> i < backedUp) && (targets[i].installed <==> i < installed))
    }

    /** Old target `i` to the backup, if there is one. */
    method MoveAway(i: nat) returns (st: Status, had: bool)
      requires Sound(plan) && i < |targets| == |phases| == |plan.items| && plan.backup == backupRoot
      requires targets[i].relative == plan.items[i].target
      requires phases[i] == Original && Between(plan, root.tree, phases, 0) && HasRoom(plan, root.tree, i)
      modifies root
      ensures root.faults == old(root.faults) + if st == Fault then 1 else 0
      ensures st != Absent && (DirsOnly(plan.before, plan.items) ==> st != Refused)
      ensures st == Done ==> HasRoom(plan, root.tree, i + 1)
      ensures st == Done ==> plan.items[i].target in plan.before ==> plan.before[plan.items[i].target] == Dir
      ensures Between(plan, root.tree, if st == Done then phases[i := Away] else phases, 0)
      ensures st == Done ==> (had <==> plan.items[i].target in plan.before)
    {
      var target := targets[i].relative;
      had := false;
      ghost var before := root.tree;
      assert Sane(plan.before, plan.items[i]) && Stands(plan, before, i, Original);
      StandingAt(plan, before, i, Original);
      TargetIsClear(plan, before, i, Original);
      st := root.Validate(target);
      if st != Done {
        return;
      }
      var s := root.Lstat(target);
      ClearIsNotBlocked(before, target);
      if s == NotExist {
        MissingIsAway(plan, before, phases, i);
        return;
      }
      if s != Found(Dir) {
        return if s == StatFault then Fault else Refused, false;
      }
      st := root.Validate(target);
      if st != Done {
        return;
      }
      had := true;
      CanMoveAway(plan, before, i);
      st := root.Rename(target, backupRoot + [Numbered(i)]);
      if st == Done {
        MovingLeavesRoom(plan, before, i);
        BackUpKeepsBetween(plan, before, phases, i);
      }
    }

    method BackUp(i: nat) returns (st: Status)
      requires i < |targets| && Proceeding(i, 0) && HasRoom(plan, root.tree, i)
      modifies root, this`targets, this`phases
      ensures root.faults == old(root.faults) + if st == Fault then 1 else 0
      ensures st != Absent && (DirsOnly(plan.before, plan.items) ==> st != Refused)
      ensures st == Done ==> HasRoom(plan, root.tree, i + 1)
      ensures st == Done ==> plan.items[i].target in plan.before ==> plan.before[plan.items[i].target] == Dir
      ensures if st == Done then Proceeding(i + 1, 0) else Proceeding(i, 0)
      ensures |targets| == old(|targets|)
    {
      assert Agrees(plan, targets[i], i, phases[i]);
      var had;
      st, had := MoveAway(i);
      if st == Done {
        phases := phases[i := Away];
        targets := targets[i := targets[i].(backup := backupRoot + [Numbered(i)], hadTarget := had, prepared := true)];
      }
    }

    method BackUpAll() returns (st: Status)
      requires Proceeding(0, 0) && HasRoom(plan, root.tree, 0)
      modifies root, this`targets, this`phases
      ensures root.faults == old(root.faults) + if st == Fault then 1 else 0
      ensures st != Absent && (DirsOnly(plan.before, plan.items) ==> st != Refused) && (st == Done ==> DirsOnly(plan.before, plan.items))
      ensures Valid() && !done && |targets| == old(|targets|)
      ensures st == Done ==> Proceeding(|targets|, 0)
    {
      st := Done;
      for i := 0 to |targets|
        invariant |targets| == old(|targets|) == |plan.items| && Proceeding(i, 0) && HasRoom(plan, root.tree, i)
        invariant st == Done && root.faults == old(root.faults) && DirsOnlyTo(plan.before, plan.items, i)
      {
        st := BackUp(i);
        if st != Done {
          return;
        }
        DirsOnlyMore(plan.before, plan.items, i);
      }
    }

    /** Stage `i` to its target. */
    method Install(i: nat) returns (st: Status)
      requires i < |targets| && Proceeding(|targets|, i)
      modifies root, this`targets, this`phases
      ensures root.faults == old(root.faults) + if st == Fault then 1 else 0
      ensures st == Done || st == Fault
      ensures if st == Done then Proceeding(|targets|, i + 1) else Proceeding(|targets|, i)
      ensures |targets| == old(|targets|)
    {
      var item := targets[i];
      assert Agrees(plan, item, i, phases[i]) && Sane(plan.before, plan.items[i]) && Stands(plan, root.tree, i, Away);
      TargetIsClear(plan, root.tree, i, Away);
      st := MakeParent(i, i);
      if st != Done {
        return;
      }
      assert Stands(plan, root.tree, i, Away) && Staged(plan, root.tree, i);
      TargetIsClear(plan, root.tree, i, Away);
      CanInstall(plan, root.tree, i);
      st := root.Validate(item.relative);
      if st != Done {
        return;
      }
      st := root.Validate(item.stage);
      if st != Done {
        return;
      }
      ghost var before := root.tree;
      st := root.Rename(item.stage, item.relative);
      if st != Done {
        return;
      }
      InstallKeepsBetween(plan, before, phases, i);
      phases := phases[i := New];
      targets := targets[i := item.(installed := true)];
    }

    method InstallAll() returns (st: Status)
      requires Proceeding(|targets|, 0)
      modifies root, this`targets, this`phases
      ensures root.faults == old(root.faults) + if st == Fault then 1 else 0
      ensures st == Done || st == Fault
      ensures Valid() && !done && |targets| == old(|targets|)
      ensures st == Done ==> Swapped(plan, root.tree)
    {
      st := Done;
      for i := 0 to |targets|
        invariant |targets| == old(|targets|) && Proceeding(|targets|, i) && st == Done && root.faults == old(root.faults)
      {
        st := Install(i);
        if st != Done {
          return;
        }
      }
      AllNewIsSwapped(plan, root.tree, phases, targets);
    }

    method MakeParent(i: nat, ghost from: nat) returns (st: Status)
      requires Sound(plan) && i < |targets| == |plan.items| && targets[i].relative == plan.items[i].target
      requires Between(plan, root.tree, phases, from)
      modifies root
      ensures root.faults == old(root.faults) + if st == Fault then 1 else 0
      ensures st != Absent
      ensures Between(plan, root.tree, phases, from)
      ensures Subtree(root.tree, plan.items[i].target) == Subtree(old(root.tree), plan.items[i].target)
      ensures CanMkdirAll(old(root.tree), Above(plan.items[i].target)) && st != Fault ==> st == Done
      ensures st == Done ==> IsDir(root.tree, Above(plan.items[i].target))
    {
      ghost var before := root.tree;
      assert Sane(plan.before, plan.items[i]);
      var dir := Above(targets[i].relative);
      st := root.MkdirAll(dir);
      assert dir[..|dir|] == dir;
      if st != Refused {
        forall q
          ensures Made(before, root.tree, dir, q)
        {
          MkdirMakes(before, root.tree, dir, q);
        }
        MkdirKeepsBetween(plan, before, root.tree, phases, from, i);
        if st == Done {
          WithDirsIsWellFormed(before, dir);
        }
      }
    }

    // -------------------------------------------------------------------------------------------
    // Undoing
    // -------------------------------------------------------------------------------------------

    /** Undoes swap `i`; only a fault from outside can prevent it. */
    method UndoItem(i: nat) returns (st: Status)
      requires Sound(plan) && i < |targets| == |phases| == |plan.items|
      requires Agrees(plan, targets[i], i, phases[i]) && Between(plan, root.tree, phases, |plan.items|)
      modifies root, this`phases
      ensures Between(plan, root.tree, phases, |plan.items|)
      ensures root.faults == old(root.faults) + if st == Fault then 1 else 0
      ensures st == Done || st == Fault
      ensures phases == old(phases)[i := phases[i]] && (st == Done ==> phases[i] == Original)
      ensures st == Fault && !targets[i].hadTarget ==> plan.items[i].target !in plan.before
    {
      var item := targets[i];
      if !item.prepared {
        return Done;
      }
      assert Sane(plan.before, plan.items[i]) && Stands(plan, root.tree, i, phases[i]);
      TargetIsClear(plan, root.tree, i, phases[i]);
      st := root.Validate(item.relative);
      if st != Done {
        return;
      }
      if item.installed {
        ghost var before := root.tree;
        st := root.RemoveAll(item.relative);
        RemovalKeepsBetween(plan, before, root.tree, phases, i, st == Done);
        phases := phases[i := if st == Done then Away else Torn];
        if st != Done {
          return;
        }
      }
      st := PutBack(i);
      if st == Done {
        phases := phases[i := Original];
      }
    }

    /** Moves what was at target `i` back, if there was anything. */
    method PutBack(i: nat) returns (st: Status)
      requires Sound(plan) && i < |targets| == |phases| == |plan.items| && targets[i].backup == Slot(plan, i)
      requires phases[i] == Away && Between(plan, root.tree, phases, |plan.items|)
      requires targets[i].relative == plan.items[i].target && (targets[i].hadTarget <==> plan.items[i].target in plan.before)
      modifies root
      ensures root.faults == old(root.faults) + if st == Fault then 1 else 0
      ensures st == Done || st == Fault
      ensures Between(plan, root.tree, if st == Done then phases[i := Original] else phases, |plan.items|)
    {
      var item := targets[i];
      assert Sane(plan.before, plan.items[i]) && Stands(plan, root.tree, i, Away);
      if !item.hadTarget {
        AwayIsOriginal(plan, root.tree, phases, i);
        return Done;
      }
      TargetIsClear(plan, root.tree, i, Away);
      st := MakeParent(i, |plan.items|);
      if st != Done {
        return;
      }
      ghost var before := root.tree;
      assert Stands(plan, before, i, Away);
      CanRestore(plan, before, i);
      st := root.Rename(item.backup, item.relative);
      if st == Done {
        RestoreKeepsBetween(plan, before, phases, i);
      }
    }

    /** Restores every old target, newest first, going on past failures; keeps the backup of what it could not restore. */
    method Rollback() returns (undo: Undo)
      requires Valid()
      modifies this, root
      ensures Valid() && done && committed == old(committed)
      ensures root.faults == old(root.faults) + undo.undone + undo.uncleaned
      ensures !old(done) && !undo.retained && undo.uncleaned == 0 ==> forall q :: backupRoot <= q ==> q !in root.tree
      ensures if old(done) then root.tree == old(root.tree) else Undone(plan, root.tree, undo)
    {
      if done {
        return Undo(0, false, 0);
      }
      done := true;
      var undone, retained := UndoAll();
      ghost var before := root.tree;
      var uncleaned := 0;
      if !retained {
        var st := root.RemoveAll(backupRoot);
        uncleaned := if st == Done then 0 else 1;
      }
      UndoSettles(plan, before, root.tree, phases, Undo(undone, retained, uncleaned));
      var st := root.Close();
      undo := Undo(undone, retained, if st == Done then uncleaned else uncleaned + 1);
    }

    method UndoAll() returns (undone: nat, retained: bool)
      requires Sound(plan) && AllAgree(plan, targets, phases, |targets|) && Between(plan, root.tree, phases, |plan.items|)
      modifies root, this`phases
      ensures Between(plan, root.tree, phases, |plan.items|)
      ensures UndoneFrom(plan, phases, 0, undone, retained) && root.faults == old(root.faults) + undone
    {
      undone, retained := 0, false;
      var index := |targets|;
      while index > 0
        invariant 0 <= index <= |targets| && AllAgree(plan, targets, phases, index)
        invariant Between(plan, root.tree, phases, |plan.items|)
        invariant UndoneFrom(plan, phases, index, undone, retained) && root.faults == old(root.faults) + undone
      {
        index := index - 1;
        ghost var was := phases;
        var st := UndoItem(index);
        UndoneMore(plan, was, phases, index, undone, retained, targets[index].hadTarget, st == Done);
        if st != Done {
          undone := undone + 1;
          retained := retained || targets[index].hadTarget;
        }
      }
    }

    /** Makes the swaps permanent, whether or not the backup can be removed. */
    method Commit() returns (uncleaned: nat)
      requires Valid()
      modifies this, root
      ensures Valid() && done && committed == (old(committed) || !old(done))
      ensures root.faults == old(root.faults) + uncleaned
      ensures !old(done) && uncleaned == 0 ==> forall q :: backupRoot <= q ==> q !in root.tree
      ensures if old(done) then root.tree == old(root.tree) else
                forall q :: !(backupRoot <= q) ==> Lookup(root.tree, q) == Lookup(old(root.tree), q)
    {
      if done {
        return 0;
      }
      done, committed := true, true;
      var st := root.RemoveAll(backupRoot);
      uncleaned := if st == Done then 0 else 1;
      st := root.Close();
      if st != Done {
        uncleaned := uncleaned + 1;
      }
    }
  }

  lemma BackupIsElsewhere(plan: Swaps, phases: seq<Phase>)
    requires Sound(plan) && |phases| == |plan.items| && forall i :: 0 <= i < |phases| ==> phases[i] == Original
    requires WellFormed(plan.before[plan.backup := Dir])
    ensures Between(plan, plan.before[plan.backup := Dir], phases, 0)
  {
    var tree := plan.before[plan.backup := Dir];
    forall i | 0 <= i < |plan.items|
      ensures Stands(plan, tree, i, phases[i]) && Staged(plan, tree, i)
    {
      BackupIsApart(plan, i);
      SlotsAreApart(plan, i, i, i);
      SameElsewhere(plan.before, tree, plan.backup, plan.items[i].target);
      StageIsApart(plan, i);
      SameElsewhere(plan.before, tree, plan.backup, plan.items[i].stage);
    }
    assert forall q :: !(plan.backup <= q) ==> Lookup(tree, q) == Lookup(plan.before, q);
    forall q | Free(plan, q)
      ensures SameOrMade(plan, plan.before, tree, q)
    {
    }
  }

  lemma BackupHasRoom(plan: Swaps)
    requires Sound(plan)
    ensures HasRoom(plan, plan.before[plan.backup := Dir], 0)
  {
    forall j | 0 <= j < |plan.items|
      ensures Slot(plan, j) !in plan.before[plan.backup := Dir]
    {
      assert plan.backup <= Slot(plan, j);
      assert |Slot(plan, j)| == 2;
    }
  }

  lemma StageIsApart(plan: Swaps, i: nat)
    requires Sound(plan) && i < |plan.items|
    ensures !Overlap(plan.items[i].stage, plan.backup)
  {
    var stage := plan.items[i].stage;
    assert Sane(plan.before, plan.items[i]);
    assert stage[0] == plan.backup[0] ==> plan.backup <= stage;
  }

  // ---------------------------------------------------------------------------------------------
  // Begin
  // ---------------------------------------------------------------------------------------------

  /** Backs up and installs; stops at the first thing that fails. */
  method SwapAll(transaction: DirectoryTransaction) returns (st: Status)
    requires transaction.Proceeding(0, 0) && HasRoom(transaction.plan, transaction.root.tree, 0)
    modifies transaction`targets, transaction`phases, transaction.root
    ensures transaction.root.faults == old(transaction.root.faults) + if st == Fault then 1 else 0
    ensures st == Done || st == Fault || st == Refused
    ensures st == Refused ==> !DirsOnly(transaction.plan.before, transaction.plan.items)
    ensures st == Done ==> DirsOnly(transaction.plan.before, transaction.plan.items)
    ensures transaction.Valid() && !transaction.done
    ensures st == Done ==> Swapped(transaction.plan, transaction.root.tree)
  {
    st := transaction.BackUpAll();
    if st == Done {
      st := transaction.InstallAll();
    }
  }

  /** How many operations failed from outside: the cause, what was not undone, what was not cleaned up. */
  function OutsideFaults(r: Start): nat {
    match r
    case Started(_) => 0
    case Rejected(cause) => if cause == Fault then 1 else 0
    case RolledBack(cause, undo) => (if cause == Fault then 1 else 0) + undo.undone + undo.uncleaned
  }

  /**
   Swaps all of the directories, or none. With nothing failing from outside it swaps them exactly if they are
   acceptable and every old target is a directory; and with nothing failing after the cause, all is undone.
   */
  method Begin(root: Root, swaps: seq<Swap>) returns (r: Start)
    requires root.Valid()
    modifies root
    ensures root.Valid() && root.faults == old(root.faults) + OutsideFaults(r)
    ensures r.Rejected? || r.RolledBack? ==> r.cause == Fault || r.cause == Refused
    ensures r.Started? ==> DirsOnly(old(root.tree), Items(swaps))
    ensures r.RolledBack? && r.cause == Refused ==> !DirsOnly(old(root.tree), Items(swaps))
    ensures r.Rejected? ==> root.tree == old(root.tree) && (r.cause == Refused ==> !Acceptable(old(root.tree), swaps))
    ensures !r.Rejected? ==> Acceptable(old(root.tree), swaps)
    ensures r.Started? ==>
              var t := r.transaction;
              && fresh(t) && t.Valid() && t.root == root && !t.done && !t.committed
              && t.plan == Swaps(old(root.tree), t.backupRoot, Items(swaps)) && Swapped(t.plan, root.tree)
    ensures r.RolledBack? ==>
              exists backup: Path :: Unused(old(root.tree), backup) && Undone(Swaps(old(root.tree), backup, Items(swaps)), root.tree, r.undo)
  {
    var st, items := PrepareTargets(root, swaps);
    if st != Done {
      return Rejected(st);
    }
    ghost var before := root.tree;
    var backup := root.MkdirTemp();
    if backup.None? {
      return Rejected(Fault);
    }
    ghost var plan := Swaps(before, backup.value, items);
    forall i | 0 <= i < |items|
      ensures Sane(before, items[i])
    {
      assert SaneSwap(before, swaps[i]);
    }
    BackupHasRoom(plan);
    var transaction := new DirectoryTransaction(root, plan, items, backup.value);
    st := SwapAll(transaction);
    if st != Done {
      var undo := transaction.Rollback();
      assert Undone(plan, root.tree, undo);
      return RolledBack(st, undo);
    }
    return Started(transaction);
  }
}
