/**
 A project directory held open by a root handle: a tree of directories, files and symbolic links, and
 the operations a generator performs on it.

 Every operation may fail for a reason outside the tree. It then answers `Fault`, and leaves the tree
 as it was unless stated otherwise; `Refused` is an answer the tree itself gives.
 */
module FileTree {
  import opened Wrappers

  /** A path component: a name chosen by a user, an unguessable temporary name, or a number. */
  datatype Component = Name(text: string) | Temp(serial: nat) | Numbered(index: nat)

  /** A path below the root; the root itself is the empty path. */
  type Path = seq<Component>

  datatype Node = Dir | File(content: string) | Link

  type Tree = map<Path, Node>

  datatype Status = Done | Absent | Refused | Fault

  datatype Stat = Found(node: Node) | NotExist | StatRefused | StatFault

  /** A path of the project's own, as opposed to one in a temporary directory. */
  predicate Project(p: Path) {
    p != [] && p[0].Name?
  }

  /** A temporary directory of the root. */
  predicate Scratch(p: Path) {
    |p| == 1 && p[0].Temp?
  }

  /** One leads to the other. */
  predicate Overlap(a: Path, b: Path) {
    a <= b || b <= a
  }

  function Lookup(tree: Tree, p: Path): Option<Node> {
    if p in tree then Some(tree[p]) else None
  }

  predicate IsDir(tree: Tree, p: Path) {
    p == [] || (p in tree && tree[p] == Dir)
  }

  function Parent(p: Path): Path
    requires p != []
  {
    p[..|p| - 1]
  }

  /** Everything has a parent directory, up to the root. */
  ghost predicate WellFormed(tree: Tree) {
    forall p :: p in tree ==> p != [] && IsDir(tree, Parent(p))
  }

  lemma BelowParent(p: Path, q: Path)
    requires q != [] && p <= Parent(q)
    ensures p <= q
  {
    assert p == Parent(q)[..|p|] == q[..|p|];
  }

  /** So every proper prefix of a path in the tree is a directory. */
  lemma {:induction false} PrefixesAreDirs(tree: Tree, p: Path, k: nat)
    requires WellFormed(tree) && p in tree && k < |p|
    ensures IsDir(tree, p[..k])
  {
    if k < |p| - 1 {
      var up := Parent(p);
      PrefixesAreDirs(tree, up, k);
      assert up[..k] == p[..k];
    }
  }

  /** Nothing lies below a file. */
  lemma FilesAreLeaves(tree: Tree, p: Path, q: Path)
    requires WellFormed(tree) && p in tree && tree[p] != Dir && q in tree && p <= q
    ensures q == p
  {
    assert q[..|p|] == p;
    if |p| < |q| {
      PrefixesAreDirs(tree, q, |p|);
    }
  }

  // ---------------------------------------------------------------------------------------------
  // What the operations do when they succeed
  // ---------------------------------------------------------------------------------------------

  /** The missing directories on the way to `p`, and `p` itself. */
  function WithDirs(tree: Tree, p: Path): Tree
    decreases |p|
  {
    if p == [] then tree
    else
      var above := WithDirs(tree, Parent(p));
      if p in above then above else above[p := Dir]
  }

  /** No prefix of `p` is in the way of a directory. */
  predicate CanMkdirAll(tree: Tree, p: Path) {
    forall k :: 0 < k <= |p| && p[..k] in tree ==> tree[p[..k]] == Dir
  }

  lemma {:induction false} WithDirsAt(tree: Tree, p: Path, q: Path)
    ensures Lookup(WithDirs(tree, p), q) == if q !in tree && q != [] && q <= p then Some(Dir) else Lookup(tree, q)
    decreases |p|
  {
    if p != [] {
      WithDirsAt(tree, Parent(p), q);
      WithDirsAt(tree, Parent(p), p);
      assert !(p <= Parent(p));
      if q <= p && q != p {
        assert q == p[..|q|] == Parent(p)[..|q|];
      }
      if q <= Parent(p) {
        assert q == Parent(p)[..|q|] == p[..|q|];
      }
    }
  }

  lemma {:induction false} WithDirsIsWellFormed(tree: Tree, p: Path)
    requires WellFormed(tree) && CanMkdirAll(tree, p)
    ensures WellFormed(WithDirs(tree, p)) && IsDir(WithDirs(tree, p), p)
    decreases |p|
  {
    if p != [] {
      assert forall k :: 0 < k <= |p| - 1 ==> Parent(p)[..k] == p[..k];
      WithDirsIsWellFormed(tree, Parent(p));
      WithDirsAt(tree, Parent(p), p);
      assert p[..|p|] == p;
      assert !(p <= Parent(p));
    }
  }

  /** Where the node at `q` comes from when `src` is moved to `dst`. */
  function Origin(src: Path, dst: Path, q: Path): Option<Path> {
    if dst <= q then Some(src + q[|dst|..]) else if src <= q then None else Some(q)
  }

  function Candidates(tree: Tree, src: Path, dst: Path): set<Path> {
    tree.Keys + set p | p in tree && src <= p :: dst + p[|src|..]
  }

  /** A rename moves everything at and below `src`. */
  function Move(tree: Tree, src: Path, dst: Path): Tree {
    map q | q in Candidates(tree, src, dst) && Origin(src, dst, q).Some? && Origin(src, dst, q).value in tree
      :: tree[Origin(src, dst, q).value]
  }

  lemma MoveAt(tree: Tree, src: Path, dst: Path, q: Path)
    ensures Lookup(Move(tree, src, dst), q) ==
            var o := Origin(src, dst, q);
            if o.Some? then Lookup(tree, o.value) else None
  {
    var o := Origin(src, dst, q);
    if o.Some? && o.value in tree && dst <= q {
      var p := o.value;
      assert p[|src|..] == q[|dst|..];
      assert dst + p[|src|..] == q;
      assert q in Candidates(tree, src, dst);
    }
  }

  predicate HasChild(tree: Tree, p: Path) {
    exists q :: q in tree && p <= q && q != p
  }

  /** rename(2): the target's parent exists, and the target is not in the way. */
  ghost predicate CanRename(tree: Tree, src: Path, dst: Path) {
    && src != [] && src in tree && dst != [] && IsDir(tree, Parent(dst)) && !(src <= dst)
    && (dst in tree ==>
          if tree[src] == Dir then tree[dst] == Dir && !HasChild(tree, dst) else tree[dst] != Dir)
  }

  lemma NothingBelow(tree: Tree, dst: Path, q: Path)
    requires WellFormed(tree) && dst !in tree && dst != [] && dst <= q
    ensures q !in tree
  {
    assert q[..|dst|] == dst && (|q| == |dst| ==> q == dst);
    if q in tree && |dst| < |q| {
      PrefixesAreDirs(tree, q, |dst|);
    }
  }

  lemma MoveKeepsParents(tree: Tree, src: Path, dst: Path, q: Path)
    requires WellFormed(tree) && CanRename(tree, src, dst) && q in Move(tree, src, dst) && !(dst <= q)
    ensures q != [] && IsDir(Move(tree, src, dst), Parent(q))
  {
    MoveAt(tree, src, dst, q);
    MoveAt(tree, src, dst, Parent(q));
    if src <= Parent(q) {
      BelowParent(src, q);
    }
    if dst <= Parent(q) {
      BelowParent(dst, q);
    }
  }

  lemma ParentMovesAlong(src: Path, dst: Path, q: Path)
    requires src != [] && dst <= q && q != dst
    ensures dst <= Parent(q) && src + q[|dst|..] != [] && Parent(src + q[|dst|..]) == src + Parent(q)[|dst|..]
  {
    assert Parent(q) == dst + q[|dst|..|q| - 1];
  }

  lemma MoveBringsParents(tree: Tree, src: Path, dst: Path, q: Path)
    requires WellFormed(tree) && CanRename(tree, src, dst) && q in Move(tree, src, dst) && dst <= q && q != dst
    ensures IsDir(Move(tree, src, dst), Parent(q))
  {
    ParentMovesAlong(src, dst, q);
    MoveAt(tree, src, dst, q);
    MoveAt(tree, src, dst, Parent(q));
  }

  lemma MoveArrives(tree: Tree, src: Path, dst: Path)
    requires WellFormed(tree) && CanRename(tree, src, dst)
    ensures IsDir(Move(tree, src, dst), Parent(dst))
  {
    MoveAt(tree, src, dst, Parent(dst));
    assert !(dst <= Parent(dst));
    if src <= Parent(dst) {
      BelowParent(src, dst);
    }
  }

  lemma MoveIsWellFormed(tree: Tree, src: Path, dst: Path)
    requires WellFormed(tree) && CanRename(tree, src, dst)
    ensures WellFormed(Move(tree, src, dst))
  {
    forall q | q in Move(tree, src, dst)
      ensures q != [] && IsDir(Move(tree, src, dst), Parent(q))
    {
      if q == dst {
        MoveArrives(tree, src, dst);
      } else if dst <= q {
        MoveBringsParents(tree, src, dst, q);
      } else {
        MoveKeepsParents(tree, src, dst, q);
      }
    }
  }

  /** Everything at and below `p` taken away. */
  function Without(tree: Tree, p: Path): Tree {
    tree - (set q | q in tree && p <= q)
  }

  lemma WithoutIsWellFormed(tree: Tree, p: Path)
    requires WellFormed(tree) && p != []
    ensures WellFormed(Without(tree, p))
  {
    forall q | q in Without(tree, p)
      ensures IsDir(Without(tree, p), Parent(q))
    {
      if p <= Parent(q) {
        BelowParent(p, q);
      }
    }
  }

  /** A proper prefix of `p` is there and is not a directory. */
  ghost predicate Blocked(tree: Tree, p: Path) {
    exists k :: 0 < k < |p| && p[..k] in tree && tree[p[..k]] != Dir
  }

  ghost function StatAt(tree: Tree, p: Path): Stat {
    if p == [] then Found(Dir) else if p in tree then Found(tree[p]) else if Blocked(tree, p) then StatRefused else NotExist
  }

  /** No prefix of `p` is a link, and those above `p` that are there are directories. */
  ghost predicate Clear(tree: Tree, p: Path) {
    forall k :: 0 < k <= |p| && p[..k] in tree ==> tree[p[..k]] != Link && (k < |p| ==> tree[p[..k]] == Dir)
  }

  predicate CanWrite(tree: Tree, p: Path) {
    p != [] && IsDir(tree, Parent(p)) && (p in tree ==> tree[p] != Dir)
  }

  // ---------------------------------------------------------------------------------------------
  // The root handle
  // ---------------------------------------------------------------------------------------------

  /** The prefixes shorter than `k` are there, and in order. */
  ghost predicate PassesTo(tree: Tree, p: Path, k: nat)
    requires k <= |p| + 1
  {
    forall j :: 0 < j < k ==> p[..j] in tree && tree[p[..j]] != Link && (j < |p| ==> tree[p[..j]] == Dir)
  }

  lemma PassingIsNotBlocked(tree: Tree, p: Path, k: nat)
    requires 0 < k <= |p| && PassesTo(tree, p, k)
    ensures !Blocked(tree, p[..k])
  {
    assert forall j :: 0 < j < k ==> p[..k][..j] == p[..j];
  }

  lemma MissingIsClear(tree: Tree, p: Path, k: nat)
    requires WellFormed(tree) && 0 < k <= |p| && PassesTo(tree, p, k) && p[..k] !in tree
    ensures Clear(tree, p)
  {
    MissingBelow(tree, p, k);
  }

  lemma MissingBelow(tree: Tree, p: Path, k: nat)
    requires WellFormed(tree) && 0 < k <= |p| && p[..k] !in tree
    ensures forall j :: k <= j <= |p| ==> p[..j] !in tree
  {
    forall j | k <= j <= |p|
      ensures p[..j] !in tree
    {
      assert p[..j][..k] == p[..k];
      assert p[..k] <= p[..j];
      NothingBelow(tree, p[..k], p[..j]);
    }
  }

  /** Only what leads to one of `stay` is left of what was at and below `p`. */
  function Remains(tree: Tree, p: Path, stay: set<Path>): Tree {
    tree - (set q | q in tree && p <= q && !exists s :: s in stay && q <= s)
  }

  lemma RemainsAreWellFormed(tree: Tree, p: Path, stay: set<Path>)
    requires WellFormed(tree) && p != []
    ensures WellFormed(Remains(tree, p, stay))
  {
    forall q | q in Remains(tree, p, stay)
      ensures IsDir(Remains(tree, p, stay), Parent(q))
    {
      if p <= Parent(q) {
        BelowParent(p, q);
        var s :| s in stay && q <= s;
        assert Parent(q) == s[..|q| - 1];
      }
    }
  }

  lemma WriteIsWellFormed(tree: Tree, p: Path)
    requires WellFormed(tree) && CanWrite(tree, p)
    ensures forall c :: WellFormed(tree[p := File(c)])
  {
    forall c, q | q in tree[p := File(c)]
      ensures IsDir(tree[p := File(c)], Parent(q))
    {
    }
  }

  /** `faults` counts the operations that failed for a reason outside the tree. */
  class Root {
    var tree: Tree
    ghost var faults: nat

    ghost predicate Valid()
      reads this
    {
      WellFormed(tree)
    }

    constructor (tree: Tree)
      requires WellFormed(tree)
      ensures Valid() && this.tree == tree && faults == 0
    {
      this.tree := tree;
      faults := 0;
    }

    /** Something outside the tree may fail. */
    method Outside() returns (fault: bool)
      modifies `faults
      ensures faults == old(faults) + if fault then 1 else 0
    {
      fault := *;
      if fault {
        faults := faults + 1;
      }
    }

    method Lstat(p: Path) returns (s: Stat)
      modifies `faults
      ensures faults == old(faults) + if s == StatFault then 1 else 0
      ensures s == StatFault || s == StatAt(tree, p)
    {
      var fault := Outside();
      if fault {
        return StatFault;
      }
      if p == [] {
        return Found(Dir);
      }
      if p in tree {
        return Found(tree[p]);
      }
      for k := 1 to |p|
        invariant forall j :: 0 < j < k && j < |p| && p[..j] in tree ==> tree[p[..j]] == Dir
      {
        if p[..k] in tree && tree[p[..k]] != Dir {
          return StatRefused;
        }
      }
      return NotExist;
    }

    /** Walks down `p` and refuses links, and anything but a directory above `p`. */
    method Validate(p: Path) returns (st: Status)
      requires Valid()
      modifies `faults
      ensures faults == old(faults) + if st == Fault then 1 else 0
      ensures st == Fault || st == if Clear(tree, p) then Done else Refused
    {
      for k := 1 to |p| + 1
        invariant PassesTo(tree, p, k) && faults == old(faults)
      {
        var s := Lstat(p[..k]);
        if s == StatFault {
          return Fault;
        }
        PassingIsNotBlocked(tree, p, k);
        if s == NotExist {
          MissingIsClear(tree, p, k);
          return Done;
        }
        if s.node == Link || (k < |p| && s.node != Dir) {
          return Refused;
        }
      }
      return Done;
    }

    method MkdirAll(p: Path) returns (st: Status)
      requires Valid()
      modifies this
      ensures faults == old(faults) + if st == Fault then 1 else 0
      ensures Valid() && st != Absent
      ensures st == Done ==> tree == WithDirs(old(tree), p)
      ensures st == Refused ==> tree == old(tree) && !CanMkdirAll(old(tree), p)
      ensures st != Refused ==> CanMkdirAll(old(tree), p)
      ensures st == Fault ==> exists k :: 0 <= k <= |p| && tree == WithDirs(old(tree), p[..k])
    {
      if !CanMkdirAll(tree, p) {
        return Refused;
      }
      var fault := Outside();
      if fault {
        var k :| 0 <= k <= |p|;
        assert forall j :: 0 < j <= k ==> p[..k][..j] == p[..j];
        WithDirsIsWellFormed(tree, p[..k]);
        tree := WithDirs(tree, p[..k]);
        return Fault;
      }
      WithDirsIsWellFormed(tree, p);
      tree := WithDirs(tree, p);
      return Done;
    }

    /** Draws a name that nothing in the tree has; that it cannot is a fault as well. */
    method MkdirTemp() returns (r: Option<Path>)
      requires Valid()
      modifies this
      ensures Valid()
      ensures faults == old(faults) + if r.None? then 1 else 0
      ensures r.None? ==> tree == old(tree)
      ensures r.Some? ==>
                && |r.value| == 1 && r.value[0].Temp? && (forall p :: p in old(tree) ==> !(r.value <= p))
                && tree == old(tree)[r.value := Dir]
    {
      var serial: nat := *;
      var path := [Temp(serial)];
      var fault := Outside();
      if fault {
        return None;
      }
      if exists p :: p in tree && path <= p {
        faults := faults + 1;
        return None;
      }
      assert Parent(path) == [];
      tree := tree[path := Dir];
      return Some(path);
    }

    /** Lets go of the directory, which may fail. */
    method Close() returns (st: Status)
      modifies `faults
      ensures faults == old(faults) + if st == Fault then 1 else 0
      ensures st == Done || st == Fault
    {
      var fault := Outside();
      return if fault then Fault else Done;
    }

    method Rename(src: Path, dst: Path) returns (st: Status)
      requires Valid()
      modifies this
      ensures faults == old(faults) + if st == Fault then 1 else 0
      ensures Valid() && st != Absent
      ensures tree == if st == Done then Move(old(tree), src, dst) else old(tree)
      ensures st != Fault ==> (st == Done <==> CanRename(old(tree), src, dst))
    {
      var fault := Outside();
      if fault {
        return Fault;
      }
      if src != [] && src in tree && dst != [] && IsDir(tree, Parent(dst)) && !(src <= dst)
         && (dst in tree ==> if tree[src] == Dir then tree[dst] == Dir && !HasChild(tree, dst) else tree[dst] != Dir) {
        MoveIsWellFormed(tree, src, dst);
        tree := Move(tree, src, dst);
        return Done;
      }
      return Refused;
    }

    /** Removes a file, a link or an empty directory. */
    method Remove(p: Path) returns (st: Status)
      requires Valid() && p != []
      modifies this
      ensures faults == old(faults) + if st == Fault then 1 else 0
      ensures Valid()
      ensures tree == if st == Done then Without(old(tree), p) else old(tree)
      ensures st != Fault ==> st == if p !in old(tree) then (if Blocked(old(tree), p) then Refused else Absent)
                                    else if HasChild(old(tree), p) then Refused else Done
    {
      var s := Lstat(p);
      if s == StatFault {
        return Fault;
      }
      if s == NotExist {
        return Absent;
      }
      if s == StatRefused || HasChild(tree, p) {
        return Refused;
      }
      WithoutIsWellFormed(tree, p);
      tree := Without(tree, p);
      return Done;
    }

    /** Removes everything at and below `p`, or stops on the way. */
    method RemoveAll(p: Path) returns (st: Status)
      requires Valid() && p != []
      modifies this
      ensures faults == old(faults) + if st == Fault then 1 else 0
      ensures Valid() && (st == Done || st == Fault)
      ensures st == Done ==> tree == Without(old(tree), p)
      ensures forall q :: !(p <= q) ==> Lookup(tree, q) == Lookup(old(tree), q)
    {
      var fault := Outside();
      if fault {
        var stay: set<Path> := *;
        RemainsAreWellFormed(tree, p, stay);
        tree := Remains(tree, p, stay);
        return Fault;
      }
      WithoutIsWellFormed(tree, p);
      tree := Without(tree, p);
      return Done;
    }

    /** Creates or overwrites a file; a failed write may leave anything in it. */
    method WriteFile(p: Path, content: string) returns (st: Status)
      requires Valid()
      modifies this
      ensures faults == old(faults) + if st == Fault then 1 else 0
      ensures Valid() && st != Absent
      ensures st == Done ==> CanWrite(old(tree), p) && tree == old(tree)[p := File(content)]
      ensures st == Refused ==> !CanWrite(old(tree), p)
      ensures st != Done ==> tree == old(tree) || (CanWrite(old(tree), p) && exists c :: tree == old(tree)[p := File(c)])
    {
      if !CanWrite(tree, p) {
        return Refused;
      }
      WriteIsWellFormed(tree, p);
      var fault := Outside();
      if fault {
        var created := *;
        if created {
          var partial: string := *;
          tree := tree[p := File(partial)];
        }
        return Fault;
      }
      tree := tree[p := File(content)];
      return Done;
    }
  }
}
