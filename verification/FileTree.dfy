/**
 A file system as the two permission helpers see it: a tree of directories and
 files addressed by absolute component paths, and the system calls they make.
 Any call may fail for a reason the tree does not show (`fault`), and one write
 may take any part of what it is given (`chunk`). Nothing else changes the tree
 meanwhile. Every call appends the tree it leaves behind to `history`, and
 `flushed` holds the contents of files that a successful sync put on disk.
*/
module FileTree {
  import opened Wrappers

  type Name = string
  type Bytes = seq<bv8>
  type Tree = map<Location, Node>

  const DIR_MODE: nat := 448 // octal 0700
  const FILE_MODE: nat := 384 // octal 0600

  /** A place in the tree, named from the root. */
  datatype Location =
    | Root
    | In(dir: Location, name: Name)

  /** A path as the caller writes it; `Here` is the empty path. */
  datatype Path =
    | Slash
    | Here
    | Child(parent: Path, name: Name)

  datatype Node =
    | Dir(mode: nat)
    | File(mode: nat, bytes: Bytes)

  datatype IoError =
    | NotFound
    | NotADirectory
    | AlreadyExists
    | IsADirectory
    | InvalidInput
    | Other

  function Resolve(cwd: Location, p: Path): Location {
    match p
    case Slash => Root
    case Here => cwd
    case Child(parent, name) => In(Resolve(cwd, parent), name)
  }

  /** The root is a directory and every other entry lies in one. */
  predicate WellFormed(t: Tree) {
    && Root in t && t[Root].Dir?
    && forall at | at in t && at.In? :: at.dir in t && t[at.dir].Dir?
  }

  /** The closest entry at or above `at` that exists. */
  function Nearest(t: Tree, at: Location): (n: Location)
    requires Root in t
    ensures n in t
  {
    if at in t then at else Nearest(t, at.dir)
  }

  /** What creating a new entry at `at` answers when the system has no other
      objection. */
  function CreateOutcome(t: Tree, at: Location): Result<(), IoError>
    requires Root in t
  {
    if at in t then Err(AlreadyExists)
    else if t[Nearest(t, at)].File? then Err(NotADirectory)
    else if at.dir in t then Ok(())
    else Err(NotFound)
  }

  predicate AtOrAbove(a: Location, at: Location) {
    a == at || (at.In? && AtOrAbove(a, at.dir))
  }

  /** An entry has only directories above it. */
  lemma {:induction false} AncestorsAreDirs(t: Tree, a: Location, at: Location)
    requires WellFormed(t) && at in t && AtOrAbove(a, at) && a != at
    ensures a in t && t[a].Dir?
  {
    if a != at.dir {
      AncestorsAreDirs(t, a, at.dir);
    }
  }

  ghost function Moved(flushed: map<Location, Bytes>, from: Location, to: Location)
    : map<Location, Bytes>
  {
    if from in flushed then (flushed - {from})[to := flushed[from]] else flushed - {from, to}
  }

  class FileSystem {
    var tree: Tree
    var calls: nat
    ghost var history: seq<Tree>
    ghost var flushed: map<Location, Bytes>
    const cwd: Location
    const fault: nat -> bool
    const chunk: nat -> nat

    constructor (tree: Tree, cwd: Location, fault: nat -> bool, chunk: nat -> nat)
      ensures this.tree == tree && this.cwd == cwd && this.fault == fault && this.chunk == chunk
      ensures calls == 0 && history == [] && flushed == map[]
    {
      this.tree, this.cwd, this.fault, this.chunk := tree, cwd, fault, chunk;
      calls, history, flushed := 0, [], map[];
    }

    ghost predicate Valid()
      reads this
    {
      WellFormed(tree)
    }

    /** What every call does to the bookkeeping. */
    twostate predicate OneCall()
      reads this
    {
      calls == old(calls) + 1 && history == old(history) + [tree]
    }

    /** `mkdir` and an exclusive `open`: create `node` at `p` and never replace. */
    method Create(p: Path, node: Node) returns (r: Result<(), IoError>)
      requires Valid()
      modifies this
      ensures Valid() && OneCall()
      ensures r == if fault(old(calls)) then Err(Other)
                   else if p.Here? then Err(NotFound)
                   else CreateOutcome(old(tree), Resolve(cwd, p))
      ensures tree == if r.Ok? then old(tree)[Resolve(cwd, p) := node] else old(tree)
      ensures flushed == if r.Ok? then old(flushed) - {Resolve(cwd, p)} else old(flushed)
    {
      var at := Resolve(cwd, p);
      if fault(calls) {
        r := Err(Other);
      } else if p.Here? {
        r := Err(NotFound);
      } else {
        r := CreateOutcome(tree, at);
        if r.Ok? {
          assert Nearest(tree, at) == Nearest(tree, at.dir) == at.dir;
          tree, flushed := tree[at := node], flushed - {at};
        }
      }
      calls, history := calls + 1, history + [tree];
    }

    method Chmod(at: Location, mode: nat)
      requires Valid() && at in tree && tree[at].Dir?
      modifies this
      ensures Valid() && OneCall()
      ensures tree == if fault(old(calls)) then old(tree) else old(tree)[at := Dir(mode)]
      ensures flushed == old(flushed)
    {
      if !fault(calls) {
        tree := tree[at := Dir(mode)];
      }
      calls, history := calls + 1, history + [tree];
    }

    /** One `write` on an open file: appends part of `data`. */
    method Write(at: Location, data: Bytes) returns (r: Result<nat, IoError>)
      requires Valid() && at in tree && tree[at].File? && data != []
      modifies this
      ensures Valid() && OneCall()
      ensures r.Err? <==> fault(old(calls))
      ensures r.Err? ==> r.error == Other && tree == old(tree)
      ensures flushed == if r.Ok? then old(flushed) - {at} else old(flushed)
      ensures r.Ok? ==>
        && 0 < r.value <= |data|
        && tree == old(tree)[at := old(tree)[at].(bytes := old(tree)[at].bytes + data[..r.value])]
    {
      if fault(calls) {
        r := Err(Other);
      } else {
        var n: nat := if 0 < chunk(calls) < |data| then chunk(calls) else |data|;
        var node := tree[at].(bytes := tree[at].bytes + data[..n]);
        tree, flushed := tree[at := node], flushed - {at};
        r := Ok(n);
      }
      calls, history := calls + 1, history + [tree];
    }

    method Sync(at: Location) returns (r: Result<(), IoError>)
      requires Valid() && at in tree && tree[at].File?
      modifies this
      ensures Valid() && OneCall() && tree == old(tree)
      ensures r == if fault(old(calls)) then Err(Other) else Ok(())
      ensures flushed == if r.Ok? then old(flushed)[at := tree[at].bytes] else old(flushed)
    {
      if fault(calls) {
        r := Err(Other);
      } else {
        r := Ok(());
        flushed := flushed[at := tree[at].bytes];
      }
      calls, history := calls + 1, history + [tree];
    }

    method RemoveFile(at: Location)
      requires Valid() && at in tree && tree[at].File?
      modifies this
      ensures Valid() && OneCall()
      ensures tree == if fault(old(calls)) then old(tree) else old(tree) - {at}
      ensures flushed == if fault(old(calls)) then old(flushed) else old(flushed) - {at}
    {
      if !fault(calls) {
        tree, flushed := tree - {at}, flushed - {at};
      }
      calls, history := calls + 1, history + [tree];
    }

    /** Moves a file over an existing entry in one step; directories are not
        replaced. */
    method Rename(from: Location, to: Location) returns (r: Result<(), IoError>)
      requires Valid() && from != to && from in tree && to in tree && tree[from].File?
      modifies this
      ensures Valid() && OneCall()
      ensures r == if fault(old(calls)) then Err(Other)
                   else if old(tree)[to].Dir? then Err(IsADirectory)
                   else Ok(())
      ensures tree == if r.Ok? then (old(tree) - {from})[to := old(tree)[from]] else old(tree)
      ensures flushed == if r.Ok? then Moved(old(flushed), from, to) else old(flushed)
    {
      if fault(calls) {
        r := Err(Other);
      } else if tree[to].Dir? {
        r := Err(IsADirectory);
      } else {
        r := Ok(());
        tree, flushed := (tree - {from})[to := tree[from]], Moved(flushed, from, to);
      }
      calls, history := calls + 1, history + [tree];
    }
  }
}
