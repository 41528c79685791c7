/**
 Creating directories and writing files that only their owner can use, on Unix.
*/
module Permissions {
  import opened Wrappers
  import opened FileTree

  // ---------------------------------------------------------------------------
  // Directories
  // ---------------------------------------------------------------------------

  /** `t` with owner-only directories wherever the way down to `at` has nothing. */
  ghost function Built(t: Tree, at: Location): (r: Tree)
    requires Root in t
    ensures Root in r
  {
    if at in t then t else Built(t, at.dir)[at := Dir(DIR_MODE)]
  }

  /** A file lies where the path needs a directory. */
  predicate Blocked(t: Tree, at: Location)
    requires Root in t
  {
    t[Nearest(t, at)].File?
  }

  predicate IsRelative(p: Path) {
    p.Here? || (p.Child? && IsRelative(p.parent))
  }

  /** The path can be built here at all: it is not the empty path, and a relative
      one starts from a place that exists. */
  predicate Reachable(t: Tree, cwd: Location, p: Path) {
    !p.Here? && (IsRelative(p) ==> cwd in t)
  }

  /** The tree a successful call leaves: the missing directories exist, and a
      directory that was already there is owner-only if the change was allowed. */
  ghost predicate Ensured(before: Tree, at: Location, allowed: bool, after: Tree)
    requires Root in before
  {
    if at in before then
      before[at].Dir? && after == if allowed then before[at := Dir(DIR_MODE)] else before
    else
      !Blocked(before, at) && after == Built(before, at)
  }

  /** Building keeps every entry, adds only owner-only directories on the way to
      `at`, and leaves directories all the way. */
  lemma {:induction false} BuiltMeaning(t: Tree, at: Location)
    requires WellFormed(t) && !Blocked(t, at)
    ensures WellFormed(Built(t, at))
    ensures at in Built(t, at) && Built(t, at)[at].Dir?
    ensures forall p | p in t :: p in Built(t, at) && Built(t, at)[p] == t[p]
    ensures forall p | p in Built(t, at) && p !in t ::
              AtOrAbove(p, at) && Built(t, at)[p] == Dir(DIR_MODE)
  {
    if at !in t {
      BuiltMeaning(t, at.dir);
    }
  }

  function Length(at: Location): nat {
    if at.Root? then 0 else 1 + Length(at.dir)
  }

  lemma {:induction false} Deeper(a: Location, at: Location)
    requires AtOrAbove(a, at)
    ensures Length(a) <= Length(at)
  {
    if a != at {
      Deeper(a, at.dir);
    }
  }

  /** Once the way to its parent is built, a missing directory can be made. */
  lemma NextCanBeMade(t: Tree, at: Location)
    requires WellFormed(t) && at !in t && !Blocked(t, at)
    ensures CreateOutcome(Built(t, at.dir), at) == Ok(())
  {
    BuiltMeaning(t, at.dir);
    var b := Built(t, at.dir);
    assert Nearest(b, at.dir) == at.dir;
    if at in b {
      Deeper(at, at.dir);
    }
  }

  lemma {:induction false} RelativeStart(t: Tree, cwd: Location, p: Path)
    requires WellFormed(t) && Resolve(cwd, p) in t && IsRelative(p)
    ensures cwd in t
  {
    if p.Child? {
      RelativeStart(t, cwd, p.parent);
    }
  }

  /** `chain` runs from `path` up, each entry the parent of the one before. */
  predicate Climbs(chain: seq<Path>, path: Path) {
    && chain != [] && chain[0] == path
    && forall j | 0 <= j < |chain| - 1 :: chain[j].Child? && chain[j].parent == chain[j + 1]
  }

  lemma {:induction false} ChainLeadsUp(t: Tree, cwd: Location, chain: seq<Path>, path: Path, j: nat)
    requires Root in t && Climbs(chain, path) && j < |chain|
    requires forall i | 0 <= i < |chain| - 1 :: Resolve(cwd, chain[i]) !in t
    ensures Nearest(t, Resolve(cwd, chain[j])) == Nearest(t, Resolve(cwd, path))
    ensures AtOrAbove(Resolve(cwd, chain[j]), Resolve(cwd, path))
    ensures j > 0 ==> Length(Resolve(cwd, chain[j])) < Length(Resolve(cwd, path))
  {
    if j > 0 {
      ChainLeadsUp(t, cwd, chain, path, j - 1);
      UpFrom(Resolve(cwd, chain[j - 1]), Resolve(cwd, path));
    }
  }

  lemma {:induction false} UpFrom(a: Location, at: Location)
    requires AtOrAbove(a, at) && a.In?
    ensures AtOrAbove(a.dir, at)
  {
    if a != at {
      UpFrom(a, at.dir);
    } else {
      assert AtOrAbove(a.dir, at.dir);
    }
  }

  /** The part of the call that walks up: the paths still to create, last first,
      once the entry above them is a directory. */
  method Climb(fs: FileSystem, path: Path) returns (r: Result<seq<Path>, IoError>, ghost top: Path)
    requires fs.Valid()
    modifies fs
    ensures fs.Valid() && old(fs.calls) < fs.calls
    ensures r.Err? ==> fs.tree == old(fs.tree)
    ensures r == Err(Other) ==> exists k | old(fs.calls) <= k < fs.calls :: fs.fault(k)
    ensures r == Err(NotADirectory) ==> Blocked(old(fs.tree), Resolve(fs.cwd, path))
    ensures r == Err(NotFound) ==> !Reachable(old(fs.tree), fs.cwd, path)
    ensures r.Err? ==> r.error in {NotADirectory, NotFound, Other}
    ensures r.Ok? ==>
      && Climbs(r.value + [top], path)
      && Reachable(old(fs.tree), fs.cwd, path)
      && !Blocked(old(fs.tree), Resolve(fs.cwd, path))
      && (r.value == [] ==>
            Ensured(old(fs.tree), Resolve(fs.cwd, path), !fs.fault(fs.calls - 1), fs.tree))
      && (r.value != [] ==> fs.tree == Built(old(fs.tree), Resolve(fs.cwd, top)))
      && forall j | 0 <= j < |r.value| :: Resolve(fs.cwd, r.value[j]) !in old(fs.tree)
  {
    ghost var was := fs.tree;
    var toCreate: seq<Path> := [];
    var current := path;
    while true
      invariant fs.Valid() && fs.tree == was && old(fs.calls) <= fs.calls
      invariant Climbs(toCreate + [current], path)
      invariant toCreate != [] ==> !current.Here? && !path.Here?
      invariant IsRelative(path) == IsRelative(current)
      invariant Nearest(was, Resolve(fs.cwd, path)) == Nearest(was, Resolve(fs.cwd, current))
      invariant forall j | 0 <= j < |toCreate| :: Resolve(fs.cwd, toCreate[j]) !in was
      invariant toCreate == [] <==> current == path
      decreases current
    {
      var at := Resolve(fs.cwd, current);
      var made := fs.Create(current, Dir(DIR_MODE));
      if made.Ok? {
        if IsRelative(path) {
          RelativeStart(was, fs.cwd, current.parent);
        }
        return Ok(toCreate), current;
      } else if made.error == AlreadyExists {
        if fs.tree[at].Dir? {
          if current == path {
            fs.Chmod(at, DIR_MODE);
          }
          if IsRelative(path) {
            RelativeStart(was, fs.cwd, current);
          }
          return Ok(toCreate), current;
        }
        return Err(NotADirectory), current;
      } else if made.error == NotFound || made.error == NotADirectory {
        if current.Child? && !current.parent.Here? {
          toCreate := toCreate + [current];
          current := current.parent;
        } else {
          return Err(made.error), current;
        }
      } else {
        return Err(made.error), current;
      }
    }
  }

  /** One round of the loop that walks back down: a directory that is there
      already is made owner-only where the system allows it. */
  method EnsureDir(fs: FileSystem, p: Path) returns (r: Result<(), IoError>)
    requires fs.Valid()
    modifies fs
    ensures fs.Valid() && old(fs.calls) < fs.calls
    ensures r.Err? ==> fs.tree == old(fs.tree)
    ensures r == Err(Other) <==> fs.fault(old(fs.calls))
    ensures var at := Resolve(fs.cwd, p);
      && (!fs.fault(old(fs.calls)) ==>
            (r.Ok? <==> !p.Here? && (CreateOutcome(old(fs.tree), at) == Ok(())
                                     || (at in old(fs.tree) && old(fs.tree)[at].Dir?))))
      && (r.Ok? ==>
            fs.tree == if at in old(fs.tree) && fs.fault(old(fs.calls) + 1) then old(fs.tree)
                       else old(fs.tree)[at := Dir(DIR_MODE)])
      && (!fs.fault(old(fs.calls)) && !p.Here? && Blocked(old(fs.tree), at) ==>
            r == Err(NotADirectory))
  {
    r := fs.Create(p, Dir(DIR_MODE));
    if r == Err(AlreadyExists) {
      var at := Resolve(fs.cwd, p);
      if fs.tree[at].Dir? {
        fs.Chmod(at, DIR_MODE);
        r := Ok(());
      } else {
        r := Err(NotADirectory);
      }
    }
  }

  /** `create_dir_all_secure`. */
  method CreateDirAllSecure(fs: FileSystem, path: Path) returns (r: Result<(), IoError>)
    requires fs.Valid()
    modifies fs
    ensures fs.Valid() && old(fs.calls) < fs.calls
    ensures r.Ok? ==>
      && Reachable(old(fs.tree), fs.cwd, path)
      && Ensured(old(fs.tree), Resolve(fs.cwd, path), !fs.fault(fs.calls - 1), fs.tree)
    ensures r == Err(NotADirectory) ==>
      Blocked(old(fs.tree), Resolve(fs.cwd, path)) && fs.tree == old(fs.tree)
    ensures r == Err(NotFound) ==>
      !Reachable(old(fs.tree), fs.cwd, path) && fs.tree == old(fs.tree)
    ensures r.Err? ==> r.error in {NotADirectory, NotFound, Other}
    ensures r == Err(Other) ==>
      && (exists k | old(fs.calls) <= k < fs.calls :: fs.fault(k))
      && PartlyBuilt(old(fs.tree), Resolve(fs.cwd, path), fs.tree)
  {
    ghost var was := fs.tree;
    var climbed, top := Climb(fs, path);
    if climbed.Err? {
      return Err(climbed.error);
    }
    var toCreate := climbed.value;
    ghost var chain := toCreate + [top];
    for i := |toCreate| downto 0
      invariant fs.Valid() && old(fs.calls) < fs.calls
      invariant toCreate == [] ==> Ensured(was, Resolve(fs.cwd, path), !fs.fault(fs.calls - 1), fs.tree)
      invariant toCreate != [] ==> fs.tree == Built(was, Resolve(fs.cwd, chain[i]))
    {
      ChainLeadsUp(was, fs.cwd, chain, path, i);
      ChainLeadsUp(was, fs.cwd, chain, path, i + 1);
      NextCanBeMade(was, Resolve(fs.cwd, toCreate[i]));
      var made := EnsureDir(fs, toCreate[i]);
      if made.Err? {
        return made;
      }
    }
    return Ok(());
  }

  /** After a failure: nothing, or owner-only directories down to some place
      above the path. */
  ghost predicate PartlyBuilt(before: Tree, at: Location, after: Tree)
    requires Root in before
  {
    after == before
    || (!Blocked(before, at) && exists a | AtOrAbove(a, at) && a != at :: after == Built(before, a))
  }

  /** What success means: directories all the way, owner-only where new, and
      every other entry as it was. */
  lemma EnsuredMeaning(before: Tree, at: Location, allowed: bool, after: Tree, p: Location)
    requires WellFormed(before) && WellFormed(after) && Ensured(before, at, allowed, after)
    ensures AtOrAbove(p, at) ==> p in after && after[p].Dir?
    ensures p in after && p !in before ==> AtOrAbove(p, at) && after[p] == Dir(DIR_MODE)
    ensures p in before && p != at ==> p in after && after[p] == before[p]
    ensures !Blocked(before, at)
  {
    BuiltMeaning(before, at);
    if AtOrAbove(p, at) && p != at {
      AncestorsAreDirs(after, p, at);
    }
  }

  lemma {:induction false} NearestAbove(t: Tree, a: Location, at: Location)
    requires WellFormed(t) && AtOrAbove(a, at) && a !in t
    ensures Nearest(t, a) == Nearest(t, at)
  {
    if a != at {
      if at in t {
        AncestorsAreDirs(t, a, at);
      }
      NearestAbove(t, a, at.dir);
    }
  }

  lemma {:induction false} AboveAbove(p: Location, a: Location, at: Location)
    requires AtOrAbove(p, a) && AtOrAbove(a, at)
    ensures AtOrAbove(p, at) && Length(p) <= Length(a)
    ensures a != at ==> Length(a) < Length(at)
  {
    Deeper(p, a);
    if a != at {
      AboveAbove(p, a, at.dir);
    }
  }

  /** What a failure part of the way can leave: only new owner-only directories
      above the path, nothing at all if a file blocks it. */
  lemma PartlyBuiltMeaning(before: Tree, at: Location, after: Tree, p: Location)
    requires WellFormed(before) && PartlyBuilt(before, at, after)
    ensures p in before ==> p in after && after[p] == before[p]
    ensures p in after && p !in before ==> AtOrAbove(p, at) && p != at && after[p] == Dir(DIR_MODE)
    ensures Blocked(before, at) ==> after == before
  {
    if after != before {
      var a :| AtOrAbove(a, at) && a != at && after == Built(before, a);
      NearestAbove(before, a, at);
      BuiltMeaning(before, a);
      if p in after && p !in before {
        AboveAbove(p, a, at);
      }
    }
  }

  // ---------------------------------------------------------------------------
  // Files
  // ---------------------------------------------------------------------------

  /** `before` with an owner-only file at `at` holding a first part of `contents`. */
  ghost predicate PartWritten(before: Tree, at: Location, contents: Bytes, now: Tree) {
    exists n | 0 <= n <= |contents| :: now == before[at := File(FILE_MODE, contents[..n])]
  }

  /** `write_all` and then `sync_all` on a file just created. */
  method WriteAndSync(fs: FileSystem, at: Location, contents: Bytes)
    returns (r: Result<(), IoError>)
    requires fs.Valid() && at in fs.tree && fs.tree[at] == File(FILE_MODE, [])
    modifies fs
    ensures fs.Valid() && old(fs.calls) < fs.calls && old(fs.history) <= fs.history
    ensures r.Ok? ==> fs.tree == old(fs.tree)[at := File(FILE_MODE, contents)]
    ensures r.Ok? ==> at in fs.flushed && fs.flushed[at] == contents
    ensures r.Err? ==>
      r.error == Other && PartWritten(old(fs.tree), at, contents, fs.tree)
      && exists k | old(fs.calls) <= k < fs.calls :: fs.fault(k)
    ensures forall i | |old(fs.history)| <= i < |fs.history| ::
              PartWritten(old(fs.tree), at, contents, fs.history[i])
  {
    var written: nat := 0;
    assert fs.tree == fs.tree[at := File(FILE_MODE, contents[..0])];
    while written < |contents|
      invariant written <= |contents| && fs.Valid() && at in fs.tree
      invariant fs.tree == old(fs.tree)[at := File(FILE_MODE, contents[..written])]
      invariant old(fs.calls) <= fs.calls && old(fs.history) <= fs.history
      invariant forall i | |old(fs.history)| <= i < |fs.history| ::
                  PartWritten(old(fs.tree), at, contents, fs.history[i])
    {
      var n := fs.Write(at, contents[written..]);
      if n.Err? {
        return Err(n.error);
      }
      assert contents[..written] + contents[written..][..n.value] == contents[..written + n.value];
      written := written + n.value;
    }
    assert contents[..written] == contents;
    r := fs.Sync(at);
  }

  /** Where the new contents of an existing file are written first. */
  function Temporary(at: Location, unique: string): (tmp: Location)
    requires at.In?
    ensures tmp != at
  {
    var tmp := In(at.dir, at.name + ".tmp-" + unique);
    assert |tmp.name| > |at.name|;
    tmp
  }

  /** One moment of an overwrite: the target holds all of the old or all of the
      new, and only the temporary file may differ besides. */
  ghost predicate Whole(before: Tree, at: Location, tmp: Location, contents: Bytes, now: Tree)
    requires at in before
  {
    && at in now && now[at] in {before[at], File(FILE_MODE, contents)}
    && now - {at, tmp} == before - {at, tmp}
  }

  lemma PartWrittenAnew(before: Tree, at: Location, contents: Bytes, created: Tree, now: Tree)
    requires at !in before && created == before[at := File(FILE_MODE, [])]
    requires PartWritten(created, at, contents, now)
    ensures PartWritten(before, at, contents, now)
    ensures now - {at} == before
  {
    var n :| 0 <= n <= |contents| && now == created[at := File(FILE_MODE, contents[..n])];
    assert now == before[at := File(FILE_MODE, contents[..n])];
  }

  lemma StepsAreWhole(before: Tree, at: Location, tmp: Location, contents: Bytes, now: Tree)
    requires at in before && at != tmp
    requires now == before || now == before[at := File(FILE_MODE, contents)]
             || PartWritten(before, tmp, contents, now)
    ensures Whole(before, at, tmp, contents, now)
  {
    if now == before {
      assert before - {at, tmp} == now - {at, tmp};
    }
  }

  lemma Renamed(before: Tree, at: Location, tmp: Location, contents: Bytes, now: Tree)
    requires at in before && at != tmp && tmp !in before
    requires now == before[tmp := File(FILE_MODE, contents)]
    ensures (now - {tmp})[at := now[tmp]] == before[at := File(FILE_MODE, contents)]
    ensures PartWritten(before, tmp, contents, now)
  {
    assert contents[..|contents|] == contents;
  }

  /** The arm taken when the target exists. */
  method Overwrite(fs: FileSystem, path: Path, contents: Bytes, unique: string)
    returns (r: Result<(), IoError>)
    requires fs.Valid() && path.Child? && Resolve(fs.cwd, path) in fs.tree
    modifies fs
    ensures fs.Valid() && old(fs.calls) < fs.calls && old(fs.history) <= fs.history
    ensures var at := Resolve(fs.cwd, path);
            var tmp := Temporary(at, unique);
      && (r.Ok? ==>
            && old(fs.tree)[at].File? && tmp !in old(fs.tree)
            && fs.tree == old(fs.tree)[at := File(FILE_MODE, contents)]
            && at in fs.flushed && fs.flushed[at] == contents)
      && (r.Err? && !fs.fault(fs.calls - 1) ==> fs.tree == old(fs.tree))
      && (r.Err? && fs.tree != old(fs.tree) ==> PartWritten(old(fs.tree), tmp, contents, fs.tree))
      && (r.Err? && old(fs.tree)[at].File? && tmp !in old(fs.tree) ==>
            exists k | old(fs.calls) <= k < fs.calls :: fs.fault(k))
      && (forall i | |old(fs.history)| <= i < |fs.history| ::
            Whole(old(fs.tree), at, tmp, contents, fs.history[i]))
  {
    var at := Resolve(fs.cwd, path);
    var tmp := Temporary(at, unique);
    ghost var was := fs.tree;
    assert Nearest(was, tmp.dir) == at.dir;
    forall now | now == was || now == was[at := File(FILE_MODE, contents)]
                 || PartWritten(was, tmp, contents, now)
      ensures Whole(was, at, tmp, contents, now)
    {
      StepsAreWhole(was, at, tmp, contents, now);
    }
    hide Whole;
    r := fs.Create(Child(path.parent, path.name + ".tmp-" + unique), File(FILE_MODE, []));
    if r.Err? {
      return;
    }
    ghost var created := fs.tree;
    assert created == was[tmp := File(FILE_MODE, contents[..0])];
    r := WriteAndSync(fs, tmp, contents);
    forall now | PartWritten(created, tmp, contents, now)
      ensures PartWritten(was, tmp, contents, now) && now - {tmp} == was
    {
      PartWrittenAnew(was, tmp, contents, created, now);
    }
    if r.Err? {
      fs.RemoveFile(tmp);
      return;
    }
    Renamed(was, at, tmp, contents, fs.tree);
    hide PartWritten;
    r := fs.Rename(tmp, at);
    if r.Err? {
      fs.RemoveFile(tmp);
    }
  }

  /** What a call without outside objections needs to succeed. */
  predicate Writable(t: Tree, cwd: Location, path: Path, unique: string)
    requires WellFormed(t)
  {
    var at := Resolve(cwd, path);
    && !path.Here?
    && if at in t then t[at].File? && Temporary(at, unique) !in t
       else CreateOutcome(t, at) == Ok(())
  }

  /** `write_file_secure`; `unique` is the random part of the temporary name. */
  method WriteFileSecure(fs: FileSystem, path: Path, contents: Bytes, unique: string)
    returns (r: Result<(), IoError>)
    requires fs.Valid()
    modifies fs
    ensures fs.Valid() && old(fs.calls) < fs.calls && old(fs.history) <= fs.history
    ensures r.Ok? ==> Writable(old(fs.tree), fs.cwd, path, unique)
    ensures r.Err? && Writable(old(fs.tree), fs.cwd, path, unique) ==>
      exists k | old(fs.calls) <= k < fs.calls :: fs.fault(k)
    ensures var at := Resolve(fs.cwd, path);
      && (r.Ok? ==>
            && fs.tree == old(fs.tree)[at := File(FILE_MODE, contents)]
            && at in fs.flushed && fs.flushed[at] == contents)
      && (r.Err? && !fs.fault(fs.calls - 1) ==> fs.tree == old(fs.tree))
      && (r.Err? && fs.tree != old(fs.tree) ==>
            if at in old(fs.tree)
            then at.In? && PartWritten(old(fs.tree), Temporary(at, unique), contents, fs.tree)
            else PartWritten(old(fs.tree), at, contents, fs.tree))
      && (at in old(fs.tree) && at.In? ==>
            forall i | |old(fs.history)| <= i < |fs.history| ::
              Whole(old(fs.tree), at, Temporary(at, unique), contents, fs.history[i]))
      && (at !in old(fs.tree) ==>
            forall i | |old(fs.history)| <= i < |fs.history| ::
              fs.history[i] == old(fs.tree)
              || PartWritten(old(fs.tree), at, contents, fs.history[i]))
  {
    var at := Resolve(fs.cwd, path);
    r := fs.Create(path, File(FILE_MODE, []));
    if r.Ok? {
      assert fs.tree == old(fs.tree)[at := File(FILE_MODE, contents[..0])];
      ghost var created := fs.tree;
      r := WriteAndSync(fs, at, contents);
      forall now | PartWritten(created, at, contents, now)
        ensures PartWritten(old(fs.tree), at, contents, now) && now - {at} == old(fs.tree)
      {
        PartWrittenAnew(old(fs.tree), at, contents, created, now);
      }
      if r.Err? {
        fs.RemoveFile(at);
      }
    } else if r.error == AlreadyExists {
      if !path.Child? {
        return Err(InvalidInput);
      }
      r := Overwrite(fs, path, contents, unique);
    }
  }
}
