/**
 * The data side of an upgrade: `rollback` and `checkpoint` of `bell/upgrade.py:78-227`, over the storage roots
 * config, sounds and state. Unless the world is `calm` the process may be killed between any two operations, and in
 * the middle of a file copy.
 */
module SiteRollback {
  import opened PathTree
  import opened Wrappers

  /** The storage roots, in the order of the record. */
  datatype Root = Config | Sounds | State

  /** One value per root. */
  datatype PerRoot<T> = PerRoot(config: T, sounds: T, state: T)

  type Trees = PerRoot<Tree>

  /** `checkpoint.json` and the copies beside it. */
  datatype Checkpoint = Checkpoint(copies: Trees, files: PerRoot<map<Path, string>>)

  datatype Outcome = Completed | Killed | Rejected | Failed

  predicate OnDisk(trees: Trees) {
    WellFormed(trees.config) && WellFormed(trees.sounds) && WellFormed(trees.state)
  }

  predicate AllReadable(trees: Trees) {
    Readable(trees.config) && Readable(trees.sounds) && Readable(trees.state)
  }

  function AllFiles(trees: Trees): PerRoot<map<Path, string>> {
    PerRoot(Files(trees.config), Files(trees.sounds), Files(trees.state))
  }

  /** The copies are still what the record says: the test of `verified_checkpoint`. */
  predicate Verified(c: Checkpoint) {
    AllReadable(c.copies) && AllFiles(c.copies) == c.files
  }

  // ---------- What a checkpoint keeps ----------

  const HEADER := "SQLite format 3\0"

  predicate IsDatabase(t: Tree, p: Path) {
    p in t && t[p].File? && HEADER <= t[p].content
  }

  predicate EndsWith(name: string, suffix: string) {
    |suffix| <= |name| && name[|name| - |suffix|..] == suffix
  }

  /** Without the suffix, this is the name of a database in directory `d`. */
  predicate SideOf(t: Tree, d: Path, name: string, suffix: string) {
    EndsWith(name, suffix) && IsDatabase(t, d + [name[..|name| - |suffix|]])
  }

  /** A journal beside its database; the backup folds it in. */
  predicate IsSidecar(t: Tree, p: Path) {
    && p != [] && p in t && t[p].File?
    && var d, name := Parent(p), p[|p| - 1];
    SideOf(t, d, name, "-wal") || SideOf(t, d, name, "-shm") || SideOf(t, d, name, "-journal")
  }

  /** What the backup of a database holds; nothing if it fails, or fails its integrity check. */
  type Backup = (Tree, Path) -> Option<string>

  /** The checkpoint of a root: the tree itself, but in `state` each database as its backup and no side files. */
  function Snapshot(r: Root, t: Tree, backup: Backup): Tree {
    map p | p in t && !(r == State && IsSidecar(t, p)) ::
      if r == State && IsDatabase(t, p) && backup(t, p).Some? then File(backup(t, p).value) else t[p]
  }

  /** Taking a suffix off leaves nothing that can name a file: `with_name` refuses "" and ".". */
  predicate LosesName(name: string) {
    LeavesNone(name, "-wal") || LeavesNone(name, "-shm") || LeavesNone(name, "-journal")
  }

  predicate LeavesNone(name: string, suffix: string) {
    EndsWith(name, suffix) && var rest := name[..|name| - |suffix|]; rest == "" || rest == "."
  }

  /** A file that is little more than a suffix; the checkpoint fails on it. */
  predicate IsBareSuffix(t: Tree, p: Path) {
    p in t && t[p].File? && p != [] && LosesName(p[|p| - 1])
  }

  predicate HasBareSuffix(t: Tree) {
    exists p {:trigger IsBareSuffix(t, p)} :: p in t && IsBareSuffix(t, p)
  }

  /** These are the bare suffixes, alone or after a dot, and no other names. */
  lemma LosesNameExactly(name: string)
    ensures LosesName(name) <==>
              || name == "-wal" || name == "-shm" || name == "-journal"
              || name == "." + "-wal" || name == "." + "-shm" || name == "." + "-journal"
  {
    LeavesNoneExactly(name, "-wal");
    LeavesNoneExactly(name, "-shm");
    LeavesNoneExactly(name, "-journal");
  }

  lemma LeavesNoneExactly(name: string, suffix: string)
    ensures LeavesNone(name, suffix) <==> name == suffix || name == "." + suffix
  {
    if EndsWith(name, suffix) {
      assert name == name[..|name| - |suffix|] + suffix;
    }
    if name == "." + suffix {
      assert name[..|name| - |suffix|] == ".";
    }
  }

  predicate BackupsSound(t: Tree, backup: Backup) {
    forall p {:trigger backup(t, p)} :: p in t && IsDatabase(t, p) && !IsSidecar(t, p) ==> backup(t, p).Some?
  }

  /** What `checkpoint` asks of the site. */
  predicate Checkpointable(trees: Trees, backup: Backup) {
    AllReadable(trees) && !HasBareSuffix(trees.state) && BackupsSound(trees.state, backup)
  }

  function Snapshots(trees: Trees, backup: Backup): Trees {
    PerRoot(Snapshot(Config, trees.config, backup), Snapshot(Sounds, trees.sounds, backup),
            Snapshot(State, trees.state, backup))
  }

  function Part<T>(all: PerRoot<T>, r: Root): T {
    match r
    case Config => all.config
    case Sounds => all.sounds
    case State => all.state
  }

  /** Root by root, the copies are a checkpoint of these trees. */
  ghost predicate SnapshotOf(copies: Trees, trees: Trees, backup: Backup) {
    forall r {:trigger Part(copies, r)} :: Part(copies, r) == Snapshot(r, Part(trees, r), backup)
  }

  lemma SnapshotOfExactly(copies: Trees, trees: Trees, backup: Backup)
    ensures SnapshotOf(copies, trees, backup) <==> copies == Snapshots(trees, backup)
  {
    assert Part(copies, Config) == copies.config && Part(copies, Sounds) == copies.sounds;
    assert Part(copies, State) == copies.state;
  }

  lemma SnapshotIsTree(r: Root, t: Tree, backup: Backup)
    requires WellFormed(t) && Readable(t)
    ensures WellFormed(Snapshot(r, t, backup)) && Readable(Snapshot(r, t, backup))
    ensures r != State ==> Snapshot(r, t, backup) == t
  {
    var copy := Snapshot(r, t, backup);
    forall p | p in copy && p != [] ensures IsDir(copy, Parent(p)) {
      assert IsDir(t, Parent(p));
    }
  }

  /** The content of the file at a path, if there is one. */
  function FileAt(t: Tree, p: Path): Option<string> {
    if p in t && t[p].File? then Some(t[p].content) else None
  }

  /** A listing that is refused: the root is no directory, or something below it is a link. */
  lemma ReadableExactly(t: Tree)
    ensures Readable(t) <==> FileAt(t, []).None? && [] in t && forall p :: p in t ==> !t[p].Link?
  {
  }

  /** An intact checkpoint holds exactly the recorded files, with the recorded content. */
  lemma VerifiedExactly(c: Checkpoint)
    ensures Verified(c) <==>
            && AllReadable(c.copies)
            && (forall p :: FileAt(c.copies.config, p) == if p in c.files.config then Some(c.files.config[p]) else None)
            && (forall p :: FileAt(c.copies.sounds, p) == if p in c.files.sounds then Some(c.files.sounds[p]) else None)
            && (forall p :: FileAt(c.copies.state, p) == if p in c.files.state then Some(c.files.state[p]) else None)
  {
    FilesExactly(c.copies.config, c.files.config);
    FilesExactly(c.copies.sounds, c.files.sounds);
    FilesExactly(c.copies.state, c.files.state);
  }

  /** An inventory equals a record if and only if they agree at every path. */
  lemma FilesExactly(t: Tree, files: map<Path, string>)
    ensures Files(t) == files <==> forall p :: FileAt(t, p) == if p in files then Some(files[p]) else None
  {
    forall p ensures FileAt(t, p) == if p in Files(t) then Some(Files(t)[p]) else None {
    }
    if forall p :: FileAt(t, p) == (if p in files then Some(files[p]) else None) {
      forall p ensures (p in Files(t) <==> p in files) && (p in files ==> Files(t)[p] == files[p]) {
        assert FileAt(t, p) == if p in files then Some(files[p]) else None;
      }
    }
  }

  /** In directory `d` there is a file of this name that begins as a database does. */
  ghost predicate DatabaseIn(t: Tree, d: Path, name: string) {
    FileAt(t, d + [name]).Some? && "SQLite format 3\0" <= FileAt(t, d + [name]).value
  }

  /** The name is that of a database in `d`, and then the suffix. */
  ghost predicate Beside(t: Tree, d: Path, name: string, suffix: string) {
    exists base: string :: DatabaseIn(t, d, base) && name == base + suffix
  }

  /** A side file is a file named as a database beside it, with one of the three suffixes. */
  lemma SidecarExactly(t: Tree, d: Path, name: string)
    ensures IsSidecar(t, d + [name]) <==>
            && FileAt(t, d + [name]).Some?
            && (Beside(t, d, name, "-wal") || Beside(t, d, name, "-shm") || Beside(t, d, name, "-journal"))
  {
    BesideExactly(t, d, name, "-wal");
    BesideExactly(t, d, name, "-shm");
    BesideExactly(t, d, name, "-journal");
    var p := d + [name];
    assert Parent(p) == d && p[|p| - 1] == name;
  }

  lemma BesideExactly(t: Tree, d: Path, name: string, suffix: string)
    ensures Beside(t, d, name, suffix) <==> SideOf(t, d, name, suffix)
  {
    if SideOf(t, d, name, suffix) {
      assert name == name[..|name| - |suffix|] + suffix;
      assert DatabaseIn(t, d, name[..|name| - |suffix|]);
    }
    if Beside(t, d, name, suffix) {
      var base: string :| DatabaseIn(t, d, base) && name == base + suffix;
      assert name[..|name| - |suffix|] == base;
    }
  }

  /**
   * The state part of a checkpoint, path by path: all of it but the side files; a database is there as its backup,
   * anything else as it was.
   */
  lemma SnapshotExactly(t: Tree, backup: Backup, p: Path)
    requires BackupsSound(t, backup)
    ensures var copy := Snapshot(State, t, backup);
            && (p in copy <==> p in t && !IsSidecar(t, p))
            && (p in copy ==>
                  if FileAt(t, p).Some? && "SQLite format 3\0" <= t[p].content
                  then backup(t, p).Some? && copy[p] == File(backup(t, p).value)
                  else copy[p] == t[p])
  {
  }

  /** Exactly what a checkpoint asks: whole roots without links, no nameless side file, and every backup sound. */
  lemma CheckpointableExactly(trees: Trees, backup: Backup)
    ensures Checkpointable(trees, backup) <==>
            && Readable(trees.config) && Readable(trees.sounds) && Readable(trees.state)
            && (forall p :: p in trees.state && p != [] && trees.state[p].File? ==>
                  var name := p[|p| - 1];
                  && name != "-wal" && name != "-shm" && name != "-journal"
                  && name != "." + "-wal" && name != "." + "-shm" && name != "." + "-journal")
            && (forall p :: FileAt(trees.state, p).Some? && "SQLite format 3\0" <= trees.state[p].content ==>
                  IsSidecar(trees.state, p) || backup(trees.state, p).Some?)
  {
    forall p | p in trees.state && p != []
      ensures var name := p[|p| - 1];
              LosesName(name) <==>
                || name == "-wal" || name == "-shm" || name == "-journal"
                || name == "." + "-wal" || name == "." + "-shm" || name == "." + "-journal"
    {
      LosesNameExactly(p[|p| - 1]);
    }
    assert forall p :: p in trees.state && IsBareSuffix(trees.state, p) ==> HasBareSuffix(trees.state);
    hide LosesName, IsSidecar;
  }

  // ---------- What an upgrade must not lose ----------

  /** Every path of the checkpoint is still there. */
  predicate PathsKept(now: Tree, copy: Tree) {
    forall p :: p in copy ==> p in now
  }

  /** State files unchanged; a database may have gained rows, by the answer of `compatible`. */
  predicate StateKept(now: Tree, copy: Tree, compatible: (string, string) -> bool) {
    forall p :: p in copy && copy[p].File? ==>
      && p in now && now[p].File?
      && if IsDatabase(copy, p) then compatible(copy[p].content, now[p].content) else now[p] == copy[p]
  }

  /** One root passes: no link, every path still there, and the same files, or the state files kept. */
  predicate RootKept(r: Root, now: Tree, copy: Tree, files: map<Path, string>, compatible: (string, string) -> bool) {
    && Readable(now) && PathsKept(now, copy)
    && if r == State then StateKept(now, copy, compatible) else Files(now) == files
  }

  /** The test of `verify_site`, root by root, without modes and owners. */
  predicate Preserved(trees: Trees, c: Checkpoint, compatible: (string, string) -> bool) {
    && Verified(c)
    && forall r {:trigger Part(trees, r)} ::
         RootKept(r, Part(trees, r), Part(c.copies, r), Part(c.files, r), compatible)
  }

  /**
   * Exactly what the test accepts, file by file: config and sounds hold the same files with the same content; every
   * path of the checkpoint is there; each state file is unchanged, or a database that still holds the rows of its copy.
   */
  lemma PreservedExactly(trees: Trees, c: Checkpoint, compatible: (string, string) -> bool)
    ensures Preserved(trees, c, compatible) <==>
            && Verified(c) && AllReadable(trees)
            && (forall p :: FileAt(trees.config, p) == FileAt(c.copies.config, p))
            && (forall p :: FileAt(trees.sounds, p) == FileAt(c.copies.sounds, p))
            && (forall p :: p in c.copies.config ==> p in trees.config)
            && (forall p :: p in c.copies.sounds ==> p in trees.sounds)
            && (forall p :: p in c.copies.state ==> p in trees.state)
            && (forall p :: FileAt(c.copies.state, p).Some? ==>
                  FileAt(trees.state, p).Some?
                  && if "SQLite format 3\0" <= FileAt(c.copies.state, p).value
                     then compatible(FileAt(c.copies.state, p).value, FileAt(trees.state, p).value)
                     else FileAt(trees.state, p) == FileAt(c.copies.state, p))
  {
    assert Part(trees, Config) == trees.config && Part(trees, Sounds) == trees.sounds;
    assert Part(trees, State) == trees.state;
    SameFilesExactly(trees.config, c.copies.config);
    SameFilesExactly(trees.sounds, c.copies.sounds);
    StateKeptExactly(trees.state, c.copies.state, compatible);
  }

  lemma StateKeptExactly(now: Tree, copy: Tree, compatible: (string, string) -> bool)
    ensures StateKept(now, copy, compatible) <==>
            forall p :: FileAt(copy, p).Some? ==>
              && FileAt(now, p).Some?
              && if "SQLite format 3\0" <= FileAt(copy, p).value
                 then compatible(FileAt(copy, p).value, FileAt(now, p).value)
                 else FileAt(now, p) == FileAt(copy, p)
  {
    forall p | p in copy && copy[p].File? ensures FileAt(copy, p) == Some(copy[p].content) {
    }
    forall p | FileAt(copy, p).Some? ensures p in copy && copy[p].File? {
    }
  }

  lemma SameFilesExactly(a: Tree, b: Tree)
    ensures Files(a) == Files(b) <==> forall p :: FileAt(a, p) == FileAt(b, p)
  {
    FilesExactly(a, Files(b));
    forall p ensures FileAt(b, p) == if p in Files(b) then Some(Files(b)[p]) else None {
    }
  }

  /**
   * What a site keeps of an earlier one: config and sounds to the byte, every path, every state file but the side files
   * of a database, and of a database the rows of its backup.
   */
  ghost predicate KeepsFound(now: Trees, before: Trees, backup: Backup, compatible: (string, string) -> bool) {
    && (forall p :: FileAt(now.config, p) == FileAt(before.config, p))
    && (forall p :: FileAt(now.sounds, p) == FileAt(before.sounds, p))
    && (forall p :: p in before.config ==> p in now.config)
    && (forall p :: p in before.sounds ==> p in now.sounds)
    && (forall p :: p in before.state && !IsSidecar(before.state, p) ==>
          p in now.state && StillHolds(now.state, before.state, p, backup, compatible))
  }

  ghost predicate StillHolds(now: Tree, before: Tree, p: Path, backup: Backup, compatible: (string, string) -> bool)
    requires p in before
  {
    FileAt(before, p).Some? ==>
      && FileAt(now, p).Some?
      && if IsDatabase(before, p)
         then backup(before, p).Some? && (compatible(backup(before, p).value, FileAt(now, p).value)
                                          || FileAt(now, p) == backup(before, p))
         else FileAt(now, p) == FileAt(before, p)
  }

  /** A site that passes the test against a checkpoint keeps what the checkpoint was taken of. */
  lemma PassedKeepsFound(now: Trees, before: Trees, c: Checkpoint, backup: Backup, compatible: (string, string) -> bool)
    requires Preserved(now, c, compatible)
    requires Checkpointable(before, backup) && SnapshotOf(c.copies, before, backup)
    ensures KeepsFound(now, before, backup, compatible)
  {
    SnapshotOfExactly(c.copies, before, backup);
    PreservedExactly(now, c, compatible);
    CheckpointKeeps(before, backup);
    forall p | p in before.state && !IsSidecar(before.state, p)
      ensures p in now.state && StillHolds(now.state, before.state, p, backup, compatible)
    {
      SnapshotExactly(before.state, backup, p);
      assert p in c.copies.state;
      if FileAt(before.state, p).Some? {
        assert FileAt(c.copies.state, p).Some?;
      }
    }
  }

  /** A rolled back site passes the test of an upgrade. */
  lemma RestoredIsPreserved(c: Checkpoint, compatible: (string, string) -> bool)
    requires Verified(c)
    requires forall content :: compatible(content, content)
    ensures Preserved(c.copies, c, compatible)
  {
    PreservedExactly(c.copies, c, compatible);
  }

  /** From a checkpoint and back, config and sounds are as they were, and so is state if it holds no database. */
  lemma CheckpointKeeps(before: Trees, backup: Backup)
    ensures Snapshots(before, backup).config == before.config
    ensures Snapshots(before, backup).sounds == before.sounds
    ensures (forall p :: p in before.state ==> !IsDatabase(before.state, p)) ==>
              Snapshots(before, backup).state == before.state
  {
  }

  // ---------- The two passes, on one tree ----------

  /** After `i` deletions, deepest first. */
  function Without(t: Tree, items: seq<Path>, i: nat): Tree
    requires i <= |items|
  {
    map p | p in t && p !in items[..i] :: t[p]
  }

  /** After `i` creations, in sorted order. */
  function Only(t: Tree, items: seq<Path>, i: nat): Tree
    requires i <= |items|
  {
    map p | p in t && (p == [] || p in items[..i]) :: t[p]
  }

  lemma DeeperGoesBefore(t: Tree, items: seq<Path>, i: nat, p: Path)
    requires ChildrenFirst(items, t) && i < |items|
    requires p in Items(t) && |p| > |items[i]|
    ensures p in items[..i]
  {
    assert p in items;
    var k :| 0 <= k < |items| && items[k] == p;
    assert k < i;
    assert items[..i][k] == p;
  }

  lemma StillWellFormed(t: Tree, items: seq<Path>, i: nat)
    requires WellFormed(t) && Readable(t) && ChildrenFirst(items, t) && i <= |items|
    ensures WellFormed(Without(t, items, i)) && Readable(Without(t, items, i))
  {
    var now := Without(t, items, i);
    forall p | p in t && p != [] && Parent(p) in items[..i] ensures p in items[..i] {
      var k :| 0 <= k < i && items[k] == Parent(p);
      DeeperGoesBefore(t, items, k, p);
      assert items[..k] <= items[..i];
    }
    assert [] !in items;
    assert forall p :: p in items[..i] ==> p in items;
    forall p | p in now && p != [] ensures IsDir(now, Parent(p)) {
      assert IsDir(t, Parent(p));
    }
  }

  /** Nothing that is deleted still holds anything. */
  lemma DeletionIsAllowed(t: Tree, items: seq<Path>, i: nat)
    requires WellFormed(t) && Readable(t) && ChildrenFirst(items, t) && i < |items|
    ensures items[i] in Without(t, items, i)
    ensures Without(t, items, i)[items[i]] == Dir ==> MayRmdir(Without(t, items, i), items[i])
  {
    assert items[i] in items;
    assert items[i] in Items(t);
    assert items[i] !in items[..i];
    forall q | q in t && q != [] && Parent(q) == items[i] ensures q in items[..i] {
      DeeperGoesBefore(t, items, i, q);
    }
  }

  lemma DeletionStep(t: Tree, items: seq<Path>, i: nat)
    requires i < |items|
    ensures Without(t, items, i) - {items[i]} == Without(t, items, i + 1)
  {
    assert items[..i + 1] == items[..i] + [items[i]];
  }

  lemma AllDeleted(t: Tree, items: seq<Path>)
    requires Readable(t) && ChildrenFirst(items, t)
    ensures Without(t, items, |items|) == Bare()
  {
    assert items[..|items|] == items;
  }

  /** Every directory is there before what it holds, and nothing is there twice. */
  lemma CreationIsAllowed(t: Tree, items: seq<Path>, i: nat)
    requires WellFormed(t) && Readable(t) && ParentsFirst(items, t) && i < |items|
    ensures items[i] in t && MayMkdir(Only(t, items, i), items[i])
  {
    assert items[i] in items;
    assert items[i] in Items(t);
    assert IsDir(t, Parent(items[i]));
  }

  lemma CreationKeepsWellFormed(t: Tree, items: seq<Path>, i: nat)
    requires WellFormed(t) && Readable(t) && ParentsFirst(items, t) && i <= |items|
    ensures WellFormed(Only(t, items, i)) && Readable(Only(t, items, i))
  {
    var now := Only(t, items, i);
    forall p | p in now && p != [] ensures IsDir(now, Parent(p)) {
      assert IsDir(t, Parent(p));
      var k :| 0 <= k < i && items[k] == p;
      if Parent(p) != [] {
        assert Parent(p) in items[..k];
        var j :| 0 <= j < k && items[j] == Parent(p);
        assert items[..i][j] == Parent(p);
      }
    }
  }

  lemma CreationStep(t: Tree, items: seq<Path>, i: nat)
    requires Readable(t) && ParentsFirst(items, t) && i < |items|
    ensures items[i] in t && Only(t, items, i)[items[i] := t[items[i]]] == Only(t, items, i + 1)
  {
    assert items[i] in items;
    assert items[..i + 1] == items[..i] + [items[i]];
  }

  lemma AllCreated(t: Tree, items: seq<Path>)
    requires Readable(t) && ParentsFirst(items, t)
    ensures Only(t, items, 0) == Bare() && Only(t, items, |items|) == t
  {
    assert items[..|items|] == items;
    forall p | p in t ensures p in Only(t, items, |items|) {
      assert p == [] || p in Items(t);
    }
  }

  /** A file cut short leaves a tree that a later rollback accepts. */
  lemma PartialFile(t: Tree, p: Path, part: string)
    requires WellFormed(t) && Readable(t) && MayMkdir(t, p)
    ensures WellFormed(t[p := File(part)]) && Readable(t[p := File(part)])
  {
  }

  /** One storage root on disk. */
  class Folder {
    var tree: Tree

    constructor (saved: Tree)
      ensures tree == saved
    {
      tree := saved;
    }

    // ---------- System calls: each may refuse ----------

    method Unlink(p: Path) returns (ok: bool)
      modifies this
      ensures ok == MayUnlink(old(tree), p)
      ensures tree == if ok then old(tree) - {p} else old(tree)
    {
      ok := MayUnlink(tree, p);
      if ok {
        tree := tree - {p};
      }
    }

    method Rmdir(p: Path) returns (ok: bool)
      modifies this
      ensures ok == MayRmdir(old(tree), p)
      ensures tree == if ok then old(tree) - {p} else old(tree)
    {
      ok := MayRmdir(tree, p);
      if ok {
        tree := tree - {p};
      }
    }

    method Mkdir(p: Path) returns (ok: bool)
      modifies this
      ensures ok == MayMkdir(old(tree), p)
      ensures tree == if ok then old(tree)[p := Dir] else old(tree)
    {
      ok := MayMkdir(tree, p);
      if ok {
        tree := tree[p := Dir];
      }
    }

    method CopyFile(p: Path, file: Node) returns (ok: bool)
      modifies this
      ensures ok == MayCopy(old(tree), p)
      ensures tree == if ok then old(tree)[p := file] else old(tree)
    {
      ok := MayCopy(tree, p);
      if ok {
        tree := tree[p := file];
      }
    }

    // ---------- The passes ----------

    method DeleteOne(ghost t: Tree, items: seq<Path>, i: nat) returns (ok: bool)
      requires WellFormed(t) && Readable(t) && ChildrenFirst(items, t)
      requires i < |items| && tree == Without(t, items, i)
      modifies this
      ensures ok && tree == Without(t, items, i + 1)
    {
      DeletionIsAllowed(t, items, i);
      DeletionStep(t, items, i);
      if tree[items[i]] != Dir {
        ok := Unlink(items[i]);
      } else {
        ok := Rmdir(items[i]);
      }
    }

    method CreateOne(source: Tree, items: seq<Path>, i: nat) returns (ok: bool)
      requires WellFormed(source) && Readable(source) && ParentsFirst(items, source)
      requires i < |items| && tree == Only(source, items, i)
      modifies this
      ensures ok && tree == Only(source, items, i + 1)
    {
      CreationIsAllowed(source, items, i);
      CreationStep(source, items, i);
      if source[items[i]] == Dir {
        ok := Mkdir(items[i]);
      } else {
        ok := CopyFile(items[i], source[items[i]]);
      }
    }

    /** Deepest first: `unlink` or `rmdir`. No operation is ever refused, so only a kill stops it. */
    method DeletePass(calm: bool) returns (outcome: Outcome)
      requires WellFormed(tree) && Readable(tree)
      modifies this
      ensures outcome == Completed || (outcome == Killed && !calm)
      ensures outcome == Completed ==> tree == Bare()
      ensures WellFormed(tree) && Readable(tree)
    {
      ghost var t := tree;
      var items := ItemsDeepestFirst(tree);
      var i, ok := 0, true;
      assert Without(t, items, 0) == t;
      while i < |items| && ok
        invariant 0 <= i <= |items| && ok && tree == Without(t, items, i)
      {
        var cut: bool := *;
        if cut && !calm {
          StillWellFormed(t, items, i);
          return Killed;
        }
        ok := DeleteOne(t, items, i);
        i := i + 1;
      }
      AllDeleted(t, items);
      outcome := if ok then Completed else Failed;
    }

    /** In sorted order: `mkdir` or `copy2`. No operation is ever refused, so only a kill stops it. */
    method CopyPass(source: Tree, calm: bool) returns (outcome: Outcome)
      requires tree == Bare() && WellFormed(source) && Readable(source)
      modifies this
      ensures outcome == Completed || (outcome == Killed && !calm)
      ensures outcome == Completed ==> tree == source
      ensures WellFormed(tree) && Readable(tree)
    {
      var items := SortedItems(source);
      var i, ok := 0, true;
      assert Only(source, items, 0) == Bare() by { AllCreated(source, items); }
      while i < |items| && ok
        invariant 0 <= i <= |items| && ok && tree == Only(source, items, i)
      {
        var cut: bool := *;
        if cut && !calm {
          CutShort(source, items, i);
          return Killed;
        }
        ok := CreateOne(source, items, i);
        i := i + 1;
      }
      assert Only(source, items, i) == source by { AllCreated(source, items); }
      outcome := if ok then Completed else Failed;
    }

    /** A kill before item `i`, or with part of that file written. */
    method CutShort(source: Tree, items: seq<Path>, i: nat)
      requires WellFormed(source) && Readable(source) && ParentsFirst(items, source)
      requires i < |items| && tree == Only(source, items, i)
      modifies this
      ensures WellFormed(tree) && Readable(tree)
    {
      CreationKeepsWellFormed(source, items, i);
      CreationIsAllowed(source, items, i);
      var begun: bool, part: string := *, *;
      if begun && source[items[i]].File? {
        PartialFile(tree, items[i], part);
        tree := tree[items[i] := File(part)];
      }
    }

    /** One root of `rollback`: links are refused first, and the result is checked last. */
    method Rebuild(source: Tree, files: map<Path, string>, calm: bool) returns (outcome: Outcome)
      requires WellFormed(tree)
      requires WellFormed(source) && Readable(source) && Files(source) == files
      modifies this
      ensures outcome == Rejected <==> !Readable(old(tree))
      ensures outcome == Rejected ==> tree == old(tree)
      ensures outcome != Failed && (calm ==> outcome != Killed)
      ensures outcome == Completed ==> tree == source
      ensures WellFormed(tree) && (outcome != Rejected ==> Readable(tree))
    {
      if !Readable(tree) {
        return Rejected;
      }
      outcome := DeletePass(calm);
      if outcome == Completed {
        outcome := CopyPass(source, calm);
      }
      if outcome == Completed && (!Readable(tree) || Files(tree) != files) {
        outcome := Failed;
      }
    }
  }

  /** The storage roots of one appliance. */
  class SiteData {
    const config: Folder
    const sounds: Folder
    const state: Folder

    constructor (saved: Trees)
      ensures Valid() && Now() == saved
      ensures fresh(config) && fresh(sounds) && fresh(state)
    {
      config := new Folder(saved.config);
      sounds := new Folder(saved.sounds);
      state := new Folder(saved.state);
    }

    ghost predicate Valid() {
      config != sounds && config != state && sounds != state
    }

    function Now(): Trees
      reads config, sounds, state
    {
      PerRoot(config.tree, sounds.tree, state.tree)
    }

    /**
     * `rollback`: from any link-free site, also one half deleted or half copied, to exactly the checkpoint. Left alone
     * it completes exactly if the checkpoint is intact and the site has no link.
     */
    method Rollback(c: Checkpoint, calm: bool) returns (outcome: Outcome)
      requires Valid() && OnDisk(Now()) && OnDisk(c.copies)
      modifies config, sounds, state
      ensures OnDisk(Now())
      ensures !Verified(c) ==> outcome == Rejected && Now() == old(Now())
      ensures outcome != Failed
      ensures Verified(c) && AllReadable(old(Now())) ==> outcome != Rejected && AllReadable(Now())
      ensures outcome == Completed ==> Verified(c) && AllReadable(old(Now())) && Now() == c.copies
      ensures calm ==> outcome != Killed && (outcome == Completed <==> Verified(c) && AllReadable(old(Now())))
    {
      if !Verified(c) {
        return Rejected;
      }
      outcome := config.Rebuild(c.copies.config, c.files.config, calm);
      if outcome == Completed {
        outcome := sounds.Rebuild(c.copies.sounds, c.files.sounds, calm);
      }
      if outcome == Completed {
        outcome := state.Rebuild(c.copies.state, c.files.state, calm);
      }
    }

    /** `checkpoint`, the service being stopped: it reads the site and changes nothing of it. */
    method TakeCheckpoint(backup: Backup, calm: bool) returns (outcome: Outcome, c: Checkpoint)
      requires OnDisk(Now())
      ensures outcome == Rejected ==> !Checkpointable(Now(), backup)
      ensures outcome != Failed
      ensures outcome == Completed ==>
                Checkpointable(Now(), backup) && OnDisk(c.copies) && Verified(c) && c.copies == Snapshots(Now(), backup)
      ensures calm ==> outcome != Killed && (outcome == Completed <==> Checkpointable(Now(), backup))
    {
      c := Checkpoint(Now(), AllFiles(Now()));
      if !AllReadable(Now()) {
        return Rejected, c;
      }
      var first, second, third := Bare(), Bare(), Bare();
      outcome, first := CopyOut(Config, config.tree, backup, calm);
      if outcome == Completed {
        outcome, second := CopyOut(Sounds, sounds.tree, backup, calm);
      }
      if outcome == Completed {
        outcome, third := CopyState(state.tree, backup, calm);
      }
      var copies := PerRoot(first, second, third);
      c := Checkpoint(copies, AllFiles(copies));
    }

    static method CopyState(t: Tree, backup: Backup, calm: bool) returns (outcome: Outcome, copy: Tree)
      requires WellFormed(t) && Readable(t)
      ensures outcome == Rejected <==> HasBareSuffix(t) || !BackupsSound(t, backup)
      ensures outcome != Failed && (calm ==> outcome != Killed)
      ensures outcome == Completed ==> copy == Snapshot(State, t, backup) && WellFormed(copy) && Readable(copy)
    {
      if HasBareSuffix(t) || !BackupsSound(t, backup) {
        return Rejected, Bare();
      }
      outcome, copy := CopyOut(State, t, backup, calm);
    }

    /** One root into a fresh directory of the checkpoint. */
    static method CopyOut(r: Root, t: Tree, backup: Backup, calm: bool) returns (outcome: Outcome, copy: Tree)
      requires WellFormed(t) && Readable(t)
      ensures outcome == Completed || (outcome == Killed && !calm)
      ensures outcome == Completed ==> copy == Snapshot(r, t, backup) && WellFormed(copy) && Readable(copy)
    {
      SnapshotIsTree(r, t, backup);
      var destination := new Folder(Bare());
      outcome := destination.CopyPass(Snapshot(r, t, backup), calm);
      copy := destination.tree;
    }
  }
}
