/**
  Durable writes (src/state_file.rs). The disk is modelled with a page cache and
  a directory whose updates reach the platter only when it is synced: a power
  loss may bring back any directory entry since the last sync, and the contents
  of a file that was not synced are lost or torn.
 */
module StateFile {
  import opened Wrappers

  type Path = string
  type Bytes = seq<bv8>

  datatype FileSystem = FileSystem(
    entries: map<Path, nat>,             // path to inode, as running processes see it
    data: map<nat, Bytes>,               // inode to contents, as running processes see them
    synced: set<nat>,                    // inodes whose contents are on disk
    earlier: map<Path, set<Option<nat>>>, // entries since the last directory sync that a power loss may bring back
    next: nat)                           // inodes from here on are unused

  /** What a reader finds at a path. */
  datatype Found = Missing | Whole(contents: Bytes) | Torn

  predicate KnownInode(fs: FileSystem, e: Option<nat>) {
    e.Some? ==> e.value in fs.data && e.value < fs.next
  }

  function Entry(fs: FileSystem, p: Path): Option<nat> {
    if p in fs.entries then Some(fs.entries[p]) else None
  }

  function Earlier(fs: FileSystem, p: Path): set<Option<nat>> {
    if p in fs.earlier then fs.earlier[p] else {}
  }

  /** The entries a power loss may leave at a path. */
  function Possible(fs: FileSystem, p: Path): set<Option<nat>> {
    Earlier(fs, p) + {Entry(fs, p)}
  }

  ghost predicate WellFormed(fs: FileSystem) {
    forall p: Path, e: Option<nat> :: e in Possible(fs, p) ==> KnownInode(fs, e)
  }

  /** What a running process reads. */
  function View(fs: FileSystem, p: Path): Found {
    match Entry(fs, p)
    case None => Missing
    case Some(n) => if n in fs.data then Whole(fs.data[n]) else Missing
  }

  function Surviving(fs: FileSystem, e: Option<nat>): Found {
    match e
    case None => Missing
    case Some(n) => if n in fs.synced && n in fs.data then Whole(fs.data[n]) else Torn
  }

  /** Everything a power loss at this moment may leave at a path. */
  ghost function AfterLoss(fs: FileSystem, p: Path): set<Found> {
    set e | e in Possible(fs, p) :: Surviving(fs, e)
  }

  // ---- system calls -------------------------------------------------------------------------

  function Moved(fs: FileSystem, p: Path, e: Option<nat>): FileSystem {
    fs.(
      entries := if e.Some? then fs.entries[p := e.value] else fs.entries - {p},
      earlier := fs.earlier[p := Earlier(fs, p) + {Entry(fs, p)}])
  }

  function Created(fs: FileSystem, p: Path): FileSystem {
    Moved(fs, p, Some(fs.next)).(data := fs.data[fs.next := []], next := fs.next + 1, synced := fs.synced - {fs.next})
  }

  function Written(fs: FileSystem, n: nat, contents: Bytes): FileSystem {
    fs.(data := fs.data[n := contents], synced := fs.synced - {n})
  }

  function Synced(fs: FileSystem, n: nat): FileSystem {
    fs.(synced := fs.synced + {n})
  }

  function Renamed(fs: FileSystem, from: Path, to: Path): FileSystem
    requires from in fs.entries
  {
    Moved(Moved(fs, to, Some(fs.entries[from])), from, None)
  }

  function DirectorySynced(fs: FileSystem): FileSystem {
    fs.(earlier := map[])
  }

  // ---- what each call does to a path -----------------------------------------------------------

  lemma MovedPossible(fs: FileSystem, p: Path, e: Option<nat>, q: Path)
    ensures Possible(Moved(fs, p, e), q) == if q == p then Possible(fs, q) + {e} else Possible(fs, q)
  {
  }

  lemma MovedWellFormed(fs: FileSystem, p: Path, e: Option<nat>)
    requires WellFormed(fs) && KnownInode(fs, e)
    ensures WellFormed(Moved(fs, p, e))
  {
    hide Possible;
    var fs' := Moved(fs, p, e);
    forall q: Path, x: Option<nat> | x in Possible(fs', q)
      ensures KnownInode(fs', x)
    {
      MovedPossible(fs, p, e, q);
      assert x != e ==> x in Possible(fs, q) && KnownInode(fs, x);
    }
  }

  /** An entry moves at `p`: the old possibilities stay and the new entry joins them. */
  lemma MovedLoss(fs: FileSystem, p: Path, e: Option<nat>, q: Path)
    ensures AfterLoss(Moved(fs, p, e), q) == if q == p then AfterLoss(fs, q) + {Surviving(fs, e)} else AfterLoss(fs, q)
  {
    hide Possible;
    var fs' := Moved(fs, p, e);
    MovedPossible(fs, p, e, q);
    assert forall x :: Surviving(fs', x) == Surviving(fs, x);
    forall f | f in AfterLoss(fs, q) + {Surviving(fs, e)} && q == p
      ensures f in AfterLoss(fs', q)
    {
      var x :| x in Possible(fs, q) + {e} && f == Surviving(fs, x);
      assert x in Possible(fs', q);
    }
  }

  lemma CreatedWellFormed(fs: FileSystem, p: Path)
    requires WellFormed(fs)
    ensures WellFormed(Created(fs, p))
  {
    hide Possible;
    var fs' := Created(fs, p);
    forall q: Path, x: Option<nat> | x in Possible(fs', q)
      ensures KnownInode(fs', x)
    {
      CreatedPossible(fs, p, q);
      assert x != Some(fs.next) ==> x in Possible(fs, q) && KnownInode(fs, x);
    }
  }

  lemma CreatedPossible(fs: FileSystem, p: Path, q: Path)
    ensures Possible(Created(fs, p), q) == if q == p then Possible(fs, q) + {Some(fs.next)} else Possible(fs, q)
  {
  }

  lemma SameEntries(fs: FileSystem, fs': FileSystem)
    requires fs'.entries == fs.entries && fs'.earlier == fs.earlier
    requires WellFormed(fs) && fs.data.Keys <= fs'.data.Keys && fs'.next == fs.next
    ensures WellFormed(fs')
  {
    forall q: Path, e: Option<nat> | e in Possible(fs', q)
      ensures KnownInode(fs', e)
    {
      assert e in Possible(fs, q) && KnownInode(fs, e);
    }
  }

  /** Creating, writing or syncing a file that `p` has never named leaves `p` alone. */
  lemma UnrelatedLoss(fs: FileSystem, fs': FileSystem, n: nat, p: Path)
    requires Some(n) !in Possible(fs, p) && Possible(fs', p) == Possible(fs, p)
    requires forall k :: k != n ==>
      (k in fs'.synced <==> k in fs.synced) && (k in fs'.data <==> k in fs.data)
      && (k in fs.data ==> fs'.data[k] == fs.data[k])
    ensures AfterLoss(fs', p) == AfterLoss(fs, p)
  {
    hide Possible;
    assert forall e :: e in Possible(fs, p) ==> Surviving(fs', e) == Surviving(fs, e);
  }

  lemma DirectorySyncedLoss(fs: FileSystem, p: Path)
    ensures Possible(DirectorySynced(fs), p) == {Entry(fs, p)}
    ensures AfterLoss(DirectorySynced(fs), p) == {Surviving(fs, Entry(fs, p))}
  {
    var fs' := DirectorySynced(fs);
    assert Surviving(fs', Entry(fs, p)) == Surviving(fs, Entry(fs, p));
  }

  lemma RenamedWellFormed(fs: FileSystem, from: Path, to: Path)
    requires WellFormed(fs) && from in fs.entries
    ensures WellFormed(Renamed(fs, from, to))
  {
    assert Entry(fs, from) in Possible(fs, from);
    MovedWellFormed(fs, to, Some(fs.entries[from]));
    MovedWellFormed(Moved(fs, to, Some(fs.entries[from])), from, None);
  }

  lemma DirectorySyncedWellFormed(fs: FileSystem)
    requires WellFormed(fs)
    ensures WellFormed(DirectorySynced(fs))
  {
    forall p: Path, e: Option<nat> | e in Possible(DirectorySynced(fs), p)
      ensures KnownInode(DirectorySynced(fs), e)
    {
      DirectorySyncedLoss(fs, p);
      assert e in Possible(fs, p) && KnownInode(fs, e);
    }
  }

  // ---- the disk --------------------------------------------------------------------------------------

  /** The file system, with every state it has been in. Every call may fail, and a failed write may leave any prefix. */
  class Disk {
    var fs: FileSystem
    ghost var history: seq<FileSystem>
    ghost var failures: nat     // how many calls have failed

    ghost predicate Valid()
      reads this
    {
      WellFormed(fs) && history != [] && history[|history| - 1] == fs
    }

    constructor ()
      ensures Valid() && fs == FileSystem(map[], map[], {}, map[], 0) && history == [fs] && failures == 0
    {
      fs := FileSystem(map[], map[], {}, map[], 0);
      failures := 0;
      new;
      history := [fs];
    }

    method CreateNew(p: Path) returns (inode: Option<nat>)
      requires Valid()
      modifies this
      ensures Valid()
      ensures failures == old(failures) + (if inode.Some? then 0 else 1)
      ensures inode.None? ==> fs == old(fs) && history == old(history)
      ensures inode.Some? ==>
        p !in old(fs).entries && inode.value == old(fs).next && fs == Created(old(fs), p)
        && history == old(history) + [fs]
    {
      var fails: bool := *;
      if fails || p in fs.entries {
        failures := failures + 1;
        return None;
      }
      inode := Some(fs.next);
      CreatedWellFormed(fs, p);
      fs := Created(fs, p);
      history := history + [fs];
    }

    method WriteAll(n: nat, contents: Bytes) returns (ok: bool)
      requires Valid() && n in fs.data
      modifies this
      ensures Valid() && exists k ::
        0 <= k <= |contents| && fs == Written(old(fs), n, contents[..k]) && (ok ==> k == |contents|)
      ensures history == old(history) + [fs]
      ensures failures == old(failures) + (if ok then 0 else 1)
    {
      var k: int := *;
      ok := !(0 <= k < |contents|);
      failures := failures + if ok then 0 else 1;
      var reached := if ok then |contents| else k;
      SameEntries(fs, Written(fs, n, contents[..reached]));
      fs := Written(fs, n, contents[..reached]);
      history := history + [fs];
    }

    method SyncFile(n: nat) returns (ok: bool)
      requires Valid() && n in fs.data
      modifies this
      ensures Valid() && fs == (if ok then Synced(old(fs), n) else old(fs)) && history == old(history) + [fs]
      ensures failures == old(failures) + (if ok then 0 else 1)
    {
      ok := *;
      failures := failures + if ok then 0 else 1;
      if ok {
        SameEntries(fs, Synced(fs, n));
        fs := Synced(fs, n);
      }
      history := history + [fs];
    }

    method Rename(from: Path, to: Path) returns (ok: bool)
      requires Valid() && from in fs.entries
      modifies this
      ensures Valid() && fs == (if ok then Renamed(old(fs), from, to) else old(fs)) && history == old(history) + [fs]
      ensures failures == old(failures) + (if ok then 0 else 1)
    {
      ok := *;
      failures := failures + if ok then 0 else 1;
      if ok {
        RenamedWellFormed(fs, from, to);
        fs := Renamed(fs, from, to);
      }
      history := history + [fs];
    }

    method SyncDirectory() returns (ok: bool)
      requires Valid()
      modifies this
      ensures Valid() && fs == (if ok then DirectorySynced(old(fs)) else old(fs)) && history == old(history) + [fs]
      ensures failures == old(failures) + (if ok then 0 else 1)
    {
      ok := *;
      failures := failures + if ok then 0 else 1;
      if ok {
        DirectorySyncedWellFormed(fs);
        fs := DirectorySynced(fs);
      }
      history := history + [fs];
    }

    method Unlink(p: Path) returns (ok: bool)
      requires Valid()
      modifies this
      ensures Valid() && (ok ==> p in old(fs).entries)
      ensures fs == (if ok then Moved(old(fs), p, None) else old(fs)) && history == old(history) + [fs]
      ensures failures == old(failures) + (if ok then 0 else 1)
    {
      ok := *;
      ok := ok && p in fs.entries;
      failures := failures + if ok then 0 else 1;
      if ok {
        MovedWellFormed(fs, p, None);
        fs := Moved(fs, p, None);
      }
      history := history + [fs];
    }
  }

  // ---- write_atomic -------------------------------------------------------------------------------------

  /**
    Between the states `before` and `now`, a reader of `path` finds the old or the new contents, also after a
    power loss.
   */
  ghost predicate OldOrNew(before: FileSystem, now: FileSystem, path: Path, contents: Bytes) {
    && (View(now, path) == View(before, path) || View(now, path) == Whole(contents))
    && AfterLoss(now, path) <= AfterLoss(before, path) + {Whole(contents)}
  }

  /** Up to the rename: nothing at `path` has changed, and inode `n` is none of its own. */
  ghost predicate Preparing(before: FileSystem, now: FileSystem, path: Path, temp: Path, n: nat) {
    && Possible(now, path) == Possible(before, path) && Entry(now, path) == Entry(before, path)
    && Some(n) !in Possible(before, path)
    && View(now, path) == View(before, path) && AfterLoss(now, path) == AfterLoss(before, path)
    && Entry(now, temp) == Some(n) && n in now.data
  }

  lemma CreatedPreparing(fs: FileSystem, path: Path, temp: Path)
    requires WellFormed(fs) && path != temp
    ensures Preparing(fs, Created(fs, temp), path, temp, fs.next)
  {
    hide AfterLoss;
    CreatedPossible(fs, temp, path);
    assert Some(fs.next) !in Possible(fs, path) by {
      assert !KnownInode(fs, Some(fs.next));
    }
    assert Entry(fs, path) in Possible(fs, path) && KnownInode(fs, Entry(fs, path));
    UnrelatedLoss(fs, Created(fs, temp), fs.next, path);
  }

  /** Writing and syncing the temporary file goes unnoticed at `path`. */
  lemma StillPreparing(before: FileSystem, fs: FileSystem, fs': FileSystem, path: Path, temp: Path, n: nat)
    requires Preparing(before, fs, path, temp, n)
    requires fs'.entries == fs.entries && fs'.earlier == fs.earlier && n in fs'.data
    requires forall k :: k != n ==>
      (k in fs'.synced <==> k in fs.synced) && (k in fs'.data <==> k in fs.data)
      && (k in fs.data ==> fs'.data[k] == fs.data[k])
    ensures Preparing(before, fs', path, temp, n)
  {
    hide AfterLoss;
    assert Entry(fs, path) in Possible(fs, path);
    UnrelatedLoss(fs, fs', n, path);
  }

  lemma PreparingOldOrNew(before: FileSystem, now: FileSystem, path: Path, temp: Path, n: nat, contents: Bytes)
    requires Preparing(before, now, path, temp, n)
    ensures OldOrNew(before, now, path, contents)
  {
    hide AfterLoss, View, Possible;
  }

  /** The rename puts a whole, synced file in place: old or new, nothing else. */
  lemma RenamedOldOrNew(before: FileSystem, fs: FileSystem, path: Path, temp: Path, n: nat, contents: Bytes)
    requires Preparing(before, fs, path, temp, n) && path != temp
    requires n in fs.synced && fs.data[n] == contents
    ensures temp in fs.entries && OldOrNew(before, Renamed(fs, temp, path), path, contents)
    ensures View(Renamed(fs, temp, path), path) == Whole(contents)
    ensures Surviving(Renamed(fs, temp, path), Entry(Renamed(fs, temp, path), path)) == Whole(contents)
  {
    hide AfterLoss, Possible;
    var middle := Moved(fs, path, Some(n));
    MovedLoss(fs, path, Some(n), path);
    MovedLoss(middle, temp, None, path);
  }

  /** Syncing the directory leaves only the present entry. */
  lemma SyncedOldOrNew(before: FileSystem, fs: FileSystem, path: Path, contents: Bytes)
    requires OldOrNew(before, fs, path, contents) && Surviving(fs, Entry(fs, path)) == Whole(contents)
    ensures OldOrNew(before, DirectorySynced(fs), path, contents)
      && AfterLoss(DirectorySynced(fs), path) == {Whole(contents)}
  {
    hide AfterLoss;
    DirectorySyncedLoss(fs, path);
    assert View(DirectorySynced(fs), path) == View(fs, path);
    PresentSurvives(fs, path);
  }

  lemma PresentSurvives(fs: FileSystem, p: Path)
    ensures Surviving(fs, Entry(fs, p)) in AfterLoss(fs, p)
  {
    assert Entry(fs, p) in Possible(fs, p);
  }

  /** Removing a left-over temporary file leaves `path` alone. */
  lemma CleanupOldOrNew(before: FileSystem, fs: FileSystem, path: Path, temp: Path, contents: Bytes)
    requires OldOrNew(before, fs, path, contents) && path != temp
    ensures OldOrNew(before, Moved(fs, temp, None), path, contents)
  {
    hide AfterLoss;
    MovedLoss(fs, temp, None, path);
    assert View(Moved(fs, temp, None), path) == View(fs, path);
  }

  /** All states since `from` keep the old or the new contents at `path`. */
  ghost predicate Throughout(history: seq<FileSystem>, from: nat, before: FileSystem, path: Path, contents: Bytes) {
    forall i :: from <= i < |history| ==> OldOrNew(before, history[i], path, contents)
  }

  /** The steps up to the rename; `inode` is the temporary file if it was created. */
  method Prepare(disk: Disk, path: Path, temp: Path, contents: Bytes) returns (inode: Option<nat>, ready: bool)
    requires disk.Valid() && path != temp
    modifies disk
    ensures disk.Valid()
    ensures old(disk.history) <= disk.history
      && Throughout(disk.history, |old(disk.history)|, old(disk.fs), path, contents)
    ensures inode.None? ==> !ready && disk.fs == old(disk.fs)
    ensures inode.Some? ==> Preparing(old(disk.fs), disk.fs, path, temp, inode.value)
    ensures ready ==> inode.Some? && inode.value in disk.fs.synced && disk.fs.data[inode.value] == contents
    ensures disk.failures == old(disk.failures) + (if ready then 0 else 1)
  {
    hide OldOrNew, Preparing;
    ghost var before := disk.fs;
    inode := disk.CreateNew(temp);
    if inode.None? {
      return None, false;
    }
    var n := inode.value;
    CreatedPreparing(before, path, temp);
    PreparingOldOrNew(before, disk.fs, path, temp, n, contents);
    ghost var created := disk.fs;
    ready := disk.WriteAll(n, contents);
    StillPreparing(before, created, disk.fs, path, temp, n);
    PreparingOldOrNew(before, disk.fs, path, temp, n, contents);
    if ready {
      assert contents[..|contents|] == contents;
      ghost var written := disk.fs;
      ready := disk.SyncFile(n);
      StillPreparing(before, written, disk.fs, path, temp, n);
      PreparingOldOrNew(before, disk.fs, path, temp, n, contents);
    }
  }

  /** Replace and sync the directory, as far as it gets. */
  method Commit(
      disk: Disk, path: Path, temp: Path, contents: Bytes, ghost before: FileSystem, n: nat) returns (ok: bool)
    requires disk.Valid() && path != temp
    requires Preparing(before, disk.fs, path, temp, n) && n in disk.fs.synced && disk.fs.data[n] == contents
    modifies disk
    ensures disk.Valid()
    ensures old(disk.history) <= disk.history && Throughout(disk.history, |old(disk.history)|, before, path, contents)
    ensures OldOrNew(before, disk.fs, path, contents)
    ensures ok ==> View(disk.fs, path) == Whole(contents) && AfterLoss(disk.fs, path) == {Whole(contents)}
    ensures disk.failures == old(disk.failures) + (if ok then 0 else 1)
  {
    hide OldOrNew, AfterLoss, Renamed, Preparing;
    ghost var prepared := disk.fs;
    PreparingOldOrNew(before, prepared, path, temp, n, contents);
    RenamedOldOrNew(before, prepared, path, temp, n, contents);
    ok := disk.Rename(temp, path);
    if ok {
      SyncedOldOrNew(before, disk.fs, path, contents);
      ok := disk.SyncDirectory();
    }
  }

  /**
    `write_atomic`: at every moment, also across a power loss, `path` holds its
    old contents or all of the new ones; after success the new ones, durably. It
    succeeds exactly if no call fails, and otherwise removes its temporary file.
   */
  method WriteAtomic(disk: Disk, path: Path, temp: Path, contents: Bytes) returns (ok: bool)
    requires disk.Valid() && path != temp
    modifies disk
    ensures disk.Valid()
    ensures old(disk.history) <= disk.history
      && Throughout(disk.history, |old(disk.history)|, old(disk.fs), path, contents)
    ensures ok ==> View(disk.fs, path) == Whole(contents) && AfterLoss(disk.fs, path) == {Whole(contents)}
    ensures ok <==> disk.failures == old(disk.failures)
    ensures !ok && disk.failures == old(disk.failures) + 1 ==> temp !in disk.fs.entries
  {
    hide OldOrNew, AfterLoss, Preparing;
    ghost var before := disk.fs;
    var inode, ready := Prepare(disk, path, temp, contents);
    if ready {
      ok := Commit(disk, path, temp, contents, before, inode.value);
    } else {
      ok := false;
      if inode.Some? {
        PreparingOldOrNew(before, disk.fs, path, temp, inode.value, contents);
      } else {
        UnchangedOldOrNew(before, path, contents);
      }
    }
    if !ok {
      CleanupOldOrNew(before, disk.fs, path, temp, contents);
      var _ := disk.Unlink(temp);
    }
  }

  lemma UnchangedOldOrNew(fs: FileSystem, path: Path, contents: Bytes)
    ensures OldOrNew(fs, fs, path, contents)
  {
  }

  /** A removal that was not synced can be undone by a power loss although the file is gone from view. */
  lemma UnsyncedRemovalReturns(fs: FileSystem, p: Path)
    requires p in fs.entries
    ensures View(Moved(fs, p, None), p) == Missing
    ensures Surviving(fs, Entry(fs, p)) in AfterLoss(Moved(fs, p, None), p) && Surviving(fs, Entry(fs, p)) != Missing
  {
    hide AfterLoss;
    MovedLoss(fs, p, None, p);
    PresentSurvives(fs, p);
  }

  /**
    `remove_durable`. It succeeds exactly if no call fails. The file is gone after
    success; it stays gone across a power loss exactly if there was a file to
    remove, or if it could not come back before either.
   */
  method RemoveDurable(disk: Disk, path: Path) returns (ok: bool)
    requires disk.Valid()
    modifies disk
    ensures disk.Valid()
    ensures ok <==> disk.failures == old(disk.failures)
    ensures ok ==> View(disk.fs, path) == Missing
    ensures ok ==> (AfterLoss(disk.fs, path) == {Missing} <==>
      path in old(disk.fs).entries || AfterLoss(old(disk.fs), path) == {Missing})
  {
    hide AfterLoss;
    if path !in disk.fs.entries {
      return true;
    }
    ok := disk.Unlink(path);
    if ok {
      DirectorySyncedLoss(disk.fs, path);
      ok := disk.SyncDirectory();
    }
  }
}
