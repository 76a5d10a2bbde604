// The objects the write-back protocol works on: the remote, which decides each
// push on its own, and the work tree, whose git operations may each fail.

module Repositories {
  import opened Wrappers
  import opened Git
  import opened Checkout
  import opened Protocol

  /** The remote repository. It takes an unforced push only as a fast-forward,
      and a forge's own rules may decline any push. */
  class Remote {
    var tip: Commit
    var sides: map<string, Commit>
    var record: Option<Commit>
    ghost var tips: set<Commit>

    ghost function State(): Shared
      reads this
    {
      Shared(tip, sides, record, tips)
    }

    constructor (first: Commit)
      ensures State() == Shared(first, map[], None, {first})
    {
      tip, sides, record, tips := first, map[], None, {first};
    }

    method TakeBranch(c: Commit) returns (accepted: bool)
      modifies this
      ensures accepted ==> Ancestor(old(tip), c)
      ensures State() == if accepted then old(State()).(tip := c, tips := old(tips) + {c}) else old(State())
    {
      accepted := *;
      accepted := accepted && Ancestor(tip, c);
      if accepted {
        tip := c;
        tips := tips + {c};
      }
    }

    method TakeSide(id: string, c: Commit) returns (accepted: bool)
      modifies this
      ensures accepted ==> (id in old(sides) ==> Ancestor(old(sides)[id], c))
      ensures State()
              == if accepted then old(State()).(sides := old(sides)[id := c], tips := old(tips) + {c}) else old(State())
    {
      accepted := *;
      accepted := accepted && (id in sides ==> Ancestor(sides[id], c));
      if accepted {
        sides := sides[id := c];
        tips := tips + {c};
      }
    }

    method TakeRecord(c: Commit) returns (accepted: bool)
      modifies this
      ensures accepted ==> (old(record).Some? ==> Ancestor(old(record).value, c))
      ensures State() == if accepted then old(State()).(record := Some(c)) else old(State())
    {
      accepted := *;
      accepted := accepted && (record.Some? ==> Ancestor(record.value, c));
      if accepted {
        record := Some(c);
      }
    }

    method DropSide(id: string) returns (gone: bool)
      modifies this
      ensures State() == if gone then old(State()).(sides := old(sides) - {id}) else old(State())
    {
      gone := *;
      if gone {
        sides := sides - {id};
      }
    }

    /** People and the drivers of other volumes, at one moment when this
        volume's driver is between two git operations. */
    method Serve(id: string)
      requires Named(State())
      modifies this
      ensures Meanwhile(id, old(State()), State())
    {
      var tip': Commit := *;
      var sides': map<string, Commit> := *;
      var record': Option<Commit> := *;
      if Ancestor(tip, tip')
         && (id in sides' ==> id in sides && sides'[id] == sides[id])
         && (record.Some? ==> record'.Some? && Ancestor(record.value, record'.value))
      {
        ghost var between: set<Commit> := *;
        tip, sides, record := tip', sides', record';
        tips := tips + between + {tip'} + sides'.Values;
        assert forall k :: k in sides' ==> sides'[k] in sides'.Values;
      }
    }
  }

  /** A volume's work tree on the node's disk, which outlives the driver. */
  class WorkTree {
    const id: string
    // The git directory is there with no commit under HEAD: git init writes
    // HEAD first, and a creation that fails after it leaves no more.
    var unborn: bool
    var present: bool
    var head: Commit
    var mark: Option<Commit>
    // The diverged key in the git directory's config.
    var key: bool
    var files: set<Edit>
    var sight: Sight
    var record: Option<Commit>
    // The remote's record, fetched beside the volume's own.
    var remoteRecord: Option<Commit>
    // A stage set the mark from a HEAD the remote had not taken.
    ghost var blind: bool

    constructor (id: string)
      ensures this.id == id && Tree() == None && !unborn
    {
      this.id := id;
      unborn, present, head, mark, key := false, false, Commit([], {}, map[]), None, false;
      files, sight, record, remoteRecord, blind := {}, Sight({}, {}), None, None, false;
    }

    ghost function Tree(): Option<Local>
      reads this
    {
      if present then Some(Local(head, mark, key, files, sight, record, blind)) else None
    }

    /** exists: git's HEAD file is there, which init writes first and not, as the
        comment beside it says, create last. */
    predicate Exists()
      reads this
    {
      present || unborn
    }

    method Create(commit: Commit) returns (err: bool)
      requires !Exists()
      modifies this
      ensures Tree() == if err then None else Some(Local(commit, None, false, Changes(commit), sight, None, false))
      ensures !err ==> !unborn && sight.missing == {}
    {
      err := *;
      if err {
        unborn := *;
      } else {
        present, head, mark, key := true, commit, None, false;
        files, record, remoteRecord, blind := Changes(commit), None, None, false;
        var ignored: set<string> := *;
        sight := Sight(ignored, {});
      }
    }

    /** rev-parse HEAD, which may fail, and does with no commit under HEAD. */
    method ReadHead() returns (c: Option<Commit>)
      ensures c == None || c == Some(head)
      ensures !present ==> c == None
    {
      var failed: bool := *;
      c := if failed || !present then None else Some(head);
    }

    /** The mark as git reads it. A failure reads as no mark. */
    method ReadMark() returns (c: Option<Commit>)
      ensures c == None || c == mark
    {
      var failed: bool := *;
      c := if failed then None else mark;
    }

    /** The diverged key as git reads it. A failure reads as no key. */
    method ReadKey() returns (on: bool)
      ensures on ==> key
    {
      var failed: bool := *;
      on := !failed && key;
    }

    /** Moves the mark to work the remote has taken. */
    method MarkPushed(commit: Option<Commit>) returns (err: bool)
      requires present
      modifies this`mark, this`blind
      ensures err ==> mark == old(mark) && blind == old(blind)
      ensures !err ==> commit.Some? && mark == commit && !blind
    {
      err := *;
      err := err || commit.None?;
      if !err {
        mark, blind := commit, false;
      }
    }

    /** Moves the mark to HEAD, whatever HEAD is. */
    method MarkHead(ghost r: Shared) returns (err: bool)
      requires present
      modifies this`mark, this`blind
      ensures err ==> mark == old(mark) && blind == old(blind)
      ensures !err ==> mark == Some(head) && blind == !Held(r, head)
    {
      err := *;
      if !err {
        mark, blind := Some(head), !Held(r, head);
      }
    }

    method WriteKey(on: bool) returns (err: bool)
      requires present
      modifies this`key
      ensures key == if err then old(key) else on
      ensures !on && !old(key) ==> err
    {
      err := *;
      // Unsetting a key the config does not carry is an error to git.
      err := err || (!on && !key);
      if !err {
        key := on;
      }
    }

    /** A hard reset asks about no edit. */
    method Reset(commit: Commit) returns (err: bool)
      requires present
      modifies this`head, this`files, this`sight
      ensures err ==> head == old(head) && files == old(files) && sight == old(sight)
      ensures !err ==> head == commit && files == ResetFiles(old(files), old(head), commit) && sight.missing == {}
      // An edit outlives it exactly when neither tree tracks its path, nor the new
      // one a path that clashes with it.
      ensures !err ==>
                forall e :: e in old(files) && e !in Changes(commit) ==>
                  (e in files
                   <==> e.path !in old(head).tree && e.path !in commit.tree
                        && forall q :: q in commit.tree ==> !Clash(e.path, q))
    {
      err := *;
      if !err {
        files := ResetFiles(files, head, commit);
        head := commit;
        // The ignore lists may be other ones now.
        var ignored: set<string> := *;
        sight := Sight(ignored, {});
      }
    }

    /** info/exclude: the class's patterns where git reads them. */
    method Exclude() returns (err: bool)
      modifies this`sight
      ensures sight.missing == old(sight).missing && (err ==> sight == old(sight))
    {
      err := *;
      if !err {
        var ignored: set<string> := *;
        sight := sight.(ignored := ignored);
      }
    }

    /** What status names. */
    method Status() returns (named: Option<set<Edit>>)
      requires present
      ensures named == None || named == Some(Pending(Tree().value))
    {
      var failed: bool := *;
      var shown := set e | e in files - Changes(head) && Shown(head, sight, e.path);
      assert shown == Pending(Tree().value);
      named := if failed then None else Some(shown);
    }

    /** A commit of what was staged, and nothing where nothing was. */
    method CommitStaged(staged: set<Edit>) returns (err: bool)
      requires present && staged <= files - Changes(head) && staged != {}
      modifies this`head
      ensures err ==> head == old(head)
      ensures !err ==> head == Commit([old(head)], staged, head.tree) && DiffersAt(old(head).tree, head.tree, staged)
    {
      err := *;
      if !err {
        // Each edit adds its path, changes what is there, or deletes it.
        var blobs: map<string, Blob> := *;
        head := Commit([head], staged, Patched(head.tree, blobs, Paths(staged)));
      }
    }

    /** The rebase in the scratch tree. It never touches the tree the pod holds.
        Making the scratch tree can fail, and the rebase can conflict. */
    method Replay(upstream: Commit) returns (made: Option<Commit>, ghost conflicts: bool)
      requires present && Chain(head, upstream)
      ensures made.Some? ==> Rebased(upstream, head, made.value) && !conflicts
    {
      var result: Commit := *;
      var failed: bool := *;
      if failed || !Rebased(upstream, head, result) {
        ghost var conflicting: bool := *;
        return None, conflicting;
      }
      return Some(result), false;
    }

    /** read-tree -m -u old new, then update-ref. The first refuses to write over an
        uncommitted edit unless it yields, and may then refuse all the same: of a
        directory of ignored files it asks by .gitignore alone. When only the second
        fails, the files have moved and HEAD has not. */
    method Take(from: Option<Commit>, to: Commit) returns (err: bool, ghost refused: bool, ghost wrote: bool)
      requires present && Changes(head) <= Changes(to)
      requires from == None || from == Some(head)
      modifies this`head, this`files, this`sight
      ensures from.None? || refused ==> err
      ensures (!err ==> wrote) && (refused ==> !wrote)
      ensures refused ==> exists e :: e in old(Dirty(Tree().value)) && Overwrites(old(head), to, e.path)
      ensures wrote ==> Allows(old(Tree().value), to) && Restored(old(head), to, old(sight), sight)
      ensures files == if wrote then Taken(old(files), old(head), to) else old(files)
      // An uncommitted edit outlives it exactly when its path is not written over.
      ensures wrote ==>
                forall e :: e in old(Dirty(Tree().value)) && e !in Changes(to) ==>
                  (e in files <==> !Overwrites(old(head), to, e.path))
      ensures !wrote ==> sight == old(sight)
      ensures head == if err then old(head) else to
    {
      wrote, refused := false, false;
      err := *;
      if err || from.None? {
        return true, false, false;
      }
      var inTheWay := set e | e in files - Changes(head) && Overwrites(head, to, e.path);
      var firm := set e | e in inTheWay && !Yields(head, sight, e.path);
      var asks: bool := *;
      if firm != {} || (asks && inTheWay != {}) {
        ghost var e :| e in inTheWay;
        return true, true, false;
      }
      assert Allows(Tree().value, to) by {
        forall e | e in Dirty(Tree().value) && Overwrites(head, to, e.path)
          ensures Yields(head, sight, e.path)
        {
          assert e in inTheWay && e !in firm;
        }
      }
      wrote := true;
      var ignored: set<string> := *;
      sight := Sight(ignored, set p | p in sight.missing && !Overwrites(head, to, p));
      files := Taken(files, head, to);
      err := *;
      if !err {
        head := to;
      }
    }

    /** Puts the volume's record on top of the remote's. A record is a snapshot
        of the whole tree, so a new parent is all it takes. A ref git cannot read
        counts as none, and then nothing moves and nothing failed. */
    method Reparent() returns (err: bool, ghost unread: bool)
      modifies this`record
      ensures record.Some? <==> old(record).Some?
      ensures !err && !unread && remoteRecord.Some? && record.Some? ==> Ancestor(remoteRecord.value, record.value)
      ensures err || unread ==> record == old(record)
      // A ref that cannot be read is no error, nor is a record that already stands.
      ensures unread ==> !err
      ensures err ==> remoteRecord.Some? && record.Some? && !Ancestor(remoteRecord.value, record.value)
      ensures record.Some? ==>
                record.value.edits == old(record).value.edits && record.value.tree == old(record).value.tree
    {
      var failed: bool := *;
      if failed {
        return false, true;
      }
      unread := false;
      if remoteRecord.None? || record.None? || Ancestor(remoteRecord.value, record.value) {
        return false, false;
      }
      err := *;
      if !err {
        record := Some(Commit([remoteRecord.value], record.value.edits, record.value.tree));
        assert remoteRecord.value in record.value.parents;
      }
    }

    /** The pod writes its files: it makes new edits and may undo its own
        uncommitted ones. */
    method PodWrites()
      requires Changes(head) <= files
      modifies this`files, this`sight
      ensures Changes(head) <= files
    {
      var made: set<Edit> := *;
      var undone: set<Edit> := *;
      files := files - (undone - Changes(head)) + made;
      sight := *;
    }

    method Remove() returns (err: bool)
      requires present
      modifies this`present
      ensures Tree() == if err then old(Tree()) else None
    {
      err := *;
      if !err {
        present := false;
      }
    }
  }
}
