// How a new commit arrives in a tree that pods already read: entry by entry,
// inside the directories the pods hold, so that no reader sees part of a file.

module Placement {

  /** A directory entry. A directory has an identity a bind mount follows, which
      a rename of another directory over its name would not keep. */
  datatype Node = File(content: string) | Dir(inode: nat, entries: map<string, Node>)

  type Entries = map<string, Node>

  /** The two hold the same names and contents. */
  predicate Same(a: Node, b: Node)
  {
    match a
    case File(_) => b == a
    case Dir(_, entries) =>
      b.Dir? && b.entries.Keys == entries.Keys
      && forall name :: name in entries ==> Same(entries[name], b.entries[name])
  }

  /** What a placement leaves: the arriving tree, with the standing tree's
      directories where both have one. */
  function Merged(standing: Node, arriving: Node): Node
  {
    if standing.Dir? && arriving.Dir? then
      Dir(standing.inode, map name | name in arriving.entries ::
            if name in standing.entries then Merged(standing.entries[name], arriving.entries[name])
            else arriving.entries[name])
    else arriving
  }

  lemma {:induction false} SameSelf(a: Node)
    ensures Same(a, a)
  {
    if a.Dir? {
      forall name | name in a.entries
        ensures Same(a.entries[name], a.entries[name])
      {
        SameSelf(a.entries[name]);
      }
    }
  }

  lemma {:induction false} MergedIsArriving(standing: Node, arriving: Node)
    ensures Same(arriving, Merged(standing, arriving))
  {
    if standing.Dir? && arriving.Dir? {
      forall name | name in arriving.entries
        ensures Same(arriving.entries[name], Merged(standing, arriving).entries[name])
      {
        if name in standing.entries {
          MergedIsArriving(standing.entries[name], arriving.entries[name]);
        } else {
          SameSelf(arriving.entries[name]);
        }
      }
    } else {
      SameSelf(arriving);
    }
  }

  /** What a pod may see during a placement, at one name: a file both trees have
      is the old one or the new one, whole, and a directory both trees have is
      there under its old identity, with the same true inside it. Only where an
      Lstat can fail, an empty directory may go for the arriving one. */
  ghost predicate Between(lax: bool, standing: Node, arriving: Node, view: Node)
    decreases standing, 1
  {
    (standing.File? && arriving.File? ==> view == standing || view == arriving)
    && (standing.Dir? && arriving.Dir? ==>
          Inside(lax, standing, arriving, view) || Swapped(lax, standing, arriving, view))
  }

  ghost predicate Inside(lax: bool, standing: Node, arriving: Node, view: Node)
    requires standing.Dir? && arriving.Dir?
    decreases standing, 0
  {
    view.Dir? && view.inode == standing.inode
    && forall name :: InBoth(standing, arriving, name) ==>
         name in view.entries && Between(lax, standing.entries[name], arriving.entries[name], view.entries[name])
  }

  /** A rename puts a directory in place of an empty one. */
  predicate Swapped(lax: bool, standing: Node, arriving: Node, view: Node)
    requires standing.Dir? && arriving.Dir?
  {
    lax && standing.entries == map[] && view == arriving
  }

  /** What a placement that ended leaves at one name. */
  ghost predicate Ended(lax: bool, standing: Node, arriving: Node, now: Node)
    decreases standing, 1
  {
    if standing.Dir? && arriving.Dir? then
      Finished(lax, standing, arriving, now) || Swapped(lax, standing, arriving, now)
    else now == arriving
  }

  ghost predicate Finished(lax: bool, standing: Node, arriving: Node, now: Node)
    requires standing.Dir? && arriving.Dir?
    decreases standing, 0
  {
    now.Dir? && now.inode == standing.inode && now.entries.Keys == arriving.entries.Keys
    && forall name :: name in arriving.entries ==> EndedAt(lax, standing, arriving, now, name)
  }

  ghost predicate EndedAt(lax: bool, standing: Node, arriving: Node, now: Node, name: string)
    requires standing.Dir? && arriving.Dir? && now.Dir? && name in arriving.entries
    decreases standing, 0, 0
  {
    name in now.entries
    && (if name in standing.entries then Ended(lax, standing.entries[name], arriving.entries[name], now.entries[name])
        else now.entries[name] == arriving.entries[name])
  }

  /** When every Lstat is answered, a placement leaves exactly the merged tree. */
  lemma {:induction false} EndedIsMerged(standing: Node, arriving: Node, now: Node)
    ensures Ended(false, standing, arriving, now) <==> now == Merged(standing, arriving)
    decreases standing
  {
    if standing.Dir? && arriving.Dir? && now.Dir? && now.entries.Keys == arriving.entries.Keys {
      var merged := Merged(standing, arriving);
      forall name | name in arriving.entries
        ensures EndedAt(false, standing, arriving, now, name) <==> now.entries[name] == merged.entries[name]
      {
        if name in standing.entries {
          EndedIsMerged(standing.entries[name], arriving.entries[name], now.entries[name]);
        }
      }
      assert now.entries == merged.entries
        <==> forall name :: name in arriving.entries ==> now.entries[name] == merged.entries[name];
    }
  }

  /** And in any case the names and contents of the arriving tree. */
  lemma {:induction false} EndedIsArriving(lax: bool, standing: Node, arriving: Node, now: Node)
    requires Ended(lax, standing, arriving, now)
    ensures Same(arriving, now)
    decreases standing
  {
    SameSelf(arriving);
    if standing.Dir? && arriving.Dir? && Finished(lax, standing, arriving, now) {
      forall name | name in arriving.entries
        ensures Same(arriving.entries[name], now.entries[name])
      {
        assert EndedAt(lax, standing, arriving, now, name);
        if name in standing.entries {
          EndedIsArriving(lax, standing.entries[name], arriving.entries[name], now.entries[name]);
        } else {
          SameSelf(arriving.entries[name]);
        }
      }
    }
  }

  /** Both directories have the name, for a file or for a directory in both. */
  ghost predicate InBoth(standing: Node, arriving: Node, name: string)
    requires standing.Dir? && arriving.Dir?
  {
    name in standing.entries && name in arriving.entries
    && standing.entries[name].File? == arriving.entries[name].File?
  }

  // ------------------------------------------------- the same, path by path

  /** The node at a path. */
  function At(node: Node, path: seq<string>): (found: seq<Node>)
    ensures |found| <= 1
    decreases |path|
  {
    if path == [] then [node]
    else if node.Dir? && path[0] in node.entries then At(node.entries[path[0]], path[1..])
    else []
  }

  /** A pod that reads any path sees a whole file, old or new, and never loses a
      directory it holds open, but an empty one of which an Lstat failed. */
  lemma {:induction false} ReadersSeeOldOrNew(lax: bool, standing: Node, arriving: Node, view: Node, path: seq<string>)
    requires Between(lax, standing, arriving, view)
    requires At(standing, path) != [] && At(arriving, path) != []
    requires At(standing, path)[0].File? == At(arriving, path)[0].File?
    ensures At(view, path) != []
    ensures At(standing, path)[0].File? ==> At(view, path)[0] in {At(standing, path)[0], At(arriving, path)[0]}
    ensures At(standing, path)[0].Dir? ==>
              At(view, path)[0].Dir?
              && (At(view, path)[0].inode == At(standing, path)[0].inode
                  || (lax && At(standing, path)[0].entries == map[] && At(view, path)[0] == At(arriving, path)[0]))
    decreases |path|
  {
    if path == [] {
      assert standing.Dir? ==> arriving.Dir?;
      assert standing.Dir? ==> Inside(lax, standing, arriving, view) || Swapped(lax, standing, arriving, view);
    } else {
      assert InBoth(standing, arriving, path[0]);
      assert Inside(lax, standing, arriving, view);
      ReadersSeeOldOrNew(lax, standing.entries[path[0]], arriving.entries[path[0]], view.entries[path[0]], path[1..]);
    }
  }

  /** A placement that stops part way and one that starts over from what it left:
      a reader still sees whole files only, and holds the directory it held when
      every Lstat is answered. */
  lemma StoppedAndPlacedAgain(lax: bool, standing: Node, first: Node, half: Node, second: Node, view: Node,
                              path: seq<string>)
    requires Between(lax, standing, first, half) && Between(lax, half, second, view)
    requires At(standing, path) != [] && At(first, path) != [] && At(second, path) != []
    requires At(standing, path)[0].File? == At(first, path)[0].File? == At(second, path)[0].File?
    ensures At(view, path) != []
    ensures At(standing, path)[0].File? ==>
              At(view, path)[0] in {At(standing, path)[0], At(first, path)[0], At(second, path)[0]}
    ensures At(standing, path)[0].Dir? ==>
              At(view, path)[0].Dir? && (!lax ==> At(view, path)[0].inode == At(standing, path)[0].inode)
  {
    ReadersSeeOldOrNew(lax, standing, first, half, path);
    ReadersSeeOldOrNew(lax, half, second, view, path);
  }

  // --------------------------------------------------------------- the calls

  lemma {:induction false} BetweenStart(lax: bool, standing: Node, arriving: Node)
    ensures Between(lax, standing, arriving, standing)
    ensures standing.Dir? && arriving.Dir? ==> Inside(lax, standing, arriving, standing)
    decreases standing
  {
    if standing.Dir? && arriving.Dir? {
      forall name | InBoth(standing, arriving, name)
        ensures Between(lax, standing.entries[name], arriving.entries[name], standing.entries[name])
      {
        BetweenStart(lax, standing.entries[name], arriving.entries[name]);
      }
    }
  }

  /** A recursive removal stopped part way: some entries are gone. */
  predicate Shrunk(part: Node, whole: Node)
  {
    part == whole
    || (part.Dir? && whole.Dir? && part.inode == whole.inode && part.entries.Keys <= whole.entries.Keys
        && forall name :: name in part.entries ==> Shrunk(part.entries[name], whole.entries[name]))
  }

  /** The tree with the node at a path replaced. */
  function Put(node: Node, path: seq<string>, new': Node): Node
    requires At(node, path) != []
    decreases |path|
  {
    if path == [] then new'
    else Dir(node.inode, node.entries[path[0] := Put(node.entries[path[0]], path[1..], new')])
  }

  lemma {:induction false} PutAt(node: Node, path: seq<string>, new': Node)
    requires At(node, path) != []
    ensures At(Put(node, path, new'), path) == [new']
    ensures Put(node, path, At(node, path)[0]) == node
    decreases |path|
  {
    if path != [] {
      PutAt(node.entries[path[0]], path[1..], new');
      assert node.entries[path[0] := node.entries[path[0]]] == node.entries;
    }
  }

  lemma {:induction false} PutPut(node: Node, path: seq<string>, first: Node, second: Node)
    requires At(node, path) != []
    ensures At(Put(node, path, first), path) != []
    ensures Put(Put(node, path, first), path, second) == Put(node, path, second)
    decreases |path|
  {
    if path != [] {
      var rest := node.entries[path[0]];
      PutPut(rest, path[1..], first, second);
      assert node.entries[path[0] := Put(rest, path[1..], first)][path[0] := Put(rest, path[1..], second)]
          == node.entries[path[0] := Put(rest, path[1..], second)];
    }
  }

  function WithEntry(dir: Node, name: string, entry: Node): Node
    requires dir.Dir?
  {
    Dir(dir.inode, dir.entries[name := entry])
  }

  function WithoutEntry(dir: Node, name: string): Node
    requires dir.Dir?
  {
    Dir(dir.inode, dir.entries - {name})
  }

  lemma {:induction false} AtBelow(node: Node, path: seq<string>, name: string)
    requires At(node, path) != [] && At(node, path)[0].Dir? && name in At(node, path)[0].entries
    ensures At(node, path + [name]) == [At(node, path)[0].entries[name]]
    decreases |path|
  {
    if path == [] {
      assert [name][1..] == [];
    } else {
      AtBelow(node.entries[path[0]], path[1..], name);
      assert (path + [name])[1..] == path[1..] + [name];
    }
  }

  lemma {:induction false} PutBelow(node: Node, path: seq<string>, name: string, new': Node)
    requires At(node, path) != [] && At(node, path)[0].Dir? && name in At(node, path)[0].entries
    ensures At(node, path + [name]) != []
    ensures Put(node, path + [name], new') == Put(node, path, WithEntry(At(node, path)[0], name, new'))
    decreases |path|
  {
    AtBelow(node, path, name);
    if path == [] {
      assert [name][1..] == [];
    } else {
      PutBelow(node.entries[path[0]], path[1..], name, new');
      assert (path + [name])[1..] == path[1..] + [name];
    }
  }

  // ------------------------------------------------------- the placement itself

  /** There is a directory at the path, and one arrives. */
  predicate Dirs(before: Node, path: seq<string>, arriving: Node)
  {
    At(before, path) != [] && At(before, path)[0].Dir? && arriving.Dir?
  }

  /** Only the directory at the path differs from before, and it is between. */
  ghost predicate InPlace(lax: bool, before: Node, path: seq<string>, arriving: Node, now: Node)
    requires Dirs(before, path, arriving)
  {
    At(now, path) != []
    && now == Put(before, path, At(now, path)[0])
    && Inside(lax, At(before, path)[0], arriving, At(now, path)[0])
  }

  /** A directory part way through its placement: the names done hold what they
      will hold, the other arriving names are as they stood, and of the rest only
      those in left may still be there. */
  ghost predicate Halfway(lax: bool, standing: Node, arriving: Node, dir: Node, done: set<string>, left: set<string>)
    requires standing.Dir? && arriving.Dir?
  {
    dir.Dir? && dir.inode == standing.inode
    && (forall name :: name in done ==> name in arriving.entries)
    && (forall name :: name in dir.entries && name !in arriving.entries ==> name in left)
    && (forall name :: name in arriving.entries ==>
          if name in done then EndedAt(lax, standing, arriving, dir, name)
          else (name in dir.entries <==> name in standing.entries)
               && (name in dir.entries ==> dir.entries[name] == standing.entries[name]))
  }

  lemma EntryArrived(lax: bool, standing: Node, arriving: Node, dir: Node, done: set<string>, name: string, entry: Node)
    requires standing.Dir? && arriving.Dir? && Halfway(lax, standing, arriving, dir, done, {})
    requires name in arriving.entries
    requires if name in standing.entries then Ended(lax, standing.entries[name], arriving.entries[name], entry)
             else entry == arriving.entries[name]
    ensures Halfway(lax, standing, arriving, WithEntry(dir, name, entry), done + {name}, {})
  {
    var dir' := WithEntry(dir, name, entry);
    forall k | k in done + {name}
      ensures k in arriving.entries && EndedAt(lax, standing, arriving, dir', k)
    {
      if k != name {
        assert EndedAt(lax, standing, arriving, dir, k);
      }
    }
  }

  lemma EntryBetween(lax: bool, standing: Node, arriving: Node, dir: Node, name: string, entry: Node)
    requires standing.Dir? && arriving.Dir? && Inside(lax, standing, arriving, dir)
    requires InBoth(standing, arriving, name) ==> Between(lax, standing.entries[name], arriving.entries[name], entry)
    ensures Inside(lax, standing, arriving, WithEntry(dir, name, entry))
  {
  }

  lemma NoEntryBetween(lax: bool, standing: Node, arriving: Node, dir: Node, name: string)
    requires standing.Dir? && arriving.Dir? && Inside(lax, standing, arriving, dir)
    requires !InBoth(standing, arriving, name)
    ensures Inside(lax, standing, arriving, WithoutEntry(dir, name))
  {
  }

  /** A change in place of an entry is a change in place of its directory. */
  lemma Lift(lax: bool, before: Node, path: seq<string>, arriving: Node, name: string, inside: Node, now: Node)
    requires Dirs(before, path, arriving) && InPlace(lax, before, path, arriving, inside)
    requires At(inside, path)[0].Dir? && name in At(inside, path)[0].entries
    requires InBoth(At(before, path)[0], arriving, name)
    requires At(inside, path)[0].entries[name] == At(before, path)[0].entries[name]
    requires Dirs(inside, path + [name], arriving.entries[name])
    requires InPlace(lax, inside, path + [name], arriving.entries[name], now)
    ensures InPlace(lax, before, path, arriving, now)
    ensures At(now, path) == [WithEntry(At(inside, path)[0], name, At(now, path + [name])[0])]
  {
    var dir, entry := At(inside, path)[0], At(now, path + [name])[0];
    var wider := WithEntry(dir, name, entry);
    AtBelow(inside, path, name);
    PutBelow(inside, path, name, entry);
    PutPut(before, path, dir, wider);
    PutAt(before, path, wider);
    EntryBetween(lax, At(before, path)[0], arriving, dir, name, entry);
  }

  /** The published tree, with every state a pod could have seen it in. */
  class Published {
    // Whether an Lstat of an entry that is there can fail.
    const lax: bool
    var root: Node
    ghost var seen: seq<Node>
    // The calls that failed.
    ghost var faults: nat

    constructor (root: Node, lax: bool)
      ensures this.root == root && this.lax == lax && seen == [root]
    {
      this.root, this.lax, seen, faults := root, lax, [root], 0;
    }

    ghost predicate Valid()
      reads this
    {
      seen != [] && seen[|seen| - 1] == root
    }

    /** The states seen since then changed only the directory at the path, and
        each of them is between. */
    ghost predicate Kept(before: Node, since: nat, path: seq<string>, arriving: Node)
      requires Dirs(before, path, arriving)
      reads this
    {
      Valid() && since <= |seen| && InPlace(lax, before, path, arriving, root)
      && forall i :: since <= i < |seen| ==> InPlace(lax, before, path, arriving, seen[i])
    }

    /** One system call on the directory at the path. */
    method Set(path: seq<string>, dir: Node, ghost before: Node, ghost since: nat, ghost arriving: Node)
      requires Dirs(before, path, arriving) && Kept(before, since, path, arriving)
      requires Inside(lax, At(before, path)[0], arriving, dir)
      modifies this
      ensures Kept(before, since, path, arriving)
      ensures At(root, path) == [dir] && seen == old(seen) + [root]
      ensures faults == old(faults)
    {
      PutAt(root, path, dir);
      PutPut(before, path, At(root, path)[0], dir);
      root := Put(root, path, dir);
      seen := seen + [root];
    }

    /** RemoveAll of one entry: it goes piece by piece, and can fail part way. */
    method RemoveAll(path: seq<string>, name: string, ghost before: Node, ghost since: nat, ghost arriving: Node)
      returns (err: bool)
      requires Dirs(before, path, arriving)
      requires Kept(before, since, path, arriving)
      requires At(root, path)[0].Dir? && name in At(root, path)[0].entries
      requires !InBoth(At(before, path)[0], arriving, name)
      modifies this
      ensures Kept(before, since, path, arriving) && old(seen) <= seen
      ensures !err ==> At(root, path) == [WithoutEntry(At(old(root), path)[0], name)]
      ensures old(faults) <= faults && (err ==> faults > old(faults))
    {
      var dir := At(root, path)[0];
      var pieces: nat := *;
      while pieces > 0
        invariant Kept(before, since, path, arriving) && old(seen) <= seen && faults == old(faults)
        invariant At(root, path)[0].Dir? && WithoutEntry(At(root, path)[0], name) == WithoutEntry(dir, name)
      {
        var part: Node := *;
        if Shrunk(part, dir.entries[name]) {
          EntryBetween(lax, At(before, path)[0], arriving, At(root, path)[0], name, part);
          Set(path, WithEntry(At(root, path)[0], name, part), before, since, arriving);
        }
        pieces := pieces - 1;
      }
      err := *;
      if err {
        faults := faults + 1;
      } else {
        NoEntryBetween(lax, At(before, path)[0], arriving, At(root, path)[0], name);
        Set(path, WithoutEntry(At(root, path)[0], name), before, since, arriving);
      }
    }

    /** Entries the arriving tree does not have go first. */
    method RemoveGone(path: seq<string>, arriving: Node, ghost before: Node, ghost since: nat) returns (err: bool)
      requires Dirs(before, path, arriving)
      requires Kept(before, since, path, arriving) && root == before
      modifies this
      ensures Kept(before, since, path, arriving) && old(seen) <= seen
      ensures !err ==> Halfway(lax, At(before, path)[0], arriving, At(root, path)[0], {}, {})
      ensures old(faults) <= faults && (err ==> faults > old(faults))
    {
      var gone := At(root, path)[0].entries.Keys - arriving.entries.Keys;
      while gone != {}
        invariant Kept(before, since, path, arriving) && old(seen) <= seen && old(faults) <= faults
        invariant gone !! arriving.entries.Keys && gone <= At(root, path)[0].entries.Keys
        invariant Halfway(lax, At(before, path)[0], arriving, At(root, path)[0], {}, gone)
        decreases gone
      {
        var name :| name in gone;
        err := RemoveAll(path, name, before, since, arriving);
        if err {
          return;
        }
        gone := gone - {name};
      }
      err := false;
    }

    /** One arriving entry: a directory both trees have is entered, and any other
        entry moves with one rename, over the old file or where nothing stands. An
        entry whose Lstat fails moves with one rename whatever it is. */
    method Arrive(path: seq<string>, arriving: Node, name: string, ghost done: set<string>, ghost before: Node,
                  ghost since: nat)
      returns (err: bool)
      requires Dirs(before, path, arriving)
      requires Kept(before, since, path, arriving)
      requires name in arriving.entries && name !in done
      requires Halfway(lax, At(before, path)[0], arriving, At(root, path)[0], done, {})
      modifies this
      ensures Kept(before, since, path, arriving) && old(seen) <= seen
      ensures !err ==> Halfway(lax, At(before, path)[0], arriving, At(root, path)[0], done + {name}, {})
      ensures old(faults) <= faults && (err ==> faults > old(faults))
      decreases arriving, 0
    {
      var dir, entry, unread := At(root, path)[0], arriving.entries[name], false;
      if lax {
        unread := *;
      }
      if unread {
        faults := faults + 1;
      } else if name in dir.entries {
        if entry.Dir? && dir.entries[name].Dir? {
          err := Enter(path, arriving, name, done, before, since);
          return;
        }
        if entry.Dir? != dir.entries[name].Dir? {
          err := RemoveAll(path, name, before, since, arriving);
          if err {
            return;
          }
        }
      }
      err := Rename(path, arriving, name, dir, done, before, since);
    }

    /** A directory that both trees have. */
    method Enter(path: seq<string>, arriving: Node, name: string, ghost done: set<string>, ghost before: Node,
                 ghost since: nat)
      returns (err: bool)
      requires Dirs(before, path, arriving)
      requires Kept(before, since, path, arriving)
      requires name in arriving.entries && name !in done && arriving.entries[name].Dir?
      requires Halfway(lax, At(before, path)[0], arriving, At(root, path)[0], done, {})
      requires name in At(root, path)[0].entries && At(root, path)[0].entries[name].Dir?
      modifies this
      ensures Kept(before, since, path, arriving) && old(seen) <= seen
      ensures !err ==> Halfway(lax, At(before, path)[0], arriving, At(root, path)[0], done + {name}, {})
      ensures old(faults) <= faults && (err ==> faults > old(faults))
      decreases arriving, 0, 0
    {
      ghost var dir, standing := At(root, path)[0], At(before, path)[0];
      AtBelow(root, path, name);
      ghost var inside, from := root, |seen|;
      err := Replace(path + [name], arriving.entries[name]);
      LiftKept(before, since, path, arriving, name, inside, from);
      if !err {
        EntryArrived(lax, standing, arriving, dir, done, name, At(root, path + [name])[0]);
      }
    }

    /** The kernel puts a file over a file and a directory over an empty one, and
        puts neither over anything else. */
    predicate Refuses(dir: Node, name: string, entry: Node)
      requires dir.Dir?
    {
      name in dir.entries
      && match dir.entries[name]
         case File(_) => entry.Dir?
         case Dir(_, entries) => entry.File? || entries.Keys != {}
    }

    /** One rename. was is the directory before an entry of the other kind went. */
    method Rename(path: seq<string>, arriving: Node, name: string, ghost was: Node,
                  ghost done: set<string>, ghost before: Node, ghost since: nat)
      returns (err: bool)
      requires Dirs(before, path, arriving)
      requires Kept(before, since, path, arriving)
      requires name in arriving.entries && name !in done
      requires Halfway(lax, At(before, path)[0], arriving, was, done, {})
      requires At(root, path)[0] in {was, WithoutEntry(was, name)}
      requires At(root, path)[0] == was && name in was.entries ==>
                 lax || (arriving.entries[name].File? && was.entries[name].File?)
      requires At(root, path)[0] != was ==> arriving.entries[name].Dir? != was.entries[name].Dir?
      modifies this
      ensures Kept(before, since, path, arriving) && old(seen) <= seen
      ensures !err ==> Halfway(lax, At(before, path)[0], arriving, At(root, path)[0], done + {name}, {})
      // The kernel takes a name where nothing stands, and a file over a file.
      ensures old(faults) <= faults
      ensures err && faults == old(faults) ==>
                name in old(At(root, path)[0].entries)
                && (arriving.entries[name].Dir? || old(At(root, path)[0].entries[name]).Dir?)
    {
      ghost var standing := At(before, path)[0];
      var entry := arriving.entries[name];
      err := *;
      if err {
        faults := faults + 1;
        return;
      }
      err := Refuses(At(root, path)[0], name, entry);
      if err {
        return;
      }
      EntryBetween(lax, standing, arriving, At(root, path)[0], name, entry);
      assert WithEntry(At(root, path)[0], name, entry) == WithEntry(was, name, entry);
      EntryArrived(lax, standing, arriving, was, done, name, entry);
      Set(path, WithEntry(At(root, path)[0], name, entry), before, since, arriving);
    }

    /** What an inner placement keeps of its directory is kept of the outer one. */
    lemma LiftKept(before: Node, since: nat, path: seq<string>, arriving: Node, name: string, inside: Node, from: nat)
      requires Dirs(before, path, arriving)
      requires since <= from <= |seen| && InPlace(lax, before, path, arriving, inside)
      requires forall i :: since <= i < from ==> InPlace(lax, before, path, arriving, seen[i])
      requires At(inside, path)[0].Dir? && name in At(inside, path)[0].entries
      requires InBoth(At(before, path)[0], arriving, name)
      requires At(inside, path)[0].entries[name] == At(before, path)[0].entries[name]
      requires Dirs(inside, path + [name], arriving.entries[name])
      requires Kept(inside, from, path + [name], arriving.entries[name])
      ensures Kept(before, since, path, arriving)
      ensures At(root, path + [name]) != []
      ensures At(root, path) == [WithEntry(At(inside, path)[0], name, At(root, path + [name])[0])]
    {
      Lift(lax, before, path, arriving, name, inside, root);
      forall i | from <= i < |seen|
        ensures InPlace(lax, before, path, arriving, seen[i])
      {
        Lift(lax, before, path, arriving, name, inside, seen[i]);
      }
    }

    /** replaceTree: makes the directory at the path hold exactly what arriving
        holds, and stops at the first call that fails. */
    method Replace(path: seq<string>, arriving: Node) returns (err: bool)
      requires Valid() && Dirs(root, path, arriving)
      modifies this
      ensures old(seen) <= seen && Kept(old(root), |old(seen)|, path, arriving)
      ensures !err ==> Finished(lax, At(old(root), path)[0], arriving, At(root, path)[0])
      ensures !err ==> Same(arriving, At(root, path)[0])
      ensures !err && !lax ==> root == Put(old(root), path, Merged(At(old(root), path)[0], arriving))
      ensures old(faults) <= faults && (err ==> faults > old(faults))
      decreases arriving
    {
      ghost var before, since := root, |seen|;
      PutAt(root, path, root);
      BetweenStart(lax, At(root, path)[0], arriving);
      err := *;
      if err {
        faults := faults + 1;
        return;
      }
      err := RemoveGone(path, arriving, before, since);
      if err {
        return;
      }
      var names := arriving.entries.Keys;
      while names != {}
        invariant old(faults) <= faults
        invariant Kept(before, since, path, arriving) && old(seen) <= seen && names <= arriving.entries.Keys
        invariant Halfway(lax, At(before, path)[0], arriving, At(root, path)[0], arriving.entries.Keys - names, {})
        decreases names
      {
        var name :| name in names;
        err := Arrive(path, arriving, name, arriving.entries.Keys - names, before, since);
        if err {
          return;
        }
        names := names - {name};
        assert arriving.entries.Keys - names == arriving.entries.Keys - (names + {name}) + {name};
      }
      EndedIsArriving(lax, At(before, path)[0], arriving, At(root, path)[0]);
      EndedIsMerged(At(before, path)[0], arriving, At(root, path)[0]);
    }
  }
}
