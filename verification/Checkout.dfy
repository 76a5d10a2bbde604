// What git's own writes to a work tree do to the edits no commit carries: the hard
// reset, which asks about none, and the two-tree read-tree, which asks about those
// that status names and about no other.

module Checkout {
  import opened Git
  import opened Text

  /** What git sees of the files: the untracked paths an ignore list names, and the
      tracked paths with no file. */
  datatype Sight = Sight(ignored: set<string>, missing: set<string>)

  /** One path names a directory on the way to the other, so that no tree can hold
      a file at both. */
  predicate Clash(p: string, q: string)
  {
    StartsWith(p, q + "/") || StartsWith(q, p + "/")
  }

  predicate Differs(old': Commit, new': Commit, p: string)
  {
    (p in old'.tree <==> p !in new'.tree) || (p in old'.tree && old'.tree[p] != new'.tree[p])
  }

  /** A read-tree from one tree to the other writes the path, or a path in whose
      way it stands. */
  predicate Overwrites(old': Commit, new': Commit, p: string)
  {
    Differs(old', new', p) || exists q :: q in new'.tree && Differs(old', new', q) && Clash(p, q)
  }

  /** A hard reset writes every path of both trees. */
  predicate Replaces(old': Commit, new': Commit, p: string)
  {
    p in old'.tree || p in new'.tree || exists q :: q in new'.tree && Clash(p, q)
  }

  /** status names an edit at the path: any of a tracked one, and of the others
      those that no ignore list names. */
  predicate Shown(head: Commit, sight: Sight, p: string)
  {
    p in head.tree || p !in sight.ignored
  }

  /** read-tree gives up an edit at the path: an untracked file that an ignore list
      names, or a deletion. */
  predicate Yields(head: Commit, sight: Sight, p: string)
  {
    if p in head.tree then p in sight.missing else p in sight.ignored
  }

  /** The edits a read-tree leaves in the files. */
  function Taken(files: set<Edit>, old': Commit, new': Commit): (left: set<Edit>)
    ensures Changes(new') <= left
  {
    Changes(new') + set e | e in files && !Overwrites(old', new', e.path) :: e
  }

  /** The edits a hard reset leaves in the files. */
  function ResetFiles(files: set<Edit>, old': Commit, new': Commit): (left: set<Edit>)
    ensures Changes(new') <= left
  {
    Changes(new') + set e | e in files && !Replaces(old', new', e.path) :: e
  }

  /** No tracked path is missing that was not, and none that was written. */
  predicate Restored(old': Commit, new': Commit, before: Sight, after: Sight)
  {
    forall p :: p in after.missing ==> p in before.missing && !Overwrites(old', new', p)
  }
}
