// The write-back protocol as steps over values: what one volume's driver may
// do to the remote and to its own work tree, what everyone else may do
// meanwhile, and what every run of those steps keeps.

module Protocol {
  import opened Wrappers
  import opened Git
  import opened Checkout

  /** The remote as every node sees it: the followed ref, the side branches by
      volume, the metadata ref, and every commit any of its branches ever named. */
  datatype Shared = Shared(
    tip: Commit,
    sides: map<string, Commit>,
    record: Option<Commit>,
    tips: set<Commit>)

  /** One volume's work tree: HEAD, the pushed mark, the diverged key, the edits
      the files hold and what git sees of them, and the volume's own metadata
      record. The mark is blind when a stage set it from a HEAD the remote had not
      taken. */
  datatype Local = Local(
    head: Commit,
    mark: Option<Commit>,
    key: bool,
    files: set<Edit>,
    sight: Sight,
    record: Option<Commit>,
    blind: bool)

  /** The uncommitted edits. */
  function Dirty(t: Local): set<Edit>
  {
    t.files - Changes(t.head)
  }

  /** Those that status names. */
  function Pending(t: Local): set<Edit>
  {
    set e | e in Dirty(t) && Shown(t.head, t.sight, e.path)
  }

  /** read-tree refuses unless every edit it would write over yields. */
  predicate Allows(t: Local, to: Commit)
  {
    forall e :: e in Dirty(t) && Overwrites(t.head, to, e.path) ==> Yields(t.head, t.sight, e.path)
  }

  /** The remote, one volume's tree, and whether its driver remembers that it has
      diverged, which is all a driver action touches. */
  datatype Snap = Snap(shared: Shared, local: Option<Local>, diverged: bool)

  /** The remote held the commit on some branch at some time. */
  predicate Held(shared: Shared, c: Commit)
  {
    exists t :: t in shared.tips && Ancestor(c, t)
  }

  predicate Named(shared: Shared)
  {
    shared.tip in shared.tips && forall k :: k in shared.sides ==> shared.sides[k] in shared.tips
  }

  /** HEAD has left the commit for good: HEAD stands on a commit of the ref that
      this one does not stand on. */
  predicate Behind(shared: Shared, head: Commit, c: Commit)
  {
    exists u :: u in shared.tips && Ancestor(u, shared.tip) && Ancestor(u, head) && !Ancestor(u, c)
  }

  /** The remote held every edit of the commit on one branch at some time. */
  predicate EditsHeld(shared: Shared, c: Commit)
  {
    exists t :: t in shared.tips && Changes(c) <= Changes(t)
  }

  /** The pushed mark names work the remote took, and names it by a commit the
      remote held or by one HEAD has left for good. */
  predicate Settled(shared: Shared, head: Commit, mark: Commit)
  {
    EditsHeld(shared, mark) && (Held(shared, mark) || Behind(shared, head, mark))
  }

  /** The ref has taken what the mark names, and HEAD stands on it. */
  predicate Rejoined(r: Shared, t: Local)
  {
    t.mark.Some?
    && exists u :: u in r.tips && Ancestor(u, r.tip) && Ancestor(u, t.head) && Ancestor(t.mark.value, u)
  }

  /** HEAD has commits since the mark, and the remote never held it. */
  predicate Unsent(r: Shared, t: Local)
  {
    t.mark.Some? && !Ancestor(t.head, t.mark.value) && !Held(r, t.head)
  }

  // ---------------------------------------------------------------- the steps

  datatype Action =
    | Commits(edits: set<Edit>, tree: map<string, Blob>)
    | LandsOnRef
    | LandsOnSide
    | LandsRecord
    | Marks(mark: Commit)
    | MarksHead
    | Takes(to: Commit, sight: Sight)
    | Spills(to: Commit, sight: Sight)
    | Resets(to: Commit, sight: Sight)
    | Excludes(ignored: set<string>)
    | Keys(on: bool)
    | Parts
    | Rejoins
    | Forgets
    | DeletesSide
    | Records(record: Option<Commit>)
    | Creates(at: Commit, sight: Sight)
    | Sweeps

  /** One atomic operation of the volume's own driver. */
  predicate Step(id: string, a: Action, s: Snap, s': Snap)
  {
    match a
    case Creates(at, sight) =>
      s.local.None? && Ancestor(at, s.shared.tip)
      && s' == s.(local := Some(Local(at, None, false, Changes(at), sight, None, false)))
    // A restart, or a stage, which makes a new volume object.
    case Forgets => s' == s.(diverged := false)
    case _ => s.local.Some? && OnTree(id, a, s.shared, s.local.value, s.diverged, s')
  }

  predicate OnTree(id: string, a: Action, r: Shared, t: Local, diverged: bool, s': Snap)
  {
    match a
    case Commits(edits, tree) =>
      edits != {} && edits <= t.files - Changes(t.head) && DiffersAt(t.head.tree, tree, edits)
      && s' == Snap(r, Some(t.(head := Commit([t.head], edits, tree))), diverged)
    // A volume pushes to the ref until it has diverged, and to its side branch
    // from then on.
    case LandsOnRef =>
      !diverged && Ancestor(r.tip, t.head)
      && s' == Snap(r.(tip := t.head, tips := r.tips + {t.head}), Some(t), diverged)
    case LandsOnSide =>
      diverged && (id in r.sides ==> Ancestor(r.sides[id], t.head))
      && s' == Snap(r.(sides := r.sides[id := t.head], tips := r.tips + {t.head}), Some(t), diverged)
    case LandsRecord =>
      t.record.Some? && (r.record.Some? ==> Ancestor(r.record.value, t.record.value))
      && s' == Snap(r.(record := t.record), Some(t), diverged)
    case Marks(mark) =>
      Settled(r, t.head, mark)
      && s' == Snap(r, Some(t.(mark := Some(mark), blind := false)), diverged)
    // A stage that reads no mark marks HEAD, whatever it is.
    case MarksHead =>
      s' == Snap(r, Some(t.(mark := Some(t.head), blind := !Held(r, t.head))), diverged)
    // read-tree and update-ref move the tree, or update-ref fails after it.
    case Takes(to, sight) =>
      MayMove(r, t, to) && Allows(t, to) && Restored(t.head, to, t.sight, sight)
      && s' == Snap(r, Some(t.(head := to, files := Taken(t.files, t.head, to), sight := sight)), diverged)
    case Spills(to, sight) =>
      Changes(t.head) <= Changes(to) && Allows(t, to) && Restored(t.head, to, t.sight, sight)
      && s' == Snap(r, Some(t.(files := Taken(t.files, t.head, to), sight := sight)), diverged)
    case Resets(to, sight) =>
      MayMove(r, t, to)
      && s' == Snap(r, Some(t.(head := to, files := ResetFiles(t.files, t.head, to), sight := sight)), diverged)
    // The class's patterns go where git reads them.
    case Excludes(ignored) => s' == Snap(r, Some(t.(sight := t.sight.(ignored := ignored))), diverged)
    case Keys(on) => s' == Snap(r, Some(t.(key := on)), diverged)
    case Parts => s' == Snap(r, Some(t), true)
    case Rejoins => !t.key && s' == Snap(r, Some(t), false)
    // A side branch is deleted by the end of a divergence alone: under a pod the
    // driver remembers it, and at a stage the key names it.
    case DeletesSide =>
      (diverged || t.key) && Rejoined(r, t)
      && s' == Snap(r.(sides := r.sides - {id}), Some(t), diverged)
    case Records(record) => s' == Snap(r, Some(t.(record := record)), diverged)
    // The sweep asks for the key too, but a key it cannot read counts as none.
    case Sweeps => t.mark == Some(t.head) && s' == Snap(r, None, diverged)
    case _ => false
  }

  /** HEAD may move to a commit that leaves nothing behind and stands in one line
      above the ref. */
  predicate MayMove(r: Shared, t: Local, to: Commit)
  {
    (t.mark.Some? && !t.blind ==> Settled(r, to, t.mark.value))
    && Chain(to, r.tip) && Changes(t.head) <= Changes(to)
  }

  /** What the rest of the world may do to the remote while this volume's driver
      is between two git operations: people and other volumes move the ref and
      the metadata ref forward, and a person may delete the side branch. */
  predicate Meanwhile(id: string, r: Shared, r': Shared)
  {
    Ancestor(r.tip, r'.tip)
    && (id in r'.sides ==> id in r.sides && r'.sides[id] == r.sides[id])
    && (r.record.Some? ==> r'.record.Some? && Ancestor(r.record.value, r'.record.value))
    && r.tips <= r'.tips && Named(r')
  }

  /** The same, with the pod's writes to its own tree. The pod writes files and
      has no git directory, so nothing a commit carries leaves the files. */
  predicate Elsewhere(id: string, s: Snap, s': Snap)
  {
    Meanwhile(id, s.shared, s'.shared) && s'.diverged == s.diverged
    && (s.local.None? ==> s'.local.None?)
    && (s.local.Some? ==>
          s'.local.Some? && Changes(s.local.value.head) <= s'.local.value.files
          && s'.local.value == s.local.value.(files := s'.local.value.files, sight := s'.local.value.sight))
  }

  ghost predicate Follows(id: string, s: Snap, s': Snap)
  {
    Elsewhere(id, s, s') || exists a :: Step(id, a, s, s')
  }

  /** One volume's history: its driver's git operations in their order, with
      anything the rest of the world does between any two of them. */
  ghost predicate IsRun(id: string, run: seq<Snap>)
  {
    run != [] && forall i {:trigger Linked(id, run, i)} :: 0 < i < |run| ==> Linked(id, run, i)
  }

  ghost predicate Linked(id: string, run: seq<Snap>, i: int)
    requires 0 < i < |run|
  {
    Follows(id, run[i - 1], run[i])
  }

  /** The same history as a driver keeps it, newest last. */
  datatype History = Start(now: Snap) | Then(before: History, act: Option<Action>, now: Snap)

  /** It begins in a sound state, and each step is the driver's own, as named, or
      happened elsewhere. */
  predicate IsHistory(id: string, h: History)
  {
    match h
    case Start(now) => Sound(now)
    case Then(before, Some(a), now) => IsHistory(id, before) && Step(id, a, before.now, now)
    case Then(before, None, now) => IsHistory(id, before) && Elsewhere(id, before.now, now)
  }

  /** The history went on from one moment to a later one, and the tree stood all
      the while. */
  predicate Extends(h: History, earlier: History)
  {
    h.now.local.Some? && (h == earlier || (h.Then? && Extends(h.before, earlier)))
  }

  function Run(h: History): (run: seq<Snap>)
    ensures run != [] && run[|run| - 1] == h.now
  {
    match h
    case Start(now) => [now]
    case Then(before, _, now) => Run(before) + [now]
  }

  lemma {:induction false} HistoryIsRun(id: string, h: History)
    requires IsHistory(id, h)
    ensures IsRun(id, Run(h))
  {
    if h.Then? {
      HistoryIsRun(id, h.before);
      forall i | 0 < i < |Run(h)|
        ensures Linked(id, Run(h), i)
      {
        if i < |Run(h)| - 1 {
          assert Linked(id, Run(h.before), i);
        } else {
          assert Follows(id, h.before.now, h.now);
        }
      }
    }
  }

  /** From one moment to a later one the driver reset nothing and committed nothing:
      of its own steps only a read-tree changed the files. When no pod holds the
      tree, nothing else changed them either. */
  predicate Careful(h: History, earlier: History, pod: bool)
  {
    h == earlier
    || (h.Then? && Careful(h.before, earlier, pod) && h.before.now.local.Some? && h.now.local.Some?
        && (Reads(h.act) || (pod && h.act.None?) || Undisturbed(h.before.now.local.value, h.now.local.value)))
  }

  predicate Reads(act: Option<Action>)
  {
    act.Some? && (act.value.Takes? || act.value.Spills?)
  }

  predicate Undisturbed(t: Local, t': Local)
  {
    t'.head == t.head && t'.files == t.files && t'.sight == t.sight
  }

  lemma {:induction false} ExtendsTransitive(h: History, middle: History, earlier: History)
    requires Extends(h, middle) && Extends(middle, earlier)
    ensures Extends(h, earlier)
    ensures forall pod :: Careful(h, middle, pod) && Careful(middle, earlier, pod) ==> Careful(h, earlier, pod)
  {
    if h != middle {
      ExtendsTransitive(h.before, middle, earlier);
    }
  }

  lemma {:induction false} ExtendsRun(h: History, earlier: History)
    requires Extends(h, earlier)
    ensures Run(earlier) <= Run(h)
    ensures Stands(Run(h), |Run(earlier)| - 1, |Run(h)| - 1)
  {
    if h != earlier {
      ExtendsRun(h.before, earlier);
    }
  }

  /** What the remote and the tree keep between two moments of a history. */
  lemma HistoryKeeps(id: string, h: History, earlier: History)
    requires IsHistory(id, h) && Extends(h, earlier) && earlier.now.local.Some?
    ensures Ancestor(earlier.now.shared.tip, h.now.shared.tip)
    ensures earlier.now.shared.tips <= h.now.shared.tips
    ensures Changes(earlier.now.local.value.head) <= Changes(h.now.local.value.head)
  {
    HistoryIsRun(id, h);
    ExtendsRun(h, earlier);
    var i, j := |Run(earlier)| - 1, |Run(h)| - 1;
    assert Run(h)[i] == Run(earlier)[i];
    RefMovesForward(id, Run(h), i, j);
    CommittedWorkStays(id, Run(h), i, j);
  }

  // ------------------------------------------------------------ the invariant

  /** What is true of the remote and one volume's tree after every step. */
  predicate Sound(s: Snap)
  {
    Named(s.shared) && (s.local.Some? ==> TreeSound(s.shared, s.local.value))
  }

  predicate TreeSound(r: Shared, t: Local)
  {
    Chain(t.head, r.tip)
    && Changes(t.head) <= t.files
    && (t.mark.Some? && !t.blind ==> Settled(r, t.head, t.mark.value))
  }

  lemma HeldStays(r: Shared, r': Shared, c: Commit)
    requires Held(r, c) && r.tips <= r'.tips
    ensures Held(r', c)
  {
    var t :| t in r.tips && Ancestor(c, t);
    assert t in r'.tips;
  }

  lemma HeldBelow(r: Shared, c: Commit, x: Commit)
    requires Held(r, c) && Ancestor(x, c)
    ensures Held(r, x)
  {
    var t :| t in r.tips && Ancestor(c, t);
    AncestorTransitive(x, c, t);
  }

  lemma HeldHoldsEdits(r: Shared, c: Commit)
    requires Held(r, c)
    ensures EditsHeld(r, c)
  {
    var t :| t in r.tips && Ancestor(c, t);
    ChangesGrow(c, t);
  }

  lemma SettledStays(r: Shared, r': Shared, head: Commit, head': Commit, mark: Commit)
    requires Settled(r, head, mark)
    requires r.tips <= r'.tips && Ancestor(r.tip, r'.tip) && Ancestor(head, head')
    ensures Settled(r', head', mark)
  {
    var held :| held in r.tips && Changes(mark) <= Changes(held);
    assert held in r'.tips;
    if Held(r, mark) {
      HeldStays(r, r', mark);
    } else {
      BehindStays(r, r', head, head', mark);
    }
  }

  lemma BehindStays(r: Shared, r': Shared, head: Commit, head': Commit, c: Commit)
    requires Behind(r, head, c)
    requires r.tips <= r'.tips && Ancestor(r.tip, r'.tip) && Ancestor(head, head')
    ensures Behind(r', head', c)
  {
    var u :| u in r.tips && Ancestor(u, r.tip) && Ancestor(u, head) && !Ancestor(u, c);
    AncestorTransitive(u, r.tip, r'.tip);
    AncestorTransitive(u, head, head');
  }

  lemma {:induction false} TreeSoundStays(r: Shared, r': Shared, t: Local)
    requires TreeSound(r, t) && Ancestor(r.tip, r'.tip) && r.tips <= r'.tips
    ensures TreeSound(r', t)
  {
    ChainAbove(t.head, r.tip, r'.tip);
    if t.mark.Some? && !t.blind {
      SettledStays(r, r', t.head, t.head, t.mark.value);
    }
  }

  lemma {:induction false} StepKeepsSound(id: string, a: Action, s: Snap, s': Snap)
    requires Sound(s) && Step(id, a, s, s')
    ensures Sound(s')
  {
    match a
    case Creates(at, sight) =>
    case Commits(edits, tree) =>
      var t := s.local.value;
      ChainOnHead(t.head, s.shared.tip, edits, tree);
      if t.mark.Some? && !t.blind {
        SettledStays(s.shared, s.shared, t.head, s'.local.value.head, t.mark.value);
      }
    case MarksHead =>
      if Held(s.shared, s.local.value.head) {
        HeldHoldsEdits(s.shared, s.local.value.head);
      }
    case LandsOnRef => TreeSoundStays(s.shared, s'.shared, s.local.value);
    case LandsOnSide => TreeSoundStays(s.shared, s'.shared, s.local.value);
    case LandsRecord => TreeSoundStays(s.shared, s'.shared, s.local.value);
    case DeletesSide => TreeSoundStays(s.shared, s'.shared, s.local.value);
    case _ =>
  }

  lemma {:induction false} ElsewhereKeepsSound(id: string, s: Snap, s': Snap)
    requires Sound(s) && Elsewhere(id, s, s')
    ensures Sound(s')
  {
    if s.local.Some? {
      TreeSoundStays(s.shared, s'.shared, s.local.value);
    }
  }

  lemma {:induction false} HistoryKeepsSound(id: string, h: History)
    requires IsHistory(id, h)
    ensures Sound(h.now)
  {
    match h
    case Start(now) =>
    case Then(before, Some(a), now) =>
      HistoryKeepsSound(id, before);
      StepKeepsSound(id, a, before.now, now);
    case Then(before, None, now) =>
      HistoryKeepsSound(id, before);
      ElsewhereKeepsSound(id, before.now, now);
  }

  /** Every state of every run is sound. */
  lemma {:induction false} RunKeepsSound(id: string, run: seq<Snap>, i: nat)
    requires IsRun(id, run) && Sound(run[0]) && i < |run|
    ensures Sound(run[i])
  {
    if i > 0 {
      RunKeepsSound(id, run, i - 1);
      assert Linked(id, run, i);
      if Elsewhere(id, run[i - 1], run[i]) {
        ElsewhereKeepsSound(id, run[i - 1], run[i]);
      } else {
        var a :| Step(id, a, run[i - 1], run[i]);
        StepKeepsSound(id, a, run[i - 1], run[i]);
      }
    }
  }

  // ------------------------------------------------- no committed work is lost

  /** The tree is there from i to j: no sweep between them. */
  predicate Stands(run: seq<Snap>, i: nat, j: nat)
  {
    j < |run| && forall k :: i <= k <= j ==> run[k].local.Some?
  }

  lemma FollowKeepsWork(id: string, s: Snap, s': Snap)
    requires Follows(id, s, s') && s.local.Some? && s'.local.Some?
    ensures Changes(s.local.value.head) <= Changes(s'.local.value.head)
  {
    if !Elsewhere(id, s, s') {
      var a :| Step(id, a, s, s');
      if a.Commits? {
        assert s.local.value.head in s'.local.value.head.parents;
      }
    }
  }

  /** Everything the tree's history carried at one moment is still in its
      history at every later one: through commits, fast-forwards, rebases,
      heals, and divergence, until the sweep takes the tree. */
  lemma {:induction false} CommittedWorkStays(id: string, run: seq<Snap>, i: nat, j: nat)
    requires IsRun(id, run) && i <= j && Stands(run, i, j)
    ensures Changes(run[i].local.value.head) <= Changes(run[j].local.value.head)
    decreases j
  {
    if i < j {
      CommittedWorkStays(id, run, i, j - 1);
      assert Linked(id, run, j);
      FollowKeepsWork(id, run[j - 1], run[j]);
    }
  }

  /** Nobody's step takes the followed ref back, and no branch's history leaves
      the record of what the remote held. */
  lemma {:induction false} RefMovesForward(id: string, run: seq<Snap>, i: nat, j: nat)
    requires IsRun(id, run) && i <= j < |run|
    ensures Ancestor(run[i].shared.tip, run[j].shared.tip)
    ensures run[i].shared.tips <= run[j].shared.tips
    decreases j
  {
    if i < j {
      RefMovesForward(id, run, i, j - 1);
      assert Linked(id, run, j);
      if !Elsewhere(id, run[j - 1], run[j]) {
        var a :| Step(id, a, run[j - 1], run[j]);
      }
      AncestorTransitive(run[i].shared.tip, run[j - 1].shared.tip, run[j].shared.tip);
    }
  }

  // -------------------------------------------------------- uncommitted edits

  /** The last step was a read-tree that wrote over the path. */
  predicate WroteOver(h: History, p: string)
  {
    h.Then? && Reads(h.act) && h.before.now.local.Some?
    && Overwrites(h.before.now.local.value.head, h.act.value.to, p)
  }

  predicate Overwrote(h: History, earlier: History, p: string)
  {
    h != earlier && h.Then? && (Overwrote(h.before, earlier, p) || WroteOver(h, p))
  }

  /** The edits of every commit a read-tree brought to the files since then. */
  function Brought(h: History, earlier: History): set<Edit>
  {
    if h == earlier || h.Start? then {}
    else Brought(h.before, earlier) + if Reads(h.act) then Changes(h.act.value.to) else {}
  }

  /** An uncommitted edit outlives a careful stretch without a pod if and only if no
      read-tree in it wrote over the edit's path. */
  lemma {:induction false} OutlivesExactly(id: string, h: History, earlier: History, e: Edit)
    requires IsHistory(id, h) && Careful(h, earlier, false) && h.now.local.Some? && earlier.now.local.Some?
    requires e in earlier.now.local.value.files && e !in Brought(h, earlier)
    ensures e in h.now.local.value.files <==> !Overwrote(h, earlier, e.path)
  {
    if h != earlier {
      OutlivesExactly(id, h.before, earlier, e);
    }
  }

  /** The last step took the edit out of the files. */
  predicate Left(h: History, e: Edit)
  {
    h.Then? && h.before.now.local.Some? && h.now.local.Some?
    && e in h.before.now.local.value.files && e !in h.now.local.value.files
  }

  predicate GivesWay(t: Local, e: Edit)
  {
    e in Dirty(t) && Yields(t.head, t.sight, e.path)
  }

  /** The edit left at some read-tree since then: it was uncommitted and in its way,
      and its path yields. */
  predicate GaveWay(h: History, earlier: History, e: Edit)
  {
    h != earlier && h.Then?
    && (GaveWay(h.before, earlier, e)
        || (Left(h, e) && WroteOver(h, e.path) && GivesWay(h.before.now.local.value, e)))
  }

  /** It left at some step since then that was not the driver's: it was uncommitted,
      and the pod took it back. */
  predicate TakenBack(h: History, earlier: History, e: Edit)
  {
    h != earlier && h.Then?
    && (TakenBack(h.before, earlier, e) || (Left(h, e) && h.act.None? && e in Dirty(h.before.now.local.value)))
  }

  /** It came back at some step since then. */
  predicate Returned(h: History, earlier: History, e: Edit)
  {
    h != earlier && h.Then?
    && (Returned(h.before, earlier, e)
        || (h.before.now.local.Some? && h.now.local.Some?
            && e !in h.before.now.local.value.files && e in h.now.local.value.files))
  }

  /** The last step of a careful stretch takes an edit out in one of two ways. */
  lemma LeftSomehow(id: string, h: History, earlier: History, pod: bool, e: Edit)
    requires IsHistory(id, h) && Careful(h, earlier, pod) && h != earlier && Left(h, e)
    ensures GaveWay(h, earlier, e) || (pod && TakenBack(h, earlier, e))
  {
  }

  /** Whoever holds the tree, an edit that is gone after a careful stretch gave way
      at one of its read-trees, or the pod took it back. */
  lemma {:induction false} LostGaveWay(id: string, h: History, earlier: History, pod: bool, e: Edit)
    requires IsHistory(id, h) && Careful(h, earlier, pod) && h.now.local.Some? && earlier.now.local.Some?
    requires e in earlier.now.local.value.files && e !in h.now.local.value.files
    ensures GaveWay(h, earlier, e) || (pod && TakenBack(h, earlier, e))
  {
    if e in h.before.now.local.value.files {
      LeftSomehow(id, h, earlier, pod, e);
    } else {
      LostGaveWay(id, h.before, earlier, pod, e);
    }
  }

  lemma {:induction false} GoneStaysGone(h: History, earlier: History, e: Edit)
    requires Extends(h, earlier) && !Returned(h, earlier, e)
    requires GaveWay(h, earlier, e) || TakenBack(h, earlier, e)
    ensures e !in h.now.local.value.files
  {
    if GaveWay(h.before, earlier, e) || TakenBack(h.before, earlier, e) {
      GoneStaysGone(h.before, earlier, e);
    }
  }

  /** So an edit that did not come back is there after it if and only if it never
      left in either way. */
  lemma {:induction false} StaysExactly(id: string, h: History, earlier: History, pod: bool, e: Edit)
    requires IsHistory(id, h) && Extends(h, earlier) && Careful(h, earlier, pod) && earlier.now.local.Some?
    requires e in earlier.now.local.value.files && !Returned(h, earlier, e)
    ensures e in h.now.local.value.files <==> !GaveWay(h, earlier, e) && !TakenBack(h, earlier, e)
  {
    if e !in h.now.local.value.files {
      LostGaveWay(id, h, earlier, pod, e);
    } else if GaveWay(h, earlier, e) || TakenBack(h, earlier, e) {
      GoneStaysGone(h, earlier, e);
    }
  }

  /** The edit is in the files and stays there: HEAD carries it, or its path is
      tracked and has its file. */
  predicate Firm(t: Local, e: Edit)
  {
    e in t.files && (e in Changes(t.head) || (e.path in t.head.tree && e.path !in t.sight.missing))
  }

  lemma ReadKeepsFirm(t: Local, to: Commit, t': Local, e: Edit)
    requires Firm(t, e) && Changes(t.head) <= Changes(to) && Allows(t, to) && Restored(t.head, to, t.sight, t'.sight)
    requires t'.files == Taken(t.files, t.head, to) && (t'.head == to || t'.head == t.head)
    ensures Firm(t', e)
  {
    if e !in Changes(t.head) {
      if e in Changes(to) {
        assert e in t'.files;
      } else {
        assert e in Dirty(t) && !Overwrites(t.head, to, e.path);
      }
    }
  }

  /** At some step since then that was not the driver's, an edit that was firm ceased
      to be: the pod took it back, or deleted the file. */
  predicate Loosened(h: History, earlier: History, e: Edit)
  {
    h != earlier && h.Then?
    && (Loosened(h.before, earlier, e)
        || (h.act.None? && h.before.now.local.Some? && h.now.local.Some?
            && Firm(h.before.now.local.value, e) && !Firm(h.now.local.value, e)))
  }

  /** A firm edit is firm after every careful stretch, unless the pod loosened it:
      read-tree never asks for less. */
  lemma {:induction false} PresentOutlives(id: string, h: History, earlier: History, pod: bool, e: Edit)
    requires IsHistory(id, h) && Careful(h, earlier, pod) && h.now.local.Some? && earlier.now.local.Some?
    requires Firm(earlier.now.local.value, e)
    ensures Firm(h.now.local.value, e) || (pod && Loosened(h, earlier, e))
  {
    if h != earlier {
      PresentOutlives(id, h.before, earlier, pod, e);
      if Reads(h.act) && Firm(h.before.now.local.value, e) {
        ReadKeepsFirm(h.before.now.local.value, h.act.value.to, h.now.local.value, e);
      }
    }
  }

  /** How the driver's own step can take an edit no commit carries out of the files:
      a read-tree writes over a path that yields, or a hard reset writes the path. */
  predicate Ousts(a: Action, t: Local, e: Edit)
  {
    match a
    case Takes(to, _) => Overwrites(t.head, to, e.path) && Yields(t.head, t.sight, e.path)
    case Spills(to, _) => Overwrites(t.head, to, e.path) && Yields(t.head, t.sight, e.path)
    case Resets(to, _) => Replaces(t.head, to, e.path)
    case _ => false
  }

  /** The step takes the edit out of the files, as one no commit carries: the pod
      takes it back, or the driver ousts it. */
  ghost predicate Loses(id: string, s: Snap, s': Snap, e: Edit)
  {
    s.local.Some? && s'.local.Some? && e in Dirty(s.local.value) && e !in s'.local.value.files
    && (Elsewhere(id, s, s') || exists a :: Step(id, a, s, s') && Ousts(a, s.local.value, e))
  }

  lemma StepKeepsEdit(id: string, a: Action, s: Snap, s': Snap, e: Edit)
    requires Sound(s) && s.local.Some? && s'.local.Some? && Step(id, a, s, s') && e in s.local.value.files
    ensures e in s'.local.value.files || (e in Dirty(s.local.value) && Ousts(a, s.local.value, e))
  {
    match a
    case Takes(to, sight) =>
    case Spills(to, sight) =>
    case Resets(to, sight) =>
    case _ => assert s'.local.value.files == s.local.value.files;
  }

  lemma FollowKeepsEdit(id: string, s: Snap, s': Snap, e: Edit)
    requires Sound(s) && Follows(id, s, s') && s.local.Some? && s'.local.Some? && e in s.local.value.files
    ensures e in s'.local.value.files || Loses(id, s, s', e)
  {
    if !Elsewhere(id, s, s') {
      var a :| Step(id, a, s, s');
      StepKeepsEdit(id, a, s, s', e);
    }
  }

  /** Over every run, an edit in the files is there until a step of one of those
      kinds takes it away. */
  lemma {:induction false} EditStaysUntilLost(id: string, run: seq<Snap>, i: nat, j: nat, e: Edit)
    requires IsRun(id, run) && Sound(run[0]) && i <= j && Stands(run, i, j) && e in run[i].local.value.files
    ensures e in run[j].local.value.files || exists k :: i <= k < j && Loses(id, run[k], run[k + 1], e)
    decreases j
  {
    if i < j {
      EditStaysUntilLost(id, run, i, j - 1, e);
      if e in run[j - 1].local.value.files {
        RunKeepsSound(id, run, j - 1);
        assert Linked(id, run, j);
        FollowKeepsEdit(id, run[j - 1], run[j], e);
      }
    }
  }

  // ------------------------------------------------------------ the side branch

  /** The tree carries everything the volume's side branch holds. */
  predicate SideCovered(id: string, s: Snap)
  {
    s.local.Some? && id in s.shared.sides ==>
      Changes(s.shared.sides[id]) <= Changes(s.local.value.head)
  }

  lemma StepCoversSide(id: string, a: Action, s: Snap, s': Snap)
    requires Step(id, a, s, s') && SideCovered(id, s) && s.local.Some? && s'.local.Some?
    requires Changes(s.local.value.head) <= Changes(s'.local.value.head)
    ensures SideCovered(id, s')
  {
  }

  lemma FollowCoversSide(id: string, s: Snap, s': Snap)
    requires Follows(id, s, s') && SideCovered(id, s) && s.local.Some? && s'.local.Some?
    ensures SideCovered(id, s')
  {
    FollowKeepsWork(id, s, s');
    if !Elsewhere(id, s, s') {
      var a :| Step(id, a, s, s');
      StepCoversSide(id, a, s, s');
    }
  }

  /** While a tree stands it covers its side branch, from the moment it first
      did. */
  lemma {:induction false} SideStaysCovered(id: string, run: seq<Snap>, i: nat, j: nat)
    requires IsRun(id, run) && i <= j && Stands(run, i, j) && SideCovered(id, run[i])
    ensures SideCovered(id, run[j])
    decreases j
  {
    if i < j {
      SideStaysCovered(id, run, i, j - 1);
      assert Linked(id, run, j);
      FollowCoversSide(id, run[j - 1], run[j]);
    }
  }

  /** The deletion after run[j] drops no edit that HEAD lacks. */
  predicate DropsNothing(id: string, run: seq<Snap>, j: nat)
    requires j < |run| && run[j].local.Some?
  {
    id in run[j].shared.sides ==>
      Changes(run[j].shared.sides[id]) <= Changes(run[j].local.value.head)
  }

  predicate Deletes(id: string, run: seq<Snap>, j: nat)
  {
    j + 1 < |run| && Step(id, DeletesSide, run[j], run[j + 1])
  }

  /** No run that starts here ever deletes a side branch that holds an edit HEAD
      lacks, for as long as the tree stands. */
  ghost predicate DeletionsSafe(id: string, s: Snap)
  {
    forall run, j: nat ::
      IsRun(id, run) && run[0] == s && Stands(run, 0, j) && Deletes(id, run, j) ==>
        DropsNothing(id, run, j)
  }

  /** A tree the driver just made deletes its side branch safely if and only if
      the ref already held whatever branch of that name the remote had. A branch
      that outlived an earlier tree of the same volume can be deleted with work
      only it holds. */
  lemma FreshTreeDeletesSafely(id: string, s: Snap)
    requires Sound(s) && s.local.Some? && !s.diverged
    requires s.local.value.mark == Some(s.local.value.head) && s.local.value.head == s.shared.tip
    ensures DeletionsSafe(id, s) <==> SideCovered(id, s)
  {
    if SideCovered(id, s) {
      forall run, j: nat | IsRun(id, run) && run[0] == s && Stands(run, 0, j) && Deletes(id, run, j)
        ensures DropsNothing(id, run, j)
      {
        SideStaysCovered(id, run, 0, j);
      }
    } else {
      var e := UnknownEdit(s.local.value.files + Changes(s.shared.sides[id]));
      LeftoverIsDeleted(id, s, e);
    }
  }

  lemma UnknownEdit(known: set<Edit>) returns (e: Edit)
    ensures e !in known
  {
    var least := NewSerial(known);
    e := Edit("work", least);
  }

  /** How the driver comes to delete a branch that outlived an earlier tree: the
      pod writes and the driver commits; the ref refuses the push, so the volume
      diverges, its key first; the old branch refuses it too; and the next push
      finds the mark on the ref, takes that for a merge, and deletes the branch
      before it clears the key. */
  function LeftoverAt(id: string, s: Snap, e: Edit, at: nat): Snap
    requires s.local.Some?
  {
    var t := s.local.value;
    var head := if at < 2 then t.head else Commit([t.head], {e}, t.head.tree[e.path := 0]);
    var files := if at < 1 then t.files else t.files + {e};
    var sides := if at < 5 then s.shared.sides else s.shared.sides - {id};
    Snap(s.shared.(sides := sides), Some(t.(head := head, files := files, key := t.key || at >= 3)), at >= 4)
  }

  lemma LeftoverCommits(id: string, s: Snap, e: Edit)
    requires Sound(s) && s.local.Some? && !s.diverged && e !in s.local.value.files
    ensures LeftoverAt(id, s, e, 0) == s
    ensures Follows(id, LeftoverAt(id, s, e, 0), LeftoverAt(id, s, e, 1))
    ensures Follows(id, LeftoverAt(id, s, e, 1), LeftoverAt(id, s, e, 2))
  {
    var t := s.local.value;
    assert Ancestor(s.shared.tip, s.shared.tip);
    assert Elsewhere(id, LeftoverAt(id, s, e, 0), LeftoverAt(id, s, e, 1));
    assert Step(id, Commits({e}, t.head.tree[e.path := 0]), LeftoverAt(id, s, e, 1), LeftoverAt(id, s, e, 2));
  }

  lemma LeftoverDiverges(id: string, s: Snap, e: Edit)
    requires s.local.Some? && s.local.value.mark == Some(s.local.value.head)
    requires s.local.value.head == s.shared.tip && s.shared.tip in s.shared.tips
    ensures Follows(id, LeftoverAt(id, s, e, 2), LeftoverAt(id, s, e, 3))
    ensures Follows(id, LeftoverAt(id, s, e, 3), LeftoverAt(id, s, e, 4))
    ensures Step(id, DeletesSide, LeftoverAt(id, s, e, 4), LeftoverAt(id, s, e, 5))
  {
    var r, t := s.shared, LeftoverAt(id, s, e, 4).local.value;
    assert Step(id, Keys(true), LeftoverAt(id, s, e, 2), LeftoverAt(id, s, e, 3));
    assert Step(id, Parts, LeftoverAt(id, s, e, 3), LeftoverAt(id, s, e, 4));
    ChainOnHead(r.tip, r.tip, {e}, t.head.tree);
    assert Ancestor(r.tip, r.tip);
    assert Rejoined(LeftoverAt(id, s, e, 4).shared, t);
  }

  lemma LeftoverIsARun(id: string, s: Snap, e: Edit) returns (run: seq<Snap>)
    requires Sound(s) && s.local.Some? && !s.diverged
    requires s.local.value.mark == Some(s.local.value.head) && s.local.value.head == s.shared.tip
    requires e !in s.local.value.files
    ensures IsRun(id, run) && |run| == 6 && run[0] == s && Deletes(id, run, 4)
    ensures forall at :: 0 <= at < 6 ==> run[at] == LeftoverAt(id, s, e, at)
  {
    run := seq(6, at requires 0 <= at => LeftoverAt(id, s, e, at));
    LeftoverCommits(id, s, e);
    LeftoverDiverges(id, s, e);
    forall i | 0 < i < |run|
      ensures Linked(id, run, i)
    {
      assert i == 1 || i == 2 || i == 3 || i == 4 || i == 5;
    }
  }

  lemma LeftoverIsDeleted(id: string, s: Snap, e: Edit)
    requires Sound(s) && s.local.Some? && !s.diverged && id in s.shared.sides && !SideCovered(id, s)
    requires s.local.value.mark == Some(s.local.value.head) && s.local.value.head == s.shared.tip
    requires e !in s.local.value.files + Changes(s.shared.sides[id])
    ensures !DeletionsSafe(id, s)
  {
    var run := LeftoverIsARun(id, s, e);
    ChainOnHead(s.local.value.head, s.shared.tip, {e}, s.local.value.head.tree[e.path := 0]);
    assert Stands(run, 0, 4) && !DropsNothing(id, run, 4);
  }

  // ------------------------------------------------------- any number of volumes

  /** The remote, every work tree of the node, by volume, and the volumes whose
      driver remembers that they have diverged. */
  datatype System = System(shared: Shared, trees: map<string, Local>, diverged: set<string>)

  function View(sys: System, id: string): Snap
  {
    Snap(sys.shared, if id in sys.trees then Some(sys.trees[id]) else None, id in sys.diverged)
  }

  /** One volume's driver acts, and every other volume's tree stays. */
  predicate DriverActs(id: string, a: Action, sys: System, sys': System)
  {
    Step(id, a, View(sys, id), View(sys', id)) && sys'.trees - {id} == sys.trees - {id}
    && sys'.diverged - {id} == sys.diverged - {id}
  }

  /** A person moves the ref forward or deletes side branches, and pods write
      their trees. */
  predicate PeopleAct(sys: System, sys': System)
  {
    Ancestor(sys.shared.tip, sys'.shared.tip)
    && (forall k :: k in sys'.shared.sides ==> k in sys.shared.sides && sys'.shared.sides[k] == sys.shared.sides[k])
    && sys'.shared.record == sys.shared.record
    && sys'.shared.tips == sys.shared.tips + {sys'.shared.tip}
    && sys'.trees.Keys == sys.trees.Keys && sys'.diverged == sys.diverged
    && forall k :: k in sys.trees ==>
         Changes(sys.trees[k].head) <= sys'.trees[k].files
         && sys'.trees[k] == sys.trees[k].(files := sys'.trees[k].files, sight := sys'.trees[k].sight)
  }

  ghost predicate Next(sys: System, sys': System)
  {
    PeopleAct(sys, sys') || exists id, a :: DriverActs(id, a, sys, sys')
  }

  ghost predicate IsExecution(run: seq<System>)
  {
    run != [] && forall i :: 0 < i < |run| ==> Next(run[i - 1], run[i])
  }

  /** An empty store beside any remote. */
  predicate Init(sys: System)
  {
    sys.trees == map[] && Named(sys.shared)
  }

  lemma NextStaysNamed(s: System, s': System)
    requires Named(s.shared) && Next(s, s')
    ensures Named(s'.shared)
  {
    if !PeopleAct(s, s') {
      var id, a :| DriverActs(id, a, s, s');
      assert View(s', id).shared == s'.shared;
    }
  }

  lemma {:induction false} SystemStaysNamed(run: seq<System>, i: nat)
    requires IsExecution(run) && Named(run[0].shared) && i < |run|
    ensures Named(run[i].shared)
  {
    if i > 0 {
      SystemStaysNamed(run, i - 1);
      NextStaysNamed(run[i - 1], run[i]);
    }
  }

  /** What one volume's driver does is, to every other volume, something that
      happens elsewhere. */
  lemma OthersStepIsElsewhere(id: string, other: string, a: Action, sys: System, sys': System)
    requires DriverActs(id, a, sys, sys') && id != other
    requires Named(sys.shared) && Named(sys'.shared)
    requires other in sys.trees ==> Changes(sys.trees[other].head) <= sys.trees[other].files
    ensures Elsewhere(other, View(sys, other), View(sys', other))
  {
    assert View(sys', id).shared == sys'.shared;
    assert other in sys'.trees <==> other in sys'.trees - {id};
    assert other in sys.trees <==> other in sys.trees - {id};
    assert other in sys'.diverged <==> other in sys'.diverged - {id};
    assert other in sys.diverged <==> other in sys.diverged - {id};
    if other in sys.trees {
      assert (sys'.trees - {id})[other] == (sys.trees - {id})[other];
    }
  }

  function Views(run: seq<System>, id: string): (views: seq<Snap>)
    ensures |views| == |run| && forall i :: 0 <= i < |run| ==> views[i] == View(run[i], id)
  {
    seq(|run|, i requires 0 <= i < |run| => View(run[i], id))
  }

  lemma {:induction false} LastViewFollows(s: System, s': System, id: string, run: seq<System>, i: nat)
    requires IsExecution(run) && Init(run[0]) && 0 < i < |run| && s == run[i - 1] && s' == run[i]
    requires Sound(View(s, id))
    ensures Follows(id, View(s, id), View(s', id)) && Sound(View(s', id))
  {
    SystemStaysNamed(run, i - 1);
    SystemStaysNamed(run, i);
    var v, v' := View(s, id), View(s', id);
    if PeopleAct(s, s') {
      assert Elsewhere(id, v, v');
      ElsewhereKeepsSound(id, v, v');
    } else {
      var who, a :| DriverActs(who, a, s, s');
      if who == id {
        StepKeepsSound(id, a, v, v');
      } else {
        OthersStepIsElsewhere(who, id, a, s, s');
        ElsewhereKeepsSound(id, v, v');
      }
    }
  }

  lemma {:induction false} ViewFollows(run: seq<System>, id: string, i: nat)
    requires IsExecution(run) && Init(run[0]) && i < |run|
    ensures Sound(View(run[i], id))
    ensures i > 0 ==> Follows(id, View(run[i - 1], id), View(run[i], id))
  {
    if i > 0 {
      ViewFollows(run, id, i - 1);
      LastViewFollows(run[i - 1], run[i], id, run, i);
    }
  }

  /** Every volume's view of an interleaved execution is a run of its own, so
      everything proved of one volume's runs holds of any number of volumes. */
  lemma ViewsAreRuns(run: seq<System>, id: string)
    requires IsExecution(run) && Init(run[0])
    ensures IsRun(id, Views(run, id))
    ensures forall i :: 0 <= i < |run| ==> Sound(View(run[i], id))
  {
    var views := Views(run, id);
    forall i | 0 <= i < |run|
      ensures Sound(View(run[i], id)) && (i > 0 ==> Linked(id, views, i))
    {
      ViewFollows(run, id, i);
    }
  }

  /** In every interleaving of any number of volumes with people, from an empty
      store: while a tree stands its committed work stays in its history, and the
      followed ref only moves forward. */
  lemma {:induction false} ExecutionKeepsWork(run: seq<System>, id: string, i: nat, j: nat)
    requires IsExecution(run) && Init(run[0]) && i <= j < |run|
    ensures Ancestor(run[i].shared.tip, run[j].shared.tip)
    ensures (forall k :: i <= k <= j ==> id in run[k].trees) ==>
              Changes(run[i].trees[id].head) <= Changes(run[j].trees[id].head)
  {
    ViewsAreRuns(run, id);
    var views := Views(run, id);
    assert views[i] == View(run[i], id) && views[j] == View(run[j], id);
    RefMovesForward(id, views, i, j);
    if forall k :: i <= k <= j ==> id in run[k].trees {
      assert Stands(views, i, j);
      CommittedWorkStays(id, views, i, j);
    }
  }
}
