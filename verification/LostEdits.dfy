// The edits the driver takes for its own to keep and loses: one ordinary state for
// each way there is.

module LostEdits {
  import opened Wrappers
  import opened Git
  import opened Checkout
  import opened Protocol

  /** A tree at own, whose ref has moved on to tip, with one edit that no commit
      carries. The key is set when the volume had diverged and a person merged. */
  function Behindhand(own: Commit, tip: Commit, key: bool, edit: Edit, sight: Sight): Snap
  {
    Snap(Shared(tip, map[], None, {own, tip}),
         Some(Local(own, Some(own), key, Changes(own) + {edit}, sight, None, false)), false)
  }

  /** The ref's next commit, with one edit of a person's and this tree. */
  function After(own: Commit, edit: Edit, tree: map<string, Blob>): Commit
  {
    Commit([own], {edit}, tree)
  }

  lemma BehindhandIsSound(own: Commit, edit: Edit, tree: map<string, Blob>, key: bool, late: Edit, sight: Sight)
    requires late !in Changes(After(own, edit, tree))
    ensures var s, tip := Behindhand(own, After(own, edit, tree), key, late, sight), After(own, edit, tree);
            Sound(s) && Ancestor(own, tip) && !Ancestor(tip, own) && late in Dirty(s.local.value)
  {
    var tip := After(own, edit, tree);
    assert own in tip.parents && Ancestor(own, own);
    assert Ancestor(own, tip);
    AncestorLower(own, tip);
    if Ancestor(tip, own) {
      AncestorAntisymmetric(own, tip);
    }
    assert Changes(own) <= Changes(own);
  }

  /** A file that an ignore list names, at a path the ref comes to track. status
      does not name it, so the stage takes the tree for clean and fast-forwards,
      and both the reset and a read-tree write over the file. */
  lemma IgnoredFileGoes() returns (s: Snap, late: Edit)
    ensures Sound(s) && s.local.Some? && !s.local.value.key
    ensures var t, tip := s.local.value, s.shared.tip;
            Ancestor(t.head, tip) && !Ancestor(tip, t.head) && Pending(t) == {}
            && late in Dirty(t) && late !in Changes(tip)
            && Replaces(t.head, tip, late.path) && Allows(t, tip) && Overwrites(t.head, tip, late.path)
  {
    var own := Commit([], {}, map[]);
    var edit := Edit("cache", 0);
    late := Edit("cache", 1);
    var tip := After(own, edit, map["cache" := 0]);
    s := Behindhand(own, tip, false, late, Sight({"cache"}, {}));
    BehindhandIsSound(own, edit, tip.tree, false, late, Sight({"cache"}, {}));
    assert Dirty(s.local.value) == {late};
  }

  /** A file the pod deleted and the ref changed. status names the deletion, and a
      stage waits for it, but a read-tree under a running pod writes the file
      again. */
  lemma DeletionGoes() returns (s: Snap, late: Edit)
    ensures Sound(s) && s.local.Some?
    ensures var t, tip := s.local.value, s.shared.tip;
            Ancestor(t.head, tip) && !Ancestor(tip, t.head)
            && late in Pending(t) && late !in Changes(tip) && late.path in t.head.tree
            && Allows(t, tip) && Overwrites(t.head, tip, late.path)
  {
    var own := Commit([], {}, map["config" := 0]);
    var edit := Edit("config", 0);
    late := Edit("config", 1);
    var tip := After(own, edit, map["config" := 1]);
    s := Behindhand(own, tip, false, late, Sight({}, {"config"}));
    BehindhandIsSound(own, edit, tip.tree, false, late, Sight({}, {"config"}));
    assert Dirty(s.local.value) == {late};
  }

  /** A diverged tree that a person merged, where the pod wrote a committed file
      again before it went away: the heal writes over it. */
  lemma LateEditGoes() returns (s: Snap, late: Edit)
    ensures Sound(s) && s.local.Some? && s.local.value.key
    ensures var t, tip := s.local.value, s.shared.tip;
            Ancestor(t.head, tip) && late in Pending(t) && late !in Changes(tip)
            && late.path in t.head.tree && Replaces(t.head, tip, late.path)
  {
    var own := Commit([], {}, map["config" := 0]);
    var edit := Edit("merge", 0);
    late := Edit("config", 1);
    var tip := After(own, edit, map["config" := 0, "merge" := 0]);
    s := Behindhand(own, tip, true, late, Sight({}, {}));
    BehindhandIsSound(own, edit, tip.tree, true, late, Sight({}, {}));
    assert Dirty(s.local.value) == {late};
  }

  /** The same of a file in neither tree, in a directory of the pod's whose name the
      merge gave to a file. */
  lemma ClashingFileGoes() returns (s: Snap, late: Edit)
    ensures Sound(s) && s.local.Some? && s.local.value.key
    ensures var t, tip := s.local.value, s.shared.tip;
            Ancestor(t.head, tip) && late in Pending(t) && late !in Changes(tip)
            && late.path !in t.head.tree && late.path !in tip.tree && Replaces(t.head, tip, late.path)
  {
    var own := Commit([], {}, map[]);
    var edit := Edit("data", 0);
    late := Edit("data/y", 1);
    var tip := After(own, edit, map["data" := 0]);
    s := Behindhand(own, tip, true, late, Sight({}, {}));
    BehindhandIsSound(own, edit, tip.tree, true, late, Sight({}, {}));
    assert Dirty(s.local.value) == {late};
    assert "data" in tip.tree && Clash("data/y", "data");
  }

  /** The same volume once the ref is at another commit, and once it took that. */
  function Moved(id: string, h: History, tip: Commit): History
  {
    Then(h, None, h.now.(shared := h.now.shared.(tip := tip, tips := h.now.shared.tips + {tip})))
  }

  function Took(h: History, to: Commit, sight: Sight): History
    requires h.now.local.Some?
  {
    var t := h.now.local.value;
    Then(h, Some(Takes(to, sight)),
         h.now.(local := Some(t.(head := to, files := Taken(t.files, t.head, to), sight := sight))))
  }

  lemma MovedOn(id: string, h: History, since: History, to: Commit)
    requires IsHistory(id, h) && h.now.local.Some? && since.Start? && Careful(h, since, false)
    requires h.now.local.value.head == h.now.shared.tip && h.now.shared.tip in to.parents
    ensures var moved := Moved(id, h, to);
            IsHistory(id, moved) && Careful(moved, since, false) && Brought(moved, since) == Brought(h, since)
  {
    HistoryKeepsSound(id, h);
    assert Ancestor(h.now.shared.tip, h.now.shared.tip) && Ancestor(h.now.shared.tip, to);
    assert Elsewhere(id, h.now, Moved(id, h, to).now);
  }

  lemma MovedAndTook(id: string, h: History, since: History, to: Commit, sight: Sight)
    requires IsHistory(id, h) && h.now.local.Some? && since.Start? && Careful(h, since, false)
    requires var t := h.now.local.value;
             t.head == h.now.shared.tip && t.head in to.parents && t.mark.Some? && Held(h.now.shared, t.mark.value)
             && Allows(t, to) && Restored(t.head, to, t.sight, sight)
    ensures var after := Took(Moved(id, h, to), to, sight);
            IsHistory(id, after) && Careful(after, since, false)
            && Brought(after, since) == Brought(h, since) + Changes(to)
            && Held(after.now.shared, h.now.local.value.mark.value)
  {
    var t, moved := h.now.local.value, Moved(id, h, to);
    MovedOn(id, h, since, to);
    assert Ancestor(t.head, t.head) && Ancestor(t.head, to) && Ancestor(to, to);
    ChangesGrow(t.head, to);
    HeldStays(h.now.shared, moved.now.shared, t.mark.value);
    HeldHoldsEdits(moved.now.shared, t.mark.value);
    assert MayMove(moved.now.shared, t, to);
  }

  lemma NoClash()
    ensures !Clash("x", ".gitignore")
  {
    assert ".gitignore"[..2][0] == '.' && "x/"[0] == 'x';
  }

  // A tree with a new file at x, the ignore list the ref brings first, and the file
  // it brings next.
  const BEFORE := Commit([], {}, map[])
  const LIST := Commit([BEFORE], {Edit(".gitignore", 0)}, map[".gitignore" := 0])
  const FILE := Commit([LIST], {Edit("x", 0)}, map[".gitignore" := 0, "x" := 0])
  const LATE := Edit("x", 1)

  function Begun(): History
  {
    Start(Snap(Shared(BEFORE, map[], None, {BEFORE}),
               Some(Local(BEFORE, Some(BEFORE), false, {LATE}, Sight({}, {}), None, false)), false))
  }

  lemma ListArrives(id: string) returns (h: History)
    ensures IsHistory(id, h) && Careful(h, Begun(), false) && Brought(h, Begun()) == Changes(LIST)
    ensures LATE in Pending(Begun().now.local.value)
    ensures h.now.local == Some(Local(LIST, Some(BEFORE), false, Changes(LIST) + {LATE}, Sight({"x"}, {}), None, false))
    ensures h.now.shared.tip == LIST && Held(h.now.shared, BEFORE)
  {
    var s := Begun().now;
    assert Ancestor(BEFORE, BEFORE) && Held(s.shared, BEFORE) && EditsHeld(s.shared, BEFORE);
    NoClash();
    assert !Overwrites(BEFORE, LIST, "x");
    MovedAndTook(id, Begun(), Begun(), LIST, Sight({"x"}, {}));
    h := Took(Moved(id, Begun(), LIST), LIST, Sight({"x"}, {}));
    assert Taken({LATE}, BEFORE, LIST) == Changes(LIST) + {LATE};
  }

  /** A new file that status names, as the first of two rebases begins. The one
      brings an ignore list that names the file, and the other a file at its path. */
  lemma NamedFileGoesLater(id: string) returns (h: History)
    ensures IsHistory(id, h) && Careful(h, Begun(), false) && h.now.local.Some?
    ensures LATE in Pending(Begun().now.local.value)
    ensures LATE !in Brought(h, Begun()) && LATE !in h.now.local.value.files
  {
    var first := ListArrives(id);
    assert Overwrites(LIST, FILE, "x");
    assert Changes(LIST) == {Edit(".gitignore", 0)} && Changes(FILE) == {Edit(".gitignore", 0), Edit("x", 0)};
    assert Dirty(first.now.local.value) == {LATE};
    MovedAndTook(id, first, Begun(), FILE, Sight({"x"}, {}));
    h := Took(Moved(id, first, FILE), FILE, Sight({"x"}, {}));
  }
}
