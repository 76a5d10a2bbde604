// How the mark comes to name a commit the remote never held although every stage
// read it: a heal before a push moves HEAD, its key stays, and the push goes on
// with the HEAD it read before the heal (push.go:151-181).

module StaleMark {
  import opened Wrappers
  import opened Git
  import opened Checkout
  import opened Protocol
  import opened Marks

  /** A diverged volume whose last pushed commit the remote held, with commits
      since then that no push has sent. */
  predicate Waiting(s: Snap)
  {
    Sound(s) && s.diverged && s.local.Some? && s.local.value.mark.Some?
    && Held(s.shared, s.local.value.mark.value) && !Held(s.shared, s.local.value.head)
  }

  /** Under a mark that names work the remote took, and held at that, those are the
      diverged volumes with a HEAD the remote never held. */
  lemma SettledWaits(s: Snap)
    requires Sound(s) && s.diverged && s.local.Some? && s.local.value.mark.Some? && MarkSettled(s)
    ensures Unsent(s.shared, s.local.value) <==> !Held(s.shared, s.local.value.head)
    ensures Waiting(s) <==> Unsent(s.shared, s.local.value) && Held(s.shared, s.local.value.mark.value)
  {
    var r, head, mark := s.shared, s.local.value.head, s.local.value.mark.value;
    if Ancestor(head, mark) {
      if Held(r, mark) {
        HeldBelow(r, mark, head);
      } else {
        var u :| u in r.tips && Ancestor(u, r.tip) && Ancestor(u, head) && !Ancestor(u, mark);
        AncestorTransitive(u, head, mark);
      }
    }
  }

  /** An edit that neither the tree nor what its mark names carries. */
  predicate New(s: Snap, e: Edit)
    requires s.local.Some? && s.local.value.mark.Some?
  {
    e !in s.local.value.files + Changes(s.local.value.mark.value)
  }

  /** A person's merge into the ref of what the mark names, which they have from the
      branch that took it, with a change of their own. */
  function Merge(s: Snap, e: Edit): Commit
    requires s.local.Some? && s.local.value.mark.Some?
  {
    Commit([s.shared.tip, s.local.value.mark.value], {e}, s.shared.tip.tree)
  }

  lemma MergeHolds(s: Snap, e: Edit)
    requires Waiting(s) && New(s, e)
    ensures Ancestor(s.shared.tip, Merge(s, e)) && Ancestor(s.local.value.mark.value, Merge(s, e))
    ensures !Ancestor(Merge(s, e), s.local.value.head) && !Ancestor(s.local.value.head, Merge(s, e))
    ensures Chain(s.local.value.head, Merge(s, e))
  {
    var tip, head, mark, merge := s.shared.tip, s.local.value.head, s.local.value.mark.value, Merge(s, e);
    assert merge.parents[0] == tip && merge.parents[1] == mark;
    assert Ancestor(tip, tip) && Ancestor(mark, mark);
    assert e in Changes(merge) && e !in Changes(head);
    if Ancestor(merge, head) {
      ChangesGrow(merge, head);
    }
    assert tip in s.shared.tips && !Ancestor(head, tip);
    if Ancestor(head, mark) {
      HeldBelow(s.shared, mark, head);
    }
    assert head != merge;
    ChainAbove(head, tip, merge);
  }

  /** What the heal makes of HEAD. */
  function Replayed(s: Snap, e: Edit): Commit
    requires s.local.Some? && s.local.value.mark.Some? && Chain(s.local.value.head, Merge(s, e))
  {
    Stacked(Merge(s, e), Range(s.local.value.head, Merge(s, e)))
  }

  lemma ReplayedHolds(s: Snap, e: Edit)
    requires Waiting(s) && New(s, e)
    ensures Chain(s.local.value.head, Merge(s, e))
    ensures var to := Replayed(s, e);
            Rebased(Merge(s, e), s.local.value.head, to)
            && Ancestor(Merge(s, e), to) && Chain(to, Merge(s, e)) && !Ancestor(s.local.value.head, to)
            && Changes(s.local.value.head) <= Changes(to)
  {
    MergeHolds(s, e);
    var head, merge := s.local.value.head, Merge(s, e);
    StackedIsReplayed(merge, Range(head, merge));
    RebaseKeepsBoth(merge, head, Replayed(s, e));
    if Ancestor(head, Replayed(s, e)) {
      StackedHolds(merge, Range(head, merge), head);
    }
  }

  /** A person merges at 1, and the pod takes its uncommitted edits back; the heal
      replays HEAD at 2 and deletes the side branch at 3, and its key stays; the push
      lands on the side branch again at 4; and at 5 the mark goes to the HEAD from
      before the heal. */
  function StaleAt(id: string, s: Snap, e: Edit, at: nat): Snap
    requires s.local.Some? && s.local.value.mark.Some? && Chain(s.local.value.head, Merge(s, e))
  {
    var r, t, merge, to := s.shared, s.local.value, Merge(s, e), Replayed(s, e);
    var merged := if at < 1 then r else r.(tip := merge, tips := r.tips + {merge});
    var shared :=
      if at < 3 then merged
      else if at < 4 then merged.(sides := r.sides - {id})
      else merged.(sides := (r.sides - {id})[id := to], tips := merged.tips + {to});
    var clean := if at < 1 then t else t.(files := Changes(t.head), sight := Sight({}, {}));
    var healed := if at < 2 then clean else clean.(head := to, files := Taken(clean.files, t.head, to));
    Snap(shared, Some(if at < 5 then healed else healed.(mark := Some(t.head), blind := false)), true)
  }

  lemma StaleHeals(id: string, s: Snap, e: Edit)
    requires Waiting(s) && New(s, e)
    ensures Chain(s.local.value.head, Merge(s, e)) && StaleAt(id, s, e, 0) == s
    ensures Follows(id, StaleAt(id, s, e, 0), StaleAt(id, s, e, 1))
    ensures Follows(id, StaleAt(id, s, e, 1), StaleAt(id, s, e, 2))
  {
    MergeHolds(s, e);
    ReplayedHolds(s, e);
    var s1, t, to := StaleAt(id, s, e, 1), s.local.value, Replayed(s, e);
    assert Elsewhere(id, s, s1);
    assert Merge(s, e) in s1.shared.tips && Held(s1.shared, t.mark.value);
    HeldHoldsEdits(s1.shared, t.mark.value);
    assert Dirty(s1.local.value) == {} && Allows(s1.local.value, to);
    assert Step(id, Takes(to, Sight({}, {})), s1, StaleAt(id, s, e, 2));
  }

  lemma StaleLands(id: string, s: Snap, e: Edit)
    requires Waiting(s) && New(s, e)
    ensures Chain(s.local.value.head, Merge(s, e))
    ensures Follows(id, StaleAt(id, s, e, 2), StaleAt(id, s, e, 3))
    ensures Follows(id, StaleAt(id, s, e, 3), StaleAt(id, s, e, 4))
  {
    MergeHolds(s, e);
    ReplayedHolds(s, e);
    var s2, merge := StaleAt(id, s, e, 2), Merge(s, e);
    assert Ancestor(merge, merge) && Rejoined(s2.shared, s2.local.value);
    assert Step(id, DeletesSide, s2, StaleAt(id, s, e, 3));
    assert Step(id, LandsOnSide, StaleAt(id, s, e, 3), StaleAt(id, s, e, 4));
  }

  lemma StaleMarks(id: string, s: Snap, e: Edit)
    requires Waiting(s) && New(s, e)
    ensures Chain(s.local.value.head, Merge(s, e))
    ensures Follows(id, StaleAt(id, s, e, 4), StaleAt(id, s, e, 5))
  {
    MergeHolds(s, e);
    ReplayedHolds(s, e);
    var s4, merge, to, head := StaleAt(id, s, e, 4), Merge(s, e), Replayed(s, e), s.local.value.head;
    assert Ancestor(merge, merge) && to in s4.shared.tips;
    assert EditsHeld(s4.shared, head);
    assert Behind(s4.shared, to, head);
    assert Step(id, Marks(head), s4, StaleAt(id, s, e, 5));
  }

  lemma StaleUnheld(id: string, s: Snap, e: Edit)
    requires Waiting(s) && New(s, e)
    ensures Chain(s.local.value.head, Merge(s, e))
    ensures !Held(StaleAt(id, s, e, 5).shared, s.local.value.head)
  {
    MergeHolds(s, e);
    ReplayedHolds(s, e);
    forall t | t in StaleAt(id, s, e, 5).shared.tips
      ensures !Ancestor(s.local.value.head, t)
    {
      assert t in s.shared.tips || t == Merge(s, e) || t == Replayed(s, e);
    }
  }

  lemma StaleMarkMoves(id: string, s: Snap, e: Edit, at: nat)
    requires Waiting(s) && New(s, e) && at < 5
    ensures Chain(s.local.value.head, Merge(s, e))
    ensures StaleAt(id, s, e, at + 1).local.value.mark != Some(StaleAt(id, s, e, at).local.value.head)
  {
    MergeHolds(s, e);
    ReplayedHolds(s, e);
    var t, to := s.local.value, Replayed(s, e);
    if Ancestor(t.head, t.mark.value) {
      HeldBelow(s.shared, t.mark.value, t.head);
    }
    assert Ancestor(t.head, t.head);
    ChangesGrow(Merge(s, e), to);
    assert e in Changes(to) && t.mark != Some(to);
  }

  lemma HeadMarked(id: string, s: Snap, s': Snap)
    requires s.local.Some? && s'.local.Some? && s'.local.value.mark != Some(s.local.value.head)
    ensures !Step(id, MarksHead, s, s')
  {
  }

  /** Every diverged volume with a held mark and unsent commits can come to have
      its mark on one of them without the remote ever holding it, and with no stage
      that marks HEAD. */
  lemma WaitingWorkCanBeMarked(id: string, s: Snap)
    requires Waiting(s)
    ensures exists run: seq<Snap> ::
              IsRun(id, run) && run[0] == s && NoStray(id, run)
              && var last := run[|run| - 1];
                 last.local.Some? && last.local.value.mark == Some(s.local.value.head)
                 && !Held(last.shared, s.local.value.head)
  {
    var e := UnknownEdit(s.local.value.files + Changes(s.local.value.mark.value));
    StaleHeals(id, s, e);
    StaleLands(id, s, e);
    StaleMarks(id, s, e);
    StaleUnheld(id, s, e);
    var run := seq(6, at requires 0 <= at => StaleAt(id, s, e, at));
    forall i | 0 < i < |run|
      ensures Linked(id, run, i)
    {
      assert i == 1 || i == 2 || i == 3 || i == 4 || i == 5;
    }
    forall i: nat | i < |run|
      ensures !Strays(id, run, i)
    {
      if i < 5 {
        StaleMarkMoves(id, s, e, i);
        HeadMarked(id, run[i], run[i + 1]);
      }
    }
    assert run[|run| - 1] == StaleAt(id, s, e, 5);
  }
}
