// What the pushed mark is worth. The sweep trusts it alone, so what decides is
// when a mark can name work the remote never took: when a stage reads no mark
// and marks HEAD, and when a heal fails after it has moved HEAD.

module Marks {
  import opened Wrappers
  import opened Git
  import opened Protocol

  predicate MarkSettled(s: Snap)
  {
    s.local.Some? && s.local.value.mark.Some? ==> Settled(s.shared, s.local.value.head, s.local.value.mark.value)
  }

  predicate Sighted(s: Snap)
  {
    s.local.Some? ==> !s.local.value.blind
  }

  /** A stage that read no mark marked a HEAD the remote had not taken. */
  predicate Strays(id: string, run: seq<Snap>, i: nat)
  {
    i + 1 < |run| && Step(id, MarksHead, run[i], run[i + 1])
    && !Held(run[i].shared, run[i].local.value.head)
  }

  predicate NoStray(id: string, run: seq<Snap>)
  {
    forall i: nat :: i < |run| ==> !Strays(id, run, i)
  }

  lemma FollowStaysSighted(id: string, s: Snap, s': Snap)
    requires Follows(id, s, s') && Sighted(s)
    requires Step(id, MarksHead, s, s') ==> Held(s.shared, s.local.value.head)
    ensures Sighted(s')
  {
    if !Elsewhere(id, s, s') {
      var a :| Step(id, a, s, s');
      match a
      case MarksHead =>
      case _ =>
    }
  }

  lemma {:induction false} RunStaysSighted(id: string, run: seq<Snap>, i: nat)
    requires IsRun(id, run) && Sighted(run[0]) && NoStray(id, run) && i < |run|
    ensures Sighted(run[i])
  {
    if i > 0 {
      RunStaysSighted(id, run, i - 1);
      assert Linked(id, run, i) && !Strays(id, run, i - 1);
      FollowStaysSighted(id, run[i - 1], run[i]);
    }
  }

  /** A mark on HEAD itself is settled exactly when the remote held HEAD. */
  lemma HeadSettles(r: Shared, head: Commit)
    ensures Settled(r, head, head) <==> Held(r, head)
  {
    if Held(r, head) {
      HeldHoldsEdits(r, head);
    }
  }

  /** The mark is settled in every state of a run if and only if every stage that
      read no mark stood on a HEAD the remote had taken. A stage can ask before it
      marks: a HEAD that the fetched ref holds is one. */
  lemma MarksSettleExactly(id: string, run: seq<Snap>)
    requires IsRun(id, run) && Sound(run[0]) && Sighted(run[0])
    ensures (forall i :: 0 <= i < |run| ==> MarkSettled(run[i])) <==> NoStray(id, run)
  {
    if NoStray(id, run) {
      forall i | 0 <= i < |run|
        ensures MarkSettled(run[i])
      {
        RunKeepsSound(id, run, i);
        RunStaysSighted(id, run, i);
      }
    }
    forall i: nat | Strays(id, run, i)
      ensures !MarkSettled(run[i + 1])
    {
      HeadSettles(run[i].shared, run[i].local.value.head);
    }
  }

  /** Where every mark is settled, its every edit has reached the remote, and a
      swept tree held no commit the remote had not taken: the sweep reads the mark
      alone, and that is enough, although the mark may name a commit the remote
      never held. */
  lemma SweepTakesOnlyHeld(id: string, run: seq<Snap>, i: nat, x: Commit)
    requires IsRun(id, run) && Sound(run[0]) && Sighted(run[0]) && NoStray(id, run)
    requires i + 1 < |run| && Step(id, Sweeps, run[i], run[i + 1])
    requires Ancestor(x, run[i].local.value.head)
    ensures Held(run[i].shared, x)
  {
    MarksSettleExactly(id, run);
    var r, head := run[i].shared, run[i].local.value.head;
    assert MarkSettled(run[i]);
    HeadSettles(r, head);
    HeldBelow(r, head, x);
  }

  // ------------------------------------------------ a stage that marks HEAD

  /** From here on, every edit behind the mark has reached the remote, and every
      sweep takes a tree whose every commit has. */
  ghost predicate Keeps(id: string, run: seq<Snap>)
  {
    forall i: nat :: 0 < i < |run| ==> KeepsAt(id, run, i)
  }

  ghost predicate KeepsAt(id: string, run: seq<Snap>, i: nat)
    requires i < |run|
  {
    (run[i].local.Some? && run[i].local.value.mark.Some? ==> EditsHeld(run[i].shared, run[i].local.value.mark.value))
    && (i + 1 < |run| && Step(id, Sweeps, run[i], run[i + 1]) ==>
          forall x :: Ancestor(x, run[i].local.value.head) ==> Held(run[i].shared, x))
  }

  /** The run begins with a stage that marks HEAD, and no later one strays. */
  ghost predicate MarksHeadFirst(id: string, s: Snap, run: seq<Snap>)
  {
    IsRun(id, run) && |run| > 1 && run[0] == s && Step(id, MarksHead, run[0], run[1]) && NoStray(id, run[1..])
  }

  /** The stage that marks HEAD, and the sweep when the tree has aged. */
  function SweptRun(s: Snap): seq<Snap>
    requires s.local.Some?
  {
    var t := s.local.value;
    [s, s.(local := Some(t.(mark := Some(t.head), blind := !Held(s.shared, t.head)))), s.(local := None)]
  }

  lemma SweptRunIsARun(id: string, s: Snap)
    requires s.local.Some?
    ensures IsRun(id, SweptRun(s)) && MarksHeadFirst(id, s, SweptRun(s))
    ensures Step(id, Sweeps, SweptRun(s)[1], SweptRun(s)[2])
  {
    var run := SweptRun(s);
    assert Step(id, MarksHead, run[0], run[1]) && Step(id, Sweeps, run[1], run[2]);
    assert Linked(id, run, 1) && Linked(id, run, 2);
    assert run[1..][0] == run[1] && run[1..][1] == run[2];
  }

  lemma TailIsRun(id: string, run: seq<Snap>)
    requires IsRun(id, run) && |run| > 1
    ensures IsRun(id, run[1..])
  {
    forall i | 0 < i < |run[1..]|
      ensures Linked(id, run[1..], i)
    {
      assert Linked(id, run, i + 1);
    }
  }

  /** A stage that reads no mark may mark HEAD exactly when the remote has taken
      HEAD. Nothing in the code asks. */
  lemma MarkingHeadIsSafeExactly(id: string, s: Snap)
    requires Sound(s) && s.local.Some?
    ensures (forall run :: MarksHeadFirst(id, s, run) ==> Keeps(id, run)) <==> Held(s.shared, s.local.value.head)
  {
    if Held(s.shared, s.local.value.head) {
      forall run | MarksHeadFirst(id, s, run)
        ensures Keeps(id, run)
      {
        MarkedHeldHeadKeeps(id, s, run);
      }
    } else {
      var run := SweptRun(s);
      SweptRunIsARun(id, s);
      assert Ancestor(s.local.value.head, run[1].local.value.head);
      assert !KeepsAt(id, run, 1);
    }
  }

  lemma MarkedHeldHeadKeeps(id: string, s: Snap, run: seq<Snap>)
    requires Sound(s) && s.local.Some? && Held(s.shared, s.local.value.head) && MarksHeadFirst(id, s, run)
    ensures Keeps(id, run)
  {
    var later := run[1..];
    TailIsRun(id, run);
    StepKeepsSound(id, MarksHead, run[0], run[1]);
    MarksSettleExactly(id, later);
    forall i: nat | 0 < i < |run|
      ensures KeepsAt(id, run, i)
    {
      assert later[i - 1] == run[i] && MarkSettled(later[i - 1]);
      if i + 1 < |run| && Step(id, Sweeps, run[i], run[i + 1]) {
        assert later[i] == run[i + 1];
        forall x | Ancestor(x, run[i].local.value.head)
          ensures Held(run[i].shared, x)
        {
          SweepTakesOnlyHeld(id, later, i - 1, x);
        }
      }
    }
  }

  /** The loss: work no push has sent, in a tree whose mark one stage does not
      read. The stage marks it as pushed, so no push sends it, and the sweep
      removes the tree. */
  lemma UnpushedWorkIsSwept(id: string, s: Snap)
    requires s.local.Some? && !EditsHeld(s.shared, s.local.value.head)
    ensures exists run: seq<Snap> ::
              IsRun(id, run) && run[0] == s && run[|run| - 1].local.None?
              && !EditsHeld(run[|run| - 1].shared, s.local.value.head)
  {
    SweptRunIsARun(id, s);
    var run := SweptRun(s);
    assert run[|run| - 1] == s.(local := None);
  }

  // ------------------------------------------------------- any number of volumes

  /** The same of each volume, in every interleaving of any number of them. */
  lemma ExecutionMarksExactly(run: seq<System>, id: string)
    requires IsExecution(run) && Init(run[0])
    ensures (forall i :: 0 <= i < |run| ==> MarkSettled(View(run[i], id))) <==> NoStray(id, Views(run, id))
  {
    ViewsAreRuns(run, id);
    var views := Views(run, id);
    MarksSettleExactly(id, views);
    assert forall i :: 0 <= i < |run| ==> views[i] == View(run[i], id);
  }

  lemma ExecutionSweepsOnlyHeld(run: seq<System>, id: string, j: nat, x: Commit)
    requires IsExecution(run) && Init(run[0]) && NoStray(id, Views(run, id))
    requires j + 1 < |run| && DriverActs(id, Sweeps, run[j], run[j + 1])
    requires Ancestor(x, run[j].trees[id].head)
    ensures Held(run[j].shared, x)
  {
    ViewsAreRuns(run, id);
    var views := Views(run, id);
    assert views[j] == View(run[j], id) && views[j + 1] == View(run[j + 1], id);
    SweepTakesOnlyHeld(id, views, j, x);
  }
}
