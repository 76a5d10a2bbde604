// The calls around the push: the stage that brings a tree to the ref, the
// commit at rest, the push of an unpublish or an unstage, the restart, and the
// sweep.

module StageTime {
  import opened Wrappers
  import opened Git
  import opened Checkout
  import opened Protocol
  import opened Repositories
  import opened WriteBack

  /** merge-base --is-ancestor through git: a git that fails answers no. */
  method AskAncestor(v: Volume, a: Commit, c: Commit) returns (yes: bool, failed: bool)
    modifies v`faults
    ensures yes == (!failed && Ancestor(a, c))
    ensures v.faults == old(v.faults) + if failed then 1 else 0
  {
    failed := *;
    if failed {
      v.faults := v.faults + 1;
    }
    yes := !failed && Ancestor(a, c);
  }

  /** Replays the remote's record over the volume's own. */
  method Restore(v: Volume)
    requires v.Valid() && v.work.present
    modifies v`faults, v`past, v.remote, v.work`files, v.work`sight, v.work`record
    ensures v.Valid() && Extends(v.past, old(v.past))
    ensures Careful(v.past, old(v.past), v.published)
    ensures Meanwhile(v.work.id, old(v.remote.State()), v.remote.State())
    ensures old(v.faults) <= v.faults
    ensures v.faults == old(v.faults) ==>
              v.work.record == if old(v.remote.record).Some? then old(v.remote.record) else old(v.work.record)
    ensures !v.published ==> v.work.files == old(v.work.files)
  {
    var fetched: bool := *;
    if !fetched && v.remote.record.Some? {
      v.faults := v.faults + 1;
    }
    assert Careful(v.past, v.past, v.published);
    if fetched && v.remote.record.Some? {
      ghost var t := v.work.Tree().value;
      v.work.record := v.remote.record;
      v.NoteRecord(t);
    }
    ghost var restored := v.past;
    v.Others();
    ExtendsTransitive(v.past, restored, old(v.past));
  }

  /** Sets the tree, the index and HEAD to a commit of the ref that holds
      everything HEAD carried. */
  method ResetTo(v: Volume, upstream: Commit) returns (err: bool)
    requires v.Valid() && v.work.present && !v.published
    requires Upstream(v.remote.State(), v.work.Tree().value, upstream) && Ancestor(v.work.head, upstream)
    modifies v`faults, v`refusals, v`past, v.work`head, v.work`files, v.work`sight
    ensures v.Valid() && Extends(v.past, old(v.past))
    ensures err ==> v.work.Tree() == old(v.work.Tree()) && v.past == old(v.past)
    ensures !err ==>
              v.work.head == upstream
              && v.work.files == ResetFiles(old(v.work.files), old(v.work.head), upstream)
    ensures Upstream(v.remote.State(), v.work.Tree().value, upstream)
    ensures v.Counting()
    ensures v.refusals == old(v.refusals) && (err ==> v.faults > old(v.faults))
  {
    ghost var t := v.work.Tree().value;
    err := v.work.Reset(upstream);
    if err {
      v.faults := v.faults + 1;
    } else {
      v.NoteReset(t, upstream);
    }
  }

  /** A record replayed since then is one the remote held meanwhile, and where it held
      none the record is what it was. */
  predicate Replayed(before: Option<Commit>, after: Option<Commit>, was: Option<Commit>, record: Option<Commit>)
  {
    (before.Some? ==>
       record.Some? && Ancestor(before.value, record.value) && after.Some? && Ancestor(record.value, after.value))
    && (after.None? ==> record == was)
  }

  /** The mark follows the tree to upstream, and the record is replayed. */
  method MarkAndRestore(v: Volume, upstream: Commit) returns (err: bool)
    requires v.Valid() && v.work.present && !v.published && upstream in v.remote.tips
    modifies v`faults, v`refusals, v`past, v.remote, v.work`files, v.work`sight, v.work`mark, v.work`blind
    modifies v.work`record
    ensures v.Valid() && Extends(v.past, old(v.past)) && v.Counting() && v.MarkKept()
    ensures Careful(v.past, old(v.past), false)
    ensures !err ==> v.work.mark == Some(upstream) && !v.work.blind
    ensures v.refusals == old(v.refusals) && (err ==> v.faults > old(v.faults))
    ensures v.work.id in v.remote.sides ==> v.work.id in old(v.remote.sides)
    ensures v.work.files == old(v.work.files) && upstream in v.remote.tips
    ensures err ==> v.work.record == old(v.work.record)
    ensures !err && v.faults == old(v.faults) ==>
              Replayed(old(v.remote.record), v.remote.record, old(v.work.record), v.work.record)
  {
    HeldHere(v.remote.State(), upstream);
    err := v.SetMark(Some(upstream));
    ghost var marked := v.past;
    if !err {
      Restore(v);
      ExtendsTransitive(v.past, marked, old(v.past));
    }
    v.Since();
  }

  /** Takes upstream, and moves the mark with it because the remote holds
      everything the tree now holds. */
  method TakeUpstream(v: Volume, upstream: Commit) returns (err: bool, reset: bool)
    requires v.Valid() && v.work.present && !v.published
    requires Upstream(v.remote.State(), v.work.Tree().value, upstream) && Ancestor(v.work.head, upstream)
    modifies v`faults, v`refusals, v`past, v.remote, v.work`head, v.work`files, v.work`sight, v.work`mark
    modifies v.work`blind, v.work`record
    ensures v.Valid() && Extends(v.past, old(v.past)) && v.MarkKept()
    ensures v.work.head == if reset then upstream else old(v.work.head)
    ensures v.work.files
            == if reset then ResetFiles(old(v.work.files), old(v.work.head), upstream) else old(v.work.files)
    ensures !reset ==> v.past == old(v.past)
    ensures !err ==> reset && v.work.mark == Some(upstream) && !v.work.blind
    ensures !err ==> Rejoined(v.remote.State(), v.work.Tree().value)
    ensures v.work.id in v.remote.sides ==> v.work.id in old(v.remote.sides)
    ensures v.Counting()
    ensures v.refusals == old(v.refusals) && (err ==> v.faults > old(v.faults))
  {
    err := ResetTo(v, upstream);
    if err {
      return true, false;
    }
    ghost var moved := v.past;
    err := MarkAndRestore(v, upstream);
    ExtendsTransitive(v.past, moved, old(v.past));
    HistoryKeeps(v.work.id, v.past, moved);
    AncestorTransitive(upstream, moved.now.shared.tip, v.remote.tip);
    return err, true;
  }

  lemma HeldHere(r: Shared, c: Commit)
    requires c in r.tips
    ensures Held(r, c) && EditsHeld(r, c)
  {
    assert Ancestor(c, c);
    HeldHoldsEdits(r, c);
  }

  /** The rest of a heal at stage: the branch the remote still holds goes, and then
      the key. */
  method EndDivergence(v: Volume, side: bool) returns (err: bool)
    requires v.Valid() && v.work.present && !v.published && v.work.key && !v.diverged
    requires Rejoined(v.remote.State(), v.work.Tree().value)
    modifies v`faults, v`refusals, v`past, v`diverged, v.remote, v.work`files, v.work`sight, v.work`key
    ensures v.Valid() && Extends(v.past, old(v.past)) && v.Counting()
    ensures v.work.files == old(v.work.files) && !v.diverged
    ensures v.work.key == err && (err ==> v.faults > old(v.faults))
    ensures v.Smooth() && (side || v.work.id !in old(v.remote.sides)) ==> v.work.id !in v.remote.sides
  {
    if side {
      v.RemoveSide();
    }
    ghost var removed := v.past;
    err := v.Healed();
    ExtendsTransitive(v.past, removed, old(v.past));
  }

  /** Ends a divergence at stage: takes upstream, deletes the side branch the
      remote still holds, and clears the key. */
  method Heal(v: Volume, upstream: Commit, side: bool) returns (err: bool, reset: bool)
    requires v.Valid() && v.work.present && !v.published && v.work.key && !v.diverged
    requires Upstream(v.remote.State(), v.work.Tree().value, upstream) && Ancestor(v.work.head, upstream)
    modifies v`faults, v`refusals, v`past, v`diverged, v.remote, v.work`head, v.work`files, v.work`sight
    modifies v.work`mark, v.work`blind, v.work`key, v.work`record
    ensures v.Valid() && Extends(v.past, old(v.past)) && v.MarkKept()
    ensures v.work.head == if reset then upstream else old(v.work.head)
    ensures v.work.files
            == if reset then ResetFiles(old(v.work.files), old(v.work.head), upstream) else old(v.work.files)
    ensures !reset ==> v.past == old(v.past)
    ensures !err ==> reset && v.work.mark == Some(upstream) && !v.work.key && !v.diverged
    ensures err ==> v.work.key == old(v.work.key) && v.diverged == old(v.diverged)
    ensures v.Counting()
    ensures err ==> v.faults > old(v.faults)
    ensures v.Smooth() && (side || v.work.id !in old(v.remote.sides)) ==> v.work.id !in v.remote.sides
    // Upstream alone holds what the deleted branch held, when the tree did.
    ensures SideCovered(v.work.id, old(v.Now())) && v.work.id in old(v.remote.sides) ==>
              Changes(old(v.remote.sides)[v.work.id]) <= Changes(upstream)
  {
    ChangesGrow(v.work.head, upstream);
    err, reset := TakeUpstream(v, upstream);
    if err {
      return;
    }
    ghost var took := v.past;
    err := EndDivergence(v, side);
    ExtendsTransitive(v.past, took, old(v.past));
  }

  /** Puts the tree's own commits on top of upstream, or diverges with HEAD
      where it was. */
  method RebaseTree(v: Volume, upstream: Commit) returns (how: Reconciled)
    requires v.Valid() && v.work.present && !v.published
    requires Upstream(v.remote.State(), v.work.Tree().value, upstream)
    modifies v`faults, v`refusals, v`past, v`diverged, v.remote
    modifies v.work`head, v.work`files, v.work`sight, v.work`mark, v.work`blind, v.work`key, v.work`record
    ensures v.Valid() && Extends(v.past, old(v.past)) && v.MarkKept()
    ensures how in {Replays, Diverges, Breaks}
    ensures how.Diverges? ==> v.diverged && v.work.head == old(v.work.head) && v.work.mark == old(v.work.mark)
    ensures !how.Diverges? ==> v.diverged == old(v.diverged) && v.work.key == old(v.work.key)
    ensures !how.Diverges? ==> Chain(old(v.work.head), upstream) && Rebased(upstream, old(v.work.head), v.work.head)
    ensures how.Replays? ==> v.work.mark == Some(upstream) && !v.work.blind
    ensures Careful(v.past, old(v.past), false)
    ensures !how.Diverges? ==> v.TookFiles()
    // An uncommitted edit outlives the rebase exactly when its read-tree writes
    // neither the edit's path nor one that clashes with it.
    ensures !how.Diverges? ==>
              forall e :: e in old(Dirty(v.work.Tree().value)) && e !in Changes(v.work.head) ==>
                (e in v.work.files <==> !Overwrites(old(v.work.head), v.work.head, e.path))
    ensures v.Counting()
    ensures how.Breaks? ==> v.faults > old(v.faults)
    ensures how.Diverges? ==> !v.Smooth()
  {
    var err := v.RebaseAside(upstream);
    ghost var tried := v.past;
    if err {
      v.Diverge();
      ExtendsTransitive(v.past, tried, old(v.past));
      return Diverges;
    }
    err := MarkAndRestore(v, upstream);
    how := if err then Breaks else Replays;
    ExtendsTransitive(v.past, tried, old(v.past));
  }

  /** A diverged tree heals when upstream holds its HEAD, and holds otherwise. */
  method HealOrHold(v: Volume, upstream: Commit, side: bool) returns (how: Reconciled, failed: bool, reset: bool)
    requires v.Valid() && v.work.present && !v.published && v.work.key && !v.diverged
    requires Upstream(v.remote.State(), v.work.Tree().value, upstream)
    modifies v`faults, v`refusals, v`past, v`diverged, v.remote
    modifies v.work`head, v.work`files, v.work`sight, v.work`mark, v.work`blind, v.work`key, v.work`record
    ensures v.Valid() && Extends(v.past, old(v.past)) && v.MarkKept() && v.Counting()
    ensures how in {Holds, Heals, Breaks} && (!failed ==> (how.Holds? <==> !Ancestor(old(v.work.head), upstream)))
    ensures failed || how.Breaks? ==> v.faults > old(v.faults)
    ensures how.Holds? ==> v.work.Tree() == old(v.work.Tree()) && !reset
    ensures how.Heals? ==> v.work.head == upstream && v.work.mark == Some(upstream) && reset && !v.work.key
    ensures how.Heals? && v.Smooth() && (side || v.work.id !in old(v.remote.sides)) ==>
              v.work.id !in v.remote.sides
    ensures !reset ==> Careful(v.past, old(v.past), false)
    ensures v.diverged == how.Holds?
    ensures v.work.head == if reset then upstream else old(v.work.head)
    ensures reset ==> Ancestor(old(v.work.head), upstream)
    ensures v.work.files
            == if reset then ResetFiles(old(v.work.files), old(v.work.head), upstream) else old(v.work.files)
    // An uncommitted edit outlives a reset exactly when it writes neither the
    // edit's path nor one that clashes with it.
    ensures reset ==>
              forall e :: e in old(Dirty(v.work.Tree().value)) && e !in Changes(upstream) ==>
                (e in v.work.files <==> !Replaces(old(v.work.head), upstream, e.path))
    ensures how.Heals? && SideCovered(v.work.id, old(v.Now())) && v.work.id in old(v.remote.sides) ==>
              Changes(old(v.remote.sides)[v.work.id]) <= Changes(upstream)
  {
    var merged;
    merged, failed := AskAncestor(v, v.work.head, upstream);
    if !merged {
      v.diverged := true;
      v.Note(Parts);
      assert Careful(old(v.past), old(v.past), false);
      return Holds, failed, false;
    }
    var err;
    err, reset := Heal(v, upstream, side);
    how := if err then Breaks else Heals;
  }

  /** Whether status names nothing. A status git could not read counts as a clean
      tree. */
  method LooksClean(v: Volume) returns (clean: bool, failed: bool)
    requires v.work.present
    modifies v`faults
    ensures clean == (failed || Pending(v.work.Tree().value) == {})
    ensures v.faults == old(v.faults) + if failed then 1 else 0
  {
    var named := v.work.Status();
    failed := named.None?;
    if failed {
      v.faults := v.faults + 1;
    }
    clean := failed || named.value == {};
  }

  /** The rest of the table, for a tree that is not diverged. */
  method ReconcileKept(v: Volume, upstream: Commit) returns (how: Reconciled, failed: bool, reset: bool)
    requires v.Valid() && v.work.present && !v.published && !v.diverged
    requires Upstream(v.remote.State(), v.work.Tree().value, upstream)
    modifies v`faults, v`refusals, v`past, v`diverged, v`trouble, v.remote
    modifies v.work`head, v.work`files, v.work`sight, v.work`mark, v.work`blind, v.work`key, v.work`record
    ensures v.Valid() && Extends(v.past, old(v.past)) && v.MarkKept() && v.Counting()
    ensures how in {Level, Waits, Took, Replays, Diverges, Breaks}
    ensures !failed ==>
              how in (if Ancestor(upstream, old(v.work.head)) then {Level}
                      else if Pending(old(v.work.Tree().value)) != {} then {Waits}
                      else if Ancestor(old(v.work.head), upstream) then {Took, Breaks}
                      else {Replays, Diverges, Breaks})
    ensures failed || how.Breaks? ==> v.faults > old(v.faults)
    ensures how.Diverges? ==> !v.Smooth()
    ensures how in {Level, Waits} ==> v.work.Tree() == old(v.work.Tree())
    ensures how.Level? ==> Ancestor(upstream, v.work.head)
    ensures v.diverged == how.Diverges?
    ensures how.Waits? ==> v.trouble
    ensures v.trouble ==> old(v.trouble) || Pending(old(v.work.Tree().value)) != {}
    ensures how.Took? ==> v.work.head == upstream && v.work.mark == Some(upstream) && reset
    ensures how.Replays? ==>
              Chain(old(v.work.head), upstream) && Rebased(upstream, old(v.work.head), v.work.head)
              && v.work.mark == Some(upstream)
    ensures how.Diverges? ==> v.work.head == old(v.work.head) && v.work.mark == old(v.work.mark)
    ensures reset ==> v.work.head == upstream && Ancestor(old(v.work.head), upstream)
    ensures reset ==> v.work.files == ResetFiles(old(v.work.files), old(v.work.head), upstream)
    ensures !reset ==> Careful(v.past, old(v.past), false)
    ensures how.Replays? ==> v.TookFiles()
    ensures reset && !failed ==> Pending(old(v.work.Tree().value)) == {}
    ensures reset ==>
              forall e :: e in old(Dirty(v.work.Tree().value)) && e !in Changes(upstream) ==>
                (e in v.work.files <==> !Replaces(old(v.work.head), upstream, e.path))
  {
    reset, failed := false, false;
    var ahead, unanswered := AskAncestor(v, upstream, v.work.head);
    failed := failed || unanswered;
    if v.work.head == upstream || ahead {
      return Level, failed, false;
    }
    var clean, unread := LooksClean(v);
    failed := failed || unread;
    if !clean {
      v.trouble := true;
      return Waits, failed, false;
    }
    var behind;
    behind, unanswered := AskAncestor(v, v.work.head, upstream);
    failed := failed || unanswered;
    if behind {
      var err;
      err, reset := TakeUpstream(v, upstream);
      return if err then Breaks else Took, failed, reset;
    }
    how := RebaseTree(v, upstream);
  }

  /** The stage-time table. A diverged tree heals when upstream holds its HEAD
      and holds otherwise. Any other tree is left alone when it is level or
      ahead, waits when it has uncommitted edits, takes upstream when it is
      behind, and is rebased when it moved beside upstream. failed reports a git
      query that did not answer, and reset that the tree was reset. */
  method Reconcile(v: Volume, upstream: Commit, side: bool) returns (how: Reconciled, failed: bool, reset: bool)
    requires v.Valid() && v.work.present && !v.published && !v.diverged
    requires Upstream(v.remote.State(), v.work.Tree().value, upstream)
    modifies v`faults, v`refusals, v`past, v`diverged, v`trouble, v.remote
    modifies v.work`head, v.work`files, v.work`sight, v.work`mark, v.work`blind, v.work`key, v.work`record
    ensures v.Valid() && Extends(v.past, old(v.past)) && v.MarkKept()
    // Which row of the table the tree is in.
    ensures !failed && old(v.work.key) ==>
              how in (if Ancestor(old(v.work.head), upstream) then {Heals, Breaks} else {Holds})
    ensures !failed && !old(v.work.key) ==>
              how in (if Ancestor(upstream, old(v.work.head)) then {Level}
                      else if Pending(old(v.work.Tree().value)) != {} then {Waits}
                      else if Ancestor(old(v.work.head), upstream) then {Took, Breaks}
                      else {Replays, Diverges, Breaks})
    // Only a git that failed breaks off, and only a git that failed or a conflict
    // makes a tree diverge.
    ensures v.Counting()
    ensures failed || how.Breaks? ==> v.faults > old(v.faults)
    ensures how.Diverges? ==> !v.Smooth()
    // What each row leaves.
    ensures how in {Level, Waits, Holds} ==> v.work.Tree() == old(v.work.Tree())
    ensures how.Level? ==> Ancestor(upstream, v.work.head)
    ensures v.diverged == (how in {Holds, Diverges})
    ensures how.Waits? ==> v.trouble
    ensures v.trouble ==> old(v.trouble) || Pending(old(v.work.Tree().value)) != {}
    ensures how in {Took, Heals} ==> v.work.head == upstream && v.work.mark == Some(upstream) && reset
    ensures how.Heals? ==> !v.work.key
    ensures how.Replays? ==>
              Chain(old(v.work.head), upstream) && Rebased(upstream, old(v.work.head), v.work.head)
              && v.work.mark == Some(upstream)
    ensures how.Diverges? ==> v.work.head == old(v.work.head) && v.work.mark == old(v.work.mark)
    // When the files are rewritten, and what that costs.
    ensures reset ==> v.work.head == upstream && Ancestor(old(v.work.head), upstream)
    ensures reset ==> v.work.files == ResetFiles(old(v.work.files), old(v.work.head), upstream)
    ensures !reset ==> Careful(v.past, old(v.past), false)
    ensures how.Replays? ==> v.TookFiles()
    ensures reset && !failed ==> old(v.work.key) || Pending(old(v.work.Tree().value)) == {}
    ensures how.Heals? && v.Smooth() && (side || v.work.id !in old(v.remote.sides)) ==>
              v.work.id !in v.remote.sides
    // An uncommitted edit outlives a reset exactly when it writes neither the
    // edit's path nor one that clashes with it.
    ensures reset ==>
              forall e :: e in old(Dirty(v.work.Tree().value)) && e !in Changes(upstream) ==>
                (e in v.work.files <==> !Replaces(old(v.work.head), upstream, e.path))
    ensures how.Heals? && SideCovered(v.work.id, old(v.Now())) && v.work.id in old(v.remote.sides) ==>
              Changes(old(v.remote.sides)[v.work.id]) <= Changes(upstream)
  {
    var branch := v.work.ReadKey();
    failed := branch != v.work.key;
    if failed {
      v.faults := v.faults + 1;
    }
    if branch {
      how, failed, reset := HealOrHold(v, upstream, side);
      return;
    }
    var unanswered;
    how, unanswered, reset := ReconcileKept(v, upstream);
    failed := failed || unanswered;
  }

  /** The whole stage of a writeable volume. A tree the node does not hold is
      made at the ref; one it holds is reconciled. */
  method StageTree(v: Volume) returns (err: bool, ghost answer: bool, ghost missing: bool)
    requires v.Valid() && !v.published
    modifies v, v.remote, v.work
    ensures v.Valid() && !v.published
    ensures old(v.work.present) ==> Extends(v.past, old(v.past)) && Changes(old(v.work.head)) <= Changes(v.work.head)
    ensures !err ==> v.work.present && (v.work.mark.Some? || v.refDeleted)
    ensures !err && !v.refDeleted && !old(v.work.present) ==>
              v.work.head in v.remote.tips && Ancestor(old(v.remote.tip), v.work.head)
              && v.work.mark == Some(v.work.head) && !v.work.blind && v.work.files == Changes(v.work.head)
    // A fetch that did not work leaves the tree alone. Of one that finds the ref
    // deleted only a tree that is not there or a HEAD that was not read makes a
    // failure, and the pushes stop; of any other there is no success.
    ensures !answer ==> v.work.Tree() == old(v.work.Tree())
    ensures !answer ==> (err <==> !missing || !v.work.present || v.faults > old(v.faults) + 1)
    ensures v.refDeleted <==> !answer && !err
    ensures v.Counting()
    ensures err ==> v.faults > old(v.faults) || old(v.work.unborn)
    // A creation that failed part way leaves a tree that no stage makes again.
    ensures old(v.work.unborn) && !old(v.work.present) ==> err && v.work.unborn && !v.work.present
    ensures !err && !v.refDeleted && !v.diverged && !v.trouble ==> Ancestor(old(v.remote.tip), v.work.head)
    // It waits only for edits that status names.
    ensures v.trouble ==> old(v.work.present) && Pending(old(v.work.Tree().value)) != {}
    ensures old(v.work.present) && v.work.blind && !old(v.work.blind) ==>
              old(v.work.mark).None? || v.faults > old(v.faults)
  {
    v.Reset();
    ghost var made := v.past;
    v.Others();
    ghost var fetched := v.past;
    var answered: bool, deleted: bool := *, *;
    answer, missing := answered, deleted;
    if !answered {
      err := NoAnswer(v, deleted);
      if v.work.present {
        ExtendsTransitive(v.past, fetched, made);
        ExtendsTransitive(v.past, made, old(v.past));
        v.Since();
      }
      return;
    }
    var upstream := v.remote.tip;
    if !v.work.Exists() {
      err := MakeTree(v, upstream);
      return;
    }
    err := StageStanding(v, upstream);
    if !err && !v.diverged && !v.trouble {
      AncestorTransitive(old(v.remote.tip), upstream, v.work.head);
    }
    if v.work.present {
      ExtendsTransitive(v.past, fetched, made);
      ExtendsTransitive(v.past, made, old(v.past));
      v.Since();
    }
  }

  /** The side branch of a tree whose key names one, if it could be fetched. */
  method FetchSide(v: Volume) returns (side: bool)
    modifies v`faults
    ensures side ==> v.work.key && v.work.id in v.remote.sides
    ensures v.work.key && v.work.id in v.remote.sides && v.faults == old(v.faults) ==> side
    ensures old(v.faults) <= v.faults
  {
    var branch := v.work.ReadKey();
    var failed: bool := *;
    if branch != v.work.key || failed {
      v.faults := v.faults + 1;
    }
    side := branch && v.work.id in v.remote.sides && !failed;
  }

  /** A tree that is there, with the side branch the fetch may have found. One with
      no HEAD to read fails the stage. */
  method StageStanding(v: Volume, upstream: Commit) returns (err: bool)
    requires v.Valid() && !v.published && !v.diverged && !v.trouble && v.work.Exists() && upstream == v.remote.tip
    modifies v`faults, v`refusals, v`past, v`diverged, v`trouble, v.remote
    modifies v.work`head, v.work`files, v.work`sight, v.work`mark, v.work`blind, v.work`key, v.work`record
    ensures v.Valid() && v.Counting()
    ensures if v.work.present then Extends(v.past, old(v.past)) else err && !v.trouble
    ensures !err ==> v.work.mark.Some?
    ensures err ==> v.faults > old(v.faults)
    // A divergence that ended took its side branch with it.
    ensures !err && old(v.work.key) && !v.work.key && v.Smooth() ==> v.work.id !in v.remote.sides
    ensures !err && !v.diverged && !v.trouble ==> Ancestor(upstream, v.work.head)
    ensures v.trouble ==> v.work.present && Pending(old(v.work.Tree().value)) != {}
    ensures v.work.present && v.work.blind && !old(v.work.blind) ==> old(v.work.mark).None? || v.faults > old(v.faults)
  {
    var side := FetchSide(v);
    var head := v.Head();
    if head.None? {
      return true;
    }
    err := StageKept(v, upstream, side);
  }

  /** A fetch that did not work: a remote that holds the ref no longer leaves the
      tree as it is and stops every push, and any other failure fails the stage. */
  method NoAnswer(v: Volume, missing: bool) returns (err: bool)
    requires v.Valid() && !v.refDeleted
    modifies v`faults, v`refDeleted
    ensures v.Valid() && v.Counting() && v.past == old(v.past)
    ensures err ==> v.faults > old(v.faults)
    ensures err <==> !missing || !v.work.present || v.faults > old(v.faults) + 1
    ensures v.refDeleted <==> !err
  {
    if v.work.Exists() && missing {
      var head := v.Head();
      if head.Some? {
        v.refDeleted := true;
        return false;
      }
    }
    v.faults := v.faults + 1;
    return true;
  }

  method MakeTree(v: Volume, upstream: Commit) returns (err: bool)
    requires v.Valid() && !v.published && !v.work.Exists() && upstream == v.remote.tip
    modifies v`faults, v`refusals, v`past, v.remote, v.work
    ensures v.Valid()
    ensures !err ==>
              v.work.Tree().Some? && v.work.head == upstream && upstream in v.remote.tips
              && v.work.mark == Some(upstream) && !v.work.blind && v.work.files == Changes(upstream)
    ensures v.Counting()
    ensures err ==> v.faults > old(v.faults)
  {
    err := v.work.Create(upstream);
    if err {
      v.faults := v.faults + 1;
      return;
    }
    v.Note(Creates(upstream, v.work.sight));
    v.NowIsSound();
    err := MarkAndRestore(v, upstream);
  }

  /** A stage that reads no mark marks HEAD, as if the remote held whatever the
      tree does. The mark it leaves is settled exactly when the remote did. */
  method ReadMark(v: Volume, ghost upstream: Commit) returns (err: bool)
    requires v.Valid() && v.work.present && upstream == v.remote.tip
    modifies v`faults, v`past, v.remote, v.work`files, v.work`sight, v.work`mark, v.work`blind
    ensures v.Valid() && Extends(v.past, old(v.past)) && old(v.faults) <= v.faults
    ensures Upstream(v.remote.State(), v.work.Tree().value, upstream)
    ensures v.work.id in v.remote.sides ==> v.work.id in old(v.remote.sides)
    ensures err ==> v.faults > old(v.faults)
    ensures !err ==> v.work.mark.Some?
    ensures (v.work.mark == old(v.work.mark) && v.work.blind == old(v.work.blind))
            || (!err && v.work.mark == Some(v.work.head)
                && v.work.blind == !Held(old(v.remote.State()), v.work.head)
                && (old(v.work.mark).None? || v.faults > old(v.faults)))
    ensures !v.published ==> v.work.files == old(v.work.files) && v.work.sight == old(v.work.sight)
  {
    var mark := v.work.ReadMark();
    if mark.None? && v.work.mark.Some? {
      v.faults := v.faults + 1;
    }
    err := false;
    ghost var t := v.work.Tree().value;
    if mark.None? {
      err := v.work.MarkHead(v.remote.State());
      if err {
        v.faults := v.faults + 1;
      } else {
        v.NoteMarkHead(t);
      }
    }
    ghost var read := v.past;
    v.NowIsSound();
    TipIsUpstream(v.remote.State(), v.work.Tree().value);
    v.Wait(upstream);
    ExtendsTransitive(v.past, read, old(v.past));
  }

  method StageKept(v: Volume, upstream: Commit, side: bool) returns (err: bool)
    requires v.Valid() && !v.published && !v.diverged && !v.trouble && v.work.present && upstream == v.remote.tip
    modifies v`faults, v`refusals, v`past, v`diverged, v`trouble, v.remote
    modifies v.work`head, v.work`files, v.work`sight, v.work`mark, v.work`blind, v.work`key, v.work`record
    ensures v.Valid() && Extends(v.past, old(v.past))
    ensures !err ==> v.work.mark.Some?
    ensures v.Counting()
    ensures err ==> v.faults > old(v.faults)
    ensures !err && old(v.work.key) && !v.work.key && v.Smooth() && (side || v.work.id !in old(v.remote.sides)) ==>
              v.work.id !in v.remote.sides
    ensures !err && !v.diverged && !v.trouble ==> Ancestor(upstream, v.work.head)
    ensures v.trouble ==> Pending(old(v.work.Tree().value)) != {}
    ensures v.work.blind && !old(v.work.blind) ==>
              (old(v.work.mark).None? || v.faults > old(v.faults))
              && !Held(old(v.remote.State()), old(v.work.head)) && !Ancestor(old(v.work.head), upstream)
  {
    v.NowIsSound();
    if Ancestor(v.work.head, upstream) {
      HeldHere(v.remote.State(), upstream);
      HeldBelow(v.remote.State(), upstream, v.work.head);
    }
    err := ReadMark(v, upstream);
    if err {
      return;
    }
    ghost var marked := v.past;
    err := StageMarked(v, upstream, side);
    ExtendsTransitive(v.past, marked, old(v.past));
  }

  /** What the table means to a stage: a tree above upstream, or one that diverged or
      waits. */
  method StageMarked(v: Volume, upstream: Commit, side: bool) returns (err: bool)
    requires v.Valid() && !v.published && !v.diverged && !v.trouble && v.work.present
    requires Upstream(v.remote.State(), v.work.Tree().value, upstream)
    modifies v`faults, v`refusals, v`past, v`diverged, v`trouble, v.remote
    modifies v.work`head, v.work`files, v.work`sight, v.work`mark, v.work`blind, v.work`key, v.work`record
    ensures v.Valid() && Extends(v.past, old(v.past)) && v.MarkKept() && v.Counting()
    ensures err ==> v.faults > old(v.faults)
    ensures !err && old(v.work.key) && !v.work.key && v.Smooth() && (side || v.work.id !in old(v.remote.sides)) ==>
              v.work.id !in v.remote.sides
    ensures !err && !v.diverged && !v.trouble ==> Ancestor(upstream, v.work.head)
    ensures v.trouble ==> Pending(old(v.work.Tree().value)) != {}
  {
    var how, failed, reset := Reconcile(v, upstream, side);
    err := how.Breaks?;
    if how.Replays? {
      RebaseKeepsBoth(upstream, old(v.work.head), v.work.head);
    }
  }

  /** The class's ignore list is written, and the status read under it. */
  method Exclude(v: Volume) returns (named: Option<set<Edit>>)
    requires v.Valid() && v.work.present
    modifies v`faults, v`past, v.work`sight
    ensures v.Valid() && Extends(v.past, old(v.past))
    ensures v.work.Tree() == Some(old(v.work.Tree().value).(sight := v.work.sight))
    ensures v.work.sight.missing == old(v.work.sight).missing
    ensures named.Some? ==> named.value == Pending(v.work.Tree().value)
    ensures v.faults == old(v.faults) + if named.None? then 1 else 0
  {
    var err := v.work.Exclude();
    v.Note(Excludes(v.work.sight.ignored));
    named := None;
    if err {
      v.faults := v.faults + 1;
    } else {
      named := v.work.Status();
      if named.None? {
        v.faults := v.faults + 1;
      }
    }
  }

  /** The commit of what was staged, if anything was. */
  method CommitNamed(v: Volume, staged: set<Edit>) returns (err: bool)
    requires v.Valid() && v.work.present && staged <= Dirty(v.work.Tree().value)
    modifies v`faults, v`past, v.work`head
    ensures v.Valid() && Extends(v.past, old(v.past))
    ensures !err ==> Changes(v.work.head) == Changes(old(v.work.head)) + staged
    ensures err ==> v.work.head == old(v.work.head)
    ensures v.faults == old(v.faults) + if err then 1 else 0
  {
    if staged == {} {
      return false;
    }
    v.NowIsSound();
    ghost var before := v.work.head;
    err := v.work.CommitStaged(staged);
    if err {
      v.faults := v.faults + 1;
    } else {
      ChainOnHead(before, v.remote.tip, staged, v.work.head.tree);
      v.Note(Commits(staged, v.work.head.tree));
    }
  }

  /** What an armed volume commits when its tree rests: of the edits that status
      names, under the ignore list just written, those the size guard lets through.
      It never asks for a mark. */
  method CommitTree(v: Volume, fits: set<Edit>) returns (err: bool, ghost sight: Sight)
    requires v.Valid() && v.work.present
    modifies v`faults, v`refusals, v`past, v.remote, v.work`head, v.work`files, v.work`sight
    ensures v.Valid() && Extends(v.past, old(v.past))
    ensures sight.missing == old(v.work.sight).missing
    ensures !err ==>
              Changes(v.work.head)
                == Changes(old(v.work.head)) + Pending(old(v.work.Tree().value).(sight := sight)) * fits
    ensures err ==> v.work.head == old(v.work.head)
    ensures !v.published ==> v.work.files == old(v.work.files) && v.work.sight == sight
    ensures v.Counting()
    ensures err ==> v.faults > old(v.faults)
  {
    var named := Exclude(v);
    sight := v.work.sight;
    err := named.None?;
    ghost var seen := v.past;
    if !err {
      err := CommitNamed(v, named.value * fits);
    }
    ghost var committed := v.past;
    v.Others();
    ExtendsTransitive(committed, seen, old(v.past));
    ExtendsTransitive(v.past, committed, old(v.past));
  }

  lemma BelowHolds(r: Shared, c: Commit, tip: Commit)
    requires tip in r.tips && Ancestor(c, tip)
    ensures EditsHeld(r, c)
  {
    assert Held(r, c);
    HeldHoldsEdits(r, c);
  }

  lemma MarkHoldsHead(r: Shared, t: Local)
    requires TreeSound(r, t) && t.mark.Some? && !t.blind && Ancestor(t.head, t.mark.value)
    ensures EditsHeld(r, t.head)
  {
    var held :| held in r.tips && Changes(t.mark.value) <= Changes(held);
    ChangesGrow(t.head, t.mark.value);
    assert Changes(t.head) <= Changes(held);
  }

  /** The push of an unpublish and of an unstage, which asks no policy. A tree
      whose every commit the mark names is not pushed, nor is one whose commits
      git could not count, which is every tree with no mark. */
  method PushAll(v: Volume) returns (pushed: bool)
    requires v.Valid() && v.work.present
    modifies v`faults, v`refusals, v`past, v`sends, v`diverged, v`trouble, v.remote
    modifies v.work`head, v.work`files, v.work`sight, v.work`key, v.work`mark, v.work`blind, v.work`record
    modifies v.work`remoteRecord
    ensures v.Valid() && Extends(v.past, old(v.past))
    ensures pushed && !old(v.work.blind) ==> EditsHeld(v.remote.State(), v.work.head)
    ensures v.EditsOutlive()
    ensures v.Counting()
    ensures !pushed ==> v.credentialLost || v.refDeleted || old(v.work.mark).None? || !v.Smooth()
    // Nothing is sent of a tree with nothing to push, or with no credential, which
    // the volume then reports.
    ensures old(v.work.mark).None? || Ancestor(old(v.work.head), old(v.work.mark).value) || v.credentialLost ==>
              v.sends == old(v.sends) && v.work.Tree() == old(v.work.Tree())
    ensures v.credentialLost && v.faults == old(v.faults) && old(v.work.mark).Some?
            && !Ancestor(old(v.work.head), old(v.work.mark).value) ==>
              v.trouble
  {
    v.CarefulOutlives();
    var uncounted: bool := *;
    if uncounted {
      v.faults := v.faults + 1;
    }
    if uncounted || v.work.mark.None? {
      return false;
    }
    if Ancestor(v.work.head, v.work.mark.value) {
      if !v.work.blind {
        v.NowIsSound();
        MarkHoldsHead(v.remote.State(), v.work.Tree().value);
      }
      return true;
    }
    if v.credentialLost {
      v.trouble := true;
      return false;
    }
    var outcome, marked := v.PushNow();
    pushed := outcome.OnRef? || outcome.OnSide?;
    v.NowIsSound();
    if outcome.OnRef? {
      BelowHolds(v.remote.State(), v.work.head, v.remote.tip);
    } else if outcome.OnSide? {
      HeldHere(v.remote.State(), v.work.head);
    }
  }

  /** A driver that restarts keeps the disk and forgets its memory: a diverged
      tree it resumes has its key and no diverged branch. */
  method Restart(v: Volume, needsCredential: bool)
    requires v.Valid() && v.work.present
    modifies v`past, v`diverged, v`refDeleted, v`credentialLost, v`trouble
    ensures v.Valid() && Extends(v.past, old(v.past))
    ensures !v.diverged && !v.refDeleted && v.credentialLost == needsCredential
  {
    v.Reset();
    v.credentialLost := needsCredential;
  }

  /** Removes a tree nothing holds any more. It asks the tree alone, never the
      remote: the mark names HEAD and no key is read. */
  method Sweep(v: Volume, held: bool, aged: bool) returns (gone: bool)
    requires v.Valid()
    modifies v`faults, v`refusals, v`past, v.work`present
    ensures v.Valid() && old(v.faults) <= v.faults
    ensures gone ==>
              old(v.work.present) && !v.work.present && !held && aged && v.work.mark == Some(v.work.head)
              && (v.work.key ==> v.faults > old(v.faults))
    // What a sweep costs: nothing, unless the mark is blind.
    ensures gone && !v.work.blind ==> forall x :: Ancestor(x, v.work.head) ==> Held(v.remote.State(), x)
    ensures !gone ==> v.work.present == old(v.work.present) && v.past == old(v.past)
    ensures v.faults == old(v.faults) && !gone ==>
              held || !aged || !old(v.work.present) || v.work.mark != Some(v.work.head) || v.work.key
  {
    if held || !v.work.Exists() || !aged {
      return false;
    }
    var head := v.Head();
    if head.None? {
      return false;
    }
    var mark := v.work.ReadMark();
    var key := v.work.ReadKey();
    if mark != v.work.mark || key != v.work.key {
      v.faults := v.faults + 1;
    }
    if mark != head || key {
      return false;
    }
    if !v.work.blind {
      v.NowIsSound();
      HeadTaken(v.remote.State(), v.work.head);
    }
    var err := v.work.Remove();
    if err {
      v.faults := v.faults + 1;
    } else {
      v.Note(Sweeps);
    }
    return !err;
  }

  /** A settled mark on HEAD: the remote held all of it. */
  lemma HeadTaken(r: Shared, head: Commit)
    requires Settled(r, head, head)
    ensures forall x :: Ancestor(x, head) ==> Held(r, x)
  {
    forall x | Ancestor(x, head)
      ensures Held(r, x)
    {
      HeldBelow(r, head, x);
    }
  }
}
