// The write-back driver of one volume: it pushes, rebases and pushes again,
// takes a side branch, heals, reconciles at stage, and sweeps. Between any two
// git operations the rest of the world acts.

module WriteBack {
  import opened Wrappers
  import opened Checkout
  import opened Git
  import opened Protocol
  import opened Repositories

  const REBASE_ATTEMPTS := 3

  /** What one push came to. */
  datatype Outcome =
    | Skipped
    | OnRef
    | OnSide
    | Failed

  /** What reconcile found and did. */
  datatype Reconciled =
    | Level
    | Waits
    | Took
    | Replays
    | Diverges
    | Holds
    | Heals
    | Breaks

  /** A commit of the ref the driver fetched, usable until the tree or the mark
      moves: the tree's own commits stand in one line above it, and a tree that
      takes it leaves a mark the remote never held behind for good. */
  predicate Upstream(r: Shared, t: Local, u: Commit)
  {
    u in r.tips && Ancestor(u, r.tip) && Chain(t.head, u)
    && (t.mark.Some? && !t.blind ==>
          EditsHeld(r, t.mark.value) && (Held(r, t.mark.value) || !Ancestor(u, t.mark.value)))
  }

  lemma TipIsUpstream(r: Shared, t: Local)
    requires Named(r) && TreeSound(r, t)
    ensures Upstream(r, t, r.tip)
  {
    if t.mark.Some? && !t.blind && !Held(r, t.mark.value) && Ancestor(r.tip, t.mark.value) {
      var u :| u in r.tips && Ancestor(u, r.tip) && Ancestor(u, t.head) && !Ancestor(u, t.mark.value);
      AncestorTransitive(u, r.tip, t.mark.value);
    }
  }

  lemma UpstreamStays(id: string, s: Snap, s': Snap, u: Commit)
    requires Elsewhere(id, s, s') && s.local.Some? && Upstream(s.shared, s.local.value, u)
    ensures Upstream(s'.shared, s'.local.value, u)
  {
    var r, r', mark := s.shared, s'.shared, s.local.value.mark;
    AncestorTransitive(u, r.tip, r'.tip);
    if mark.Some? && !s.local.value.blind {
      var t :| t in r.tips && Changes(mark.value) <= Changes(t);
      assert t in r'.tips;
      if Held(r, mark.value) {
        HeldStays(r, r', mark.value);
      }
    }
  }

  /** The tree after a read-tree, with HEAD moved or not. */
  function AfterRead(t: Local, to: Commit, moved: bool, sight: Sight): Local
  {
    t.(head := if moved then to else t.head, files := Taken(t.files, t.head, to), sight := sight)
  }

  /** HEAD may move to any commit above upstream. */
  lemma UpstreamSettles(r: Shared, t: Local, u: Commit, to: Commit)
    requires Upstream(r, t, u) && Ancestor(u, to) && Chain(to, u)
    ensures (t.mark.Some? && !t.blind ==> Settled(r, to, t.mark.value)) && Chain(to, r.tip)
  {
    ChainAbove(to, u, r.tip);
  }

  /** A read-tree of a commit above upstream, whose update-ref worked or not, is a
      step of the protocol. */
  lemma ReadIsStep(id: string, r: Shared, t: Local, diverged: bool, u: Commit, to: Commit, moved: bool, sight: Sight)
    requires Upstream(r, t, u) && Ancestor(u, to) && Chain(to, u)
    requires Changes(t.head) <= Changes(to) && Allows(t, to) && Restored(t.head, to, t.sight, sight)
    ensures var s' := Snap(r, Some(AfterRead(t, to, moved, sight)), diverged);
            Step(id, if moved then Takes(to, sight) else Spills(to, sight), Snap(r, Some(t), diverged), s')
    ensures Upstream(r, AfterRead(t, to, moved, sight), u)
  {
    UpstreamSettles(r, t, u, to);
  }

  lemma ElsewhereTransitive(id: string, s: Snap, s': Snap, s'': Snap)
    requires Elsewhere(id, s, s') && Elsewhere(id, s', s'')
    ensures Elsewhere(id, s, s'')
  {
    AncestorTransitive(s.shared.tip, s'.shared.tip, s''.shared.tip);
    if s.shared.record.Some? {
      AncestorTransitive(s.shared.record.value, s'.shared.record.value, s''.shared.record.value);
    }
  }

  /** The pushes to the ref and to the side branch, and of those the ones that had no
      credential, the ones that broke on the way, the ones the remote declined, and
      the ones whose answer reads as a rejection. */
  datatype Sends = Sends(ref: nat, side: nat, unsent: nat, broken: nat, declined: nat, rejected: nat)

  class Volume {
    const work: WorkTree
    const remote: Remote
    // The diverged branch in memory, which a restart forgets.
    var diverged: bool
    var refDeleted: bool
    var credentialLost: bool
    // A pod holds the tree and may write it at any time.
    var published: bool
    var trouble: bool
    // Every state of the remote and the tree, in order.
    ghost var past: History
    // The pushes sent, and what became of them.
    ghost var sends: Sends
    // What else went wrong on the way: git, the disk or a fetch failed, or
    // someone refused, which is a rebase that conflicted or a read-tree over a
    // path the pod has written.
    ghost var faults: nat
    ghost var refusals: nat

    ghost function Now(): Snap
      reads this, work, remote
    {
      Snap(remote.State(), work.Tree(), diverged)
    }

    ghost predicate Valid()
      reads this, work, remote
    {
      IsHistory(work.id, past) && past.now == Now()
    }

    constructor (work: WorkTree, remote: Remote)
      requires work.Tree() == None && Named(remote.State())
      ensures Valid() && this.work == work && this.remote == remote
      ensures !diverged && !refDeleted && !credentialLost && !published && !trouble
      ensures past == Start(Now())
    {
      this.work, this.remote := work, remote;
      diverged, refDeleted, credentialLost, published, trouble := false, false, false, false, false;
      past, sends := Start(Snap(remote.State(), work.Tree(), false)), Sends(0, 0, 0, 0, 0, 0);
      faults, refusals := 0, 0;
    }

    /** Records the git operation the driver just made. */
    ghost method Note(a: Action)
      requires IsHistory(work.id, past)
      requires Step(work.id, a, past.now, Now())
      modifies this`past
      ensures Valid() && past == Then(old(past), Some(a), Now())
    {
      past := Then(past, Some(a), Now());
    }

    /** The moment between two git operations. */
    method Others()
      requires Valid()
      modifies this`past, remote, work`files, work`sight
      ensures Valid() && past == Then(old(past), None, Now())
      ensures Elsewhere(work.id, old(Now()), Now())
      ensures !published ==> work.files == old(work.files) && work.sight == old(work.sight)
      ensures work.present ==> Extends(past, old(past)) && Careful(past, old(past), published)
    {
      HistoryKeepsSound(work.id, past);
      remote.Serve(work.id);
      if published && work.present {
        work.PodWrites();
      }
      past := Then(past, None, Now());
      assert Careful(old(past), old(past), published);
    }

    /** A new volume object for the same tree, which a stage and a restart make:
        nothing the last one remembered is left. */
    method Reset()
      requires Valid()
      modifies this`past, this`diverged, this`refDeleted, this`credentialLost, this`trouble
      ensures Valid() && (work.present ==> Extends(past, old(past)))
      ensures Now() == old(Now()).(diverged := false)
      ensures !diverged && !refDeleted && !credentialLost && !trouble
    {
      diverged, refDeleted, credentialLost, trouble := false, false, false, false;
      Note(Forgets);
    }

    /** The remote only moved forward and the tree kept its work since then. */
    twostate lemma Since()
      requires old(Valid()) && Valid() && Extends(past, old(past)) && old(work.present)
      ensures Ancestor(old(remote.tip), remote.tip) && old(remote.tips) <= remote.tips
      ensures work.present && Changes(old(work.head)) <= Changes(work.head)
    {
      HistoryKeeps(work.id, past, old(past));
    }

    lemma NowIsSound()
      requires Valid()
      ensures Sound(Now())
    {
      HistoryKeepsSound(work.id, past);
    }

    /** Nothing failed and nobody refused since then. */
    twostate predicate Smooth()
      reads this
    {
      faults == old(faults) && refusals == old(refusals)
      && sends.unsent == old(sends.unsent) && sends.broken == old(sends.broken)
      && sends.declined == old(sends.declined)
    }

    /** A send broke or was declined since then. */
    twostate predicate TurnedAway()
      reads this
    {
      sends.unsent > old(sends.unsent) || Answered()
    }

    /** Of those, one that went out. */
    twostate predicate Answered()
      reads this
    {
      sends.broken > old(sends.broken) || sends.declined > old(sends.declined)
    }

    /** Something else went wrong since then. */
    twostate predicate Hindered()
      reads this
    {
      faults > old(faults) || refusals > old(refusals)
    }

    /** What a push that began with a send to the ref did about it. It fails only
        after a send that was turned away, and with the volume not diverged only
        after one that broke or had no credential. Without an answer that reads as a
        rejection it sends once and does not diverge. It diverges only after the send
        and the one of each rebase were turned away, or after a rebase that could not
        be made. */
    twostate predicate Tried(failed: bool)
      reads this
    {
      (failed ==> TurnedAway())
      && (failed && !diverged ==> sends.unsent > old(sends.unsent) || sends.broken > old(sends.broken))
      && (sends.rejected == old(sends.rejected) ==>
            sends.ref <= old(sends.ref) + 1 && (diverged ==> sends.ref == old(sends.ref)))
      && (diverged && sends.ref > old(sends.ref) && !Hindered() ==>
            sends.ref == old(sends.ref) + 1 + REBASE_ATTEMPTS)
    }

    twostate predicate Counting()
      reads this
    {
      old(faults) <= faults && old(refusals) <= refusals
      && old(sends.unsent) <= sends.unsent && old(sends.broken) <= sends.broken
      && old(sends.declined) <= sends.declined && old(sends.rejected) <= sends.rejected
    }

    /** A mark that was there still is, and no stage set a blind one. */
    twostate predicate MarkKept()
      reads this, work
    {
      (old(work.mark).Some? ==> work.mark.Some?) && (work.blind ==> old(work.blind))
    }

    ghost method Count(failed: bool, refused: bool)
      modifies this`faults, this`refusals
      ensures Counting() && (failed || refused <==> !Smooth())
    {
      faults := faults + if failed then 1 else 0;
      refusals := refusals + if refused then 1 else 0;
    }

    /** HEAD as git reads it now. */
    method Head() returns (c: Option<Commit>)
      modifies this`faults
      ensures c == None || c == Some(work.head)
      ensures !work.present ==> c == None
      ensures faults == old(faults) + if c.None? then 1 else 0
    {
      c := work.ReadHead();
      if c.None? {
        faults := faults + 1;
      }
    }

    /** The remote takes or refuses the branch. */
    method Land(side: bool) returns (accepted: bool)
      requires Valid() && work.present && diverged == side
      modifies this`past, remote
      ensures Valid() && Extends(past, old(past))
      ensures Careful(past, old(past), published)
      ensures accepted ==> work.head in remote.tips
      ensures accepted && !side ==> remote.tip == work.head
      ensures accepted && side ==> work.id in remote.sides && remote.sides[work.id] == work.head
      ensures side ==> remote.tip == old(remote.tip)
      ensures !side ==> remote.sides == old(remote.sides)
      ensures Ancestor(old(remote.tip), remote.tip) && old(remote.tips) <= remote.tips
      ensures remote.record == old(remote.record)
    {
      if side {
        accepted := remote.TakeSide(work.id, work.head);
      } else {
        accepted := remote.TakeBranch(work.head);
      }
      if accepted {
        Note(if side then LandsOnSide else LandsOnRef);
        assert Careful(old(past), old(past), published);
      }
    }

    /** And the record, when the tree has one. A metadata ref git cannot read
        counts as none: the push goes without it and still succeeds. */
    method LandRecord() returns (recorded: bool)
      requires Valid() && work.present
      modifies this`faults, this`past, remote
      ensures Valid() && Extends(past, old(past)) && Counting() && refusals == old(refusals)
      ensures Careful(past, old(past), published)
      ensures remote.tip == old(remote.tip) && remote.sides == old(remote.sides) && remote.tips == old(remote.tips)
      ensures recorded && faults == old(faults) && work.record.Some? ==> remote.record == work.record
      ensures work.record.None? ==> recorded
    {
      recorded := true;
      var unread: bool := *;
      if unread {
        faults := faults + 1;
      } else if work.record.Some? {
        recorded := remote.TakeRecord(work.record.value);
        if recorded {
          Note(LandsRecord);
          assert Careful(old(past), old(past), published);
        }
      }
    }

    /** The branch and the record, on their own terms. */
    method LandBoth(side: bool) returns (taken: bool)
      requires Valid() && work.present && diverged == side
      modifies this`faults, this`past, remote
      ensures Valid() && Extends(past, old(past)) && old(faults) <= faults
      ensures Careful(past, old(past), published)
      ensures taken && !side ==> remote.tip == work.head
      ensures taken && side ==> work.id in remote.sides && remote.sides[work.id] == work.head
      ensures taken ==> work.head in remote.tips
      ensures side ==> remote.tip == old(remote.tip)
      ensures Ancestor(old(remote.tip), remote.tip) && old(remote.tips) <= remote.tips
      ensures !side ==> remote.sides == old(remote.sides)
      ensures taken && faults == old(faults) && work.record.Some? ==> remote.record == work.record
    {
      var accepted := Land(side);
      ghost var landed := past;
      var recorded := LandRecord();
      ExtendsTransitive(past, landed, old(past));
      taken := accepted && recorded;
    }

    /** What git says of a push the remote took or declined. The connection may break
        after it, and what git prints may read as a rejection all the same. */
    method Report(taken: bool) returns (err: bool, rejected: bool)
      modifies this`sends
      ensures (!taken ==> rejected) && (rejected ==> err) && (err && taken ==> sends.broken > old(sends.broken))
      ensures sends == old(sends).(broken := sends.broken, declined := sends.declined, rejected := sends.rejected)
      ensures sends.rejected == old(sends.rejected) + (if rejected then 1 else 0)
      ensures old(sends.broken) <= sends.broken && old(sends.declined) <= sends.declined
      ensures err <==> sends.broken > old(sends.broken) || sends.declined > old(sends.declined)
    {
      var broken: bool := *;
      if broken {
        sends := sends.(broken := sends.broken + 1);
      }
      if !taken {
        sends := sends.(declined := sends.declined + 1);
      }
      err := broken || !taken;
      rejected := *;
      rejected := err && (rejected || !taken);
      if rejected {
        sends := sends.(rejected := sends.rejected + 1);
      }
    }

    /** One push of HEAD and of the metadata record. The remote takes or refuses
        each on its own, and a push that moved both can still report failure. */
    method SendTo(side: bool) returns (err: bool, rejected: bool)
      requires Valid() && work.present && diverged == side
      modifies this`faults, this`refusals, this`past, this`sends, remote
      ensures Valid() && Extends(past, old(past))
      ensures Careful(past, old(past), published)
      ensures sends.ref == old(sends.ref) + (if side then 0 else 1)
      ensures sends.side == old(sends.side) + (if side then 1 else 0)
      ensures rejected ==> err
      ensures !err && !side ==> remote.tip == work.head
      ensures !err && side ==> work.id in remote.sides && remote.sides[work.id] == work.head
      ensures !err ==> work.head in remote.tips
      ensures side ==> remote.tip == old(remote.tip)
      ensures Ancestor(old(remote.tip), remote.tip) && old(remote.tips) <= remote.tips
      ensures !side ==> remote.sides == old(remote.sides)
      ensures !err && faults == old(faults) && work.record.Some? ==> remote.record == work.record
      ensures Counting() && refusals == old(refusals)
      ensures err <==> TurnedAway()
      ensures err && !rejected ==> sends.unsent > old(sends.unsent) || sends.broken > old(sends.broken)
      ensures rejected ==> Answered()
      ensures sends.rejected == old(sends.rejected) + (if rejected then 1 else 0)
    {
      sends := if side then sends.(side := sends.side + 1) else sends.(ref := sends.ref + 1);
      var noCredential: bool := *;
      if noCredential {
        sends := sends.(unsent := sends.unsent + 1);
        return true, false;
      }
      var taken := LandBoth(side);
      err, rejected := Report(taken);
    }

    /** The moment between two git operations, in which the fetched commit stays
        usable. */
    method Wait(ghost upstream: Commit)
      requires Valid() && work.present && Upstream(remote.State(), work.Tree().value, upstream)
      modifies this`past, remote, work`files, work`sight
      ensures Valid() && Extends(past, old(past))
      ensures Careful(past, old(past), published)
      ensures !published ==> work.files == old(work.files) && work.sight == old(work.sight)
      ensures Elsewhere(work.id, old(Now()), Now())
      ensures Upstream(remote.State(), work.Tree().value, upstream)
    {
      Others();
      UpstreamStays(work.id, old(Now()), Now(), upstream);
    }

    /** The fetch itself: what the ref holds, and beside it the record if that could
        be fetched too. */
    method Fetch() returns (upstream: Option<Commit>)
      requires Valid() && work.present
      modifies this`faults, work`remoteRecord
      ensures Valid() && past == old(past) && Now() == old(Now())
      ensures upstream.Some? ==>
                upstream.value == remote.tip && Upstream(remote.State(), work.Tree().value, upstream.value)
      ensures faults == old(faults) + if upstream.None? then 1 else 0
    {
      var failed: bool := *;
      if failed {
        faults := faults + 1;
        return None;
      }
      upstream := Some(remote.tip);
      NowIsSound();
      TipIsUpstream(remote.State(), work.Tree().value);
      var fetched: bool := *;
      if fetched {
        work.remoteRecord := remote.record;
      }
    }

    /** Fetches the ref and the remote's record. */
    method FetchUpstream() returns (upstream: Option<Commit>)
      requires Valid() && work.present
      modifies this`faults, this`refusals, this`past, remote, work`files, work`sight, work`remoteRecord
      ensures Valid() && Extends(past, old(past))
      ensures Careful(past, old(past), published)
      ensures Elsewhere(work.id, old(Now()), Now())
      ensures !published ==> work.files == old(work.files) && work.sight == old(work.sight)
      ensures upstream.Some? ==>
                Upstream(remote.State(), work.Tree().value, upstream.value)
                && Ancestor(old(remote.tip), upstream.value)
      ensures Counting()
      ensures refusals == old(refusals) && (upstream.None? ==> faults > old(faults))
    {
      Others();
      upstream := Fetch();
      if upstream.None? {
        return;
      }
      ghost var fetched := past;
      Wait(upstream.value);
      ExtendsTransitive(past, fetched, old(past));
      ElsewhereTransitive(work.id, old(Now()), fetched.now, Now());
    }

    /** Records a read-tree of the tree as it was, whose update-ref worked or not. */
    ghost method NoteTake(t: Local, to: Commit, moved: bool, upstream: Commit)
      requires IsHistory(work.id, past) && past.now == Snap(remote.State(), Some(t), diverged)
      requires work.Tree() == Some(AfterRead(t, to, moved, work.sight))
      requires Upstream(remote.State(), t, upstream) && Ancestor(upstream, to) && Chain(to, upstream)
      requires Changes(t.head) <= Changes(to) && Allows(t, to) && Restored(t.head, to, t.sight, work.sight)
      modifies this`past
      ensures Valid() && Extends(past, old(past)) && Careful(past, old(past), published)
      ensures Upstream(remote.State(), work.Tree().value, upstream)
    {
      assert Careful(past, past, published);
      ReadIsStep(work.id, remote.State(), t, diverged, upstream, to, moved, work.sight);
      Note(if moved then Takes(to, work.sight) else Spills(to, work.sight));
    }

    /** Records a hard reset of the tree as it was. */
    ghost method NoteReset(t: Local, to: Commit)
      requires IsHistory(work.id, past) && past.now == Snap(remote.State(), Some(t), diverged)
      requires work.Tree() == Some(t.(head := to, files := ResetFiles(t.files, t.head, to), sight := work.sight))
      requires Upstream(remote.State(), t, to) && Ancestor(t.head, to)
      modifies this`past
      ensures Valid() && Extends(past, old(past))
      ensures Upstream(remote.State(), work.Tree().value, to)
    {
      assert Chain(to, to);
      UpstreamSettles(remote.State(), t, to, to);
      ChangesGrow(t.head, to);
      Note(Resets(to, work.sight));
    }

    /** Records a key set or cleared. */
    ghost method NoteKey(t: Local, on: bool)
      requires IsHistory(work.id, past) && past.now == Snap(remote.State(), Some(t), diverged)
      requires work.Tree() == Some(t.(key := on))
      modifies this`past
      ensures Valid() && Extends(past, old(past)) && Careful(past, old(past), published)
    {
      assert Careful(past, past, published);
      Note(Keys(on));
    }

    /** Records a mark set from HEAD. */
    ghost method NoteMarkHead(t: Local)
      requires IsHistory(work.id, past) && past.now == Snap(remote.State(), Some(t), diverged)
      requires work.Tree() == Some(t.(mark := Some(t.head), blind := !Held(remote.State(), t.head)))
      modifies this`past
      ensures Valid() && Extends(past, old(past)) && Careful(past, old(past), published)
    {
      assert Careful(past, past, published);
      Note(MarksHead);
    }

    /** Records a mark set to work the remote took. */
    ghost method NoteMark(t: Local, mark: Commit)
      requires IsHistory(work.id, past) && past.now == Snap(remote.State(), Some(t), diverged)
      requires work.Tree() == Some(t.(mark := Some(mark), blind := false)) && Settled(remote.State(), t.head, mark)
      modifies this`past
      ensures Valid() && Extends(past, old(past)) && Careful(past, old(past), published)
    {
      assert Careful(past, past, published);
      Note(Marks(mark));
    }

    /** Records the volume's record moved. */
    ghost method NoteRecord(t: Local)
      requires IsHistory(work.id, past) && past.now == Snap(remote.State(), Some(t), diverged)
      requires work.Tree() == Some(t.(record := work.record))
      modifies this`past
      ensures Valid() && Extends(past, old(past)) && Careful(past, old(past), published)
    {
      assert Careful(past, past, published);
      Note(Records(work.record));
    }

    /** Moves the tree to a commit above upstream in one step. An uncommitted edit
        outlives it if and only if its path is not written over, and none is that
        does not yield. */
    method TakeTree(from: Option<Commit>, to: Commit, ghost upstream: Commit) returns (err: bool)
      requires Valid() && work.present
      requires from == None || from == Some(work.head)
      requires Upstream(remote.State(), work.Tree().value, upstream)
      requires Ancestor(upstream, to) && Chain(to, upstream) && Changes(work.head) <= Changes(to)
      modifies this`faults, this`refusals, this`past, work`head, work`files, work`sight
      ensures Valid() && Extends(past, old(past)) && Careful(past, old(past), published)
      ensures work.head == if err then old(work.head) else to
      ensures !err ==> Allows(old(work.Tree().value), to)
      ensures work.files == Taken(old(work.files), old(work.head), to) || (err && work.files == old(work.files))
      ensures Upstream(remote.State(), work.Tree().value, upstream)
      ensures Counting()
      ensures err ==> from.None? || !Smooth()
    {
      ghost var t := work.Tree().value;
      ghost var refused, wrote;
      err, refused, wrote := work.Take(from, to);
      Count(err && !refused, refused);
      if wrote {
        NoteTake(t, to, !err, upstream);
      }
    }

    /** Replays the tree's own commits onto upstream beside the tree, and moves
        the tree to the result in one step. A failure leaves HEAD where it was. */
    method RebaseAside(upstream: Commit) returns (err: bool)
      requires Valid() && work.present
      requires Upstream(remote.State(), work.Tree().value, upstream)
      modifies this`faults, this`refusals, this`past, remote, work`head, work`files, work`sight
      ensures Valid() && Extends(past, old(past))
      ensures err ==> work.head == old(work.head)
      ensures !err ==> Chain(old(work.head), upstream) && Rebased(upstream, old(work.head), work.head)
      ensures Upstream(remote.State(), work.Tree().value, upstream)
      ensures !published && !err ==> TookFiles()
      ensures Careful(past, old(past), published)
      ensures Counting()
      ensures err ==> !Smooth()
    {
      var head := Head();
      var made;
      ghost var conflicts;
      made, conflicts := work.Replay(upstream);
      Count(made.None? && !conflicts, conflicts);
      Wait(upstream);
      if made.None? {
        return true;
      }
      RebaseKeepsBoth(upstream, work.head, made.value);
      ghost var waited := past;
      err := TakeTree(head, made.value, upstream);
      ghost var taken := past;
      Wait(upstream);
      ExtendsTransitive(past, taken, waited);
      ExtendsTransitive(past, waited, old(past));
    }

    /** What became of an edit that was in the files. One that did not come back since
        is there exactly when it neither gave way to a read-tree nor was taken back
        by the pod. One that is gone left in one of these ways, and one of a tracked
        file that was there is gone only if the pod loosened it. With no pod at work
        it is there exactly when no read-tree wrote over its path. */
    twostate predicate Outlives(e: Edit)
      reads this, work
      requires old(work.present)
    {
      (!Returned(past, old(past), e) ==>
         (e in work.files <==> !GaveWay(past, old(past), e) && !TakenBack(past, old(past), e)))
      && (e !in work.files ==> GaveWay(past, old(past), e) || (published && TakenBack(past, old(past), e)))
      && (Firm(old(work.Tree().value), e) && e !in work.files ==> published && Loosened(past, old(past), e))
      && (!published && e !in Brought(past, old(past)) ==>
            (e in work.files <==> !Overwrote(past, old(past), e.path)))
    }

    twostate predicate EditsOutlive()
      reads this, work
      requires old(work.present)
    {
      forall e :: e in old(work.files) ==> Outlives(e)
    }

    twostate lemma CarefulOutlives()
      requires old(Valid()) && Valid() && Extends(past, old(past)) && Careful(past, old(past), published)
      requires old(work.present)
      ensures EditsOutlive()
    {
      forall e | e in old(work.files)
        ensures Outlives(e)
      {
        EditOutlives(e);
      }
    }

    twostate lemma EditOutlives(e: Edit)
      requires old(Valid()) && Valid() && Extends(past, old(past)) && Careful(past, old(past), published)
      requires old(work.present) && e in old(work.files)
      ensures Outlives(e)
    {
      if !Returned(past, old(past), e) {
        StaysExactly(work.id, past, old(past), published, e);
      }
      if e !in work.files {
        LostGaveWay(work.id, past, old(past), published, e);
      }
      if Firm(old(work.Tree().value), e) {
        PresentOutlives(work.id, past, old(past), published, e);
      }
      if !published && e !in Brought(past, old(past)) {
        OutlivesExactly(work.id, past, old(past), e);
      }
    }

    /** One read-tree brought the files to HEAD. */
    twostate predicate TookFiles()
      reads this, work
    {
      work.files == Taken(old(work.files), old(work.head), work.head)
    }

    method SetMark(commit: Option<Commit>) returns (err: bool)
      requires Valid() && work.present
      requires commit.Some? ==> Settled(remote.State(), work.head, commit.value)
      modifies this`faults, this`refusals, this`past, remote, work`files, work`sight, work`mark, work`blind
      ensures Valid() && Extends(past, old(past))
      ensures Careful(past, old(past), published)
      ensures err ==> work.mark == old(work.mark) && work.blind == old(work.blind)
      ensures !err ==> commit.Some? && work.mark == commit && !work.blind
      ensures Meanwhile(work.id, old(remote.State()), remote.State())
      ensures !published ==> work.files == old(work.files)
      ensures refusals == old(refusals) && faults == old(faults) + if err && commit.Some? then 1 else 0
    {
      ghost var t := work.Tree().value;
      err := work.MarkPushed(commit);
      if !err {
        NoteMark(t, commit.value);
      } else if commit.Some? {
        faults := faults + 1;
      }
      ghost var marked := past;
      Others();
      ExtendsTransitive(past, marked, old(past));
    }

    method SetKey(on: bool) returns (err: bool)
      requires Valid() && work.present
      modifies this`faults, this`refusals, this`past, remote, work`files, work`sight, work`key
      ensures Valid() && Extends(past, old(past))
      ensures Careful(past, old(past), published)
      ensures work.key == if err then old(work.key) else on
      ensures !on && !old(work.key) ==> err
      ensures Meanwhile(work.id, old(remote.State()), remote.State())
      ensures !published ==> work.files == old(work.files)
      ensures refusals == old(refusals) && faults == old(faults) + if err && (on || old(work.key)) then 1 else 0
    {
      ghost var t := work.Tree().value;
      err := work.WriteKey(on);
      if !err {
        NoteKey(t, on);
      } else if on || work.key {
        faults := faults + 1;
      }
      ghost var keyed := past;
      Others();
      ExtendsTransitive(past, keyed, old(past));
    }

    /** Deletes the side branch. A branch that stays does not stop a heal. */
    method RemoveSide()
      requires Valid() && work.present && (diverged || work.key) && Rejoined(remote.State(), work.Tree().value)
      modifies this`faults, this`refusals, this`past, remote, work`files, work`sight
      ensures Valid() && Extends(past, old(past))
      ensures Careful(past, old(past), published)
      ensures !published ==> work.files == old(work.files)
      ensures Counting()
      ensures Smooth() ==> work.id !in remote.sides
    {
      var gone := remote.DropSide(work.id);
      if gone {
        Note(DeletesSide);
      } else {
        refusals := refusals + 1;
      }
      Others();
    }

    /** Moves the volume to its side branch. A key that was not written leaves
        the state in memory alone. */
    method Diverge()
      requires Valid() && work.present
      modifies this`faults, this`refusals, this`past, this`diverged, remote, work`files, work`sight, work`key
      ensures Valid() && Extends(past, old(past))
      ensures Careful(past, old(past), published)
      ensures diverged && (old(work.key) ==> work.key)
      ensures Meanwhile(work.id, old(remote.State()), remote.State())
      ensures !published ==> work.files == old(work.files)
      ensures Counting()
      ensures Smooth() ==> work.key
    {
      var err := SetKey(true);
      ghost var keyed := past;
      diverged := true;
      Note(Parts);
      ExtendsTransitive(past, keyed, old(past));
    }

    /** Clears the key, then the state in memory. */
    method Healed() returns (err: bool)
      requires Valid() && work.present
      modifies this`faults, this`refusals, this`past, this`diverged, remote, work`files, work`sight, work`key
      ensures Valid() && Extends(past, old(past))
      ensures Careful(past, old(past), published)
      ensures err ==> work.key == old(work.key) && diverged == old(diverged)
      ensures !err ==> !work.key && !diverged
      ensures !old(work.key) ==> err
      ensures Meanwhile(work.id, old(remote.State()), remote.State())
      ensures !published ==> work.files == old(work.files)
      ensures Counting()
      ensures err ==> faults > old(faults) || !old(work.key)
    {
      err := SetKey(false);
      if !err {
        ghost var cleared := past;
        diverged := false;
        Note(Rejoins);
        ExtendsTransitive(past, cleared, old(past));
      }
    }

    /** The tree goes on top of upstream and the side branch goes. */
    method HealTree(upstream: Commit) returns (err: bool)
      requires Valid() && work.present && work.mark.Some? && diverged
      requires Upstream(remote.State(), work.Tree().value, upstream) && Ancestor(work.mark.value, upstream)
      modifies this`faults, this`refusals, this`past, remote, work`head, work`files, work`sight
      ensures Valid() && Extends(past, old(past)) && Counting()
      ensures err ==> !Smooth() && work.head == old(work.head)
      ensures !err ==> Rejoined(remote.State(), work.Tree().value)
      ensures !err && work.head != old(work.head) ==> Behind(remote.State(), work.head, old(work.head))
      ensures Smooth() ==> work.id !in remote.sides
      ensures Careful(past, old(past), published)
      ensures !published && work.head != old(work.head) ==> TookFiles()
    {
      err := RebaseAside(upstream);
      if err {
        return;
      }
      RebaseKeepsBoth(upstream, old(work.head), work.head);
      ghost var moved := past;
      label Moved:
      assert Rejoined(remote.State(), work.Tree().value);
      assert work.head != old(work.head) ==> Behind(remote.State(), work.head, old(work.head));
      RemoveSide();
      ExtendsTransitive(past, moved, old(past));
      StaysHealed@Moved(old(work.head));
    }

    /** A healed tree stays healed while HEAD and the mark stay. */
    twostate lemma StaysHealed(was: Commit)
      requires old(Valid()) && Valid() && Extends(past, old(past)) && old(work.present) && work.present
      requires work.head == old(work.head) && work.mark == old(work.mark)
      requires Rejoined(old(remote.State()), old(work.Tree()).value)
      requires work.head != was ==> Behind(old(remote.State()), work.head, was)
      ensures Rejoined(remote.State(), work.Tree().value)
      ensures work.head != was ==> Behind(remote.State(), work.head, was)
    {
      HistoryKeeps(work.id, past, old(past));
      RejoinedStays(old(remote.State()), remote.State(), old(work.Tree()).value, work.Tree().value);
      if work.head != was {
        BehindStays(old(remote.State()), remote.State(), work.head, work.head, was);
      }
    }

    /** The key of a healed tree goes, and the tree stays healed. */
    method EndHeal(ghost was: Commit) returns (err: bool)
      requires Valid() && work.present && diverged
      requires Rejoined(remote.State(), work.Tree().value)
      requires work.head != was ==> Behind(remote.State(), work.head, was)
      modifies this`faults, this`refusals, this`past, this`diverged, remote, work`files, work`sight, work`key
      ensures Valid() && Extends(past, old(past)) && Counting()
      ensures Careful(past, old(past), published)
      ensures !published ==> work.files == old(work.files)
      ensures Rejoined(remote.State(), work.Tree().value)
      ensures work.head != was ==> Behind(remote.State(), work.head, was)
      ensures diverged == err && work.key == (err && old(work.key)) && (!old(work.key) ==> err)
      ensures err && old(work.key) ==> !Smooth()
      ensures work.id in remote.sides ==> work.id in old(remote.sides)
    {
      err := Healed();
      StaysHealed(was);
    }

    /** Ends a divergence under a running pod: the tree goes on top of upstream,
        the side branch goes, and the key is cleared. When it fails the tree may
        still have moved: the rebase worked and the key did not clear. HEAD then
        stands on a commit of the ref that the old HEAD does not. */
    method HealInTree(upstream: Commit) returns (err: bool)
      requires Valid() && work.present && work.mark.Some? && diverged
      requires Upstream(remote.State(), work.Tree().value, upstream) && Ancestor(work.mark.value, upstream)
      modifies this`faults, this`refusals, this`past, this`diverged, remote, work`head, work`files, work`sight, work`key
      ensures Valid() && Extends(past, old(past))
      ensures diverged == err
      ensures !err ==> !work.key && Rejoined(remote.State(), work.Tree().value)
      ensures err ==> work.key == old(work.key)
      ensures !old(work.key) ==> err
      ensures err && work.head != old(work.head) ==> Behind(remote.State(), work.head, old(work.head))
      ensures Careful(past, old(past), published)
      ensures !published && work.head != old(work.head) ==> TookFiles()
      ensures Counting()
      ensures err && old(work.key) ==> !Smooth()
      ensures Smooth() ==> work.id !in remote.sides
    {
      err := HealTree(upstream);
      if err {
        return;
      }
      ghost var moved := past;
      err := EndHeal(old(work.head));
      ExtendsTransitive(past, moved, old(past));
    }

    /** A HEAD the remote held then, or one below a mark it holds now, is one it has
        held. */
    twostate lemma StaysSent()
      requires old(Valid()) && Valid() && old(work.present) && Extends(past, old(past))
      requires work.mark.Some? ==> Held(remote.State(), work.mark.value)
      ensures work.mark == old(work.mark) && work.mark.Some?
              && !Unsent(old(remote.State()), old(work.Tree().value)) ==>
                Held(remote.State(), old(work.head))
    {
      Since();
      if Held(old(remote.State()), old(work.head)) {
        HeldStays(old(remote.State()), remote.State(), old(work.head));
      } else if work.mark.Some? && Ancestor(old(work.head), work.mark.value) {
        HeldBelow(remote.State(), work.mark.value, old(work.head));
      }
    }

    /** What the remote held once it has held since. */
    twostate lemma StaysHeld(c: Commit)
      requires old(Valid()) && Valid() && old(work.present) && Extends(past, old(past))
      ensures Held(old(remote.State()), c) ==> Held(remote.State(), c)
    {
      Since();
      if Held(old(remote.State()), c) {
        HeldStays(old(remote.State()), remote.State(), c);
      }
    }

    /** Heals a tree whose mark, which a read may miss, the fetched commit holds. */
    method HealOnto(upstream: Commit) returns (healed: bool)
      requires Valid() && work.present && diverged && Upstream(remote.State(), work.Tree().value, upstream)
      modifies this`faults, this`refusals, this`past, this`diverged, remote, work`head, work`files, work`sight, work`key
      ensures Valid() && Extends(past, old(past)) && Counting()
      ensures diverged == !healed
      ensures healed ==> !work.key && Rejoined(remote.State(), work.Tree().value)
      ensures !healed ==> work.key == old(work.key)
      ensures !old(work.key) ==> !healed
      ensures !healed && work.head != old(work.head) ==>
                Behind(remote.State(), work.head, old(work.head))
                && work.mark.Some? && Held(remote.State(), work.mark.value)
      ensures Careful(past, old(past), published)
      ensures !healed && Smooth() ==> !old(work.key) || work.mark.None? || !Ancestor(work.mark.value, upstream)
    {
      var unread: bool := *;
      if unread {
        faults := faults + 1;
      }
      if unread || work.mark.None? || !Ancestor(work.mark.value, upstream) {
        return false;
      }
      assert Held(remote.State(), work.mark.value);
      var err := HealInTree(upstream);
      StaysHeld(work.mark.value);
      return !err;
    }

    /** Heals once the ref holds what the mark names, which is a person's merge
        of the side branch. */
    method HealIfMerged() returns (healed: bool)
      requires Valid() && work.present && diverged
      modifies this`faults, this`refusals, this`past, this`diverged, remote, work`head, work`files, work`sight
      modifies work`key, work`remoteRecord
      ensures Valid() && Extends(past, old(past))
      ensures diverged == !healed
      ensures healed ==> !work.key && Rejoined(remote.State(), work.Tree().value)
      ensures !healed ==> work.key == old(work.key)
      ensures !old(work.key) ==> !healed
      ensures !healed && work.head != old(work.head) ==>
                Behind(remote.State(), work.head, old(work.head))
                && (!Unsent(old(remote.State()), old(work.Tree().value)) ==> Held(remote.State(), old(work.head)))
      ensures Careful(past, old(past), published)
      ensures Counting()
      ensures !healed && Smooth() ==>
                !old(work.key) || work.mark.None? || !Ancestor(work.mark.value, old(remote.tip))
      ensures Changes(old(work.head)) <= Changes(work.head)
    {
      var upstream := FetchUpstream();
      if upstream.None? {
        Since();
        return false;
      }
      ghost var fetched := past;
      healed := HealOnto(upstream.value);
      ExtendsTransitive(past, fetched, old(past));
      Since();
      if !healed && work.mark.Some? && Ancestor(work.mark.value, old(remote.tip)) {
        AncestorTransitive(work.mark.value, old(remote.tip), upstream.value);
      }
      if !healed && work.head != old(work.head) {
        StaysSent();
      }
    }

    /** Puts the volume's record on top of the fetched one. */
    method ReparentRecord() returns (err: bool)
      requires Valid() && work.present
      modifies this`faults, this`refusals, this`past, work`record
      ensures Valid() && Extends(past, old(past))
      ensures Careful(past, old(past), published)
      ensures !err && faults == old(faults) && work.remoteRecord.Some? && work.record.Some? ==>
                Ancestor(work.remoteRecord.value, work.record.value)
      ensures Counting()
      ensures err ==> !Smooth()
    {
      ghost var t := work.Tree().value;
      ghost var unread;
      err, unread := work.Reparent();
      if err || unread {
        faults := faults + 1;
      }
      if work.record != t.record {
        NoteRecord(t);
      }
    }

    /** Fetches the ref and puts the tree and its record on top of it. */
    method RebaseOntoRef() returns (err: bool)
      requires Valid() && work.present
      modifies this`faults, this`refusals, this`past, remote, work`head, work`files, work`sight, work`record
      modifies work`remoteRecord
      ensures Valid() && Extends(past, old(past))
      ensures !err ==> Ancestor(old(remote.tip), work.head)
      ensures !err && faults == old(faults) && work.remoteRecord.Some? && work.record.Some? ==>
                Ancestor(work.remoteRecord.value, work.record.value)
      ensures Careful(past, old(past), published)
      ensures Counting()
      ensures err ==> Hindered()
    {
      var upstream := FetchUpstream();
      if upstream.None? {
        return true;
      }
      ghost var fetched := past;
      err := RebaseAside(upstream.value);
      ghost var rebased := past;
      ExtendsTransitive(rebased, fetched, old(past));
      if err {
        return;
      }
      RebaseKeepsBoth(upstream.value, fetched.now.local.value.head, work.head);
      AncestorTransitive(old(remote.tip), upstream.value, work.head);
      err := ReparentRecord();
      ExtendsTransitive(past, rebased, old(past));
    }

    /** One attempt: rebase onto what the ref holds now, and send. */
    method RebaseOnce() returns (settled: bool, landed: bool, head: Option<Commit>)
      requires Valid() && work.present && !diverged
      modifies this`faults, this`refusals, this`past, this`sends, remote
      modifies work`head, work`files, work`sight, work`record, work`remoteRecord
      ensures Valid() && Extends(past, old(past))
      ensures old(sends.ref) <= sends.ref <= old(sends.ref) + 1 && sends.side == old(sends.side)
      ensures landed ==> settled && (head == None || head == Some(work.head))
      ensures landed ==> work.head in remote.tips && remote.tip == work.head
      ensures landed ==> Ancestor(old(remote.tip), work.head)
      ensures !settled ==> sends.ref == old(sends.ref) + 1 && TurnedAway()
      ensures settled && !landed ==> sends == old(sends) && Hindered()
      ensures Careful(past, old(past), published)
      ensures Counting()
      ensures head == None && landed ==> !Smooth()
    {
      var err := RebaseOntoRef();
      if err {
        return true, false, None;
      }
      head := Head();
      ghost var sending := past;
      var rejected;
      err, rejected := SendTo(false);
      ExtendsTransitive(past, sending, old(past));
      return !err, !err, head;
    }

    /** Rebases onto what the remote holds and pushes again, three times at
        most. What lands holds what the ref held and everything the tree did. */
    method RebaseAndRetry() returns (landed: bool, head: Option<Commit>)
      requires Valid() && work.present && !diverged
      modifies this`faults, this`refusals, this`past, this`sends, remote
      modifies work`head, work`files, work`sight, work`record, work`remoteRecord
      ensures Valid() && Extends(past, old(past))
      ensures old(sends.ref) <= sends.ref <= old(sends.ref) + REBASE_ATTEMPTS && sends.side == old(sends.side)
      ensures landed ==> head == None || head == Some(work.head)
      ensures landed ==> work.head in remote.tips && remote.tip == work.head
      ensures landed ==> Ancestor(old(remote.tip), work.head)
      ensures Careful(past, old(past), published)
      ensures Counting()
      ensures !landed || head == None ==> !Smooth()
      ensures !landed && !Hindered() ==> sends.ref == old(sends.ref) + REBASE_ATTEMPTS
    {
      var attempts := 0;
      while attempts < REBASE_ATTEMPTS
        invariant 0 <= attempts <= REBASE_ATTEMPTS
        invariant Valid() && work.present && work.mark == old(work.mark)
        invariant Extends(past, old(past))
        invariant Counting() && (attempts > 0 ==> !Smooth())
        invariant sends.ref == old(sends.ref) + attempts && sends.side == old(sends.side)
        invariant Careful(past, old(past), published)
      {
        ghost var before := past;
        Since();
        var settled;
        settled, landed, head := RebaseOnce();
        ExtendsTransitive(past, before, old(past));
        if settled {
          if landed {
            AncestorTransitive(old(remote.tip), before.now.shared.tip, work.head);
          }
          return;
        }
        attempts := attempts + 1;
      }
      return false, None;
    }

    /** Diverges, and sends the HEAD the tree has now to the side branch. */
    method SendAside() returns (err: bool, head: Option<Commit>)
      requires Valid() && work.present
      modifies this`faults, this`refusals, this`past, this`sends, this`diverged, remote
      modifies work`files, work`sight, work`key
      ensures Valid() && Extends(past, old(past)) && Counting()
      ensures Careful(past, old(past), published)
      ensures sends.ref == old(sends.ref) && sends.side == old(sends.side) + 1 && diverged
      ensures head == None || head == Some(work.head)
      ensures !err ==> work.id in remote.sides && remote.sides[work.id] == work.head && work.head in remote.tips
      ensures !published ==> work.files == old(work.files)
      ensures err ==> TurnedAway()
    {
      Diverge();
      ghost var gone := past;
      head := Head();
      var rejected;
      err, rejected := SendTo(true);
      ExtendsTransitive(past, gone, old(past));
    }

    /** What follows a refusal: a rebase that lands, or the side branch. */
    method RetryOrDiverge() returns (err: bool, onSide: bool, head: Option<Commit>)
      requires Valid() && work.present && !diverged
      modifies this`faults, this`refusals, this`past, this`sends, this`diverged, remote
      modifies work`head, work`files, work`sight, work`key, work`record, work`remoteRecord
      ensures Valid() && Extends(past, old(past)) && Counting()
      ensures old(sends.ref) <= sends.ref <= old(sends.ref) + REBASE_ATTEMPTS
      ensures sends.side == old(sends.side) + (if onSide then 1 else 0)
      ensures diverged == onSide && (!onSide ==> !err && work.key == old(work.key))
      ensures head == None || head == Some(work.head)
      ensures !err ==> work.head in remote.tips
      ensures !onSide ==> remote.tip == work.head && Ancestor(old(remote.tip), work.head)
      ensures !err && onSide ==> work.id in remote.sides && remote.sides[work.id] == work.head
      ensures err ==> TurnedAway()
      ensures onSide && !Hindered() ==> sends.ref == old(sends.ref) + REBASE_ATTEMPTS
      ensures Careful(past, old(past), published)
    {
      var landed;
      landed, head := RebaseAndRetry();
      ghost var retried := past;
      if landed {
        return false, false, head;
      }
      onSide := true;
      err, head := SendAside();
      ExtendsTransitive(past, retried, old(past));
    }

    /** A commit HEAD has left for good stays behind while HEAD stays. */
    twostate lemma StillBehind(c: Option<Commit>)
      requires old(Valid()) && Valid() && Extends(past, old(past)) && old(work.present)
      requires work.head == old(work.head)
      requires c.Some? && c.value != work.head ==> Behind(old(remote.State()), work.head, c.value)
      ensures c.Some? && c.value != work.head ==> Behind(remote.State(), work.head, c.value)
    {
      HistoryKeeps(work.id, past, old(past));
      if c.Some? && c.value != work.head {
        BehindStays(old(remote.State()), remote.State(), work.head, work.head, c.value);
      }
    }

    /** Moves the mark after a push that worked. */
    method MarkSent(head: Option<Commit>) returns (marked: bool)
      requires Valid() && work.present && work.head in remote.tips
      requires head.Some? && head.value != work.head ==>
                 Behind(remote.State(), work.head, head.value) && Changes(head.value) <= Changes(work.head)
      modifies this`faults, this`refusals, this`past, remote, work`files, work`sight, work`mark, work`blind
      ensures Valid() && Extends(past, old(past))
      ensures Careful(past, old(past), published)
      ensures marked ==> head.Some? && work.mark == head
      ensures !marked ==> work.mark == old(work.mark)
      ensures Held(remote.State(), work.head) && work.head in remote.tips
      ensures old(remote.tip) == work.head ==> Ancestor(work.head, remote.tip)
      ensures work.id in remote.sides ==>
                work.id in old(remote.sides) && remote.sides[work.id] == old(remote.sides)[work.id]
      ensures !published ==> work.files == old(work.files)
      ensures Counting()
      ensures !marked ==> head.None? || !Smooth()
    {
      assert Held(remote.State(), work.head);
      HeldHoldsEdits(remote.State(), work.head);
      var err := SetMark(head);
      marked := !err;
      assert Held(remote.State(), work.head);
    }

    /** The sends of a volume that has not diverged: to the ref, after a refusal again
        with each rebase, and to the side branch when the ref refuses for good. */
    method SendAndRetry(current: Option<Commit>) returns (err: bool, head: Option<Commit>)
      requires Valid() && work.present && !diverged
      requires current == None || current == Some(work.head)
      modifies this`faults, this`refusals, this`past, this`sends, this`diverged, remote
      modifies work`head, work`files, work`sight, work`key, work`record, work`remoteRecord
      ensures Valid() && Extends(past, old(past)) && Counting()
      ensures Careful(past, old(past), published)
      ensures old(sends.ref) < sends.ref <= old(sends.ref) + 1 + REBASE_ATTEMPTS
      ensures sends.side == old(sends.side) + (if diverged then 1 else 0)
      ensures work.key != old(work.key) ==> diverged
      ensures head == None || head == Some(work.head)
      ensures !err ==> work.head in remote.tips
      ensures !err && !diverged ==> remote.tip == work.head && Ancestor(old(remote.tip), work.head)
      ensures !err && diverged ==> work.id in remote.sides && remote.sides[work.id] == work.head
      ensures Tried(err)
      ensures diverged ==> Answered()
      ensures Smooth() ==> head == current
    {
      head := current;
      var rejected;
      err, rejected := SendTo(false);
      ghost var sent := past;
      if err && rejected {
        var onSide;
        err, onSide, head := RetryOrDiverge();
        ExtendsTransitive(past, sent, old(past));
        if !onSide {
          AncestorTransitive(old(remote.tip), sent.now.shared.tip, work.head);
        }
      }
    }

    /** The mark on the HEAD that landed. */
    method MarkLanded(head: Option<Commit>) returns (outcome: Outcome, marked: bool)
      requires Valid() && work.present && work.head in remote.tips && (head == None || head == Some(work.head))
      requires if diverged then work.id in remote.sides && remote.sides[work.id] == work.head
               else remote.tip == work.head
      modifies this`faults, this`refusals, this`past, remote, work`files, work`sight, work`mark, work`blind
      ensures Valid() && Extends(past, old(past)) && Counting()
      ensures Careful(past, old(past), published)
      ensures outcome == if diverged then OnSide else OnRef
      ensures outcome.OnRef? ==> Ancestor(work.head, remote.tip)
      ensures work.head in remote.tips
      ensures outcome.OnSide? && work.id in remote.sides ==> remote.sides[work.id] == work.head
      ensures marked ==> work.mark == Some(work.head) && Held(remote.State(), work.head)
      ensures !marked ==> work.mark == old(work.mark) && (head.None? || !Smooth())
    {
      marked := MarkSent(head);
      outcome := if diverged then OnSide else OnRef;
    }

    /** A push of a volume that has not diverged, and the mark on the HEAD that
        landed. */
    method PushToRef(current: Option<Commit>) returns (outcome: Outcome, marked: bool)
      requires Valid() && work.present && !diverged
      requires current == None || current == Some(work.head)
      modifies this`faults, this`refusals, this`past, this`sends, this`diverged, remote
      modifies work`head, work`files, work`sight, work`key, work`mark, work`blind, work`record, work`remoteRecord
      ensures Valid() && Extends(past, old(past)) && Counting() && !outcome.Skipped?
      ensures old(sends.ref) < sends.ref <= old(sends.ref) + 1 + REBASE_ATTEMPTS
      ensures sends.side == old(sends.side) + (if diverged then 1 else 0)
      ensures work.key != old(work.key) ==> diverged
      ensures outcome.OnRef? ==>
                !diverged && Ancestor(work.head, remote.tip) && Ancestor(old(remote.tip), work.head)
      ensures outcome.OnSide? ==>
                diverged && work.head in remote.tips
                && (work.id in remote.sides ==> remote.sides[work.id] == work.head)
      ensures marked ==> !outcome.Failed? && work.mark == Some(work.head) && Held(remote.State(), work.head)
      ensures !marked ==> work.mark == old(work.mark)
      ensures Tried(outcome.Failed?)
      ensures Smooth() && current.Some? ==> marked && outcome.OnRef?
      ensures Careful(past, old(past), published)
    {
      var err, head := SendAndRetry(current);
      if err {
        return Failed, false;
      }
      ghost var pushed := past;
      outcome, marked := MarkLanded(head);
      ExtendsTransitive(past, pushed, old(past));
    }

    /** A push of a diverged volume: to its side branch. The mark goes to the HEAD
        the push began with. */
    method PushToSide(current: Option<Commit>) returns (outcome: Outcome, marked: bool)
      requires Valid() && work.present && diverged
      requires current.Some? && current.value != work.head ==>
                 Behind(remote.State(), work.head, current.value) && Changes(current.value) <= Changes(work.head)
      modifies this`faults, this`refusals, this`past, this`sends, remote
      modifies work`files, work`sight, work`mark, work`blind
      ensures Valid() && Extends(past, old(past)) && Counting()
      ensures Careful(past, old(past), published)
      ensures sends.ref == old(sends.ref) && sends.side == old(sends.side) + 1
      ensures outcome in {OnSide, Failed}
      ensures outcome.OnSide? ==>
                work.head in remote.tips
                && (work.id in remote.sides ==> remote.sides[work.id] == work.head)
      ensures marked ==> outcome.OnSide? && work.mark == current
      ensures marked && current.Some? && (current == Some(work.head) || Held(old(remote.State()), current.value)) ==>
                Held(remote.State(), current.value)
      ensures !marked ==> work.mark == old(work.mark)
      ensures Tried(outcome.Failed?)
      ensures Smooth() && current.Some? ==> marked
      ensures !published ==> work.files == old(work.files)
    {
      var err, rejected := SendTo(true);
      ghost var sent := past;
      if err {
        return Failed, false;
      }
      StillBehind(current);
      marked := MarkSent(current);
      outcome := OnSide;
      ExtendsTransitive(past, sent, old(past));
      if marked {
        StaysHeld(current.value);
      }
    }

    /** A tree above what the ref held carries it, and its own work. */
    twostate lemma HoldsBoth()
      requires old(Valid()) && Valid() && Extends(past, old(past)) && old(work.present)
      requires Ancestor(old(remote.tip), work.head)
      ensures Changes(old(remote.tip)) + Changes(old(work.head)) <= Changes(work.head)
    {
      Since();
      ChangesGrow(old(remote.tip), work.head);
    }

    /** A tree above what the ref held at a moment since then is above what it held
        then. */
    twostate lemma GrewFrom(between: History)
      requires old(Valid()) && Valid() && old(work.present)
      requires Extends(past, between) && Extends(between, old(past)) && Extends(past, old(past))
      requires IsHistory(work.id, between) && Ancestor(between.now.shared.tip, work.head)
      ensures Ancestor(old(remote.tip), work.head)
    {
      HistoryKeeps(work.id, between, old(past));
      AncestorTransitive(old(remote.tip), between.now.shared.tip, work.head);
    }

    /** The push that follows a heal, with HEAD read again. */
    method PushHealed() returns (outcome: Outcome, marked: bool)
      requires Valid() && work.present && !diverged && !work.key
      modifies this`faults, this`refusals, this`past, this`sends, this`diverged, remote
      modifies work`head, work`files, work`sight, work`key, work`mark, work`blind, work`record, work`remoteRecord
      ensures Valid() && Extends(past, old(past)) && Counting() && !outcome.Skipped?
      ensures old(sends.ref) < sends.ref <= old(sends.ref) + 1 + REBASE_ATTEMPTS
      ensures sends.side == old(sends.side) + (if diverged then 1 else 0)
      ensures !diverged ==> !work.key
      ensures outcome.OnRef? ==>
                !diverged && Ancestor(work.head, remote.tip) && Ancestor(old(remote.tip), work.head)
      ensures outcome.OnSide? ==>
                diverged && work.head in remote.tips
                && (work.id in remote.sides ==> remote.sides[work.id] == work.head)
      ensures marked ==> !outcome.Failed? && work.mark == Some(work.head) && Held(remote.State(), work.head)
      ensures !marked ==> work.mark == old(work.mark)
      ensures Tried(outcome.Failed?)
      ensures Smooth() ==> marked && outcome.OnRef?
      ensures Careful(past, old(past), published)
    {
      var head := Head();
      outcome, marked := PushToRef(head);
    }

    /** The push after the search for a merge, wherever it goes. */
    method PushOn(current: Option<Commit>) returns (outcome: Outcome, marked: bool)
      requires Valid() && work.present && current.Some? && (!diverged ==> !work.key)
      requires diverged && current.value != work.head ==>
                 Behind(remote.State(), work.head, current.value) && Changes(current.value) <= Changes(work.head)
      modifies this`faults, this`refusals, this`past, this`sends, this`diverged, remote
      modifies work`head, work`files, work`sight, work`key, work`mark, work`blind, work`record, work`remoteRecord
      ensures Valid() && Extends(past, old(past)) && Counting() && !outcome.Skipped?
      ensures sends.ref <= old(sends.ref) + 1 + REBASE_ATTEMPTS
      ensures sends.side == old(sends.side) + (if diverged then 1 else 0)
      ensures if old(diverged) then sends.ref == old(sends.ref) && diverged else sends.ref > old(sends.ref)
      ensures !diverged ==> !work.key
      ensures outcome.OnRef? ==>
                !diverged && Ancestor(work.head, remote.tip) && Ancestor(old(remote.tip), work.head)
      ensures outcome.OnSide? ==>
                diverged && work.head in remote.tips
                && (work.id in remote.sides ==> remote.sides[work.id] == work.head)
      ensures marked ==> outcome.OnRef? || outcome.OnSide?
      ensures marked ==> work.mark == Some(work.head) || (old(diverged) && work.mark == current)
      ensures marked && (work.mark == Some(work.head) || Held(old(remote.State()), current.value)) ==>
                Held(remote.State(), work.mark.value)
      ensures !marked ==> work.mark == old(work.mark)
      ensures old(diverged) ==> work.head == old(work.head)
      ensures Tried(outcome.Failed?)
      ensures Smooth() ==> marked && diverged == old(diverged) && outcome == if diverged then OnSide else OnRef
      ensures Careful(past, old(past), published)
    {
      if diverged {
        outcome, marked := PushToSide(current);
      } else {
        outcome, marked := PushHealed();
      }
    }

    /** The push of a diverged volume looks for the merge first. A heal that worked
        has HEAD read again; one that failed leaves the HEAD from before it. */
    method PushDiverged(current: Option<Commit>) returns (outcome: Outcome, marked: bool)
      requires Valid() && work.present && current == Some(work.head) && diverged
      modifies this`faults, this`refusals, this`past, this`sends, this`diverged, remote
      modifies work`head, work`files, work`sight, work`key, work`mark, work`blind, work`record, work`remoteRecord
      ensures Valid() && Extends(past, old(past)) && Counting() && !outcome.Skipped?
      ensures sends.ref <= old(sends.ref) + 1 + REBASE_ATTEMPTS
      ensures sends.side == old(sends.side) + (if diverged then 1 else 0)
      ensures outcome.OnRef? ==>
                !diverged && Ancestor(work.head, remote.tip) && Ancestor(old(remote.tip), work.head)
      ensures outcome.OnSide? ==>
                diverged && work.head in remote.tips
                && (work.id in remote.sides ==> remote.sides[work.id] == work.head)
      ensures sends.ref > old(sends.ref) ==> old(work.key)
      ensures sends.ref == old(sends.ref) ==> diverged
      ensures !diverged ==> !work.key
      ensures marked ==> outcome.OnRef? || outcome.OnSide?
      ensures marked ==> work.mark == Some(work.head) || (diverged && work.mark == Some(old(work.head)))
      ensures !marked ==> work.mark == old(work.mark)
      ensures marked && (work.mark == Some(work.head) || !Unsent(old(remote.State()), old(work.Tree().value))) ==>
                Held(remote.State(), work.mark.value)
      ensures Tried(outcome.Failed?)
      ensures Smooth() ==> marked && outcome == if diverged then OnSide else OnRef
      ensures Smooth() && diverged && old(work.key) && old(work.mark).Some? ==>
                !Ancestor(old(work.mark).value, old(remote.tip))
      ensures Careful(past, old(past), published)
    {
      var healed := HealIfMerged();
      ghost var asked := past;
      outcome, marked := PushOn(current);
      ExtendsTransitive(past, asked, old(past));
      if outcome.OnRef? {
        GrewFrom(asked);
      }
    }

    /** The push of a HEAD that was read: it heals first, then sends. */
    method PushHead(current: Option<Commit>) returns (outcome: Outcome, marked: bool)
      requires Valid() && work.present && current == Some(work.head)
      modifies this`faults, this`refusals, this`past, this`sends, this`diverged, remote
      modifies work`head, work`files, work`sight, work`key, work`mark, work`blind, work`record, work`remoteRecord
      ensures Valid() && Extends(past, old(past)) && Counting() && !outcome.Skipped?
      ensures sends.ref <= old(sends.ref) + 1 + REBASE_ATTEMPTS
      ensures outcome.OnRef? ==>
                !diverged && Ancestor(work.head, remote.tip)
                && Changes(old(remote.tip)) + Changes(old(work.head)) <= Changes(work.head)
      ensures outcome.OnSide? ==>
                diverged && work.head in remote.tips
                && (work.id in remote.sides ==> remote.sides[work.id] == work.head)
      ensures sends.side == old(sends.side) + (if diverged then 1 else 0)
      ensures diverged && !old(diverged) ==> sends.ref > old(sends.ref)
      ensures sends.ref > old(sends.ref) && old(diverged) ==> old(work.key)
      ensures old(diverged) && !diverged ==> !work.key
      ensures marked ==> outcome.OnRef? || outcome.OnSide?
      ensures marked ==>
                work.mark == Some(work.head) || (old(diverged) && diverged && work.mark == Some(old(work.head)))
      ensures !marked ==> work.mark == old(work.mark)
      ensures marked && !(old(diverged) && Unsent(old(remote.State()), old(work.Tree().value))) ==>
                Held(remote.State(), work.mark.value)
      ensures Tried(outcome.Failed?)
      ensures Smooth() ==> marked && outcome == if diverged then OnSide else OnRef
      ensures Smooth() && diverged ==>
                old(diverged)
                && (old(work.key) && old(work.mark).Some? ==> !Ancestor(old(work.mark).value, old(remote.tip)))
      ensures Careful(past, old(past), published)
    {
      if diverged {
        outcome, marked := PushDiverged(current);
      } else {
        outcome, marked := PushToRef(current);
      }
      if outcome.OnRef? {
        HoldsBoth();
      }
    }

    /** One push. It sends to the ref at most once before the rebases and once
        in each, and to the side branch at most once. */
    method PushNow() returns (outcome: Outcome, marked: bool)
      requires Valid() && work.present
      modifies this`faults, this`refusals, this`past, this`sends, this`diverged, remote
      modifies work`head, work`files, work`sight, work`key, work`mark, work`blind, work`record, work`remoteRecord
      ensures Valid() && Extends(past, old(past))
      ensures sends.ref <= old(sends.ref) + 1 + REBASE_ATTEMPTS
      ensures sends.side <= old(sends.side) + 1
      ensures Ancestor(old(remote.tip), remote.tip) && Changes(old(work.head)) <= Changes(work.head)
      // A push that waits sends nothing and moves nothing.
      ensures refDeleted || credentialLost ==> outcome.Skipped?
      ensures outcome.Skipped? ==> past == old(past) && diverged == old(diverged)
      ensures outcome.Skipped? ==> sends.ref == old(sends.ref) && sends.side == old(sends.side)
      // A push that landed on the ref left it at both sides' work.
      ensures outcome.OnRef? ==>
                !diverged && Ancestor(work.head, remote.tip)
                && Changes(old(remote.tip)) + Changes(old(work.head)) <= Changes(work.head)
      // A push that landed on the side branch left all the tree's work there.
      ensures outcome.OnSide? ==>
                diverged && work.head in remote.tips
                && (work.id in remote.sides ==> remote.sides[work.id] == work.head)
      // The side branch takes a push exactly while the volume is diverged, and
      // the volume diverges only after the ref refused it.
      ensures !outcome.Skipped? ==> sends.side == old(sends.side) + (if diverged then 1 else 0)
      ensures diverged && !old(diverged) ==> sends.ref > old(sends.ref)
      // A diverged volume sends nothing to the ref until it has healed.
      ensures sends.ref > old(sends.ref) && old(diverged) ==> old(work.key)
      ensures old(diverged) && !diverged ==> !work.key
      // The mark names the pushed HEAD, unless a heal moved HEAD and its key
      // stayed: then it names the HEAD from before the heal. It names a commit the
      // remote held unless the volume was diverged with a HEAD no push had sent.
      ensures marked ==> outcome.OnRef? || outcome.OnSide?
      ensures marked ==>
                work.mark == Some(work.head) || (old(diverged) && diverged && work.mark == Some(old(work.head)))
      ensures !marked ==> work.mark == old(work.mark)
      ensures marked && !(old(diverged) && Unsent(old(remote.State()), old(work.Tree().value))) ==>
                Held(remote.State(), work.mark.value)
      // What stops a push, and what a push comes to when nothing does: on the
      // ref when the volume is not diverged or its side branch was merged, and
      // on the side branch otherwise.
      ensures Counting()
      ensures outcome.Skipped? ==> refDeleted || credentialLost || !Smooth()
      ensures Tried(outcome.Failed?)
      ensures Smooth() && !outcome.Skipped? ==> marked && outcome == if diverged then OnSide else OnRef
      ensures Smooth() && diverged ==>
                old(diverged)
                && (outcome.OnSide? && old(work.key) && old(work.mark).Some? ==>
                      !Ancestor(old(work.mark).value, old(remote.tip)))
      // What becomes of the edits in the files.
      ensures EditsOutlive()
    {
      outcome, marked := Skipped, false;
      CarefulOutlives();
      if refDeleted || credentialLost {
        ChangesGrow(work.head, work.head);
        return;
      }
      var head := Head();
      if head.None? {
        return;
      }
      outcome, marked := PushHead(head);
      Since();
      CarefulOutlives();
    }
  }

  lemma RejoinedStays(r: Shared, r': Shared, t: Local, t': Local)
    requires Rejoined(r, t) && t.head == t'.head && t.mark == t'.mark
    requires r.tips <= r'.tips && Ancestor(r.tip, r'.tip)
    ensures Rejoined(r', t')
  {
    var u :| u in r.tips && Ancestor(u, r.tip) && Ancestor(u, t.head) && Ancestor(t.mark.value, u);
    AncestorTransitive(u, r.tip, r'.tip);
  }
}
