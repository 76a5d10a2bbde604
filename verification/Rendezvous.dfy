// A demand read and a stage of the same volume, in any interleaving. Each writes
// its own map under its own lock and then looks in the other's, so at least one
// of the two sees the other.

module Rendezvous {
  import opened Wrappers
  import opened FetchLoop

  /** A goroutine that read a demand, or copied the last one read, and has yet to
      look the handle up among the staged volumes. */
  datatype Pending = Pending(handle: string, stamp: int)

  /** A demand that started a pull, and when. */
  datatype Pull = Pull(held: Held, stamp: int, at: int)

  /** What the demand watch and the node hold, with the goroutines between two of
      their steps: reads and stages that will look a handle up, and stages that
      will first look for the last demand read. */
  datatype Desk = Desk(
    seen: map<string, int>,
    staged: map<string, Held>,
    reading: multiset<Pending>,
    arriving: multiset<string>)

  /** The demand was carried to the staged object, or a goroutine will carry it. */
  predicate Seen(d: Desk, acted: set<(Held, int)>, handle: string)
    requires handle in d.staged && handle in d.seen
  {
    (d.staged[handle], d.seen[handle]) in acted
    || Pending(handle, d.seen[handle]) in d.reading
    || handle in d.arriving
  }

  ghost predicate NothingMissed(d: Desk, acted: set<(Held, int)>)
  {
    forall handle :: handle in d.staged && handle in d.seen ==> Seen(d, acted, handle)
  }

  /** The later pull of one object answers a demand stamped after the earlier one
      started, less the skew, and the same stamp comes back only after another. */
  ghost predicate Worth(pulls: seq<Pull>, i: nat, j: nat)
    requires i < j < |pulls|
  {
    pulls[i].held == pulls[j].held ==>
      pulls[j].stamp > pulls[i].at - DEMAND_SKEW
      && (pulls[i].stamp == pulls[j].stamp ==>
            exists k :: i < k < j && pulls[k].held == pulls[i].held && pulls[k].stamp != pulls[i].stamp)
  }

  ghost predicate AllWorth(pulls: seq<Pull>)
  {
    forall i, j {:trigger Worth(pulls, i, j)} :: 0 <= i < j < |pulls| ==> Worth(pulls, i, j)
  }

  /** The watermark of an object is at or past every pull it started, and the
      last stamp taken is the last one that started a pull. */
  ghost predicate Marked(marks: map<Held, Watermark>, pulls: seq<Pull>, i: nat)
    requires i < |pulls|
  {
    pulls[i].held in marks
    && marks[pulls[i].held].answered.Some? && marks[pulls[i].held].taken.Some?
    && marks[pulls[i].held].answered.value >= pulls[i].at - DEMAND_SKEW
    && (marks[pulls[i].held].taken != Some(pulls[i].stamp) ==>
          exists k :: i < k < |pulls| && pulls[k].held == pulls[i].held && pulls[k].stamp != pulls[i].stamp)
  }

  ghost predicate AllMarked(marks: map<Held, Watermark>, pulls: seq<Pull>)
  {
    forall i :: 0 <= i < |pulls| ==> Marked(marks, pulls, i)
  }

  lemma StillMarked(marks: map<Held, Watermark>, pulls: seq<Pull>, o: Held, stamp: int, now: int, i: nat)
    requires i < |pulls| && Marked(marks, pulls, i) && o in marks && Wants(marks[o], stamp)
    ensures Marked(marks[o := Took(marks[o], stamp, now)], pulls + [Pull(o, stamp, now)], i)
    ensures Worth(pulls + [Pull(o, stamp, now)], i, |pulls|)
  {
    var longer := pulls + [Pull(o, stamp, now)];
    if marks[pulls[i].held].taken != Some(pulls[i].stamp) {
      var k :| i < k < |pulls| && pulls[k].held == pulls[i].held && pulls[k].stamp != pulls[i].stamp;
      assert longer[k] == pulls[k];
    } else {
      assert longer[|pulls|] == Pull(o, stamp, now);
    }
  }

  lemma StillWorth(pulls: seq<Pull>, newer: Pull, i: nat, j: nat)
    requires i < j < |pulls| && Worth(pulls, i, j)
    ensures Worth(pulls + [newer], i, j)
  {
    var longer := pulls + [newer];
    if pulls[i].held == pulls[j].held && pulls[i].stamp == pulls[j].stamp {
      var k :| i < k < j && pulls[k].held == pulls[i].held && pulls[k].stamp != pulls[i].stamp;
      assert longer[k] == pulls[k];
    }
  }

  /** What takeDemand keeps of the pulls an object ever started. */
  lemma PullKeeps(marks: map<Held, Watermark>, pulls: seq<Pull>, o: Held, stamp: int, now: int)
    requires AllWorth(pulls) && AllMarked(marks, pulls) && o in marks && Wants(marks[o], stamp)
    ensures AllWorth(pulls + [Pull(o, stamp, now)])
    ensures AllMarked(marks[o := Took(marks[o], stamp, now)], pulls + [Pull(o, stamp, now)])
  {
    var longer := pulls + [Pull(o, stamp, now)];
    var newer := marks[o := Took(marks[o], stamp, now)];
    forall i | 0 <= i < |longer|
      ensures Marked(newer, longer, i)
    {
      if i < |pulls| {
        StillMarked(marks, pulls, o, stamp, now, i);
      }
    }
    forall i, j | 0 <= i < j < |longer|
      ensures Worth(longer, i, j)
    {
      if j < |pulls| {
        StillWorth(pulls, Pull(o, stamp, now), i, j);
      } else {
        StillMarked(marks, pulls, o, stamp, now, i);
      }
    }
  }

  class Demands {
    var desk: Desk
    var marks: map<Held, Watermark>
    var next: Held
    ghost var acted: set<(Held, int)>
    ghost var pulls: seq<Pull>

    ghost predicate Valid()
      reads this
    {
      NothingMissed(desk, acted) && AllWorth(pulls)
      && AllMarked(marks, pulls)
      && (forall handle :: handle in desk.staged ==> desk.staged[handle] in marks)
      && (forall o :: o in marks ==> o < next)
    }

    constructor ()
      ensures Valid() && desk == Desk(map[], map[], multiset{}, multiset{}) && pulls == [] && acted == {}
    {
      desk := Desk(map[], map[], multiset{}, multiset{});
      marks, next, acted, pulls := map[], 0, {}, [];
    }

    /** read, first half: the demand goes into seen, staged or not. */
    method Read(handle: string, stamp: int)
      requires Valid()
      modifies this`desk
      ensures Valid()
      ensures desk == old(desk).(seen := old(desk.seen)[handle := stamp],
                                 reading := old(desk.reading) + multiset{Pending(handle, stamp)})
    {
      desk := desk.(seen := desk.seen[handle := stamp], reading := desk.reading + multiset{Pending(handle, stamp)});
    }

    /** A stage, as it adds the volume to the node. */
    method Stage(handle: string, watermark: Watermark) returns (o: Held)
      requires Valid() && handle !in desk.staged
      modifies this`desk, this`marks, this`next
      ensures Valid() && o !in old(marks) && marks == old(marks)[o := watermark]
      ensures desk == old(desk).(staged := old(desk.staged)[handle := o],
                                 arriving := old(desk.arriving) + multiset{handle})
    {
      o := next;
      next := next + 1;
      ghost var more := marks[o := watermark];
      forall i | 0 <= i < |pulls|
        ensures Marked(more, pulls, i)
      {
        assert Marked(marks, pulls, i);
      }
      marks := marks[o := watermark];
      desk := desk.(staged := desk.staged[handle := o], arriving := desk.arriving + multiset{handle});
    }

    /** arrived, first half: the stage looks for the last demand read. */
    method Arrived(handle: string)
      requires Valid() && handle in desk.arriving
      modifies this`desk
      ensures Valid()
      ensures desk.seen == old(desk.seen) && desk.staged == old(desk.staged)
      ensures desk.arriving == old(desk.arriving) - multiset{handle}
      ensures desk.reading == old(desk.reading)
                + (if handle in old(desk.seen) then multiset{Pending(handle, old(desk.seen)[handle])} else multiset{})
    {
      ghost var before := desk;
      var found := if handle in desk.seen then multiset{Pending(handle, desk.seen[handle])} else multiset{};
      desk := desk.(arriving := desk.arriving - multiset{handle}, reading := desk.reading + found);
      forall h | h in desk.staged && h in desk.seen
        ensures Seen(desk, acted, h)
      {
        assert Seen(before, acted, h);
      }
    }

    /** actOn, which ends a read and an arrival: the volume staged under the
        handle, if any, takes the demand. */
    method ActOn(p: Pending, now: int) returns (pulled: bool)
      requires Valid() && p in desk.reading
      modifies this`desk, this`marks, this`acted, this`pulls
      ensures Valid()
      ensures desk == old(desk).(reading := old(desk.reading) - multiset{p})
      ensures old(acted) <= acted
      ensures p.handle in desk.staged ==> (desk.staged[p.handle], p.stamp) in acted
      ensures pulled == (p.handle in desk.staged && Wants(old(marks)[desk.staged[p.handle]], p.stamp))
      ensures pulls == old(pulls) + (if pulled then [Pull(desk.staged[p.handle], p.stamp, now)] else [])
    {
      ghost var before, had := desk, acted;
      desk := desk.(reading := desk.reading - multiset{p});
      pulled := false;
      if p.handle in desk.staged {
        acted := acted + {(desk.staged[p.handle], p.stamp)};
        pulled := TakeDemand(desk.staged[p.handle], p.stamp, now);
      }
      forall h | h in desk.staged && h in desk.seen
        ensures Seen(desk, acted, h)
      {
        assert Seen(before, had, h);
      }
    }

    /** takeDemand: a stamp taken just now, or one a fetch answers, pulls nothing. */
    method TakeDemand(o: Held, stamp: int, now: int) returns (pulled: bool)
      requires o in marks && AllWorth(pulls)
      requires AllMarked(marks, pulls)
      modifies this`marks, this`pulls
      ensures AllWorth(pulls) && marks.Keys == old(marks).Keys
      ensures AllMarked(marks, pulls)
      ensures pulled == Wants(old(marks)[o], stamp)
      ensures marks == if pulled then old(marks)[o := Took(old(marks)[o], stamp, now)] else old(marks)
      ensures pulls == old(pulls) + (if pulled then [Pull(o, stamp, now)] else [])
    {
      var mark := marks[o];
      if mark.taken == Some(stamp) || !After(stamp, mark.answered) {
        return false;
      }
      PullKeeps(marks, pulls, o, stamp, now);
      pulled := true;
      marks := marks[o := Watermark(Later(mark.answered, now), Some(stamp))];
      pulls := pulls + [Pull(o, stamp, now)];
    }

    /** The unstage takes the volume off the node. */
    method Unstage(handle: string)
      requires Valid()
      modifies this`desk
      ensures Valid() && desk == old(desk).(staged := old(desk.staged) - {handle})
    {
      desk := desk.(staged := desk.staged - {handle});
    }

    /** The watch reports the volume's object deleted. */
    method Forget(handle: string)
      requires Valid()
      modifies this`desk
      ensures Valid() && desk == old(desk).(seen := old(desk.seen) - {handle})
    {
      desk := desk.(seen := desk.seen - {handle});
    }

    /** Any one step of any goroutine. */
    method Any()
      requires Valid()
      modifies this
      ensures Valid() && old(pulls) <= pulls
    {
      var handle: string, stamp: int, now: int := *, *, *;
      var watermark: Watermark := *;
      if {
        case true => Read(handle, stamp);
        case handle !in desk.staged => var _ := Stage(handle, watermark);
        case handle in desk.arriving => Arrived(handle);
        case Pending(handle, stamp) in desk.reading => var _ := ActOn(Pending(handle, stamp), now);
        case true => Unstage(handle);
        case true => Forget(handle);
      }
    }

    /** Any interleaving of reads, stages, unstages and deletions. When every
        goroutine has finished, each staged object has been asked the last demand
        read for its handle. */
    method Run(steps: nat)
      requires Valid()
      modifies this
      ensures Valid() && old(pulls) <= pulls
      ensures desk.reading == multiset{} && desk.arriving == multiset{} ==>
                forall handle :: handle in desk.staged && handle in desk.seen ==>
                  (desk.staged[handle], desk.seen[handle]) in acted
    {
      for i := 0 to steps
        invariant Valid() && old(pulls) <= pulls
      {
        Any();
      }
      forall handle | desk.reading == multiset{} && desk.arriving == multiset{} && handle in desk.staged
               && handle in desk.seen
        ensures (desk.staged[handle], desk.seen[handle]) in acted
      {
        assert Seen(desk, acted, handle);
      }
    }
  }
}
