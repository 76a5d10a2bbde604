// The fetch loop of one repository: the demands, the credentials, the volumes
// that come and go, and the one goroutine that runs the passes. Every method
// another goroutine runs is one critical section or one channel send, and
// Others runs any number of them wherever the loop holds no lock.

module FetchLoop {
  import opened Wrappers
  import opened Backoff

  const DEMAND_SKEW := 60 * SECOND

  /** One volume object. A volume that is staged again is a new object under the
      same id. */
  type Held = nat

  /** One volume object: what it never changes, then the demands its fetches
      answer, the last demand taken, and whether it waits for a credential that a
      restart lost. */
  datatype Volume = Volume(
    id: string, writeable: bool, follows: bool, every: Option<int>,
    answered: Option<int>, taken: Option<int>, lost: bool)

  function Mark(v: Volume): Watermark
  {
    Watermark(v.answered, v.taken)
  }

  datatype Fetch = Fetch(held: Held, start: int)

  /** One pass of the loop: it waits for the repository's lock, starts, takes the
      wanted volumes, lists the volumes, and fetches each. gate marks a pass that
      a demand ran through the gate. */
  datatype Pass =
    | Idle
    | Entering(gate: bool)
    | Starting(start: int)
    | Taking(start: int, taken: map<string, Held>)
    | Visiting(start: int, taken: map<string, Held>, todo: set<Held>, fetching: Option<Fetch>, failed: bool)

  /** A demand a read brought to a volume, and when it was really written. */
  datatype Asked = Asked(held: Held, written: int)

  predicate After(stamp: int, answered: Option<int>)
  {
    answered.None? || stamp > answered.value
  }

  /** A fetch answers every demand stamped at or before its start less the skew,
      and answered only moves forward. */
  function Later(answered: Option<int>, start: int): (r: Option<int>)
    ensures r.Some? && r.value >= start - DEMAND_SKEW
    ensures answered.Some? ==> r.value >= answered.value
    ensures r == answered || r == Some(start - DEMAND_SKEW)
  {
    if After(start - DEMAND_SKEW, answered) then Some(start - DEMAND_SKEW) else answered
  }

  /** What a volume object says of demands: what its fetches answer and the last
      demand it took. */
  datatype Watermark = Watermark(answered: Option<int>, taken: Option<int>)

  /** takeDemand pulls for a demand that no fetch answers and that is not the last
      one taken. */
  predicate Wants(mark: Watermark, stamp: int)
  {
    mark.taken != Some(stamp) && After(stamp, mark.answered)
  }

  /** What the object then says. */
  function Took(mark: Watermark, stamp: int, now: int): Watermark
  {
    Watermark(Later(mark.answered, now), Some(stamp))
  }

  // --------------------------------------------------------- passes and time

  /** Each start is at least gap after the one before it. */
  predicate Spaced(starts: seq<int>, gap: int)
  {
    forall i :: 0 < i < |starts| ==> starts[i] >= starts[i - 1] + gap
  }

  lemma {:induction false} SpacedApart(starts: seq<int>, gap: int, i: nat, j: nat)
    requires Spaced(starts, gap) && i <= j < |starts|
    ensures starts[j] - starts[i] >= (j - i) * gap
    decreases j
  {
    if i < j {
      SpacedApart(starts, gap, i, j - 1);
      assert (j - i) * gap == (j - 1 - i) * gap + gap;
    }
  }

  lemma ManyGaps(n: int, gap: int, window: int)
    requires gap > 0 && n * gap <= window
    ensures n <= window / gap
  {
    var most := window / gap;
    assert window == most * gap + window % gap;
    assert (n - most) * gap == n * gap - most * gap < gap;
    if n - most >= 1 {
      OneGap(n - most, gap);
    }
  }

  lemma OneGap(n: int, gap: int)
    requires n >= 1 && gap > 0
    ensures n * gap >= gap
  {
    assert n * gap == gap + (n - 1) * gap;
  }

  /** A window holds at most its length over the gap, and one more. */
  lemma WindowHolds(starts: seq<int>, gap: int, i: nat, j: nat, window: int)
    requires Spaced(starts, gap) && gap > 0 && i <= j < |starts|
    requires starts[j] - starts[i] <= window
    ensures j - i + 1 <= window / gap + 1
  {
    SpacedApart(starts, gap, i, j);
    ManyGaps(j - i, gap, window);
  }

  // --------------------------------------------------------------- invariants

  /** What the loop and the node know of every volume object. */
  datatype Books = Volumes(
    objects: map<Held, Volume>,
    volumes: map<string, Held>,
    wanted: map<string, Held>,
    acting: set<Held>,
    returning: set<Held>)

  predicate Registered(b: Books)
  {
    (forall id :: id in b.volumes ==> Known(b.objects, id, b.volumes[id]))
    && (forall id :: id in b.wanted ==> OnLoop(b.volumes, id, b.wanted[id]) && Ready(b.objects, b.wanted[id]))
    && b.acting <= b.objects.Keys && b.returning <= b.objects.Keys
  }

  /** The loop holds read-only volumes that follow their ref, each under its own
      id, and an interval is longer than zero. */
  predicate Known(objects: map<Held, Volume>, id: string, o: Held)
  {
    o in objects && objects[o].id == id && Joins(objects[o])
  }

  predicate Joins(v: Volume)
  {
    v.follows && !v.writeable && (v.every.Some? ==> v.every.value > 0)
  }

  predicate OnLoop(volumes: map<string, Held>, id: string, o: Held)
  {
    id in volumes && volumes[id] == o
  }

  predicate Ready(objects: map<Held, Volume>, o: Held)
  {
    o in objects && !objects[o].lost
  }

  /** Something will run a pass: a full slot or a sender about to fill it, a
      timer, or a pass in progress that ends in one of these. */
  predicate Stirs(woken: bool, delay: Option<int>, retry: Option<int>, pass: Pass)
  {
    woken
    || match pass
       case Idle => delay.Some? || retry.Some?
       case Entering(_) => true
       case Starting(_) => true
       case Taking(_, _) => false
       case Visiting(_, _, _, _, failed) => failed
  }

  /** No wakeup is lost: while a volume is wanted, something will run a pass. */
  predicate Awake(wanted: map<string, Held>, stirs: bool)
  {
    forall id :: id in wanted ==> stirs
  }

  /** The intervals that the loop's volumes name. */
  function Intervals(objects: map<Held, Volume>, volumes: map<string, Held>): set<int>
  {
    set id | id in volumes && Interval(objects, volumes[id]).Some? :: Interval(objects, volumes[id]).value
  }

  /** A timer set at a moment fires when the least of the intervals has passed, and
      never when there is none. */
  predicate Fires(timer: Option<int>, at: int, intervals: set<int>)
  {
    if timer.None? then intervals == {}
    else timer.value - at in intervals && forall every :: every in intervals ==> timer.value - at <= every
  }

  function Interval(objects: map<Held, Volume>, o: Held): Option<int>
  {
    if o in objects then objects[o].every else None
  }

  /** Nothing counts as answered that is written after now, less the skew. */
  predicate Past(now: int, objects: map<Held, Volume>)
  {
    forall o :: o in objects ==> Reaches(objects[o].answered, Some(now))
  }

  /** Everything counted as answered was answered by a fetch that worked and
      started no earlier. */
  predicate Reaches(answered: Option<int>, start: Option<int>)
  {
    answered.Some? ==> start.Some? && answered.value + DEMAND_SKEW <= start.value
  }

  predicate Covered(objects: map<Held, Volume>, good: map<Held, int>, o: Held)
    requires o in objects
  {
    Reaches(objects[o].answered, if o in good then Some(good[o]) else None)
  }

  /** The volume is wanted, about to be wanted, or waits for its credential. */
  predicate Owed(b: Books, id: string, o: Held)
    requires o in b.objects
  {
    o in b.acting || o in b.returning || b.objects[o].lost || (id in b.wanted && b.wanted[id] == o)
  }

  /** The running pass took the volume and has not finished its fetch. */
  predicate InPass(pass: Pass, answered: Option<int>, id: string, o: Held)
  {
    match pass
    case Idle => false
    case Entering(_) => false
    case Starting(_) => false
    case Taking(_, taken) => id in taken && taken[id] == o
    case Visiting(_, taken, todo, fetching, _) =>
      id in taken && taken[id] == o
      && (o in todo
          || (fetching.Some? && fetching.value.held == o && Reaches(answered, Some(fetching.value.start))))
  }

  predicate Served(b: Books, good: map<Held, int>, pass: Pass, id: string, o: Held)
  {
    o in b.objects
    && (Covered(b.objects, good, o) || Owed(b, id, o) || InPass(pass, b.objects[o].answered, id, o))
  }

  predicate AllServed(b: Books, good: map<Held, int>, pass: Pass)
  {
    forall id :: id in b.volumes ==> Served(b, good, pass, id, b.volumes[id])
  }

  /** Every demand that was read counts as answered. */
  predicate AskedAnswered(asked: set<Asked>, objects: map<Held, Volume>)
  {
    forall a :: a in asked ==> Counted(a, objects)
  }

  predicate Counted(a: Asked, objects: map<Held, Volume>)
  {
    a.held in objects && objects[a.held].answered.Some?
    && a.written <= objects[a.held].answered.value + DEMAND_SKEW
  }

  /** The gate holds: the passes demands ran are demandMin apart, and the next
      one will be. */
  predicate Gated(gated: seq<int>, demandMin: int, now: int, lastPull: Option<int>, delay: Option<int>, pass: Pass)
  {
    Spaced(gated, demandMin)
    && (pass.Entering? && pass.gate ==> delay.None?)
    && (pass.Starting? && lastPull.Some? ==> lastPull.value <= pass.start)
    && (gated != [] ==>
          var last := gated[|gated| - 1];
          ((lastPull.Some? && last <= lastPull.value) || (pass.Starting? && last <= pass.start))
          && (pass.Entering? && pass.gate ==> last + demandMin <= now)
          && (delay.Some? ==> last + demandMin <= delay.value))
  }

  /** What the loop and the node keep of the volumes and their demands. */
  predicate Kept(b: Books, good: map<Held, int>, asked: set<Asked>, pass: Pass, now: int)
  {
    Registered(b) && Past(now, b.objects)
    && AllServed(b, good, pass) && AskedAnswered(asked, b.objects)
    && (pass.Visiting? && pass.fetching.Some? ==>
          pass.start <= pass.fetching.value.start <= now && pass.fetching.value.held in b.objects)
  }

  // ------------------------------------- what each critical section keeps

  function Made(b: Books, o: Held, v: Volume): Books
  {
    b.(objects := b.objects[o := v])
  }

  lemma MadeKeeps(b: Books, good: map<Held, int>, asked: set<Asked>, pass: Pass, now: int, o: Held, v: Volume,
                  good': map<Held, int>)
    requires Kept(b, good, asked, pass, now) && o !in b.objects
    requires Reaches(v.answered, Some(now))
    requires good' == good || (o in good' && good' == good[o := good'[o]])
    ensures Kept(Made(b, o, v), good', asked, pass, now)
  {
    var b' := Made(b, o, v);
    forall id | id in b'.volumes
      ensures Served(b', good', pass, id, b'.volumes[id])
    {
      assert Served(b, good, pass, id, b.volumes[id]);
    }
    forall a | a in asked
      ensures Counted(a, b'.objects)
    {
      assert Counted(a, b.objects);
    }
  }

  function Acting(b: Books, o: Held): Books
  {
    b.(acting := b.acting + {o})
  }

  lemma ActingKeeps(b: Books, good: map<Held, int>, asked: set<Asked>, pass: Pass, now: int, o: Held)
    requires Kept(b, good, asked, pass, now) && o in b.objects
    ensures Kept(Acting(b, o), good, asked, pass, now)
  {
    var b' := Acting(b, o);
    forall id | id in b'.volumes
      ensures Served(b', good, pass, id, b'.volumes[id])
    {
      assert Served(b, good, pass, id, b.volumes[id]);
    }
  }

  lemma JoinKeeps(b: Books, good: map<Held, int>, asked: set<Asked>, pass: Pass, now: int, o: Held)
    requires Kept(b, good, asked, pass, now) && o in b.objects && b.objects[o].id !in b.volumes
    requires Covered(b.objects, good, o) || Owed(b, b.objects[o].id, o)
    requires Joins(b.objects[o])
    ensures Kept(b.(volumes := b.volumes[b.objects[o].id := o]), good, asked, pass, now)
  {
    var b' := b.(volumes := b.volumes[b.objects[o].id := o]);
    forall id | id in b'.volumes
      ensures Served(b', good, pass, id, b'.volumes[id])
    {
      if id in b.volumes {
        assert Served(b, good, pass, id, b.volumes[id]);
      }
    }
    forall id | id in b'.wanted
      ensures OnLoop(b'.volumes, id, b'.wanted[id])
    {
      assert OnLoop(b.volumes, id, b.wanted[id]);
    }
  }

  function Without(b: Books, id: string): Books
  {
    b.(volumes := b.volumes - {id}, wanted := b.wanted - {id})
  }

  lemma WithoutKeeps(b: Books, good: map<Held, int>, asked: set<Asked>, pass: Pass, now: int, id: string)
    requires Kept(b, good, asked, pass, now)
    ensures Kept(Without(b, id), good, asked, pass, now)
  {
    var b' := Without(b, id);
    forall k | k in b'.volumes
      ensures Served(b', good, pass, k, b'.volumes[k])
    {
      assert Served(b, good, pass, k, b.volumes[k]);
    }
    forall k | k in b'.wanted
      ensures OnLoop(b'.volumes, k, b'.wanted[k])
    {
      assert OnLoop(b.volumes, k, b.wanted[k]);
    }
  }

  /** takeDemand took a new demand: what it counts as answered moves to now less
      the skew, and the demand is on its way to the loop. */
  function Counting(b: Books, o: Held, stamp: int, now: int): Books
    requires o in b.objects
  {
    var v := b.objects[o];
    b.(objects := b.objects[o := v.(answered := Later(v.answered, now), taken := Some(stamp))],
       acting := if v.follows && !v.writeable then b.acting + {o} else b.acting)
  }

  lemma CountingKeeps(b: Books, good: map<Held, int>, asked: set<Asked>, pass: Pass, now: int, o: Held, stamp: int)
    requires Kept(b, good, asked, pass, now) && o in b.objects
    ensures Kept(Counting(b, o, stamp, now), good, asked, pass, now)
  {
    var b' := Counting(b, o, stamp, now);
    forall id | id in b'.volumes
      ensures Served(b', good, pass, id, b'.volumes[id])
    {
      assert Served(b, good, pass, id, b.volumes[id]);
      assert Known(b.objects, id, b.volumes[id]);
    }
    forall a | a in asked
      ensures Counted(a, b'.objects)
    {
      assert Counted(a, b.objects);
    }
  }

  /** A demand whose stamp is new counts when no fetch answers it yet. */
  function Demanded(b: Books, o: Held, stamp: int, now: int): Books
    requires o in b.objects
  {
    if After(stamp, b.objects[o].answered) then Counting(b, o, stamp, now) else b
  }

  lemma DemandedKeeps(b: Books, good: map<Held, int>, asked: set<Asked>, pass: Pass, now: int, o: Held,
                      stamp: int, written: int)
    requires Kept(b, good, asked, pass, now) && o in b.objects
    requires written <= now && written < stamp + DEMAND_SKEW
    ensures Kept(Demanded(b, o, stamp, now), good, asked + {Asked(o, written)}, pass, now)
    ensures Intervals(Demanded(b, o, stamp, now).objects, b.volumes) == Intervals(b.objects, b.volumes)
  {
    CountingKeeps(b, good, asked, pass, now, o, stamp);
    SameTimers(b, Counting(b, o, stamp, now));
    assert Counted(Asked(o, written), Demanded(b, o, stamp, now).objects);
  }

  /** A demand that reached the loop's lock. */
  function Dropped(b: Books, o: Held): Books
  {
    b.(acting := b.acting - {o})
  }

  /** A credential that reached the loop's lock. */
  function Carried(b: Books, o: Held): Books
  {
    b.(returning := b.returning - {o})
  }

  /** A demand that has nowhere to go any more, or that the volume's own wait for
      its credential covers. */
  lemma DroppedKeeps(b: Books, good: map<Held, int>, asked: set<Asked>, pass: Pass, now: int, o: Held)
    requires Kept(b, good, asked, pass, now) && o in b.objects
    requires b.objects[o].lost || !OnLoop(b.volumes, b.objects[o].id, o)
    ensures Kept(Dropped(b, o), good, asked, pass, now)
  {
    var b' := Dropped(b, o);
    forall id | id in b'.volumes
      ensures Served(b', good, pass, id, b'.volumes[id])
    {
      assert Served(b, good, pass, id, b.volumes[id]);
      assert Known(b.objects, id, b.volumes[id]);
    }
  }

  lemma CarriedKeeps(b: Books, good: map<Held, int>, asked: set<Asked>, pass: Pass, now: int, o: Held)
    requires Kept(b, good, asked, pass, now) && o in b.objects
    requires !OnLoop(b.volumes, b.objects[o].id, o)
    ensures Kept(Carried(b, o), good, asked, pass, now)
  {
    var b' := Carried(b, o);
    forall id | id in b'.volumes
      ensures Served(b', good, pass, id, b'.volumes[id])
    {
      assert Served(b, good, pass, id, b.volumes[id]);
      assert Known(b.objects, id, b.volumes[id]);
    }
  }

  function Wanting(b: Books, o: Held): Books
    requires o in b.objects
  {
    b.(wanted := b.wanted[b.objects[o].id := o])
  }

  /** What brings a demand or a credential to the loop leaves: the volume wanted,
      if it is on the loop and does not wait for its credential. */
  function Brought(b: Books, left: Books, o: Held): Books
    requires o in b.objects && left.objects == b.objects
  {
    if !b.objects[o].lost && OnLoop(b.volumes, b.objects[o].id, o) then Wanting(left, o) else left
  }

  lemma WantingKeeps(b: Books, left: Books, good: map<Held, int>, asked: set<Asked>, pass: Pass, now: int, o: Held)
    requires Kept(b, good, asked, pass, now) && Ready(b.objects, o) && OnLoop(b.volumes, b.objects[o].id, o)
    requires left == Dropped(b, o) || left == Carried(b, o) || left == b
    ensures Kept(Wanting(left, o), good, asked, pass, now)
  {
    var b' := Wanting(left, o);
    forall id | id in b'.volumes
      ensures Served(b', good, pass, id, b'.volumes[id])
    {
      assert Served(b, good, pass, id, b.volumes[id]);
      assert Known(b.objects, id, b.volumes[id]);
    }
  }

  function Returned(b: Books, o: Held): Books
    requires o in b.objects
  {
    b.(objects := b.objects[o := b.objects[o].(lost := false)], returning := b.returning + {o})
  }

  lemma ReturnedKeeps(b: Books, good: map<Held, int>, asked: set<Asked>, pass: Pass, now: int, o: Held)
    requires Kept(b, good, asked, pass, now) && o in b.objects
    ensures Kept(Returned(b, o), good, asked, pass, now)
  {
    var b' := Returned(b, o);
    forall id | id in b'.volumes
      ensures Served(b', good, pass, id, b'.volumes[id])
    {
      assert Served(b, good, pass, id, b.volumes[id]);
    }
    forall a | a in asked
      ensures Counted(a, b'.objects)
    {
      assert Counted(a, b.objects);
    }
  }

  /** Nothing changes what interval a volume names. */
  lemma SameTimers(b: Books, b': Books)
    requires Registered(b) && b'.volumes == b.volumes
    requires forall o :: o in b.objects ==> o in b'.objects && b'.objects[o].every == b.objects[o].every
    ensures Intervals(b'.objects, b'.volumes) == Intervals(b.objects, b.volumes)
  {
    forall id | id in b.volumes
      ensures Interval(b'.objects, b.volumes[id]) == Interval(b.objects, b.volumes[id])
    {
      assert Known(b.objects, id, b.volumes[id]);
    }
  }

  // --------------------------------------------- what each part of a pass keeps

  lemma EnteringKeeps(b: Books, good: map<Held, int>, asked: set<Asked>, pass: Pass, now: int, pass': Pass)
    requires Kept(b, good, asked, pass, now) && (pass.Idle? || pass.Entering?)
    requires pass'.Entering? || pass'.Starting?
    ensures Kept(b, good, asked, pass', now)
  {
    forall id | id in b.volumes
      ensures Served(b, good, pass', id, b.volumes[id])
    {
      assert Served(b, good, pass, id, b.volumes[id]);
    }
  }

  lemma TakingKeeps(b: Books, good: map<Held, int>, asked: set<Asked>, pass: Pass, now: int)
    requires Kept(b, good, asked, pass, now) && pass.Starting?
    ensures Kept(b.(wanted := map[]), good, asked, Taking(pass.start, b.wanted), now)
  {
    var b' := b.(wanted := map[]);
    forall id | id in b'.volumes
      ensures Served(b', good, Taking(pass.start, b.wanted), id, b'.volumes[id])
    {
      assert Served(b, good, pass, id, b.volumes[id]);
    }
  }

  lemma ListingKeeps(b: Books, good: map<Held, int>, asked: set<Asked>, pass: Pass, now: int)
    requires Kept(b, good, asked, pass, now) && pass.Taking?
    ensures Kept(b, good, asked, Visiting(pass.start, pass.taken, b.volumes.Values, None, false), now)
  {
    var pass' := Visiting(pass.start, pass.taken, b.volumes.Values, None, false);
    forall id | id in b.volumes
      ensures Served(b, good, pass', id, b.volumes[id])
    {
      assert Served(b, good, pass, id, b.volumes[id]);
      assert b.volumes[id] in b.volumes.Values;
    }
  }

  lemma SkippingKeeps(b: Books, good: map<Held, int>, asked: set<Asked>, pass: Pass, now: int, o: Held)
    requires Kept(b, good, asked, pass, now) && pass.Visiting? && o in b.objects && b.objects[o].lost
    ensures Kept(b, good, asked, pass.(todo := pass.todo - {o}), now)
  {
    var pass' := pass.(todo := pass.todo - {o});
    forall id | id in b.volumes
      ensures Served(b, good, pass', id, b.volumes[id])
    {
      assert Served(b, good, pass, id, b.volumes[id]);
    }
  }

  lemma FetchingKeeps(b: Books, good: map<Held, int>, asked: set<Asked>, pass: Pass, now: int, o: Held)
    requires Kept(b, good, asked, pass, now) && pass.Visiting? && pass.fetching.None? && pass.start <= now
             && o in b.objects
    ensures Kept(b, good, asked, pass.(todo := pass.todo - {o}, fetching := Some(Fetch(o, now))), now)
  {
    var pass' := pass.(todo := pass.todo - {o}, fetching := Some(Fetch(o, now)));
    forall id | id in b.volumes
      ensures Served(b, good, pass', id, b.volumes[id])
    {
      assert Served(b, good, pass, id, b.volumes[id]);
    }
  }

  /** A fetch that worked answers every demand stamped before the pass started,
      less the skew. */
  function Fetched(b: Books, o: Held, start: int): Books
    requires o in b.objects
  {
    b.(objects := b.objects[o := b.objects[o].(answered := Later(b.objects[o].answered, start))])
  }

  lemma FetchedCounts(b: Books, asked: set<Asked>, o: Held, start: int)
    requires AskedAnswered(asked, b.objects) && o in b.objects
    ensures AskedAnswered(asked, Fetched(b, o, start).objects)
  {
    forall a | a in asked
      ensures Counted(a, Fetched(b, o, start).objects)
    {
      assert Counted(a, b.objects);
    }
  }

  lemma FetchedKeeps(b: Books, good: map<Held, int>, asked: set<Asked>, pass: Pass, now: int)
    requires Kept(b, good, asked, pass, now) && pass.Visiting? && pass.fetching.Some?
    ensures var o, began := pass.fetching.value.held, pass.fetching.value.start;
            Kept(Fetched(b, o, pass.start), good[o := BestStart(good, o, began)], asked, pass.(fetching := None), now)
    ensures Intervals(Fetched(b, pass.fetching.value.held, pass.start).objects, b.volumes)
            == Intervals(b.objects, b.volumes)
  {
    var o, began := pass.fetching.value.held, pass.fetching.value.start;
    var b', good', pass' := Fetched(b, o, pass.start), good[o := BestStart(good, o, began)], pass.(fetching := None);
    SameTimers(b, b');
    FetchedCounts(b, asked, o, pass.start);
    forall id | id in b'.volumes
      ensures Served(b', good', pass', id, b'.volumes[id])
    {
      assert Served(b, good, pass, id, b.volumes[id]);
      assert Known(b.objects, id, b.volumes[id]);
    }
  }

  /** The latest start of a fetch that worked. */
  function BestStart(good: map<Held, int>, o: Held, began: int): int
  {
    if o in good && good[o] > began then good[o] else began
  }

  /** wantAgain: a fetch that failed wants a demanded volume again, if it is still
      on the loop. */
  predicate WantsAgain(b: Books, pass: Pass, o: Held)
    requires pass.Visiting? && o in b.objects
  {
    b.objects[o].id in pass.taken && OnLoop(b.volumes, b.objects[o].id, o)
  }

  lemma FailedKeeps(b: Books, good: map<Held, int>, asked: set<Asked>, pass: Pass, now: int)
    requires Kept(b, good, asked, pass, now) && pass.Visiting? && pass.fetching.Some?
    requires !b.objects[pass.fetching.value.held].lost
    ensures var o := pass.fetching.value.held;
            if WantsAgain(b, pass, o)
            then Kept(Wanting(b, o), good, asked, pass.(fetching := None, failed := true), now)
            else Kept(b, good, asked, pass.(fetching := None), now)
  {
    var o := pass.fetching.value.held;
    if WantsAgain(b, pass, o) {
      WantingKeeps(b, b, good, asked, pass, now, o);
      var b', pass' := Wanting(b, o), pass.(fetching := None, failed := true);
      forall id | id in b'.volumes
        ensures Served(b', good, pass', id, b'.volumes[id])
      {
        assert Served(b', good, pass, id, b'.volumes[id]);
        assert Known(b.objects, id, b.volumes[id]);
      }
    } else {
      var pass' := pass.(fetching := None);
      forall id | id in b.volumes
        ensures Served(b, good, pass', id, b.volumes[id])
      {
        assert Served(b, good, pass, id, b.volumes[id]);
        assert Known(b.objects, id, b.volumes[id]);
      }
    }
  }

  lemma DoneKeeps(b: Books, good: map<Held, int>, asked: set<Asked>, pass: Pass, now: int)
    requires Kept(b, good, asked, pass, now) && pass.Visiting? && pass.todo == {} && pass.fetching.None?
    ensures Kept(b, good, asked, Idle, now)
  {
    forall id | id in b.volumes
      ensures Served(b, good, Idle, id, b.volumes[id])
    {
      assert Served(b, good, pass, id, b.volumes[id]);
    }
  }

  /** The cases of the loop's select. */
  datatype Event = Nothing | Wake | Demand | DelayOver | Credential | IntervalOver | RetryOver

  class Loop {
    const demandMin: int
    var now: int
    // Every volume object, the loop's own volumes and wanted ones, and the
    // goroutines that hold a demand or a credential for it.
    var books: Books
    var lastPull: Option<int>
    var backoff: int
    // The three channels, one slot each.
    var wake: bool
    var demanded: bool
    var arrived: bool
    // The three timers: when each fires.
    var timer: Option<int>
    var delay: Option<int>
    var retry: Option<int>
    var waiting: bool
    // Goroutines about to send on each channel.
    var demanding: nat
    var arriving: nat
    var nudging: nat
    var pass: Pass
    // When the last fetch of the object that worked had started.
    ghost var good: map<Held, int>
    // Every demand a read brought to a volume with a new stamp.
    ghost var asked: set<Asked>
    // The starts of the passes a demand ran through the gate.
    ghost var gated: seq<int>
    // When the interval timer was last set, or left stopped.
    ghost var armed: int
    // The failed passes since the last one that worked.
    ghost var fails: nat

    ghost predicate Woken()
      reads this
    {
      demanded || arrived || demanding > 0 || arriving > 0
    }

    /** The interval timer fires when the least interval the volumes name has passed
        since it was set, or the loop is about to set it again. */
    ghost predicate Timed()
      reads this
    {
      wake || nudging > 0 || !pass.Idle? || Fires(timer, armed, Intervals(books.objects, books.volumes))
    }

    ghost predicate Ticking()
      reads this
    {
      demandMin >= 0 && backoff == BackoffAfter(fails, demandMin)
      && (waiting <==> delay.Some?)
      && (lastPull.Some? ==> lastPull.value <= now)
      && armed <= now && (pass.Idle? && lastPull.Some? ==> lastPull.value <= armed)
      && (pass.Starting? || pass.Taking? || pass.Visiting? ==> pass.start <= now)
      && Gated(gated, demandMin, now, lastPull, delay, pass)
    }

    ghost predicate Valid()
      reads this
    {
      Ticking()
      && Kept(books, good, asked, pass, now)
      && Awake(books.wanted, Stirs(Woken(), delay, retry, pass))
      && Timed()
    }

    /** Every demand that was ever read, of a volume the loop holds, has been
        answered by a fetch of that volume that worked and started no earlier
        than the demand was written, or is still owed: wanted, about to be
        wanted, in the running pass, or waiting for its credential. */
    lemma NoDemandIsMissed(id: string, written: int)
      requires Valid() && id in books.volumes && Asked(books.volumes[id], written) in asked
      ensures var o := books.volumes[id];
              (o in good && written <= good[o])
              || Owed(books, id, o)
              || InPass(pass, books.objects[o].answered, id, o)
    {
      assert Served(books, good, pass, id, books.volumes[id]);
      assert Counted(Asked(books.volumes[id], written), books.objects);
    }

    /** While the loop waits with no wake on its way, the timer fires no later than
        the interval of each volume after it was set, and sooner than none. */
    lemma IntervalIsKept(id: string)
      requires Valid() && pass.Idle? && !wake && nudging == 0
      requires id in books.volumes && Interval(books.objects, books.volumes[id]).Some?
      ensures timer.Some? && armed <= now && (lastPull.Some? ==> lastPull.value <= armed)
      ensures timer.value <= armed + Interval(books.objects, books.volumes[id]).value
      ensures exists id' :: id' in books.volumes
                            && Interval(books.objects, books.volumes[id']) == Some(timer.value - armed)
    {
      assert Interval(books.objects, books.volumes[id]).value in Intervals(books.objects, books.volumes);
    }

    /** The gate bounds the passes that demands run in any window of time. */
    lemma GateHolds(i: nat, j: nat, window: int)
      requires Valid() && demandMin > 0 && i <= j < |gated| && gated[j] - gated[i] <= window
      ensures j - i + 1 <= window / demandMin + 1
    {
      WindowHolds(gated, demandMin, i, j, window);
    }

    constructor (demandMin: int, at: int)
      requires demandMin >= 0
      ensures Valid() && this.demandMin == demandMin && now == at && pass.Idle? && asked == {} && gated == []
      ensures books == Volumes(map[], map[], map[], {}, {})
      ensures !wake && !demanded && !arrived && timer.None? && delay.None? && retry.None? && lastPull.None?
    {
      this.demandMin, now := demandMin, at;
      books := Volumes(map[], map[], map[], {}, {});
      lastPull, backoff := None, 0;
      wake, demanded, arrived := false, false, false;
      timer, delay, retry, waiting := None, None, None, false;
      demanding, arriving, nudging, pass := 0, 0, 0, Idle;
      good, asked, gated, armed, fails := map[], {}, [], at, 0;
    }

    // -------------------------------------------- what other goroutines run

    method Advance(elapsed: nat)
      requires Valid()
      modifies this`now
      ensures Valid() && now == old(now) + elapsed
    {
      now := now + elapsed;
    }

    /** A stage made a volume. A fetch that worked answers what was stamped before
        it started; a stage that served the node's copy answers nothing. */
    method Stage(o: Held, v: Volume, fetched: Option<int>)
      requires Valid() && o !in books.objects && v.taken.None? && !v.lost
      requires fetched.Some? ==> fetched.value <= now
      requires v.answered == if fetched.Some? then Some(fetched.value - DEMAND_SKEW) else None
      modifies this`books, this`good
      ensures Valid() && books == Made(old(books), o, v) && Covered(books.objects, good, o)
    {
      books := Made(books, o, v);
      if fetched.Some? {
        good := good[o := fetched.value];
      }
      assert Stirs(Woken(), delay, retry, pass) == old(Stirs(Woken(), delay, retry, pass));
      MadeKeeps(old(books), old(good), asked, pass, now, o, v, good);
      SameTimers(old(books), books);
    }

    /** A restart made a volume. It counts every demand written before it as
        answered and makes the demand that covers them itself, unless the volume
        waits for its credential. */
    method Resume(o: Held, v: Volume)
      requires Valid() && o !in books.objects && v.taken.None? && v.answered == Some(now - DEMAND_SKEW)
      modifies this`books
      ensures Valid() && books == (if v.lost then Made(old(books), o, v) else Acting(Made(old(books), o, v), o))
    {
      books := Made(books, o, v);
      MadeKeeps(old(books), good, asked, pass, now, o, v, good);
      SameTimers(old(books), books);
      if !v.lost {
        ghost var made := books;
        books := Acting(books, o);
        ActingKeeps(made, good, asked, pass, now, o);
      }
    }

    /** follow: adds the volume to the loop. */
    method Join(o: Held)
      requires Valid() && o in books.objects && books.objects[o].id !in books.volumes
      requires Covered(books.objects, good, o) || Owed(books, books.objects[o].id, o)
      requires Joins(books.objects[o])
      modifies this`books, this`nudging
      ensures Valid() && books == old(books).(volumes := old(books).volumes[old(books).objects[o].id := o])
      ensures nudging == old(nudging) + 1
    {
      books := books.(volumes := books.volumes[books.objects[o].id := o]);
      nudging := nudging + 1;
      JoinKeeps(old(books), good, asked, pass, now, o);
    }

    /** unfollow: takes the volume off the loop and off the demands. */
    method Leave(id: string)
      requires Valid()
      modifies this`books, this`nudging
      ensures Valid() && books == Without(old(books), id) && nudging == old(nudging) + 1
    {
      books := Without(books, id);
      nudging := nudging + 1;
      WithoutKeeps(old(books), good, asked, pass, now, id);
    }

    method Nudge()
      requires Valid() && nudging > 0
      modifies this`wake, this`nudging
      ensures Valid() && wake
    {
      nudging, wake := nudging - 1, true;
    }

    /** takeDemand: a demand counts when its stamp differs from the last one taken
        and is later than what the volume's fetches answer. */
    method TakeDemand(o: Held, stamp: int, ghost written: int) returns (counts: bool)
      requires Valid() && o in books.objects
      requires written <= now && written < stamp + DEMAND_SKEW
      modifies this`books, this`asked
      ensures Valid()
      ensures counts <==> Wants(Mark(old(books).objects[o]), stamp)
      ensures o in books.objects && Mark(books.objects[o])
              == if counts then Took(Mark(old(books).objects[o]), stamp, now) else Mark(old(books).objects[o])
      ensures books == if counts then Counting(old(books), o, stamp, now) else old(books)
      // A goroutine carries it to the loop of a read-only volume that follows its ref.
      ensures var v := old(books).objects[o];
              books.acting == old(books).acting + if counts && v.follows && !v.writeable then {o} else {}
      ensures asked == old(asked) + if old(books).objects[o].taken == Some(stamp) then {} else {Asked(o, written)}
    {
      var v := books.objects[o];
      if v.taken == Some(stamp) {
        return false;
      }
      counts := After(stamp, v.answered);
      books := Demanded(books, o, stamp, now);
      asked := asked + {Asked(o, written)};
      DemandedKeeps(old(books), good, old(asked), pass, now, o, stamp, written);
    }

    /** demand: wants the volume, unless it waits for its credential or has left
        the loop. The send comes after the lock. */
    method CarryDemand(o: Held)
      requires Valid() && o in books.acting
      modifies this`books, this`demanding
      ensures Valid()
      ensures books == Brought(old(books), Dropped(old(books), o), o)
    {
      if books.objects[o].lost || !OnLoop(books.volumes, books.objects[o].id, o) {
        DropDemand(o);
      } else {
        WantDemanded(o);
      }
    }

    method DropDemand(o: Held)
      requires Valid() && o in books.acting
      requires books.objects[o].lost || !OnLoop(books.volumes, books.objects[o].id, o)
      modifies this`books
      ensures Valid() && books == Dropped(old(books), o)
    {
      books := Dropped(books, o);
      assert Stirs(Woken(), delay, retry, pass) == old(Stirs(Woken(), delay, retry, pass));
      DroppedKeeps(old(books), good, asked, pass, now, o);
    }

    method WantDemanded(o: Held)
      requires Valid() && o in books.acting
      requires !books.objects[o].lost && OnLoop(books.volumes, books.objects[o].id, o)
      modifies this`books, this`demanding
      ensures Valid() && books == Wanting(Dropped(old(books), o), o)
    {
      books := Wanting(Dropped(books, o), o);
      demanding := demanding + 1;
      WantingKeeps(old(books), Dropped(old(books), o), good, asked, pass, now, o);
    }

    method SendDemand()
      requires Valid() && demanding > 0
      modifies this`demanding, this`demanded
      ensures Valid() && demanded
    {
      demanding, demanded := demanding - 1, true;
    }

    /** takeCredential: a republish returned the credential, or carried a rotated
        one. */
    method TakeCredential(o: Held)
      requires Valid() && o in books.objects
      modifies this`books
      ensures Valid() && books == Returned(old(books), o)
    {
      books := Returned(books, o);
      ReturnedKeeps(old(books), good, asked, pass, now, o);
      SameTimers(old(books), books);
    }

    /** credentialArrived: wants a pass for the volume, past the gate. */
    method CarryCredential(o: Held)
      requires Valid() && o in books.returning && !books.objects[o].lost
      modifies this`books, this`arriving
      ensures Valid()
      ensures books == Brought(old(books), Carried(old(books), o), o)
    {
      if !OnLoop(books.volumes, books.objects[o].id, o) {
        books := Carried(books, o);
        CarriedKeeps(old(books), good, asked, pass, now, o);
        return;
      }
      books := Wanting(Carried(books, o), o);
      arriving := arriving + 1;
      WantingKeeps(old(books), Carried(old(books), o), good, asked, pass, now, o);
    }

    method SendArrived()
      requires Valid() && arriving > 0
      modifies this`arriving, this`arrived
      ensures Valid() && arrived
    {
      arriving, arrived := arriving - 1, true;
    }

    /** Any number of the steps above, by any goroutines, at a moment when the
        loop holds neither its own lock nor a value it read under it. */
    method Others()
      requires Valid()
      modifies this`now, this`books, this`good, this`asked, this`nudging, this`wake
      modifies this`demanding, this`demanded, this`arriving, this`arrived
      ensures Valid() && now >= old(now)
      ensures old(asked) <= asked
      ensures forall o :: o in old(books).objects ==>
                o in books.objects && (books.objects[o].lost ==> old(books).objects[o].lost)
      ensures (old(wake) ==> wake) && (old(demanded) ==> demanded) && (old(arrived) ==> arrived)
    {
      var steps: nat := *;
      while steps > 0
        invariant Valid() && now >= old(now) && old(asked) <= asked
        invariant forall o :: o in old(books).objects ==>
                  o in books.objects && (books.objects[o].lost ==> old(books).objects[o].lost)
        invariant (old(wake) ==> wake) && (old(demanded) ==> demanded) && (old(arrived) ==> arrived)
      {
        Other();
        steps := steps - 1;
      }
    }

    /** The node follows a volume in the critical section that makes it known. */
    method Follow(o: Held)
      requires Valid() && o in books.objects
      requires Covered(books.objects, good, o) || Owed(books, books.objects[o].id, o)
      modifies this`books, this`nudging
      ensures Valid() && books.objects == old(books).objects
      ensures var v := old(books).objects[o];
              if v.follows && !v.writeable && (v.every.Some? ==> v.every.value > 0) && v.id !in old(books).volumes
              then books.volumes == old(books).volumes[v.id := o] && nudging > 0
              else books == old(books) && nudging == old(nudging)
    {
      var v := books.objects[o];
      if Joins(v) && v.id !in books.volumes {
        Join(o);
      }
    }

    method Other()
      requires Valid()
      modifies this`now, this`books, this`good, this`asked, this`nudging, this`wake
      modifies this`demanding, this`demanded, this`arriving, this`arrived
      ensures Valid() && now >= old(now) && old(asked) <= asked
      ensures forall o :: o in old(books).objects ==>
                o in books.objects && (books.objects[o].lost ==> old(books).objects[o].lost)
      ensures (old(wake) ==> wake) && (old(demanded) ==> demanded) && (old(arrived) ==> arrived)
    {
      var node: bool := *;
      if node { OtherNode(); } else { OtherDemand(); }
    }

    /** A volume is staged, or a restart resumes it. */
    method OtherVolume()
      requires Valid()
      modifies this`books, this`good, this`nudging
      ensures Valid()
      ensures forall o :: o in old(books).objects ==>
                o in books.objects && (books.objects[o].lost ==> old(books).objects[o].lost)
    {
      var o: Held, v: Volume, start: nat := *, *, *;
      if
      case true =>
      case o !in books.objects && v.taken.None? && !v.lost =>
        Stage(o, v.(answered := None), None);
        Follow(o);
      case o !in books.objects && v.taken.None? && !v.lost && start <= now =>
        Stage(o, v.(answered := Some(start - DEMAND_SKEW)), Some(start));
        Follow(o);
      case o !in books.objects && v.taken.None? =>
        Resume(o, v.(answered := Some(now - DEMAND_SKEW)));
        Follow(o);
    }

    /** Time passes, and volumes come and go. */
    method OtherNode()
      requires Valid()
      modifies this`now, this`books, this`good, this`asked, this`nudging, this`wake
      modifies this`demanding, this`demanded, this`arriving, this`arrived
      ensures Valid() && now >= old(now) && old(asked) <= asked
      ensures forall o :: o in old(books).objects ==>
                o in books.objects && (books.objects[o].lost ==> old(books).objects[o].lost)
      ensures (old(wake) ==> wake) && (old(demanded) ==> demanded) && (old(arrived) ==> arrived)
    {
      var id: string, elapsed: nat := *, *;
      if
      case true => Advance(elapsed);
      case true => OtherVolume();
      case id in books.volumes => Leave(id);
      case nudging > 0 => Nudge();
    }

    /** Demands are read and credentials return. */
    method OtherDemand()
      requires Valid()
      modifies this`now, this`books, this`good, this`asked, this`nudging, this`wake
      modifies this`demanding, this`demanded, this`arriving, this`arrived
      ensures Valid() && now >= old(now) && old(asked) <= asked
      ensures forall o :: o in old(books).objects ==>
                o in books.objects && (books.objects[o].lost ==> old(books).objects[o].lost)
      ensures (old(wake) ==> wake) && (old(demanded) ==> demanded) && (old(arrived) ==> arrived)
    {
      var o: Held, stamp: int, written: int := *, *, *;
      if
      case true =>
      case o in books.objects && written <= now && written < stamp + DEMAND_SKEW =>
        var counts := TakeDemand(o, stamp, written);
      case o in books.acting => CarryDemand(o);
      case demanding > 0 => SendDemand();
      case o in books.objects => TakeCredential(o);
      case o in books.returning && !books.objects[o].lost => CarryCredential(o);
      case arriving > 0 => SendArrived();
    }

    // ------------------------------------------------- the loop's own goroutine

    /** interval: the shortest interval among the volumes, and none when every one
        of them pulls on demand alone. */
    method ShortestInterval() returns (every: Option<int>)
      requires Valid()
      ensures every.Some? ==> every.value > 0
      ensures Fires(every, 0, Intervals(books.objects, books.volumes))
    {
      var shortest := 0;
      var ids := books.volumes.Keys;
      while ids != {}
        invariant ids <= books.volumes.Keys && shortest >= 0
        invariant shortest != 0 ==>
                    exists id :: id in books.volumes && Interval(books.objects, books.volumes[id]) == Some(shortest)
        invariant forall id :: id in books.volumes && id !in ids && Interval(books.objects, books.volumes[id]).Some? ==>
                    0 < shortest <= Interval(books.objects, books.volumes[id]).value
        decreases ids
      {
        var id :| id in ids;
        assert Known(books.objects, id, books.volumes[id]);
        var timed := books.objects[books.volumes[id]].every;
        if timed.Some? && (shortest == 0 || timed.value < shortest) {
          shortest := timed.value;
          assert Interval(books.objects, books.volumes[id]) == Some(shortest);
        }
        ids := ids - {id};
      }
      every := if shortest == 0 then None else Some(shortest);
    }

    /** arm: sets the interval timer, or leaves it stopped. */
    method Arm()
      requires Valid()
      modifies this`timer, this`armed
      ensures Valid() && armed == now && Fires(timer, now, Intervals(books.objects, books.volumes))
    {
      var every := ShortestInterval();
      armed, timer := now, if every.Some? then Some(now + every.value) else None;
    }

    /** A wake reads the interval again. */
    method OnWake()
      requires Valid() && pass.Idle? && wake
      modifies this`wake, this`timer, this`armed
      ensures Valid() && !wake && Fires(timer, now, Intervals(books.objects, books.volumes))
    {
      Arm();
      wake := false;
    }

    /** A demand runs a pass when the gate is open, waits for the gate when it is
        not, and is dropped while another demand waits. */
    method OnDemanded()
      requires Valid() && pass.Idle? && demanded
      modifies this`demanded, this`delay, this`waiting, this`pass
      ensures Valid() && !demanded
      ensures old(waiting) ==> waiting && delay == old(delay) && pass == old(pass)
      ensures !old(waiting) && waiting ==>
                pass.Idle? && lastPull.Some? && now - lastPull.value < demandMin
                  && delay == Some(lastPull.value + demandMin)
      ensures !waiting ==> pass == Entering(true) && (lastPull.None? || now - lastPull.value >= demandMin)
    {
      demanded := false;
      if waiting {
        return;
      }
      if lastPull.Some? && demandMin - (now - lastPull.value) > 0 {
        delay, waiting := Some(now + (demandMin - (now - lastPull.value))), true;
        return;
      }
      pass := Entering(true);
      EnteringKeeps(books, good, asked, old(pass), now, pass);
    }

    method OnDelay()
      requires Valid() && pass.Idle? && delay.Some? && delay.value <= now
      modifies this`delay, this`waiting, this`pass
      ensures Valid() && !waiting && delay.None? && pass == Entering(true)
    {
      delay, waiting, pass := None, false, Entering(true);
      EnteringKeeps(books, good, asked, old(pass), now, pass);
    }

    method OnArrived()
      requires Valid() && pass.Idle? && arrived
      modifies this`arrived, this`pass
      ensures Valid() && !arrived && pass == Entering(false)
    {
      arrived, pass := false, Entering(false);
      EnteringKeeps(books, good, asked, old(pass), now, pass);
    }

    method OnTimer()
      requires Valid() && pass.Idle? && timer.Some? && timer.value <= now
      modifies this`timer, this`pass
      ensures Valid() && timer.None? && pass == Entering(false)
    {
      timer, pass := None, Entering(false);
      EnteringKeeps(books, good, asked, old(pass), now, pass);
    }

    method OnRetry()
      requires Valid() && pass.Idle? && retry.Some? && retry.value <= now
      modifies this`retry, this`pass
      ensures Valid() && retry.None? && pass == Entering(false)
    {
      retry, pass := None, Entering(false);
      EnteringKeeps(books, good, asked, old(pass), now, pass);
    }

    /** The repository's lock is taken, and the pass is timed from here. */
    method StartPass()
      requires Valid() && pass.Entering?
      modifies this`pass, this`gated
      ensures Valid() && pass == Starting(now)
      ensures gated == old(gated) + if old(pass).gate then [now] else []
    {
      if pass.gate {
        gated := gated + [now];
      }
      pass := Starting(now);
      EnteringKeeps(books, good, asked, old(pass), now, pass);
    }

    /** answered: takes the wanted volumes and times the pull. */
    method TakeWanted()
      requires Valid() && pass.Starting?
      modifies this`pass, this`books, this`lastPull
      ensures Valid() && pass == Taking(old(pass).start, old(books).wanted) && lastPull == Some(pass.start)
      ensures books == old(books).(wanted := map[])
    {
      TakingKeeps(books, good, asked, pass, now);
      pass, lastPull, books := Taking(pass.start, books.wanted), Some(pass.start), books.(wanted := map[]);
    }

    /** snapshot: lists the volumes to fetch. */
    method ListVolumes()
      requires Valid() && pass.Taking?
      modifies this`pass
      ensures Valid() && pass == Visiting(old(pass).start, old(pass).taken, books.volumes.Values, None, false)
    {
      ListingKeeps(books, good, asked, pass, now);
      pass := Visiting(pass.start, pass.taken, books.volumes.Values, None, false);
    }

    /** A volume that waits for its credential is passed over; any other is
        fetched. */
    method Visit(o: Held)
      requires Valid() && pass.Visiting? && pass.fetching.None? && o in books.objects
      modifies this`pass
      ensures Valid()
      ensures pass == old(pass).(todo := old(pass).todo - {o},
                                 fetching := if books.objects[o].lost then None else Some(Fetch(o, now)))
    {
      if books.objects[o].lost {
        SkippingKeeps(books, good, asked, pass, now, o);
        pass := pass.(todo := pass.todo - {o});
        return;
      }
      FetchingKeeps(books, good, asked, pass, now, o);
      pass := pass.(todo := pass.todo - {o}, fetching := Some(Fetch(o, now)));
    }

    /** The fetch worked, and answers what was stamped before the pass started. */
    method FetchWorked()
      requires Valid() && pass.Visiting? && pass.fetching.Some?
      modifies this`pass, this`books, this`good
      ensures Valid() && pass == old(pass).(fetching := None)
      ensures books == Fetched(old(books), old(pass).fetching.value.held, pass.start)
      ensures old(pass).fetching.value.held in good
                && good[old(pass).fetching.value.held] >= old(pass).fetching.value.start
    {
      var o, began := pass.fetching.value.held, pass.fetching.value.start;
      books, good := Fetched(books, o, pass.start), good[o := BestStart(good, o, began)];
      pass := pass.(fetching := None);
      assert Stirs(Woken(), delay, retry, pass) == old(Stirs(Woken(), delay, retry, pass));
      FetchedKeeps(old(books), old(good), asked, old(pass), now);
    }

    /** The fetch failed, and answers nothing. */
    method FetchFailed()
      requires Valid() && pass.Visiting? && pass.fetching.Some? && !books.objects[pass.fetching.value.held].lost
      modifies this`pass, this`books
      ensures Valid()
      // A volume that a demand named is wanted again, if the loop still holds it.
      ensures var o := old(pass).fetching.value.held;
              var id := old(books).objects[o].id;
              if id in old(pass).taken && id in old(books).volumes && old(books).volumes[id] == o
              then books == Wanting(old(books), o) && pass == old(pass).(fetching := None, failed := true)
              else books == old(books) && pass == old(pass).(fetching := None)
    {
      var o := pass.fetching.value.held;
      FailedKeeps(books, good, asked, pass, now);
      if WantsAgain(books, pass, o) {
        books, pass := Wanting(books, o), pass.(fetching := None, failed := true);
      } else {
        pass := pass.(fetching := None);
      }
    }

    /** settle: a pass whose demanded fetch failed sets the retry, and one that
        worked stops it. */
    method Settle()
      requires Valid() && pass.Visiting?
      modifies this`retry, this`backoff, this`fails
      ensures Valid()
      ensures fails == if pass.failed then old(fails) + 1 else 0
      ensures retry.Some? <==> pass.failed
      ensures retry.Some? ==> now + LeastWait(backoff, demandMin) <= retry.value <= now + backoff
    {
      if !pass.failed {
        backoff, fails, retry := 0, 0, None;
        return;
      }
      BackoffBounds(fails + 1, demandMin);
      backoff, fails := NextBackoff(backoff, demandMin), fails + 1;
      var wait := Jittered(backoff, demandMin);
      retry := Some(now + wait);
    }

    /** The end of a pass. */
    method EndPass()
      requires Valid() && pass.Visiting? && pass.todo == {} && pass.fetching.None? && (pass.failed ==> retry.Some?)
      modifies this`pass, this`timer, this`armed
      ensures Valid() && pass.Idle? && Fires(timer, now, Intervals(books.objects, books.volumes))
    {
      Arm();
      DoneKeeps(books, good, asked, pass, now);
      pass := Idle;
    }

    /** Fetches every listed volume, each with its own credential. */
    method VisitAll()
      requires Valid() && pass.Visiting? && pass.fetching.None? && pass.todo <= books.objects.Keys
      modifies this`now, this`books, this`good, this`asked, this`nudging, this`wake, this`pass
      modifies this`demanding, this`demanded, this`arriving, this`arrived
      ensures Valid() && pass.Visiting? && pass.fetching.None? && pass.todo == {}
      ensures old(asked) <= asked && now >= old(now)
    {
      while pass.todo != {}
        invariant Valid() && pass.Visiting? && pass.fetching.None? && pass.todo <= books.objects.Keys
        invariant old(asked) <= asked && now >= old(now)
        decreases pass.todo
      {
        Others();
        var o :| o in pass.todo;
        FetchOne(o);
      }
    }

    method FetchOne(o: Held)
      requires Valid() && pass.Visiting? && pass.fetching.None? && o in pass.todo && pass.todo <= books.objects.Keys
      modifies this`now, this`books, this`good, this`asked, this`nudging, this`wake, this`pass
      modifies this`demanding, this`demanded, this`arriving, this`arrived
      ensures Valid() && pass.Visiting? && pass.fetching.None? && pass.todo == old(pass).todo - {o}
      ensures pass.todo <= books.objects.Keys
      ensures old(asked) <= asked && now >= old(now)
    {
      Visit(o);
      if pass.fetching.Some? {
        Others();
        var worked: bool := *;
        if worked { FetchWorked(); } else { FetchFailed(); }
      }
    }

    /** The start of a pass: the lock, the wanted volumes, the list. */
    method BeginPass()
      requires Valid() && pass.Entering?
      modifies this`now, this`books, this`good, this`asked, this`nudging, this`wake, this`pass, this`gated
      modifies this`lastPull
      modifies this`demanding, this`demanded, this`arriving, this`arrived
      ensures Valid() && pass.Visiting? && pass.fetching.None? && pass.todo <= books.objects.Keys
      ensures old(asked) <= asked
      ensures lastPull.Some? && lastPull.value >= old(now)
      ensures gated == old(gated) + if old(pass).gate then [lastPull.value] else []
    {
      Others();
      StartPass();
      TakeAndList();
    }

    /** The wanted volumes, and then the list. */
    method TakeAndList()
      requires Valid() && pass.Starting?
      modifies this`now, this`books, this`good, this`asked, this`nudging, this`wake, this`pass, this`lastPull
      modifies this`demanding, this`demanded, this`arriving, this`arrived
      ensures Valid() && pass.Visiting? && pass.fetching.None? && pass.todo <= books.objects.Keys
      ensures pass.start == old(pass).start && lastPull == Some(pass.start)
      ensures old(asked) <= asked && now >= old(now)
    {
      Others();
      TakeWanted();
      Others();
      ListVolumes();
    }

    /** One pass, with the rest of the node at work between any two of its
        steps. */
    method Tick()
      requires Valid() && pass.Entering?
      modifies this
      ensures Valid() && pass.Idle? && old(asked) <= asked
      ensures Fires(timer, now, Intervals(books.objects, books.volumes))
      ensures lastPull.Some? && lastPull.value >= old(now)
      ensures gated == old(gated) + if old(pass).gate then [lastPull.value] else []
      ensures fails == 0 || fails == old(fails) + 1
      ensures retry.Some? <==> fails > 0
      ensures retry.Some? ==> now + LeastWait(backoff, demandMin) <= retry.value <= now + backoff
      ensures waiting == old(waiting) && delay == old(delay)
    {
      BeginPass();
      FinishPass();
    }

    /** The fetches of a pass, and what it leaves to the retry. */
    method FinishPass()
      requires Valid() && pass.Visiting? && pass.fetching.None? && pass.todo <= books.objects.Keys
      modifies this`now, this`books, this`good, this`asked, this`nudging, this`wake, this`pass
      modifies this`demanding, this`demanded, this`arriving, this`arrived
      modifies this`retry, this`backoff, this`fails, this`timer, this`armed
      ensures Valid() && pass.Idle? && old(asked) <= asked
      ensures Fires(timer, now, Intervals(books.objects, books.volumes))
      ensures fails == 0 || fails == old(fails) + 1
      ensures retry.Some? <==> fails > 0
      ensures retry.Some? ==> now + LeastWait(backoff, demandMin) <= retry.value <= now + backoff
    {
      VisitAll();
      Settle();
      EndPass();
    }

    /** What the loop's next turn may take. */
    ghost predicate Due(e: Event)
      reads this
    {
      match e
      case Nothing => true
      case Wake => wake
      case Demand => demanded
      case DelayOver => delay.Some? && delay.value <= now
      case Credential => arrived
      case IntervalOver => timer.Some? && timer.value <= now
      case RetryOver => retry.Some? && retry.value <= now
    }

    /** One turn of the select: it takes whichever event is there. A wake sets the
        timer; a demand enters a pass unless the gate is shut or a demand waits for it;
        any other event enters one. */
    method Select() returns (ghost e: Event)
      requires Valid() && pass.Idle?
      modifies this`wake, this`timer, this`armed, this`demanded, this`delay, this`waiting, this`pass, this`arrived
      modifies this`retry
      ensures Valid() && old(Due(e)) && (e != Nothing ==> !Due(e))
      ensures match e
              case Nothing => unchanged(this)
              case Wake => !wake && pass.Idle? && Fires(timer, now, Intervals(books.objects, books.volumes))
              case Demand =>
                !demanded
                && (if old(waiting) then pass.Idle? && delay == old(delay)
                    else if lastPull.Some? && now - lastPull.value < demandMin
                    then pass.Idle? && delay == Some(lastPull.value + demandMin)
                    else pass == Entering(true))
              case DelayOver => pass == Entering(true) && !waiting
              case Credential => pass == Entering(false)
              case IntervalOver => pass == Entering(false)
              case RetryOver => pass == Entering(false)
    {
      if {
        case true => e := Nothing;
        case wake => OnWake(); e := Wake;
        case demanded => OnDemanded(); e := Demand;
        case delay.Some? && delay.value <= now => OnDelay(); e := DelayOver;
        case arrived => OnArrived(); e := Credential;
        case timer.Some? && timer.value <= now => OnTimer(); e := IntervalOver;
        case retry.Some? && retry.value <= now => OnRetry(); e := RetryOver;
      }
    }

    /** run: the select loop, for any number of turns. Whatever the other
        goroutines do and whatever the fetches answer, every turn ends with no
        demand missed, no wakeup lost, and the gated passes demandMin apart. */
    method Run(turns: nat) returns (ghost events: seq<Event>)
      requires Valid() && pass.Idle?
      modifies this
      ensures Valid() && pass.Idle? && old(asked) <= asked && |events| == turns
      ensures old(gated) <= gated && Spaced(gated, demandMin)
      // While a volume is wanted, a token is in its channel or on its way, or the
      // gate's delay or the retry is set.
      ensures books.wanted != map[] ==>
                demanded || demanding > 0 || arrived || arriving > 0 || delay.Some? || retry.Some?
    {
      var turn := 0;
      events := [];
      while turn < turns
        invariant Valid() && pass.Idle? && old(asked) <= asked && old(gated) <= gated
        invariant |events| == turn <= turns
      {
        Others();
        ghost var e := Select();
        if pass.Entering? {
          Tick();
        }
        events := events + [e];
        turn := turn + 1;
      }
      assert forall id :: id in books.wanted ==> Stirs(Woken(), delay, retry, pass);
    }
  }
}
