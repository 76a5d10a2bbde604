// The watch on one published work tree: a write restarts the quiesce timer, a
// class that arms the volume sets it again, and a scan commits what has rested.
// Others runs the inotify reader and the claim's own watch wherever the loop
// holds nothing.

module Watch {
  import opened Wrappers

  /** A timer runs until its deadline, and is spent once the loop has received
      its tick. A reset drops a tick nobody received. */
  datatype Timer = Running(deadline: int) | Spent(at: int)

  /** What the goroutines share: the last write, the two one-slot channels, and
      the quiesce of the class in force, if the volume is armed. A goroutine is
      nudging between its write of the time and its send, and classing between
      its write of the class and its send; sent counts the sends. */
  datatype Shared = Shared(
    now: int, written: int, changes: bool, classed: bool,
    rules: Option<int>, nudging: bool, classing: bool, sent: nat)

  /** A commit of a scan: what the scan took the quiesce for, when it measured
      the rest, and the last write then. */
  datatype Commit = Commit(quiesce: int, at: int, written: int)

  predicate Outstanding(s: Shared)
  {
    s.changes || s.classed || s.nudging || s.classing
  }

  /** The volume is armed and no token or goroutine is on its way to the loop. */
  predicate Calm(s: Shared)
  {
    s.rules.Some? && !Outstanding(s)
  }

  /** The tree of an armed volume has rested. */
  predicate Quiet(s: Shared)
  {
    s.rules.Some? && s.now - s.written >= s.rules.value
  }

  /** While the volume is calm, the timer's tick comes, or came, no sooner than
      the quiesce after the last write. */
  predicate Rested(s: Shared, timer: Timer)
  {
    Calm(s) ==> s.written + s.rules.value <= match timer case Running(deadline) => deadline case Spent(at) => at
  }

  /** While the volume is calm and no tick is to come, a commit covers the last
      write. */
  predicate Covered(s: Shared, timer: Timer, tried: Option<int>)
  {
    Calm(s) && timer.Spent? ==> tried == Some(s.written)
  }

  /** No scan commits a tree that has not rested. */
  predicate CommitsRested(commits: seq<Commit>)
  {
    forall c :: c in commits ==> c.at - c.written >= c.quiesce
  }

  /** What the other goroutines may do: time passes, writes come, and classes
      change, and only the loop takes a token. When they leave the volume calm
      they changed nothing: a class that disarms it and arms it again sends. */
  predicate Meanwhile(s: Shared, s': Shared)
  {
    s.now <= s'.now && s.written <= s'.written && s'.written <= s'.now
    && (s.changes ==> s'.changes) && (s.classed ==> s'.classed) && s.sent <= s'.sent
    && ((s'.changes && !s.changes) || (s'.classed && !s.classed) ==> s'.sent > s.sent)
    && (Calm(s') ==> !Outstanding(s) && s'.written == s.written && s'.rules == s.rules)
  }

  /** One step of another goroutine. */
  datatype Step = Wait(until: int) | Write | Nudge | Class(rules: Option<int>) | SendClass

  function Do(s: Shared, step: Step): Shared
  {
    match step
    case Wait(until) => if s.now <= until then s.(now := until) else s
    // The reader is one goroutine, so it sends before it writes again.
    case Write => if s.nudging then s else s.(written := s.now, nudging := true)
    case Nudge => if s.nudging then s.(changes := true, nudging := false, sent := s.sent + 1) else s
    // So is the one that reads the claim. It sends when the class arms the
    // volume or names another quiesce.
    case Class(rules) =>
      if s.classing then s
      else s.(rules := rules, classing := rules.Some? && s.rules != rules)
    case SendClass => if s.classing then s.(classed := true, classing := false, sent := s.sent + 1) else s
  }

  class Watcher {
    const quiesce: int
    var shared: Shared
    var timer: Timer
    ghost var tried: Option<int>
    ghost var commits: seq<Commit>
    ghost var scans: nat

    ghost predicate Valid()
      reads this
    {
      shared.written <= shared.now && (timer.Spent? ==> timer.at <= shared.now)
      && Rested(shared, timer) && CommitsRested(commits)
    }

    /** run's state where its select waits. */
    ghost predicate Waiting()
      reads this
    {
      Valid() && Covered(shared, timer, tried)
    }

    constructor (now: int, rules: Option<int>, quiesce: int)
      ensures Waiting() && this.quiesce == quiesce
      ensures timer == Running(now + if rules.Some? then rules.value else quiesce) && commits == []
      ensures shared.written == shared.now == now && shared.rules == rules && !Outstanding(shared)
    {
      this.quiesce := quiesce;
      shared := Shared(now, now, false, false, rules, false, false, 0);
      timer := Running(now + if rules.Some? then rules.value else quiesce);
      tried, commits, scans := None, [], 0;
    }

    method Others()
      modifies this`shared
      requires shared.written <= shared.now
      ensures Meanwhile(old(shared), shared)
    {
      var steps: nat := *;
      while steps > 0
        invariant Meanwhile(old(shared), shared)
      {
        var step: Step := *;
        shared := Do(shared, step);
        steps := steps - 1;
      }
    }

    /** rest: the class's quiesce, or the driver's own on an unarmed volume. */
    method Rest() returns (rest: int)
      ensures rest == if shared.rules.Some? then shared.rules.value else quiesce
    {
      rest := if shared.rules.Some? then shared.rules.value else quiesce;
    }

    /** Sets the timer for a duration from now. */
    method Reset(wait: int)
      modifies this`timer
      ensures timer == Running(shared.now + wait)
    {
      timer := Running(shared.now + wait);
    }

    /** A write came: the rest starts over. */
    method OnChanges()
      requires Waiting() && shared.changes
      modifies this`shared, this`timer
      ensures Waiting() && timer.Running?
      ensures shared.changes ==> shared.sent > old(shared.sent)
      ensures Calm(shared) ==> old(shared.now) + shared.rules.value <= timer.deadline <= shared.now + shared.rules.value
    {
      shared := shared.(changes := false);
      Others();
      var rest := Rest();
      Others();
      Reset(rest);
      Others();
    }

    /** A class came: the timer runs for what is left of its quiesce. */
    method OnClassed()
      requires Waiting() && shared.classed
      modifies this`shared, this`timer
      ensures Waiting() && timer.Running?
      ensures shared.classed ==> shared.sent > old(shared.sent)
      ensures Calm(shared) ==>
                var rested := shared.written + shared.rules.value;
                rested <= timer.deadline
                && timer.deadline
                     <= (if rested <= old(shared.now) then shared.now else rested + shared.now - old(shared.now))
    {
      shared := shared.(classed := false);
      Others();
      var rest := Rest();
      Others();
      var quiet := shared.now - shared.written;
      Others();
      Reset(if rest - quiet > 0 then rest - quiet else 0);
      Others();
    }

    /** The tree has been quiet: the scan this starts commits, unless a write or
        a class is on its way to start the rest again. */
    method OnQuiesce()
      requires Waiting() && timer.Running? && timer.deadline <= shared.now
      modifies this`shared, this`timer, this`tried, this`commits, this`scans
      ensures Waiting() && timer.Spent?
      ensures old(commits) <= commits && scans == old(scans) + 1
      ensures Calm(shared) ==> commits != old(commits) && tried == Some(shared.written)
    {
      timer := Spent(shared.now);
      Others();
      Scan();
    }

    /** The sweep reads the tree on its own timer. */
    method OnSweep()
      requires Waiting()
      modifies this`shared, this`tried, this`commits, this`scans
      ensures Waiting() && old(commits) <= commits && scans == old(scans) + 1
      ensures old(Quiet(shared)) && Calm(shared) ==> commits != old(commits) && tried == Some(shared.written)
    {
      Scan();
    }

    /** scan: commits what has rested. A tree that had rested when the scan began is
        committed, unless a write or a class came, and one that has not is not. */
    method Scan()
      requires Valid()
      modifies this`shared, this`tried, this`commits, this`scans
      ensures Valid() && old(commits) <= commits && |commits| <= |old(commits)| + 1 && scans == old(scans) + 1
      ensures old(Quiet(shared)) && Calm(shared) ==> commits != old(commits) && tried == Some(shared.written)
      ensures Calm(shared) && !Quiet(shared) ==> commits == old(commits)
      ensures Calm(shared) && timer.Spent? ==> commits != old(commits) && tried == Some(shared.written)
    {
      scans := scans + 1;
      var rules := shared.rules;
      Others();
      var quiet := shared.now - shared.written;
      if rules.Some? && quiet >= rules.value {
        tried := Some(shared.written);
        commits := commits + [Commit(rules.value, shared.now, shared.written)];
      }
      Others();
    }

    /** The loop, which scans first, for any number of wakes in any order, whichever channel of
        several ready ones each select takes. */
    method Run(wakes: nat)
      requires Waiting()
      modifies this`shared, this`timer, this`tried, this`commits, this`scans
      ensures Waiting() && old(commits) <= commits && scans > old(scans)
    {
      OnSweep();
      for i := 0 to wakes
        invariant Waiting() && old(commits) <= commits && scans > old(scans)
      {
        Others();
        if {
          case shared.changes => OnChanges();
          case shared.classed => OnClassed();
          case timer.Running? && timer.deadline <= shared.now => OnQuiesce();
          case true => OnSweep();
          case true => {}
        }
      }
    }
  }
}
