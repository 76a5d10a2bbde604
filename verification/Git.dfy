// The slice of git the driver depends on: commits that never change, the
// ancestor relation, the changes a commit carries, and what a rebase makes.

module Git {
  import opened Wrappers

  /** One edit of one path. Two writers never make the same edit. */
  datatype Edit = Edit(path: string, serial: int)

  /** What git names a file's content by. */
  type Blob = int

  /** A commit is its content: git names a commit by the hash of its parents
      and its tree, so a history never changes under a name. The tree is the
      files the commit tracks, by path; an edit may add its path, change it or
      delete it. */
  datatype Commit = Commit(parents: seq<Commit>, edits: set<Edit>, tree: map<string, Blob>)

  /** Of two trees only the paths of the edits differ. */
  predicate DiffersAt(before: map<string, Blob>, after: map<string, Blob>, edits: set<Edit>)
  {
    after - Paths(edits) == before - Paths(edits)
  }

  /** git merge-base --is-ancestor. */
  predicate Ancestor(a: Commit, c: Commit)
  {
    a == c || exists p :: p in c.parents && Ancestor(a, p)
  }

  /** Every edit of a commit's whole history. */
  function Changes(c: Commit): set<Edit>
  {
    c.edits + set p, e | p in c.parents && e in Changes(p) :: e
  }

  /** The paths a set of edits touches. */
  function Paths(edits: set<Edit>): set<string>
  {
    set e | e in edits :: e.path
  }

  lemma {:induction false} AncestorTransitive(a: Commit, b: Commit, c: Commit)
    requires Ancestor(a, b) && Ancestor(b, c)
    ensures Ancestor(a, c)
    decreases c
  {
    if b != c {
      var p :| p in c.parents && Ancestor(b, p);
      AncestorTransitive(a, b, p);
    }
  }

  lemma {:induction false} ChangesGrow(a: Commit, c: Commit)
    requires Ancestor(a, c)
    ensures Changes(a) <= Changes(c)
    decreases c
  {
    if a != c {
      var p :| p in c.parents && Ancestor(a, p);
      ChangesGrow(a, p);
    }
  }

  /** The number of commits on the longest way down to a root. */
  ghost function Height(c: Commit): (h: nat)
    ensures forall p :: p in c.parents ==> Height(p) < h
  {
    Highest(c.parents) + 1
  }

  ghost function Highest(cs: seq<Commit>): (h: nat)
    ensures forall c :: c in cs ==> Height(c) <= h
  {
    if cs == [] then 0
    else
      var rest := Highest(cs[1..]);
      var first := Height(cs[0]);
      assert cs == [cs[0]] + cs[1..];
      if first > rest then first else rest
  }

  lemma {:induction false} AncestorLower(a: Commit, c: Commit)
    requires Ancestor(a, c) && a != c
    ensures Height(a) < Height(c)
    decreases c
  {
    var p :| p in c.parents && Ancestor(a, p);
    if a != p {
      AncestorLower(a, p);
    }
  }

  /** A history has no cycle. */
  lemma AncestorAntisymmetric(a: Commit, b: Commit)
    requires Ancestor(a, b) && Ancestor(b, a)
    ensures a == b
  {
    if a != b {
      AncestorLower(a, b);
      AncestorLower(b, a);
    }
  }

  /** The commits of c that base does not hold are one line of commits with one
      parent each, so a rebase of them meets no merge. */
  predicate Chain(c: Commit, base: Commit)
  {
    Ancestor(c, base) || (|c.parents| == 1 && Chain(c.parents[0], base))
  }

  /** The commits of base..c, oldest first, which are what a rebase replays. */
  function Range(c: Commit, base: Commit): seq<Commit>
    requires Chain(c, base)
  {
    if Ancestor(c, base) then [] else Range(c.parents[0], base) + [c]
  }

  /** git log base..c: the range is exactly what c reaches and base does not. */
  lemma {:induction false} RangeExact(c: Commit, base: Commit, x: Commit)
    requires Chain(c, base)
    ensures x in Range(c, base) <==> Ancestor(x, c) && !Ancestor(x, base)
    decreases c
  {
    if Ancestor(c, base) {
      if Ancestor(x, c) {
        AncestorTransitive(x, c, base);
      }
    } else {
      var p := c.parents[0];
      RangeExact(p, base, x);
      assert forall q :: q in c.parents <==> q == p;
    }
  }

  lemma {:induction false} ChainAbove(c: Commit, base: Commit, higher: Commit)
    requires Chain(c, base) && Ancestor(base, higher)
    ensures Chain(c, higher)
    decreases c
  {
    if Ancestor(c, base) {
      AncestorTransitive(c, base, higher);
    } else {
      ChainAbove(c.parents[0], base, higher);
    }
  }

  /** What replaying todo onto a commit may leave. A commit that carries nothing
      new is dropped, and the part of a commit that is already there is left
      out of it. */
  predicate Replayed(onto: Commit, todo: seq<Commit>, result: Commit)
    decreases |todo|
  {
    if todo == [] then
      result == onto
    else
      var next, before := todo[|todo| - 1], todo[..|todo| - 1];
      (next.edits <= Changes(result) && Replayed(onto, before, result))
      || (|result.parents| == 1
          && result.edits <= next.edits <= result.edits + Changes(result.parents[0])
          && DiffersAt(result.parents[0].tree, result.tree, next.edits)
          && Replayed(onto, before, result.parents[0]))
  }

  /** git rebase upstream, run at head, when it does not conflict. git leaves a
      head that already stands on upstream as it is. */
  predicate Rebased(upstream: Commit, head: Commit, result: Commit)
    requires Chain(head, upstream)
  {
    if Ancestor(upstream, head) then result == head
    else Replayed(upstream, Range(head, upstream), result)
  }

  /** Every edit of a list of commits. */
  function EditsOf(cs: seq<Commit>): set<Edit>
  {
    set c, e | c in cs && e in c.edits :: e
  }

  lemma {:induction false} ReplayedHolds(onto: Commit, todo: seq<Commit>, result: Commit)
    requires Replayed(onto, todo, result)
    ensures Ancestor(onto, result)
    ensures Chain(result, onto)
    ensures Changes(result) == Changes(onto) + EditsOf(todo)
    decreases |todo|
  {
    if todo != [] {
      var next, before := todo[|todo| - 1], todo[..|todo| - 1];
      assert todo == before + [next];
      assert EditsOf(todo) == EditsOf(before) + next.edits;
      if next.edits <= Changes(result) && Replayed(onto, before, result) {
        ReplayedHolds(onto, before, result);
      } else {
        var p := result.parents[0];
        ReplayedHolds(onto, before, p);
        assert p in result.parents;
        assert forall q :: q in result.parents <==> q == p;
        assert Changes(result) == result.edits + Changes(p);
      }
    }
  }

  lemma {:induction false} RangeChanges(c: Commit, base: Commit)
    requires Chain(c, base)
    ensures Changes(c) <= Changes(base) + EditsOf(Range(c, base))
    ensures EditsOf(Range(c, base)) <= Changes(c)
    decreases c
  {
    if Ancestor(c, base) {
      ChangesGrow(c, base);
    } else {
      var p := c.parents[0];
      RangeChanges(p, base);
      assert forall q :: q in c.parents <==> q == p;
      assert Changes(c) == c.edits + Changes(p);
      assert EditsOf(Range(c, base)) == EditsOf(Range(p, base)) + c.edits;
    }
  }

  /** A rebase that lands stands on upstream and carries exactly what upstream
      and the rebased tree carried. */
  lemma RebaseKeepsBoth(upstream: Commit, head: Commit, result: Commit)
    requires Chain(head, upstream) && Rebased(upstream, head, result)
    ensures Ancestor(upstream, result)
    ensures Chain(result, upstream)
    ensures Changes(result) == Changes(upstream) + Changes(head)
  {
    if Ancestor(upstream, head) {
      ChangesGrow(upstream, head);
    } else {
      ReplayedHolds(upstream, Range(head, upstream), result);
      RangeChanges(head, upstream);
    }
  }

  /** The list of commits is the todo list with some dropped and some thinned. */
  predicate Thinned(made: seq<Commit>, todo: seq<Commit>)
    decreases |todo|
  {
    if todo == [] then made == []
    else
      var next, before := todo[|todo| - 1], todo[..|todo| - 1];
      Thinned(made, before)
      || (made != [] && made[|made| - 1].edits <= next.edits && Thinned(made[..|made| - 1], before))
  }

  lemma {:induction false} ReplayedRange(onto: Commit, todo: seq<Commit>, result: Commit)
    requires Replayed(onto, todo, result)
    ensures Chain(result, onto) && Thinned(Range(result, onto), todo)
    decreases |todo|
  {
    ReplayedHolds(onto, todo, result);
    if todo != [] {
      var next, before := todo[|todo| - 1], todo[..|todo| - 1];
      if next.edits <= Changes(result) && Replayed(onto, before, result) {
        ReplayedRange(onto, before, result);
      } else {
        var p := result.parents[0];
        ReplayedRange(onto, before, p);
        ReplayedHolds(onto, before, p);
        if Ancestor(result, onto) {
          AncestorTransitive(result, onto, p);
          assert p in result.parents && Ancestor(p, p);
          AncestorLower(p, result);
          AncestorAntisymmetric(result, p);
          assert false;
        }
        assert Range(result, onto)[..|Range(p, onto)|] == Range(p, onto);
      }
    }
  }

  /** After a rebase, upstream..HEAD holds the replayed commits in their order
      and nothing else. */
  lemma RebaseRange(upstream: Commit, head: Commit, result: Commit)
    requires Chain(head, upstream) && Rebased(upstream, head, result)
    ensures Chain(result, upstream)
    ensures Thinned(Range(result, upstream), Range(head, upstream))
  {
    if Ancestor(upstream, head) {
      ThinnedSame(Range(head, upstream));
    } else {
      ReplayedRange(upstream, Range(head, upstream), result);
    }
  }

  lemma {:induction false} ThinnedSame(todo: seq<Commit>)
    ensures Thinned(todo, todo)
    decreases |todo|
  {
    if todo != [] {
      ThinnedSame(todo[..|todo| - 1]);
    }
  }

  lemma {:induction false} ChainOnHead(head: Commit, base: Commit, edits: set<Edit>, tree: map<string, Blob>)
    requires Chain(head, base)
    ensures Chain(Commit([head], edits, tree), base)
    ensures Ancestor(head, Commit([head], edits, tree))
    ensures Changes(Commit([head], edits, tree)) == Changes(head) + edits
  {
    var made := Commit([head], edits, tree);
    assert head in made.parents;
    assert made.parents[0] == head;
  }

  /** The tree with what another holds at these paths. */
  function Patched(tree: map<string, Blob>, from: map<string, Blob>, paths: set<string>): (patched: map<string, Blob>)
    ensures patched - paths == tree - paths
  {
    (tree - paths) + (map p | p in from && p in paths :: from[p])
  }

  /** The commits one rebase may make of a list: each with all its edits. */
  function Stacked(onto: Commit, todo: seq<Commit>): Commit
  {
    if todo == [] then onto
    else
      var next, below := todo[|todo| - 1], Stacked(onto, todo[..|todo| - 1]);
      Commit([below], next.edits, Patched(below.tree, next.tree, Paths(next.edits)))
  }

  lemma {:induction false} StackedIsReplayed(onto: Commit, todo: seq<Commit>)
    ensures Replayed(onto, todo, Stacked(onto, todo))
  {
    if todo != [] {
      StackedIsReplayed(onto, todo[..|todo| - 1]);
    }
  }

  /** What a stack holds is under it or stands on it. */
  lemma {:induction false} StackedHolds(onto: Commit, todo: seq<Commit>, x: Commit)
    requires Ancestor(x, Stacked(onto, todo))
    ensures Ancestor(x, onto) || Ancestor(onto, x)
  {
    if todo != [] {
      var below := Stacked(onto, todo[..|todo| - 1]);
      if x == Stacked(onto, todo) {
        StackedIsReplayed(onto, todo);
        ReplayedHolds(onto, todo, x);
      } else {
        assert Ancestor(x, below);
        StackedHolds(onto, todo[..|todo| - 1], x);
      }
    }
  }

  /** A writer can always make an edit nobody made. */
  lemma {:induction false} NewSerial(edits: set<Edit>) returns (least: int)
    ensures forall e :: e in edits ==> e.serial < least
  {
    least := 0;
    var todo := edits;
    while todo != {}
      invariant todo <= edits && forall e :: e in edits - todo ==> e.serial < least
      decreases todo
    {
      var e :| e in todo;
      least := if e.serial < least then least else e.serial + 1;
      todo := todo - {e};
    }
  }
}
