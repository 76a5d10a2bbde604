// The node's own maps: what it staged and published, and the loops it runs for
// it. Calls on one volume come one at a time; calls on other volumes run between
// any two critical sections of a call.

module Bookkeeping {
  import opened Wrappers

  datatype Kind = Inline | ReadOnly | Writeable

  /** A path the kubelet publishes at names the volume and the pod. The kernel
      holds a mount there or not. */
  datatype Target = Target(volume: string, pod: string)

  /** One volume object. A claim's object holds the pod of every target it is
      bound at, and the other kinds the one they can have. */
  datatype Volume = Volume(
    id: string, kind: Kind, url: string, follows: bool,
    target: Option<string>, targets: set<string>)

  /** The file beside the tree, which a restarted driver reads. */
  datatype Record = Record(kind: Kind, url: string, follows: bool, target: Option<string>, targets: set<string>)

  type Held = nat

  /** The node's maps, the volume objects, the kernel's mounts, and the disk. */
  datatype Books = Books(
    objects: map<Held, Volume>,
    next: Held,
    volumes: map<string, Held>,
    staged: map<string, Held>,
    watchers: map<string, Held>,
    armings: map<string, Held>,
    loops: map<string, map<string, Held>>,
    mounts: set<Target>,
    records: map<string, Record>)

  function Get<V>(m: map<string, V>, id: string): Option<V>
  {
    if id in m then Some(m[id]) else None
  }

  function InLoop(b: Books, url: string, id: string): Option<Held>
  {
    if url in b.loops then Get(b.loops[url], id) else None
  }

  predicate Names(b: Books, id: string, o: Held)
  {
    o in b.objects && b.objects[o].id == id
  }

  /** The object a fetch loop should hold under the id: a published inline volume
      or a staged claim, when it follows its ref. */
  function Followed(b: Books, id: string): Option<Held>
  {
    var o := if id in b.staged then Some(b.staged[id]) else Get(b.volumes, id);
    if o.Some? && o.value in b.objects && b.objects[o.value].follows && b.objects[o.value].kind != Writeable
    then o else None
  }

  /** The targets a published volume is bound at. */
  function Bound(v: Volume): set<string>
  {
    if v.kind == ReadOnly then v.targets else if v.target.Some? then {v.target.value} else {}
  }

  /** What the maps say of one volume. */
  ghost predicate AgreeAt(b: Books, id: string)
  {
    (id in b.volumes ==> Names(b, id, b.volumes[id]) && Bound(b.objects[b.volumes[id]]) != {})
    && (id in b.staged ==> Names(b, id, b.staged[id]) && b.objects[b.staged[id]].kind != Inline)
    // A published volume of a staged kind is the staged object.
    && (id in b.volumes && (id in b.staged || b.objects[b.volumes[id]].kind != Inline) ==>
          id in b.staged && b.staged[id] == b.volumes[id])
    // A staged claim is published exactly while it is bound somewhere.
    && (id in b.staged && b.objects[b.staged[id]].kind == ReadOnly && id !in b.volumes ==>
          b.objects[b.staged[id]].targets == {})
    // A watch runs for each published writeable volume and no other, and the
    // claim of each staged writeable volume is read.
    && Get(b.watchers, id)
       == (if id in b.volumes && b.objects[b.volumes[id]].kind == Writeable then Some(b.volumes[id]) else None)
    && Get(b.armings, id)
       == (if id in b.staged && b.objects[b.staged[id]].kind == Writeable then Some(b.staged[id]) else None)
    && LoopsAgree(b, id)
  }

  /** A volume that follows its ref is on its own repository's loop and no other,
      and no other volume is on one. */
  ghost predicate LoopsAgree(b: Books, id: string)
  {
    forall url :: InLoop(b, url, id)
      == (if Followed(b, id).Some? && b.objects[Followed(b, id).value].url == url then Followed(b, id) else None)
  }

  ghost predicate Busy(loop: map<string, Held>)
  {
    exists id :: id in loop
  }

  /** A repository has a loop only while some volume is on it. */
  ghost predicate LoopsBusy(b: Books)
  {
    forall url :: url in b.loops ==> Busy(b.loops[url])
  }

  ghost predicate Fresh(b: Books)
  {
    forall o :: o in b.objects ==> o < b.next
  }

  /** Nothing the maps say of the volume changed. */
  ghost predicate SameMaps(id: string, b: Books, b': Books)
  {
    Get(b'.volumes, id) == Get(b.volumes, id) && Get(b'.staged, id) == Get(b.staged, id)
    && Get(b'.watchers, id) == Get(b.watchers, id) && Get(b'.armings, id) == Get(b.armings, id)
    && (forall url :: InLoop(b', url, id) == InLoop(b, url, id))
    && (forall o :: o in b.objects && b.objects[o].id == id ==> o in b'.objects && b'.objects[o] == b.objects[o])
    && b.next <= b'.next
  }

  /** Nor its record and its mounts. */
  ghost predicate SameDisk(id: string, b: Books, b': Books)
  {
    Get(b'.records, id) == Get(b.records, id) && forall pod :: Mounted(b', id, pod) == Mounted(b, id, pod)
  }

  ghost predicate SameFor(id: string, b: Books, b': Books)
  {
    SameMaps(id, b, b') && SameDisk(id, b, b')
  }

  predicate Mounted(b: Books, id: string, pod: string)
  {
    Target(id, pod) in b.mounts
  }

  /** One critical section of a call: it changes one volume's entries only. */
  ghost predicate OnlyFor(id: string, b: Books, b': Books)
  {
    LoopsBusy(b') && Fresh(b') && forall k :: k != id ==> SameFor(k, b, b')
  }

  lemma SameAgrees(id: string, b: Books, b': Books)
    requires SameMaps(id, b, b') && AgreeAt(b, id)
    ensures AgreeAt(b', id) && PublishedAs(b', id) == PublishedAs(b, id)
  {
    assert Get(b'.volumes, id) == Get(b.volumes, id) && Get(b'.staged, id) == Get(b.staged, id);
    assert Followed(b', id) == Followed(b, id);
  }

  // ------------------------------------------------------- the loops' sections

  /** follow: the volume joins its repository's loop, which its first volume
      starts. */
  function Follow(b: Books, o: Held): Books
    requires o in b.objects
  {
    var v := b.objects[o];
    if !v.follows then b
    else b.(loops := b.loops[v.url := (if v.url in b.loops then b.loops[v.url] else map[])[v.id := o]])
  }

  /** unfollow: the loop stops when its last volume goes. */
  function Unfollow(b: Books, o: Held): Books
    requires o in b.objects
  {
    var v := b.objects[o];
    if !v.follows || v.url !in b.loops then b
    else
      var left := b.loops[v.url] - {v.id};
      if left.Keys == {} then b.(loops := b.loops - {v.url}) else b.(loops := b.loops[v.url := left])
  }

  lemma Follows(b: Books, o: Held, id: string)
    requires LoopsBusy(b) && Names(b, id, o)
    ensures var b' := Follow(b, o); LoopsBusy(b') && b' == b.(loops := b'.loops)
    ensures forall url, k :: InLoop(Follow(b, o), url, k)
              == if k == id && b.objects[o].follows && url == b.objects[o].url then Some(o) else InLoop(b, url, k)
  {
    var v := b.objects[o];
    var loops := Follow(b, o).loops;
    forall url | url in loops
      ensures Busy(loops[url])
    {
      if v.follows && url == v.url {
        assert id in loops[url];
      } else {
        assert Busy(b.loops[url]);
      }
    }
  }

  lemma Unfollows(b: Books, o: Held, id: string)
    requires LoopsBusy(b) && Names(b, id, o)
    ensures var b' := Unfollow(b, o); LoopsBusy(b') && b' == b.(loops := b'.loops)
    ensures forall url, k :: InLoop(Unfollow(b, o), url, k)
              == if k == id && b.objects[o].follows && url == b.objects[o].url then None else InLoop(b, url, k)
  {
    var v := b.objects[o];
    if v.follows && v.url in b.loops {
      var left := b.loops[v.url] - {id};
      assert forall k :: k in left.Keys <==> k in b.loops[v.url] && k != id;
      UnfollowsBusy(b, o, id);
    }
  }

  lemma UnfollowsBusy(b: Books, o: Held, id: string)
    requires LoopsBusy(b) && Names(b, id, o)
    ensures LoopsBusy(Unfollow(b, o))
  {
    var v := b.objects[o];
    forall url | url in Unfollow(b, o).loops
      ensures Busy(Unfollow(b, o).loops[url])
    {
      if v.follows && url == v.url {
        SomeLeft(b.loops[url] - {v.id});
      } else {
        assert Busy(b.loops[url]);
      }
    }
  }

  lemma SomeLeft(loop: map<string, Held>)
    requires loop.Keys != {}
    ensures Busy(loop)
  {
    var k :| k in loop.Keys;
  }

  // ------------------------------------------------------- one map at a time

  /** One statement of a critical section, on one volume's entries. */
  datatype Change =
    | Makes(v: Volume)
    | Updates(o: Held, v: Volume)
    | Publishes(o: Held)
    | Unpublishes
    | Stages(o: Held)
    | Unstages
    | Watches(o: Held)
    | Unwatches
    | Arms(o: Held)
    | Disarms
    | Joins(o: Held)
    | Leaves(o: Held)
    | Binds(pod: string)
    | Unbinds(pod: string)
    | Writes(r: Record)
    | Erases

  /** The changes that touch no map of the node. */
  predicate Quiet(c: Change)
  {
    c.Makes? || c.Binds? || c.Unbinds? || c.Writes? || c.Erases?
  }

  predicate Of(b: Books, id: string, c: Change)
  {
    match c
    case Makes(v) => v.id == id
    case Updates(o, v) => Names(b, id, o) && v.id == id
    case Publishes(o) => Names(b, id, o)
    case Stages(o) => Names(b, id, o)
    case Watches(o) => Names(b, id, o)
    case Arms(o) => Names(b, id, o)
    case Joins(o) => Names(b, id, o)
    case Leaves(o) => Names(b, id, o)
    case _ => true
  }

  function Apply(b: Books, id: string, c: Change): Books
    requires Of(b, id, c)
  {
    match c
    case Makes(v) => b.(objects := b.objects[b.next := v], next := b.next + 1)
    case Updates(o, v) => b.(objects := b.objects[o := v])
    case Publishes(o) => b.(volumes := b.volumes[id := o])
    case Unpublishes => b.(volumes := b.volumes - {id})
    case Stages(o) => b.(staged := b.staged[id := o])
    case Unstages => b.(staged := b.staged - {id})
    case Watches(o) => b.(watchers := b.watchers[id := o])
    case Unwatches => b.(watchers := b.watchers - {id})
    case Arms(o) => b.(armings := b.armings[id := o])
    case Disarms => b.(armings := b.armings - {id})
    case Joins(o) => Follow(b, o)
    case Leaves(o) => Unfollow(b, o)
    case Binds(pod) => b.(mounts := b.mounts + {Target(id, pod)})
    case Unbinds(pod) => b.(mounts := b.mounts - {Target(id, pod)})
    case Writes(r) => b.(records := b.records[id := r])
    case Erases => b.(records := b.records - {id})
  }

  lemma LoopSame(b: Books, id: string, o: Held, k: string)
    requires LoopsBusy(b) && Names(b, id, o) && k != id
    ensures SameFor(k, b, Follow(b, o)) && SameFor(k, b, Unfollow(b, o))
  {
    Follows(b, o, id);
    Unfollows(b, o, id);
  }

  lemma EntrySameMaps(b: Books, id: string, c: Change, k: string)
    requires Of(b, id, c) && k != id && Fresh(b) && !c.Joins? && !c.Leaves?
    ensures SameMaps(k, b, Apply(b, id, c))
  {
  }

  lemma EntrySameDisk(b: Books, id: string, c: Change, k: string)
    requires Of(b, id, c) && k != id && !c.Joins? && !c.Leaves?
    ensures SameDisk(k, b, Apply(b, id, c))
  {
  }

  lemma EntrySame(b: Books, id: string, c: Change, k: string)
    requires Of(b, id, c) && k != id && Fresh(b) && !c.Joins? && !c.Leaves?
    ensures SameFor(k, b, Apply(b, id, c))
  {
    EntrySameMaps(b, id, c, k);
    EntrySameDisk(b, id, c, k);
  }

  lemma ApplySame(b: Books, id: string, c: Change, k: string)
    requires LoopsBusy(b) && Of(b, id, c) && k != id && Fresh(b)
    ensures SameFor(k, b, Apply(b, id, c))
  {
    match c
    case Joins(o) => LoopSame(b, id, o, k);
    case Leaves(o) => LoopSame(b, id, o, k);
    case _ => EntrySame(b, id, c, k);
  }

  lemma ApplyOnlyFor(b: Books, id: string, c: Change)
    requires LoopsBusy(b) && Fresh(b) && Of(b, id, c)
    ensures OnlyFor(id, b, Apply(b, id, c))
  {
    forall k | k != id
      ensures SameFor(k, b, Apply(b, id, c))
    {
      ApplySame(b, id, c, k);
    }
    match c
    case Joins(o) => Follows(b, o, id);
    case Leaves(o) => Unfollows(b, o, id);
    case _ =>
  }

  lemma QuietSame(b: Books, id: string, c: Change)
    requires Fresh(b) && Of(b, id, c)
    ensures Quiet(c) ==> SameMaps(id, b, Apply(b, id, c))
  {
  }

  lemma SameMapsTransitive(id: string, b: Books, b': Books, b'': Books)
    requires SameMaps(id, b, b') && SameMaps(id, b', b'')
    ensures SameMaps(id, b, b'')
  {
    forall url
      ensures InLoop(b'', url, id) == InLoop(b, url, id)
    {
      assert InLoop(b', url, id) == InLoop(b, url, id);
    }
  }

  lemma SameTransitive(id: string, b: Books, b': Books, b'': Books)
    requires SameFor(id, b, b') && SameFor(id, b', b'')
    ensures SameFor(id, b, b'')
  {
    SameMapsTransitive(id, b, b', b'');
    forall pod
      ensures Mounted(b'', id, pod) == Mounted(b, id, pod)
    {
      assert Mounted(b', id, pod) == Mounted(b, id, pod);
    }
  }

  // ------------------------------------------------------------------ restart

  /** The targets a record names. */
  function Recorded(r: Record): set<string>
  {
    if r.kind == ReadOnly then r.targets else if r.target.Some? then {r.target.value} else {}
  }

  /** Those the kernel still holds. */
  function Standing(b: Books, id: string, r: Record): set<string>
  {
    set pod | pod in Recorded(r) && Mounted(b, id, pod)
  }

  function RecordOf(v: Volume): Record
  {
    Record(v.kind, v.url, v.follows, v.target, v.targets)
  }

  /** What a published volume is, apart from the object that holds it. */
  datatype Published = Published(kind: Kind, url: string, follows: bool, bound: set<string>)

  /** How a volume is published, if it is bound anywhere. */
  function As(v: Volume): Option<Published>
  {
    if Bound(v) == {} then None else Some(Published(v.kind, v.url, v.follows, Bound(v)))
  }

  function PublishedAs(b: Books, id: string): Option<Published>
  {
    if id in b.volumes && b.volumes[id] in b.objects then
      var v := b.objects[b.volumes[id]];
      Some(Published(v.kind, v.url, v.follows, Bound(v)))
    else None
  }

  /** What a restart makes of the record. */
  function Resumed(b: Books, id: string): Option<Published>
  {
    if id in b.records && Standing(b, id, b.records[id]) != {} then
      var r := b.records[id];
      Some(Published(r.kind, r.url, r.follows, Standing(b, id, r)))
    else None
  }

  /** What a restart makes of it when these targets read as no mount. */
  function Seen(p: Option<Published>, missed: set<string>): Option<Published>
  {
    if p.None? || p.value.bound <= missed then None else Some(p.value.(bound := p.value.bound - missed))
  }

  /** What is left of a published volume when one target goes. */
  function Without(p: Option<Published>, pod: string): Option<Published>
  {
    if p.None? || p.value.kind != ReadOnly || p.value.bound <= {pod} then None
    else Some(p.value.(bound := p.value.bound - {pod}))
  }

  predicate BoundAt(p: Option<Published>, pod: string)
  {
    p.Some? && pod in p.value.bound
  }

  lemma StagedTargets(b: Books, id: string, pod: string)
    requires AgreeAt(b, id) && id in b.staged
    ensures PublishedAs(b, id).Some? <==> id in b.volumes
    ensures BoundAt(PublishedAs(b, id), pod)
            <==> var v := b.objects[b.staged[id]];
                 if v.kind == ReadOnly then pod in v.targets else id in b.volumes && v.target == Some(pod)
  {
  }

  /** An unpublish of a volume with one target named another. */
  predicate Misnamed(p: Option<Published>, pod: string)
  {
    p.Some? && p.value.kind != ReadOnly && pod !in p.value.bound
  }

  /** A restart would publish the volume as it is. */
  ghost predicate Even(b: Books, id: string)
  {
    Resumed(b, id) == PublishedAs(b, id)
  }

  /** The disk and the kernel bear the node out. A published volume has a record of
      what it is that names each of its targets, each is mounted, and no other
      target the record names is. Of an unpublished one no recorded target is. */
  ghost predicate Tidy(b: Books, id: string)
  {
    if id in b.volumes && b.volumes[id] in b.objects then
      id in b.records && Describes(b.records[id], b.objects[b.volumes[id]])
      && (forall pod :: pod in Bound(b.objects[b.volumes[id]]) <==>
            pod in Recorded(b.records[id]) && Mounted(b, id, pod))
    else id in b.records ==> forall pod :: pod in Recorded(b.records[id]) ==> !Mounted(b, id, pod)
  }

  predicate Describes(r: Record, v: Volume)
  {
    r.kind == v.kind && r.url == v.url && r.follows == v.follows
  }

  /** A restart publishes a volume as it was if and only if the volume is tidy. */
  lemma TidyIsEven(b: Books, id: string)
    requires AgreeAt(b, id)
    ensures Tidy(b, id) <==> Resumed(b, id) == PublishedAs(b, id)
  {
    if id in b.records {
      var r := b.records[id];
      assert forall pod :: pod in Standing(b, id, r) <==> pod in Recorded(r) && Mounted(b, id, pod);
      if id in b.volumes {
        var v := b.objects[b.volumes[id]];
        assert Standing(b, id, r) == Bound(v) <==> forall pod :: pod in Bound(v) <==> pod in Standing(b, id, r);
      } else if Standing(b, id, r) != {} {
        var pod :| pod in Standing(b, id, r);
        assert pod in Recorded(r) && Mounted(b, id, pod);
      }
    }
  }

  lemma SameResumes(id: string, b: Books, b': Books)
    requires SameDisk(id, b, b')
    ensures Resumed(b', id) == Resumed(b, id)
  {
    if id in b.records {
      assert Get(b'.records, id) == Some(b.records[id]);
      assert forall pod :: Mounted(b', id, pod) == Mounted(b, id, pod);
      assert Standing(b', id, b.records[id]) == Standing(b, id, b.records[id]);
    } else {
      assert Get(b'.records, id) == None;
    }
  }

  /** A record of a published volume that names its targets, all mounted, brings
      it back as it was. */
  lemma WrittenResumes(b: Books, id: string, v: Volume)
    requires Get(b.records, id) == Some(RecordOf(v)) && forall pod :: pod in Bound(v) ==> Mounted(b, id, pod)
    ensures Resumed(b, id) == As(v)
  {
    assert Recorded(RecordOf(v)) == Bound(v);
    assert Standing(b, id, RecordOf(v)) == Bound(v);
  }

  /** A mount that goes, or a record, brings back no more than before. */
  lemma LessResumes(b: Books, b': Books, id: string)
    requires Resumed(b, id).None?
    requires b'.mounts <= b.mounts && (Get(b'.records, id) == None || Get(b'.records, id) == Get(b.records, id))
    ensures Resumed(b', id).None?
  {
    if id in b'.records {
      assert Get(b'.records, id) == Some(b'.records[id]);
      assert Standing(b', id, b'.records[id]) <= Standing(b, id, b'.records[id]);
    }
  }

  lemma UnpublishedUnbinds(b: Books, b': Books, id: string, pod: string)
    requires SameMaps(id, b, b') && AgreeAt(b, id) && id !in b.volumes && Get(b'.records, id) == Get(b.records, id)
    requires forall p :: p == pod || Mounted(b', id, p) == Mounted(b, id, p)
    requires Mounted(b', id, pod) ==> Mounted(b, id, pod)
    ensures AgreeAt(b', id) && PublishedAs(b', id) == PublishedAs(b, id) && (Even(b, id) ==> Even(b', id))
  {
    SameAgrees(id, b, b');
    if id in b.records {
      assert Get(b'.records, id) == Some(b.records[id]);
      assert Standing(b', id, b.records[id]) <= Standing(b, id, b.records[id]);
    }
  }

  /** Nor does a mount that brought nothing back. */
  lemma UnboundResumes(b: Books, b': Books, id: string, pod: string)
    requires b' == b.(mounts := b'.mounts) && b.mounts - {Target(id, pod)} <= b'.mounts <= b.mounts
    requires Resumed(b, id).Some? ==> pod !in Resumed(b, id).value.bound
    ensures Resumed(b', id) == Resumed(b, id)
  {
    if id in b.records {
      var r := b.records[id];
      assert forall p :: p in Standing(b', id, r) ==> p in Standing(b, id, r);
      assert forall p :: p in Standing(b, id, r) ==> p in Standing(b', id, r) || p == pod;
      assert Standing(b', id, r) <= Standing(b, id, r);
      assert Standing(b, id, r) != {} ==> Resumed(b, id).Some?;
      assert Standing(b', id, r) == Standing(b, id, r);
    }
  }

  /** A target that is no mount any more is brought back by no record. */
  lemma UnmountedResumes(b: Books, b': Books, id: string, pod: string)
    requires Get(b'.records, id) == Get(b.records, id) && !Mounted(b', id, pod)
    requires forall p :: p != pod ==> Mounted(b', id, p) == Mounted(b, id, p)
    requires Resumed(b, id).Some? && (pod in Resumed(b, id).value.bound || Resumed(b, id).value.kind == ReadOnly)
    ensures Resumed(b', id) == Without(Resumed(b, id), pod)
  {
    var r := b.records[id];
    assert Get(b'.records, id) == Some(r);
    assert Standing(b', id, r) == Standing(b, id, r) - {pod};
  }

  /** A claim a restart would publish as it is, and one of its targets gone. */
  lemma ClaimGone(b: Books, b': Books, id: string, o: Held, v: Volume, pod: string)
    requires Even(b, id) && Get(b.volumes, id) == Some(o) && o in b.objects && b.objects[o].kind == ReadOnly
    requires v == b.objects[o].(targets := b.objects[o].targets - {pod})
    requires Get(b'.records, id) == Get(b.records, id)
    requires forall p :: p != pod ==> Mounted(b', id, p) == Mounted(b, id, p)
    ensures forall p :: p in Bound(v) ==> Mounted(b', id, p)
    ensures !Mounted(b', id, pod) ==> Resumed(b', id) == As(v)
  {
    var held := b.objects[o];
    assert Resumed(b, id) == Some(Published(ReadOnly, held.url, held.follows, held.targets));
    assert forall p :: p in Bound(v) ==> p in Standing(b, id, b.records[id]);
    if !Mounted(b', id, pod) {
      UnmountedResumes(b, b', id, pod);
    }
  }

  lemma SameTidy(id: string, b: Books, b': Books)
    requires SameFor(id, b, b') && AgreeAt(b, id) && Tidy(b, id)
    ensures AgreeAt(b', id) && Tidy(b', id)
  {
    SameAgrees(id, b, b');
    SameResumes(id, b, b');
    TidyIsEven(b, id);
    TidyIsEven(b', id);
  }

  // ------------------------------------------- what the critical sections keep

  lemma InlinePublished(b: Books, id: string, o: Held)
    requires AgreeAt(b, id) && LoopsBusy(b) && id !in b.volumes && id !in b.staged
    requires Names(b, id, o) && b.objects[o].kind == Inline && b.objects[o].target.Some?
    ensures AgreeAt(Follow(b.(volumes := b.volumes[id := o]), o), id)
  {
    var open := b.(volumes := b.volumes[id := o]);
    Follows(open, o, id);
    assert Get(b.watchers, id) == None && Get(b.armings, id) == None;
    assert Followed(Follow(open, o), id) == if b.objects[o].follows then Some(o) else None;
    forall url
      ensures InLoop(open, url, id) == None
    {
      assert InLoop(b, url, id) == None;
    }
  }

  lemma ClaimPublished(b: Books, id: string, o: Held, v: Volume)
    requires AgreeAt(b, id) && Get(b.staged, id) == Some(o) && b.objects[o].kind == ReadOnly
    requires v == b.objects[o].(targets := v.targets) && v.targets != {}
    ensures AgreeAt(b.(objects := b.objects[o := v], volumes := b.volumes[id := o]), id)
  {
    var b' := b.(objects := b.objects[o := v], volumes := b.volumes[id := o]);
    assert Followed(b', id) == Followed(b, id);
    forall url
      ensures InLoop(b', url, id) == InLoop(b, url, id)
    {
    }
  }

  lemma PublishSame(id: string, b: Books, b': Books, o: Held)
    requires SameMaps(id, b, b')
    ensures SameMaps(id, b.(volumes := b.volumes[id := o]), b'.(volumes := b'.volumes[id := o]))
  {
    var c, c' := b.(volumes := b.volumes[id := o]), b'.(volumes := b'.volumes[id := o]);
    forall url
      ensures InLoop(c', url, id) == InLoop(c, url, id)
    {
      assert InLoop(b', url, id) == InLoop(b, url, id);
    }
  }

  lemma WriteableUpdated(b: Books, id: string, o: Held, v: Volume)
    requires AgreeAt(b, id) && Get(b.staged, id) == Some(o) && id !in b.volumes
    requires b.objects[o].kind == Writeable && v == b.objects[o].(target := v.target)
    ensures AgreeAt(b.(objects := b.objects[o := v]), id)
  {
    var b' := b.(objects := b.objects[o := v]);
    assert Followed(b', id) == Followed(b, id);
    forall url
      ensures InLoop(b', url, id) == InLoop(b, url, id)
    {
    }
  }

  lemma ClaimUnbound(b: Books, id: string, o: Held, v: Volume)
    requires AgreeAt(b, id) && Get(b.volumes, id) == Some(o) && b.objects[o].kind == ReadOnly
    requires v == b.objects[o].(targets := v.targets)
    ensures AgreeAt(b.(objects := b.objects[o := v],
                       volumes := if v.targets == {} then b.volumes - {id} else b.volumes), id)
  {
    var b' := b.(objects := b.objects[o := v], volumes := if v.targets == {} then b.volumes - {id} else b.volumes);
    assert Followed(b', id) == Followed(b, id);
    forall url
      ensures InLoop(b', url, id) == InLoop(b, url, id)
    {
    }
  }

  lemma WriteablePublished(b: Books, id: string, o: Held)
    requires AgreeAt(b, id) && Get(b.staged, id) == Some(o) && id !in b.volumes
    requires b.objects[o].kind == Writeable && b.objects[o].target.Some?
    ensures AgreeAt(b.(volumes := b.volumes[id := o], watchers := b.watchers[id := o]), id)
  {
    var b' := b.(volumes := b.volumes[id := o], watchers := b.watchers[id := o]);
    assert Followed(b', id) == Followed(b, id);
    forall url
      ensures InLoop(b', url, id) == InLoop(b, url, id)
    {
    }
  }

  lemma OtherUnpublished(b: Books, id: string, o: Held)
    requires AgreeAt(b, id) && LoopsBusy(b) && Get(b.volumes, id) == Some(o) && b.objects[o].kind != ReadOnly
    ensures var b' := Unfollow(b.(volumes := b.volumes - {id}), o);
            AgreeAt(b'.(watchers := b'.watchers - {id}), id)
  {
    var gone := b.(volumes := b.volumes - {id});
    var left := Unfollow(gone, o);
    var b' := left.(watchers := left.watchers - {id});
    Unfollows(gone, o, id);
    assert Get(b.volumes, id) == Some(o) && Followed(b', id) == None;
    forall url
      ensures InLoop(b', url, id) == None
    {
      assert InLoop(gone, url, id) == InLoop(b, url, id);
      assert InLoop(left, url, id) == InLoop(b', url, id);
    }
  }

  lemma ClaimStaged(b: Books, id: string, o: Held)
    requires AgreeAt(b, id) && LoopsBusy(b) && id !in b.volumes && id !in b.staged
    requires Names(b, id, o) && b.objects[o].kind == ReadOnly && b.objects[o].targets == {}
    ensures AgreeAt(Follow(b.(staged := b.staged[id := o]), o), id)
  {
    var open := b.(staged := b.staged[id := o]);
    Follows(open, o, id);
    assert Get(b.watchers, id) == None && Get(b.armings, id) == None;
    assert Followed(Follow(open, o), id) == if b.objects[o].follows then Some(o) else None;
    forall url
      ensures InLoop(open, url, id) == None
    {
      assert InLoop(b, url, id) == None;
    }
  }

  lemma WriteableStaged(b: Books, id: string, o: Held)
    requires AgreeAt(b, id) && id !in b.volumes && id !in b.staged
    requires Names(b, id, o) && b.objects[o].kind == Writeable
    ensures AgreeAt(b.(staged := b.staged[id := o], armings := b.armings[id := o]), id)
  {
    var b' := b.(staged := b.staged[id := o], armings := b.armings[id := o]);
    forall url
      ensures InLoop(b', url, id) == None
    {
      assert InLoop(b, url, id) == None;
    }
  }

  /** No map names the volume. */
  ghost predicate Absent(b: Books, id: string)
  {
    id !in b.volumes && id !in b.staged && id !in b.watchers && id !in b.armings
    && forall url :: InLoop(b, url, id) == None
  }

  lemma AbsentAgrees(b: Books, id: string)
    requires Absent(b, id)
    ensures AgreeAt(b, id)
  {
  }

  /** A staged work tree that is not published is nowhere else but among the
      claims the node reads. */
  lemma WriteableLeaves(b: Books, b': Books, id: string, o: Held)
    requires AgreeAt(b, id) && Get(b.staged, id) == Some(o) && id !in b.volumes && b.objects[o].kind == Writeable
    requires SameMaps(id, b.(staged := b.staged - {id}), b')
    ensures Absent(b'.(armings := b'.armings - {id}), id)
  {
    var left, gone := b.(staged := b.staged - {id}), b'.(armings := b'.armings - {id});
    assert Get(left.volumes, id) == None && Get(left.staged, id) == None && Get(left.watchers, id) == None;
    forall url
      ensures InLoop(gone, url, id) == None
    {
      assert InLoop(b, url, id) == None;
      assert InLoop(b', url, id) == InLoop(left, url, id);
    }
  }

  lemma ClaimLeaves(b: Books, b': Books, id: string, o: Held)
    requires AgreeAt(b, id) && Get(b.staged, id) == Some(o) && id !in b.volumes && b.objects[o].kind == ReadOnly
    requires SameMaps(id, b.(staged := b.staged - {id}), b') && LoopsBusy(b')
    ensures o in b'.objects && Absent(Unfollow(b', o), id)
  {
    var left := b.(staged := b.staged - {id});
    assert Get(left.volumes, id) == None && Get(left.staged, id) == None;
    assert Get(left.watchers, id) == None && Get(left.armings, id) == None;
    assert b'.objects[o] == b.objects[o] && Followed(b, id) == if b.objects[o].follows then Some(o) else None;
    Unfollows(b', o, id);
    forall url
      ensures InLoop(Unfollow(b', o), url, id) == None
    {
      assert InLoop(b', url, id) == InLoop(left, url, id) == InLoop(b, url, id);
    }
  }

  lemma OnlyForSelf(id: string, b: Books)
    requires LoopsBusy(b) && Fresh(b)
    ensures OnlyFor(id, b, b)
  {
  }

  lemma OnlyForTransitive(id: string, b: Books, b': Books, b'': Books)
    requires OnlyFor(id, b, b') && OnlyFor(id, b', b'')
    ensures OnlyFor(id, b, b'')
  {
    forall k | k != id
      ensures SameFor(k, b, b'')
    {
      assert SameFor(k, b, b') && SameFor(k, b', b'');
      SameTransitive(k, b, b', b'');
    }
  }

  /** A restarted driver knows a volume by its published object. */
  ghost predicate KnownAs(b: Books, id: string, p: Option<Published>)
  {
    PublishedAs(b, id) == p && AgreeAt(b, id)
    && (id in b.staged <==> p.Some? && p.value.kind != Inline)
  }

  lemma SameKnown(id: string, b: Books, b': Books, p: Option<Published>)
    requires SameMaps(id, b, b') && KnownAs(b, id, p)
    ensures KnownAs(b', id, p)
  {
    SameAgrees(id, b, b');
    assert Get(b'.staged, id) == Get(b.staged, id);
  }

  lemma SameAbsent(id: string, b: Books, b': Books)
    requires SameMaps(id, b, b') && Absent(b, id)
    ensures Absent(b', id)
  {
    assert Get(b'.volumes, id) == None && Get(b'.staged, id) == None;
    assert Get(b'.watchers, id) == None && Get(b'.armings, id) == None;
    forall url
      ensures InLoop(b', url, id) == None
    {
      assert InLoop(b', url, id) == InLoop(b, url, id);
    }
  }

  /** The targets of a volume that a restart took for unmounted. */
  function Missed(missed: map<string, set<string>>, id: string): set<string>
  {
    if id in missed then missed[id] else {}
  }

  /** Those are targets the kernel holds. */
  predicate Missable(b: Books, id: string, missed: set<string>)
  {
    missed == {} || (Resumed(b, id).Some? && missed <= Resumed(b, id).value.bound)
  }

  /** A volume a restart is done with. */
  ghost predicate ResumedAt(stopped: Books, b: Books, id: string, missed: set<string>, torn: bool, soiled: bool)
  {
    Missable(stopped, id, missed) && KnownAs(b, id, Seen(Resumed(stopped, id), missed))
    && (soiled ==> missed != {} || torn)
  }

  /** A restart under way, with these volumes to do. */
  ghost predicate Resuming(stopped: Books, b: Books, todo: set<string>, missed: map<string, set<string>>,
                           torn: set<string>, soiled: set<string>)
  {
    (forall k :: k in todo ==> Absent(b, k) && SameDisk(k, stopped, b) && k !in missed && k !in torn && k !in soiled)
    && forall k :: k !in todo ==> ResumedAt(stopped, b, k, Missed(missed, k), k in torn, k in soiled)
  }

  /** A critical section on one volume keeps what a restart did for the others. */
  lemma OthersResumed(id: string, stopped: Books, b: Books, b': Books, todo: set<string>,
                      missed: map<string, set<string>>, torn: set<string>, soiled: set<string>)
    requires OnlyFor(id, b, b') && Resuming(stopped, b, todo, missed, torn, soiled)
    ensures forall k :: k in todo && k != id ==> Absent(b', k) && SameDisk(k, stopped, b')
    ensures forall k :: k !in todo && k != id ==> ResumedAt(stopped, b', k, Missed(missed, k), k in torn, k in soiled)
  {
    forall k | k != id
      ensures if k in todo then Absent(b', k) && SameDisk(k, stopped, b')
              else ResumedAt(stopped, b', k, Missed(missed, k), k in torn, k in soiled)
    {
      assert SameFor(k, b, b');
      if k in todo {
        SameAbsent(k, b, b');
        assert forall pod :: Mounted(b', k, pod) == Mounted(b, k, pod);
      } else {
        SameKnown(k, b, b', Seen(Resumed(stopped, k), Missed(missed, k)));
      }
    }
  }

  /** And one more is done. */
  lemma NextResumed(id: string, stopped: Books, b: Books, todo: set<string>, missed: map<string, set<string>>,
                    torn: set<string>, soiled: set<string>, unseen: set<string>, lost: bool, soiled': set<string>)
    requires id in todo && id !in missed && id !in torn && soiled' - {id} == soiled - {id}
    requires forall k :: k in todo && k != id ==>
               Absent(b, k) && SameDisk(k, stopped, b) && k !in missed && k !in torn && k !in soiled
    requires forall k :: k !in todo && k != id ==> ResumedAt(stopped, b, k, Missed(missed, k), k in torn, k in soiled)
    requires ResumedAt(stopped, b, id, unseen, lost, id in soiled')
    ensures Resuming(stopped, b, todo - {id}, if unseen == {} then missed else missed[id := unseen],
                     if lost then torn + {id} else torn, soiled')
  {
    var missed', torn' := if unseen == {} then missed else missed[id := unseen], if lost then torn + {id} else torn;
    forall k | k != id
      ensures Missed(missed', k) == Missed(missed, k) && (k in torn' <==> k in torn) && (k in soiled' <==> k in soiled)
    {
      assert k in soiled' <==> k in soiled' - {id};
      assert k in soiled <==> k in soiled - {id};
    }
  }

  lemma SeenAll(b: Books, id: string)
    ensures Seen(Resumed(b, id), {}) == Resumed(b, id)
  {
    if Resumed(b, id).Some? {
      assert Resumed(b, id).value.bound - {} == Resumed(b, id).value.bound;
    }
  }

  /** A restart that missed no mount publishes the volume as it was if and only if
      it was tidy, and a tidy volume with a mount it missed otherwise. */
  lemma RestartExact(b: Books, id: string, missed: set<string>)
    requires AgreeAt(b, id) && Missable(b, id, missed)
    ensures missed == {} ==> (Seen(Resumed(b, id), missed) == PublishedAs(b, id) <==> Tidy(b, id))
    ensures missed != {} && Tidy(b, id) ==> Seen(Resumed(b, id), missed) != PublishedAs(b, id)
  {
    TidyIsEven(b, id);
    SeenAll(b, id);
    if missed != {} {
      var pod :| pod in missed;
      var bound := Resumed(b, id).value.bound;
      assert pod in bound && pod !in bound - missed;
    }
  }

  lemma WriteableRejoined(b: Books, id: string, o: Held)
    requires Absent(b, id) && Names(b, id, o) && Bound(b.objects[o]) != {} && b.objects[o].kind == Writeable
    ensures AgreeAt(b.(volumes := b.volumes[id := o], staged := b.staged[id := o],
                       armings := b.armings[id := o], watchers := b.watchers[id := o]), id)
  {
    var b' := b.(volumes := b.volumes[id := o], staged := b.staged[id := o],
                 armings := b.armings[id := o], watchers := b.watchers[id := o]);
    forall url
      ensures InLoop(b', url, id) == None
    {
      assert InLoop(b, url, id) == None;
    }
  }

  lemma FollowedRejoined(b: Books, id: string, o: Held)
    requires Absent(b, id) && LoopsBusy(b) && Names(b, id, o)
    requires Bound(b.objects[o]) != {} && b.objects[o].kind != Writeable
    ensures var open := b.(volumes := b.volumes[id := o],
                           staged := if b.objects[o].kind == ReadOnly then b.staged[id := o] else b.staged);
            AgreeAt(Follow(open, o), id)
  {
    var open := b.(volumes := b.volumes[id := o],
                   staged := if b.objects[o].kind == ReadOnly then b.staged[id := o] else b.staged);
    Follows(open, o, id);
    assert Followed(Follow(open, o), id) == if b.objects[o].follows then Some(o) else None;
    forall url
      ensures InLoop(open, url, id) == None
    {
      assert InLoop(b, url, id) == None;
    }
  }

  /** The volume is staged or published here, read-only, and follows the ref of the
      repository. */
  predicate FollowedBy(b: Books, url: string, id: string, o: Held)
  {
    (Get(b.staged, id) == Some(o) || (Get(b.staged, id) == None && Get(b.volumes, id) == Some(o)))
    && o in b.objects && b.objects[o].follows && b.objects[o].kind in {Inline, ReadOnly} && b.objects[o].url == url
  }

  /** A repository has a loop exactly when some volume here follows it, and the
      loop holds exactly those volumes. */
  lemma LoopsExact(b: Books, url: string)
    requires LoopsBusy(b) && forall id :: AgreeAt(b, id)
    ensures url in b.loops <==> exists id, o: Held :: FollowedBy(b, url, id, o)
    ensures url in b.loops ==> forall id, o: Held :: Get(b.loops[url], id) == Some(o) <==> FollowedBy(b, url, id, o)
  {
    forall id, o: Held
      ensures InLoop(b, url, id) == Some(o) <==> FollowedBy(b, url, id, o)
    {
      assert AgreeAt(b, id);
    }
    if url in b.loops {
      assert Busy(b.loops[url]);
      var id :| id in b.loops[url];
      assert InLoop(b, url, id) == Some(b.loops[url][id]);
    }
    forall id, o: Held | FollowedBy(b, url, id, o)
      ensures url in b.loops
    {
      assert InLoop(b, url, id) == Some(o);
    }
  }

  lemma OthersAgree(id: string, b: Books, b': Books, calling: set<string>, soiled: set<string>)
    requires OnlyFor(id, b, b') && id in calling
    requires forall k :: k !in calling ==> AgreeAt(b, k) && (k !in soiled ==> Tidy(b, k))
    ensures forall k :: k !in calling ==> AgreeAt(b', k) && (k !in soiled ==> Tidy(b', k))
  {
    forall k | k !in calling
      ensures AgreeAt(b', k) && (k !in soiled ==> Tidy(b', k))
    {
      assert SameFor(k, b, b');
      SameAgrees(k, b, b');
      if k !in soiled {
        SameTidy(k, b, b');
      }
    }
  }

  /** What a call on a volume met with. */
  datatype Report =
    | PublishEnds(wrote: bool)
    | UnpublishEnds(unbound: bool, torn: bool, misnamed: bool)
    | Restarted(missed: set<string>, torn: bool)
    | NoDisk

  predicate WentWell(r: Report)
  {
    match r
    case PublishEnds(wrote) => wrote
    case UnpublishEnds(unbound, torn, misnamed) => unbound && !torn && !misnamed
    case Restarted(missed, torn) => missed == {} && !torn
    case NoDisk => true
  }

  predicate AllWell(trail: seq<Report>)
  {
    forall r :: r in trail ==> WentWell(r)
  }

  class Node {
    var books: Books
    ghost var calling: set<string>
    // The volumes a call left untidy: its record was not written, its unmount
    // failed, or it named another target than the published one.
    ghost var soiled: set<string>
    // The times the disk, the kernel or git failed.
    ghost var faults: nat

    /** Every volume no call is at work on agrees across the maps, and is tidy
        unless a call left it otherwise. */
    ghost predicate Valid()
      reads this
    {
      LoopsBusy(books) && Fresh(books)
      && forall id :: id !in calling ==> AgreeAt(books, id) && (id !in soiled ==> Tidy(books, id))
    }

    constructor ()
      ensures Valid() && calling == {} && soiled == {} && books.records == map[] && books.volumes == map[]
    {
      books := Books(map[], 0, map[], map[], map[], map[], map[], {}, map[]);
      calling, soiled, faults := {}, {}, 0;
    }

    /** One statement on one volume's entries, while its call runs. */
    method Do(id: string, c: Change)
      requires Valid() && id in calling && Of(books, id, c)
      modifies this`books
      ensures Valid() && books == Apply(old(books), id, c)
      ensures Quiet(c) ==> SameMaps(id, old(books), books)
      ensures OnlyFor(id, old(books), books)
    {
      ApplyOnlyFor(books, id, c);
      QuietSame(books, id, c);
      OthersAgree(id, books, Apply(books, id, c), calling, soiled);
      books := Apply(books, id, c);
    }

    /** One statement of a call on another volume. The call ends once its volume
        agrees again. */
    method Other(id: string)
      requires Valid() && id in calling
      modifies this`books, this`calling, this`soiled
      ensures Valid() && id in calling && SameFor(id, old(books), books)
      ensures faults == old(faults) && (id in soiled <==> id in old(soiled))
    {
      var other: string, c: Change := *, *;
      if other != id && Of(books, other, c) {
        calling := calling + {other};
        ApplySame(books, other, c, id);
        Do(other, c);
        if AgreeAt(books, other) {
          if !Tidy(books, other) {
            soiled := soiled + {other};
          }
          calling := calling - {other};
        }
      }
    }

    /** Calls on other volumes, any number of their statements. */
    method Others(id: string)
      requires Valid() && id in calling
      modifies this`books, this`calling, this`soiled
      ensures Valid() && id in calling && SameFor(id, old(books), books)
      ensures faults == old(faults) && (id in soiled <==> id in old(soiled))
    {
      var steps: nat := *;
      while steps > 0
        invariant Valid() && id in calling && SameFor(id, old(books), books)
        invariant id in soiled <==> id in old(soiled)
      {
        ghost var before := books;
        Other(id);
        SameTransitive(id, old(books), before, books);
        steps := steps - 1;
      }
    }

    /** A call begins, and is the only one on its volume. */
    ghost method Begins(id: string)
      requires Valid() && id !in calling
      modifies this`calling
      ensures Valid() && calling == old(calling) + {id}
      ensures Tidy(books, id) <==> Even(books, id)
      ensures id !in soiled ==> Even(books, id)
    {
      TidyIsEven(books, id);
      calling := calling + {id};
    }

    /** The end of a call: its volume agrees across the maps. */
    ghost method Ends(id: string)
      requires Valid() && AgreeAt(books, id)
      modifies this`calling, this`soiled
      ensures Valid() && calling == old(calling) - {id}
      ensures soiled == old(soiled) + if Even(books, id) then {} else {id}
      ensures Tidy(books, id) <==> Even(books, id)
    {
      TidyIsEven(books, id);
      if !Tidy(books, id) {
        soiled := soiled + {id};
      }
      calling := calling - {id};
    }

    /** Unbinds whatever is at the target, which a restart may have left. */
    method Unbind(id: string, pod: string) returns (err: bool)
      requires Valid() && id in calling
      modifies this`books, this`faults
      ensures Valid() && SameMaps(id, old(books), books)
      ensures books == old(books).(mounts := if err then old(books.mounts) else old(books.mounts) - {Target(id, pod)})
      ensures faults == old(faults) + if err then 1 else 0
    {
      err := *;
      if err {
        faults := faults + 1;
      } else {
        Do(id, Unbinds(pod));
      }
    }

    /** Binds the tree at a target, once nothing else is there. */
    method BindAt(id: string, pod: string) returns (err: bool)
      requires Valid() && id in calling
      modifies this`books, this`faults
      ensures Valid() && SameMaps(id, old(books), books)
      ensures books == old(books).(mounts := books.mounts)
      ensures if err then old(books.mounts) - {Target(id, pod)} <= books.mounts <= old(books.mounts)
              else books.mounts == old(books.mounts) + {Target(id, pod)}
      ensures old(faults) <= faults && (err ==> faults > old(faults))
    {
      err := Unbind(id, pod);
      if err {
        return;
      }
      err := *;
      if err {
        faults := faults + 1;
      } else {
        ghost var before := books;
        Do(id, Binds(pod));
        SameMapsTransitive(id, old(books), before, books);
      }
    }

    /** NodePublishVolume of an inline volume: its own checkout, bound at its one
        target. */
    method PublishInline(id: string, pod: string, url: string, follows: bool) returns (err: bool, wrote: bool)
      requires Valid() && id !in calling && id !in books.staged
      modifies this
      ensures Valid() && id !in calling
      ensures id in old(books.volumes) ==> SameFor(id, old(books), books)
      ensures id in old(books.volumes) ==> (!err <==> old(PublishedAs(books, id)).value.bound == {pod})
      ensures id !in old(books.volumes) ==>
                PublishedAs(books, id) == if err then None else Some(Published(Inline, url, follows, {pod}))
      ensures old(faults) <= faults
      ensures err ==>
                faults > old(faults)
                || (id in old(books.volumes) && old(PublishedAs(books, id)).value.bound != {pod})
      ensures !wrote ==> faults > old(faults)
      ensures id in soiled ==> id in old(soiled) || !wrote
      ensures id !in soiled ==> Tidy(books, id)
    {
      Begins(id);
      wrote := true;
      if id in books.volumes {
        err := books.objects[books.volumes[id]].target != Some(pod);
        Ends(id);
        return;
      }
      err := MakeInline(id, pod);
      if err {
        var _ := Discard(id);
      } else {
        wrote := KeepInline(id, pod, url, follows);
      }
      Ends(id);
    }

    /** publish: the checkout and its mount. */
    method MakeInline(id: string, pod: string) returns (err: bool)
      requires Valid() && id in calling
      modifies this
      ensures Valid() && id in calling && SameMaps(id, old(books), books)
      ensures old(Resumed(books, id)).None? && err ==> Resumed(books, id).None?
      ensures !err ==> Mounted(books, id, pod)
      ensures old(faults) <= faults && (err ==> faults > old(faults))
      ensures id in soiled <==> id in old(soiled)
    {
      Others(id);
      SameResumes(id, old(books), books);
      ghost var fetched := books;
      err := *;
      if err {
        faults := faults + 1;
      } else {
        err := BindAt(id, pod);
        if err && Resumed(fetched, id).None? {
          LessResumes(fetched, books, id);
        }
        SameMapsTransitive(id, old(books), fetched, books);
      }
    }

    /** A new object. */
    method Make(id: string, v: Volume) returns (o: Held)
      requires Valid() && id in calling && v.id == id && AgreeAt(books, id)
      modifies this`books, this`faults
      ensures Valid() && AgreeAt(books, id) && PublishedAs(books, id) == old(PublishedAs(books, id))
      ensures Names(books, id, o) && books.objects[o] == v && o == old(books.next)
      ensures SameFor(id, old(books), books) && OnlyFor(id, old(books), books)
      ensures faults == old(faults)
    {
      o := books.next;
      Do(id, Makes(v));
      SameAgrees(id, old(books), books);
    }

    /** record: what the disk says of the volume. A write that fails is logged and
        no more. It leaves the last record, or none that can be read. */
    method Record(id: string, v: Volume) returns (wrote: bool)
      requires Valid() && id in calling
      modifies this`books, this`faults
      ensures Valid() && SameMaps(id, old(books), books)
      ensures books == old(books).(records := books.records)
      ensures wrote ==> Get(books.records, id) == Some(RecordOf(v))
      ensures !wrote ==> Get(books.records, id) == None || Get(books.records, id) == Get(old(books.records), id)
      ensures OnlyFor(id, old(books), books)
      ensures faults == old(faults) + if wrote then 0 else 1
    {
      OnlyForSelf(id, books);
      wrote := *;
      if wrote {
        Do(id, Writes(RecordOf(v)));
        return;
      }
      faults := faults + 1;
      var torn: bool := *;
      if torn {
        Do(id, Erases);
      }
    }

    /** The record, written again. */
    method RecordAgain(id: string, v: Volume) returns (torn: bool)
      requires Valid() && id in calling
      modifies this`books, this`faults
      ensures Valid() && SameMaps(id, old(books), books) && OnlyFor(id, old(books), books)
      ensures books == old(books).(records := books.records)
      ensures old(Resumed(books, id)) == As(v) && (forall p :: p in Bound(v) ==> Mounted(books, id, p)) && !torn ==>
                Resumed(books, id) == As(v)
      ensures !torn && id in old(books.records) ==> id in books.records
      ensures old(faults) <= faults && (torn ==> faults > old(faults))
      ensures faults == old(faults) ==> Get(books.records, id) == Some(RecordOf(v))
    {
      var wrote := Record(id, v);
      torn := !wrote && id !in books.records;
      if wrote {
        if forall p :: p in Bound(v) ==> Mounted(books, id, p) {
          WrittenResumes(books, id, v);
        }
      } else if !torn {
        assert Get(books.records, id) == Get(old(books.records), id);
        SameResumes(id, old(books), books);
      }
    }

    /** The volume's directory goes, with the record in it, or some of it stays. */
    method Discard(id: string) returns (gone: bool)
      requires Valid() && id in calling
      modifies this`books, this`faults
      ensures Valid() && SameMaps(id, old(books), books)
      ensures books == old(books).(records := books.records)
      ensures Get(books.records, id) == None || (!gone && Get(books.records, id) == Get(old(books.records), id))
      ensures OnlyFor(id, old(books), books)
      ensures faults == old(faults) + if gone then 0 else 1
    {
      OnlyForSelf(id, books);
      gone := *;
      if !gone {
        faults := faults + 1;
      }
      var erased: bool := *;
      if gone || erased {
        Do(id, Erases);
      }
    }

    /** The object, its record, and its place on the node and on the loop. */
    method KeepInline(id: string, pod: string, url: string, follows: bool) returns (wrote: bool)
      requires Valid() && id in calling && Mounted(books, id, pod)
      requires AgreeAt(books, id) && id !in books.volumes && id !in books.staged
      modifies this
      ensures Valid() && id in calling && AgreeAt(books, id)
      ensures PublishedAs(books, id) == Some(Published(Inline, url, follows, {pod}))
      ensures wrote ==> Even(books, id)
      ensures old(faults) <= faults && (!wrote ==> faults > old(faults))
      ensures id in soiled <==> id in old(soiled)
    {
      var v := Volume(id, Inline, url, follows, Some(pod), {});
      var o := Make(id, v);
      assert Mounted(books, id, pod);
      ghost var made := books;
      wrote := Record(id, v);
      SameAgrees(id, made, books);
      if wrote {
        WrittenResumes(books, id, v);
      }
      ghost var written := books;
      Others(id);
      SameAgrees(id, written, books);
      SameResumes(id, written, books);
      JoinInline(id, o);
    }

    /** The critical section that makes an inline volume known. */
    method JoinInline(id: string, o: Held)
      requires Valid() && id in calling && AgreeAt(books, id) && id !in books.volumes && id !in books.staged
      requires Names(books, id, o) && books.objects[o].kind == Inline && books.objects[o].target.Some?
      modifies this`books, this`faults
      ensures Valid() && AgreeAt(books, id)
      ensures Get(books.volumes, id) == Some(o) && books.objects == old(books.objects)
      ensures Resumed(books, id) == old(Resumed(books, id))
      ensures faults == old(faults)
    {
      Do(id, Publishes(o));
      Do(id, Joins(o));
      InlinePublished(old(books), id, o);
      SameResumes(id, old(books), books);
    }

    /** NodePublishVolume of a staged volume. A claim is bound at one more target;
        a writeable volume has one. otherSecret says that the call carries another
        Secret than the credential the volume holds. */
    method PublishStaged(id: string, pod: string, readOnly: bool, otherSecret: bool) returns (err: bool, wrote: bool)
      requires Valid() && id !in calling
      modifies this
      ensures Valid() && id !in calling
      ensures Get(books.staged, id) == Get(old(books.staged), id)
      ensures id !in old(books.staged) ==> err
      ensures err ==> PublishedAs(books, id) == old(PublishedAs(books, id))
      ensures !err ==>
                var v := old(books.objects[books.staged[id]]);
                var bound := if v.kind == ReadOnly then v.targets + {pod} else {pod};
                PublishedAs(books, id) == Some(Published(v.kind, v.url, v.follows, bound))
      // A claim's pod that would write is refused. A publish repeated at a target of
      // the volume's works and changes nothing, whatever its Secret. A second target
      // of a writeable volume is refused, and any new target to another Secret. Any
      // other publish fails only when the disk or the kernel does.
      ensures id in old(books.staged) ==>
                var before, claim := old(PublishedAs(books, id)), old(books.objects[books.staged[id]].kind) == ReadOnly;
                if claim && !readOnly then err && SameFor(id, old(books), books)
                else if BoundAt(before, pod) then !err && SameFor(id, old(books), books)
                else if otherSecret || (!claim && before.Some?) then err && SameFor(id, old(books), books)
                else err ==> faults > old(faults)
      ensures old(faults) <= faults
      ensures !wrote ==> faults > old(faults)
      ensures id in soiled ==> id in old(soiled) || !wrote
      ensures id !in soiled ==> Tidy(books, id)
    {
      Begins(id);
      wrote := true;
      if id in books.staged {
        StagedTargets(books, id, pod);
      }
      if id !in books.staged {
        err := true;
      } else if books.objects[books.staged[id]].kind == ReadOnly {
        err, wrote := PublishClaim(id, books.staged[id], pod, readOnly, otherSecret);
      } else if id in books.volumes {
        err := books.objects[books.staged[id]].target != Some(pod);
      } else {
        err, wrote := PublishWriteable(id, books.staged[id], pod, otherSecret);
      }
      Ends(id);
    }

    method PublishClaim(id: string, o: Held, pod: string, readOnly: bool, otherSecret: bool)
      returns (err: bool, wrote: bool)
      requires Valid() && id in calling && AgreeAt(books, id)
      requires Get(books.staged, id) == Some(o) && books.objects[o].kind == ReadOnly
      modifies this
      ensures Valid() && id in calling && AgreeAt(books, id)
      ensures Get(books.staged, id) == Some(o)
      ensures err ==> PublishedAs(books, id) == old(PublishedAs(books, id))
      ensures !err ==>
                var v := old(books.objects[o]);
                PublishedAs(books, id) == Some(Published(ReadOnly, v.url, v.follows, v.targets + {pod}))
      ensures wrote && old(Even(books, id)) ==> Even(books, id)
      ensures !readOnly || (otherSecret && pod !in old(books.objects[o].targets)) ==>
                err && SameFor(id, old(books), books)
      ensures readOnly && pod in old(books.objects[o].targets) ==> !err && SameFor(id, old(books), books)
      ensures err ==> faults > old(faults) || !readOnly || (otherSecret && pod !in old(books.objects[o].targets))
      ensures old(faults) <= faults && (!wrote ==> faults > old(faults))
      ensures id in soiled <==> id in old(soiled)
    {
      wrote := true;
      err := !readOnly || (otherSecret && pod !in books.objects[o].targets);
      if err || pod in books.objects[o].targets {
        assert !err ==> books.objects[o].targets + {pod} == books.objects[o].targets;
        return;
      }
      Others(id);
      SameAgrees(id, old(books), books);
      SameResumes(id, old(books), books);
      ghost var begun := books;
      err := BindAt(id, pod);
      SameAgrees(id, begun, books);
      if err {
        if Even(begun, id) {
          UnboundResumes(begun, books, id, pod);
        }
        return;
      }
      wrote := KeepClaim(id, o, pod);
    }

    /** The target, the record, and the volume's place on the node. */
    method KeepClaim(id: string, o: Held, pod: string) returns (wrote: bool)
      requires Valid() && id in calling && AgreeAt(books, id) && Mounted(books, id, pod)
      requires Get(books.staged, id) == Some(o) && books.objects[o].kind == ReadOnly
      modifies this
      ensures Valid() && id in calling && AgreeAt(books, id)
      ensures Get(books.staged, id) == Some(o)
      ensures var v := old(books.objects[o]);
              PublishedAs(books, id) == Some(Published(ReadOnly, v.url, v.follows, v.targets + {pod}))
      ensures wrote && (forall p :: p in old(books.objects[o].targets) ==> old(Mounted(books, id, p))) ==>
                Even(books, id)
      ensures old(faults) <= faults && (!wrote ==> faults > old(faults))
      ensures id in soiled <==> id in old(soiled)
    {
      ghost var before := books;
      var v := books.objects[o].(targets := books.objects[o].targets + {pod});
      wrote := Rewrite(id, o, v);
      ghost var written := books;
      Others(id);
      SameMapsTransitive(id, before.(objects := before.objects[o := v]), written, books);
      SameResumes(id, written, books);
      PublishKnown(id, o, before, v);
    }

    /** The object changes, and then its record. */
    method Rewrite(id: string, o: Held, v: Volume) returns (wrote: bool)
      requires Valid() && id in calling && Names(books, id, o) && v.id == id
      modifies this`books, this`faults
      ensures Valid() && SameMaps(id, old(books).(objects := old(books.objects)[o := v]), books)
      ensures books.mounts == old(books.mounts)
      ensures wrote && (forall p :: p in Bound(v) ==> Mounted(books, id, p)) ==> Resumed(books, id) == As(v)
      ensures old(faults) <= faults && (!wrote ==> faults > old(faults))
    {
      Do(id, Updates(o, v));
      wrote := Record(id, v);
      if wrote && (forall p :: p in Bound(v) ==> Mounted(books, id, p)) {
        WrittenResumes(books, id, v);
      }
    }

    /** The critical section that makes a claim published. */
    method PublishKnown(id: string, o: Held, ghost before: Books, v: Volume)
      requires Valid() && id in calling && AgreeAt(before, id)
      requires Get(before.staged, id) == Some(o) && before.objects[o].kind == ReadOnly
      requires v == before.objects[o].(targets := v.targets) && v.targets != {}
      requires SameMaps(id, before.(objects := before.objects[o := v]), books)
      modifies this`books, this`faults
      ensures Valid() && AgreeAt(books, id) && Get(books.staged, id) == Some(o)
      ensures Resumed(books, id) == old(Resumed(books, id))
      ensures PublishedAs(books, id) == As(v)
      ensures faults == old(faults)
    {
      ghost var updated := before.(objects := before.objects[o := v]);
      ghost var after := updated.(volumes := updated.volumes[id := o]);
      ClaimPublished(before, id, o, v);
      PublishSame(id, updated, books, o);
      Do(id, Publishes(o));
      SameAgrees(id, after, books);
      SameResumes(id, old(books), books);
    }

    method PublishWriteable(id: string, o: Held, pod: string, otherSecret: bool) returns (err: bool, wrote: bool)
      requires Valid() && id in calling && AgreeAt(books, id) && id !in books.volumes
      requires Get(books.staged, id) == Some(o) && books.objects[o].kind == Writeable
      modifies this
      ensures Valid() && id in calling && AgreeAt(books, id)
      ensures Get(books.staged, id) == Some(o)
      ensures PublishedAs(books, id)
              == if err then None
                 else var v := old(books.objects[o]); Some(Published(Writeable, v.url, v.follows, {pod}))
      ensures wrote && old(Even(books, id)) ==> Even(books, id)
      ensures otherSecret ==> err && SameFor(id, old(books), books)
      ensures err ==> faults > old(faults) || otherSecret
      ensures old(faults) <= faults && (!wrote ==> faults > old(faults))
      ensures id in soiled <==> id in old(soiled)
    {
      wrote, err := true, otherSecret;
      if err {
        return;
      }
      Others(id);
      SameAgrees(id, old(books), books);
      SameResumes(id, old(books), books);
      ghost var begun := books;
      err := *;
      if err {
        faults := faults + 1;
        return;
      }
      err := BindAt(id, pod);
      SameAgrees(id, begun, books);
      if err {
        if Even(begun, id) {
          UnboundResumes(begun, books, id, pod);
        }
        return;
      }
      wrote := KeepWriteable(id, o, pod);
    }

    /** The target, the record, and the volume's place on the node, with its
        watch. */
    method KeepWriteable(id: string, o: Held, pod: string) returns (wrote: bool)
      requires Valid() && id in calling && AgreeAt(books, id) && id !in books.volumes && Mounted(books, id, pod)
      requires Get(books.staged, id) == Some(o) && books.objects[o].kind == Writeable
      modifies this
      ensures Valid() && id in calling && AgreeAt(books, id)
      ensures Get(books.staged, id) == Some(o)
      ensures var v := old(books.objects[o]);
              PublishedAs(books, id) == Some(Published(Writeable, v.url, v.follows, {pod}))
      ensures wrote ==> Even(books, id)
      ensures old(faults) <= faults && (!wrote ==> faults > old(faults))
      ensures id in soiled <==> id in old(soiled)
    {
      ghost var before := books;
      var v := books.objects[o].(target := Some(pod));
      WriteableUpdated(before, id, o, v);
      wrote := Rewrite(id, o, v);
      SameAgrees(id, before.(objects := before.objects[o := v]), books);
      ghost var written := books;
      Others(id);
      SameAgrees(id, written, books);
      SameResumes(id, written, books);
      PublishWatched(id, o);
    }

    /** The critical section that makes a writeable volume published. */
    method PublishWatched(id: string, o: Held)
      requires Valid() && id in calling && AgreeAt(books, id) && id !in books.volumes
      requires Get(books.staged, id) == Some(o) && books.objects[o].kind == Writeable && books.objects[o].target.Some?
      modifies this`books, this`faults
      ensures Valid() && AgreeAt(books, id) && SameDisk(id, old(books), books)
      ensures Resumed(books, id) == old(Resumed(books, id))
      ensures Get(books.staged, id) == Some(o) && Get(books.volumes, id) == Some(o)
                && books.objects == old(books.objects)
      ensures faults == old(faults)
    {
      Do(id, Publishes(o));
      Do(id, Watches(o));
      WriteablePublished(old(books), id, o);
      SameResumes(id, old(books), books);
    }

    /** NodeUnpublishVolume. A claim gives up one target, and leaves the published
        volumes with its last; a volume of another kind leaves with any. */
    method Unpublish(id: string, pod: string) returns (err: bool, unbound: bool, torn: bool)
      requires Valid() && id !in calling
      modifies this
      ensures Valid() && id !in calling
      ensures Get(books.staged, id) == Get(old(books.staged), id)
      ensures PublishedAs(books, id) == Without(old(PublishedAs(books, id)), pod)
      ensures unbound ==> !Mounted(books, id, pod)
      ensures forall p :: p != pod ==> Mounted(books, id, p) == old(Mounted(books, id, p))
      ensures !err ==> unbound
      ensures old(faults) <= faults && (err || !unbound || torn ==> faults > old(faults))
      ensures id in soiled ==>
                id in old(soiled) || !unbound || torn || Misnamed(old(PublishedAs(books, id)), pod)
      ensures old(Tidy(books, id)) && BoundAt(old(PublishedAs(books, id)), pod) && !torn ==>
                (Tidy(books, id) <==> unbound)
      ensures id !in soiled ==> Tidy(books, id)
      // A claim's record keeps its other targets, and any other volume's goes.
      ensures id in old(books.volumes) && faults == old(faults) ==>
                var v := old(books.objects[books.volumes[id]]);
                Get(books.records, id)
                == if v.kind == ReadOnly then Some(RecordOf(v.(targets := v.targets - {pod}))) else None
      ensures id !in old(books.volumes) ==> Get(books.records, id) == Get(old(books.records), id)
      // A directory that stays fails the unpublish of an inline volume, and a record
      // that stays does not fail a writeable volume's.
      ensures id in old(books.volumes) && old(books.objects[books.volumes[id]].kind) != ReadOnly ==>
                if old(books.objects[books.volumes[id]].kind) == Inline then !err ==> faults == old(faults)
                else err ==> Get(books.records, id) == Get(old(books.records), id)
    {
      Begins(id);
      torn := false;
      if id !in books.volumes {
        err, unbound := UnbindLast(id, pod);
        UnpublishedUnbinds(old(books), books, id, pod);
      } else if books.objects[books.volumes[id]].kind == ReadOnly {
        err, unbound, torn := UnpublishClaim(id, books.volumes[id], pod);
      } else {
        err, unbound := UnpublishOther(id, books.volumes[id], pod);
      }
      Ends(id);
    }

    /** The mount goes, and then its directory. */
    method UnbindLast(id: string, pod: string) returns (err: bool, unbound: bool)
      requires Valid() && id in calling
      modifies this
      ensures Valid() && id in calling && SameMaps(id, old(books), books)
      ensures Get(books.records, id) == Get(old(books.records), id)
      ensures unbound ==> !Mounted(books, id, pod)
      ensures !unbound ==> SameDisk(id, old(books), books)
      ensures forall p :: p != pod ==> Mounted(books, id, p) == old(Mounted(books, id, p))
      ensures !err ==> unbound
      ensures old(faults) <= faults && (err || !unbound <==> faults > old(faults))
      ensures id in soiled <==> id in old(soiled)
    {
      Others(id);
      ghost var begun := books;
      err := Unbind(id, pod);
      SameMapsTransitive(id, old(books), begun, books);
      assert forall p :: Mounted(begun, id, p) == old(Mounted(books, id, p));
      unbound := !err;
      if !err {
        err := *;
        if err {
          faults := faults + 1;
        }
      }
    }

    method UnpublishClaim(id: string, o: Held, pod: string) returns (err: bool, unbound: bool, torn: bool)
      requires Valid() && id in calling && AgreeAt(books, id)
      requires Get(books.volumes, id) == Some(o) && books.objects[o].kind == ReadOnly
      modifies this
      ensures Valid() && id in calling && AgreeAt(books, id)
      ensures Get(books.staged, id) == Get(old(books.staged), id)
      ensures PublishedAs(books, id) == Without(old(PublishedAs(books, id)), pod)
      ensures unbound ==> !Mounted(books, id, pod)
      ensures forall p :: p != pod ==> Mounted(books, id, p) == old(Mounted(books, id, p))
      ensures !err ==> unbound
      ensures faults == old(faults) ==>
                Get(books.records, id)
                == Some(RecordOf(old(books.objects[o]).(targets := old(books.objects[o]).targets - {pod})))
      ensures old(Even(books, id)) && unbound && !torn ==> Even(books, id)
      ensures old(Even(books, id)) && BoundAt(old(PublishedAs(books, id)), pod) && !unbound ==> !Even(books, id)
      ensures old(faults) <= faults && (err || !unbound || torn ==> faults > old(faults))
      ensures id in soiled <==> id in old(soiled)
    {
      ghost var before := books;
      var v := books.objects[o].(targets := books.objects[o].targets - {pod});
      TakeTarget(id, o, v);
      ghost var taken := books;
      err, unbound := UnbindLast(id, pod);
      SameAgrees(id, taken, books);
      ghost var gone := books;
      if Even(before, id) {
        ClaimGone(before, gone, id, o, v, pod);
      }
      if !unbound {
        SameResumes(id, before, gone);
      }
      torn := false;
      if !err {
        torn := RecordAgain(id, v);
        SameAgrees(id, gone, books);
      }
    }

    /** The critical section that takes a target off a claim. */
    method TakeTarget(id: string, o: Held, v: Volume)
      requires Valid() && id in calling && AgreeAt(books, id)
      requires Get(books.volumes, id) == Some(o) && books.objects[o].kind == ReadOnly
      requires v == books.objects[o].(targets := v.targets)
      modifies this`books, this`faults
      ensures Valid() && AgreeAt(books, id) && SameDisk(id, old(books), books)
      ensures Get(books.staged, id) == Get(old(books.staged), id)
      ensures PublishedAs(books, id) == As(v)
      ensures faults == old(faults)
    {
      ClaimUnbound(books, id, o, v);
      Do(id, Updates(o, v));
      if v.targets == {} {
        Do(id, Unpublishes);
      }
    }

    /** The critical section that takes the volume off the node, off its loop and
        off its watch. */
    method TakeVolume(id: string, o: Held)
      requires Valid() && id in calling && AgreeAt(books, id)
      requires Get(books.volumes, id) == Some(o) && books.objects[o].kind != ReadOnly
      modifies this`books, this`faults
      ensures Valid() && AgreeAt(books, id) && SameDisk(id, old(books), books)
      ensures Get(books.staged, id) == Get(old(books.staged), id) && books.objects == old(books.objects)
      ensures PublishedAs(books, id) == None
      ensures faults == old(faults)
    {
      Do(id, Unpublishes);
      ghost var gone := books;
      Do(id, Leaves(o));
      Unfollows(gone, o, id);
      Do(id, Unwatches);
      OtherUnpublished(old(books), id, o);
    }

    method UnpublishOther(id: string, o: Held, pod: string) returns (err: bool, unbound: bool)
      requires Valid() && id in calling && AgreeAt(books, id)
      requires Get(books.volumes, id) == Some(o) && books.objects[o].kind != ReadOnly
      modifies this
      ensures Valid() && id in calling && AgreeAt(books, id)
      ensures Get(books.staged, id) == Get(old(books.staged), id)
      ensures PublishedAs(books, id) == None
      ensures unbound ==> !Mounted(books, id, pod)
      ensures forall p :: p != pod ==> Mounted(books, id, p) == old(Mounted(books, id, p))
      ensures !err ==> unbound
      ensures faults == old(faults) ==> Get(books.records, id) == None
      ensures if old(books.objects[o].kind) == Inline then !err ==> faults == old(faults)
              else err ==> Get(books.records, id) == Get(old(books.records), id)
      ensures old(Even(books, id)) && BoundAt(old(PublishedAs(books, id)), pod) ==> (Even(books, id) <==> unbound)
      ensures old(faults) <= faults && (err || !unbound ==> faults > old(faults))
      ensures id in soiled <==> id in old(soiled)
    {
      ghost var before := books;
      TakeVolume(id, o);
      ghost var taken := books;
      err, unbound := UnbindLast(id, pod);
      SameAgrees(id, taken, books);
      ghost var gone := books;
      if unbound {
        if BoundAt(Resumed(before, id), pod) {
          UnmountedResumes(before, gone, id, pod);
        }
      } else {
        SameResumes(id, before, gone);
      }
      if !err {
        err := DropOther(id, books.objects[o].kind == Writeable);
        SameAgrees(id, gone, books);
      }
    }

    /** A work tree loses its record and no more, and any other volume its
        directory. A record that stays is no error of the call. */
    method DropOther(id: string, writeable: bool) returns (err: bool)
      requires Valid() && id in calling
      modifies this`books, this`faults
      ensures Valid() && SameMaps(id, old(books), books)
      ensures books == old(books).(records := books.records)
      ensures old(Resumed(books, id)).None? ==> Resumed(books, id).None?
      ensures old(faults) <= faults && (faults == old(faults) ==> Get(books.records, id) == None)
      ensures err <==> !writeable && faults > old(faults)
    {
      var erased := Discard(id);
      err := !erased && !writeable;
      if Resumed(old(books), id).None? {
        LessResumes(old(books), books, id);
      }
    }

    /** NodeStageVolume: a claim's tree, which joins its repository's loop, or a
        work tree, whose claim the node then reads. */
    method Stage(id: string, kind: Kind, url: string, follows: bool, samePath: bool) returns (err: bool)
      requires Valid() && id !in calling && kind != Inline
      requires id in books.volumes ==> id in books.staged
      modifies this
      ensures Valid() && id !in calling
      ensures id in old(books.staged) ==> SameFor(id, old(books), books) && (err <==> !samePath)
      ensures PublishedAs(books, id) == old(PublishedAs(books, id))
      ensures err ==> Get(books.staged, id) == Get(old(books.staged), id)
      ensures !err && id !in old(books.staged) ==>
                id in books.staged && books.staged[id] !in old(books.objects)
                && books.objects[books.staged[id]] == Volume(id, kind, url, follows, None, {})
      ensures old(faults) <= faults && (err ==> faults > old(faults) || (id in old(books.staged) && !samePath))
      // A claim's record is written with no target, and goes with a stage that
      // failed. A work tree's stage writes none.
      ensures id !in old(books.staged) && kind == ReadOnly && faults == old(faults) ==>
                Get(books.records, id) == Some(RecordOf(Volume(id, kind, url, follows, None, {})))
      ensures id !in old(books.staged) && kind == ReadOnly && err && faults == old(faults) + 1 ==>
                Get(books.records, id) == None
      ensures kind != ReadOnly ==> Get(books.records, id) == Get(old(books.records), id)
      ensures id in soiled ==> id in old(soiled)
      ensures id !in soiled ==> Tidy(books, id)
    {
      Begins(id);
      if id in books.staged {
        err := !samePath;
        Ends(id);
        return;
      }
      Others(id);
      SameAgrees(id, old(books), books);
      SameResumes(id, old(books), books);
      err := *;
      if err {
        faults := faults + 1;
        StageFails(id, kind);
      } else {
        StageWorks(id, Volume(id, kind, url, follows, None, {}));
      }
      Ends(id);
    }

    method StageFails(id: string, kind: Kind)
      requires Valid() && id in calling && AgreeAt(books, id)
      modifies this`books, this`faults
      ensures Valid() && AgreeAt(books, id) && SameMaps(id, old(books), books)
      ensures PublishedAs(books, id) == old(PublishedAs(books, id))
      ensures old(Resumed(books, id)).None? ==> Resumed(books, id).None?
      ensures old(faults) <= faults
      ensures kind == ReadOnly && faults == old(faults) ==> Get(books.records, id) == None
      ensures kind != ReadOnly ==> Get(books.records, id) == Get(old(books.records), id)
    {
      if kind == ReadOnly {
        var _ := Discard(id);
        if Resumed(old(books), id).None? {
          LessResumes(old(books), books, id);
        }
      }
      SameAgrees(id, old(books), books);
    }

    method StageWorks(id: string, v: Volume)
      requires Valid() && id in calling && AgreeAt(books, id) && id !in books.volumes && id !in books.staged
      requires v.id == id && v.kind != Inline && v.target.None? && v.targets == {}
      modifies this
      ensures Valid() && id in calling && AgreeAt(books, id) && PublishedAs(books, id).None?
      ensures id in books.staged && books.staged[id] == old(books.next) && books.objects[books.staged[id]] == v
      ensures old(Resumed(books, id)).None? ==> Resumed(books, id).None?
      ensures old(faults) <= faults
      ensures v.kind == ReadOnly && faults == old(faults) ==> Get(books.records, id) == Some(RecordOf(v))
      ensures v.kind != ReadOnly ==> Get(books.records, id) == Get(old(books.records), id)
      ensures id in soiled <==> id in old(soiled)
    {
      var o := Make(id, v);
      ghost var made := books;
      SameResumes(id, old(books), made);
      if v.kind == ReadOnly {
        RecordUnbound(id, v);
        SameAgrees(id, made, books);
      }
      ghost var written := books;
      Others(id);
      SameAgrees(id, written, books);
      SameResumes(id, written, books);
      StageKnown(id, o);
    }

    /** A claim's first record names no target. */
    method RecordUnbound(id: string, v: Volume)
      requires Valid() && id in calling && Bound(v) == {}
      modifies this`books, this`faults
      ensures Valid() && SameMaps(id, old(books), books)
      ensures old(Resumed(books, id)).None? ==> Resumed(books, id).None?
      ensures old(faults) <= faults && (faults == old(faults) ==> Get(books.records, id) == Some(RecordOf(v)))
    {
      var wrote := Record(id, v);
      if wrote {
        WrittenResumes(books, id, v);
      } else if Resumed(old(books), id).None? {
        LessResumes(old(books), books, id);
      }
    }

    /** The critical section that makes a volume staged. */
    method StageKnown(id: string, o: Held)
      requires Valid() && id in calling && AgreeAt(books, id) && id !in books.volumes && id !in books.staged
      requires Names(books, id, o) && books.objects[o].kind != Inline && books.objects[o].targets == {}
      modifies this`books, this`faults
      ensures Valid() && AgreeAt(books, id) && PublishedAs(books, id).None?
      ensures Get(books.staged, id) == Some(o) && books.objects == old(books.objects)
      ensures Resumed(books, id) == old(Resumed(books, id)) && books.records == old(books.records)
      ensures faults == old(faults)
    {
      Do(id, Stages(o));
      if books.objects[o].kind == ReadOnly {
        ghost var staged := books;
        Do(id, Joins(o));
        Follows(staged, o, id);
        ClaimStaged(old(books), id, o);
      } else {
        Do(id, Arms(o));
        WriteableStaged(old(books), id, o);
      }
      SameResumes(id, old(books), books);
    }

    /** NodeUnstageVolume, which the kubelet sends after the last unpublish. A
        claim's tree goes with it; a work tree stays. */
    method Unstage(id: string)
      requires Valid() && id !in calling && id !in books.volumes
      modifies this
      ensures Valid() && id !in calling && id !in books.staged && id !in books.volumes
      ensures id in soiled ==> id in old(soiled)
      ensures id !in soiled ==> Tidy(books, id)
      // A claim's record goes with its directory, and a work tree's stays.
      ensures id in old(books.staged) && old(books.objects[books.staged[id]].kind) == ReadOnly
              && faults == old(faults) ==>
                Get(books.records, id) == None
      ensures id in old(books.staged) && old(books.objects[books.staged[id]].kind) == Writeable ==>
                Get(books.records, id) == Get(old(books.records), id)
      ensures id !in old(books.staged) ==> SameFor(id, old(books), books)
    {
      Begins(id);
      if id in books.staged {
        var o := books.staged[id];
        var kind := books.objects[o].kind;
        Take(id, o, kind);
      }
      Ends(id);
    }

    method Take(id: string, o: Held, kind: Kind)
      requires Valid() && id in calling && AgreeAt(books, id) && id !in books.volumes
      requires Get(books.staged, id) == Some(o) && books.objects[o].kind == kind
      modifies this
      ensures Valid() && id in calling && Absent(books, id) && AgreeAt(books, id)
      ensures old(Resumed(books, id)).None? ==> Resumed(books, id).None?
      ensures kind != Writeable && faults == old(faults) ==> Get(books.records, id) == None
      ensures kind == Writeable ==> Get(books.records, id) == Get(old(books.records), id)
      ensures old(faults) <= faults
      ensures id in soiled <==> id in old(soiled)
    {
      ghost var begun := books;
      Do(id, Unstages);
      SameResumes(id, begun, books);
      ghost var taken := books;
      Others(id);
      SameResumes(id, taken, books);
      ghost var open := books;
      if kind == Writeable {
        WriteableLeaves(begun, open, id, o);
        Do(id, Disarms);
        SameResumes(id, open, books);
      } else {
        ClaimLeaves(begun, open, id, o);
        Do(id, Leaves(o));
        Unfollows(open, o, id);
        ghost var left := books;
        Do(id, Unpublishes);
        assert forall url :: InLoop(books, url, id) == InLoop(left, url, id);
        SameResumes(id, open, books);
        DropTree(id);
      }
      AbsentAgrees(books, id);
    }

    method DropTree(id: string)
      requires Valid() && id in calling && Absent(books, id)
      modifies this`books, this`faults
      ensures Valid() && Absent(books, id)
      ensures old(Resumed(books, id)).None? ==> Resumed(books, id).None?
      ensures old(faults) <= faults && (faults == old(faults) ==> Get(books.records, id) == None)
    {
      var _ := Discard(id);
      assert Get(books.volumes, id) == None && Get(books.staged, id) == None;
      assert Get(books.watchers, id) == None && Get(books.armings, id) == None;
      if Resumed(old(books), id).None? {
        LessResumes(old(books), books, id);
      }
    }

    /** The driver stops, in the middle of any calls, and starts again: what it
        holds in memory is gone, and resume rebuilds it from the records and the
        mounts it can read. A volume no call was at work on, with no mount missed,
        is published as it was exactly when it was tidy. */
    method Restart() returns (ghost missed: map<string, set<string>>, ghost torn: set<string>)
      requires Valid()
      modifies this
      ensures Valid() && calling == {}
      ensures forall id :: ResumedAt(old(books), books, id, Missed(missed, id), id in torn, id in soiled)
      ensures forall id :: id !in old(calling) && Missed(missed, id) == {} ==>
                (PublishedAs(books, id) == old(PublishedAs(books, id)) <==> old(Tidy(books, id)))
      ensures forall id :: id !in old(calling) && Missed(missed, id) != {} && old(Tidy(books, id)) ==>
                PublishedAs(books, id) != old(PublishedAs(books, id))
      // What is staged afterwards is what is published and not inline.
      ensures forall id :: id in books.staged
                           <==> PublishedAs(books, id).Some? && PublishedAs(books, id).value.kind != Inline
      ensures old(faults) <= faults
      ensures missed.Keys + torn != {} ==> faults > old(faults)
    {
      Stop();
      ghost var stopped := books;
      missed, torn := map[], {};
      var todo := books.records.Keys;
      while todo != {}
        invariant Valid() && calling == todo && todo <= stopped.records.Keys
        invariant Resuming(stopped, books, todo, missed, torn, soiled)
        invariant old(faults) <= faults && (missed.Keys + torn != {} ==> faults > old(faults))
        decreases todo
      {
        var id :| id in todo;
        missed, torn := ResumeNext(id, stopped, todo, missed, torn);
        todo := todo - {id};
      }
      forall id
        ensures ResumedAt(old(books), books, id, Missed(missed, id), id in torn, id in soiled)
        ensures id !in old(calling) && Missed(missed, id) == {} ==>
                  (PublishedAs(books, id) == old(PublishedAs(books, id)) <==> old(Tidy(books, id)))
        ensures id !in old(calling) && Missed(missed, id) != {} && old(Tidy(books, id)) ==>
                  PublishedAs(books, id) != old(PublishedAs(books, id))
        ensures id in books.staged <==> PublishedAs(books, id).Some? && PublishedAs(books, id).value.kind != Inline
      {
        assert Resumed(stopped, id) == old(Resumed(books, id));
        assert ResumedAt(stopped, books, id, Missed(missed, id), id in torn, id in soiled);
        if id !in old(calling) {
          RestartExact(old(books), id, Missed(missed, id));
        }
      }
    }

    /** The driver stops. Each volume with a record waits to be resumed. */
    method Stop()
      requires Valid()
      modifies this
      ensures Valid() && calling == books.records.Keys && soiled == {} && faults == old(faults)
      ensures forall id :: Absent(books, id) && Resumed(books, id) == old(Resumed(books, id))
      ensures forall id :: id !in calling ==> KnownAs(books, id, None)
    {
      books := books.(volumes := map[], staged := map[], watchers := map[], armings := map[], loops := map[]);
      calling, soiled := books.records.Keys, {};
      forall id
        ensures Absent(books, id) && AgreeAt(books, id) && Resumed(books, id) == old(Resumed(books, id))
      {
        SameResumes(id, old(books), books);
      }
    }

    /** One turn of resume's loop. */
    method ResumeNext(id: string, ghost stopped: Books, todo: set<string>,
                      ghost missed: map<string, set<string>>, ghost torn: set<string>)
      returns (ghost missed': map<string, set<string>>, ghost torn': set<string>)
      requires Valid() && calling == todo && id in todo && id in stopped.records
      requires Resuming(stopped, books, todo, missed, torn, soiled)
      modifies this
      ensures Valid() && calling == todo - {id}
      ensures Resuming(stopped, books, todo - {id}, missed', torn', soiled)
      ensures old(faults) <= faults && (missed'.Keys + torn' != missed.Keys + torn ==> faults > old(faults))
    {
      ghost var before := books;
      SameResumes(id, stopped, before);
      assert Get(before.records, id) == Get(stopped.records, id);
      ghost var unseen, lost := Resume(id);
      OthersResumed(id, stopped, before, books, todo, missed, torn, soiled);
      Ends(id);
      missed' := if unseen == {} then missed else missed[id := unseen];
      torn' := if lost then torn + {id} else torn;
      NextResumed(id, stopped, books, todo, missed, torn, old(soiled), unseen, lost, soiled);
    }

    /** Calls on other volumes alone. */
    method Idle(id: string)
      requires Valid() && id !in calling
      modifies this
      ensures Valid() && id !in calling && SameFor(id, old(books), books)
      ensures id in soiled <==> id in old(soiled) || !old(Tidy(books, id))
    {
      Begins(id);
      Others(id);
      SameAgrees(id, old(books), books);
      SameResumes(id, old(books), books);
      Ends(id);
    }

    /** One call on the volume, or a restart, or calls on other volumes. The kubelet
        publishes no staged volume inline, and stages none that is. */
    method Call(id: string) returns (ghost report: Report)
      requires Valid() && id !in calling
      modifies this
      ensures Valid() && id !in calling
      ensures WentWell(report) && id !in old(soiled) ==> id !in soiled
    {
      var call: nat, pod: string, url: string, follows: bool, flag: bool, kind: Kind := *, *, *, *, *, *;
      var otherSecret: bool := *;
      report := NoDisk;
      if call == 0 && id !in books.staged {
        var _, wrote := PublishInline(id, pod, url, follows);
        report := PublishEnds(wrote);
      } else if call == 1 {
        var _, wrote := PublishStaged(id, pod, flag, otherSecret);
        report := PublishEnds(wrote);
      } else if call == 2 {
        var _, unbound, torn := Unpublish(id, pod);
        report := UnpublishEnds(unbound, torn, Misnamed(old(PublishedAs(books, id)), pod));
      } else if call == 3 && kind != Inline && (id in books.volumes ==> id in books.staged) {
        var _ := Stage(id, kind, url, follows, flag);
      } else if call == 4 && id !in books.volumes {
        Unstage(id);
      } else if call == 5 {
        ghost var missed, torn := Restart();
        assert ResumedAt(old(books), books, id, Missed(missed, id), id in torn, id in soiled);
        report := Restarted(Missed(missed, id), id in torn);
      } else {
        Idle(id);
      }
    }

    /** Any calls on the volume, with calls on others between and within them. A
        volume whose calls all went well is tidy. */
    method Calls(id: string) returns (ghost trail: seq<Report>)
      requires Valid() && id !in calling && id !in soiled
      modifies this
      ensures Valid() && id !in calling
      ensures AllWell(trail) ==> id !in soiled && Tidy(books, id)
    {
      trail := [];
      var steps: nat := *;
      while steps > 0
        invariant Valid() && id !in calling && (AllWell(trail) ==> id !in soiled)
      {
        ghost var report := Call(id);
        ghost var before := trail;
        trail := trail + [report];
        assert report in trail && forall r :: r in before ==> r in trail;
        steps := steps - 1;
      }
    }

    /** resume, for one record. One that cannot be read, or whose attributes cannot,
        is passed over. Otherwise the volume is rebuilt when the mount table, as far
        as it is read, shows one of its targets, and dropped when it shows none. */
    method Resume(id: string) returns (ghost unseen: set<string>, ghost torn: bool)
      requires Valid() && id in calling && Absent(books, id) && id in books.records
      modifies this`books, this`faults
      ensures Valid() && OnlyFor(id, old(books), books)
      ensures Missable(old(books), id, unseen) && KnownAs(books, id, Seen(old(Resumed(books, id)), unseen))
      ensures unseen == {} && !torn ==> Even(books, id)
      ensures old(faults) <= faults && (unseen != {} || torn ==> faults > old(faults))
      // The record that is left names the targets that stand, and a dropped volume
      // leaves none but a work tree's.
      ensures var r, standing := old(books.records[id]), old(Standing(books, id, books.records[id]));
              faults == old(faults) && r.kind == ReadOnly ==>
                Get(books.records, id)
                == if standing == {} then None
                   else Some(RecordOf(Volume(id, r.kind, r.url, r.follows, r.target, standing)))
      ensures faults == old(faults) && old(books.records[id].kind) == Inline
              && old(Standing(books, id, books.records[id])) == {} ==>
                Get(books.records, id) == None
      ensures old(books.records[id].kind) == Writeable ==> Get(books.records, id) == Get(old(books.records), id)
    {
      var r := books.records[id];
      var standing := Standing(books, id, r);
      torn := false;
      var unread: bool := *;
      if unread {
        faults := faults + 1;
        unseen := standing;
        OnlyForSelf(id, books);
        AbsentAgrees(books, id);
        return;
      }
      var seen: set<string> := *;
      seen := seen * standing;
      unseen := standing - seen;
      if seen != standing {
        faults := faults + 1;
      }
      if seen == {} {
        DropUnseen(id);
      } else {
        torn := ResumeOne(id, seen);
        assert standing - unseen == seen;
      }
    }

    /** drop: no target of the record shows as a mount. */
    method DropUnseen(id: string)
      requires Valid() && id in calling && Absent(books, id) && id in books.records
      modifies this`books, this`faults
      ensures Valid() && OnlyFor(id, old(books), books) && KnownAs(books, id, None)
      ensures books == old(books).(records := books.records)
      ensures Get(books.records, id) == None || Get(books.records, id) == Get(old(books.records), id)
      ensures old(books.records[id].kind) == Writeable ==> books == old(books)
      ensures old(books.records[id].kind) != Writeable && faults == old(faults) ==> Get(books.records, id) == None
      ensures old(Resumed(books, id)).None? ==> Resumed(books, id).None?
      ensures old(faults) <= faults
    {
      OnlyForSelf(id, books);
      if books.records[id].kind != Writeable {
        var _ := Discard(id);
        SameAbsent(id, old(books), books);
      }
      AbsentAgrees(books, id);
      if Resumed(old(books), id).None? {
        LessResumes(old(books), books, id);
      }
    }

    /** resumeOne: the object of the record, with the targets the mount table shows
        when it is a claim. A claim's record is written again. */
    method ResumeOne(id: string, seen: set<string>) returns (ghost torn: bool)
      requires Valid() && id in calling && Absent(books, id) && id in books.records
      requires seen != {} && seen <= Standing(books, id, books.records[id])
      modifies this`books, this`faults
      ensures Valid() && OnlyFor(id, old(books), books)
      ensures var r := old(books.records[id]); KnownAs(books, id, Some(Published(r.kind, r.url, r.follows, seen)))
      ensures seen == old(Standing(books, id, books.records[id])) && !torn ==> Even(books, id)
      ensures old(faults) <= faults && (torn ==> faults > old(faults))
      ensures var r := old(books.records[id]);
              r.kind == ReadOnly && faults == old(faults) ==>
                Get(books.records, id) == Some(RecordOf(Volume(id, r.kind, r.url, r.follows, r.target, seen)))
      ensures old(books.records[id].kind) != ReadOnly ==> Get(books.records, id) == Get(old(books.records), id)
    {
      var r := books.records[id];
      var v := Volume(id, r.kind, r.url, r.follows, r.target, if r.kind == ReadOnly then seen else {});
      assert Bound(v) == seen;
      AbsentAgrees(books, id);
      var o := Make(id, v);
      ghost var made := books;
      SameAbsent(id, old(books), made);
      SameResumes(id, old(books), made);
      assert forall pod :: pod in seen ==> old(Mounted(books, id, pod));
      torn := false;
      if r.kind == ReadOnly {
        torn := RecordAgain(id, v);
        SameAbsent(id, made, books);
        OnlyForTransitive(id, old(books), made, books);
      }
      ghost var open := books;
      Rejoin(id, o);
      OnlyForTransitive(id, old(books), open, books);
      SameResumes(id, open, books);
    }

    /** resumeOne's critical section. */
    method Rejoin(id: string, o: Held)
      requires Valid() && id in calling && Absent(books, id)
      requires Names(books, id, o) && Bound(books.objects[o]) != {}
      modifies this`books, this`faults
      ensures Valid() && OnlyFor(id, old(books), books)
      ensures var v := old(books.objects[o]); KnownAs(books, id, Some(Published(v.kind, v.url, v.follows, Bound(v))))
      ensures SameDisk(id, old(books), books) && faults == old(faults)
    {
      if books.objects[o].kind == Writeable {
        RejoinWriteable(id, o);
      } else {
        RejoinFollowed(id, o);
      }
    }

    method RejoinWriteable(id: string, o: Held)
      requires Valid() && id in calling && Absent(books, id)
      requires Names(books, id, o) && Bound(books.objects[o]) != {} && books.objects[o].kind == Writeable
      modifies this`books, this`faults
      ensures Valid() && OnlyFor(id, old(books), books)
      ensures var v := old(books.objects[o]); KnownAs(books, id, Some(Published(v.kind, v.url, v.follows, Bound(v))))
      ensures SameDisk(id, old(books), books) && faults == old(faults)
    {
      WriteableRejoined(books, id, o);
      Do(id, Publishes(o));
      ghost var published := books;
      Do(id, Stages(o));
      OnlyForTransitive(id, old(books), published, books);
      ghost var staged := books;
      Do(id, Arms(o));
      OnlyForTransitive(id, old(books), staged, books);
      ghost var armed := books;
      Do(id, Watches(o));
      OnlyForTransitive(id, old(books), armed, books);
    }

    method RejoinFollowed(id: string, o: Held)
      requires Valid() && id in calling && Absent(books, id)
      requires Names(books, id, o) && Bound(books.objects[o]) != {} && books.objects[o].kind != Writeable
      modifies this`books, this`faults
      ensures Valid() && OnlyFor(id, old(books), books)
      ensures var v := old(books.objects[o]); KnownAs(books, id, Some(Published(v.kind, v.url, v.follows, Bound(v))))
      ensures SameDisk(id, old(books), books) && faults == old(faults)
    {
      FollowedRejoined(books, id, o);
      Do(id, Publishes(o));
      if books.objects[o].kind == ReadOnly {
        ghost var published := books;
        Do(id, Stages(o));
        OnlyForTransitive(id, old(books), published, books);
      }
      ghost var open := books;
      Do(id, Joins(o));
      Follows(open, o, id);
      OnlyForTransitive(id, old(books), open, books);
    }
  }

  /** From an empty node, a volume whose calls all went well is published after a
      restart that missed none of its mounts as it was before. */
  method CallsAndRestart(id: string)
    returns (node: Node, ghost trail: seq<Report>, ghost was: Option<Published>, ghost missed: set<string>)
    ensures fresh(node) && node.Valid()
    ensures AllWell(trail) && missed == {} ==> PublishedAs(node.books, id) == was
  {
    node := new Node();
    trail := node.Calls(id);
    was := PublishedAs(node.books, id);
    ghost var all, torn := node.Restart();
    missed := Missed(all, id);
  }
}
