// The one slot between the claim's watch and the reads that arm a volume. The
// watch's one goroutine drains the slot and sends; the other takes a copy, reads
// its class, and after a failure takes a newer copy if there is one.

module Arming {
  import opened Wrappers

  /** Copies are numbered in the order the watch offers them. */
  type Copy = nat

  predicate Ascends(copies: seq<Copy>)
  {
    forall i, j :: 0 <= i < j < |copies| ==> copies[i] <= copies[j]
  }

  predicate Climbs(copies: seq<Copy>)
  {
    forall i, j :: 0 <= i < j < |copies| ==> copies[i] < copies[j]
  }

  lemma OneMore(copies: seq<Copy>, c: Copy)
    requires forall x :: x in copies ==> x <= c
    ensures Ascends(copies) ==> Ascends(copies + [c])
    ensures Climbs(copies) && c !in copies ==> Climbs(copies + [c])
  {
    var more := copies + [c];
    forall i | 0 <= i < |copies|
      ensures more[i] in copies
    {
    }
  }

  /** Where a copy can be: with the sender between its drain and its send, in the
      slot, or in the reader's hands, whose read of it may have failed. */
  datatype Hands = Hands(sending: Option<Copy>, slot: Option<Copy>, held: Option<Copy>, failed: bool)

  predicate Below(a: Option<Copy>, b: Option<Copy>)
  {
    a.Some? && b.Some? ==> a.value < b.value
  }

  class Slot {
    var hands: Hands
    var offered: nat
    ghost var tried: seq<Copy>
    ghost var armed: seq<Copy>

    /** Later copies are nearer the sender, and nothing read is ahead of them. */
    ghost predicate Ordered()
      reads this
    {
      Below(hands.held, hands.slot) && Below(hands.held, hands.sending) && Below(hands.slot, hands.sending)
      && (forall h :: h in {hands.held, hands.slot, hands.sending} && h.Some? ==> h.value < offered)
    }

    ghost predicate Behind(copies: seq<Copy>)
      reads this
    {
      forall c :: c in copies ==>
        c < offered
        && (hands.held.Some? ==> c <= hands.held.value)
        && (hands.slot.Some? ==> c < hands.slot.value)
        && (hands.sending.Some? ==> c < hands.sending.value)
    }

    /** The last copy offered is on its way, in the slot, held, or armed from. */
    ghost predicate NewestKept()
      reads this
    {
      offered > 0 ==>
        Some(offered - 1) in {hands.sending, hands.slot, hands.held}
        || (armed != [] && armed[|armed| - 1] == offered - 1)
    }

    /** A send finds the slot empty, so it never blocks. */
    ghost predicate SendsFreely()
      reads this
    {
      hands.sending.Some? ==> hands.slot.None?
    }

    ghost predicate Valid()
      reads this
    {
      Ordered() && Behind(tried) && Ascends(tried) && NewestKept() && SendsFreely()
      && (forall c :: c in armed ==> c in tried && (hands.held.Some? ==> c < hands.held.value))
      && Climbs(armed)
    }

    constructor ()
      ensures Valid() && hands == Hands(None, None, None, false) && offered == 0 && tried == []
    {
      hands, offered, tried, armed := Hands(None, None, None, false), 0, [], [];
    }

    /** offer's drain. */
    method Drain()
      requires Valid() && hands.sending.None?
      modifies this`hands, this`offered
      ensures Valid() && offered == old(offered) + 1
      ensures hands == old(hands).(sending := Some(old(offered)), slot := None)
    {
      hands := hands.(sending := Some(offered), slot := None);
      offered := offered + 1;
    }

    /** offer's send. */
    method Send()
      requires Valid() && hands.sending.Some?
      modifies this`hands
      ensures Valid() && old(hands.slot) == None
      ensures hands == old(hands).(sending := None, slot := old(hands.sending))
    {
      hands := hands.(sending := None, slot := hands.sending);
    }

    /** reads takes a copy: its first, or after a failure a newer one if the slot
        holds one. */
    method Take()
      requires Valid() && hands.slot.Some? && (hands.held.None? || hands.failed)
      modifies this`hands
      ensures Valid() && hands == Hands(old(hands.sending), None, old(hands.slot), false)
    {
      hands := hands.(slot := None, held := hands.slot, failed := false);
    }

    /** read: a copy whose class was read is done with. */
    method Read() returns (err: bool)
      requires Valid() && hands.held.Some?
      modifies this`hands, this`tried, this`armed
      ensures Valid() && tried == old(tried) + [old(hands.held.value)]
      ensures err ==> hands == old(hands).(failed := true) && armed == old(armed)
      ensures !err ==>
                hands == old(hands).(held := None, failed := false)
                && armed == old(armed) + [old(hands.held.value)]
    {
      err := *;
      OneMore(tried, hands.held.value);
      OneMore(armed, hands.held.value);
      assert armed != [] ==> armed[|armed| - 1] in armed;
      tried := tried + [hands.held.value];
      if !err {
        armed := armed + [hands.held.value];
        hands := hands.(held := None, failed := false);
      } else {
        hands := hands.(failed := true);
      }
    }

    /** Any interleaving of the two goroutines. When both rest, the volume is armed
        from the last copy offered, and from copies in the order of their offer. */
    method Run(steps: nat)
      requires Valid()
      modifies this
      ensures Valid() && old(offered) <= offered && old(tried) <= tried
      ensures forall i, j :: 0 <= i < j < |armed| ==> armed[i] < armed[j]
      ensures forall i, j :: 0 <= i < j < |tried| ==> tried[i] <= tried[j]
      ensures hands.sending.None? && hands.slot.None? && hands.held.None? && offered > 0 ==>
                armed != [] && armed[|armed| - 1] == offered - 1
    {
      for i := 0 to steps
        invariant Valid() && old(offered) <= offered && old(tried) <= tried
      {
        if {
          case hands.sending.None? => Drain();
          case hands.sending.Some? => Send();
          case hands.slot.Some? && (hands.held.None? || hands.failed) => Take();
          case hands.held.Some? => var _ := Read();
          case true => {}
        }
      }
    }
  }
}
