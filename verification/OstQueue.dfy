/** The ordered outstanding table of `ost.c`: a queue whose head is freed at once but leaves its
    slot only at the next clock. */
module OstQueue {
  import opened Ring

  datatype Entry<T> = Entry(valid: bool, pending: bool, ctx: T)

  /** The entries, oldest first, and whether the oldest has been freed. */
  datatype Table<T> = Table(entries: seq<T>, freed: bool)

  /** What a clock does to a table. */
  function Clocked<T>(t: Table<T>): (t': Table<T>)
  {
    if t.freed && t.entries != [] then Table(t.entries[1..], false) else t
  }

  /** The slots from `rptr` on hold the entries; all others are free; only the oldest can be
      waiting for the clock. */
  ghost predicate Shape<T>(es: seq<Entry<T>>, rptr: nat, count: nat)
  {
    && rptr < |es| && count <= |es|
    && (forall k: nat | k < |es| :: es[At(rptr, k, |es|)].valid == (k < count))
    && (forall k: nat | k < |es| && k > 0 :: !es[At(rptr, k, |es|)].pending)
    && (count == 0 ==> !es[rptr].pending)
  }

  ghost function View<T>(es: seq<Entry<T>>, rptr: nat, count: nat): (t: Table<T>)
    requires Shape(es, rptr, count)
    ensures |t.entries| == count
  {
    Table(seq(count, k requires 0 <= k < count => es[At(rptr, k, |es|)].ctx), es[rptr].pending)
  }

  /** How far a slot is from the head. */
  function PlaceOf(rptr: nat, slot: nat, n: nat): (k: nat)
    requires rptr < n && slot < n
    ensures k < n && At(rptr, k, n) == slot
  {
    if slot >= rptr then slot - rptr else n + slot - rptr
  }

  /** An entry is stored behind the last one. */
  lemma Stored<T>(es: seq<Entry<T>>, rptr: nat, count: nat, x: T)
    requires Shape(es, rptr, count) && count < |es|
    ensures var es' := es[At(rptr, count, |es|) := Entry(true, false, x)];
            && Shape(es', rptr, count + 1)
            && View(es', rptr, count + 1) == Table(View(es, rptr, count).entries + [x], View(es, rptr, count).freed)
  {
    var n, i := |es|, At(rptr, count, |es|);
    var es' := es[i := Entry(true, false, x)];
    forall k: nat | k < n
      ensures es'[At(rptr, k, n)] == if k == count then Entry(true, false, x) else es[At(rptr, k, n)]
    {
      if k != count {
        AtDistinct(rptr, k, count, n);
      }
    }
    assert View(es', rptr, count + 1).entries == View(es, rptr, count).entries + [x];
  }

  /** The oldest entry is dropped. */
  lemma Dropped<T>(es: seq<Entry<T>>, rptr: nat, count: nat, zero: T)
    requires Shape(es, rptr, count) && count > 0
    ensures var es' := es[rptr := Entry(false, false, zero)];
            && Shape(es', At(rptr, 1, |es|), count - 1)
            && View(es', At(rptr, 1, |es|), count - 1) == Table(View(es, rptr, count).entries[1..], false)
  {
    var n, r := |es|, At(rptr, 1, |es|);
    var es' := es[rptr := Entry(false, false, zero)];
    forall k: nat | k < n
      ensures k + 1 < n ==> At(r, k, n) == At(rptr, k + 1, n) && es'[At(r, k, n)] == es[At(rptr, k + 1, n)]
      ensures k + 1 == n ==> At(r, k, n) == rptr
    {
      AtStep(rptr, k, n);
      if k + 1 < n {
        AtDistinct(rptr, k + 1, 0, n);
      }
    }
    assert At(rptr, 0, n) == rptr;
    assert View(es', r, count - 1).entries == View(es, rptr, count).entries[1..];
  }

  class Ostq<T> {
    const slots: array<Entry<T>>
    const zero: T
    var count: nat
    var pendingCount: nat
    var rptr: nat
    var wptr: nat

    ghost predicate Valid()
      reads this, slots
    {
      && Shape(slots[..], rptr, count) && wptr == At(rptr, count, slots.Length)
      && pendingCount == if slots[rptr].pending then 1 else 0
    }

    ghost function Contents(): (t: Table<T>)
      reads this, slots
      requires Valid()
      ensures |t.entries| == count
    {
      View(slots[..], rptr, count)
    }

    constructor (depth: nat, zero: T)
      requires depth > 0
      ensures Valid() && fresh(slots) && slots.Length == depth && Contents() == Table([], false)
    {
      slots := new Entry<T>[depth](_ => Entry(false, false, zero));
      this.zero := zero;
      count, pendingCount, rptr, wptr := 0, 0, 0, 0;
    }

    /** Refused exactly when every slot is taken, slots waiting for the clock included. */
    method Alloc(ctx: T) returns (ok: bool, slot: nat)
      requires Valid()
      modifies this, slots
      ensures Valid() && ok == (|old(Contents()).entries| < slots.Length)
      ensures Contents() == if ok then Table(old(Contents()).entries + [ctx], old(Contents()).freed) else old(Contents())
      ensures ok ==> slot < slots.Length && slots[slot] == Entry(true, false, ctx) && !old(slots[slot].valid)
    {
      slot := wptr;
      if count == slots.Length {
        return false, slot;
      }
      Stored(slots[..], rptr, count, ctx);
      Step(slot, slots.Length);
      AtStep(rptr, count, slots.Length);
      assert At(rptr, 0, slots.Length) == rptr;
      if count != 0 {
        AtDistinct(rptr, 0, count, slots.Length);
      }
      slots[slot] := Entry(true, false, ctx);
      assert slots[..] == old(slots[..])[slot := Entry(true, false, ctx)];
      count := count + 1;
      wptr := (slot + 1) % slots.Length;
      ok := true;
    }

    /** The oldest entry, unless it has been freed. */
    method PeekHead() returns (ok: bool, ctx: T, slot: nat)
      requires Valid()
      ensures ok <==> Contents().entries != [] && !Contents().freed
      ensures ok ==> ctx == Contents().entries[0] && slot == rptr
    {
      ok, ctx, slot := count != 0 && !slots[rptr].pending, slots[rptr].ctx, rptr;
      assert At(rptr, 0, slots.Length) == rptr;
    }

    /** Freeing an empty table or a head already freed is a check failure in the source. */
    method FreeHead()
      requires Valid() && Contents().entries != [] && !Contents().freed
      modifies this, slots
      ensures Valid() && Contents() == Table(old(Contents()).entries, true)
    {
      ghost var es, n := slots[..], slots.Length;
      slots[rptr] := slots[rptr].(pending := true);
      pendingCount := pendingCount + 1;
      forall k: nat | 0 < k < n
        ensures At(rptr, k, n) != rptr
      {
        AtDistinct(rptr, k, 0, n);
      }
      assert slots[..] == es[rptr := es[rptr].(pending := true)];
      assert Contents().entries == old(Contents()).entries;
    }

    /** Retires freed heads; as only the head can be freed, that is at most one. */
    method Clock()
      requires Valid()
      modifies this, slots
      ensures Valid() && Contents() == Clocked(old(Contents())) && pendingCount == 0
    {
      if pendingCount == 0 {
        return;
      }
      while count > 0
        invariant Valid() && count <= old(count)
        invariant Contents() == old(Contents()) || (Contents() == Clocked(old(Contents())) && !Contents().freed)
        invariant pendingCount > 0 ==> Contents() == old(Contents())
        decreases count
      {
        if !slots[rptr].pending {
          return;
        }
        ghost var es := slots[..];
        Dropped(es, rptr, count, zero);
        Step(rptr, slots.Length);
        AtStep(rptr, count - 1, slots.Length);
        slots[rptr] := Entry(false, false, zero);
        assert slots[..] == es[rptr := Entry(false, false, zero)];
        count := count - 1;
        pendingCount := pendingCount - 1;
        rptr := (rptr + 1) % slots.Length;
      }
    }

    /** Rewrites the context of a live slot in place. */
    method WriteSlot(slot: nat, ctx: T)
      requires Valid() && slot < slots.Length && slots[slot].valid && !slots[slot].pending
      modifies slots
      ensures Valid() && PlaceOf(rptr, slot, slots.Length) < count
      ensures Contents() ==
              Table(old(Contents()).entries[PlaceOf(rptr, slot, slots.Length) := ctx], old(Contents()).freed)
    {
      ghost var es, n := slots[..], slots.Length;
      ghost var k := PlaceOf(rptr, slot, n);
      assert At(rptr, k, n) == slot;
      slots[slot] := slots[slot].(ctx := ctx);
      forall j: nat | j < n && j != k
        ensures At(rptr, j, n) != slot
      {
        AtDistinct(rptr, j, k, n);
      }
      assert slots[..] == es[slot := es[slot].(ctx := ctx)];
      assert Contents().entries == old(Contents()).entries[k := ctx];
    }

    method Reset()
      requires Valid()
      modifies this, slots
      ensures Valid() && Contents() == Table([], false)
    {
      var i := 0;
      while i < slots.Length
        invariant 0 <= i <= slots.Length
        invariant forall j | 0 <= j < i :: slots[j] == Entry(false, false, zero)
      {
        slots[i] := Entry(false, false, zero);
        i := i + 1;
      }
      count, pendingCount, rptr, wptr := 0, 0, 0, 0;
    }
  }
}
