/** The keyed outstanding table of `ost.c`: slots allocated in any order, looked up by key in
    order of allocation, freed one by one and retired at the next clock. */
module OstKeyed {
  import opened Ring

  datatype Entry<T> = Entry(valid: bool, pending: bool, key: nat, issue: nat, ctx: T)

  /** One live or retiring allocation. */
  datatype Item<T> = Item(slot: nat, key: nat, ctx: T, pending: bool)

  // ----- the table as a list in order of allocation -----

  /** `order` lists the valid slots from the oldest to the newest. */
  ghost predicate Ordered<T>(es: seq<Entry<T>>, order: seq<nat>, next: nat)
  {
    var ok :=
      && (forall a | 0 <= a < |order| :: order[a] < |es| && es[order[a]].valid && es[order[a]].issue < next)
      && (forall a, b | 0 <= a < b < |order| :: es[order[a]].issue < es[order[b]].issue)
      && (forall i: nat | i < |es| && es[i].valid :: i in order)
      && (forall i: nat | i < |es| && es[i].pending :: es[i].valid);
    ok
  }

  function ItemAt<T>(es: seq<Entry<T>>, i: nat): Item<T>
    requires i < |es|
  {
    Item(i, es[i].key, es[i].ctx, es[i].pending)
  }

  /** The allocations, oldest first. */
  ghost function Items<T>(es: seq<Entry<T>>, order: seq<nat>): (items: seq<Item<T>>)
    requires forall a | 0 <= a < |order| :: order[a] < |es|
    ensures |items| == |order|
  {
    seq(|order|, a requires 0 <= a < |order| => ItemAt(es, order[a]))
  }

  predicate Live<T>(x: Item<T>) { !x.pending }

  /** The oldest live allocation with a key, by position. */
  predicate FirstWith<T>(items: seq<Item<T>>, key: nat, a: nat)
  {
    && a < |items| && Live(items[a]) && items[a].key == key
    && forall b | 0 <= b < a :: !(Live(items[b]) && items[b].key == key)
  }

  function Keep<T>(items: seq<Item<T>>): (kept: seq<Item<T>>)
  {
    if items == [] then []
    else if Live(items[|items| - 1]) then Keep(items[..|items| - 1]) + [items[|items| - 1]]
    else Keep(items[..|items| - 1])
  }

  function Pending<T>(es: seq<Entry<T>>): (n: nat)
  {
    if es == [] then 0 else Pending(es[..|es| - 1]) + if es[|es| - 1].pending then 1 else 0
  }

  function Valids<T>(es: seq<Entry<T>>): (n: nat)
  {
    if es == [] then 0 else Valids(es[..|es| - 1]) + if es[|es| - 1].valid then 1 else 0
  }

  lemma {:induction false} CountUpdate<T>(es: seq<Entry<T>>, i: nat, e: Entry<T>)
    requires i < |es|
    ensures Pending(es[i := e]) == Pending(es) - (if es[i].pending then 1 else 0) + (if e.pending then 1 else 0)
    ensures Valids(es[i := e]) == Valids(es) - (if es[i].valid then 1 else 0) + (if e.valid then 1 else 0)
  {
    var k := |es| - 1;
    if i < k {
      CountUpdate(es[..k], i, e);
      assert es[i := e][..k] == es[..k][i := e];
    } else {
      assert es[i := e][..k] == es[..k];
    }
  }

  /** Below its depth the table has a free slot. */
  lemma {:induction false} SomeFree<T>(es: seq<Entry<T>>)
    ensures Valids(es) <= |es|
    ensures Valids(es) < |es| ==> exists i: nat :: i < |es| && !es[i].valid
  {
    if es != [] {
      var k := |es| - 1;
      SomeFree(es[..k]);
      if Valids(es) < |es| && es[k].valid {
        var i: nat :| i < k && !es[..k][i].valid;
        assert !es[i].valid;
      }
    }
  }

  lemma {:induction false} NonePending<T>(es: seq<Entry<T>>)
    requires Pending(es) == 0
    ensures forall i | 0 <= i < |es| :: !es[i].pending
  {
    if es != [] {
      NonePending(es[..|es| - 1]);
      forall i | 0 <= i < |es|
        ensures !es[i].pending
      {
        if i < |es| - 1 {
          assert es[..|es| - 1][i] == es[i];
        }
      }
    }
  }

  // ----- steps -----

  lemma Distinct<T>(es: seq<Entry<T>>, order: seq<nat>, next: nat, a: nat, b: nat)
    requires Ordered(es, order, next) && a < |order| && b < |order| && a != b
    ensures order[a] != order[b]
  {
  }

  /** A new allocation goes to the end of the list. */
  lemma Allocated<T>(es: seq<Entry<T>>, order: seq<nat>, next: nat, i: nat, key: nat, ctx: T)
    requires Ordered(es, order, next) && i < |es| && !es[i].valid
    ensures var es' := es[i := Entry(true, false, key, next, ctx)];
            && Ordered(es', order + [i], next + 1)
            && Items(es', order + [i]) == Items(es, order) + [Item(i, key, ctx, false)]
  {
    var es' := es[i := Entry(true, false, key, next, ctx)];
    var order' := order + [i];
    forall j: nat | j < |es'| && es'[j].valid
      ensures j in order'
    {
      if j != i {
        assert j in order;
      }
    }
  }

  /** Freeing marks one item. */
  lemma Marked<T>(es: seq<Entry<T>>, order: seq<nat>, next: nat, a: nat)
    requires Ordered(es, order, next) && a < |order|
    ensures var es' := es[order[a] := es[order[a]].(pending := true)];
            && Ordered(es', order, next)
            && Items(es', order) == Items(es, order)[a := Items(es, order)[a].(pending := true)]
  {
    var es' := es[order[a] := es[order[a]].(pending := true)];
    forall b | 0 <= b < |order| && b != a
      ensures es'[order[b]] == es[order[b]]
    {
      Distinct(es, order, next, a, b);
    }
    assert Items(es', order) == Items(es, order)[a := Items(es, order)[a].(pending := true)];
  }

  /** Position of an element of the list. */
  lemma Position(order: seq<nat>, i: nat) returns (a: nat)
    requires i in order
    ensures a < |order| && order[a] == i
  {
    a :| a < |order| && order[a] == i;
  }

  // ----- the counts -----

  function ValidSet<T>(es: seq<Entry<T>>): set<nat> { set i: nat | i < |es| && es[i].valid }

  lemma {:induction false} ValidsCard<T>(es: seq<Entry<T>>)
    ensures |ValidSet(es)| == Valids(es)
  {
    if es != [] {
      var k := |es| - 1;
      ValidsCard(es[..k]);
      if es[k].valid {
        assert ValidSet(es) == ValidSet(es[..k]) + {k};
      } else {
        assert ValidSet(es) == ValidSet(es[..k]);
      }
    }
  }

  function Members(order: seq<nat>): set<nat> { set i | i in order }

  lemma {:induction false} DistinctCard(order: seq<nat>)
    requires forall a, b | 0 <= a < b < |order| :: order[a] != order[b]
    ensures |Members(order)| == |order|
  {
    if order != [] {
      var k := |order| - 1;
      DistinctCard(order[..k]);
      assert order == order[..k] + [order[k]];
      assert Members(order) == Members(order[..k]) + {order[k]};
    }
  }

  /** The count of valid slots is the length of the list. */
  lemma CountIsLength<T>(es: seq<Entry<T>>, order: seq<nat>, next: nat)
    requires Ordered(es, order, next)
    ensures Valids(es) == |order|
  {
    ValidsCard(es);
    forall a, b | 0 <= a < b < |order|
      ensures order[a] != order[b]
    {
      Distinct(es, order, next, a, b);
    }
    DistinctCard(order);
    assert ValidSet(es) == Members(order);
  }

  // ----- the clock -----

  function Blank<T>(zero: T): Entry<T> { Entry(false, false, 0, 0, zero) }

  /** The table with the freed slots among the first `k` retired. */
  function Retired<T>(es: seq<Entry<T>>, k: nat, zero: T): (es': seq<Entry<T>>)
    ensures |es'| == |es|
  {
    seq(|es|, i requires 0 <= i < |es| => if i < k && es[i].valid && es[i].pending then Blank(zero) else es[i])
  }

  /** The slots of the list that stay. */
  function Staying<T>(es: seq<Entry<T>>, order: seq<nat>): (kept: seq<nat>)
    requires forall a | 0 <= a < |order| :: order[a] < |es|
    ensures forall a | 0 <= a < |kept| :: kept[a] < |es|
  {
    if order == [] then []
    else
      var rest, i := order[..|order| - 1], order[|order| - 1];
      if es[i].pending then Staying(es, rest) else Staying(es, rest) + [i]
  }

  lemma {:induction false} StayingIn<T>(es: seq<Entry<T>>, order: seq<nat>)
    requires forall a | 0 <= a < |order| :: order[a] < |es|
    ensures forall i :: i in Staying(es, order) <==> i in order && !es[i].pending
  {
    if order != [] {
      var k := |order| - 1;
      StayingIn(es, order[..k]);
      assert order == order[..k] + [order[k]];
    }
  }

  lemma {:induction false} StayingItems<T>(es: seq<Entry<T>>, order: seq<nat>)
    requires forall a | 0 <= a < |order| :: order[a] < |es|
    ensures Keep(Items(es, order)) == Items(es, Staying(es, order))
  {
    if order != [] {
      var k := |order| - 1;
      StayingItems(es, order[..k]);
      assert Items(es, order)[..k] == Items(es, order[..k]);
      assert Items(es, order)[k] == ItemAt(es, order[k]);
      if !es[order[k]].pending {
        assert Items(es, Staying(es, order)) == Items(es, Staying(es, order[..k])) + [ItemAt(es, order[k])];
      }
    }
  }

  /** The slots are listed in order of issue. */
  ghost predicate Sorted<T>(es: seq<Entry<T>>, order: seq<nat>)
  {
    && (forall a | 0 <= a < |order| :: order[a] < |es|)
    && (forall a, b | 0 <= a < b < |order| :: es[order[a]].issue < es[order[b]].issue)
  }

  /** What stays keeps its order. */
  lemma {:induction false} StayingSorted<T>(es: seq<Entry<T>>, order: seq<nat>)
    requires Sorted(es, order)
    ensures Sorted(es, Staying(es, order))
  {
    if order != [] {
      var k := |order| - 1;
      StayingSorted(es, order[..k]);
      var kept := Staying(es, order[..k]);
      StayingBelow(es, order, kept);
      SortedAppend(es, kept, order[k]);
    }
  }

  lemma SortedAppend<T>(es: seq<Entry<T>>, order: seq<nat>, i: nat)
    requires Sorted(es, order) && i < |es| && forall a | 0 <= a < |order| :: es[order[a]].issue < es[i].issue
    ensures Sorted(es, order + [i])
  {
    var order' := order + [i];
    forall a, b | 0 <= a < b < |order'|
      ensures es[order'[a]].issue < es[order'[b]].issue
    {
      if b < |order| {
        assert order'[a] == order[a] && order'[b] == order[b];
      } else {
        assert order'[a] == order[a];
      }
    }
  }

  /** Whatever stays of the older allocations was issued before the youngest. */
  lemma StayingBelow<T>(es: seq<Entry<T>>, order: seq<nat>, kept: seq<nat>)
    requires Sorted(es, order) && order != [] && kept == Staying(es, order[..|order| - 1])
    ensures forall a | 0 <= a < |kept| :: kept[a] < |es| && es[kept[a]].issue < es[order[|order| - 1]].issue
  {
    hide Staying;
    var k := |order| - 1;
    StayingIn(es, order[..k]);
    forall a | 0 <= a < |kept|
      ensures kept[a] < |es| && es[kept[a]].issue < es[order[k]].issue
    {
      assert kept[a] in kept;
      var b := Position(order[..k], kept[a]);
      assert order[b] == kept[a];
    }
  }

  /** After the clock the list is what was live, in the same order. */
  lemma AfterClock<T>(es: seq<Entry<T>>, order: seq<nat>, next: nat, zero: T)
    requires Ordered(es, order, next)
    ensures var es', kept := Retired(es, |es|, zero), Staying(es, order);
            && Ordered(es', kept, next)
            && Items(es', kept) == Keep(Items(es, order)) && Pending(es') == 0
  {
    var es', kept := Retired(es, |es|, zero), Staying(es, order);
    StayingIn(es, order);
    StayingItems(es, order);
    StayingSorted(es, order);
    forall a | 0 <= a < |kept|
      ensures kept[a] < |es| && es'[kept[a]] == es[kept[a]] && es[kept[a]].valid
    {
      assert kept[a] in kept;
      var b := Position(order, kept[a]);
    }
    forall i: nat | i < |es'| && es'[i].valid
      ensures i in kept
    {
      assert i in order;
    }
    assert Items(es', kept) == Items(es, kept);
    NoPending(es');
  }

  lemma {:induction false} NoPending<T>(es: seq<Entry<T>>)
    requires forall i | 0 <= i < |es| :: !es[i].pending
    ensures Pending(es) == 0
  {
    if es != [] {
      NoPending(es[..|es| - 1]);
    }
  }

  lemma {:induction false} NoneValid<T>(es: seq<Entry<T>>)
    requires forall i | 0 <= i < |es| :: es[i] == es[0] && !es[i].valid && !es[i].pending
    ensures Valids(es) == 0 && Pending(es) == 0
  {
    if es != [] {
      NoneValid(es[..|es| - 1]);
    }
  }

  /** The slot with the smallest issue number is the first of the list. */
  lemma SmallestIsFirst<T>(es: seq<Entry<T>>, order: seq<nat>, next: nat, key: nat, i: nat) returns (a: nat)
    requires Ordered(es, order, next) && i < |es| && Wanted(es[i], key)
    requires forall j: nat | j < |es| && Wanted(es[j], key) :: es[i].issue <= es[j].issue
    ensures FirstWith(Items(es, order), key, a) && order[a] == i
  {
    a := Position(order, i);
    forall b | 0 <= b < a
      ensures !(Live(Items(es, order)[b]) && Items(es, order)[b].key == key)
    {
      assert es[order[b]].issue < es[i].issue;
    }
  }

  /** A live entry with the key. */
  predicate Wanted<T>(e: Entry<T>, key: nat) { e.valid && !e.pending && e.key == key }

  lemma NoneWanted<T>(es: seq<Entry<T>>, order: seq<nat>, next: nat, key: nat, a: nat)
    requires Ordered(es, order, next) && forall j: nat | j < |es| :: !Wanted(es[j], key)
    ensures !FirstWith(Items(es, order), key, a)
  {
    if a < |order| {
      assert !Wanted(es[order[a]], key);
    }
  }

  // ----- the table -----

  class Ostk<T> {
    const slots: array<Entry<T>>
    const zero: T
    var count: nat
    var pendingCount: nat
    var wptr: nat
    var nextIssue: nat
    /** The valid slots, oldest first. */
    ghost var order: seq<nat>

    ghost predicate Valid()
      reads this, slots
    {
      && slots.Length > 0 && wptr < slots.Length
      && Ordered(slots[..], order, nextIssue)
      && count == Valids(slots[..]) && pendingCount == Pending(slots[..])
    }

    /** The allocations, oldest first. */
    ghost function Contents(): (items: seq<Item<T>>)
      reads this, slots
      requires Valid()
    {
      Items(slots[..], order)
    }

    constructor (depth: nat, zero: T)
      requires depth > 0
      ensures Valid() && fresh(slots) && slots.Length == depth && Contents() == []
    {
      slots := new Entry<T>[depth](_ => Blank(zero));
      this.zero := zero;
      count, pendingCount, wptr, nextIssue := 0, 0, 0, 0;
      order := [];
      new;
      NoneValid(slots[..]);
    }

    /** The next free slot from the write pointer on; below the depth there always is one. */
    method FindFreeSlot() returns (ok: bool, slot: nat)
      requires Valid()
      ensures ok == (count < slots.Length)
      ensures ok ==> slot < slots.Length && !slots[slot].valid
    {
      slot := 0;
      if count == slots.Length {
        return false, slot;
      }
      SomeFree(slots[..]);
      ghost var free: nat :| free < slots.Length && !slots[free].valid;
      var i := 0;
      while i < slots.Length
        invariant 0 <= i <= slots.Length
        invariant forall j: nat | j < i :: slots[At(wptr, j, slots.Length)].valid
      {
        Mod(wptr, i, slots.Length);
        slot := (wptr + i) % slots.Length;
        if !slots[slot].valid {
          return true, slot;
        }
        i := i + 1;
      }
      ghost var k := Reaches(wptr, free, slots.Length);
      assert false;
    }

    method Alloc(key: nat, ctx: T) returns (ok: bool, slot: nat)
      requires Valid()
      modifies this, slots
      ensures Valid() && ok == (|old(Contents())| < slots.Length)
      ensures ok ==> slot < slots.Length && !old(slots[slot].valid)
      ensures Contents() == if ok then old(Contents()) + [Item(slot, key, ctx, false)] else old(Contents())
    {
      CountIsLength(slots[..], order, nextIssue);
      ok, slot := FindFreeSlot();
      if !ok {
        return;
      }
      ghost var es := slots[..];
      Allocated(es, order, nextIssue, slot, key, ctx);
      CountUpdate(es, slot, Entry(true, false, key, nextIssue, ctx));
      slots[slot] := Entry(true, false, key, nextIssue, ctx);
      assert slots[..] == es[slot := Entry(true, false, key, nextIssue, ctx)];
      order := order + [slot];
      nextIssue := nextIssue + 1;
      count := count + 1;
      wptr := (slot + 1) % slots.Length;
    }

    /** The oldest live allocation with the key. */
    method PeekKey(key: nat) returns (found: bool, slot: nat)
      requires Valid()
      ensures found ==> exists a: nat :: FirstWith(Contents(), key, a) && Contents()[a].slot == slot
      ensures !found ==> forall a: nat :: !FirstWith(Contents(), key, a)
    {
      found, slot := false, 0;
      var best := 0;
      var i := 0;
      while i < slots.Length
        invariant 0 <= i <= slots.Length
        invariant found ==> slot < i && Wanted(slots[slot], key) && best == slots[slot].issue
        invariant !found ==> forall j: nat | j < i :: !Wanted(slots[j], key)
        invariant found ==> forall j: nat | j < i && Wanted(slots[j], key) :: best <= slots[j].issue
      {
        if Wanted(slots[i], key) && (!found || slots[i].issue < best) {
          found, slot, best := true, i, slots[i].issue;
        }
        i := i + 1;
      }
      if found {
        ghost var a := SmallestIsFirst(slots[..], order, nextIssue, key, slot);
        assert FirstWith(Contents(), key, a) && Contents()[a].slot == slot;
      } else {
        forall a: nat
          ensures !FirstWith(Contents(), key, a)
        {
          NoneWanted(slots[..], order, nextIssue, key, a);
        }
      }
    }

    /** Frees a live slot; it stays occupied until the next clock. */
    method FreeSlot(slot: nat)
      requires Valid() && slot < slots.Length && slots[slot].valid && !slots[slot].pending
      modifies this, slots
      ensures Valid() && order == old(order) && slot in order && count == old(count)
      ensures forall a | 0 <= a < |order| :: |old(Contents())| == |order| == |Contents()| &&
                Contents()[a] == if order[a] == slot then old(Contents())[a].(pending := true) else old(Contents())[a]
    {
      ghost var es := slots[..];
      ghost var a := Position(order, slot);
      Marked(es, order, nextIssue, a);
      CountUpdate(es, slot, es[slot].(pending := true));
      slots[slot] := slots[slot].(pending := true);
      pendingCount := pendingCount + 1;
      assert slots[..] == es[slot := es[slot].(pending := true)];
      forall b | 0 <= b < |order| && b != a
        ensures order[b] != slot
      {
        Distinct(es, order, nextIssue, a, b);
      }
    }

    /** The retire loop. */
    method RetireAll()
      requires Valid()
      modifies `count, `pendingCount, slots
      ensures slots[..] == Retired(old(slots[..]), slots.Length, zero)
      ensures count == Valids(slots[..]) && pendingCount == Pending(slots[..])
    {
      ghost var es := slots[..];
      RetireNone(es, zero);
      var i := 0;
      while i < slots.Length
        invariant 0 <= i <= slots.Length && slots[..] == Retired(es, i, zero)
        invariant count == Valids(slots[..]) && pendingCount == Pending(slots[..])
      {
        ghost var now := slots[..];
        RetireStep(es, i, zero);
        if slots[i].valid && slots[i].pending {
          CountUpdate(now, i, Blank(zero));
          slots[i] := Blank(zero);
          assert slots[..] == now[i := Blank(zero)];
          count := count - 1;
          pendingCount := pendingCount - 1;
        }
        i := i + 1;
      }
    }

    /** Retires every freed slot: what was live stays, in the same order. */
    method Clock()
      requires Valid()
      modifies this, slots
      ensures Valid() && Contents() == Keep(old(Contents())) && pendingCount == 0
    {
      hide Ordered, Staying, Keep, Retired, Items, Pending, Valids;
      ghost var es := slots[..];
      InBounds(es, order, nextIssue);
      ghost var kept := Staying(es, order);
      AfterClock(es, order, nextIssue, zero);
      if pendingCount == 0 {
        RetireIdle(es, zero);
      } else {
        RetireAll();
      }
      order := kept;
    }
  }

  lemma InBounds<T>(es: seq<Entry<T>>, order: seq<nat>, next: nat)
    requires Ordered(es, order, next)
    ensures forall a | 0 <= a < |order| :: order[a] < |es|
  {
  }

  lemma RetireNone<T>(es: seq<Entry<T>>, zero: T)
    ensures Retired(es, 0, zero) == es
  {
  }

  lemma RetireStep<T>(es: seq<Entry<T>>, i: nat, zero: T)
    requires i < |es|
    ensures Retired(es, i, zero)[i] == es[i]
    ensures Retired(es, i + 1, zero) ==
            if es[i].valid && es[i].pending then Retired(es, i, zero)[i := Blank(zero)] else Retired(es, i, zero)
  {
  }

  lemma RetireIdle<T>(es: seq<Entry<T>>, zero: T)
    requires Pending(es) == 0
    ensures Retired(es, |es|, zero) == es
  {
    NonePending(es);
  }

  /** Every slot is some number of places after the write pointer. */
  lemma Reaches(wptr: nat, slot: nat, n: nat) returns (k: nat)
    requires wptr < n && slot < n
    ensures k < n && At(wptr, k, n) == slot
  {
    k := if slot >= wptr then slot - wptr else n + slot - wptr;
  }
}
