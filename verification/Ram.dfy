/** The latency-modelled write path of the AXI RAM: requests wait in a ring, data beats fill the
    first request still owed data, responses leave from the front once their latency is over. */
module Ram {
  import opened Ring

  const PENDING_DEPTH: nat := 1024
  const ADDR_SPACE: nat := 0x1_0000_0000

  type Byte = x: int | 0 <= x < 256

  /** A write request, its address relative to the start of the RAM. */
  datatype Aw = Aw(id: nat, addr: nat, len: nat, size: nat, fixed: bool)

  /** A data beat: four bytes and their strobes. */
  datatype W = W(bytes: seq<Byte>, strb: seq<bool>, last: bool)

  datatype Entry = Entry(ready: nat, addr: nat, id: nat, len: nat, size: nat, fixed: bool, beat: nat, done: bool)

  datatype B = B(id: nat, cycle: nat)

  // ----- what a burst does to memory -----

  function ByteNum(size: nat): (n: nat) { if size == 0 then 1 else 2 * ByteNum(size - 1) }

  function NextAddr(addr: nat, size: nat, fixed: bool): nat
  {
    if fixed then addr else (addr + ByteNum(size)) % ADDR_SPACE
  }

  /** Address of beat `k`. */
  function BeatAddr(aw: Aw, k: nat): nat
  {
    if k == 0 then aw.addr else NextAddr(BeatAddr(aw, k - 1), aw.size, aw.fixed)
  }

  /** One beat: out of range it does nothing, else the strobed bytes change. */
  function WriteBeat(data: seq<Byte>, addr: nat, size: nat, w: W): (data': seq<Byte>)
    ensures |data'| == |data|
  {
    var n := ByteNum(size);
    if n > 4 || addr >= |data| || n > |data| - addr then data
    else seq(|data|, i requires 0 <= i < |data| =>
               if addr <= i < addr + n && i - addr < |w.strb| && i - addr < |w.bytes| && w.strb[i - addr] then w.bytes[i - addr]
               else data[i])
  }

  function Burst(data: seq<Byte>, aw: Aw, ws: seq<W>): (data': seq<Byte>)
    ensures |data'| == |data|
  {
    if ws == [] then data
    else
      var k := |ws| - 1;
      WriteBeat(Burst(data, aw, ws[..k]), BeatAddr(aw, k), aw.size, ws[k])
  }

  /** The bursts applied in order. */
  function ApplyAll(data: seq<Byte>, aws: seq<Aw>, groups: seq<seq<W>>): (data': seq<Byte>)
    requires |groups| <= |aws|
    ensures |data'| == |data|
  {
    if groups == [] then data
    else
      var k := |groups| - 1;
      Burst(ApplyAll(data, aws, groups[..k]), aws[k], groups[k])
  }

  function Flatten(groups: seq<seq<W>>): (ws: seq<W>)
  {
    if groups == [] then [] else Flatten(groups[..|groups| - 1]) + groups[|groups| - 1]
  }

  /** Beats so far of a burst that is not over. */
  predicate Open(aw: Aw, ws: seq<W>)
  {
    |ws| <= aw.len && forall i | 0 <= i < |ws| :: !ws[i].last
  }

  /** The whole data of a burst: up to a last flag or to its full length. */
  predicate Whole(aw: Aw, ws: seq<W>)
  {
    && ws != [] && Open(aw, ws[..|ws| - 1])
    && (ws[|ws| - 1].last || |ws| == aw.len + 1)
  }

  // ----- the ring of pending requests -----

  datatype Ptrs = Ptrs(rptr: nat, wptr: nat, dataRptr: nat, count: nat, needW: nat)

  /** What has happened: requests and beats accepted, the beats split by request, the beats of the
      request now being filled, when each request got its last beat, and the responses. */
  datatype Past = Past(aws: seq<Aw>, groups: seq<seq<W>>, partial: seq<W>, taken: seq<W>, doneAt: seq<nat>, bs: seq<B>)

  function SlotOf(k: nat): nat { k % PENDING_DEPTH }

  /** The entry that request `k` should have. */
  predicate EntryOk(e: Entry, k: nat, h: Past, latency: nat)
    requires k < |h.aws| && |h.doneAt| == |h.groups|
  {
    var aw := h.aws[k];
    && e.id == aw.id && e.len == aw.len && e.size == aw.size && e.fixed == aw.fixed
    && e.done == (k < |h.groups|)
    && (k < |h.groups| ==> e.ready == h.doneAt[k] + latency)
    && (k == |h.groups| ==> e.beat == |h.partial| && e.addr == BeatAddr(aw, |h.partial|))
    && (k > |h.groups| ==> e.beat == 0 && e.addr == aw.addr)
  }

  /** The requests still owed data are exactly the last `needW` ones, and `dataRptr` is the first of them. */
  ghost predicate PtrsOk(p: Ptrs, h: Past)
  {
    var ok :=
    && |h.bs| <= |h.groups| <= |h.aws| <= |h.bs| + PENDING_DEPTH
    && p.count == |h.aws| - |h.bs| && p.needW == |h.aws| - |h.groups|
    && p.rptr == SlotOf(|h.bs|) && p.wptr == SlotOf(|h.aws|)
    && (p.needW > 0 ==> p.dataRptr == SlotOf(|h.groups|));
    ok
  }

  ghost predicate RingOk(es: seq<Entry>, h: Past, latency: nat)
  {
    var ok :=
    && |es| == PENDING_DEPTH && |h.bs| <= |h.aws| && |h.doneAt| == |h.groups|
    && forall k: nat | |h.bs| <= k < |h.aws| :: EntryOk(es[SlotOf(k)], k, h, latency);
    ok
  }

  /** The beats taken are the groups one after the other, each the whole data of its request. */
  ghost predicate GroupsOk(h: Past)
  {
    var ok :=
    && |h.groups| <= |h.aws|
    && (forall k: nat | k < |h.groups| :: Whole(h.aws[k], h.groups[k]))
    && (if |h.groups| < |h.aws| then Open(h.aws[|h.groups|], h.partial) else h.partial == [])
    && h.taken == Flatten(h.groups) + h.partial;
    ok
  }

  /** Responses leave in the order of the requests, none before its last beat plus the latency. */
  ghost predicate ResponsesOk(h: Past, latency: nat)
  {
    var ok :=
    && |h.bs| <= |h.doneAt| <= |h.aws|
    && forall k: nat | k < |h.bs| :: h.bs[k].id == h.aws[k].id && h.bs[k].cycle >= h.doneAt[k] + latency;
    ok
  }

  /** Memory is what the accepted beats make of it, burst by burst. */
  ghost predicate MemoryOk(data: seq<Byte>, data0: seq<Byte>, h: Past)
  {
    var ok :=
    && |h.groups| <= |h.aws|
    && data == if |h.groups| < |h.aws| then Burst(ApplyAll(data0, h.aws, h.groups), h.aws[|h.groups|], h.partial)
               else ApplyAll(data0, h.aws, h.groups);
    ok
  }

  /** The oldest request has all its data and its latency is over. */
  predicate MayAnswer(h: Past, latency: nat, cycle: nat)
  {
    |h.bs| < |h.doneAt| && cycle >= h.doneAt[|h.bs|] + latency
  }

  // ----- steps -----

  lemma SlotsDistinct(j: nat, k: nat)
    requires j != k && j < k + PENDING_DEPTH && k < j + PENDING_DEPTH
    ensures SlotOf(j) != SlotOf(k)
  {
  }

  function Fresh(aw: Aw): Entry { Entry(0, aw.addr, aw.id, aw.len, aw.size, aw.fixed, 0, false) }

  lemma {:induction false} ApplyExtends(data: seq<Byte>, aws: seq<Aw>, groups: seq<seq<W>>, aw: Aw)
    requires |groups| <= |aws|
    ensures ApplyAll(data, aws + [aw], groups) == ApplyAll(data, aws, groups)
  {
    if groups != [] {
      ApplyExtends(data, aws, groups[..|groups| - 1], aw);
    }
  }

  lemma AwRing(es: seq<Entry>, h: Past, latency: nat, aw: Aw)
    requires RingOk(es, h, latency) && |h.groups| <= |h.aws| < |h.bs| + PENDING_DEPTH
    requires |h.groups| == |h.aws| ==> h.partial == []
    ensures RingOk(es[SlotOf(|h.aws|) := Fresh(aw)], h.(aws := h.aws + [aw]), latency)
  {
    var h', n := h.(aws := h.aws + [aw]), |h.aws|;
    var es' := es[SlotOf(n) := Fresh(aw)];
    forall k: nat | |h.bs| <= k < n
      ensures es'[SlotOf(k)] == es[SlotOf(k)] && EntryOk(es'[SlotOf(k)], k, h', latency)
    {
      SlotsDistinct(k, n);
      assert EntryOk(es[SlotOf(k)], k, h, latency);
    }
  }

  lemma AwGroups(h: Past, aw: Aw)
    requires GroupsOk(h)
    ensures GroupsOk(h.(aws := h.aws + [aw]))
  {
  }

  lemma AwMemory(data: seq<Byte>, data0: seq<Byte>, h: Past, aw: Aw)
    requires MemoryOk(data, data0, h) && (|h.groups| == |h.aws| ==> h.partial == [])
    ensures MemoryOk(data, data0, h.(aws := h.aws + [aw]))
  {
    ApplyExtends(data0, h.aws, h.groups, aw);
  }

  /** The past after a data beat for the request being filled. */
  function TakeBeat(h: Past, w: W, cycle: nat, last: bool): Past
  {
    if last then
      h.(groups := h.groups + [h.partial + [w]], partial := [], taken := h.taken + [w], doneAt := h.doneAt + [cycle])
    else h.(partial := h.partial + [w], taken := h.taken + [w])
  }

  /** The entry after a data beat. */
  function FillEntry(e: Entry, cycle: nat, latency: nat, last: bool): Entry
  {
    if last then e.(done := true, ready := cycle + latency)
    else e.(addr := NextAddr(e.addr, e.size, e.fixed), beat := e.beat + 1)
  }

  lemma BeatRing(es: seq<Entry>, h: Past, latency: nat, w: W, cycle: nat, last: bool)
    requires RingOk(es, h, latency) && |h.bs| <= |h.groups| < |h.aws| <= |h.bs| + PENDING_DEPTH
    ensures var i := SlotOf(|h.groups|);
            RingOk(es[i := FillEntry(es[i], cycle, latency, last)], TakeBeat(h, w, cycle, last), latency)
  {
    var g := |h.groups|;
    var i, h' := SlotOf(g), TakeBeat(h, w, cycle, last);
    var es' := es[i := FillEntry(es[i], cycle, latency, last)];
    assert EntryOk(es[i], g, h, latency);
    forall k: nat | |h.bs| <= k < |h.aws|
      ensures EntryOk(es'[SlotOf(k)], k, h', latency)
    {
      assert EntryOk(es[SlotOf(k)], k, h, latency);
      if k != g {
        SlotsDistinct(k, g);
      }
    }
  }

  lemma FlattenMore(groups: seq<seq<W>>, partial: seq<W>, w: W)
    ensures (Flatten(groups) + partial) + [w] == Flatten(groups) + (partial + [w])
    ensures Flatten(groups + [partial + [w]]) == Flatten(groups) + (partial + [w])
  {
    var all := groups + [partial + [w]];
    assert all[..|all| - 1] == groups;
  }

  /** A beat closes its group exactly on the last flag or at full length. */
  lemma BeatCloses(aw: Aw, partial: seq<W>, w: W)
    requires Open(aw, partial)
    ensures if w.last || |partial| == aw.len then Whole(aw, partial + [w]) else Open(aw, partial + [w])
  {
    assert (partial + [w])[..|partial|] == partial;
  }

  lemma BeatGroups(h: Past, w: W, cycle: nat)
    requires GroupsOk(h) && |h.groups| < |h.aws|
    ensures var last := w.last || |h.partial| == h.aws[|h.groups|].len;
            GroupsOk(TakeBeat(h, w, cycle, last))
  {
    BeatCloses(h.aws[|h.groups|], h.partial, w);
    FlattenMore(h.groups, h.partial, w);
    FreshGroup(h.aws);
    hide Flatten, Whole, Open;
    var last := w.last || |h.partial| == h.aws[|h.groups|].len;
    var h' := TakeBeat(h, w, cycle, last);
    if last {
      assert h'.taken == Flatten(h'.groups) + [];
    }
  }

  lemma FreshGroup(aws: seq<Aw>)
    ensures forall k: nat | k < |aws| :: Open(aws[k], [])
  {
  }

  lemma BeatMemory(data: seq<Byte>, data0: seq<Byte>, h: Past, w: W, cycle: nat, last: bool)
    requires MemoryOk(data, data0, h) && |h.groups| < |h.aws|
    ensures var aw := h.aws[|h.groups|];
            MemoryOk(WriteBeat(data, BeatAddr(aw, |h.partial|), aw.size, w), data0, TakeBeat(h, w, cycle, last))
  {
    var aw, h' := h.aws[|h.groups|], TakeBeat(h, w, cycle, last);
    var before := ApplyAll(data0, h.aws, h.groups);
    assert (h.partial + [w])[..|h.partial|] == h.partial;
    assert Burst(before, aw, h.partial + [w]) == WriteBeat(data, BeatAddr(aw, |h.partial|), aw.size, w);
    if last {
      assert h'.groups[..|h.groups|] == h.groups;
      assert ApplyAll(data0, h.aws, h'.groups) == Burst(before, aw, h.partial + [w]);
    }
  }

  // Pointer moves.

  function AwPtrs(p: Ptrs): Ptrs
  {
    Ptrs(p.rptr, (p.wptr + 1) % PENDING_DEPTH, if p.needW == 0 then p.wptr else p.dataRptr, p.count + 1, p.needW + 1)
  }

  function FilledPtrs(p: Ptrs): Ptrs
    requires p.needW > 0
  {
    p.(needW := p.needW - 1, dataRptr := if p.needW > 1 then (p.dataRptr + 1) % PENDING_DEPTH else p.dataRptr)
  }

  function SentPtrs(p: Ptrs): Ptrs
    requires p.count > 0
  {
    p.(rptr := (p.rptr + 1) % PENDING_DEPTH, count := p.count - 1)
  }

  lemma PtrsFacts(p: Ptrs, h: Past)
    requires PtrsOk(p, h)
    ensures |h.bs| <= |h.groups| <= |h.aws| <= |h.bs| + PENDING_DEPTH
    ensures p.count == |h.aws| - |h.bs| && p.needW == |h.aws| - |h.groups|
    ensures p.rptr == SlotOf(|h.bs|) && p.wptr == SlotOf(|h.aws|) && (p.needW > 0 ==> p.dataRptr == SlotOf(|h.groups|))
  {
  }

  lemma SlotNext(k: nat)
    ensures (SlotOf(k) + 1) % PENDING_DEPTH == SlotOf(k + 1)
  {
  }

  lemma AwPtrsOk(p: Ptrs, h: Past, aw: Aw)
    requires PtrsOk(p, h) && p.count < PENDING_DEPTH
    ensures PtrsOk(AwPtrs(p), h.(aws := h.aws + [aw]))
  {
    SlotNext(|h.aws|);
    hide SlotOf;
  }

  lemma BeatPtrsOk(p: Ptrs, h: Past, w: W, cycle: nat, last: bool)
    requires PtrsOk(p, h) && p.needW > 0
    ensures PtrsOk(if last then FilledPtrs(p) else p, TakeBeat(h, w, cycle, last))
  {
    SlotNext(|h.groups|);
    hide SlotOf;
  }

  lemma SentPtrsOk(p: Ptrs, h: Past, b: B)
    requires PtrsOk(p, h) && p.count > 0 && |h.bs| < |h.groups|
    ensures PtrsOk(SentPtrs(p), h.(bs := h.bs + [b]))
  {
    SlotNext(|h.bs|);
    hide SlotOf;
  }

  // ----- what one step of a run does -----

  datatype Action = Request(aw: Aw) | Data(w: W) | Respond | Time

  /** The write path at one moment; `out` are the responses sent. */
  datatype Snap = Snap(past: Past, out: seq<B>, data: seq<Byte>, cycle: nat)

  /** A request is taken unless 1024 are pending. */
  predicate RequestStep(s: Snap, aw: Aw, s': Snap)
  {
    s' == if |s.past.aws| < |s.past.bs| + PENDING_DEPTH then s.(past := s.past.(aws := s.past.aws + [aw])) else s
  }

  /** A beat is taken, and written at the address of its place in the burst, exactly when some request is
      owed data. */
  predicate DataStep(s: Snap, w: W, s': Snap)
  {
    if |s.past.groups| < |s.past.aws| then
      var aw := s.past.aws[|s.past.groups|];
      && s' == s.(past := TakeBeat(s.past, w, s.cycle, w.last || |s.past.partial| == aw.len),
                  data := WriteBeat(s.data, BeatAddr(aw, |s.past.partial|), aw.size, w))
    else s' == s
  }

  /** The oldest request is answered exactly when its data is complete and its latency over. */
  predicate RespondStep(s: Snap, latency: nat, s': Snap)
  {
    if MayAnswer(s.past, latency, s.cycle) && |s.past.bs| < |s.past.aws| then
      var b := B(s.past.aws[|s.past.bs|].id, s.cycle);
      s' == s.(past := s.past.(bs := s.past.bs + [b]), out := s.out + [b])
    else s' == s
  }

  predicate StepOk(s: Snap, a: Action, s': Snap, latency: nat)
  {
    match a
    case Request(aw) => RequestStep(s, aw, s')
    case Data(w) => DataStep(s, w, s')
    case Respond => RespondStep(s, latency, s')
    case Time => s' == s.(cycle := s.cycle + 1)
  }

  /** The write path. */
  class WritePath {
    const latency: nat
    const slots: array<Entry>
    var data: seq<Byte>
    var ptrs: Ptrs
    var cycle: nat
    /** The response channel. */
    var out: seq<B>
    ghost const data0: seq<Byte>
    ghost var past: Past

    ghost predicate Valid()
      reads this, slots
    {
      var ok :=
        && slots.Length == PENDING_DEPTH
        && PtrsOk(ptrs, past) && RingOk(slots[..], past, latency) && GroupsOk(past) && ResponsesOk(past, latency)
        && MemoryOk(data, data0, past) && out == past.bs;
      ok
    }

    constructor (latency: nat, data: seq<Byte>)
      ensures Valid() && fresh(slots) && this.data == data0 == data && out == [] && past == Past([], [], [], [], [], [])
      ensures this.latency == latency
    {
      this.latency := latency;
      this.data, data0 := data, data;
      slots := new Entry[PENDING_DEPTH](_ => Entry(0, 0, 0, 0, 0, false, 0, false));
      ptrs, cycle, out := Ptrs(0, 0, 0, 0, 0), 0, [];
      past := Past([], [], [], [], [], []);
    }

    ghost function Now(): Snap
      reads this
    {
      Snap(past, out, data, cycle)
    }

    /** A request takes the next slot, unless the ring is full. */
    method AcceptAw(aw: Aw) returns (taken: bool)
      requires Valid()
      modifies `ptrs, `past, slots
      ensures Valid() && taken == (old(ptrs).count < PENDING_DEPTH)
      ensures RequestStep(old(Now()), aw, Now())
    {
      hide PtrsOk, RingOk, GroupsOk, MemoryOk, ResponsesOk, SlotOf;
      PtrsFacts(ptrs, past);
      if ptrs.count == PENDING_DEPTH {
        return false;
      }
      ghost var es := slots[..];
      SlotInRing(|past.aws|);
      NoPartial(past);
      AwRing(es, past, latency, aw);
      AwGroups(past, aw);
      AwMemory(data, data0, past, aw);
      AwResponses(past, latency, aw);
      AwPtrsOk(ptrs, past, aw);
      slots[ptrs.wptr] := Fresh(aw);
      assert slots[..] == es[ptrs.wptr := Fresh(aw)];
      past := past.(aws := past.aws + [aw]);
      ptrs := AwPtrs(ptrs);
      taken := true;
    }

    /** A data beat goes to the first request still owed data. */
    method AcceptW(w: W) returns (taken: bool)
      requires Valid()
      modifies `ptrs, `past, `data, slots
      ensures Valid() && taken == (old(ptrs).needW > 0)
      ensures DataStep(old(Now()), w, Now())
    {
      hide PtrsOk, RingOk, GroupsOk, MemoryOk, ResponsesOk, SlotOf;
      PtrsFacts(ptrs, past);
      if ptrs.needW == 0 {
        return false;
      }
      var i := ptrs.dataRptr;
      ghost var es := slots[..];
      SlotInRing(|past.groups|);
      CurrentEntry(es, past, latency);
      var e := slots[i];
      var last := w.last || e.beat == e.len;
      BeatRing(es, past, latency, w, cycle, last);
      BeatGroups(past, w, cycle);
      BeatMemory(data, data0, past, w, cycle, last);
      BeatResponses(past, latency, w, cycle, last);
      BeatPtrsOk(ptrs, past, w, cycle, last);
      data := WriteBeat(data, e.addr, e.size, w);
      slots[i] := FillEntry(e, cycle, latency, last);
      assert slots[..] == es[i := FillEntry(e, cycle, latency, last)];
      past := TakeBeat(past, w, cycle, last);
      if last {
        ptrs := FilledPtrs(ptrs);
      }
      taken := true;
    }

    /** The oldest request is answered once its data is complete and its latency over. */
    method SendB() returns (sent: bool)
      requires Valid()
      modifies `ptrs, `past, `out
      ensures Valid() && sent == MayAnswer(old(past), latency, cycle)
      ensures RespondStep(old(Now()), latency, Now())
    {
      hide PtrsOk, RingOk, GroupsOk, MemoryOk, ResponsesOk, SlotOf;
      PtrsFacts(ptrs, past);
      DoneCount(slots[..], past, latency);
      if ptrs.count == 0 {
        return false;
      }
      SlotInRing(|past.bs|);
      var e := slots[ptrs.rptr];
      HeadEntry(slots[..], past, latency);
      if !e.done || cycle < e.ready {
        return false;
      }
      var b := B(e.id, cycle);
      SentRing(slots[..], past, latency, b);
      SentRest(data, data0, past, latency, b);
      SentPtrsOk(ptrs, past, b);
      past := past.(bs := past.bs + [b]);
      ptrs := SentPtrs(ptrs);
      out := out + [b];
      sent := true;
    }

    /** Time passes. */
    method Tick()
      requires Valid()
      modifies `cycle
      ensures Valid() && cycle == old(cycle) + 1
    {
      cycle := cycle + 1;
    }

    /** Any interleaving of requests, beats, responses and time, step by step along the schedule: the
        k-th request gets the k-th group of beats, the responses sent are those of the requests in
        order and none is early, and memory is the bursts applied in order. */
    method Run(schedule: seq<Action>) returns (ghost trail: seq<Snap>)
      requires Valid()
      modifies this, slots
      ensures Valid() && |trail| == |schedule| + 1 && trail[0] == old(Now()) && trail[|schedule|] == Now()
      ensures forall i | 0 <= i < |schedule| :: StepOk(trail[i], schedule[i], trail[i + 1], latency)
      ensures GroupsOk(past) && ResponsesOk(past, latency) && MemoryOk(data, data0, past) && out == past.bs
    {
      hide PtrsOk, RingOk, GroupsOk, MemoryOk, ResponsesOk, RequestStep, DataStep, RespondStep;
      trail := [Now()];
      var i := 0;
      while i < |schedule|
        invariant 0 <= i <= |schedule| && Valid()
        invariant |trail| == i + 1 && trail[0] == old(Now()) && trail[i] == Now()
        invariant forall k | 0 <= k < i :: StepOk(trail[k], schedule[k], trail[k + 1], latency)
      {
        match schedule[i] {
          case Request(aw) => var _ := AcceptAw(aw);
          case Data(w) => var _ := AcceptW(w);
          case Respond => var _ := SendB();
          case Time => Tick();
        }
        trail := trail + [Now()];
        i := i + 1;
      }
    }
  }

  lemma SlotInRing(k: nat)
    ensures SlotOf(k) < PENDING_DEPTH
  {
  }

  lemma DoneCount(es: seq<Entry>, h: Past, latency: nat)
    requires RingOk(es, h, latency)
    ensures |h.doneAt| == |h.groups|
  {
  }

  lemma HeadEntry(es: seq<Entry>, h: Past, latency: nat)
    requires RingOk(es, h, latency) && |h.bs| < |h.aws|
    ensures |es| == PENDING_DEPTH && |h.doneAt| == |h.groups| && EntryOk(es[SlotOf(|h.bs|)], |h.bs|, h, latency)
  {
  }

  lemma AwResponses(h: Past, latency: nat, aw: Aw)
    requires ResponsesOk(h, latency)
    ensures ResponsesOk(h.(aws := h.aws + [aw]), latency)
  {
  }

  lemma SentRing(es: seq<Entry>, h: Past, latency: nat, b: B)
    requires RingOk(es, h, latency) && |h.bs| < |h.aws|
    ensures RingOk(es, h.(bs := h.bs + [b]), latency)
  {
    var h' := h.(bs := h.bs + [b]);
    forall k: nat | |h'.bs| <= k < |h.aws|
      ensures EntryOk(es[SlotOf(k)], k, h', latency)
    {
      assert EntryOk(es[SlotOf(k)], k, h, latency);
    }
  }

  lemma SentRest(data: seq<Byte>, data0: seq<Byte>, h: Past, latency: nat, b: B)
    requires GroupsOk(h) && MemoryOk(data, data0, h) && ResponsesOk(h, latency) && |h.bs| < |h.groups| == |h.doneAt|
    requires b.id == h.aws[|h.bs|].id && b.cycle >= h.doneAt[|h.bs|] + latency
    ensures GroupsOk(h.(bs := h.bs + [b])) && MemoryOk(data, data0, h.(bs := h.bs + [b]))
    ensures ResponsesOk(h.(bs := h.bs + [b]), latency)
  {
  }

  lemma NoPartial(h: Past)
    requires GroupsOk(h)
    ensures |h.groups| == |h.aws| ==> h.partial == []
  {
  }

  lemma CurrentEntry(es: seq<Entry>, h: Past, latency: nat)
    requires RingOk(es, h, latency) && |h.bs| <= |h.groups| < |h.aws|
    ensures |h.doneAt| == |h.groups| && EntryOk(es[SlotOf(|h.groups|)], |h.groups|, h, latency)
  {
  }

  lemma BeatResponses(h: Past, latency: nat, w: W, cycle: nat, last: bool)
    requires ResponsesOk(h, latency) && |h.doneAt| == |h.groups| < |h.aws|
    ensures ResponsesOk(TakeBeat(h, w, cycle, last), latency)
  {
  }
}
