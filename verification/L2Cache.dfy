/** The two-port write-back L2 cache as a clocked state machine, with the requesters and
    memory as its environment.

    Full interfaces, requests and the moments at which memory acts are inputs of a run, so every
    contract holds for every back-pressure schedule and every memory latency. */
module L2Cache {
  import opened Words
  import opened DivMod
  import OstQueue
  import opened L2Types
  import opened FlatMemory
  import opened L2Coherence
  import opened L2Traffic
  import opened L2Ports
  import opened L2Steps
  import opened L2Service
  import opened L2Invariant

  class L2 {
    const g: Geometry
    const cfg: Config

    var cache: Cache
    var replaceWays: seq<nat>
    var eng: Engine
    var io: seq<PortIo>
    var ost: Tables
    var dataWriteUsed: bool

    /** Traffic in flight to memory, and memory itself. */
    var bus: Bus
    var mem: seq<Line>

    ghost const cacheable: iset<nat>
    ghost const flat0: seq<Line>
    ghost const iReadOnly: bool

    /** The memory the requesters see, and the history of accesses to it. */
    ghost var flat: seq<Line>
    ghost var history: seq<Event>

    /** A cache-block write-back was answered while its slot was no longer what had been sent, and
        the dirty bit cleared all the same. */
    var hazard: bool

    ghost function Now(): Snap
      reads this
    {
      Snap(World(g, cacheable, cache, eng, bus, mem, flat), io, ost, replaceWays, dataWriteUsed, history)
    }

    ghost function Fixed(): Setup
      reads this
    {
      Setup(cfg, flat0, iReadOnly)
    }

    ghost predicate Valid()
      reads this
    {
      !hazard && Ok(Fixed(), Now())
    }

    /** The deferred frees of the previous clock take effect, and at most one packet per channel
        moves from each requester's links into its staging queues. */
    method Stage(stall: Stall)
      requires Valid()
      modifies `ost, `io, `dataWriteUsed
      ensures Valid() && |old(io)| == 2 && Now() == Staged(old(Now()), cfg, stall) && Follows(old(Now()), Now())
    {
      hide Ok, Follows, Captured;
      StageOk(Fixed(), Now(), stall);
      ost := Tables(OstQueue.Clocked(ost.rd), OstQueue.Clocked(ost.wr));
      io := [Captured(io[0], cfg.stgDepth, stall.i), Captured(io[1], cfg.stgDepth, stall.d)];
      dataWriteUsed := false;
    }

    // ----- lookup and replacement -----

    /** Finds the slot holding the line of `addr`, or shows that there is none. */
    method Lookup(addr: nat) returns (hit: bool, idx: nat)
      requires Shape(g, cache)
      ensures hit ==> idx < |cache.valids| && cache.valids[idx] && Held(g, cache, idx) == LineOf(addr)
      ensures !hit ==> NotCached(g, cache, LineOf(addr))
    {
      var line := LineOf(addr);
      var set_, tag := line % g.sets, line / g.sets;
      hit, idx := false, 0;
      var way := 0;
      while way < g.ways
        invariant way <= g.ways
        invariant forall i: nat | i < |cache.valids| && i / g.ways == set_ && i % g.ways < way && cache.valids[i] ::
                    cache.tags[i] != tag
      {
        SlotIndex(g, set_, way);
        DivModUnique(set_, way, g.ways);
        idx := set_ * g.ways + way;
        if cache.valids[idx] && cache.tags[idx] == tag {
          HeldIff(g, cache, idx, line);
          return true, idx;
        }
        OnlySlot(|cache.valids|, set_, way, g.ways);
        way := way + 1;
      }
      forall i: nat | i < |cache.valids| && cache.valids[i]
        ensures Held(g, cache, i) != line
      {
        HeldIff(g, cache, i, line);
      }
    }

    /** The first free slot of the set if there is one, else the round-robin choice. */
    method SelectVictim(set_: nat) returns (idx: nat)
      requires Shape(g, cache) && set_ < g.sets && ReplacePart(g, replaceWays)
      modifies `replaceWays
      ensures Victim(g, cache, old(replaceWays), set_, idx, replaceWays)
      ensures ReplacePart(g, replaceWays)
    {
      hide FullBelow, Victim;
      NoneBelow(g, cache, set_);
      var way := 0;
      while way < g.ways
        invariant way <= g.ways && replaceWays == old(replaceWays) && FullBelow(g, cache, set_, way)
      {
        SlotIndex(g, set_, way);
        idx := set_ * g.ways + way;
        if !cache.valids[idx] {
          FreeVictim(g, cache, replaceWays, set_, way);
          return;
        }
        FullNext(g, cache, set_, way);
        way := way + 1;
      }
      RoundVictim(g, cache, replaceWays, set_);
      way := replaceWays[set_];
      replaceWays := replaceWays[set_ := (way + 1) % g.ways];
      idx := set_ * g.ways + way;
    }

    // ----- the miss, write-back and refill engine -----

    /** Takes a slot of the missing line's set and starts the engine, unless it is busy or
        bypass traffic is outstanding. */
    method StartMiss(p: nat)
      requires Valid() && p < |io| == 2 && (io[p].port.state == Read || io[p].port.state == Write)
      requires Absent(Now().w, LineOf(io[p].port.addr))
      modifies `cache, `eng, `io, `replaceWays
      ensures Valid() && MissStep(old(Now()), p, Now()) && Follows(old(Now()), Now())
    {
      hide Ok, Follows, Held, NotCached, ReplacePart, Claim, Victim;
      ghost var before := Now();
      if eng.state == EIdle && ost.rd.entries == [] && ost.wr.entries == [] {
        TwoPorts(Fixed(), before);
        var port := io[p].port;
        var line := LineOf(port.addr);
        var idx := SelectVictim(line % g.sets);
        VictimInSet(g, cache, before.ways, line % g.sets, idx, replaceWays);
        eng, cache := Claim(g, cache, eng, p, line, idx), cache.(valids := cache.valids[idx := false]);
        io := io[p := io[p].(port := port.(state := MissWait, missReturn := port.state))];
        assert MissAt(before, p, idx, Now());
      }
      StartMissOk(Fixed(), before, p, Now());
    }

    /** Sends the address of a write-back (eviction or cache-block operation). */
    method SendWbAw(full: bool)
      requires Valid()
      modifies `eng, `bus
      ensures Valid() && WbAwStep(old(Now()), full, Now()) && Follows(old(Now()), Now())
    {
      hide Ok, Follows;
      ghost var before := Now();
      if (eng.state == WbAw || eng.state == CmoWbAw) && !full {
        bus := bus.(aw := bus.aw + [LineAw(eng.wbLine)]);
        eng := eng.(beat := 0, sent := [], state := if eng.state == WbAw then WbW else CmoWbW);
      }
      WbAwOk(Fixed(), before, full, Now());
    }

    /** Sends one data beat of a write-back, straight from the slot. */
    method SendWbW(full: bool)
      requires Valid()
      modifies `eng, `bus
      ensures Valid() && WbWStep(old(Now()), full, Now()) && Follows(old(Now()), Now())
    {
      hide Ok, Follows;
      ghost var before := Now();
      if (eng.state == WbW || eng.state == CmoWbW) && !full {
        WbWFacts(Fixed(), before);
        var idx := WbSlot(eng);
        var word, last := cache.data[idx][eng.beat], eng.beat == LINE_WORDS - 1;
        bus := bus.(w := bus.w + [W(word, ALL_LANES, last)]);
        if last {
          eng := eng.(sent := eng.sent + [word], state := if eng.state == WbW then WbB else CmoWbB);
        } else {
          eng := eng.(sent := eng.sent + [word], beat := eng.beat + 1);
        }
      }
      WbWOk(Fixed(), before, full, Now());
    }

    /** The response to an eviction: the slot may now be refilled. */
    method RecvWbB()
      requires Valid()
      modifies `cache, `eng, `bus
      ensures Valid() && WbBStep(old(Now()), Now()) && Follows(old(Now()), Now())
    {
      hide Ok, Follows;
      ghost var before := Now();
      if eng.state == WbB && bus.b != [] {
        WbBFacts(Fixed(), before);
        bus := bus.(b := bus.b[1..]);
        cache := cache.(dirtys := cache.dirtys[eng.missIdx := false]);
        eng := eng.(beat := 0, state := RefillAr);
      }
      WbBOk(Fixed(), before, Now());
    }

    method SendRefillAr(full: bool)
      requires Valid()
      modifies `eng, `bus
      ensures Valid() && RefillArStep(old(Now()), full, Now()) && Follows(old(Now()), Now())
    {
      hide Ok, Follows;
      ghost var before := Now();
      if eng.state == RefillAr && !full {
        bus := bus.(ar := bus.ar + [LineAr(eng.missLine)]);
        eng := eng.(beat := 0, state := RefillR);
      }
      RefillArOk(Fixed(), before, full, Now());
    }

    /** One refill beat; the last one installs the line and releases the waiting port. */
    method RecvRefillR()
      requires Valid()
      modifies `cache, `eng, `bus, `io, `dataWriteUsed
      ensures Valid() && RefillRStep(old(Now()), Now()) && Follows(old(Now()), Now())
    {
      hide Ok, Follows, RefillWord, Install;
      ghost var before := Now();
      if eng.state == RefillR && bus.r != [] {
        RefillRFacts(Fixed(), before);
        var r, p := bus.r[0], eng.owner;
        bus := bus.(r := bus.r[1..]);
        dataWriteUsed := true;
        if r.last || eng.beat == LINE_WORDS - 1 {
          cache := Install(cache, eng, r.data);
          eng := eng.(state := EIdle);
          io := io[p := io[p].(port := io[p].port.(state := io[p].port.missReturn, missResolved := true))];
        } else {
          cache := RefillWord(cache, eng, r.data);
          eng := eng.(beat := eng.beat + 1);
        }
      }
      RefillROk(Fixed(), before, Now());
    }

    // ----- bypass traffic -----

    /** Forwards a read beat from memory to the port whose bypass read it answers. */
    method BypassR(stall: Stall)
      requires Valid()
      modifies `bus, `ost, `io
      ensures Valid() && BypassRStep(old(Now()), stall, Now()) && Follows(old(Now()), Now())
    {
      hide Ok, Follows;
      ghost var before := Now();
      if bus.r != [] && ost.rd.entries != [] && !ost.rd.freed && !stall.Of(ost.rd.entries[0]).r {
        BypassRFacts(Fixed(), before);
        var r, p := bus.r[0], ost.rd.entries[0];
        bus := bus.(r := bus.r[1..]);
        io := io[p := io[p].(rOut := io[p].rOut + [R(r.id, r.data, r.last)])];
        if r.last {
          ost := ost.(rd := ost.rd.(freed := true));
        }
      }
      BypassROk(Fixed(), before, stall, Now());
    }

    /** Sends one data beat of the oldest bypass write; the beat is the write's own. */
    method BypassW(full: bool)
      requires Valid()
      modifies `bus, `ost, `io
      ensures Valid() && BypassWStep(old(Now()), full, Now()) && Follows(old(Now()), Now())
    {
      hide Ok, Follows, Advance;
      ghost var before := Now();
      if !full && ost.wr.entries != [] && !ost.wr.freed && !ost.wr.entries[0].wDone {
        BypassWFacts(Fixed(), before);
        var x := ost.wr.entries[0];
        var p := x.port;
        if io[p].wFifo != [] {
          var w := io[p].wFifo[0];
          io := io[p := io[p].(wFifo := io[p].wFifo[1..])];
          bus := bus.(w := bus.w + [w]);
          ost := ost.(wr := ost.wr.(entries := ost.wr.entries[0 := Advance(x, w.last)]));
        }
      }
      BypassWOk(Fixed(), before, full, Now());
    }

    /** Forwards a write response to the port whose bypass write it answers. */
    method BypassB(stall: Stall)
      requires Valid()
      modifies `bus, `ost, `io, `history
      ensures Valid() && BypassBStep(old(Now()), stall, Now()) && Follows(old(Now()), Now())
    {
      hide Ok, Follows;
      ghost var before := Now();
      if bus.b != [] && ost.wr.entries != [] && !ost.wr.freed && ost.wr.entries[0].wDone && !stall.Of(ost.wr.entries[0].port).b {
        BypassBFacts(Fixed(), before);
        var p, id := ost.wr.entries[0].port, ost.wr.entries[0].aw.id;
        bus := bus.(b := bus.b[1..]);
        io := io[p := io[p].(bOut := io[p].bOut + [id])];
        ost := ost.(wr := ost.wr.(freed := true));
        history := history + [Ack(p, id)];
      }
      BypassBOk(Fixed(), before, stall, Now());
    }

    /** Takes up the bypass read at the head of the port's queue, if the engine is idle and
        there is room for it. */
    method StartBypassRead(p: nat, full: bool)
      requires Valid() && p < |io| == 2 && io[p].port.state == Idle
      requires io[p].arFifo != [] && !IsCmo(io[p].arFifo[0].user) && io[p].arFifo[0].cache == 0
      modifies `bus, `ost, `io
      ensures Valid() && BypassReadStep(old(Now()), cfg, p, full, Now()) && Follows(old(Now()), Now())
    {
      hide Ok, Follows;
      ghost var before := Now();
      if eng.state == EIdle && |ost.rd.entries| != cfg.ostDepth && !full {
        ost := ost.(rd := ost.rd.(entries := ost.rd.entries + [p]));
        bus := bus.(ar := bus.ar + [BypassAr(p, io[p].arFifo[0])]);
        io := io[p := io[p].(arFifo := io[p].arFifo[1..])];
      }
      StartBypassReadOk(Fixed(), before, p, full, Now());
    }

    /** Takes up the bypass write at the head of the port's queue, if the engine is idle and
        there is room for it. */
    method StartBypassWrite(p: nat, full: bool)
      requires Valid() && p < |io| == 2 && io[p].port.state == Idle
      requires io[p].awFifo != [] && io[p].awFifo[0].cache == 0
      modifies `bus, `ost, `io
      ensures Valid() && BypassWriteStep(old(Now()), cfg, p, full, Now()) && Follows(old(Now()), Now())
    {
      hide Ok, Follows;
      ghost var before := Now();
      if eng.state == EIdle && |ost.wr.entries| != cfg.ostDepth && !full {
        var aw := io[p].awFifo[0];
        ost := ost.(wr := ost.wr.(entries := ost.wr.entries + [WrCtx(p, 0, aw, false)]));
        bus := bus.(aw := bus.aw + [BypassAw(p, aw)]);
        io := io[p := io[p].(awFifo := io[p].awFifo[1..])];
      }
      StartBypassWriteOk(Fixed(), before, p, full, Now());
    }

    // ----- cache-block operations -----

    /** The write-back of a clean or flush is answered.  The invariant survives exactly when the
        slot is still what was sent; with an instruction port it always does. */
    method RecvCmoB()
      requires Valid()
      modifies `cache, `eng, `bus, `io, `hazard, `history
      ensures CmoBStep(old(Now()), Now())
      ensures hazard <==> old(Late(Now().w))
      ensures Ok(Fixed(), Now()) <==> !hazard
      ensures !hazard ==> Follows(old(Now()), Now())
      ensures iReadOnly ==> !hazard
    {
      hide Ok, Follows, DropLine;
      ghost var before := Now();
      if eng.state == CmoWbB && bus.b != [] {
        CmoBFacts(Fixed(), before);
        var p := eng.owner;
        hazard := cache.data[eng.cmoIdx] != eng.sent;
        bus := bus.(b := bus.b[1..]);
        cache := DropLine(cache, eng.cmoIdx, Invalidates(eng.cmoUser));
        history := history + [Saved(p, io[p].port.ar.id, eng.wbLine, io[p].port.ar.user, mem[eng.wbLine])];
        io := io[p := io[p].(port := io[p].port.(state := CmoRsp))];
        eng := eng.(state := EIdle);
      }
      CmoBOk(Fixed(), before, Now());
    }

    /** Starts the cache-block operation at the head of the port's queue.  A miss and a clean
        line finish at once; an invalidate of a dirty line makes the flat memory revert to
        memory; a clean or flush of a dirty line starts a write-back. */
    method StartCmo(p: nat)
      requires Valid() && p < |io| == 2 && io[p].port.state == Idle
      requires io[p].arFifo != [] && IsCmo(io[p].arFifo[0].user)
      modifies `cache, `eng, `io, `flat, `history
      ensures Valid() && CmoStep(old(Now()), p, Now()) && Follows(old(Now()), Now())
    {
      hide Ok, Follows, Held, NotCached, CmoHit;
      ghost var before := Now();
      if eng.state == EIdle && ost.rd.entries == [] && ost.wr.entries == [] {
        TwoPorts(Fixed(), before);
        var ar := io[p].arFifo[0];
        var hit, idx := Lookup(LineOf(ar.addr) * LINE_SIZE);
        if hit {
          HitIsPresent(before.w, idx, LineOf(ar.addr));
          StartCmoHit(p, idx);
        } else {
          LineExists(Fixed(), before, p);
          history := SaveLog(before, p, ar);
          eng := eng.(owner := p, cmoUser := ar.user);
          io := io[p := io[p].(arFifo := io[p].arFifo[1..], port := TakeCmo(io[p].port, ar, false))];
        }
      }
      StartCmoOk(Fixed(), before, p, Now());
    }

    /** The part of `StartCmo` for a line that is cached. */
    method StartCmoHit(p: nat, idx: nat)
      requires Valid() && p < |io| == 2 && io[p].arFifo != [] && Holds(Now().w, idx, LineOf(io[p].arFifo[0].addr))
      modifies `cache, `eng, `io, `flat, `history
      ensures CmoHit(old(Now()), p, idx, Now())
    {
      hide Ok, Held, DropLine;
      ghost var before := Now();
      var ar := io[p].arFifo[0];
      HitBounds(Fixed(), Now(), idx);
      var writeback := Cleans(ar.user) && cache.dirtys[idx];
      io := io[p := io[p].(arFifo := io[p].arFifo[1..], port := TakeCmo(io[p].port, ar, writeback))];
      if writeback {
        eng := eng.(owner := p, cmoUser := ar.user, cmoIdx := idx, wbLine := LineOf(ar.addr), beat := 0, state := CmoWbAw);
      } else {
        eng := eng.(owner := p, cmoUser := ar.user, cmoIdx := idx);
        cache := DropLine(cache, idx, Invalidates(ar.user));
        if CmoOp(ar.user) == 1 {
          ghost var line := LineOf(ar.addr);
          flat, history := flat[line := mem[line]], history + [Discard(p, ar.id, line, ar.user, mem[line])];
        } else {
          history := SaveLog(before, p, ar);
        }
      }
    }

    // ----- ports -----

    /** Counts the configured hit latency of a port. */
    method LatencyReady(p: nat) returns (ready: bool)
      requires Valid() && p < |io| == 2
      modifies `io
      ensures Valid() && Now() == Delayed(old(Now()), p, cfg.latency) && Follows(old(Now()), Now())
      ensures ready <==> Ready(old(io)[p].port, cfg.latency)
    {
      hide Ok, Follows;
      DelayedOk(Fixed(), Now(), p);
      var port := io[p].port;
      if port.missResolved || cfg.latency == 0 {
        port := port.(latencyActive := false, delay := 0);
        ready := true;
      } else {
        if !port.latencyActive {
          port := port.(latencyActive := true, delay := 0);
        }
        port := port.(delay := port.delay + 1);
        ready := port.delay >= cfg.latency;
        if ready {
          port := port.(latencyActive := false, delay := 0);
        }
      }
      io := io[p := io[p].(port := port)];
    }

    /** Whether the port has a bypass request outstanding. */
    method HasBypassPending(p: nat) returns (pending: bool)
      ensures pending <==> BypassPending(ost, p)
    {
      var rd, wr := ost.LiveRd(), ost.LiveWr();
      for i := 0 to |rd|
        invariant p !in rd[..i]
      {
        if rd[i] == p {
          return true;
        }
      }
      for i := 0 to |wr|
        invariant forall j | 0 <= j < i :: wr[j].port != p
      {
        if wr[i].port == p {
          return true;
        }
      }
      assert rd[..|rd|] == rd;
      return false;
    }

    /** One step of a cached read: a beat from the flat memory, or a miss, or nothing. */
    method PortRead(p: nat, full: bool)
      requires Valid() && p < |io| == 2 && io[p].port.state == Read
      modifies `io, `cache, `eng, `replaceWays, `history
      ensures Valid() && PortReadStep(old(Now()), cfg, p, full, Now()) && Follows(old(Now()), Now())
    {
      hide Ok, Follows, BeatRead, MissStep, Held, NotCached;
      ghost var before := Now();
      if full {
        Unchanged(before);
        return;
      }
      var ready := LatencyReady(p);
      if !ready {
        return;
      }
      ghost var waited := Now();
      TwoPorts(Fixed(), waited);
      var hit, idx := Lookup(io[p].port.addr);
      if !hit {
        StartMiss(p);
      } else {
        HitIsPresent(waited.w, idx, LineOf(io[p].port.addr));
        DeliverRead(p, idx);
      }
      FollowsTrans(before, waited, Now());
    }

    method DeliverRead(p: nat, idx: nat)
      requires Valid() && p < |io| == 2 && io[p].port.state == Read
      requires Holds(Now().w, idx, LineOf(io[p].port.addr))
      modifies `io, `history
      ensures Valid() && BeatRead(old(Now()), p, idx, Now()) && Follows(old(Now()), Now())
    {
      hide Ok, Follows, Held, BeatAddr, NextReadBeat;
      ghost var before := Now();
      BeatReadFacts(Fixed(), before, p, idx);
      var x := io[p];
      var l, k := LineOf(x.port.addr), WordOf(x.port.addr);
      var data, last := cache.data[idx][k], x.port.beat == x.port.ar.len;
      history := history + [Load(p, x.port.ar.id, l, k, data, last)];
      io := io[p := x.(rOut := x.rOut + [R(x.port.ar.id, data, last)], port := NextReadBeat(x.port))];
      BeatReadOk(Fixed(), before, p, idx, Now());
    }

    /** One step of a cached write: a beat into the flat memory, or a miss, or nothing. */
    method PortWrite(p: nat, full: bool)
      requires Valid() && p < |io| == 2 && io[p].port.state == Write
      modifies `io, `cache, `eng, `replaceWays, `history, `flat, `dataWriteUsed
      ensures Valid() && PortWriteStep(old(Now()), cfg, p, full, Now()) && Follows(old(Now()), Now())
    {
      hide Ok, Follows, BeatWritten, MissStep, Held, NotCached;
      ghost var before := Now();
      if io[p].wFifo == [] {
        Unchanged(before);
        return;
      }
      var ready := LatencyReady(p);
      if !ready {
        return;
      }
      ghost var waited := Now();
      TwoPorts(Fixed(), waited);
      var hit, idx := Lookup(io[p].port.addr);
      if !hit {
        StartMiss(p);
        FollowsTrans(before, waited, Now());
        return;
      }
      HitIsPresent(waited.w, idx, LineOf(io[p].port.addr));
      if dataWriteUsed || (io[p].port.beat == io[p].port.aw.len && full) {
        return;
      }
      DeliverWrite(p, idx);
      FollowsTrans(before, waited, Now());
    }

    method DeliverWrite(p: nat, idx: nat)
      requires Valid() && p < |io| == 2 && io[p].port.state == Write && io[p].wFifo != []
      requires Holds(Now().w, idx, LineOf(io[p].port.addr))
      modifies `io, `cache, `history, `flat, `dataWriteUsed
      ensures Valid() && BeatWritten(old(Now()), p, idx, Now()) && Follows(old(Now()), Now())
    {
      hide Ok, Follows, Held, BeatAddr, NextWriteBeat, Merge, StoreAt, MemoryShape, WriteSlot;
      ghost var before := Now();
      BeatWrittenFacts(Fixed(), before, p, idx);
      var x := io[p];
      var l, k, w, last := LineOf(x.port.addr), WordOf(x.port.addr), x.wFifo[0], x.port.beat == x.port.aw.len;
      var merged := MergeBytes(cache.data[idx][k], w.data, w.strb);
      cache := WriteSlot(cache, idx, k, merged);
      dataWriteUsed := true;
      flat := StoreAt(flat, l, k, w.data, w.strb);
      history := history + [Store(p, l, k, w.data, w.strb)] + if last then [Ack(p, x.port.aw.id)] else [];
      io := io[p := x.(wFifo := x.wFifo[1..], port := NextWriteBeat(x.port), bOut := if last then x.bOut + [x.port.aw.id] else x.bOut)];
      assert BeatWritten(before, p, idx, Now());
      BeatWrittenOk(Fixed(), before, p, idx, Now());
    }

    /** An idle port takes up its oldest write, else its oldest read. */
    method PortIdle(p: nat, stall: PortStall)
      requires Valid() && p < |io| == 2 && io[p].port.state == Idle
      modifies `io, `ost, `bus, `cache, `eng, `flat, `history
      ensures Valid() && PortIdleStep(old(Now()), cfg, p, stall, Now()) && Follows(old(Now()), Now())
    {
      hide Ok, Follows, BypassReadStep, BypassWriteStep, CmoStep, BypassPending, TakeRead, TakeWrite;
      if io[p].awFifo != [] {
        if io[p].awFifo[0].cache == 0 {
          StartBypassWrite(p, stall.aw);
        } else {
          StartWrite(p);
        }
      } else if io[p].arFifo != [] {
        if IsCmo(io[p].arFifo[0].user) {
          StartCmo(p);
        } else if io[p].arFifo[0].cache == 0 {
          StartBypassRead(p, stall.ar);
        } else {
          StartRead(p);
        }
      } else {
        Unchanged(Now());
      }
    }

    /** Takes up the cached write at the head of the port's queue, unless a bypass request of the
        port is outstanding. */
    method StartWrite(p: nat)
      requires Valid() && p < |io| == 2 && io[p].port.state == Idle && io[p].awFifo != [] && io[p].awFifo[0].cache != 0
      modifies `io
      ensures Valid() && Follows(old(Now()), Now())
      ensures var x := old(io)[p];
              io == if BypassPending(ost, p) then old(io)
                    else old(io)[p := x.(awFifo := x.awFifo[1..], port := TakeWrite(x.port, x.awFifo[0]))]
    {
      hide Ok, Follows, BypassPending, TakeWrite;
      ghost var before := Now();
      var pending := HasBypassPending(p);
      if pending {
        Unchanged(before);
        return;
      }
      StartWriteOk(Fixed(), before, p);
      io := io[p := io[p].(awFifo := io[p].awFifo[1..], port := TakeWrite(io[p].port, io[p].awFifo[0]))];
    }

    method StartRead(p: nat)
      requires Valid() && p < |io| == 2 && io[p].port.state == Idle && io[p].arFifo != []
      requires !IsCmo(io[p].arFifo[0].user) && io[p].arFifo[0].cache != 0
      modifies `io
      ensures Valid() && Follows(old(Now()), Now())
      ensures var x := old(io)[p];
              io == if BypassPending(ost, p) then old(io)
                    else old(io)[p := x.(arFifo := x.arFifo[1..], port := TakeRead(x.port, x.arFifo[0]))]
    {
      hide Ok, Follows, BypassPending, TakeRead;
      ghost var before := Now();
      var pending := HasBypassPending(p);
      if pending {
        Unchanged(before);
        return;
      }
      StartReadOk(Fixed(), before, p);
      io := io[p := io[p].(arFifo := io[p].arFifo[1..], port := TakeRead(io[p].port, io[p].arFifo[0]))];
    }

    /** The answer to a cache-block operation. */
    method PortCmoRsp(p: nat, full: bool)
      requires Valid() && p < |io| == 2 && io[p].port.state == CmoRsp
      modifies `io, `history
      ensures Valid() && CmoRspStep(old(Now()), p, full, Now()) && Follows(old(Now()), Now())
    {
      hide Ok, Follows;
      ghost var before := Now();
      if !full {
        var x := io[p];
        io := io[p := x.(rOut := x.rOut + [R(x.port.ar.id, ZERO, true)], port := x.port.(state := Idle))];
        history := history + [Answer(p, x.port.ar.id, LineOf(x.port.ar.addr), x.port.ar.user)];
      }
      CmoRspOk(Fixed(), before, p, full, Now());
    }

    method ProcPort(p: nat, stall: PortStall)
      requires Valid() && p < 2
      modifies `io, `ost, `bus, `cache, `eng, `replaceWays, `flat, `history, `dataWriteUsed
      ensures Valid() && PortStep(old(Now()), cfg, p, stall, Now()) && Follows(old(Now()), Now())
    {
      hide Ok, Follows, PortIdleStep, PortReadStep, PortWriteStep, CmoRspStep;
      TwoPorts(Fixed(), Now());
      if io[p].port.state == Idle {
        PortIdle(p, stall);
      } else if io[p].port.state == Read {
        PortRead(p, stall.r);
      } else if io[p].port.state == Write {
        PortWrite(p, stall.b);
      } else if io[p].port.state == CmoRsp {
        PortCmoRsp(p, stall.r);
      } else {
        Unchanged(Now());
      }
    }

    /** The bypass part of a clock's work on the memory side. */
    method ProcBypass(stall: Stall) returns (ghost m: seq<Snap>)
      requires Valid()
      modifies `io, `ost, `bus, `history
      ensures Valid() && Follows(old(Now()), Now())
      ensures |m| == 2 && BypassRStep(old(Now()), stall, m[0]) && BypassWStep(m[0], stall.w, m[1]) && BypassBStep(m[1], stall, Now())
      ensures Late(Now().w) <==> old(Late(Now().w))
    {
      hide Ok, Follows, BypassRStep, BypassWStep, BypassBStep, Late;
      ghost var before := Now();
      BypassR(stall);
      ghost var m0 := Now();
      BypassW(stall.w);
      ghost var m1 := Now();
      BypassB(stall);
      BypassLate(Fixed(), before, stall, m0, m1, Now());
      FollowsTrans(before, m0, m1);
      FollowsTrans(before, m1, Now());
      m := [m0, m1];
    }

    /** The engine's part after a cache-block write-back has been answered. */
    method ProcEngine(stall: Stall) returns (ghost m: seq<Snap>)
      requires Valid()
      modifies `io, `bus, `cache, `eng, `dataWriteUsed
      ensures Valid() && Follows(old(Now()), Now())
      ensures |m| == 4 && WbBStep(old(Now()), m[0]) && RefillRStep(m[0], m[1]) && WbWStep(m[1], stall.w, m[2])
      ensures |m| == 4 && WbAwStep(m[2], stall.aw, m[3]) && RefillArStep(m[3], stall.ar, Now())
    {
      hide Ok, Follows, WbAwStep, WbWStep, WbBStep, RefillArStep, RefillRStep;
      ghost var before := Now();
      RecvWbB();
      ghost var m0 := Now();
      RecvRefillR();
      ghost var m1 := Now();
      SendWbW(stall.w);
      ghost var m2 := Now();
      SendWbAw(stall.aw);
      ghost var m3 := Now();
      SendRefillAr(stall.ar);
      FollowsTrans(before, m0, m1);
      FollowsTrans(before, m1, m2);
      FollowsTrans(before, m2, m3);
      FollowsTrans(before, m3, Now());
      m := [m0, m1, m2, m3];
    }

    /** One clock of the cache, and the states it goes through.  It is followed to its end unless
        it takes the answer to a cache-block write-back whose slot has changed since. */
    method Clock(stall: Stall) returns (ghost m: seq<Snap>)
      requires Valid()
      modifies `io, `ost, `bus, `cache, `eng, `replaceWays, `flat, `history, `dataWriteUsed, `hazard
      ensures hazard <==> old(Late(Now().w))
      ensures iReadOnly ==> !hazard
      ensures !hazard ==> Valid() && ClockPath(old(Now()), cfg, stall, m, Now()) && Follows(old(Now()), Now())
    {
      hide Ok, Follows, BypassRStep, BypassWStep, BypassBStep, WbAwStep, WbWStep, WbBStep, RefillArStep,
        RefillRStep, CmoBStep, PortStep, Late, Captured;
      ghost var before := Now();
      Stage(stall);
      ghost var staged := Now();
      ghost var a := ProcBypass(stall);
      ghost var m2 := Now();
      FollowsTrans(before, staged, m2);
      RecvCmoB();
      m := [];
      if hazard {
        return;
      }
      ghost var m3 := Now();
      FollowsTrans(before, m2, m3);
      ghost var b := ProcEngine(stall);
      ghost var m8 := Now();
      FollowsTrans(before, m3, m8);
      ProcPort(0, stall.i);
      ghost var m9 := Now();
      FollowsTrans(before, m8, m9);
      ProcPort(1, stall.d);
      FollowsTrans(before, m9, Now());
      m := a + [m2, m3] + b + [m8, m9];
    }

    // ----- the environment: memory and the requesters -----

    /** Memory stores the next beat of the oldest write it has accepted. */
    method MemStore()
      requires Valid()
      modifies `bus, `mem, `flat, `history
      ensures Valid() && MemStoreStep(old(Now()), Now()) && Follows(old(Now()), Now())
    {
      hide Ok, Follows, BeatAddr, StoreAt, MemoryShape, Stored1;
      ghost var before := Now();
      if bus.aw != [] && bus.w != [] {
        MemStoreFacts(Fixed(), before);
        var w := bus.w[0];
        if eng.state == EIdle {
          var q, aw := bus.aw[0].port, bus.aw[0].aw;
          var addr := BeatAddr(aw.addr, aw.size, aw.burst, bus.applied);
          var l, k := LineOf(addr), WordOf(addr);
          mem := StoreAt(mem, l, k, w.data, w.strb);
          flat, history := StoreAt(flat, l, k, w.data, w.strb), history + [Store(q, l, k, w.data, w.strb)];
          bus := Stored1(bus);
        } else {
          mem := StoreAt(mem, eng.wbLine, bus.applied, w.data, w.strb);
          if bus.applied == LINE_WORDS - 1 {
            bus := bus.(aw := bus.aw[1..], w := bus.w[1..], applied := 0, b := bus.b + [ForEngine]);
          } else {
            bus := bus.(w := bus.w[1..], applied := bus.applied + 1);
          }
        }
      }
      MemStoreOk(Fixed(), before, Now());
    }

    /** Memory returns the next beat of the oldest read it has accepted. */
    method MemServe()
      requires Valid()
      modifies `bus, `history
      ensures Valid() && MemServeStep(old(Now()), Now()) && Follows(old(Now()), Now())
    {
      hide Ok, Follows, BeatAddr, Served1;
      ghost var before := Now();
      if bus.ar != [] {
        MemServeFacts(Fixed(), before);
        if eng.state == EIdle {
          var q, ar := bus.ar[0].port, bus.ar[0].ar;
          var addr := BeatAddr(ar.addr, ar.size, ar.burst, bus.served);
          var l, k := LineOf(addr), WordOf(addr);
          var data := mem[l][k];
          history := history + [Load(q, ar.id, l, k, data, bus.served == ar.len)];
          bus := Served1(bus, data);
        } else {
          var last := bus.served == LINE_WORDS - 1;
          bus := bus.(r := bus.r + [MemR(ForEngine, 0, mem[eng.missLine][bus.served], last)],
                      ar := if last then bus.ar[1..] else bus.ar, served := if last then 0 else bus.served + 1);
        }
      }
      MemServeOk(Fixed(), before, Now());
    }

    /** A requester puts a read on its link. */
    method RequestRead(p: nat, ar: Ar)
      requires Valid() && p < |io| == 2 && Allowed(AskRead(p, ar), cacheable, iReadOnly)
      modifies `io
      ensures Valid() && Now() == Asked(old(Now()), p, ar)
    {
      hide Ok, Allowed;
      AskedOk(Fixed(), Now(), p, ar);
      io := io[p := io[p].(arLink := io[p].arLink + [ar], arAsked := io[p].arAsked + [ar])];
    }

    /** A requester puts a write and its data beats on its links. */
    method RequestWrite(p: nat, aw: Aw)
      requires Valid() && p < |io| == 2 && Allowed(AskWrite(p, aw), cacheable, iReadOnly)
      modifies `io
      ensures Valid() && Now() == AskedWrite(old(Now()), p, aw)
    {
      hide Ok, Allowed;
      AskedWriteOk(Fixed(), Now(), p, aw);
      io := io[p := io[p].(awLink := io[p].awLink + [aw], wLink := io[p].wLink + aw.beats, awAsked := io[p].awAsked + [aw])];
    }

    /** Another master stores to memory outside the cacheable lines. */
    method OtherStore(line: nat, word: nat, data: Word, strb: Strobe)
      requires Valid() && Allowed(OtherWrites(line, word, data, strb), cacheable, iReadOnly)
      modifies `mem, `flat, `history
      ensures Valid() && OtherStep(old(Now()), line, word, data, strb, Now()) && Follows(old(Now()), Now())
    {
      hide Ok, Follows, StoreAt, MemoryShape;
      ghost var before := Now();
      OtherFacts(Fixed(), before);
      mem := StoreAt(mem, line, word, data, strb);
      flat, history := StoreAt(flat, line, word, data, strb), history + [Foreign(line, word, data, strb)];
      OtherOk(Fixed(), before, line, word, data, strb, Now());
    }

    /** Reset over an arbitrary memory. */
    constructor (g: Geometry, cfg: Config, mem0: seq<Line>, ghost cacheable: iset<nat>, ghost iReadOnly: bool)
      requires g.sets > 0 && g.ways > 0 && MemoryShape(mem0)
      ensures Valid() && Now() == ResetSnap(g, cacheable, mem0)
      ensures Fixed() == Setup(cfg, mem0, iReadOnly)
    {
      hide Ok, ResetCache, ResetWays, MemoryShape;
      this.g, this.cfg := g, cfg;
      this.cacheable, this.iReadOnly, this.flat0 := cacheable, iReadOnly, mem0;
      cache := ResetCache(g.sets * g.ways);
      replaceWays := ResetWays(g.sets);
      eng, io, ost, dataWriteUsed := RESET_ENGINE, [RESET_IO, RESET_IO], RESET_TABLES, false;
      bus, mem := QUIET, mem0;
      flat, history, hazard := mem0, [], false;
      new;
      ResetOk(Fixed(), g, cacheable);
    }

    // ----- runs -----

    method Step(a: Action)
      requires Valid() && DropsAsked(Now()) && Allowed(a, cacheable, iReadOnly)
      modifies this
      ensures hazard <==> a.Tick? && old(Late(Now().w))
      ensures iReadOnly ==> !hazard
      ensures !hazard ==> Valid() && DropsAsked(Now()) && StepOk(old(Now()), cfg, a, Now()) && Advances(old(Now()), a, Now())
      ensures !hazard ==> SavesMemory(old(Now()), Now())
    {
      hide Ok, Follows, DropsAsked, ClockPath, MemStoreStep, MemServeStep, OtherStep, Allowed, Advances, Late, Asked, AskedWrite,
        SavesMemory;
      ghost var before := Now();
      TwoPorts(Fixed(), before);
      match a {
        case Tick(stall) =>
          ghost var m := Clock(stall);
          if !hazard {
            TwoPorts(Fixed(), Now());
            FollowsAdvances(before, a, Now());
          }
        case MemoryStores =>
          MemStore();
          FollowsAdvances(before, a, Now());
        case MemoryServes =>
          MemServe();
          FollowsAdvances(before, a, Now());
        case AskRead(p, ar) =>
          RequestTarget(a, cacheable, iReadOnly);
          RequestRead(p, ar);
          AskedAdvances(before, p, ar);
        case AskWrite(p, aw) =>
          RequestTarget(a, cacheable, iReadOnly);
          RequestWrite(p, aw);
          AskedWriteAdvances(before, p, aw);
        case OtherWrites(line, word, data, strb) =>
          OtherStore(line, word, data, strb);
          FollowsAdvances(before, a, Now());
      }
    }

    /** Every run: whatever the requesters ask, however memory and the links delay, the accesses
        served form a history of one flat memory, and each port is handed exactly the answers to its
        own requests, in their order, as that history says.  `trail` are the states between the steps.
        A run is followed up to the first clock that takes a late answer to a cache-block write-back,
        if there is one. */
    method Run(schedule: seq<Action>) returns (ghost trail: seq<Snap>)
      requires Valid() && DropsAsked(Now())
      requires forall i | 0 <= i < |schedule| :: Allowed(schedule[i], cacheable, iReadOnly)
      modifies this
      ensures 0 < |trail| <= |schedule| + 1 && trail[0] == old(Now())
      ensures forall i | 0 <= i < |trail| - 1 :: StepOk(trail[i], cfg, schedule[i], trail[i + 1])
      ensures forall i | 0 <= i < |trail| - 1 :: !(schedule[i].Tick? && Late(trail[i].w)) && SavesMemory(trail[i], trail[i + 1])
      ensures hazard ==> |trail| <= |schedule| && schedule[|trail| - 1].Tick? && Late(trail[|trail| - 1].w)
      ensures iReadOnly ==> !hazard
      ensures !hazard ==> |trail| == |schedule| + 1 && Now() == trail[|schedule|]
      ensures !hazard ==> Valid() && Legal(flat0, history) && flat == Replay(flat0, history)
      ensures !hazard ==> DropsAsked(Now()) && DropsOld(flat0, history) && AnswersSaved(history, 0) && AnswersSaved(history, 1)
      ensures !hazard ==> |io| == |old(io)| == 2 && Delivered(Now(), 0) && Delivered(Now(), 1)
      ensures !hazard ==> forall p | 0 <= p < 2 ::
                && io[p].arAsked == old(io)[p].arAsked + ReadsAsked(schedule, p)
                && io[p].awAsked == old(io)[p].awAsked + WritesAsked(schedule, p)
                && old(io)[p].rOut <= io[p].rOut && old(io)[p].bOut <= io[p].bOut && old(history) <= history
    {
      hide Ok, DropsAsked, DropsOld, StepOk, Allowed, Legal, Replay, Late, Advanced, Delivered, SavesMemory, AnswersSaved;
      ghost var before := Now();
      trail := [Now()];
      TwoPorts(Fixed(), before);
      NothingAdvanced(before);
      for i := 0 to |schedule|
        invariant Valid() && DropsAsked(Now())
        invariant |trail| == i + 1 && trail[0] == before && trail[i] == Now()
        invariant forall j | 0 <= j < i :: StepOk(trail[j], cfg, schedule[j], trail[j + 1])
        invariant forall j | 0 <= j < i :: !(schedule[j].Tick? && Late(trail[j].w)) && SavesMemory(trail[j], trail[j + 1])
        invariant Advanced(before, schedule[..i], Now())
      {
        ghost var was := Now();
        assert Allowed(schedule[i], cacheable, iReadOnly);
        Step(schedule[i]);
        if hazard {
          return;
        }
        AdvancedMore(before, schedule, i, was, Now());
        trail := trail + [Now()];
      }
      assert schedule[..|schedule|] == schedule;
      RunMeans(Fixed(), before, schedule, Now());
    }
  }
}
