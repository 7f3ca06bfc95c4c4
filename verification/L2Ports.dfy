/** The ports and the bypass traffic of the L2 cache: what their registers, queues and outstanding
    tables satisfy, and why each step keeps it. */
module L2Ports {
  import opened Words
  import opened DivMod
  import OstQueue
  import opened L2Types
  import opened FlatMemory
  import opened L2Coherence
  import opened L2Traffic

  // ----- the parts of the invariant that concern ports and bypass traffic -----

  predicate Reading(port: Port) { port.state == Read || (port.state == MissWait && port.missReturn == Read) }
  predicate Writing(port: Port) { port.state == Write || (port.state == MissWait && port.missReturn == Write) }

  ghost predicate ReadingOk(port: Port, cacheable: iset<nat>)
  {
    && WellFormedAr(port.ar, cacheable) && !IsCmo(port.ar.user) && port.ar.cache != 0
    && port.beat <= port.ar.len
    && port.addr == BeatAddr(port.ar.addr, 2, Incr, port.beat)
  }

  ghost predicate WritingOk(port: Port, cacheable: iset<nat>)
  {
    && WellFormedAw(port.aw, cacheable) && port.aw.cache != 0
    && port.beat <= port.aw.len
    && port.addr == BeatAddr(port.aw.addr, 2, Incr, port.beat)
  }

  /** What the engine is doing for a port. */
  datatype Duty = NoDuty | MissDuty | CmoDuty(line: nat)

  function DutyFor(e: Engine, p: nat): Duty
  {
    if e.owner != p then NoDuty else if Missing(e) then MissDuty else if CmoWriting(e) then CmoDuty(e.wbLine) else NoDuty
  }

  ghost predicate PortOk(port: Port, p: nat, duty: Duty, live: seq<WrCtx>, cacheable: iset<nat>)
  {
    && (port.state == MissWait <==> duty == MissDuty)
    && (port.state == MissWait ==> port.missReturn == Read || port.missReturn == Write)
    && (port.state == CmoWait <==> duty.CmoDuty?)
    && (duty.CmoDuty? ==> Cleans(port.ar.user) && LineOf(port.ar.addr) == duty.line)
    && (Reading(port) ==> ReadingOk(port, cacheable))
    && (Writing(port) ==> WritingOk(port, cacheable) && !WritePending(live, p))
  }

  /** Beats the port's cached write in progress has not consumed yet. */
  function CachedOwed(port: Port): (beats: seq<W>)
  {
    if Writing(port) && port.beat <= |port.aw.beats| then port.aw.beats[port.beat..] else []
  }

  /** One port: its registers, the requests on its links and in its staging queues, everything
      delivered to its requester (`rOut`, `bOut`), and everything its requester has asked for
      (`arAsked`, `awAsked`). */
  datatype PortIo = PortIo(
    port: Port,
    arLink: seq<Ar>, awLink: seq<Aw>, wLink: seq<W>,
    arFifo: seq<Ar>, awFifo: seq<Aw>, wFifo: seq<W>,
    rOut: seq<R>, bOut: seq<nat>,
    arAsked: seq<Ar>, awAsked: seq<Aw>)

  /** A port that never writes through the cache and never issues cache-block operations. */
  ghost predicate ReadOnlyPort(x: PortIo)
  {
    && !Writing(x.port) && x.port.state != CmoWait
    && (forall i | 0 <= i < |x.arFifo + x.arLink| :: !IsCmo((x.arFifo + x.arLink)[i].user))
    && (forall i | 0 <= i < |x.awFifo + x.awLink| :: (x.awFifo + x.awLink)[i].cache == 0)
  }

  ghost predicate RequestsOk(ars: seq<Ar>, aws: seq<Aw>, cacheable: iset<nat>)
  {
    && (forall i | 0 <= i < |ars| :: WellFormedAr(ars[i], cacheable))
    && (forall i | 0 <= i < |aws| :: WellFormedAw(aws[i], cacheable))
  }

  /** The queued data beats of a port are exactly the beats of its outstanding bypass writes,
      its cached write in progress and its queued writes, in that order. */
  ghost predicate Aligned(p: nat, x: PortIo, live: seq<WrCtx>)
  {
    x.wFifo + x.wLink == BypassOwed(live, p) + CachedOwed(x.port) + Payload(x.awFifo + x.awLink)
  }

  /** Everything about one port. */
  ghost predicate PortPart(p: nat, x: PortIo, duty: Duty, live: seq<WrCtx>, cacheable: iset<nat>, readOnly: bool)
  {
    var ok :=
    && PortOk(x.port, p, duty, live, cacheable)
    && RequestsOk(x.arFifo + x.arLink, x.awFifo + x.awLink, cacheable)
    && Aligned(p, x, live)
    && (readOnly ==> ReadOnlyPort(x));
    ok
  }

  ghost predicate BypassReadOk(x: MemAr, cacheable: iset<nat>)
  {
    x.BypassAr? && x.port < 2 && WellFormedAr(x.ar, cacheable) && !IsCmo(x.ar.user) && x.ar.cache == 0
  }

  /** While the engine works the bus is its own; otherwise the bus carries the bypass traffic. */
  ghost predicate RoutePart(idle: bool, b: Bus, liveRd: seq<nat>, liveWr: seq<WrCtx>, cacheable: iset<nat>)
  {
    var ok :=
    idle ==>
      && (forall i | 0 <= i < |b.ar| :: BypassReadOk(b.ar[i], cacheable))
      && ReadRoute(b.r, b.ar, liveRd)
      && (if b.ar == [] then b.served == 0 else b.served <= b.ar[0].ar.len)
      && WriteRoute(b, liveWr, cacheable);
    ok
  }

  ghost predicate HistoryPart(flat0: seq<Line>, h: seq<Event>, flat: seq<Line>)
  {
    var ok :=
    MemoryShape(flat0) && Legal(flat0, h) && flat == Replay(flat0, h);
    ok
  }

  /** The ordered tables of outstanding bypass requests; a freed head stays until the next clock. */
  datatype Tables = Tables(rd: OstQueue.Table<nat>, wr: OstQueue.Table<WrCtx>) {
    function LiveRd(): seq<nat> { Live(rd) }
    function LiveWr(): seq<WrCtx> { Live(wr) }
    predicate Empty() { rd.entries == [] && wr.entries == [] }
  }

  predicate TablePart(t: Tables, depth: nat, idle: bool)
  {
    var ok :=
    && (t.rd.freed ==> t.rd.entries != []) && (t.wr.freed ==> t.wr.entries != [])
    && |t.rd.entries| <= depth && |t.wr.entries| <= depth
    && (forall i | 0 <= i < |t.rd.entries| :: t.rd.entries[i] < 2)
    && (!idle ==> t.Empty());
    ok
  }

  predicate ReplacePart(g: Geometry, replaceWays: seq<nat>)
  {
    var ok :=
    |replaceWays| == g.sets && forall k | 0 <= k < |replaceWays| :: replaceWays[k] < g.ways;
    ok
  }

  /** A set and a way name one slot. */
  lemma OnlySlot(n: nat, set_: nat, way: nat, ways: nat)
    requires ways > 0
    ensures forall i: nat | i < n && i / ways == set_ && i % ways == way :: i == set_ * ways + way
  {
    forall i: nat | i < n && i / ways == set_ && i % ways == way
      ensures i == set_ * ways + way
    {
      assert i == (i / ways) * ways + i % ways;
    }
  }

  lemma InvSized(s: World)
    requires Inv(s)
    ensures Sized(s)
  {
  }

  /** Once no bypass request is outstanding, nothing is left on the bus. */
  lemma DrainedIsQuiet(b: Bus, cacheable: iset<nat>)
    requires RoutePart(true, b, [], [], cacheable)
    ensures b == QUIET
  {
    NoReadsLeft(b.r, b.ar);
  }

  lemma QuietRoute(cacheable: iset<nat>)
    ensures RoutePart(true, QUIET, [], [], cacheable)
  {
  }

  /** The address a port works on lies in a cacheable line. */
  lemma PortLine(p: nat, x: PortIo, duty: Duty, live: seq<WrCtx>, cacheable: iset<nat>, readOnly: bool)
    requires PortPart(p, x, duty, live, cacheable, readOnly)
    requires Reading(x.port) || Writing(x.port)
    ensures x.port.addr < ADDR_SPACE && LineOf(x.port.addr) < LINES && LineOf(x.port.addr) in cacheable
  {
  }

  /** A port starts or ends waiting for the engine. */
  lemma PortWaits(p: nat, x: PortIo, x': PortIo, duty: Duty, duty': Duty, live: seq<WrCtx>,
                  cacheable: iset<nat>, readOnly: bool)
    requires PortPart(p, x, duty, live, cacheable, readOnly)
    requires x' == x.(port := x'.port)
    requires
      || (&& duty == NoDuty && duty' == MissDuty && (x.port.state == Read || x.port.state == Write)
          && x'.port == x.port.(state := MissWait, missReturn := x.port.state))
      || (&& duty == MissDuty && duty' == NoDuty
          && x'.port == x.port.(state := x.port.missReturn, missResolved := true))
      || (&& duty.CmoDuty? && duty' == NoDuty && x'.port == x.port.(state := CmoRsp))
    ensures PortPart(p, x', duty', live, cacheable, readOnly)
  {
  }

  /** What the engine may rely on about the arrays and the bus in each of its states. */
  lemma BusOfEngine(s: World)
    requires Inv(s)
    ensures Sized(s)
    ensures |s.c.tags| == |s.c.valids| == |s.c.dirtys| == |s.c.data|
    ensures Missing(s.e) ==> s.e.missIdx < |s.c.data| && |s.c.data[s.e.missIdx]| == LINE_WORDS
    ensures CmoWriting(s.e) ==> s.e.cmoIdx < |s.c.data| && |s.c.data[s.e.cmoIdx]| == LINE_WORDS
    ensures s.e.state.WbAw? || s.e.state.CmoWbAw? || s.e.state.RefillAr? ==> s.b == QUIET
    ensures s.e.state.WbW? || s.e.state.CmoWbW? || s.e.state.RefillR? ==> s.e.beat < LINE_WORDS
    ensures s.e.state.WbW? || s.e.state.CmoWbW? ==> |s.e.sent| == s.e.beat
    ensures s.e.state.RefillR? && s.b.r != [] ==>
              s.b.r[0].src == ForEngine && s.b.r[0].last == (s.e.beat == LINE_WORDS - 1)
  {
  }

  /** While the engine works nothing is outstanding. */
  lemma BusyTables(t: Tables, depth: nat)
    requires TablePart(t, depth, false)
    ensures t.Empty() && t.LiveRd() == [] && t.LiveWr() == [] && TablePart(t, depth, true)
  {
  }

  lemma RouteBusy(b: Bus, cacheable: iset<nat>)
    ensures RoutePart(false, b, [], [], cacheable)
  {
  }

  // ----- bypass traffic -----

  /** With the engine idle, coherence says nothing about the bus. */
  lemma IdleBus(s: World, s': World)
    requires Inv(s) && s.e.state == EIdle && s' == s.(b := s'.b)
    ensures Inv(s')
  {
    SameCoherence(s, s');
  }

  /** Delivering responses and counting latency do not affect a port's obligations. */
  lemma PortDelivers(p: nat, x: PortIo, x': PortIo, duty: Duty, live: seq<WrCtx>, cacheable: iset<nat>, readOnly: bool)
    requires PortPart(p, x, duty, live, cacheable, readOnly)
    requires x' == x.(rOut := x'.rOut, bOut := x'.bOut,
                      port := x.port.(missResolved := x'.port.missResolved,
                                      latencyActive := x'.port.latencyActive, delay := x'.port.delay))
    ensures PortPart(p, x', duty, live, cacheable, readOnly)
  {
  }

  /** The next read beat from memory belongs to the oldest outstanding bypass read. */
  lemma RouteReadTaken(b: Bus, liveRd: seq<nat>, liveWr: seq<WrCtx>, cacheable: iset<nat>)
    requires RoutePart(true, b, liveRd, liveWr, cacheable) && b.r != []
    ensures liveRd != [] && b.r[0].src == ForPort(liveRd[0])
    ensures RoutePart(true, b.(r := b.r[1..]), if b.r[0].last then liveRd[1..] else liveRd, liveWr, cacheable)
  {
  }

  lemma RouteReadIssued(b: Bus, liveRd: seq<nat>, liveWr: seq<WrCtx>, cacheable: iset<nat>, p: nat, ar: Ar)
    requires RoutePart(true, b, liveRd, liveWr, cacheable)
    requires p < 2 && WellFormedAr(ar, cacheable) && !IsCmo(ar.user) && ar.cache == 0
    ensures RoutePart(true, b.(ar := b.ar + [BypassAr(p, ar)]), liveRd + [p], liveWr, cacheable)
  {
    ReadIssued(b.r, b.ar, liveRd, p, ar);
  }

  lemma RouteWriteIssued(b: Bus, liveRd: seq<nat>, liveWr: seq<WrCtx>, cacheable: iset<nat>, p: nat, aw: Aw)
    requires RoutePart(true, b, liveRd, liveWr, cacheable)
    requires p < 2 && WellFormedAw(aw, cacheable) && aw.cache == 0
    ensures RoutePart(true, b.(aw := b.aw + [BypassAw(p, aw)]), liveRd, liveWr + [WrCtx(p, 0, aw, false)], cacheable)
  {
    var live' := liveWr + [WrCtx(p, 0, aw, false)];
    if b.b != [] {
      assert live'[1..] == liveWr[1..] + [WrCtx(p, 0, aw, false)];
    }
  }

  /** The oldest bypass write after sending one more of its beats. */
  function Advance(x: WrCtx, last: bool): (x': WrCtx)
  {
    x.(beatIdx := x.beatIdx + 1, wDone := last || x.beatIdx + 1 >= x.aw.len + 1)
  }

  lemma RouteWriteSent(b: Bus, liveRd: seq<nat>, liveWr: seq<WrCtx>, cacheable: iset<nat>, w: W)
    requires RoutePart(true, b, liveRd, liveWr, cacheable)
    requires liveWr != [] && !liveWr[0].wDone
    requires liveWr[0].beatIdx < |liveWr[0].aw.beats| && w == liveWr[0].aw.beats[liveWr[0].beatIdx]
    ensures RoutePart(true, b.(w := b.w + [w]), liveRd, liveWr[0 := Advance(liveWr[0], w.last)], cacheable)
  {
  }

  /** A response from memory is for the oldest outstanding bypass write, which has sent all its data. */
  lemma RouteWriteDone(b: Bus, liveRd: seq<nat>, liveWr: seq<WrCtx>, cacheable: iset<nat>)
    requires RoutePart(true, b, liveRd, liveWr, cacheable) && b.b != []
    ensures liveWr != [] && liveWr[0].wDone && b.b == [ForPort(liveWr[0].port)] && b.applied == 0
    ensures RoutePart(true, b.(b := b.b[1..]), liveRd, liveWr[1..], cacheable)
  {
  }

  lemma PopAligned(fifo: seq<W>, link: seq<W>, w: W, a: seq<W>, b: seq<W>, c: seq<W>)
    requires fifo != [] && fifo + link == ([w] + a) + b + c
    ensures fifo[0] == w && fifo[1..] + link == a + b + c
  {
    assert (fifo + link)[0] == fifo[0];
    assert fifo[1..] + link == (fifo + link)[1..];
    assert (([w] + a) + b + c)[1..] == a + b + c;
  }

  /** A port's next data beat is the next beat of the oldest bypass write, when that is its own. */
  lemma PortSendsBypass(p: nat, x: PortIo, duty: Duty, live: seq<WrCtx>, cacheable: iset<nat>, readOnly: bool)
    requires PortPart(p, x, duty, live, cacheable, readOnly)
    requires live != [] && WrCtxOk(live[0], cacheable) && !live[0].wDone
    ensures live[0].port == p && x.wFifo != [] ==>
              && x.wFifo[0] == live[0].aw.beats[live[0].beatIdx]
              && PortPart(p, x.(wFifo := x.wFifo[1..]), duty, live[0 := Advance(live[0], x.wFifo[0].last)],
                          cacheable, readOnly)
  {
    hide ReadingOk, WritingOk, RequestsOk, WellFormedAr, WellFormedAw, WritePending;
    assert live[0].beatIdx < |live[0].aw.beats|;
    if live[0].port == p && x.wFifo != [] {
      var w := live[0].aw.beats[live[0].beatIdx];
      var live' := live[0 := Advance(live[0], x.wFifo[0].last)];
      HeadSent(live, live'[0], p);
      SamePending(live, live'[0], p);
      PopAligned(x.wFifo, x.wLink, w, BypassOwed(live', p), CachedOwed(x.port), Payload(x.awFifo + x.awLink));
    }
  }

  lemma OtherSendsBypass(p: nat, x: PortIo, duty: Duty, live: seq<WrCtx>, cacheable: iset<nat>, readOnly: bool, last: bool)
    requires PortPart(p, x, duty, live, cacheable, readOnly)
    requires live != [] && WrCtxOk(live[0], cacheable) && !live[0].wDone && live[0].port != p
    ensures PortPart(p, x, duty, live[0 := Advance(live[0], last)], cacheable, readOnly)
  {
    HeadSent(live, Advance(live[0], last), p);
    SamePending(live, Advance(live[0], last), p);
  }

  lemma SamePending(live: seq<WrCtx>, x: WrCtx, p: nat)
    requires live != [] && x.port == live[0].port
    ensures WritePending(live[0 := x], p) <==> WritePending(live, p)
  {
    var live' := live[0 := x];
    if i :| 0 <= i < |live'| && live'[i].port == p {
      assert live[i].port == p;
    }
    if i :| 0 <= i < |live| && live[i].port == p {
      assert live'[i].port == p;
    }
  }

  /** Retiring the oldest bypass write, whose data has all been sent. */
  lemma PortRetires(p: nat, x: PortIo, duty: Duty, live: seq<WrCtx>, cacheable: iset<nat>, readOnly: bool)
    requires PortPart(p, x, duty, live, cacheable, readOnly)
    requires live != [] && live[0].beatIdx == |live[0].aw.beats|
    ensures PortPart(p, x, duty, live[1..], cacheable, readOnly)
  {
    assert BypassOwed(live, p) == BypassOwed(live[1..], p);
    if i :| 0 <= i < |live[1..]| && live[1..][i].port == p {
      assert live[i + 1].port == p;
    }
  }

  /** A port takes up the bypass write at the head of its queue. */
  lemma PortTakesBypassWrite(p: nat, x: PortIo, duty: Duty, live: seq<WrCtx>, cacheable: iset<nat>, readOnly: bool)
    requires PortPart(p, x, duty, live, cacheable, readOnly)
    requires x.port.state == Idle && x.awFifo != [] && x.awFifo[0].cache == 0
    ensures WellFormedAw(x.awFifo[0], cacheable)
    ensures PortPart(p, x.(awFifo := x.awFifo[1..]), duty, live + [WrCtx(p, 0, x.awFifo[0], false)], cacheable, readOnly)
  {
    var aw := x.awFifo[0];
    var all := x.awFifo + x.awLink;
    var x' := x.(awFifo := x.awFifo[1..]);
    assert x'.awFifo + x'.awLink == all[1..] && all[0] == aw;
    assert Payload(all) == aw.beats + Payload(all[1..]);
    BypassOwedAppend(live, WrCtx(p, 0, aw, false), p);
    assert CachedOwed(x.port) == [];
    assert x.wFifo + x.wLink == (BypassOwed(live, p) + aw.beats) + Payload(all[1..]);
  }

  lemma OtherTakesBypassWrite(p: nat, x: PortIo, duty: Duty, live: seq<WrCtx>, cacheable: iset<nat>, readOnly: bool, c: WrCtx)
    requires PortPart(p, x, duty, live, cacheable, readOnly)
    requires c.port != p && c.beatIdx == 0
    ensures PortPart(p, x, duty, live + [c], cacheable, readOnly)
  {
    BypassOwedAppend(live, c, p);
    if i :| 0 <= i < |live + [c]| && (live + [c])[i].port == p {
      assert live[i].port == p;
    }
  }

  lemma HeadWriteOk(b: Bus, liveRd: seq<nat>, liveWr: seq<WrCtx>, cacheable: iset<nat>)
    requires RoutePart(true, b, liveRd, liveWr, cacheable) && liveWr != []
    ensures WrCtxOk(liveWr[0], cacheable) && liveWr[0].port < 2
    ensures liveWr[0].beatIdx <= |liveWr[0].aw.beats|
    ensures liveWr[0].wDone <==> liveWr[0].beatIdx == |liveWr[0].aw.beats|
  {
  }

  /** A port takes the read request at the head of its queue. */
  lemma PortTakesAr(p: nat, x: PortIo, duty: Duty, live: seq<WrCtx>, cacheable: iset<nat>, readOnly: bool)
    requires PortPart(p, x, duty, live, cacheable, readOnly) && x.arFifo != []
    ensures WellFormedAr(x.arFifo[0], cacheable)
    ensures readOnly ==> !IsCmo(x.arFifo[0].user)
    ensures PortPart(p, x.(arFifo := x.arFifo[1..]), duty, live, cacheable, readOnly)
  {
    var x' := x.(arFifo := x.arFifo[1..]);
    assert (x.arFifo + x.arLink)[0] == x.arFifo[0];
    assert x'.arFifo + x'.arLink == (x.arFifo + x.arLink)[1..];
  }

  // ----- cached requests -----

  /** A port's registers when it takes up a cached read or write. */
  function TakeRead(port: Port, ar: Ar): Port
  {
    port.(ar := ar, addr := ar.addr, beat := 0, missResolved := false, latencyActive := false, delay := 0, state := Read)
  }

  function TakeWrite(port: Port, aw: Aw): Port
  {
    port.(aw := aw, addr := aw.addr, beat := 0, missResolved := false, latencyActive := false, delay := 0, state := Write)
  }

  function TakeCmo(port: Port, ar: Ar, wait: bool): Port
  {
    port.(ar := ar, addr := LineOf(ar.addr) * LINE_SIZE, beat := 0, state := if wait then CmoWait else CmoRsp)
  }

  /** After one beat of a cached burst. */
  function NextReadBeat(port: Port): Port
  {
    var port' := port.(missResolved := false);
    if port.beat == port.ar.len then port'.(state := Idle)
    else port'.(beat := port.beat + 1, addr := NextAddr(port.addr, port.ar.size, port.ar.burst))
  }

  function NextWriteBeat(port: Port): Port
  {
    var port' := port.(missResolved := false);
    if port.beat == port.aw.len then port'.(state := Idle)
    else port'.(beat := port.beat + 1, addr := NextAddr(port.addr, port.aw.size, port.aw.burst))
  }

  lemma PortTakesRead(p: nat, x: PortIo, live: seq<WrCtx>, cacheable: iset<nat>, readOnly: bool)
    requires PortPart(p, x, NoDuty, live, cacheable, readOnly) && x.port.state == Idle
    requires x.arFifo != [] && !IsCmo(x.arFifo[0].user) && x.arFifo[0].cache != 0
    ensures PortPart(p, x.(arFifo := x.arFifo[1..], port := TakeRead(x.port, x.arFifo[0])), NoDuty, live, cacheable, readOnly)
  {
    PortTakesAr(p, x, NoDuty, live, cacheable, readOnly);
  }

  lemma PortTakesCmo(p: nat, x: PortIo, duty: Duty, live: seq<WrCtx>, cacheable: iset<nat>, readOnly: bool)
    requires PortPart(p, x, NoDuty, live, cacheable, readOnly) && x.port.state == Idle
    requires x.arFifo != [] && IsCmo(x.arFifo[0].user) && duty != MissDuty
    requires duty.CmoDuty? ==> Cleans(x.arFifo[0].user) && LineOf(x.arFifo[0].addr) == duty.line
    ensures !readOnly && WellFormedAr(x.arFifo[0], cacheable)
    ensures PortPart(p, x.(arFifo := x.arFifo[1..], port := TakeCmo(x.port, x.arFifo[0], duty.CmoDuty?)),
                     duty, live, cacheable, readOnly)
  {
    PortTakesAr(p, x, NoDuty, live, cacheable, readOnly);
  }

  /** Registers of a port that takes up a cached write. */
  lemma WriteTaken(p: nat, port: Port, aw: Aw, live: seq<WrCtx>, cacheable: iset<nat>)
    requires PortOk(port, p, NoDuty, live, cacheable) && port.state == Idle
    requires WellFormedAw(aw, cacheable) && aw.cache != 0 && !WritePending(live, p)
    ensures PortOk(TakeWrite(port, aw), p, NoDuty, live, cacheable)
    ensures CachedOwed(port) == [] && CachedOwed(TakeWrite(port, aw)) == aw.beats
  {
    hide BurstIn, WritePending;
  }

  lemma PortTakesWrite(p: nat, x: PortIo, live: seq<WrCtx>, cacheable: iset<nat>, readOnly: bool)
    requires PortPart(p, x, NoDuty, live, cacheable, readOnly) && x.port.state == Idle
    requires x.awFifo != [] && x.awFifo[0].cache != 0 && !WritePending(live, p)
    ensures !readOnly
    ensures PortPart(p, x.(awFifo := x.awFifo[1..], port := TakeWrite(x.port, x.awFifo[0])), NoDuty, live, cacheable, readOnly)
  {
    hide BurstIn, BypassOwed, WritePending, PortOk, CachedOwed, TakeWrite, WellFormedAr, WellFormedAw;
    var aw := x.awFifo[0];
    var all := x.awFifo + x.awLink;
    var x' := x.(awFifo := x.awFifo[1..], port := TakeWrite(x.port, aw));
    assert x'.awFifo + x'.awLink == all[1..] && all[0] == aw;
    NothingOwed(live, p);
    WriteTaken(p, x.port, aw, live, cacheable);
    assert x.wFifo + x.wLink == aw.beats + Payload(all[1..]);
  }

  /** The port is idle again or moves to the next address of its burst. */
  lemma PortReads(p: nat, x: PortIo, live: seq<WrCtx>, cacheable: iset<nat>, readOnly: bool)
    requires PortPart(p, x, NoDuty, live, cacheable, readOnly) && x.port.state == Read
    ensures PortPart(p, x.(port := NextReadBeat(x.port)), NoDuty, live, cacheable, readOnly)
    ensures x.port.beat <= x.port.ar.len
    ensures x.port.addr == BeatAddr(x.port.ar.addr, x.port.ar.size, x.port.ar.burst, x.port.beat)
  {
  }

  /** Registers of a port over one beat of a cached write. */
  lemma WriteAdvances(p: nat, port: Port, live: seq<WrCtx>, cacheable: iset<nat>)
    requires PortOk(port, p, NoDuty, live, cacheable) && port.state == Write
    ensures PortOk(NextWriteBeat(port), p, NoDuty, live, cacheable) && !WritePending(live, p)
    ensures port.beat <= port.aw.len && |port.aw.beats| == port.aw.len + 1
    ensures port.aw.beats[port.beat].last == (port.beat == port.aw.len)
    ensures port.addr == BeatAddr(port.aw.addr, port.aw.size, port.aw.burst, port.beat)
    ensures CachedOwed(port) == [port.aw.beats[port.beat]] + CachedOwed(NextWriteBeat(port))
  {
    hide BurstIn, WritePending;
  }

  /** The data beat a cached write consumes is the one its master sent for this address. */
  lemma PortWrites(p: nat, x: PortIo, live: seq<WrCtx>, cacheable: iset<nat>, readOnly: bool)
    requires PortPart(p, x, NoDuty, live, cacheable, readOnly) && x.port.state == Write && x.wFifo != []
    ensures !readOnly && !WritePending(live, p)
    ensures x.port.beat <= x.port.aw.len && |x.port.aw.beats| == x.port.aw.len + 1
    ensures x.wFifo[0] == x.port.aw.beats[x.port.beat] && x.wFifo[0].last == (x.port.beat == x.port.aw.len)
    ensures x.port.addr == BeatAddr(x.port.aw.addr, x.port.aw.size, x.port.aw.burst, x.port.beat)
    ensures PortPart(p, x.(wFifo := x.wFifo[1..], port := NextWriteBeat(x.port)), NoDuty, live, cacheable, readOnly)
  {
    hide RequestsOk, PortOk, NextWriteBeat, CachedOwed, BeatAddr, BypassOwed, WritePending, Payload;
    WriteAdvances(p, x.port, live, cacheable);
    NothingOwed(live, p);
    var x' := x.(wFifo := x.wFifo[1..], port := NextWriteBeat(x.port));
    var w := x.port.aw.beats[x.port.beat];
    assert [] + CachedOwed(x.port) == ([w] + CachedOwed(x'.port)) + [];
    PopAligned(x.wFifo, x.wLink, w, CachedOwed(x'.port), [], Payload(x.awFifo + x.awLink));
    assert CachedOwed(x'.port) + [] == [] + CachedOwed(x'.port);
  }

  /** Extending the history with an event that the flat memory explains. */
  lemma HistoryGrows(flat0: seq<Line>, h: seq<Event>, flat: seq<Line>, ev: Event)
    requires HistoryPart(flat0, h, flat) && InBounds(ev)
    requires MemoryShape(flat) && (ev.Load? ==> ev.data == flat[ev.line][ev.word])
    requires ev.Saved? ==> ev.words == flat[ev.line]
    ensures HistoryPart(flat0, h + [ev], Apply(flat, ev))
  {
    LegalAppend(flat0, h, ev);
  }

  /** Answers and responses do not touch the flat memory. */
  lemma HistoryNotes(flat0: seq<Line>, h: seq<Event>, flat: seq<Line>, ev: Event)
    requires HistoryPart(flat0, h, flat) && (ev.Answer? || ev.Ack?)
    ensures HistoryPart(flat0, h + [ev], flat)
  {
    LegalAppend(flat0, h, ev);
  }

  // ----- cache-block operations -----

  lemma InvCoherent(s: World)
    requires Inv(s)
    ensures Coherent(s)
  {
  }

  lemma IdleInv(s: World)
    requires Coherent(s) && s.e.state == EIdle
    ensures Inv(s)
  {
  }

  lemma IdleEngine(s: World, s': World)
    requires Inv(s) && s.e.state == EIdle && s' == s.(e := s'.e) && s'.e.state == EIdle
    ensures Inv(s')
  {
    SameCoherence(s, s');
  }

  lemma MemoriesSized(s: World)
    requires Inv(s)
    ensures MemoryShape(s.mem) && MemoryShape(s.flat)
  {
  }

  lemma SlotBounds(s: World, i: nat)
    requires Inv(s) && i < |s.c.valids| && s.c.valids[i]
    ensures |s.c.tags| == |s.c.valids| == |s.c.dirtys| == |s.c.data| && s.g.ways > 0
    ensures |s.c.data[i]| == LINE_WORDS && MemoryShape(s.mem) && MemoryShape(s.flat)
    ensures Held(s.g, s.c, i) < LINES
    ensures s.flat[Held(s.g, s.c, i)] == s.c.data[i]
    ensures !s.c.dirtys[i] ==> s.c.data[i] == s.mem[Held(s.g, s.c, i)]
  {
    assert SlotOk(s, i);
  }

  lemma OpCases(user: bv32)
    requires CmoOp(user) != 0
    ensures Invalidates(user) || Cleans(user)
    ensures Invalidates(user) && !Cleans(user) <==> CmoOp(user) == 1
  {
    var op := CmoOp(user);
    assert op <= 3;
  }

  // ----- memory works on bypass requests -----

  /** The bus after memory returned a beat of the oldest bypass read. */
  function Served1(b: Bus, data: Word): (b': Bus)
    requires b.ar != [] && b.ar[0].BypassAr?
  {
    var ar := b.ar[0].ar;
    var last := b.served == ar.len;
    b.(r := b.r + [MemR(ForPort(b.ar[0].port), ar.id, data, last)],
       ar := if last then b.ar[1..] else b.ar, served := if last then 0 else b.served + 1)
  }

  lemma RouteReadServed(b: Bus, liveRd: seq<nat>, liveWr: seq<WrCtx>, cacheable: iset<nat>, data: Word)
    requires RoutePart(true, b, liveRd, liveWr, cacheable) && b.ar != []
    requires b.ar[0].BypassAr?
    ensures RoutePart(true, Served1(b, data), liveRd, liveWr, cacheable)
  {
    ReadServed(b.r, b.ar, liveRd, Served1(b, data).r[|b.r|]);
  }

  lemma BypassReadAt(b: Bus, liveRd: seq<nat>, liveWr: seq<WrCtx>, cacheable: iset<nat>)
    requires RoutePart(true, b, liveRd, liveWr, cacheable) && b.ar != []
    ensures b.ar[0].BypassAr? && b.served <= b.ar[0].ar.len && !IsCmo(b.ar[0].ar.user)
    ensures BeatAddr(b.ar[0].ar.addr, b.ar[0].ar.size, b.ar[0].ar.burst, b.served) < ADDR_SPACE
  {
    assert BypassReadOk(b.ar[0], cacheable);
  }

  /** Memory stored a beat of a bypass write: it was the next beat of the oldest accepted write. */
  lemma RouteWriteStored(b: Bus, liveRd: seq<nat>, liveWr: seq<WrCtx>, cacheable: iset<nat>)
    requires RoutePart(true, b, liveRd, liveWr, cacheable) && b.aw != [] && b.w != []
    ensures b.aw[0].BypassAw? && b.applied <= b.aw[0].aw.len && |b.aw[0].aw.beats| == b.aw[0].aw.len + 1
    ensures b.w[0] == b.aw[0].aw.beats[b.applied]
    ensures b.w[0].last == (b.applied == b.aw[0].aw.len)
    ensures BeatAddr(b.aw[0].aw.addr, b.aw[0].aw.size, b.aw[0].aw.burst, b.applied) < ADDR_SPACE
    ensures LineOf(BeatAddr(b.aw[0].aw.addr, b.aw[0].aw.size, b.aw[0].aw.burst, b.applied)) !in cacheable
    ensures RoutePart(true, Stored1(b), liveRd, liveWr, cacheable)
  {
    assert WrCtxOk(liveWr[0], cacheable);
    var x := liveWr[0];
    assert b.aw[0] == BypassAw(x.port, x.aw);
    assert b.applied < x.beatIdx;
    if b.applied == x.aw.len {
      assert x.beatIdx == |x.aw.beats|;
      assert b.w == [b.w[0]];
    } else {
      assert b.w[1..] == x.aw.beats[b.applied + 1..x.beatIdx];
    }
  }

  /** The bus after memory stored a beat of the oldest bypass write. */
  function Stored1(b: Bus): (b': Bus)
    requires b.aw != [] && b.w != [] && b.aw[0].BypassAw?
  {
    if b.applied == b.aw[0].aw.len then
      b.(aw := b.aw[1..], w := b.w[1..], applied := 0, b := b.b + [ForPort(b.aw[0].port)])
    else
      b.(w := b.w[1..], applied := b.applied + 1)
  }

  lemma EngineWrites(s: World)
    requires Inv(s) && s.e.state != EIdle && s.b.aw != [] && s.b.w != []
    ensures (s.e.state.WbW? || s.e.state.WbB? || s.e.state.CmoWbW? || s.e.state.CmoWbB?)
    ensures s.b.aw == [LineAw(s.e.wbLine)] && s.e.wbLine < LINES && s.b.applied < LINE_WORDS && MemoryShape(s.mem)
  {
  }

  lemma EngineReads(s: World)
    requires Inv(s) && s.e.state != EIdle && s.b.ar != []
    ensures s.e.state.RefillR? && s.b.ar == [LineAr(s.e.missLine)] && s.e.missLine < LINES
    ensures s.b.served < LINE_WORDS && MemoryShape(s.mem)
  {
  }

  lemma BypassWord(s: World, l: nat)
    requires Inv(s) && s.e.state == EIdle && l < LINES && l !in s.cacheable
    ensures MemoryShape(s.mem) && MemoryShape(s.flat) && s.mem[l] == s.flat[l]
  {
    UncacheableNotCached(s, l);
    assert Backed(s, l);
  }

  /** The words a cache-block write-back has sent are still those of its slot. */
  predicate Agrees(c: Cache, e: Engine)
  {
    var ok := e.state == CmoWbW || e.state == CmoWbB ==> SentFrom(c, e, e.cmoIdx);
    ok
  }

  /** With a read-only instruction port no store can race with a cache-block write-back: the only
      port that could store is the one waiting for the write-back. */
  lemma NoRace(other: PortIo, e: Engine, live: seq<WrCtx>, cacheable: iset<nat>)
    requires e.owner < 2 && DutyFor(e, 1) == NoDuty
    requires PortPart(0, other, DutyFor(e, 0), live, cacheable, true)
    ensures !CmoWriting(e) && forall c: Cache :: Agrees(c, e)
  {
  }

  /** Sending one more word of the slot keeps the agreement. */
  lemma AgreesSent(s: World)
    requires WbSlot(s.e) < |s.c.data| && s.e.beat < |s.c.data[WbSlot(s.e)]| && |s.e.sent| == s.e.beat
    requires (s.e.state == WbW || s.e.state == CmoWbW) && Agrees(s.c, s.e)
    ensures Agrees(s.c, BeatSent(s).e)
  {
    if s.e.state == CmoWbW {
      var d := s.c.data[s.e.cmoIdx];
      assert d[..s.e.beat] + [d[s.e.beat]] == d[..s.e.beat + 1];
    }
  }

  /** The engine does nothing for a port that is idle or working on a hit. */
  lemma ActiveDuty(p: nat, x: PortIo, duty: Duty, live: seq<WrCtx>, cacheable: iset<nat>, readOnly: bool)
    requires PortPart(p, x, duty, live, cacheable, readOnly) && x.port.state != MissWait && x.port.state != CmoWait
    ensures duty == NoDuty
  {
  }

  // ----- requests from outside -----

  lemma PortRequests(p: nat, x: PortIo, duty: Duty, live: seq<WrCtx>, cacheable: iset<nat>, readOnly: bool, ar: Ar)
    requires PortPart(p, x, duty, live, cacheable, readOnly)
    requires WellFormedAr(ar, cacheable) && (readOnly ==> !IsCmo(ar.user))
    ensures PortPart(p, x.(arLink := x.arLink + [ar], arAsked := x.arAsked + [ar]), duty, live, cacheable, readOnly)
  {
    hide PortOk, BurstIn, BypassOwed, WellFormedAr, WellFormedAw, Payload, CachedOwed;
    assert x.arFifo + (x.arLink + [ar]) == (x.arFifo + x.arLink) + [ar];
  }

  lemma PortRequestsWrite(p: nat, x: PortIo, duty: Duty, live: seq<WrCtx>, cacheable: iset<nat>, readOnly: bool, aw: Aw)
    requires PortPart(p, x, duty, live, cacheable, readOnly)
    requires WellFormedAw(aw, cacheable) && (readOnly ==> aw.cache == 0)
    ensures PortPart(p, x.(awLink := x.awLink + [aw], wLink := x.wLink + aw.beats, awAsked := x.awAsked + [aw]), duty, live, cacheable, readOnly)
  {
    hide BurstIn, ReadingOk, WritingOk, BypassOwed, WellFormedAr, WellFormedAw, Payload, CachedOwed;
    var x' := x.(awLink := x.awLink + [aw], wLink := x.wLink + aw.beats, awAsked := x.awAsked + [aw]);
    assert x'.awFifo + x'.awLink == (x.awFifo + x.awLink) + [aw];
    OneMorePayload(x.awFifo + x.awLink, aw);
    assert x'.wFifo + x'.wLink == (x.wFifo + x.wLink) + aw.beats;
    Assoc(BypassOwed(live, p) + CachedOwed(x.port), Payload(x.awFifo + x.awLink), aw.beats);
  }

  lemma OneMorePayload(q: seq<Aw>, aw: Aw)
    ensures Payload(q + [aw]) == Payload(q) + aw.beats
  {
    PayloadAppend(q, [aw]);
    assert [aw][1..] == [];
    assert Payload([aw]) == aw.beats + [];
  }

  // ----- reset -----


  const RESET_PORT := Port(Idle, Idle, Ar(0, 0, 0, 0, Fixed, 0, 0), Aw(0, 0, 0, 0, Fixed, 0, []), 0, 0, false, false, 0)
  const RESET_IO := PortIo(RESET_PORT, [], [], [], [], [], [], [], [], [], [])
  const RESET_ENGINE := Engine(EIdle, 0, 0, 0, 0, 0, 0, 0, 0, 0, [])
  const RESET_TABLES := Tables(OstQueue.Table([], false), OstQueue.Table([], false))

  /** The cache arrays after reset. */
  function ResetCache(n: nat): (c: Cache)
  {
    Cache(seq(n, _ => 0), seq(n, _ => false), seq(n, _ => false), seq(n, _ => seq(LINE_WORDS, _ => ZERO)))
  }

  function ResetWays(n: nat): (ways: seq<nat>) { seq(n, _ => 0) }

  lemma ResetInv(g: Geometry, cacheable: iset<nat>, mem: seq<Line>)
    requires g.sets > 0 && g.ways > 0 && MemoryShape(mem)
    ensures Inv(World(g, cacheable, ResetCache(g.sets * g.ways), RESET_ENGINE, QUIET, mem, mem))
  {
    var s := World(g, cacheable, ResetCache(g.sets * g.ways), RESET_ENGINE, QUIET, mem, mem);
    assert Shape(s.g, s.c) && Sized(s);
    assert forall i: nat | i < |s.c.valids| :: !s.c.valids[i];
    assert forall l: nat | l < LINES :: Backed(s, l);
  }

  /** The reset state satisfies every part of the invariant. */
  lemma ResetFacts(g: Geometry, depth: nat, cacheable: iset<nat>, readOnly: bool, mem: seq<Line>)
    requires g.sets > 0 && g.ways > 0 && MemoryShape(mem)
    ensures Inv(World(g, cacheable, ResetCache(g.sets * g.ways), RESET_ENGINE, QUIET, mem, mem))
    ensures ReplacePart(g, ResetWays(g.sets)) && TablePart(RESET_TABLES, depth, true)
    ensures RESET_TABLES.LiveRd() == [] && RESET_TABLES.LiveWr() == [] && RoutePart(true, QUIET, [], [], cacheable)
    ensures PortPart(0, RESET_IO, NoDuty, [], cacheable, readOnly) && PortPart(1, RESET_IO, NoDuty, [], cacheable, false)
    ensures HistoryPart(mem, [], mem) && Agrees(ResetCache(g.sets * g.ways), RESET_ENGINE)
  {
    hide Inv, MemoryShape, ResetCache, PortPart;
    ResetInv(g, cacheable, mem);
    ResetPort(0, cacheable, readOnly);
    ResetPort(1, cacheable, false);
  }

  lemma ResetPort(p: nat, cacheable: iset<nat>, readOnly: bool)
    ensures PortPart(p, RESET_IO, NoDuty, [], cacheable, readOnly)
  {
  }

  lemma RouteStillBusy(b: Bus, liveRd: seq<nat>, liveWr: seq<WrCtx>, cacheable: iset<nat>)
    ensures RoutePart(false, b, liveRd, liveWr, cacheable)
  {
  }

  /** A bypass read lies outside the cacheable lines, where memory is the flat memory. */
  lemma BypassReadLine(s: World, liveRd: seq<nat>, liveWr: seq<WrCtx>)
    requires Inv(s) && s.e.state == EIdle && RoutePart(true, s.b, liveRd, liveWr, s.cacheable) && s.b.ar != []
    requires s.b.ar[0].BypassAr?
    ensures MemoryShape(s.mem) && MemoryShape(s.flat)
    ensures var a := BeatAddr(s.b.ar[0].ar.addr, s.b.ar[0].ar.size, s.b.ar[0].ar.burst, s.b.served);
            LineOf(a) < LINES && s.mem[LineOf(a)] == s.flat[LineOf(a)]
  {
    assert BypassReadOk(s.b.ar[0], s.cacheable);
    var a := BeatAddr(s.b.ar[0].ar.addr, s.b.ar[0].ar.size, s.b.ar[0].ar.burst, s.b.served);
    assert LineOf(a) !in s.cacheable;
    BypassWord(s, LineOf(a));
  }

  // ----- what steps may rely on -----

  lemma TablesOk(t: Tables, depth: nat, idle: bool)
    requires TablePart(t, depth, idle)
    ensures !idle ==> t.Empty()
  {
  }

  lemma ReadBusOk(b: Bus, liveRd: seq<nat>, liveWr: seq<WrCtx>, cacheable: iset<nat>)
    requires RoutePart(true, b, liveRd, liveWr, cacheable)
    ensures b.ar == [] ==> b.served == 0
  {
  }

  lemma WriteBusOk(b: Bus, liveRd: seq<nat>, liveWr: seq<WrCtx>, cacheable: iset<nat>)
    requires RoutePart(true, b, liveRd, liveWr, cacheable)
    ensures liveWr == [] ==> b.b == [] && b.applied == 0
  {
  }

  lemma WaitingPort(p: nat, x: PortIo, live: seq<WrCtx>, cacheable: iset<nat>, readOnly: bool)
    requires PortPart(p, x, MissDuty, live, cacheable, readOnly)
    ensures x.port.state == MissWait && (x.port.missReturn == Read || x.port.missReturn == Write)
  {
  }

  lemma WaitingCmo(p: nat, x: PortIo, duty: Duty, live: seq<WrCtx>, cacheable: iset<nat>, readOnly: bool)
    requires PortPart(p, x, duty, live, cacheable, readOnly) && duty.CmoDuty?
    ensures x.port.state == CmoWait && Cleans(x.port.ar.user) && LineOf(x.port.ar.addr) == duty.line
  {
  }

  lemma PortAnswers(p: nat, x: PortIo, duty: Duty, live: seq<WrCtx>, cacheable: iset<nat>, readOnly: bool)
    requires PortPart(p, x, duty, live, cacheable, readOnly) && x.port.state == CmoRsp
    ensures PortPart(p, x.(rOut := x.rOut + [R(x.port.ar.id, ZERO, true)], port := x.port.(state := Idle)),
                     duty, live, cacheable, readOnly)
  {
    hide RequestsOk, BypassOwed, Payload, WritePending, ReadingOk, WritingOk;
  }

  /** The whole line has been sent when the answer to a write-back is due. */
  lemma AllSent(s: World)
    requires Inv(s) && s.e.state == CmoWbB && s.e.cmoIdx < |s.c.data| && |s.c.data[s.e.cmoIdx]| == LINE_WORDS
    ensures Agrees(s.c, s.e) ==> s.c.data[s.e.cmoIdx] == s.e.sent
  {
    hide Coherent;
    if Agrees(s.c, s.e) {
      assert s.c.data[s.e.cmoIdx][..LINE_WORDS] == s.c.data[s.e.cmoIdx];
    }
  }
}
