/** What each step of the L2 cache does to the state of the cache, its ports and its memory. */
module L2Steps {
  import opened Words
  import opened DivMod
  import OstQueue
  import opened L2Types
  import opened FlatMemory
  import opened L2Coherence
  import opened L2Traffic
  import opened L2Ports

  /** Configuration: hit latency, depth of the staging queues and of the outstanding tables. */
  datatype Config = Config(latency: nat, stgDepth: nat, ostDepth: nat)

  /** The whole state: arrays, engine, bus and memories; ports; outstanding tables; round-robin
      choices; whether the data array was written in this clock; and the accesses served so far. */
  datatype Snap = Snap(w: World, io: seq<PortIo>, t: Tables, ways: seq<nat>, used: bool, h: seq<Event>)

  /** What a port meets in a clock: links that show nothing (`noAr`, `noAw`, `noW`), address
      channels to memory that are full when it issues (`ar`, `aw`), answers it cannot take (`r`, `b`). */
  datatype PortStall = PortStall(noAr: bool, noAw: bool, noW: bool, ar: bool, aw: bool, r: bool, b: bool)

  /** Which interfaces are full at a clock: towards memory when the engine and the bypass data
      path use them, and those of the two ports. */
  datatype Stall = Stall(aw: bool, w: bool, ar: bool, i: PortStall, d: PortStall) {
    function Of(p: nat): PortStall { if p == 0 then i else d }
  }

  function WithPort(s: Snap, p: nat, x: PortIo): (s': Snap)
    requires p < |s.io|
  {
    s.(io := s.io[p := x])
  }

  function WithBus(s: Snap, b: Bus): (s': Snap) { s.(w := s.w.(b := b)) }

  // ----- the beginning of a clock -----

  function TakeAr(x: PortIo, depth: nat, none: bool): (x': PortIo)
  {
    if |x.arFifo| < depth && x.arLink != [] && !none then x.(arFifo := x.arFifo + [x.arLink[0]], arLink := x.arLink[1..]) else x
  }

  function TakeAw(x: PortIo, depth: nat, none: bool): (x': PortIo)
  {
    if |x.awFifo| < depth && x.awLink != [] && !none then x.(awFifo := x.awFifo + [x.awLink[0]], awLink := x.awLink[1..]) else x
  }

  function TakeW(x: PortIo, depth: nat, none: bool): (x': PortIo)
  {
    if |x.wFifo| < depth && x.wLink != [] && !none then x.(wFifo := x.wFifo + [x.wLink[0]], wLink := x.wLink[1..]) else x
  }

  /** At most one packet per channel moves from a requester's link into the staging queue. */
  function Captured(x: PortIo, depth: nat, y: PortStall): (x': PortIo)
  {
    TakeW(TakeAw(TakeAr(x, depth, y.noAr), depth, y.noAw), depth, y.noW)
  }

  /** The deferred frees of the previous clock take effect, requests are captured, and the data
      array is free to be written. */
  function Staged(s: Snap, cfg: Config, stall: Stall): (s': Snap)
    requires |s.io| == 2
  {
    s.(t := Tables(OstQueue.Clocked(s.t.rd), OstQueue.Clocked(s.t.wr)), used := false,
       io := [Captured(s.io[0], cfg.stgDepth, stall.i), Captured(s.io[1], cfg.stgDepth, stall.d)])
  }

  // ----- bypass responses and data -----

  /** The beat at the head of the read bus goes to the port of the oldest outstanding read. */
  predicate BypassRStep(s: Snap, stall: Stall, s': Snap)
  {
    var b, t := s.w.b, s.t;
    if b.r == [] || t.rd.entries == [] || t.rd.freed || stall.Of(t.rd.entries[0]).r then s' == s
    else
      var r, p := b.r[0], t.rd.entries[0];
      && p < |s.io| && r.src == ForPort(p)
      && s' == WithPort(WithBus(s, b.(r := b.r[1..])), p, s.io[p].(rOut := s.io[p].rOut + [R(r.id, r.data, r.last)]))
                 .(t := t.(rd := t.rd.(freed := r.last)))
  }

  /** The next beat of the oldest outstanding write, and nothing else, is put on the bus. */
  predicate BypassWStep(s: Snap, full: bool, s': Snap)
  {
    var b, t := s.w.b, s.t;
    if full || t.wr.entries == [] || t.wr.freed || t.wr.entries[0].wDone || t.wr.entries[0].port >= |s.io|
       || s.io[t.wr.entries[0].port].wFifo == []
    then s' == s
    else
      var x := t.wr.entries[0];
      var w := s.io[x.port].wFifo[0];
      && x.beatIdx < |x.aw.beats| && w == x.aw.beats[x.beatIdx]
      && s' == WithPort(WithBus(s, b.(w := b.w + [w])), x.port, s.io[x.port].(wFifo := s.io[x.port].wFifo[1..]))
                 .(t := t.(wr := t.wr.(entries := t.wr.entries[0 := Advance(x, w.last)])))
  }

  /** The response on the bus goes to the port of the oldest outstanding write. */
  predicate BypassBStep(s: Snap, stall: Stall, s': Snap)
  {
    var b, t := s.w.b, s.t;
    if b.b == [] || t.wr.entries == [] || t.wr.freed || !t.wr.entries[0].wDone || stall.Of(t.wr.entries[0].port).b
    then s' == s
    else
      var x := t.wr.entries[0];
      && x.port < |s.io| && b.b == [ForPort(x.port)] && b.applied == 0
      && s' == WithPort(WithBus(s, b.(b := [])), x.port, s.io[x.port].(bOut := s.io[x.port].bOut + [x.aw.id]))
                 .(t := t.(wr := t.wr.(freed := true)), h := s.h + [Ack(x.port, x.aw.id)])
  }

  // ----- the miss, write-back and refill engine -----

  predicate WbAwStep(s: Snap, full: bool, s': Snap)
  {
    s' == if (s.w.e.state == WbAw || s.w.e.state == CmoWbAw) && !full then s.(w := AwSent(s.w)) else s
  }

  predicate WbWStep(s: Snap, full: bool, s': Snap)
  {
    if (s.w.e.state == WbW || s.w.e.state == CmoWbW) && !full then
      && WbSlot(s.w.e) < |s.w.c.data| && s.w.e.beat < |s.w.c.data[WbSlot(s.w.e)]|
      && s' == s.(w := BeatSent(s.w))
    else s' == s
  }

  predicate WbBStep(s: Snap, s': Snap)
  {
    if s.w.e.state == WbB && s.w.b.b != [] then s.w.e.missIdx < |s.w.c.dirtys| && s' == s.(w := Evicted(s.w))
    else s' == s
  }

  predicate RefillArStep(s: Snap, full: bool, s': Snap)
  {
    s' == if s.w.e.state == RefillAr && !full then s.(w := RefillAsked(s.w)) else s
  }

  /** A refill beat, the engine's own, is taken; the last one resumes the port that waits. */
  predicate RefillRStep(s: Snap, s': Snap)
  {
    var e, c := s.w.e, s.w.c;
    if e.state == RefillR && s.w.b.r != [] then
      && e.missIdx < |c.data| == |c.tags| == |c.valids| == |c.dirtys| && e.beat < |c.data[e.missIdx]|
      && e.owner < |s.io| && s.w.b.r[0].src == ForEngine
      && var port := s.io[e.owner].port;
      && var w' := RefillTaken(s.w);
      && port.state == MissWait && (port.missReturn == Read || port.missReturn == Write)
      && s' == s.(w := w', used := true,
                  io := if w'.e.state == EIdle
                        then s.io[e.owner := s.io[e.owner].(port := port.(state := port.missReturn, missResolved := true))]
                        else s.io)
    else s' == s
  }

  /** A clean or flush is complete: what memory holds of the line at this moment. */
  function SavedBy(s: Snap, p: nat, ar: Ar): (ev: Event)
    requires LineOf(ar.addr) < |s.w.mem|
  {
    Saved(p, ar.id, LineOf(ar.addr), ar.user, s.w.mem[LineOf(ar.addr)])
  }

  /** A cache-block write-back is answered, and the port that waits may answer its requester. */
  predicate CmoBStep(s: Snap, s': Snap)
  {
    var e, c := s.w.e, s.w.c;
    if e.state == CmoWbB && s.w.b.b != [] then
      && e.cmoIdx < |c.dirtys| && e.cmoIdx < |c.valids| && e.owner < |s.io| && s.io[e.owner].port.state == CmoWait
      && LineOf(s.io[e.owner].port.ar.addr) == e.wbLine < |s.w.mem|
      && s' == s.(w := CmoEnds(s.w), h := s.h + [SavedBy(s, e.owner, s.io[e.owner].port.ar)],
                  io := s.io[e.owner := s.io[e.owner].(port := s.io[e.owner].port.(state := CmoRsp))])
    else s' == s
  }

  /** The answer to a cache-block write-back finds a slot that is no longer what was sent. */
  predicate Late(s: World)
  {
    s.e.state == CmoWbB && s.b.b != [] && s.e.cmoIdx < |s.c.data| && s.c.data[s.e.cmoIdx] != s.e.sent
  }

  // ----- ports -----

  /** Slot `i` holds the line. */
  predicate Holds(s: World, i: nat, line: nat)
  {
    Shape(s.g, s.c) && i < |s.c.valids| && s.c.valids[i] && Held(s.g, s.c, i) == line
  }

  ghost predicate Absent(s: World, line: nat) { Shape(s.g, s.c) && NotCached(s.g, s.c, line) }

  /** The hit latency: whether the access may go ahead, and the counter afterwards. */
  predicate Ready(port: Port, latency: nat)
  {
    port.missResolved || latency == 0 || (if port.latencyActive then port.delay else 0) + 1 >= latency
  }

  function Waited(port: Port, latency: nat): (port': Port)
  {
    if Ready(port, latency) then port.(latencyActive := false, delay := 0)
    else port.(latencyActive := true, delay := (if port.latencyActive then port.delay else 0) + 1)
  }

  function Delayed(s: Snap, p: nat, latency: nat): (s': Snap)
    requires p < |s.io|
  {
    WithPort(s, p, s.io[p].(port := Waited(s.io[p].port, latency)))
  }

  /** The ways of a set below `way` are all valid. */
  ghost predicate FullBelow(g: Geometry, c: Cache, set_: nat, way: nat)
    requires Shape(g, c)
  {
    forall i: nat | i < |c.valids| && i / g.ways == set_ && i % g.ways < way :: c.valids[i]
  }

  /** The victim of a miss: the first slot of the set that is free, else the round-robin choice. */
  ghost predicate Victim(g: Geometry, c: Cache, ways: seq<nat>, set_: nat, idx: nat, ways': seq<nat>)
    requires Shape(g, c)
  {
    && idx < |c.valids| && idx / g.ways == set_
    && if !c.valids[idx] then
         ways' == ways && FullBelow(g, c, set_, idx % g.ways)
       else
         && FullBelow(g, c, set_, g.ways)
         && set_ < |ways| && idx == set_ * g.ways + ways[set_]
         && ways' == ways[set_ := (ways[set_] + 1) % g.ways]
  }

  ghost predicate MissAt(s: Snap, p: nat, idx: nat, s': Snap)
  {
    && p < |s.io| && Shape(s.w.g, s.w.c)
    && var port, line := s.io[p].port, LineOf(s.io[p].port.addr);
    && Victim(s.w.g, s.w.c, s.ways, line % s.w.g.sets, idx, s'.ways)
    && s' == WithPort(s, p, s.io[p].(port := port.(state := MissWait, missReturn := port.state)))
               .(w := MissStarted(s.w, p, line, idx), ways := s'.ways)
  }

  /** A miss starts the engine exactly when it is idle and no bypass request is outstanding. */
  ghost predicate MissStep(s: Snap, p: nat, s': Snap)
  {
    if s.w.e.state != EIdle || !s.t.Empty() then s' == s else exists idx: nat :: MissAt(s, p, idx, s')
  }

  /** A cached read beat: the requester receives the word of the slot that holds the line of this
      beat of its burst. */
  ghost predicate BeatRead(s: Snap, p: nat, idx: nat, s': Snap)
  {
    && p < |s.io|
    && var x := s.io[p];
    && var ar, l, k := x.port.ar, LineOf(x.port.addr), WordOf(x.port.addr);
    && var last := x.port.beat == ar.len;
    && x.port.state == Read && x.port.beat <= ar.len
    && x.port.addr == BeatAddr(ar.addr, ar.size, ar.burst, x.port.beat)
    && Holds(s.w, idx, l) && k < |s.w.c.data[idx]|
    && var data := s.w.c.data[idx][k];
    && s' == WithPort(s, p, x.(rOut := x.rOut + [R(ar.id, data, last)], port := NextReadBeat(x.port)))
               .(h := s.h + [Load(p, ar.id, l, k, data, last)])
  }

  /** A cached write beat: slot and flat memory change at the strobed bytes of the word at the
      address of this beat of its burst, by the data its master sent for this beat. */
  ghost predicate BeatWritten(s: Snap, p: nat, idx: nat, s': Snap)
  {
    && p < |s.io|
    && var x := s.io[p];
    && var aw, l, k := x.port.aw, LineOf(x.port.addr), WordOf(x.port.addr);
    && var last := x.port.beat == aw.len;
    && x.port.state == Write && x.port.beat <= aw.len && |aw.beats| == aw.len + 1
    && x.wFifo != [] && x.wFifo[0] == aw.beats[x.port.beat]
    && x.port.addr == BeatAddr(aw.addr, aw.size, aw.burst, x.port.beat)
    && Holds(s.w, idx, l) && l < LINES && k < LINE_WORDS && MemoryShape(s.w.flat)
    && var w := x.wFifo[0];
    && s' == WithPort(s, p, x.(wFifo := x.wFifo[1..], port := NextWriteBeat(x.port),
                               bOut := if last then x.bOut + [aw.id] else x.bOut))
               .(w := WordStored(s.w, idx, k, w.data, w.strb), used := true,
                 h := s.h + [Store(p, l, k, w.data, w.strb)] + if last then [Ack(p, aw.id)] else [])
  }

  ghost predicate PortReadStep(s: Snap, cfg: Config, p: nat, full: bool, s': Snap)
    requires p < |s.io|
  {
    if full then s' == s
    else if !Ready(s.io[p].port, cfg.latency) then s' == Delayed(s, p, cfg.latency)
    else if Absent(s.w, LineOf(s.io[p].port.addr)) then MissStep(Delayed(s, p, cfg.latency), p, s')
    else exists idx: nat :: BeatRead(Delayed(s, p, cfg.latency), p, idx, s')
  }

  ghost predicate PortWriteStep(s: Snap, cfg: Config, p: nat, full: bool, s': Snap)
    requires p < |s.io|
  {
    var x := s.io[p];
    if x.wFifo == [] then s' == s
    else if !Ready(x.port, cfg.latency) then s' == Delayed(s, p, cfg.latency)
    else if Absent(s.w, LineOf(x.port.addr)) then MissStep(Delayed(s, p, cfg.latency), p, s')
    else if s.used || (x.port.beat == x.port.aw.len && full) then s' == Delayed(s, p, cfg.latency)
    else exists idx: nat :: BeatWritten(Delayed(s, p, cfg.latency), p, idx, s')
  }

  /** A bypass read is issued as it is, exactly when the engine is idle, the table has room and the
      address channel is free. */
  predicate BypassReadStep(s: Snap, cfg: Config, p: nat, full: bool, s': Snap)
  {
    && p < |s.io| && s.io[p].arFifo != []
    && var x, b, t := s.io[p], s.w.b, s.t;
    if s.w.e.state != EIdle || |t.rd.entries| == cfg.ostDepth || full then s' == s
    else
      s' == WithPort(WithBus(s, b.(ar := b.ar + [BypassAr(p, x.arFifo[0])])), p, x.(arFifo := x.arFifo[1..]))
              .(t := t.(rd := t.rd.(entries := t.rd.entries + [p])))
  }

  predicate BypassWriteStep(s: Snap, cfg: Config, p: nat, full: bool, s': Snap)
  {
    && p < |s.io| && s.io[p].awFifo != []
    && var x, b, t := s.io[p], s.w.b, s.t;
    if s.w.e.state != EIdle || |t.wr.entries| == cfg.ostDepth || full then s' == s
    else
      s' == WithPort(WithBus(s, b.(aw := b.aw + [BypassAw(p, x.awFifo[0])])), p, x.(awFifo := x.awFifo[1..]))
              .(t := t.(wr := t.wr.(entries := t.wr.entries + [WrCtx(p, 0, x.awFifo[0], false)])))
  }

  /** Port `p` has a bypass request outstanding. */
  predicate BypassPending(t: Tables, p: nat) { p in t.LiveRd() || WritePending(t.LiveWr(), p) }

  function CmoTaken(s: Snap, p: nat, wait: bool): (s': Snap)
    requires p < |s.io| && s.io[p].arFifo != []
  {
    var x := s.io[p];
    WithPort(s, p, x.(arFifo := x.arFifo[1..], port := TakeCmo(x.port, x.arFifo[0], wait)))
  }

  /** A cache-block operation on a line that is cached in slot `i`: a clean or flush of a dirty line
      starts a write-back; anything else finishes at once, and an invalidate makes the flat memory
      revert to memory on that line. */
  ghost predicate CmoHit(s: Snap, p: nat, i: nat, s': Snap)
  {
    && p < |s.io| && s.io[p].arFifo != []
    && var ar := s.io[p].arFifo[0];
    && var line := LineOf(ar.addr);
    && Holds(s.w, i, line)
    && if Cleans(ar.user) && s.w.c.dirtys[i] then s' == CmoTaken(s, p, true).(w := CmoStarted(s.w, p, ar.user, i))
       else
         var w := s.w.(c := DropLine(s.w.c, i, Invalidates(ar.user)), e := s.w.e.(owner := p, cmoUser := ar.user, cmoIdx := i));
         if CmoOp(ar.user) == 1 then
           && line < |w.mem| && line < |w.flat|
           && s' == CmoTaken(s, p, false).(w := w.(flat := w.flat[line := w.mem[line]]), h := s.h + [Discard(p, ar.id, line, ar.user, w.mem[line])])
         else line < |w.mem| && s' == CmoTaken(s, p, false).(w := w, h := SaveLog(s, p, ar))
  }

  /** The history when a cache-block operation finishes at once. */
  function SaveLog(s: Snap, p: nat, ar: Ar): (h: seq<Event>)
    requires LineOf(ar.addr) < |s.w.mem|
  {
    if Cleans(ar.user) then s.h + [SavedBy(s, p, ar)] else s.h
  }

  ghost predicate CmoStep(s: Snap, p: nat, s': Snap)
  {
    && p < |s.io| && s.io[p].arFifo != []
    && if s.w.e.state != EIdle || !s.t.Empty() then s' == s
       else if Absent(s.w, LineOf(s.io[p].arFifo[0].addr)) then
         && LineOf(s.io[p].arFifo[0].addr) < |s.w.mem|
         && s' == CmoTaken(s, p, false).(w := s.w.(e := s.w.e.(owner := p, cmoUser := s.io[p].arFifo[0].user)),
                                         h := SaveLog(s, p, s.io[p].arFifo[0]))
       else exists i: nat :: CmoHit(s, p, i, s')
  }

  /** An idle port takes up its oldest write, else its oldest read; a cached one only when it has no
      bypass request outstanding. */
  ghost predicate PortIdleStep(s: Snap, cfg: Config, p: nat, stall: PortStall, s': Snap)
    requires p < |s.io|
  {
    var x := s.io[p];
    if x.awFifo != [] then
      if x.awFifo[0].cache == 0 then BypassWriteStep(s, cfg, p, stall.aw, s')
      else if BypassPending(s.t, p) then s' == s
      else s' == WithPort(s, p, x.(awFifo := x.awFifo[1..], port := TakeWrite(x.port, x.awFifo[0])))
    else if x.arFifo != [] then
      if IsCmo(x.arFifo[0].user) then CmoStep(s, p, s')
      else if x.arFifo[0].cache == 0 then BypassReadStep(s, cfg, p, stall.ar, s')
      else if BypassPending(s.t, p) then s' == s
      else s' == WithPort(s, p, x.(arFifo := x.arFifo[1..], port := TakeRead(x.port, x.arFifo[0])))
    else s' == s
  }

  /** The answer to a cache-block operation. */
  predicate CmoRspStep(s: Snap, p: nat, full: bool, s': Snap)
    requires p < |s.io|
  {
    var x := s.io[p];
    s' == if full then s
          else WithPort(s, p, x.(rOut := x.rOut + [R(x.port.ar.id, ZERO, true)], port := x.port.(state := Idle)))
                 .(h := s.h + [Answer(p, x.port.ar.id, LineOf(x.port.ar.addr), x.port.ar.user)])
  }

  ghost predicate PortStep(s: Snap, cfg: Config, p: nat, stall: PortStall, s': Snap)
  {
    && p < |s.io|
    && match s.io[p].port.state
       case Idle => PortIdleStep(s, cfg, p, stall, s')
       case Read => PortReadStep(s, cfg, p, stall.r, s')
       case Write => PortWriteStep(s, cfg, p, stall.b, s')
       case CmoRsp => CmoRspStep(s, p, stall.r, s')
       case _ => s' == s
  }

  /** One clock, through the states between its parts. */
  ghost predicate ClockPath(s: Snap, cfg: Config, stall: Stall, m: seq<Snap>, s': Snap)
  {
    && |s.io| == 2 && |m| == 10
    && BypassRStep(Staged(s, cfg, stall), stall, m[0]) && BypassWStep(m[0], stall.w, m[1]) && BypassBStep(m[1], stall, m[2])
    && CmoBStep(m[2], m[3]) && WbBStep(m[3], m[4]) && RefillRStep(m[4], m[5])
    && WbWStep(m[5], stall.w, m[6]) && WbAwStep(m[6], stall.aw, m[7]) && RefillArStep(m[7], stall.ar, m[8])
    && PortStep(m[8], cfg, 0, stall.i, m[9]) && PortStep(m[9], cfg, 1, stall.d, s')
  }

  // ----- memory and the requesters -----

  /** Memory stores the next beat of the oldest write it has accepted. */
  ghost predicate MemStoreStep(s: Snap, s': Snap)
  {
    var b := s.w.b;
    if b.aw == [] || b.w == [] then s' == s
    else if s.w.e.state == EIdle then
      && b.aw[0].BypassAw?
      && var aw, w := b.aw[0].aw, b.w[0];
      && var a := BeatAddr(aw.addr, aw.size, aw.burst, b.applied);
      && b.applied <= aw.len && |aw.beats| == aw.len + 1 && w == aw.beats[b.applied]
      && LineOf(a) < LINES && MemoryShape(s.w.mem) && MemoryShape(s.w.flat)
      && s' == s.(w := s.w.(mem := StoreAt(s.w.mem, LineOf(a), WordOf(a), w.data, w.strb),
                            flat := StoreAt(s.w.flat, LineOf(a), WordOf(a), w.data, w.strb), b := Stored1(b)),
                  h := s.h + [Store(b.aw[0].port, LineOf(a), WordOf(a), w.data, w.strb)])
    else
      && MemoryShape(s.w.mem) && s.w.e.wbLine < LINES && b.applied < LINE_WORDS
      && s' == s.(w := LineStored(s.w))
  }

  /** Memory returns the next beat of the oldest read it has accepted. */
  ghost predicate MemServeStep(s: Snap, s': Snap)
  {
    var b := s.w.b;
    if b.ar == [] then s' == s
    else if s.w.e.state == EIdle then
      && b.ar[0].BypassAr?
      && var p, ar := b.ar[0].port, b.ar[0].ar;
      && var a := BeatAddr(ar.addr, ar.size, ar.burst, b.served);
      && b.served <= ar.len && !IsCmo(ar.user)
      && LineOf(a) < |s.w.mem| && WordOf(a) < |s.w.mem[LineOf(a)]|
      && var data := s.w.mem[LineOf(a)][WordOf(a)];
      && s' == WithBus(s, Served1(b, data)).(h := s.h + [Load(p, ar.id, LineOf(a), WordOf(a), data, b.served == ar.len)])
    else
      && s.w.e.missLine < |s.w.mem| && b.served < |s.w.mem[s.w.e.missLine]| && b.ar[0].LineAr?
      && s' == s.(w := LineServed(s.w))
  }

  function Asked(s: Snap, p: nat, ar: Ar): (s': Snap)
    requires p < |s.io|
  {
    WithPort(s, p, s.io[p].(arLink := s.io[p].arLink + [ar], arAsked := s.io[p].arAsked + [ar]))
  }

  function AskedWrite(s: Snap, p: nat, aw: Aw): (s': Snap)
    requires p < |s.io|
  {
    var x := s.io[p];
    WithPort(s, p, x.(awLink := x.awLink + [aw], wLink := x.wLink + aw.beats, awAsked := x.awAsked + [aw]))
  }

  /** Another master stores to memory outside the cacheable lines. */
  ghost predicate OtherStep(s: Snap, line: nat, word: nat, data: Word, strb: Strobe, s': Snap)
  {
    && MemoryShape(s.w.mem) && MemoryShape(s.w.flat) && line < LINES && word < LINE_WORDS
    && s' == s.(w := MemoryWrote(s.w, line, word, data, strb), h := s.h + [Foreign(line, word, data, strb)])
  }

  // ----- runs -----

  /** One step of a run: a clock of the cache, memory working on a write or a read, a new request
      from a port, or a store of another master to memory. */
  datatype Action =
    | Tick(stall: Stall) | MemoryStores | MemoryServes | AskRead(p: nat, ar: Ar) | AskWrite(p: nat, aw: Aw)
    | OtherWrites(line: nat, word: nat, data: Word, strb: Strobe)

  ghost predicate Allowed(a: Action, cacheable: iset<nat>, iReadOnly: bool)
  {
    match a
    case AskRead(p, ar) => p < 2 && WellFormedAr(ar, cacheable) && (iReadOnly && p == 0 ==> !IsCmo(ar.user))
    case AskWrite(p, aw) => p < 2 && WellFormedAw(aw, cacheable) && (iReadOnly && p == 0 ==> aw.cache == 0)
    case OtherWrites(line, word, _, _) => line < LINES && line !in cacheable && word < LINE_WORDS
    case _ => true
  }

  ghost predicate StepOk(s: Snap, cfg: Config, a: Action, s': Snap)
  {
    match a
    case Tick(stall) => exists m: seq<Snap> :: ClockPath(s, cfg, stall, m, s')
    case MemoryStores => MemStoreStep(s, s')
    case MemoryServes => MemServeStep(s, s')
    case AskRead(p, ar) => p < |s.io| && s' == Asked(s, p, ar)
    case AskWrite(p, aw) => p < |s.io| && s' == AskedWrite(s, p, aw)
    case OtherWrites(line, word, data, strb) => OtherStep(s, line, word, data, strb, s')
  }

  /** The requests that a schedule makes at port `p`. */
  function ReadsAsked(schedule: seq<Action>, p: nat): (q: seq<Ar>)
  {
    if schedule == [] then []
    else
      var a := schedule[|schedule| - 1];
      ReadsAsked(schedule[..|schedule| - 1], p) + if a.AskRead? && a.p == p then [a.ar] else []
  }

  function WritesAsked(schedule: seq<Action>, p: nat): (q: seq<Aw>)
  {
    if schedule == [] then []
    else
      var a := schedule[|schedule| - 1];
      WritesAsked(schedule[..|schedule| - 1], p) + if a.AskWrite? && a.p == p then [a.aw] else []
  }

  // ----- facts about steps -----

  lemma NoneBelow(g: Geometry, c: Cache, set_: nat)
    requires Shape(g, c)
    ensures FullBelow(g, c, set_, 0)
  {
  }

  lemma FullNext(g: Geometry, c: Cache, set_: nat, way: nat)
    requires Shape(g, c) && set_ < g.sets && way < g.ways && FullBelow(g, c, set_, way)
    requires set_ * g.ways + way < |c.valids| && c.valids[set_ * g.ways + way]
    ensures FullBelow(g, c, set_, way + 1)
  {
    OnlySlot(|c.valids|, set_, way, g.ways);
  }

  lemma FreeVictim(g: Geometry, c: Cache, ways: seq<nat>, set_: nat, way: nat)
    requires Shape(g, c) && set_ < g.sets && way < g.ways && FullBelow(g, c, set_, way)
    requires set_ * g.ways + way < |c.valids| && !c.valids[set_ * g.ways + way]
    ensures Victim(g, c, ways, set_, set_ * g.ways + way, ways)
  {
    hide FullBelow;
    DivModUnique(set_, way, g.ways);
  }

  lemma RoundVictim(g: Geometry, c: Cache, ways: seq<nat>, set_: nat)
    requires Shape(g, c) && set_ < g.sets && ReplacePart(g, ways) && FullBelow(g, c, set_, g.ways)
    ensures |ways| == g.sets && ways[set_] < g.ways
    ensures var ways' := ways[set_ := (ways[set_] + 1) % g.ways];
            Victim(g, c, ways, set_, set_ * g.ways + ways[set_], ways') && ReplacePart(g, ways')
  {
    hide Victim;
    SlotIndex(g, set_, ways[set_]);
    DivModUnique(set_, ways[set_], g.ways);
    RoundSlot(g, c, ways, set_);
  }

  lemma RoundSlot(g: Geometry, c: Cache, ways: seq<nat>, set_: nat)
    requires Shape(g, c) && set_ < |ways| && FullBelow(g, c, set_, g.ways) && ways[set_] < g.ways
    requires var idx := set_ * g.ways + ways[set_]; idx < |c.valids| && idx / g.ways == set_ && idx % g.ways == ways[set_]
    ensures Victim(g, c, ways, set_, set_ * g.ways + ways[set_], ways[set_ := (ways[set_] + 1) % g.ways])
  {
  }

  lemma VictimInSet(g: Geometry, c: Cache, ways: seq<nat>, set_: nat, idx: nat, ways': seq<nat>)
    requires Shape(g, c) && Victim(g, c, ways, set_, idx, ways')
    ensures idx < |c.valids| && idx / g.ways == set_
  {
  }

  lemma VictimWays(g: Geometry, c: Cache, ways: seq<nat>, set_: nat, idx: nat, ways': seq<nat>)
    requires Shape(g, c) && ReplacePart(g, ways) && Victim(g, c, ways, set_, idx, ways')
    ensures ReplacePart(g, ways')
  {
  }

  /** Capturing packets does not affect a port's obligations. */
  lemma PortCaptures(p: nat, x: PortIo, duty: Duty, live: seq<WrCtx>, cacheable: iset<nat>, readOnly: bool, depth: nat, y: PortStall)
    requires PortPart(p, x, duty, live, cacheable, readOnly)
    ensures PortPart(p, Captured(x, depth, y), duty, live, cacheable, readOnly)
  {
    hide PortOk, RequestsOk, BypassOwed, Payload, CachedOwed;
    var x1 := TakeAr(x, depth, y.noAr);
    assert x1.arFifo + x1.arLink == x.arFifo + x.arLink;
    var x2 := TakeAw(x1, depth, y.noAw);
    assert x2.awFifo + x2.awLink == x1.awFifo + x1.awLink;
    var x3 := TakeW(x2, depth, y.noW);
    assert x3.wFifo + x3.wLink == x2.wFifo + x2.wLink;
  }
}
