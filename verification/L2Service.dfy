/** What a requester of the L2 cache receives: every beat and every response it was handed answers
    its own requests in the order in which it made them, and carries what the history says. */
module L2Service {
  import opened Words
  import OstQueue
  import opened L2Types
  import opened FlatMemory
  import opened L2Coherence
  import opened L2Traffic
  import opened L2Ports
  import opened L2Steps

  // ----- what requests are owed -----

  /** One answer on a read channel: a word of a line, or the end of a cache-block operation. */
  datatype Due = BeatDue(id: nat, line: nat, word: nat, last: bool) | OpDue(id: nat, line: nat, user: bv32)

  function BeatAt(ar: Ar, k: nat): (d: Due)
  {
    var a := BeatAddr(ar.addr, ar.size, ar.burst, k);
    BeatDue(ar.id, LineOf(a), WordOf(a), k == ar.len)
  }

  /** The beats of a read from beat `k` on. */
  function BeatsFrom(ar: Ar, k: nat): (ds: seq<Due>)
    decreases ar.len + 1 - k
  {
    if k > ar.len then [] else [BeatAt(ar, k)] + BeatsFrom(ar, k + 1)
  }

  function OpOf(ar: Ar): (d: Due) { OpDue(ar.id, LineOf(ar.addr), ar.user) }

  function DuesOf(ar: Ar): (ds: seq<Due>) { if IsCmo(ar.user) then [OpOf(ar)] else BeatsFrom(ar, 0) }

  /** Everything a list of reads is owed, in order. */
  function ReadDues(q: seq<Ar>): (ds: seq<Due>)
  {
    if q == [] then [] else DuesOf(q[0]) + ReadDues(q[1..])
  }

  /** One effect of a write: a store of the memory, or the response to the requester. */
  datatype Effect = Put(line: nat, word: nat, data: Word, strb: Strobe) | Resp(id: nat)

  function PutAt(aw: Aw, k: nat): (f: Effect)
    requires k < |aw.beats|
  {
    var a := BeatAddr(aw.addr, aw.size, aw.burst, k);
    Put(LineOf(a), WordOf(a), aw.beats[k].data, aw.beats[k].strb)
  }

  /** The stores of a write from beat `k` on, and then its response. */
  function EffectsFrom(aw: Aw, k: nat): (fs: seq<Effect>)
    decreases |aw.beats| - k
  {
    if k >= |aw.beats| then [Resp(aw.id)] else [PutAt(aw, k)] + EffectsFrom(aw, k + 1)
  }

  function WriteDues(q: seq<Aw>): (fs: seq<Effect>)
  {
    if q == [] then [] else EffectsFrom(q[0], 0) + WriteDues(q[1..])
  }

  // ----- what has been served -----

  function DueOf(ev: Event, p: nat): (ds: seq<Due>)
  {
    match ev
    case Load(q, id, line, word, _, last) => if q == p then [BeatDue(id, line, word, last)] else []
    case Answer(q, id, line, user) => if q == p then [OpDue(id, line, user)] else []
    case _ => []
  }

  function BeatOf(ev: Event, p: nat): (rs: seq<R>)
  {
    match ev
    case Load(q, id, _, _, data, last) => if q == p then [R(id, data, last)] else []
    case Answer(q, id, _, _) => if q == p then [R(id, ZERO, true)] else []
    case _ => []
  }

  function EffectOf(ev: Event, p: nat): (fs: seq<Effect>)
  {
    match ev
    case Store(q, line, word, data, strb) => if q == p then [Put(line, word, data, strb)] else []
    case Ack(q, id) => if q == p then [Resp(id)] else []
    case _ => []
  }

  function IdOf(ev: Event, p: nat): (ids: seq<nat>)
  {
    if ev.Ack? && ev.port == p then [ev.id] else []
  }

  /** The reads of port `p` that a history serves, and the beats that answer them. */
  function ReadLog(h: seq<Event>, p: nat): (ds: seq<Due>)
  {
    if h == [] then [] else ReadLog(h[..|h| - 1], p) + DueOf(h[|h| - 1], p)
  }

  function ReadBeats(h: seq<Event>, p: nat): (rs: seq<R>)
    ensures |rs| == |ReadLog(h, p)|
  {
    if h == [] then [] else ReadBeats(h[..|h| - 1], p) + BeatOf(h[|h| - 1], p)
  }

  /** The effects of port `p`'s writes in a history, and the responses among them. */
  function WriteLog(h: seq<Event>, p: nat): (fs: seq<Effect>)
  {
    if h == [] then [] else WriteLog(h[..|h| - 1], p) + EffectOf(h[|h| - 1], p)
  }

  function Acks(h: seq<Event>, p: nat): (ids: seq<nat>)
  {
    if h == [] then [] else Acks(h[..|h| - 1], p) + IdOf(h[|h| - 1], p)
  }

  lemma LogAppend(h: seq<Event>, ev: Event, p: nat)
    ensures ReadLog(h + [ev], p) == ReadLog(h, p) + DueOf(ev, p)
    ensures ReadBeats(h + [ev], p) == ReadBeats(h, p) + BeatOf(ev, p)
    ensures WriteLog(h + [ev], p) == WriteLog(h, p) + EffectOf(ev, p)
    ensures Acks(h + [ev], p) == Acks(h, p) + IdOf(ev, p)
  {
    assert (h + [ev])[..|h|] == h;
  }

  /** Since the last answer to a read of port `p`, memory has been found to hold the line that the
      operation `d` of the port cleans. */
  ghost predicate SavedFor(h: seq<Event>, p: nat, d: Due)
  {
    h != [] &&
    (var ev := h[|h| - 1];
     if ev.Saved? && ev.port == p then d == OpDue(ev.id, ev.line, ev.user)
     else DueOf(ev, p) == [] && SavedFor(h[..|h| - 1], p, d))
  }

  predicate AnswersClean(ev: Event, p: nat) { ev.Answer? && ev.port == p && Cleans(ev.user) }

  /** Every clean or flush of port `p` was answered after memory had been found to hold its line. */
  ghost predicate AnswersSaved(h: seq<Event>, p: nat)
  {
    forall j | 0 <= j < |h| && AnswersClean(h[j], p) :: SavedFor(h[..j], p, OpDue(h[j].id, h[j].line, h[j].user))
  }

  lemma SavedMore(h: seq<Event>, ev: Event, p: nat, d: Due)
    requires SavedFor(h, p, d) && DueOf(ev, p) == [] && !(ev.Saved? && ev.port == p)
    ensures SavedFor(h + [ev], p, d)
  {
    assert (h + [ev])[..|h|] == h;
  }

  lemma SavedNow(h: seq<Event>, ev: Event)
    requires ev.Saved?
    ensures SavedFor(h + [ev], ev.port, OpDue(ev.id, ev.line, ev.user))
  {
  }

  lemma AnswersMore(h: seq<Event>, ev: Event, p: nat)
    requires AnswersSaved(h, p) && (AnswersClean(ev, p) ==> SavedFor(h, p, OpDue(ev.id, ev.line, ev.user)))
    ensures AnswersSaved(h + [ev], p)
  {
    hide SavedFor;
    var h' := h + [ev];
    forall j | 0 <= j < |h'| && AnswersClean(h'[j], p)
      ensures SavedFor(h'[..j], p, OpDue(h'[j].id, h'[j].line, h'[j].user))
    {
      if j < |h| {
        assert h'[..j] == h[..j] && h'[j] == h[j];
      } else {
        assert h'[..j] == h;
      }
    }
  }

  /** Where a cleaned line was found in memory: after the port's previous answer, and with what the
      requesters saw at that moment. */
  lemma {:induction false} SavedWhere(h: seq<Event>, p: nat, d: Due) returns (i: nat)
    requires SavedFor(h, p, d)
    ensures i < |h| && h[i].Saved? && h[i].port == p && d == OpDue(h[i].id, h[i].line, h[i].user)
    ensures forall j | i < j < |h| :: DueOf(h[j], p) == []
  {
    i := |h| - 1;
    if !(h[i].Saved? && h[i].port == p) {
      i := SavedWhere(h[..i], p, d);
    }
  }

  // ----- what is on its way -----

  /** The reads of port `p` that memory has accepted and not yet served. */
  function Accepted(ar: seq<MemAr>, served: nat, p: nat): (ds: seq<Due>)
  {
    if ar == [] then []
    else (if ar[0].BypassAr? && ar[0].port == p then BeatsFrom(ar[0].ar, served) else []) + Accepted(ar[1..], 0, p)
  }

  /** The beats for port `p` that memory has returned and the cache has not yet forwarded. */
  function Returned(r: seq<MemR>, p: nat): (rs: seq<R>)
  {
    if r == [] then []
    else (if r[0].src == ForPort(p) then [R(r[0].id, r[0].data, r[0].last)] else []) + Returned(r[1..], p)
  }

  /** What the request a port is working on is still owed. */
  function JobDues(port: Port): (ds: seq<Due>)
  {
    if Reading(port) then BeatsFrom(port.ar, port.beat)
    else if port.state == CmoWait || port.state == CmoRsp then [OpOf(port.ar)]
    else []
  }

  function JobEffects(port: Port): (fs: seq<Effect>)
  {
    if Writing(port) then EffectsFrom(port.aw, port.beat) else []
  }

  /** Beats of the oldest outstanding bypass write that memory has stored. */
  function StoredBeats(b: Bus, live: seq<WrCtx>): (n: nat)
  {
    if live == [] then 0 else if b.b != [] then |live[0].aw.beats| else b.applied
  }

  /** What the outstanding bypass writes of port `p` have still to do, `stored` beats of the oldest
      write being in memory. */
  function Outstanding(live: seq<WrCtx>, stored: nat, p: nat): (fs: seq<Effect>)
  {
    if live == [] then []
    else (if live[0].port == p then EffectsFrom(live[0].aw, stored) else []) + Outstanding(live[1..], 0, p)
  }

  // ----- the service invariant -----

  /** Everything asked on the read channel is served, or on its way in the order of asking; and what
      has been served has been handed over, or is on its way in that order. */
  ghost predicate ReadService(p: nat, x: PortIo, b: Bus, h: seq<Event>)
  {
    && x.rOut + Returned(b.r, p) == ReadBeats(h, p)
    && ReadDues(x.arAsked) == ReadLog(h, p) + Accepted(b.ar, b.served, p) + JobDues(x.port) + ReadDues(x.arFifo + x.arLink)
  }

  /** The same for writes: the stores and responses of a port happen in the order of its writes, a
      response after all stores of its write. */
  ghost predicate WriteService(p: nat, x: PortIo, b: Bus, live: seq<WrCtx>, h: seq<Event>)
  {
    && x.bOut == Acks(h, p)
    && WriteDues(x.awAsked) ==
         WriteLog(h, p) + Outstanding(live, StoredBeats(b, live), p) + JobEffects(x.port) + WriteDues(x.awFifo + x.awLink)
  }

  /** A clean or flush is only answered when memory has held its line. */
  ghost predicate CleanService(p: nat, x: PortIo, h: seq<Event>)
  {
    AnswersSaved(h, p) && (x.port.state == CmoRsp && Cleans(x.port.ar.user) ==> SavedFor(h, p, OpOf(x.port.ar)))
  }

  /** A port that works on a request has no bypass read outstanding. */
  ghost predicate PortService(p: nat, x: PortIo, b: Bus, t: Tables, h: seq<Event>)
  {
    var ok :=
    && ReadService(p, x, b, h) && WriteService(p, x, b, t.LiveWr(), h) && CleanService(p, x, h)
    && (x.port.state != Idle ==> p !in t.LiveRd());
    ok
  }

  ghost predicate Service(s: Snap)
  {
    var ok := |s.io| == 2 && PortService(0, s.io[0], s.w.b, s.t, s.h) && PortService(1, s.io[1], s.w.b, s.t, s.h);
    ok
  }

  /** The line that an invalidate dropped is one that its port asked to invalidate. */
  ghost predicate DropAsked(ev: Event, io: seq<PortIo>)
    requires ev.Discard?
  {
    ev.port < |io| && CmoOp(ev.user) == 1 && OpDue(ev.id, ev.line, ev.user) in ReadDues(io[ev.port].arAsked)
  }

  ghost predicate DropsAsked(s: Snap)
  {
    forall j | 0 <= j < |s.h| && s.h[j].Discard? :: DropAsked(s.h[j], s.io)
  }

  /** A line reported as saved is the one that memory holds. */
  ghost predicate SavesMemory(s: Snap, s': Snap)
  {
    forall j | |s.h| <= j < |s'.h| && s'.h[j].Saved? :: s'.h[j].line < |s.w.mem| && s'.h[j].words == s.w.mem[s'.h[j].line]
  }

  /** What never changes or only grows; lines are dropped only on request. */
  ghost predicate Follows(s: Snap, s': Snap)
  {
    var ok :=
    && |s.io| == |s'.io| && s.h <= s'.h
    && (forall p: nat | p < |s.io| ::
         && s'.io[p].arAsked == s.io[p].arAsked && s'.io[p].awAsked == s.io[p].awAsked
         && s.io[p].rOut <= s'.io[p].rOut && s.io[p].bOut <= s'.io[p].bOut)
    && (forall j | |s.h| <= j < |s'.h| && s'.h[j].Discard? :: DropAsked(s'.h[j], s'.io))
    && SavesMemory(s, s');
    ok
  }

  lemma FollowsTrans(s: Snap, m: Snap, s': Snap)
    requires Follows(s, m) && Follows(m, s') && m.w.mem == s.w.mem
    ensures Follows(s, s')
  {
    hide ReadDues;
    forall j | |s.h| <= j < |s'.h| && s'.h[j].Discard?
      ensures DropAsked(s'.h[j], s'.io)
    {
      if j < |m.h| {
        assert s'.h[j] == m.h[j] && DropAsked(m.h[j], m.io);
      }
    }
  }

  lemma FollowsDrops(s: Snap, s': Snap)
    requires Follows(s, s') && DropsAsked(s)
    ensures DropsAsked(s')
  {
    hide ReadDues;
    forall j | 0 <= j < |s'.h| && s'.h[j].Discard?
      ensures DropAsked(s'.h[j], s'.io)
    {
      if j < |s.h| {
        assert s'.h[j] == s.h[j] && DropAsked(s.h[j], s.io);
      }
    }
  }

  // ----- every step keeps the service -----

  /** The part of the state that the service of port `p` looks at. */
  ghost predicate SameFlow(p: nat, b: Bus, t: Tables, b': Bus, t': Tables)
  {
    && Returned(b'.r, p) == Returned(b.r, p) && Accepted(b'.ar, b'.served, p) == Accepted(b.ar, b.served, p)
    && Outstanding(t'.LiveWr(), StoredBeats(b', t'.LiveWr()), p) == Outstanding(t.LiveWr(), StoredBeats(b, t.LiveWr()), p)
    && (p in t'.LiveRd() ==> p in t.LiveRd())
  }

  ghost predicate SamePort(x: PortIo, x': PortIo)
  {
    && x'.arAsked == x.arAsked && x'.awAsked == x.awAsked && x'.rOut == x.rOut && x'.bOut == x.bOut
    && x'.arFifo + x'.arLink == x.arFifo + x.arLink && x'.awFifo + x'.awLink == x.awFifo + x.awLink
    && JobDues(x'.port) == JobDues(x.port) && JobEffects(x'.port) == JobEffects(x.port)
    && (x.port.state == Idle ==> x'.port.state == Idle)
    && (x'.port.state == CmoRsp ==> x.port.state == CmoRsp && x'.port.ar == x.port.ar)
  }

  lemma PortKept(p: nat, x: PortIo, b: Bus, t: Tables, x': PortIo, b': Bus, t': Tables, h: seq<Event>)
    requires PortService(p, x, b, t, h) && SamePort(x, x') && SameFlow(p, b, t, b', t')
    ensures PortService(p, x', b', t', h)
  {
    hide JobDues, JobEffects, ReadDues, WriteDues, ReadLog, WriteLog, Accepted, Outstanding, Returned, StoredBeats, SavedFor, AnswersSaved;
  }

  /** Steps that serve nothing. */
  lemma Kept(s: Snap, s': Snap)
    requires Service(s) && |s'.io| == 2 && s'.h == s.h
    requires SamePort(s.io[0], s'.io[0]) && SamePort(s.io[1], s'.io[1])
    requires SameFlow(0, s.w.b, s.t, s'.w.b, s'.t) && SameFlow(1, s.w.b, s.t, s'.w.b, s'.t)
    ensures Service(s') && Follows(s, s')
  {
    hide PortService, SameFlow;
    PortKept(0, s.io[0], s.w.b, s.t, s'.io[0], s'.w.b, s'.t, s.h);
    PortKept(1, s.io[1], s.w.b, s.t, s'.io[1], s'.w.b, s'.t, s.h);
  }

  lemma SameFlowRefl(p: nat, b: Bus, t: Tables)
    ensures SameFlow(p, b, t, b, t)
  {
  }

  /** With no bypass write outstanding, the write side of the bus belongs to the engine. */
  lemma EngineFlow(p: nat, b: Bus, b': Bus, t: Tables)
    requires t.Empty() && Returned(b'.r, p) == Returned(b.r, p)
    requires Accepted(b'.ar, b'.served, p) == Accepted(b.ar, b.served, p)
    ensures SameFlow(p, b, t, b', t)
  {
  }

  lemma CapturedSame(x: PortIo, depth: nat, y: PortStall)
    ensures SamePort(x, Captured(x, depth, y))
  {
    hide JobDues, JobEffects;
    var x1 := TakeAr(x, depth, y.noAr);
    assert x1.arFifo + x1.arLink == x.arFifo + x.arLink;
    var x2 := TakeAw(x1, depth, y.noAw);
    assert x2.awFifo + x2.awLink == x1.awFifo + x1.awLink;
  }

  lemma StagedKeeps(s: Snap, cfg: Config, stall: Stall)
    requires Service(s) && (s.t.rd.freed ==> s.t.rd.entries != []) && (s.t.wr.freed ==> s.t.wr.entries != [])
    ensures Service(Staged(s, cfg, stall)) && Follows(s, Staged(s, cfg, stall))
  {
    hide SamePort, PortService, Captured;
    var s' := Staged(s, cfg, stall);
    CapturedSame(s.io[0], cfg.stgDepth, stall.i);
    CapturedSame(s.io[1], cfg.stgDepth, stall.d);
    ClockKeepsLive(s.t.rd);
    ClockKeepsLive(s.t.wr);
    Kept(s, s');
  }

  // ----- bypass traffic -----

  lemma ReturnedStep(r: seq<MemR>, p: nat)
    requires r != []
    ensures Returned(r, p) == (if r[0].src == ForPort(p) then [R(r[0].id, r[0].data, r[0].last)] else []) + Returned(r[1..], p)
  {
  }

  lemma BypassRPort(p: nat, s: Snap, stall: Stall, s': Snap)
    requires p < 2 && |s.io| == 2 && PortService(p, s.io[p], s.w.b, s.t, s.h) && BypassRStep(s, stall, s')
    ensures |s'.io| == 2 && PortService(p, s'.io[p], s'.w.b, s'.t, s'.h)
  {
    hide JobDues, JobEffects, ReadDues, WriteDues, ReadLog, WriteLog, Accepted, Outstanding, Returned;
    if s' != s {
      var r, q := s.w.b.r[0], s.t.rd.entries[0];
      ReturnedStep(s.w.b.r, p);
      if p == q {
        assert s.io[p].rOut + ([R(r.id, r.data, r.last)] + Returned(s.w.b.r[1..], p)) == s'.io[p].rOut + Returned(s.w.b.r[1..], p);
      } else {
        assert [] + Returned(s.w.b.r[1..], p) == Returned(s.w.b.r[1..], p);
      }
    }
  }

  lemma BypassRKeeps(s: Snap, stall: Stall, s': Snap)
    requires Service(s) && BypassRStep(s, stall, s')
    ensures Service(s') && Follows(s, s')
  {
    hide PortService;
    BypassRPort(0, s, stall, s');
    BypassRPort(1, s, stall, s');
  }

  /** Sending data beats does not change what a write has still to do. */
  lemma SameOutstanding(live: seq<WrCtx>, x: WrCtx, stored: nat, p: nat)
    requires live != [] && x.port == live[0].port && x.aw == live[0].aw
    ensures Outstanding(live[0 := x], stored, p) == Outstanding(live, stored, p)
  {
    assert live[0 := x][1..] == live[1..];
  }

  lemma BypassWKeeps(s: Snap, full: bool, s': Snap)
    requires Service(s) && BypassWStep(s, full, s')
    ensures Service(s') && Follows(s, s')
  {
    hide PortService, JobDues, JobEffects, Outstanding, Accepted, Returned;
    if s' != s {
      var x := s.t.wr.entries[0];
      var x' := s'.t.wr.entries[0];
      SameOutstanding(s.t.LiveWr(), x', StoredBeats(s.w.b, s.t.LiveWr()), 0);
      SameOutstanding(s.t.LiveWr(), x', StoredBeats(s.w.b, s.t.LiveWr()), 1);
    }
    Kept(s, s');
  }

  lemma BypassBPort(p: nat, s: Snap, stall: Stall, s': Snap)
    requires p < 2 && |s.io| == 2 && PortService(p, s.io[p], s.w.b, s.t, s.h) && BypassBStep(s, stall, s')
    ensures |s'.io| == 2 && PortService(p, s'.io[p], s'.w.b, s'.t, s'.h)
  {
    hide JobDues, JobEffects, ReadDues, WriteDues, ReadLog, ReadBeats, WriteLog, Acks, Accepted, Returned, CleanService;
    if s' != s {
      var x := s.t.wr.entries[0];
      LogAppend(s.h, Ack(x.port, x.aw.id), p);
      CleanKept(p, s.io[p], s'.io[p], s.h, Ack(x.port, x.aw.id));
      var live := s.t.LiveWr();
      assert s'.t.LiveWr() == live[1..];
      assert EffectsFrom(x.aw, |x.aw.beats|) == [Resp(x.aw.id)];
      if p == x.port {
        Shift(WriteLog(s.h, p), [Resp(x.aw.id)], Outstanding(live[1..], 0, p));
      } else {
        assert Outstanding(live, |x.aw.beats|, p) == Outstanding(live[1..], 0, p);
        assert WriteLog(s'.h, p) == WriteLog(s.h, p) && ReadLog(s'.h, p) == ReadLog(s.h, p);
      }
      assert ReadLog(s'.h, p) == ReadLog(s.h, p) && ReadBeats(s'.h, p) == ReadBeats(s.h, p);
    }
  }

  /** Events that are no answer to the port's reads leave its cleans alone. */
  lemma CleanKept(p: nat, x: PortIo, x': PortIo, h: seq<Event>, ev: Event)
    requires CleanService(p, x, h) && DueOf(ev, p) == [] && !(ev.Saved? && ev.port == p)
    requires x'.port.state == CmoRsp ==> x.port.state == CmoRsp && x'.port.ar == x.port.ar
    ensures CleanService(p, x', h + [ev])
  {
    hide SavedFor, AnswersSaved;
    AnswersMore(h, ev, p);
    if x'.port.state == CmoRsp && Cleans(x'.port.ar.user) {
      SavedMore(h, ev, p, OpOf(x.port.ar));
    }
  }

  /** What comes next moves from the pending side to the log. */
  lemma Shift<T>(log: seq<T>, next: seq<T>, rest: seq<T>)
    ensures log + (next + rest) == (log + next) + rest
  {
  }

  lemma BypassBKeeps(s: Snap, stall: Stall, s': Snap)
    requires Service(s) && BypassBStep(s, stall, s')
    ensures Service(s') && Follows(s, s')
  {
    hide PortService;
    BypassBPort(0, s, stall, s');
    BypassBPort(1, s, stall, s');
  }

  // ----- the engine -----

  /** Requests of the engine are no port's. */
  lemma {:induction false} AcceptedLine(ar: seq<MemAr>, served: nat, line: nat, p: nat)
    ensures Accepted(ar + [LineAr(line)], served, p) == Accepted(ar, served, p)
  {
    if ar == [] {
      assert ar + [LineAr(line)] == [LineAr(line)];
      assert [LineAr(line)][1..] == [];
    } else {
      AcceptedLine(ar[1..], 0, line, p);
      assert (ar + [LineAr(line)])[1..] == ar[1..] + [LineAr(line)];
    }
  }

  /** A step of the engine that leaves the read side of the bus alone. */
  lemma EngineKeeps(s: Snap, s': Snap)
    requires Service(s) && s.t.Empty() && s' == s.(w := s'.w)
    requires s'.w.b.r == s.w.b.r && s'.w.b.ar == s.w.b.ar && s'.w.b.served == s.w.b.served
    ensures Service(s') && Follows(s, s')
  {
    hide PortService, SameFlow;
    EngineFlow(0, s.w.b, s'.w.b, s.t);
    EngineFlow(1, s.w.b, s'.w.b, s.t);
    Kept(s, s');
  }

  lemma WbKeeps(s: Snap, full: bool, s': Snap)
    requires Service(s) && (s.w.e.state != EIdle ==> s.t.Empty())
    requires WbAwStep(s, full, s') || WbWStep(s, full, s') || WbBStep(s, s')
    ensures Service(s') && Follows(s, s')
  {
    hide PortService, Service;
    if s' != s {
      EngineKeeps(s, s');
    } else {
      Unchanged(s);
    }
  }

  lemma Unchanged(s: Snap)
    ensures Follows(s, s)
  {
  }

  lemma RefillArKeeps(s: Snap, full: bool, s': Snap)
    requires Service(s) && (s.w.e.state != EIdle ==> s.t.Empty()) && RefillArStep(s, full, s')
    ensures Service(s') && Follows(s, s')
  {
    hide PortService, SameFlow, Accepted, Returned;
    if s' != s {
      AcceptedLine(s.w.b.ar, s.w.b.served, s.w.e.missLine, 0);
      AcceptedLine(s.w.b.ar, s.w.b.served, s.w.e.missLine, 1);
      EngineFlow(0, s.w.b, s'.w.b, s.t);
      EngineFlow(1, s.w.b, s'.w.b, s.t);
      Kept(s, s');
    }
  }

  lemma RefillRKeeps(s: Snap, s': Snap)
    requires Service(s) && (s.w.e.state != EIdle ==> s.t.Empty()) && RefillRStep(s, s')
    ensures Service(s') && Follows(s, s')
  {
    hide PortService, SameFlow, Accepted, Returned, RefillWord, Install;
    if s' != s {
      ReturnedStep(s.w.b.r, 0);
      ReturnedStep(s.w.b.r, 1);
      assert s'.w.b == s.w.b.(r := s.w.b.r[1..]);
      EngineFlow(0, s.w.b, s'.w.b, s.t);
      EngineFlow(1, s.w.b, s'.w.b, s.t);
      Kept(s, s');
    }
  }

  lemma CmoBKeeps(s: Snap, s': Snap)
    requires Service(s) && (s.w.e.state != EIdle ==> s.t.Empty()) && CmoBStep(s, s')
    ensures Service(s') && Follows(s, s')
  {
    hide PortService, SameFlow, Accepted, Returned, DropLine, SavedBy;
    if s' != s {
      var p := s.w.e.owner;
      var ev := SavedBy(s, p, s.io[p].port.ar);
      EngineFlow(0, s.w.b, s'.w.b, s.t);
      EngineFlow(1, s.w.b, s'.w.b, s.t);
      SavedIs(s, p, s.io[p].port.ar);
      CmoBPort(p, s.io[p], s.w.b, s.t, s'.w.b, s.h, ev);
      PortKept(1 - p, s.io[1 - p], s.w.b, s.t, s.io[1 - p], s'.w.b, s.t, s.h);
      OtherReads(1 - p, s.io[1 - p], s'.w.b, s.t, s.h, ev);
    }
  }

  lemma SavedIs(s: Snap, p: nat, ar: Ar)
    requires LineOf(ar.addr) < |s.w.mem|
    ensures var ev := SavedBy(s, p, ar);
            ev.Saved? && ev.port == p && OpDue(ev.id, ev.line, ev.user) == OpOf(ar) && ev.line < |s.w.mem| && ev.words == s.w.mem[ev.line]
  {
  }

  /** The port whose clean or flush has reached memory. */
  lemma CmoBPort(p: nat, x: PortIo, b: Bus, t: Tables, b': Bus, h: seq<Event>, ev: Event)
    requires PortService(p, x, b, t, h) && x.port.state == CmoWait && SameFlow(p, b, t, b', t)
    requires ev.Saved? && ev.port == p && OpDue(ev.id, ev.line, ev.user) == OpOf(x.port.ar)
    ensures PortService(p, x.(port := x.port.(state := CmoRsp)), b', t, h + [ev])
  {
    hide ReadDues, WriteDues, ReadLog, ReadBeats, WriteLog, Acks, Accepted, Returned, Outstanding, StoredBeats, SavedFor, AnswersSaved;
    LogAppend(h, ev, p);
    LogsSame(h, ev, p);
    AnswersMore(h, ev, p);
    SavedNow(h, ev);
    var x' := x.(port := x.port.(state := CmoRsp));
    assert JobDues(x'.port) == JobDues(x.port) && JobEffects(x'.port) == JobEffects(x.port);
  }

  /** An event that serves nothing of the port. */
  lemma LogsSame(h: seq<Event>, ev: Event, p: nat)
    requires DueOf(ev, p) == [] && BeatOf(ev, p) == [] && EffectOf(ev, p) == [] && IdOf(ev, p) == []
    ensures ReadLog(h + [ev], p) == ReadLog(h, p) && ReadBeats(h + [ev], p) == ReadBeats(h, p)
    ensures WriteLog(h + [ev], p) == WriteLog(h, p) && Acks(h + [ev], p) == Acks(h, p)
  {
    hide ReadLog, ReadBeats, WriteLog, Acks;
    LogAppend(h, ev, p);
  }

  // ----- ports -----

  lemma DelayedKeeps(s: Snap, p: nat, latency: nat)
    requires Service(s) && p < 2
    ensures Service(Delayed(s, p, latency)) && Follows(s, Delayed(s, p, latency))
  {
    hide PortService, SameFlow;
    SameFlowRefl(0, s.w.b, s.t);
    SameFlowRefl(1, s.w.b, s.t);
    Kept(s, Delayed(s, p, latency));
  }

  lemma MissKeeps(s: Snap, p: nat, s': Snap)
    requires Service(s) && p < 2 && |s.io| == 2 && (s.io[p].port.state == Read || s.io[p].port.state == Write)
    requires MissStep(s, p, s')
    ensures Service(s') && Follows(s, s')
  {
    hide PortService, SameFlow, MissStarted, JobDues, JobEffects, Follows, Service;
    if s' == s {
      Unchanged(s);
    } else {
      var idx: nat :| MissAt(s, p, idx, s');
      WaitingSame(s.io[p]);
      MissBus(s.w, p, LineOf(s.io[p].port.addr), idx);
      SameFlowRefl(0, s.w.b, s.t);
      SameFlowRefl(1, s.w.b, s.t);
      Kept(s, s');
    }
  }

  lemma WaitingSame(x: PortIo)
    requires x.port.state == Read || x.port.state == Write
    ensures SamePort(x, x.(port := x.port.(state := MissWait, missReturn := x.port.state)))
  {
  }

  lemma MissBus(w: World, owner: nat, line: nat, idx: nat)
    requires w.g.sets > 0 && w.g.ways > 0 && idx < |w.c.tags| && idx < |w.c.valids| && idx < |w.c.dirtys|
    ensures MissStarted(w, owner, line, idx).b == w.b
  {
  }

  /** Nothing is on its way to port `p`. */
  ghost predicate NoFlight(b: Bus, p: nat) { Returned(b.r, p) == [] && Accepted(b.ar, b.served, p) == [] }

  /** A port without an outstanding bypass read has nothing on its way: with the engine idle because
      every beat on the bus belongs to an outstanding read, otherwise because the bus is the engine's. */
  lemma NothingComes(s: World, liveRd: seq<nat>, liveWr: seq<WrCtx>, p: nat)
    requires Inv(s) && RoutePart(s.e.state == EIdle, s.b, liveRd, liveWr, s.cacheable) && p !in liveRd
    ensures NoFlight(s.b, p)
  {
    hide Coherent, WriteRoute;
    if s.e.state == EIdle {
      RoutedElsewhere(s.b.r, s.b.ar, liveRd, p);
      AcceptedElsewhere(s.b.ar, s.b.served, p);
    } else {
      EngineOnly(s);
      ReturnedToEngine(s.b.r, p);
      AcceptedElsewhere(s.b.ar, s.b.served, p);
    }
  }

  lemma EngineOnly(s: World)
    requires Inv(s) && s.e.state != EIdle
    ensures forall i | 0 <= i < |s.b.r| :: s.b.r[i].src == ForEngine
    ensures forall i | 0 <= i < |s.b.ar| :: s.b.ar[i].LineAr?
    ensures forall i | 0 <= i < |s.b.b| :: s.b.b[i] == ForEngine
  {
    hide Coherent;
  }

  lemma {:induction false} RoutedElsewhere(r: seq<MemR>, ar: seq<MemAr>, live: seq<nat>, p: nat)
    requires ReadRoute(r, ar, live) && p !in live
    ensures Returned(r, p) == []
    ensures forall i | 0 <= i < |ar| :: !(ar[i].BypassAr? && ar[i].port == p)
    decreases |r|
  {
    if r != [] {
      RoutedElsewhere(r[1..], ar, if r[0].last then live[1..] else live, p);
    }
  }

  lemma {:induction false} AcceptedElsewhere(ar: seq<MemAr>, served: nat, p: nat)
    requires forall i | 0 <= i < |ar| :: !(ar[i].BypassAr? && ar[i].port == p)
    ensures Accepted(ar, served, p) == []
  {
    if ar != [] {
      AcceptedElsewhere(ar[1..], 0, p);
    }
  }

  lemma {:induction false} ReturnedToEngine(r: seq<MemR>, p: nat)
    requires forall i | 0 <= i < |r| :: r[i].src == ForEngine
    ensures Returned(r, p) == []
  {
    if r != [] {
      ReturnedToEngine(r[1..], p);
    }
  }

  lemma {:induction false} NoneOutstanding(live: seq<WrCtx>, stored: nat, p: nat)
    requires !WritePending(live, p)
    ensures Outstanding(live, stored, p) == []
  {
    if live != [] {
      assert live[0].port != p;
      forall i | 0 <= i < |live[1..]|
        ensures live[1..][i].port != p
      {
        assert live[i + 1].port != p;
      }
      NoneOutstanding(live[1..], 0, p);
    }
  }

  /** The log and what is pending when the next answer comes from the port itself. */
  lemma FrontServed<T>(log: seq<T>, next: T, rest: seq<T>, tail: seq<T>)
    ensures log + [] + ([next] + rest) + tail == (log + [next]) + [] + rest + tail
  {
  }

  /** One beat of a read in progress. */
  lemma JobBeat(port: Port)
    requires port.state == Read && port.beat <= port.ar.len
    ensures JobDues(port) == [BeatAt(port.ar, port.beat)] + JobDues(NextReadBeat(port))
    ensures JobEffects(port) == [] && JobEffects(NextReadBeat(port)) == []
  {
    assert JobDues(port) == [BeatAt(port.ar, port.beat)] + BeatsFrom(port.ar, port.beat + 1);
  }

  lemma BeatReadKeeps(s: Snap, p: nat, idx: nat, s': Snap)
    requires Service(s) && p < 2 && BeatRead(s, p, idx, s') && NoFlight(s.w.b, p)
    ensures Service(s') && Follows(s, s')
  {
    hide PortService;
    BeatReadPort(s, p, idx, s');
    OtherReads(1 - p, s.io[1 - p], s.w.b, s.t, s.h, s'.h[|s.h|]);
  }

  lemma BeatReadPort(s: Snap, p: nat, idx: nat, s': Snap)
    requires p < 2 && |s.io| == 2 && PortService(p, s.io[p], s.w.b, s.t, s.h) && BeatRead(s, p, idx, s') && NoFlight(s.w.b, p)
    ensures PortService(p, s'.io[p], s'.w.b, s'.t, s'.h)
  {
    hide JobDues, JobEffects, ReadDues, WriteDues, ReadLog, ReadBeats, WriteLog, Acks, Accepted, Returned, Outstanding,
      NextReadBeat, StoredBeats, SavedFor, AnswersSaved;
    LogAppend(s.h, s'.h[|s.h|], p);
    AnswersMore(s.h, s'.h[|s.h|], p);
    JobBeat(s.io[p].port);
    var d := BeatAt(s.io[p].port.ar, s.io[p].port.beat);
    FrontServed(ReadLog(s.h, p), d, JobDues(s'.io[p].port), ReadDues(s.io[p].arFifo + s.io[p].arLink));
    assert WriteLog(s'.h, p) == WriteLog(s.h, p);
    StillBusy(s.io[p].port);
  }

  lemma StillBusy(port: Port)
    ensures NextReadBeat(port).state != Idle ==> port.state != Idle
    ensures NextWriteBeat(port).state != Idle ==> port.state != Idle
    ensures NextReadBeat(port).state == CmoRsp ==> port.state == CmoRsp
    ensures NextWriteBeat(port).state == CmoRsp ==> port.state == CmoRsp
  {
  }

  /** An event of another port. */
  lemma OtherReads(p: nat, x: PortIo, b: Bus, t: Tables, h: seq<Event>, ev: Event)
    requires PortService(p, x, b, t, h) && DueOf(ev, p) == [] && BeatOf(ev, p) == [] && EffectOf(ev, p) == [] && IdOf(ev, p) == []
    requires !(ev.Saved? && ev.port == p)
    ensures PortService(p, x, b, t, h + [ev])
  {
    hide JobDues, JobEffects, ReadDues, WriteDues, ReadLog, ReadBeats, WriteLog, Acks, Accepted, Returned, Outstanding, StoredBeats,
      CleanService;
    LogsSame(h, ev, p);
    CleanKept(p, x, x, h, ev);
  }

  lemma CmoRspKeeps(s: Snap, p: nat, full: bool, s': Snap)
    requires Service(s) && p < 2 && s.io[p].port.state == CmoRsp && CmoRspStep(s, p, full, s') && NoFlight(s.w.b, p)
    ensures Service(s') && Follows(s, s')
  {
    hide PortService;
    if !full {
      CmoRspPort(s, p, s');
      OtherReads(1 - p, s.io[1 - p], s.w.b, s.t, s.h, s'.h[|s.h|]);
    }
  }

  lemma CmoRspPort(s: Snap, p: nat, s': Snap)
    requires p < 2 && |s.io| == 2 && PortService(p, s.io[p], s.w.b, s.t, s.h)
    requires s.io[p].port.state == CmoRsp && CmoRspStep(s, p, false, s') && NoFlight(s.w.b, p)
    ensures PortService(p, s'.io[p], s'.w.b, s'.t, s'.h)
  {
    hide ReadDues, WriteDues, ReadLog, ReadBeats, WriteLog, Acks, Accepted, Returned, Outstanding, StoredBeats, SavedFor, AnswersSaved;
    LogAppend(s.h, s'.h[|s.h|], p);
    AnswersMore(s.h, s'.h[|s.h|], p);
    var d := OpOf(s.io[p].port.ar);
    assert JobDues(s.io[p].port) == [d] + [];
    FrontServed(ReadLog(s.h, p), d, [], ReadDues(s.io[p].arFifo + s.io[p].arLink));
    assert WriteLog(s'.h, p) == WriteLog(s.h, p);
  }

  /** One beat of a write in progress, with the response after the last one. */
  lemma JobWrites(port: Port)
    requires port.state == Write && port.beat <= port.aw.len && |port.aw.beats| == port.aw.len + 1
    ensures JobEffects(port) ==
              [PutAt(port.aw, port.beat)] + (if port.beat == port.aw.len then [Resp(port.aw.id)] else JobEffects(NextWriteBeat(port)))
    ensures port.beat == port.aw.len ==> JobEffects(NextWriteBeat(port)) == []
    ensures JobDues(port) == [] && JobDues(NextWriteBeat(port)) == []
  {
    assert JobEffects(port) == [PutAt(port.aw, port.beat)] + EffectsFrom(port.aw, port.beat + 1);
  }

  lemma BeatWrittenKeeps(s: Snap, p: nat, idx: nat, s': Snap)
    requires Service(s) && p < 2 && BeatWritten(s, p, idx, s') && !WritePending(s.t.LiveWr(), p)
    ensures Service(s') && Follows(s, s')
  {
    hide PortService, WritePending, WordStored, MemoryShape, Held;
    BeatWrittenPort(s, p, idx, s');
    var st := s'.h[|s.h|];
    OtherReads(1 - p, s.io[1 - p], s.w.b, s.t, s.h, st);
    SameBus(s.w, idx, WordOf(s.io[p].port.addr), s.io[p].wFifo[0].data, s.io[p].wFifo[0].strb);
    if s.io[p].port.beat == s.io[p].port.aw.len {
      OtherReads(1 - p, s.io[1 - p], s.w.b, s.t, s.h + [st], Ack(p, s.io[p].port.aw.id));
    } else {
      assert s'.h == s.h + [st];
    }
  }

  lemma SameBus(w: World, i: nat, k: nat, data: Word, strb: Strobe)
    requires w.g.ways > 0 && i < |w.c.tags| && i < |w.c.data| && i < |w.c.dirtys| && k < |w.c.data[i]| && k < LINE_WORDS
    requires MemoryShape(w.flat) && Held(w.g, w.c, i) < LINES
    ensures WordStored(w, i, k, data, strb).b == w.b
  {
  }

  /** The logs after a store and perhaps its response. */
  lemma StoreLogs(h: seq<Event>, p: nat, st: Event, id: nat, last: bool)
    requires st.Store? && st.port == p
    ensures var h' := h + [st] + if last then [Ack(p, id)] else [];
            && ReadLog(h', p) == ReadLog(h, p) && ReadBeats(h', p) == ReadBeats(h, p)
            && Acks(h', p) == Acks(h, p) + (if last then [id] else [])
            && WriteLog(h', p) == (WriteLog(h, p) + [Put(st.line, st.word, st.data, st.strb)]) + if last then [Resp(id)] else []
  {
    hide ReadLog, ReadBeats, WriteLog, Acks;
    LogAppend(h, st, p);
    if last {
      LogAppend(h + [st], Ack(p, id), p);
    } else {
      assert h + [st] + [] == h + [st];
    }
  }

  /** The store and perhaps the response move from the work in progress to the log. */
  lemma WriteServed(log: seq<Effect>, put: Effect, resp: seq<Effect>, rest: seq<Effect>, tail: seq<Effect>)
    ensures log + [] + ([put] + (resp + rest)) + tail == (log + [put] + resp) + [] + rest + tail
  {
  }

  lemma BeatWrittenPort(s: Snap, p: nat, idx: nat, s': Snap)
    requires p < 2 && |s.io| == 2 && PortService(p, s.io[p], s.w.b, s.t, s.h)
    requires BeatWritten(s, p, idx, s') && !WritePending(s.t.LiveWr(), p)
    ensures PortService(p, s'.io[p], s.w.b, s'.t, s'.h)
  {
    hide JobDues, JobEffects, ReadDues, WriteDues, ReadLog, ReadBeats, WriteLog, Acks, Accepted, Returned, Outstanding,
      NextWriteBeat, StoredBeats, WritePending, WordStored, Holds, MemoryShape, BeatAddr, LineOf, WordOf, CleanService;
    var x := s.io[p];
    var last, id := x.port.beat == x.port.aw.len, x.port.aw.id;
    var st := Store(p, LineOf(x.port.addr), WordOf(x.port.addr), x.wFifo[0].data, x.wFifo[0].strb);
    StoreLogs(s.h, p, st, id, last);
    JobWrites(x.port);
    StillBusy(x.port);
    CleanKept(p, x, s'.io[p], s.h, st);
    if last {
      CleanKept(p, s'.io[p], s'.io[p], s.h + [st], Ack(p, id));
    } else {
      assert s'.h == s.h + [st];
    }
    NoneOutstanding(s.t.LiveWr(), StoredBeats(s.w.b, s.t.LiveWr()), p);
    var put, rest := PutAt(x.port.aw, x.port.beat), JobEffects(s'.io[p].port);
    WriteServed(WriteLog(s.h, p), put, if last then [Resp(id)] else [], rest, WriteDues(x.awFifo + x.awLink));
    assert JobEffects(x.port) == [put] + ((if last then [Resp(id)] else []) + rest);
  }

  // ----- requests are taken up -----

  lemma {:induction false} ReadDuesAppend(q: seq<Ar>, ar: Ar)
    ensures ReadDues(q + [ar]) == ReadDues(q) + DuesOf(ar)
  {
    if q == [] {
      assert q + [ar] == [ar] && [ar][1..] == [];
    } else {
      ReadDuesAppend(q[1..], ar);
      assert (q + [ar])[1..] == q[1..] + [ar];
      Shift(DuesOf(q[0]), ReadDues(q[1..]), DuesOf(ar));
    }
  }

  lemma {:induction false} WriteDuesAppend(q: seq<Aw>, aw: Aw)
    ensures WriteDues(q + [aw]) == WriteDues(q) + EffectsFrom(aw, 0)
  {
    if q == [] {
      assert q + [aw] == [aw] && [aw][1..] == [];
    } else {
      WriteDuesAppend(q[1..], aw);
      assert (q + [aw])[1..] == q[1..] + [aw];
      Shift(EffectsFrom(q[0], 0), WriteDues(q[1..]), EffectsFrom(aw, 0));
    }
  }

  lemma {:induction false} AcceptedAppend(ar: seq<MemAr>, served: nat, q: nat, req: Ar, p: nat)
    requires ar == [] ==> served == 0
    ensures Accepted(ar + [BypassAr(q, req)], served, p) == Accepted(ar, served, p) + if p == q then BeatsFrom(req, 0) else []
  {
    hide BeatsFrom;
    var ar' := ar + [BypassAr(q, req)];
    if ar == [] {
      assert ar' == [BypassAr(q, req)] && ar'[1..] == [];
    } else {
      AcceptedAppend(ar[1..], 0, q, req, p);
      assert ar'[1..] == ar[1..] + [BypassAr(q, req)] && ar'[0] == ar[0];
      Shift(if ar[0].BypassAr? && ar[0].port == p then BeatsFrom(ar[0].ar, served) else [], Accepted(ar[1..], 0, p),
            if p == q then BeatsFrom(req, 0) else []);
    }
  }

  lemma {:induction false} OutstandingAppend(live: seq<WrCtx>, stored: nat, x: WrCtx, p: nat)
    requires live == [] ==> stored == 0
    ensures Outstanding(live + [x], stored, p) == Outstanding(live, stored, p) + if x.port == p then EffectsFrom(x.aw, 0) else []
  {
    hide EffectsFrom;
    if live == [] {
      assert live + [x] == [x] && [x][1..] == [];
    } else {
      OutstandingAppend(live[1..], 0, x, p);
      assert (live + [x])[1..] == live[1..] + [x] && (live + [x])[0] == live[0];
      Shift(if live[0].port == p then EffectsFrom(live[0].aw, stored) else [], Outstanding(live[1..], 0, p),
            if x.port == p then EffectsFrom(x.aw, 0) else []);
    }
  }

  /** The dues of the request at the head of a queue come first. */
  lemma HeadRead(fifo: seq<Ar>, link: seq<Ar>)
    requires fifo != []
    ensures ReadDues(fifo + link) == DuesOf(fifo[0]) + ReadDues(fifo[1..] + link)
  {
    assert (fifo + link)[1..] == fifo[1..] + link;
  }

  lemma HeadWrite(fifo: seq<Aw>, link: seq<Aw>)
    requires fifo != []
    ensures WriteDues(fifo + link) == EffectsFrom(fifo[0], 0) + WriteDues(fifo[1..] + link)
  {
    assert (fifo + link)[1..] == fifo[1..] + link;
  }

  /** The dues of a request move from the queue to what is pending. */
  lemma Promote<T>(log: seq<T>, flight: seq<T>, next: seq<T>, tail: seq<T>)
    ensures log + flight + [] + (next + tail) == log + (flight + next) + [] + tail
    ensures log + flight + [] + (next + tail) == log + flight + next + tail
  {
  }

  lemma BypassReadPort(p: nat, s: Snap, cfg: Config, q: nat, full: bool, s': Snap)
    requires p < 2 && |s.io| == 2 && PortService(p, s.io[p], s.w.b, s.t, s.h) && BypassReadStep(s, cfg, q, full, s')
    requires s.io[q].port.state == Idle && !IsCmo(s.io[q].arFifo[0].user) && (s.w.b.ar == [] ==> s.w.b.served == 0)
    requires s.t.rd.freed ==> s.t.rd.entries != []
    ensures |s'.io| == 2 && PortService(p, s'.io[p], s'.w.b, s'.t, s'.h)
  {
    hide JobEffects, ReadDues, WriteDues, ReadLog, ReadBeats, WriteLog, Acks, Accepted, Returned, Outstanding, StoredBeats;
    if s' != s {
      var x, b := s.io[q], s.w.b;
      AcceptedAppend(b.ar, b.served, q, x.arFifo[0], p);
      assert s'.t.LiveRd() == s.t.LiveRd() + [q];
      SameStored(b, s'.w.b, s.t.LiveWr());
      if p == q {
        HeadRead(x.arFifo, x.arLink);
        Promote(ReadLog(s.h, p), Accepted(b.ar, b.served, p), BeatsFrom(x.arFifo[0], 0), ReadDues(x.arFifo[1..] + x.arLink));
      }
    }
  }

  lemma SameStored(b: Bus, b': Bus, live: seq<WrCtx>)
    requires b'.b == b.b && b'.applied == b.applied
    ensures StoredBeats(b', live) == StoredBeats(b, live)
  {
  }

  lemma BypassReadKeeps(s: Snap, cfg: Config, p: nat, full: bool, s': Snap)
    requires Service(s) && BypassReadStep(s, cfg, p, full, s')
    requires s.io[p].port.state == Idle && !IsCmo(s.io[p].arFifo[0].user) && (s.w.b.ar == [] ==> s.w.b.served == 0)
    requires s.t.rd.freed ==> s.t.rd.entries != []
    ensures Service(s') && Follows(s, s')
  {
    hide PortService;
    BypassReadPort(0, s, cfg, p, full, s');
    BypassReadPort(1, s, cfg, p, full, s');
  }

  lemma BypassWritePort(p: nat, s: Snap, cfg: Config, q: nat, full: bool, s': Snap)
    requires p < 2 && |s.io| == 2 && PortService(p, s.io[p], s.w.b, s.t, s.h) && BypassWriteStep(s, cfg, q, full, s')
    requires s.io[q].port.state == Idle && (s.t.LiveWr() == [] ==> s.w.b.b == [] && s.w.b.applied == 0)
    requires s.t.wr.freed ==> s.t.wr.entries != []
    ensures |s'.io| == 2 && PortService(p, s'.io[p], s'.w.b, s'.t, s'.h)
  {
    hide JobDues, ReadDues, WriteDues, ReadLog, ReadBeats, WriteLog, Acks, Accepted, Returned, Outstanding;
    if s' != s {
      var x, b, live := s.io[q], s.w.b, s.t.LiveWr();
      var c := WrCtx(q, 0, x.awFifo[0], false);
      OutstandingAppend(live, StoredBeats(b, live), c, p);
      assert s'.t.LiveWr() == live + [c];
      assert StoredBeats(s'.w.b, live + [c]) == StoredBeats(b, live);
      if p == q {
        HeadWrite(x.awFifo, x.awLink);
        Promote(WriteLog(s.h, p), Outstanding(live, StoredBeats(b, live), p), EffectsFrom(x.awFifo[0], 0),
                WriteDues(x.awFifo[1..] + x.awLink));
      } else {
        assert Outstanding(live, StoredBeats(b, live), p) + [] == Outstanding(live, StoredBeats(b, live), p);
      }
    }
  }

  lemma BypassWriteKeeps(s: Snap, cfg: Config, p: nat, full: bool, s': Snap)
    requires Service(s) && BypassWriteStep(s, cfg, p, full, s')
    requires s.io[p].port.state == Idle && (s.t.LiveWr() == [] ==> s.w.b.b == [] && s.w.b.applied == 0)
    requires s.t.wr.freed ==> s.t.wr.entries != []
    ensures Service(s') && Follows(s, s')
  {
    hide PortService;
    BypassWritePort(0, s, cfg, p, full, s');
    BypassWritePort(1, s, cfg, p, full, s');
  }

  /** A port takes up the read or cache-block operation at the head of its queue. */
  lemma ReadTaken(p: nat, x: PortIo, port: Port, b: Bus, t: Tables, h: seq<Event>)
    requires PortService(p, x, b, t, h) && x.port.state == Idle && x.arFifo != [] && p !in t.LiveRd()
    requires JobDues(port) == DuesOf(x.arFifo[0]) && JobEffects(port) == []
    requires port.state == CmoRsp && Cleans(port.ar.user) ==> SavedFor(h, p, OpOf(port.ar))
    ensures PortService(p, x.(arFifo := x.arFifo[1..], port := port), b, t, h)
  {
    hide ReadDues, WriteDues, ReadLog, ReadBeats, WriteLog, Acks, Accepted, Returned, Outstanding, StoredBeats, SavedFor, AnswersSaved;
    HeadRead(x.arFifo, x.arLink);
    Promote(ReadLog(h, p), Accepted(b.ar, b.served, p), DuesOf(x.arFifo[0]), ReadDues(x.arFifo[1..] + x.arLink));
    assert JobEffects(x.port) == [];
  }

  lemma TakeReadKeeps(s: Snap, p: nat, port: Port)
    requires Service(s) && p < 2 && s.io[p].port.state == Idle && s.io[p].arFifo != [] && p !in s.t.LiveRd()
    requires || (port == TakeRead(s.io[p].port, s.io[p].arFifo[0]) && !IsCmo(s.io[p].arFifo[0].user))
             || (IsCmo(s.io[p].arFifo[0].user) && exists wait :: port == TakeCmo(s.io[p].port, s.io[p].arFifo[0], wait))
    requires port.state == CmoRsp && Cleans(port.ar.user) ==> SavedFor(s.h, p, OpOf(port.ar))
    ensures var s' := WithPort(s, p, s.io[p].(arFifo := s.io[p].arFifo[1..], port := port)); Service(s') && Follows(s, s')
  {
    hide PortService;
    ReadTaken(p, s.io[p], port, s.w.b, s.t, s.h);
  }

  lemma TakeWriteKeeps(s: Snap, p: nat)
    requires Service(s) && p < 2 && s.io[p].port.state == Idle && s.io[p].awFifo != [] && p !in s.t.LiveRd()
    ensures var s' := WithPort(s, p, s.io[p].(awFifo := s.io[p].awFifo[1..], port := TakeWrite(s.io[p].port, s.io[p].awFifo[0])));
            Service(s') && Follows(s, s')
  {
    hide PortService;
    WriteTakenUp(p, s.io[p], s.w.b, s.t, s.h);
  }

  lemma WriteTakenUp(p: nat, x: PortIo, b: Bus, t: Tables, h: seq<Event>)
    requires PortService(p, x, b, t, h) && x.port.state == Idle && x.awFifo != [] && p !in t.LiveRd()
    ensures PortService(p, x.(awFifo := x.awFifo[1..], port := TakeWrite(x.port, x.awFifo[0])), b, t, h)
  {
    hide ReadDues, WriteDues, ReadLog, ReadBeats, WriteLog, Acks, Accepted, Returned, Outstanding, StoredBeats;
    HeadWrite(x.awFifo, x.awLink);
    var live := t.LiveWr();
    Promote(WriteLog(h, p), Outstanding(live, StoredBeats(b, live), p), EffectsFrom(x.awFifo[0], 0), WriteDues(x.awFifo[1..] + x.awLink));
  }

  /** The service does not look at the arrays, the engine or the memories, nor at invalidates. */
  lemma SameBusKeeps(s: Snap, s': Snap)
    requires Service(s) && s' == s.(w := s'.w) && s'.w.b == s.w.b
    ensures Service(s') && Follows(s, s')
  {
    hide PortService;
  }

  lemma DiscardKeeps(s: Snap, ev: Event)
    requires Service(s) && ev.Discard? && DropAsked(ev, s.io)
    ensures Service(s.(h := s.h + [ev])) && Follows(s, s.(h := s.h + [ev]))
  {
    hide PortService, DropAsked;
    OtherReads(0, s.io[0], s.w.b, s.t, s.h, ev);
    OtherReads(1, s.io[1], s.w.b, s.t, s.h, ev);
  }

  /** A cache-block operation at the head of a queue is one that was asked for. */
  lemma HeadAsked(s: Snap, p: nat)
    requires Service(s) && p < 2 && |s.io| == 2 && s.io[p].arFifo != [] && IsCmo(s.io[p].arFifo[0].user)
    ensures OpOf(s.io[p].arFifo[0]) in ReadDues(s.io[p].arAsked)
  {
    hide ReadDues, JobDues, ReadLog, Accepted, WriteService;
    var x := s.io[p];
    HeadRead(x.arFifo, x.arLink);
    var n := |ReadLog(s.h, p) + Accepted(s.w.b.ar, s.w.b.served, p) + JobDues(x.port)|;
    assert PortService(p, x, s.w.b, s.t, s.h);
    assert ReadDues(x.arAsked)[n] == OpOf(x.arFifo[0]);
  }

  lemma CmoKeeps(s: Snap, p: nat, s': Snap)
    requires Service(s) && p < 2 && |s.io| == 2 && s.io[p].port.state == Idle && CmoStep(s, p, s') && IsCmo(s.io[p].arFifo[0].user)
    ensures Service(s') && Follows(s, s')
  {
    hide Service, Follows, Absent, Holds, DropLine;
    if s' == s {
      Unchanged(s);
    } else if Absent(s.w, LineOf(s.io[p].arFifo[0].addr)) {
      var m := SaveKeeps(s, p);
      CmoTakenKeeps(m, p, false);
      FollowsTrans(s, m, CmoTaken(m, p, false));
      SameBusKeeps(CmoTaken(m, p, false), s');
      FollowsTrans(s, CmoTaken(m, p, false), s');
    } else {
      var i: nat :| CmoHit(s, p, i, s');
      CmoHitKeeps(s, p, i, s');
    }
  }

  lemma CmoTakenKeeps(s: Snap, p: nat, wait: bool)
    requires Service(s) && p < 2 && |s.io| == 2 && s.io[p].port.state == Idle && s.t.Empty() && s.io[p].arFifo != []
    requires IsCmo(s.io[p].arFifo[0].user) && (!wait && Cleans(s.io[p].arFifo[0].user) ==> SavedFor(s.h, p, OpOf(s.io[p].arFifo[0])))
    ensures Service(CmoTaken(s, p, wait)) && Follows(s, CmoTaken(s, p, wait))
  {
    TakeReadKeeps(s, p, TakeCmo(s.io[p].port, s.io[p].arFifo[0], wait));
  }

  lemma CmoHitKeeps(s: Snap, p: nat, i: nat, s': Snap)
    requires Service(s) && p < 2 && |s.io| == 2 && s.io[p].port.state == Idle && s.t.Empty()
    requires CmoHit(s, p, i, s') && IsCmo(s.io[p].arFifo[0].user)
    ensures Service(s') && Follows(s, s')
  {
    hide Service, Follows, DropLine, Held, ReadDues;
    var ar := s.io[p].arFifo[0];
    var wait := Cleans(ar.user) && s.w.c.dirtys[i];
    if wait || CmoOp(ar.user) == 1 {
      CleansOrNot(ar.user);
      CmoTakenKeeps(s, p, wait);
    }
    var m := CmoTaken(s, p, wait);
    if !wait && CmoOp(ar.user) == 1 {
      var line := LineOf(ar.addr);
      var ev := Discard(p, ar.id, line, ar.user, s.w.mem[line]);
      var n := m.(h := m.h + [ev]);
      HeadAsked(s, p);
      DiscardKeeps(m, ev);
      FollowsTrans(s, m, n);
      SameBusKeeps(n, s');
      FollowsTrans(s, n, s');
    } else if wait {
      SameBusKeeps(m, s');
      FollowsTrans(s, m, s');
    } else {
      var n := SaveKeeps(s, p);
      CmoTakenKeeps(n, p, false);
      FollowsTrans(s, n, CmoTaken(n, p, false));
      SameBusKeeps(CmoTaken(n, p, false), s');
      FollowsTrans(s, CmoTaken(n, p, false), s');
    }
  }

  lemma CleansOrNot(user: bv32)
    ensures CmoOp(user) == 1 ==> !Cleans(user)
  {
  }

  /** A clean or flush that finishes at once is noted before the port answers. */
  lemma SaveKeeps(s: Snap, p: nat) returns (m: Snap)
    requires Service(s) && p < 2 && |s.io| == 2 && s.io[p].arFifo != [] && LineOf(s.io[p].arFifo[0].addr) < |s.w.mem|
    requires s.io[p].port.state == Idle
    ensures m == s.(h := SaveLog(s, p, s.io[p].arFifo[0])) && Service(m) && Follows(s, m)
    ensures Cleans(s.io[p].arFifo[0].user) ==> SavedFor(m.h, p, OpOf(s.io[p].arFifo[0]))
  {
    hide PortService, SavedBy, SavedFor;
    var ar := s.io[p].arFifo[0];
    m := s.(h := SaveLog(s, p, ar));
    if Cleans(ar.user) {
      var ev := SavedBy(s, p, ar);
      SavedIs(s, p, ar);
      SavedNow(s.h, ev);
      IdleSaves(p, s.io[p], s.w.b, s.t, s.h, ev);
      OtherReads(1 - p, s.io[1 - p], s.w.b, s.t, s.h, ev);
    } else {
      Unchanged(s);
    }
  }

  lemma IdleSaves(p: nat, x: PortIo, b: Bus, t: Tables, h: seq<Event>, ev: Event)
    requires PortService(p, x, b, t, h) && x.port.state == Idle && ev.Saved?
    ensures PortService(p, x, b, t, h + [ev])
  {
    hide JobDues, JobEffects, ReadDues, WriteDues, ReadLog, ReadBeats, WriteLog, Acks, Accepted, Returned, Outstanding, StoredBeats,
      SavedFor, AnswersSaved;
    LogsSame(h, ev, p);
    AnswersMore(h, ev, p);
  }

  // ----- memory and the requesters -----

  /** Memory stores one more beat of the oldest bypass write. */
  lemma OutstandingStored(live: seq<WrCtx>, stored: nat, p: nat)
    requires live != [] && stored < |live[0].aw.beats|
    ensures Outstanding(live, stored, p) ==
              (if live[0].port == p then [PutAt(live[0].aw, stored)] else []) + Outstanding(live, stored + 1, p)
  {
  }

  lemma MemStorePort(p: nat, s: Snap, s': Snap)
    requires p < 2 && |s.io| == 2 && PortService(p, s.io[p], s.w.b, s.t, s.h)
    requires MemStoreStep(s, s') && s.w.e.state == EIdle && s.w.b.aw != [] && s.w.b.w != []
    requires s.t.LiveWr() != [] && s.w.b.b == [] && s.w.b.aw[0] == BypassAw(s.t.LiveWr()[0].port, s.t.LiveWr()[0].aw)
    ensures |s'.io| == 2 && PortService(p, s'.io[p], s'.w.b, s'.t, s'.h)
  {
    hide JobDues, JobEffects, ReadDues, WriteDues, ReadLog, ReadBeats, WriteLog, Acks, Accepted, Returned, Outstanding, CleanService;
    var live, n := s.t.LiveWr(), s.w.b.applied;
    var st := s'.h[|s.h|];
    LogAppend(s.h, st, p);
    CleanKept(p, s.io[p], s.io[p], s.h, st);
    assert ReadLog(s'.h, p) == ReadLog(s.h, p) && ReadBeats(s'.h, p) == ReadBeats(s.h, p) && Acks(s'.h, p) == Acks(s.h, p);
    OutstandingStored(live, n, p);
    assert StoredBeats(s.w.b, live) == n && StoredBeats(s'.w.b, live) == n + 1;
    if live[0].port == p {
      Shift(WriteLog(s.h, p), [PutAt(live[0].aw, n)], Outstanding(live, n + 1, p));
    } else {
      assert WriteLog(s'.h, p) == WriteLog(s.h, p);
      assert [] + Outstanding(live, n + 1, p) == Outstanding(live, n + 1, p);
    }
  }

  /** With the engine idle, what memory stores is the oldest outstanding bypass write. */
  lemma StoresOldest(b: Bus, liveRd: seq<nat>, live: seq<WrCtx>, cacheable: iset<nat>)
    requires RoutePart(true, b, liveRd, live, cacheable) && b.aw != [] && b.w != []
    ensures live != [] && b.b == [] && b.aw[0] == BypassAw(live[0].port, live[0].aw)
  {
  }

  lemma MemStoreKeeps(s: Snap, s': Snap)
    requires Service(s) && MemStoreStep(s, s') && (s.w.e.state != EIdle ==> s.t.Empty())
    requires RoutePart(s.w.e.state == EIdle, s.w.b, s.t.LiveRd(), s.t.LiveWr(), s.w.cacheable)
    ensures Service(s') && Follows(s, s')
  {
    hide PortService, RoutePart, StoreAt, MemoryShape, BeatAddr;
    if s.w.b.aw == [] || s.w.b.w == [] {
    } else if s.w.e.state == EIdle {
      StoresOldest(s.w.b, s.t.LiveRd(), s.t.LiveWr(), s.w.cacheable);
      MemStorePort(0, s, s');
      MemStorePort(1, s, s');
    } else {
      EngineKeeps(s, s');
    }
  }

  lemma BeatsStep(ar: Ar, k: nat)
    requires k <= ar.len
    ensures BeatsFrom(ar, k) == [BeatAt(ar, k)] + BeatsFrom(ar, k + 1)
    ensures k == ar.len ==> BeatsFrom(ar, k + 1) == []
  {
    hide BeatAt;
  }

  lemma AcceptedHead(ar: seq<MemAr>, served: nat, p: nat)
    requires ar != [] && ar[0].BypassAr?
    ensures Accepted(ar, served, p) == (if ar[0].port == p then BeatsFrom(ar[0].ar, served) else []) + Accepted(ar[1..], 0, p)
  {
    hide BeatsFrom;
  }

  lemma AcceptedServed(ar: seq<MemAr>, served: nat, p: nat)
    requires ar != [] && ar[0].BypassAr? && served <= ar[0].ar.len
    ensures Accepted(ar, served, p) ==
              (if ar[0].port == p then [BeatAt(ar[0].ar, served)] else [])
              + if served == ar[0].ar.len then Accepted(ar[1..], 0, p) else Accepted(ar, served + 1, p)
  {
    hide BeatAt, BeatsFrom, Accepted;
    AcceptedHead(ar, served, p);
    AcceptedHead(ar, served + 1, p);
    if ar[0].port == p {
      BeatsStep(ar[0].ar, served);
      Shift([BeatAt(ar[0].ar, served)], BeatsFrom(ar[0].ar, served + 1), Accepted(ar[1..], 0, p));
    }
  }

  lemma {:induction false} ReturnedAppend(r: seq<MemR>, x: MemR, p: nat)
    ensures Returned(r + [x], p) == Returned(r, p) + if x.src == ForPort(p) then [R(x.id, x.data, x.last)] else []
  {
    if r == [] {
      assert r + [x] == [x] && [x][1..] == [];
    } else {
      ReturnedAppend(r[1..], x, p);
      assert (r + [x])[1..] == r[1..] + [x];
      var head := if r[0].src == ForPort(p) then [R(r[0].id, r[0].data, r[0].last)] else [];
      assert Returned(r, p) == head + Returned(r[1..], p) && Returned(r + [x], p) == head + Returned(r[1..] + [x], p);
    }
  }

  lemma MemServePort(p: nat, s: Snap, s': Snap)
    requires p < 2 && |s.io| == 2 && PortService(p, s.io[p], s.w.b, s.t, s.h)
    requires MemServeStep(s, s') && s.w.e.state == EIdle && s.w.b.ar != []
    requires s.w.b.ar[0].BypassAr? ==> s.w.b.ar[0].port in s.t.LiveRd()
    ensures |s'.io| == 2 && PortService(p, s'.io[p], s'.w.b, s'.t, s'.h)
  {
    hide JobDues, JobEffects, ReadDues, WriteDues, ReadLog, ReadBeats, WriteLog, Acks, Accepted, Returned, Outstanding, BeatAddr,
      SavedFor, AnswersSaved;
    var b := s.w.b;
    var ld := s'.h[|s.h|];
    LogAppend(s.h, ld, p);
    AnswersMore(s.h, ld, p);
    if b.ar[0].port != p {
      CleanKept(p, s.io[p], s.io[p], s.h, ld);
    }
    SameStored(b, s'.w.b, s.t.LiveWr());
    AcceptedServed(b.ar, b.served, p);
    ReturnedAppend(b.r, s'.w.b.r[|b.r|], p);
    assert WriteLog(s'.h, p) == WriteLog(s.h, p) && Acks(s'.h, p) == Acks(s.h, p);
    var rest := Accepted(s'.w.b.ar, s'.w.b.served, p);
    if b.ar[0].port == p {
      Shift(ReadLog(s.h, p), [BeatAt(b.ar[0].ar, b.served)], rest);
      Shift(s.io[p].rOut, Returned(b.r, p), BeatOf(ld, p));
    } else {
      assert ReadLog(s'.h, p) == ReadLog(s.h, p) && ReadBeats(s'.h, p) == ReadBeats(s.h, p);
      assert [] + rest == rest && Returned(b.r, p) + [] == Returned(b.r, p);
    }
  }

  lemma MemServeKeeps(s: Snap, s': Snap)
    requires Service(s) && MemServeStep(s, s') && (s.w.e.state != EIdle ==> s.t.Empty())
    requires RoutePart(s.w.e.state == EIdle, s.w.b, s.t.LiveRd(), s.t.LiveWr(), s.w.cacheable)
    ensures Service(s') && Follows(s, s')
  {
    hide PortService, SameFlow, Accepted, Returned, BeatAddr, WriteRoute;
    if s.w.b.ar == [] {
    } else if s.w.e.state == EIdle {
      RequestLive(s.w.b.r, s.w.b.ar, s.t.LiveRd());
      MemServePort(0, s, s');
      MemServePort(1, s, s');
    } else {
      LineServedFlow(s.w, 0, s.t);
      LineServedFlow(s.w, 1, s.t);
      Kept(s, s');
    }
  }

  /** What memory has accepted belongs to an outstanding read. */
  lemma {:induction false} RequestLive(r: seq<MemR>, ar: seq<MemAr>, live: seq<nat>)
    requires ReadRoute(r, ar, live)
    ensures forall i | 0 <= i < |ar| :: ar[i].BypassAr? && ar[i].port in live
    decreases |r|
  {
    if r != [] {
      RequestLive(r[1..], ar, if r[0].last then live[1..] else live);
    }
  }

  lemma LineServedFlow(w: World, p: nat, t: Tables)
    requires w.e.missLine < |w.mem| && w.b.served < |w.mem[w.e.missLine]| && w.b.ar != [] && w.b.ar[0].LineAr? && t.Empty()
    ensures SameFlow(p, w.b, t, LineServed(w).b, t)
  {
    hide SameFlow, Returned;
    var b' := LineServed(w).b;
    ReturnedAppend(w.b.r, b'.r[|w.b.r|], p);
    EngineFlow(p, w.b, b', t);
  }

  lemma AskedPort(p: nat, x: PortIo, ar: Ar, b: Bus, t: Tables, h: seq<Event>)
    requires PortService(p, x, b, t, h)
    ensures PortService(p, x.(arLink := x.arLink + [ar], arAsked := x.arAsked + [ar]), b, t, h)
  {
    hide JobDues, JobEffects, ReadDues, WriteDues, ReadLog, ReadBeats, WriteLog, Acks, Accepted, Returned, Outstanding, StoredBeats;
    ReadDuesAppend(x.arAsked, ar);
    ReadDuesAppend(x.arFifo + x.arLink, ar);
    assert x.arFifo + (x.arLink + [ar]) == (x.arFifo + x.arLink) + [ar];
    Shift(ReadLog(h, p) + Accepted(b.ar, b.served, p) + JobDues(x.port), ReadDues(x.arFifo + x.arLink), DuesOf(ar));
  }

  lemma AskedWritePort(p: nat, x: PortIo, aw: Aw, b: Bus, t: Tables, h: seq<Event>)
    requires PortService(p, x, b, t, h)
    ensures PortService(p, x.(awLink := x.awLink + [aw], wLink := x.wLink + aw.beats, awAsked := x.awAsked + [aw]), b, t, h)
  {
    hide JobDues, JobEffects, ReadDues, WriteDues, ReadLog, ReadBeats, WriteLog, Acks, Accepted, Returned, Outstanding, StoredBeats;
    WriteDuesAppend(x.awAsked, aw);
    WriteDuesAppend(x.awFifo + x.awLink, aw);
    assert x.awFifo + (x.awLink + [aw]) == (x.awFifo + x.awLink) + [aw];
    Shift(WriteLog(h, p) + Outstanding(t.LiveWr(), StoredBeats(b, t.LiveWr()), p) + JobEffects(x.port),
          WriteDues(x.awFifo + x.awLink), EffectsFrom(aw, 0));
  }

  lemma AskedKeeps(s: Snap, p: nat, ar: Ar)
    requires Service(s) && p < 2
    ensures Service(Asked(s, p, ar))
  {
    hide PortService;
    AskedPort(p, s.io[p], ar, s.w.b, s.t, s.h);
  }

  lemma AskedWriteKeeps(s: Snap, p: nat, aw: Aw)
    requires Service(s) && p < 2
    ensures Service(AskedWrite(s, p, aw))
  {
    hide PortService;
    AskedWritePort(p, s.io[p], aw, s.w.b, s.t, s.h);
  }

  lemma ResetService(w: World, ways: seq<nat>)
    requires w.b == QUIET
    ensures Service(Snap(w, [RESET_IO, RESET_IO], RESET_TABLES, ways, false, []))
  {
  }

  lemma ServiceCleans(s: Snap)
    requires Service(s)
    ensures AnswersSaved(s.h, 0) && AnswersSaved(s.h, 1)
  {
    hide ReadService, WriteService, AnswersSaved;
  }

  lemma BusyPort(s: Snap, p: nat)
    requires Service(s) && p < 2 && |s.io| == 2 && s.io[p].port.state != Idle
    ensures p !in s.t.LiveRd()
  {
    hide ReadService, WriteService, CleanService;
  }

  // ----- what one step of a run adds -----

  /** A step adds the request it makes, and otherwise only answers. */
  ghost predicate Advances(s: Snap, a: Action, s': Snap)
  {
    Advanced(s, [a], s')
  }

  /** What a schedule has added since a run began. */
  ghost predicate Advanced(s: Snap, schedule: seq<Action>, s': Snap)
  {
    var ok :=
    && |s.io| == |s'.io| == 2 && s.h <= s'.h
    && forall p | 0 <= p < 2 ::
         && s'.io[p].arAsked == s.io[p].arAsked + ReadsAsked(schedule, p)
         && s'.io[p].awAsked == s.io[p].awAsked + WritesAsked(schedule, p)
         && s.io[p].rOut <= s'.io[p].rOut && s.io[p].bOut <= s'.io[p].bOut;
    ok
  }

  lemma AskedOnce(a: Action, p: nat)
    ensures ReadsAsked([a], p) == if a.AskRead? && a.p == p then [a.ar] else []
    ensures WritesAsked([a], p) == if a.AskWrite? && a.p == p then [a.aw] else []
  {
    assert [a][..0] == [];
  }

  lemma FollowsAdvances(s: Snap, a: Action, s': Snap)
    requires Follows(s, s') && DropsAsked(s) && |s.io| == 2 && !a.AskRead? && !a.AskWrite?
    ensures DropsAsked(s') && Advances(s, a, s') && SavesMemory(s, s')
  {
    hide ReadsAsked, WritesAsked;
    FollowsDrops(s, s');
    AskedOnce(a, 0);
    AskedOnce(a, 1);
  }

  lemma MoreAsked(io: seq<PortIo>, io': seq<PortIo>, ev: Event, ar: Ar)
    requires ev.Discard? && DropAsked(ev, io) && |io'| == |io|
    requires io'[ev.port].arAsked == io[ev.port].arAsked || io'[ev.port].arAsked == io[ev.port].arAsked + [ar]
    ensures DropAsked(ev, io')
  {
    ReadDuesAppend(io[ev.port].arAsked, ar);
  }

  lemma AskedAdvances(s: Snap, p: nat, ar: Ar)
    requires DropsAsked(s) && |s.io| == 2 && p < 2
    ensures DropsAsked(Asked(s, p, ar)) && Advances(s, AskRead(p, ar), Asked(s, p, ar)) && SavesMemory(s, Asked(s, p, ar))
  {
    hide ReadsAsked, WritesAsked, ReadDues;
    AskedOnce(AskRead(p, ar), 0);
    AskedOnce(AskRead(p, ar), 1);
    var s' := Asked(s, p, ar);
    forall j | 0 <= j < |s'.h| && s'.h[j].Discard?
      ensures DropAsked(s'.h[j], s'.io)
    {
      MoreAsked(s.io, s'.io, s.h[j], ar);
    }
  }

  lemma AskedWriteAdvances(s: Snap, p: nat, aw: Aw)
    requires DropsAsked(s) && |s.io| == 2 && p < 2
    ensures DropsAsked(AskedWrite(s, p, aw)) && Advances(s, AskWrite(p, aw), AskedWrite(s, p, aw))
    ensures SavesMemory(s, AskedWrite(s, p, aw))
  {
    hide ReadsAsked, WritesAsked, ReadDues;
    AskedOnce(AskWrite(p, aw), 0);
    AskedOnce(AskWrite(p, aw), 1);
  }

  lemma RequestTarget(a: Action, cacheable: iset<nat>, iReadOnly: bool)
    requires Allowed(a, cacheable, iReadOnly) && (a.AskRead? || a.AskWrite?)
    ensures a.p < 2
  {
  }

  lemma NothingAdvanced(s: Snap)
    requires |s.io| == 2
    ensures Advanced(s, [], s)
  {
  }

  lemma AskedMore(schedule: seq<Action>, i: nat, p: nat)
    requires i < |schedule|
    ensures ReadsAsked(schedule[..i + 1], p) == ReadsAsked(schedule[..i], p) + ReadsAsked([schedule[i]], p)
    ensures WritesAsked(schedule[..i + 1], p) == WritesAsked(schedule[..i], p) + WritesAsked([schedule[i]], p)
  {
    var more := schedule[..i + 1];
    assert more[..i] == schedule[..i] && more[i] == schedule[i];
    AskedOnce(schedule[i], p);
  }

  lemma AdvancedMore(s: Snap, schedule: seq<Action>, i: nat, m: Snap, s': Snap)
    requires i < |schedule| && Advanced(s, schedule[..i], m) && Advances(m, schedule[i], s')
    ensures Advanced(s, schedule[..i + 1], s')
  {
    hide ReadsAsked, WritesAsked;
    forall p | 0 <= p < 2
      ensures s'.io[p].arAsked == s.io[p].arAsked + ReadsAsked(schedule[..i + 1], p)
      ensures s'.io[p].awAsked == s.io[p].awAsked + WritesAsked(schedule[..i + 1], p)
    {
      AskedMore(schedule, i, p);
      Shift(s.io[p].arAsked, ReadsAsked(schedule[..i], p), ReadsAsked([schedule[i]], p));
      Shift(s.io[p].awAsked, WritesAsked(schedule[..i], p), WritesAsked([schedule[i]], p));
    }
  }

  // ----- what the service means to a requester -----

  function Ids(q: seq<Aw>): (ids: seq<nat>)
  {
    if q == [] then [] else [q[0].id] + Ids(q[1..])
  }

  /** What a port has been handed: its read channel carries answers of the history, and the history
      answers its reads in order; its responses are those of its first writes, all of whose stores
      have been done, and the history does its writes in order. */
  ghost predicate Delivered(s: Snap, p: nat)
  {
    && p < |s.io|
    && s.io[p].rOut <= ReadBeats(s.h, p) && ReadLog(s.h, p) <= ReadDues(s.io[p].arAsked)
    && |s.io[p].bOut| <= |s.io[p].awAsked| && s.io[p].bOut == Ids(s.io[p].awAsked[..|s.io[p].bOut|])
    && WriteDues(s.io[p].awAsked[..|s.io[p].bOut|]) <= WriteLog(s.h, p) <= WriteDues(s.io[p].awAsked)
  }

  /** The responses among some effects. */
  function Resps(fs: seq<Effect>): (ids: seq<nat>)
  {
    if fs == [] then [] else (if fs[0].Resp? then [fs[0].id] else []) + Resps(fs[1..])
  }

  lemma {:induction false} RespsAppend(a: seq<Effect>, b: seq<Effect>)
    ensures Resps(a + b) == Resps(a) + Resps(b)
  {
    if a == [] {
      assert a + b == b;
    } else {
      RespsAppend(a[1..], b);
      assert (a + b)[1..] == a[1..] + b;
      var head := if a[0].Resp? then [a[0].id] else [];
      assert Resps(a) == head + Resps(a[1..]) && Resps(a + b) == head + Resps(a[1..] + b);
    }
  }

  lemma {:induction false} AcksAreResps(h: seq<Event>, p: nat)
    ensures Acks(h, p) == Resps(WriteLog(h, p))
  {
    if h != [] {
      var n := |h| - 1;
      AcksAreResps(h[..n], p);
      RespsAppend(WriteLog(h[..n], p), EffectOf(h[n], p));
      assert Resps(EffectOf(h[n], p)) == IdOf(h[n], p);
    }
  }

  /** The response of a write is the last of its effects. */
  lemma {:induction false} RespIsLast(aw: Aw, k: nat, n: nat)
    requires n <= |EffectsFrom(aw, k)|
    ensures Resps(EffectsFrom(aw, k)[..n]) == if n == |EffectsFrom(aw, k)| then [aw.id] else []
    decreases |aw.beats| - k
  {
    var fs := EffectsFrom(aw, k);
    if k >= |aw.beats| {
      assert fs[..n] == if n == 1 then [Resp(aw.id)] else [];
    } else if n > 0 {
      RespIsLast(aw, k + 1, n - 1);
      assert fs[..n][1..] == EffectsFrom(aw, k + 1)[..n - 1];
      assert fs[..n][0] == fs[0] && !fs[0].Resp?;
      assert Resps(fs[..n]) == Resps(fs[..n][1..]);
    } else {
      assert fs[..n] == [];
    }
  }

  /** A prefix of the effects of some writes contains the responses of the first ones, and all the
      effects of those. */
  lemma {:induction false} Answered(q: seq<Aw>, fs: seq<Effect>)
    requires fs <= WriteDues(q)
    ensures |Resps(fs)| <= |q| && Resps(fs) == Ids(q[..|Resps(fs)|]) && WriteDues(q[..|Resps(fs)|]) <= fs
  {
    if q != [] {
      var e := EffectsFrom(q[0], 0);
      if |fs| < |e| {
        assert fs == e[..|fs|];
        RespIsLast(q[0], 0, |fs|);
      } else {
        var rest := fs[|e|..];
        assert fs == e + rest && rest <= WriteDues(q[1..]);
        Answered(q[1..], rest);
        RespIsLast(q[0], 0, |e|);
        assert e[..|e|] == e;
        RespsAppend(e, rest);
        var n := |Resps(rest)|;
        assert q[..n + 1][1..] == q[1..][..n] && q[..n + 1][0] == q[0];
      }
    }
  }

  lemma PrefixOf<T>(a: seq<T>, b: seq<T>, c: seq<T>, d: seq<T>, whole: seq<T>)
    requires whole == a + b + c + d
    ensures a <= whole
  {
  }

  lemma ServiceDelivers(s: Snap, p: nat)
    requires Service(s) && p < 2
    ensures Delivered(s, p)
  {
    hide ReadDues, WriteDues, ReadLog, ReadBeats, WriteLog, Acks, Accepted, Returned, Outstanding, JobDues, JobEffects, StoredBeats,
      Ids, Resps;
    var x := s.io[p];
    assert PortService(p, x, s.w.b, s.t, s.h);
    PrefixOf(ReadLog(s.h, p), Accepted(s.w.b.ar, s.w.b.served, p), JobDues(x.port), ReadDues(x.arFifo + x.arLink), ReadDues(x.arAsked));
    var live := s.t.LiveWr();
    PrefixOf(WriteLog(s.h, p), Outstanding(live, StoredBeats(s.w.b, live), p), JobEffects(x.port), WriteDues(x.awFifo + x.awLink),
             WriteDues(x.awAsked));
    AcksAreResps(s.h, p);
    Answered(x.awAsked, WriteLog(s.h, p));
  }

  /** Nothing of port `p` is queued, in work or on its way. */
  ghost predicate Drained(s: Snap, p: nat)
  {
    && p < |s.io| && s.io[p].port.state == Idle && s.io[p].arFifo + s.io[p].arLink == [] && s.io[p].awFifo + s.io[p].awLink == []
    && NoFlight(s.w.b, p) && !WritePending(s.t.LiveWr(), p)
  }

  /** Then no request has been lost: every read is answered in full, and every write. */
  lemma NothingLost(s: Snap, p: nat)
    requires Service(s) && p < 2 && Drained(s, p)
    ensures ReadLog(s.h, p) == ReadDues(s.io[p].arAsked) && s.io[p].rOut == ReadBeats(s.h, p)
    ensures WriteLog(s.h, p) == WriteDues(s.io[p].awAsked) && s.io[p].bOut == Ids(s.io[p].awAsked)
  {
    hide ReadLog, ReadBeats, WriteLog, Acks, Accepted, Returned, Outstanding, StoredBeats, WritePending, Resps;
    var x, live := s.io[p], s.t.LiveWr();
    assert PortService(p, x, s.w.b, s.t, s.h);
    NoneOutstanding(live, StoredBeats(s.w.b, live), p);
    assert JobDues(x.port) == [] && JobEffects(x.port) == [];
    AcksAreResps(s.h, p);
    WholeAnswered(x.awAsked);
  }

  lemma {:induction false} WholeAnswered(q: seq<Aw>)
    ensures Resps(WriteDues(q)) == Ids(q)
  {
    if q != [] {
      WholeAnswered(q[1..]);
      var e := EffectsFrom(q[0], 0);
      RespIsLast(q[0], 0, |e|);
      assert e[..|e|] == e;
      RespsAppend(e, WriteDues(q[1..]));
    }
  }

  /** The `k`-th answer of a port is some event of the history. */
  lemma {:induction false} NthRead(h: seq<Event>, p: nat, k: nat) returns (j: nat)
    requires k < |ReadLog(h, p)|
    ensures j < |h| && DueOf(h[j], p) == [ReadLog(h, p)[k]] && BeatOf(h[j], p) == [ReadBeats(h, p)[k]]
  {
    var n := |h| - 1;
    if k < |ReadLog(h[..n], p)| {
      j := NthRead(h[..n], p, k);
    } else {
      j := n;
    }
  }

  /** The `n`-th beat a port was handed answers the `n`-th due of its reads: a word that the flat
      memory held at that address at some point of the history, or the end of a cache-block operation. */
  lemma BeatMeans(flat0: seq<Line>, s: Snap, p: nat, n: nat) returns (j: nat)
    requires Delivered(s, p) && MemoryShape(flat0) && Legal(flat0, s.h) && n < |s.io[p].rOut|
    ensures n < |ReadDues(s.io[p].arAsked)| && j < |s.h| && AllInBounds(s.h[..j])
    ensures var d := ReadDues(s.io[p].arAsked)[n];
            match d
            case BeatDue(id, line, word, last) =>
              && line < LINES && word < LINE_WORDS
              && s.io[p].rOut[n] == R(id, Replay(flat0, s.h[..j])[line][word], last)
            case OpDue(id, line, user) => s.io[p].rOut[n] == R(id, ZERO, true) && s.h[j] == Answer(p, id, line, user)
  {
    hide ReadDues, ReadLog, ReadBeats, Replay;
    j := NthRead(s.h, p, n);
    assert InBounds(s.h[j]);
  }

  /** A store of another master serves no port. */
  lemma OtherKeeps(s: Snap, line: nat, word: nat, data: Word, strb: Strobe, s': Snap)
    requires Service(s) && OtherStep(s, line, word, data, strb, s')
    ensures Service(s') && Follows(s, s')
  {
    hide PortService, StoreAt, MemoryShape;
    var ev := Foreign(line, word, data, strb);
    OtherReads(0, s.io[0], s.w.b, s.t, s.h, ev);
    OtherReads(1, s.io[1], s.w.b, s.t, s.h, ev);
  }

  /** An answered clean or flush: between the port's previous answer and this one there was a moment
      at which memory held of the line just what the requesters saw. */
  lemma CleanMeans(flat0: seq<Line>, h: seq<Event>, p: nat, j: nat) returns (i: nat)
    requires MemoryShape(flat0) && Legal(flat0, h) && AnswersSaved(h, p) && j < |h| && AnswersClean(h[j], p)
    ensures i < j && AllInBounds(h[..i]) && h[j].line < LINES
    ensures h[i] == Saved(p, h[j].id, h[j].line, h[j].user, Replay(flat0, h[..i])[h[j].line])
    ensures forall n | i < n < j :: DueOf(h[n], p) == []
  {
    hide Replay, SavedFor;
    i := SavedWhere(h[..j], p, OpDue(h[j].id, h[j].line, h[j].user));
    assert h[..j][i] == h[i] && InBounds(h[i]);
    assert forall n | i < n < j :: h[..j][n] == h[n];
  }
}
