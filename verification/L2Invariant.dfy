/** The invariant of the L2 cache as a whole, and why every step keeps it. */
module L2Invariant {
  import opened Words
  import OstQueue
  import opened L2Types
  import opened FlatMemory
  import opened L2Coherence
  import opened L2Traffic
  import opened L2Ports
  import opened L2Steps
  import opened L2Service

  /** What is fixed over a run: the configuration, the memory at reset, and whether port 0 is an
      instruction port (no cached writes, no cache-block operations). */
  datatype Setup = Setup(cfg: Config, flat0: seq<Line>, iReadOnly: bool)

  // ----- memory holds nothing that was never seen -----

  predicate SentLive(e: Engine) { e.state == WbW || e.state == WbB || e.state == CmoWbW || e.state == CmoWbB }

  /** Every word in memory, and every word on its way there from a slot, is one that the requesters
      saw at that address at some point; and so is every word to which an invalidate reverted. */
  ghost predicate OldPart(flat0: seq<Line>, h: seq<Event>, mem: seq<Line>, e: Engine)
  {
    var ok :=
    && MemoryShape(mem)
    && (forall l: nat, w: nat | l < LINES && w < LINE_WORDS :: Seen(flat0, h, l, w, mem[l][w]))
    && (SentLive(e) ==> |e.sent| <= LINE_WORDS && forall w: nat | w < |e.sent| :: Seen(flat0, h, e.wbLine, w, e.sent[w]))
    && DropsOld(flat0, h);
    ok
  }

  ghost predicate DropsOld(flat0: seq<Line>, h: seq<Event>)
  {
    forall j | 0 <= j < |h| && h[j].Discard? :: DropOld(flat0, h[..j], h[j])
  }

  ghost predicate DropOld(flat0: seq<Line>, h: seq<Event>, ev: Event)
    requires ev.Discard?
  {
    forall w: nat | w < |ev.words| :: Seen(flat0, h, ev.line, w, ev.words[w])
  }

  lemma OldAppend(flat0: seq<Line>, h: seq<Event>, mem: seq<Line>, e: Engine, ev: Event)
    requires OldPart(flat0, h, mem, e)
    requires ev.Discard? ==> ev.line < |mem| && ev.line < LINES && ev.words == mem[ev.line]
    ensures OldPart(flat0, h + [ev], mem, e)
  {
    hide Seen;
    forall l: nat, w: nat | l < LINES && w < LINE_WORDS
      ensures Seen(flat0, h + [ev], l, w, mem[l][w])
    {
      SeenMore(flat0, h, ev, l, w, mem[l][w]);
    }
    if SentLive(e) {
      forall w: nat | w < |e.sent|
        ensures Seen(flat0, h + [ev], e.wbLine, w, e.sent[w])
      {
        SeenMore(flat0, h, ev, e.wbLine, w, e.sent[w]);
      }
    }
    DropsAppend(flat0, h, ev);
  }

  lemma DropsAppend(flat0: seq<Line>, h: seq<Event>, ev: Event)
    requires DropsOld(flat0, h) && (ev.Discard? ==> DropOld(flat0, h, ev))
    ensures DropsOld(flat0, h + [ev])
  {
    hide DropOld;
    var h' := h + [ev];
    forall j | 0 <= j < |h'| && h'[j].Discard?
      ensures DropOld(flat0, h'[..j], h'[j])
    {
      if j < |h| {
        assert h'[..j] == h[..j] && h'[j] == h[j];
      } else {
        assert h'[..j] == h;
      }
    }
  }

  /** The engine sends nothing, or goes on sending the same. */
  lemma OldEngine(flat0: seq<Line>, h: seq<Event>, mem: seq<Line>, e: Engine, e': Engine)
    requires OldPart(flat0, h, mem, e)
    requires !SentLive(e') || e'.sent == [] || (SentLive(e) && e'.wbLine == e.wbLine && e'.sent == e.sent)
    ensures OldPart(flat0, h, mem, e')
  {
    hide Seen;
  }

  /** A word that leaves a slot for memory is the one the requesters see now. */
  lemma OldSent(flat0: seq<Line>, h: seq<Event>, s: World)
    requires OldPart(flat0, h, s.mem, s.e) && HistoryPart(flat0, h, s.flat) && Inv(s) && (s.e.state == WbW || s.e.state == CmoWbW)
    requires WbSlot(s.e) < |s.c.data| && s.e.beat < |s.c.data[WbSlot(s.e)]|
    ensures OldPart(flat0, h, s.mem, BeatSent(s).e)
  {
    hide Seen, Replay;
    SlotSeen(s);
    SeenNow(flat0, h, s.e.wbLine, s.e.beat);
  }

  lemma SlotSeen(s: World)
    requires Inv(s) && (s.e.state == WbW || s.e.state == CmoWbW)
    ensures s.e.wbLine < LINES && |s.e.sent| == s.e.beat < LINE_WORDS && WbSlot(s.e) < |s.c.data| && MemoryShape(s.flat)
    ensures s.flat[s.e.wbLine] == s.c.data[WbSlot(s.e)]
  {
    if s.e.state == CmoWbW {
      assert SlotOk(s, s.e.cmoIdx);
    }
  }

  /** Memory stores a word that was sent. */
  lemma OldStored(flat0: seq<Line>, h: seq<Event>, s: World)
    requires OldPart(flat0, h, s.mem, s.e) && Inv(s) && SentLive(s.e) && s.b.w != [] && s.b.aw != []
    ensures s.e.wbLine < LINES && s.b.applied < LINE_WORDS && MemoryShape(s.mem)
    ensures OldPart(flat0, h, LineStored(s).mem, s.e)
  {
    hide Seen, Coherent;
    var n := s.b.applied;
    assert s.b.w[0] == LineBeat(s.e.sent[n], n);
    assert LineStored(s).mem[s.e.wbLine][n] == s.e.sent[n];
  }

  /** Outside the cacheable lines memory is what the requesters see. */
  lemma OldBypass(flat0: seq<Line>, h: seq<Event>, mem: seq<Line>, e: Engine, ev: Event, mem': seq<Line>, flat': seq<Line>)
    requires OldPart(flat0, h, mem, e) && (ev.Store? || ev.Foreign?) && ev.line < LINES && ev.word < LINE_WORDS
    requires mem' == StoreAt(mem, ev.line, ev.word, ev.data, ev.strb)
    requires HistoryPart(flat0, h + [ev], flat') && MemoryShape(flat') && flat'[ev.line] == mem'[ev.line]
    ensures OldPart(flat0, h + [ev], mem', e)
  {
    hide Seen, Replay, Merge;
    OldAppend(flat0, h, mem, e, ev);
    SeenNow(flat0, h + [ev], ev.line, ev.word);
  }

  lemma OldReset(mem: seq<Line>)
    requires MemoryShape(mem)
    ensures OldPart(mem, [], mem, RESET_ENGINE)
  {
    forall l: nat, w: nat | l < LINES && w < LINE_WORDS
      ensures Seen(mem, [], l, w, mem[l][w])
    {
      SeenNow(mem, [], l, w);
    }
  }

  ghost predicate PortIn(k: Setup, s: Snap, p: nat)
    requires p < |s.io|
  {
    PortPart(p, s.io[p], DutyFor(s.w.e, p), s.t.LiveWr(), s.w.cacheable, k.iReadOnly && p == 0)
  }

  /** Coherence, routing and the ports' obligations. */
  ghost predicate Core(k: Setup, s: Snap)
  {
    var ok :=
    && Inv(s.w) && ReplacePart(s.w.g, s.ways) && s.w.e.owner < 2
    && TablePart(s.t, k.cfg.ostDepth, s.w.e.state == EIdle)
    && RoutePart(s.w.e.state == EIdle, s.w.b, s.t.LiveRd(), s.t.LiveWr(), s.w.cacheable)
    && |s.io| == 2 && PortIn(k, s, 0) && PortIn(k, s, 1)
    && HistoryPart(k.flat0, s.h, s.w.flat) && OldPart(k.flat0, s.h, s.w.mem, s.w.e)
    && (k.iReadOnly ==> Agrees(s.w.c, s.w.e));
    ok
  }

  /** And every requester gets what it asked for, in order, as the history says. */
  ghost predicate Ok(k: Setup, s: Snap) { Core(k, s) && Service(s) }

  lemma TwoPorts(k: Setup, s: Snap)
    requires Ok(k, s)
    ensures |s.io| == 2 && s.w.e.owner < 2 && Shape(s.w.g, s.w.c) && ReplacePart(s.w.g, s.ways)
  {
    hide PortPart, HistoryPart, OldPart, RoutePart, TablePart, Service;
    BusOfEngine(s.w);
  }

  lemma HitIsPresent(w: World, i: nat, line: nat)
    requires Shape(w.g, w.c) && i < |w.c.valids| && w.c.valids[i] && Held(w.g, w.c, i) == line
    ensures Holds(w, i, line) && !Absent(w, line)
  {
  }

  lemma HitBounds(k: Setup, s: Snap, i: nat)
    requires Ok(k, s) && i < |s.w.c.valids| && s.w.c.valids[i]
    ensures i < |s.w.c.dirtys| && s.w.g.ways > 0 && i < |s.w.c.tags| && MemoryShape(s.w.mem) && MemoryShape(s.w.flat)
    ensures Held(s.w.g, s.w.c, i) < LINES
  {
    hide PortPart, HistoryPart, OldPart, RoutePart, TablePart, ReplacePart, Service, Inv;
    SlotBounds(s.w, i);
  }

  lemma LineExists(k: Setup, s: Snap, p: nat)
    requires Ok(k, s) && p < 2 && |s.io| == 2 && s.io[p].arFifo != []
    ensures LineOf(s.io[p].arFifo[0].addr) < LINES && MemoryShape(s.w.mem)
  {
    hide HistoryPart, OldPart, RoutePart, TablePart, ReplacePart, Service, Inv, PortPart;
    MemoriesSized(s.w);
    PortTakesAr(p, s.io[p], DutyFor(s.w.e, p), s.t.LiveWr(), s.w.cacheable, k.iReadOnly && p == 0);
  }

  lemma StageOk(k: Setup, s: Snap, stall: Stall)
    requires Ok(k, s)
    ensures |s.io| == 2 && Ok(k, Staged(s, k.cfg, stall)) && Follows(s, Staged(s, k.cfg, stall))
  {
    hide Inv, RoutePart, PortPart, HistoryPart, OldPart, ReplacePart, Service, Follows, Captured, Agrees;
    StagedKeeps(s, k.cfg, stall);
    ClockKeepsLive(s.t.rd);
    ClockKeepsLive(s.t.wr);
    PortCaptures(0, s.io[0], DutyFor(s.w.e, 0), s.t.LiveWr(), s.w.cacheable, k.iReadOnly, k.cfg.stgDepth, stall.i);
    PortCaptures(1, s.io[1], DutyFor(s.w.e, 1), s.t.LiveWr(), s.w.cacheable, false, k.cfg.stgDepth, stall.d);
  }

  // ----- bypass responses and data -----

  lemma BypassRFacts(k: Setup, s: Snap)
    requires Ok(k, s) && s.w.b.r != [] && s.t.rd.entries != [] && !s.t.rd.freed
    ensures s.t.rd.entries[0] < |s.io| == 2 && s.w.b.r[0].src == ForPort(s.t.rd.entries[0])
  {
    hide Inv, PortPart, HistoryPart, OldPart, RoutePart, ReplacePart, Service, Agrees;
    RouteReadTaken(s.w.b, s.t.LiveRd(), s.t.LiveWr(), s.w.cacheable);
  }

  lemma BypassROk(k: Setup, s: Snap, stall: Stall, s': Snap)
    requires Ok(k, s) && BypassRStep(s, stall, s')
    ensures Ok(k, s') && Follows(s, s')
  {
    hide Inv, PortPart, HistoryPart, OldPart, RoutePart, ReplacePart, Service, Follows, Agrees;
    BypassRKeeps(s, stall, s');
    if s' != s {
      var p := s.t.rd.entries[0];
      RouteReadTaken(s.w.b, s.t.LiveRd(), s.t.LiveWr(), s.w.cacheable);
      IdleBus(s.w, s'.w);
      PortDelivers(p, s.io[p], s'.io[p], DutyFor(s.w.e, p), s.t.LiveWr(), s.w.cacheable, k.iReadOnly && p == 0);
    }
  }

  lemma BypassWFacts(k: Setup, s: Snap)
    requires Ok(k, s) && s.t.wr.entries != [] && !s.t.wr.freed && !s.t.wr.entries[0].wDone
    ensures |s.io| == 2
    ensures var x := s.t.wr.entries[0];
            x.port < 2 && (s.io[x.port].wFifo != [] ==> x.beatIdx < |x.aw.beats| && s.io[x.port].wFifo[0] == x.aw.beats[x.beatIdx])
  {
    hide Inv, PortPart, HistoryPart, OldPart, RoutePart, ReplacePart, WrCtxOk, Advance, Service, Agrees;
    HeadWriteOk(s.w.b, s.t.LiveRd(), s.t.LiveWr(), s.w.cacheable);
    var p := s.t.wr.entries[0].port;
    PortSendsBypass(p, s.io[p], DutyFor(s.w.e, p), s.t.LiveWr(), s.w.cacheable, k.iReadOnly && p == 0);
  }

  lemma BypassWOk(k: Setup, s: Snap, full: bool, s': Snap)
    requires Ok(k, s) && BypassWStep(s, full, s')
    ensures Ok(k, s') && Follows(s, s')
  {
    hide Inv, PortPart, HistoryPart, OldPart, RoutePart, ReplacePart, WrCtxOk, Advance, Service, Follows, Agrees;
    BypassWKeeps(s, full, s');
    if s' != s {
      HeadWriteOk(s.w.b, s.t.LiveRd(), s.t.LiveWr(), s.w.cacheable);
      var p, live := s.t.wr.entries[0].port, s.t.LiveWr();
      var w := s.io[p].wFifo[0];
      PortSendsBypass(p, s.io[p], DutyFor(s.w.e, p), live, s.w.cacheable, k.iReadOnly && p == 0);
      OtherSendsBypass(1 - p, s.io[1 - p], DutyFor(s.w.e, 1 - p), live, s.w.cacheable, k.iReadOnly && 1 - p == 0, w.last);
      RouteWriteSent(s.w.b, s.t.LiveRd(), live, s.w.cacheable, w);
      IdleBus(s.w, s'.w);
      assert s'.t.LiveWr() == live[0 := Advance(live[0], w.last)];
    }
  }

  lemma BypassBFacts(k: Setup, s: Snap)
    requires Ok(k, s) && s.w.b.b != [] && s.t.wr.entries != [] && !s.t.wr.freed && s.t.wr.entries[0].wDone
    ensures s.t.wr.entries[0].port < 2 == |s.io| && s.w.b.b == [ForPort(s.t.wr.entries[0].port)] && s.w.b.applied == 0
  {
    hide Inv, PortPart, HistoryPart, OldPart, RoutePart, ReplacePart, WrCtxOk, Service, Agrees;
    HeadWriteOk(s.w.b, s.t.LiveRd(), s.t.LiveWr(), s.w.cacheable);
    RouteWriteDone(s.w.b, s.t.LiveRd(), s.t.LiveWr(), s.w.cacheable);
  }

  lemma BypassBOk(k: Setup, s: Snap, stall: Stall, s': Snap)
    requires Ok(k, s) && BypassBStep(s, stall, s')
    ensures Ok(k, s') && Follows(s, s')
  {
    hide Inv, PortPart, HistoryPart, OldPart, RoutePart, ReplacePart, WrCtxOk, Service, Follows, Agrees;
    BypassBKeeps(s, stall, s');
    if s' != s {
      HeadWriteOk(s.w.b, s.t.LiveRd(), s.t.LiveWr(), s.w.cacheable);
      RouteWriteDone(s.w.b, s.t.LiveRd(), s.t.LiveWr(), s.w.cacheable);
      assert s.w.b.b[1..] == [];
      var p, live := s.t.wr.entries[0].port, s.t.LiveWr();
      IdleBus(s.w, s'.w);
      PortDelivers(p, s.io[p], s'.io[p], DutyFor(s.w.e, p), live, s.w.cacheable, k.iReadOnly && p == 0);
      PortRetires(p, s'.io[p], DutyFor(s.w.e, p), live, s.w.cacheable, k.iReadOnly && p == 0);
      PortRetires(1 - p, s.io[1 - p], DutyFor(s.w.e, 1 - p), live, s.w.cacheable, k.iReadOnly && 1 - p == 0);
      HistoryNotes(k.flat0, s.h, s.w.flat, s'.h[|s.h|]);
      OldAppend(k.flat0, s.h, s.w.mem, s.w.e, s'.h[|s.h|]);
      assert s'.t.LiveWr() == live[1..];
    }
  }

  /** Bypass traffic and the engine exclude each other, so it does not matter to a late answer. */
  lemma BypassLate(k: Setup, s: Snap, stall: Stall, m0: Snap, m1: Snap, s': Snap)
    requires Ok(k, s) && Ok(k, m0) && Ok(k, m1)
    requires BypassRStep(s, stall, m0) && BypassWStep(m0, stall.w, m1) && BypassBStep(m1, stall, s')
    ensures Late(s'.w) <==> Late(s.w)
  {
    hide Inv, PortPart, HistoryPart, OldPart, RoutePart, ReplacePart, TablePart, Service, Agrees, Advance;
    TablesOk(s.t, k.cfg.ostDepth, s.w.e.state == EIdle);
    TablesOk(m1.t, k.cfg.ostDepth, m1.w.e.state == EIdle);
  }

  // ----- the engine -----

  lemma WbAwOk(k: Setup, s: Snap, full: bool, s': Snap)
    requires Ok(k, s) && WbAwStep(s, full, s')
    ensures Ok(k, s') && Follows(s, s')
  {
    hide Inv, PortPart, HistoryPart, OldPart, ReplacePart, RoutePart, TablePart, Live, Service, Follows, Sized;
    if s' != s {
      BusOfEngine(s.w);
      BusyTables(s.t, k.cfg.ostDepth);
      SendAw(s.w);
      OldEngine(k.flat0, s.h, s.w.mem, s.w.e, s'.w.e);
      RouteBusy(s'.w.b, s.w.cacheable);
      WbKeeps(s, full, s');
    } else {
      Unchanged(s);
    }
  }

  lemma WbWFacts(k: Setup, s: Snap)
    requires Ok(k, s) && (s.w.e.state == WbW || s.w.e.state == CmoWbW)
    ensures WbSlot(s.w.e) < |s.w.c.data| && s.w.e.beat < |s.w.c.data[WbSlot(s.w.e)]|
  {
    hide PortPart, HistoryPart, OldPart, RoutePart, TablePart, ReplacePart, Service, Inv;
    BusOfEngine(s.w);
  }

  lemma WbWOk(k: Setup, s: Snap, full: bool, s': Snap)
    requires Ok(k, s) && WbWStep(s, full, s')
    ensures Ok(k, s') && Follows(s, s')
  {
    hide Inv, PortPart, HistoryPart, OldPart, ReplacePart, RoutePart, TablePart, Live, Service, Follows, Agrees, Sized;
    if s' != s {
      BusOfEngine(s.w);
      BusyTables(s.t, k.cfg.ostDepth);
      SendW(s.w);
      OldSent(k.flat0, s.h, s.w);
      if k.iReadOnly {
        AgreesSent(s.w);
      }
      RouteBusy(s'.w.b, s.w.cacheable);
      WbKeeps(s, full, s');
    } else {
      Unchanged(s);
    }
  }

  lemma WbBFacts(k: Setup, s: Snap)
    requires Ok(k, s) && s.w.e.state == WbB
    ensures s.w.e.missIdx < |s.w.c.dirtys|
  {
    hide PortPart, HistoryPart, OldPart, RoutePart, TablePart, ReplacePart, Service, Inv;
    BusOfEngine(s.w);
  }

  lemma WbBOk(k: Setup, s: Snap, s': Snap)
    requires Ok(k, s) && WbBStep(s, s')
    ensures Ok(k, s') && Follows(s, s')
  {
    hide Inv, PortPart, HistoryPart, OldPart, ReplacePart, RoutePart, TablePart, Live, Service, Follows, Sized;
    if s' != s {
      BusyTables(s.t, k.cfg.ostDepth);
      EvictionDone(s.w);
      OldEngine(k.flat0, s.h, s.w.mem, s.w.e, s'.w.e);
      RouteBusy(s'.w.b, s.w.cacheable);
      WbKeeps(s, false, s');
    } else {
      Unchanged(s);
    }
  }

  lemma RefillArOk(k: Setup, s: Snap, full: bool, s': Snap)
    requires Ok(k, s) && RefillArStep(s, full, s')
    ensures Ok(k, s') && Follows(s, s')
  {
    hide Inv, PortPart, HistoryPart, OldPart, ReplacePart, RoutePart, TablePart, Live, Service, Follows, Sized;
    if s' != s {
      BusyTables(s.t, k.cfg.ostDepth);
      SendRefill(s.w);
      OldEngine(k.flat0, s.h, s.w.mem, s.w.e, s'.w.e);
      RouteBusy(s'.w.b, s.w.cacheable);
      RefillArKeeps(s, full, s');
    } else {
      Unchanged(s);
    }
  }

  lemma RefillRFacts(k: Setup, s: Snap)
    requires Ok(k, s) && s.w.e.state == RefillR && s.w.b.r != []
    ensures s.w.e.missIdx < |s.w.c.data| == |s.w.c.tags| == |s.w.c.valids| == |s.w.c.dirtys|
    ensures s.w.e.beat < LINE_WORDS == |s.w.c.data[s.w.e.missIdx]|
    ensures s.w.e.owner < |s.io| == 2 && s.w.b.r[0].src == ForEngine && s.w.b.r[0].last == (s.w.e.beat == LINE_WORDS - 1)
    ensures var port := s.io[s.w.e.owner].port; port.state == MissWait && (port.missReturn == Read || port.missReturn == Write)
  {
    hide Inv, PortPart, HistoryPart, OldPart, RoutePart, TablePart, ReplacePart, Service;
    BusOfEngine(s.w);
    var p := s.w.e.owner;
    WaitingPort(p, s.io[p], s.t.LiveWr(), s.w.cacheable, k.iReadOnly && p == 0);
  }

  lemma RefillROk(k: Setup, s: Snap, s': Snap)
    requires Ok(k, s) && RefillRStep(s, s')
    ensures Ok(k, s') && Follows(s, s')
  {
    hide Inv, PortPart, HistoryPart, OldPart, ReplacePart, RoutePart, TablePart, Live, Service, Follows, RefillTaken, Sized;
    if s.w.e.state == RefillR && s.w.b.r != [] {
      RefillRFacts(k, s);
      BusyTables(s.t, k.cfg.ostDepth);
      RefillRKeeps(s, s');
      RefillTakes(s.w);
      OldEngine(k.flat0, s.h, s.w.mem, s.w.e, s'.w.e);
      if s.w.e.beat == LINE_WORDS - 1 {
        var p := s.w.e.owner;
        RefillDone(s.w);
        PortWaits(p, s.io[p], s'.io[p], MissDuty, NoDuty, [], s.w.cacheable, k.iReadOnly && p == 0);
        QuietRoute(s.w.cacheable);
      } else {
        RefillBeat(s.w);
        RouteBusy(s'.w.b, s.w.cacheable);
      }
    } else {
      Unchanged(s);
    }
  }

  /** What a refill beat leaves alone. */
  lemma RefillTakes(w: World)
    requires w.e.missIdx < |w.c.data| == |w.c.tags| == |w.c.valids| == |w.c.dirtys| && w.e.beat < |w.c.data[w.e.missIdx]|
    requires w.b.r != [] && w.e.state == RefillR && w.b.r[0].last == (w.e.beat == LINE_WORDS - 1)
    ensures var w' := RefillTaken(w);
            && w'.e == (if w.e.beat == LINE_WORDS - 1 then w.e.(state := EIdle) else w.e.(beat := w.e.beat + 1))
            && w'.g == w.g && w'.cacheable == w.cacheable && w'.flat == w.flat && w'.mem == w.mem && w'.b == w.b.(r := w.b.r[1..])
  {
    hide RefillWord, Install;
  }

  lemma CmoBFacts(k: Setup, s: Snap)
    requires Ok(k, s) && s.w.e.state == CmoWbB && s.w.b.b != []
    ensures s.w.e.cmoIdx < |s.w.c.data| == |s.w.c.dirtys| == |s.w.c.valids|
    ensures s.w.e.owner < |s.io| == 2 && s.io[s.w.e.owner].port.state == CmoWait
    ensures LineOf(s.io[s.w.e.owner].port.ar.addr) == s.w.e.wbLine < |s.w.mem|
    ensures k.iReadOnly ==> !Late(s.w)
  {
    hide Inv, PortPart, HistoryPart, OldPart, RoutePart, TablePart, ReplacePart, Service, Agrees;
    BusOfEngine(s.w);
    AllSent(s.w);
    CmoLineCopied(s.w);
    MemoriesSized(s.w);
    var p := s.w.e.owner;
    WaitingCmo(p, s.io[p], DutyFor(s.w.e, p), s.t.LiveWr(), s.w.cacheable, k.iReadOnly && p == 0);
  }

  /** A line of which memory holds what the requesters see may be noted as saved. */
  lemma SaveGrows(k: Setup, s: Snap, p: nat, ar: Ar, e: Engine)
    requires HistoryPart(k.flat0, s.h, s.w.flat) && OldPart(k.flat0, s.h, s.w.mem, e)
    requires MemoryShape(s.w.mem) && MemoryShape(s.w.flat) && LineOf(ar.addr) < LINES
    requires s.w.mem[LineOf(ar.addr)] == s.w.flat[LineOf(ar.addr)]
    ensures HistoryPart(k.flat0, s.h + [SavedBy(s, p, ar)], s.w.flat) && OldPart(k.flat0, s.h + [SavedBy(s, p, ar)], s.w.mem, e)
  {
    hide HistoryPart, OldPart;
    HistoryGrows(k.flat0, s.h, s.w.flat, SavedBy(s, p, ar));
    OldAppend(k.flat0, s.h, s.w.mem, e, SavedBy(s, p, ar));
  }

  /** After a timely answer memory holds the whole line as the requesters see it. */
  lemma CleanedLine(s: World)
    requires Inv(s) && s.e.state == CmoWbB && s.b.b != [] && !Late(s)
    ensures s.e.wbLine < LINES && MemoryShape(s.mem) && MemoryShape(s.flat) && s.mem[s.e.wbLine] == s.flat[s.e.wbLine]
  {
    hide Coherent;
    CmoLineCopied(s);
    MemoriesSized(s);
    BusOfEngine(s);
  }

  /** The answer to a cache-block write-back keeps the invariant exactly when the slot is still what
      was sent. */
  lemma CmoBOk(k: Setup, s: Snap, s': Snap)
    requires Ok(k, s) && CmoBStep(s, s')
    ensures Ok(k, s') <==> !Late(s.w)
    ensures !Late(s.w) ==> Follows(s, s')
  {
    hide Inv, PortPart, HistoryPart, OldPart, ReplacePart, RoutePart, TablePart, Live, Service, Follows, DropLine, Sized, Coherent, SavedBy,
      MemoryShape;
    if s.w.e.state == CmoWbB && s.w.b.b != [] {
      CmoBFacts(k, s);
      BusyTables(s.t, k.cfg.ostDepth);
      CmoBKeeps(s, s');
      ClearIff(s.w);
      OldEngine(k.flat0, s.h, s.w.mem, s.w.e, s'.w.e);
      if Late(s.w) {
        if Ok(k, s') {
          InvCoherent(s'.w);
        }
      } else {
        var p := s.w.e.owner;
        CleanedLine(s.w);
        SaveGrows(k, s, p, s.io[p].port.ar, s'.w.e);
        PortWaits(p, s.io[p], s'.io[p], DutyFor(s.w.e, p), NoDuty, [], s.w.cacheable, k.iReadOnly && p == 0);
        QuietRoute(s.w.cacheable);
      }
    } else {
      Unchanged(s);
    }
  }

  // ----- misses -----

  lemma StartMissOk(k: Setup, s: Snap, p: nat, s': Snap)
    requires Ok(k, s) && p < 2 && |s.io| == 2 && (s.io[p].port.state == Read || s.io[p].port.state == Write)
    requires Absent(s.w, LineOf(s.io[p].port.addr)) && MissStep(s, p, s')
    ensures Ok(k, s') && Follows(s, s')
  {
    hide Inv, RoutePart, PortPart, HistoryPart, OldPart, NotCached, ReplacePart, Service, Follows, MissStarted, Victim, TablePart;
    if s.w.e.state != EIdle || !s.t.Empty() {
      Unchanged(s);
    } else {
      MissKeeps(s, p, s');
      var idx: nat :| MissAt(s, p, idx, s');
      MissStarts(k, s, p, idx, s');
    }
  }

  lemma MissStarts(k: Setup, s: Snap, p: nat, idx: nat, s': Snap)
    requires Core(k, s) && p < 2 && |s.io| == 2 && (s.io[p].port.state == Read || s.io[p].port.state == Write)
    requires Absent(s.w, LineOf(s.io[p].port.addr)) && s.w.e.state == EIdle && s.t.Empty() && MissAt(s, p, idx, s')
    ensures Core(k, s')
  {
    hide Inv, RoutePart, PortPart, HistoryPart, OldPart, NotCached, ReplacePart, MissStarted, Victim, Held, Claim;
    var x, line := s.io[p], LineOf(s.io[p].port.addr);
    VictimInSet(s.w.g, s.w.c, s.ways, line % s.w.g.sets, idx, s'.ways);
    VictimWays(s.w.g, s.w.c, s.ways, line % s.w.g.sets, idx, s'.ways);
    PortLine(p, x, NoDuty, [], s.w.cacheable, k.iReadOnly && p == 0);
    PortWaits(p, x, s'.io[p], NoDuty, MissDuty, [], s.w.cacheable, k.iReadOnly && p == 0);
    DrainedIsQuiet(s.w.b, s.w.cacheable);
    RouteBusy(s.w.b, s.w.cacheable);
    MissTakes(s.w, p, line, idx);
    StartMiss(s.w, line, idx, p);
    OldEngine(k.flat0, s.h, s.w.mem, s.w.e, s'.w.e);
  }

  /** What a miss leaves alone. */
  lemma MissTakes(w: World, owner: nat, line: nat, idx: nat)
    requires w.g.sets > 0 && w.g.ways > 0 && idx < |w.c.tags| && idx < |w.c.valids| && idx < |w.c.dirtys|
    ensures var w' := MissStarted(w, owner, line, idx);
            && w'.b == w.b && w'.flat == w.flat && w'.g == w.g && w'.cacheable == w.cacheable
            && w'.e.owner == owner && Missing(w'.e) && !SentLive(w'.e) && Agrees(w'.c, w'.e) && w'.mem == w.mem
  {
  }

  // ----- ports -----

  lemma DelayedOk(k: Setup, s: Snap, p: nat)
    requires Ok(k, s) && p < 2 && |s.io| == 2
    ensures Ok(k, Delayed(s, p, k.cfg.latency)) && Follows(s, Delayed(s, p, k.cfg.latency))
  {
    hide Inv, RoutePart, PortPart, HistoryPart, OldPart, ReplacePart, TablePart, Service, Follows, Agrees;
    var s' := Delayed(s, p, k.cfg.latency);
    DelayedKeeps(s, p, k.cfg.latency);
    PortDelivers(p, s.io[p], s'.io[p], DutyFor(s.w.e, p), s.t.LiveWr(), s.w.cacheable, k.iReadOnly && p == 0);
  }

  lemma BeatReadFacts(k: Setup, s: Snap, p: nat, idx: nat)
    requires Ok(k, s) && p < 2 && |s.io| == 2 && s.io[p].port.state == Read && Holds(s.w, idx, LineOf(s.io[p].port.addr))
    ensures var port := s.io[p].port;
            port.beat <= port.ar.len && port.addr == BeatAddr(port.ar.addr, port.ar.size, port.ar.burst, port.beat)
    ensures var l, w := LineOf(s.io[p].port.addr), WordOf(s.io[p].port.addr);
            && l < LINES && MemoryShape(s.w.flat) && w < LINE_WORDS && idx < |s.w.c.data| && |s.w.c.data[idx]| == LINE_WORDS
            && s.w.c.data[idx][w] == s.w.flat[l][w]
  {
    hide Inv, RoutePart, PortPart, HistoryPart, OldPart, ReplacePart, TablePart, Service, Agrees, MemoryShape, Held, BeatAddr;
    SlotBounds(s.w, idx);
    ActiveDuty(p, s.io[p], DutyFor(s.w.e, p), s.t.LiveWr(), s.w.cacheable, k.iReadOnly && p == 0);
    PortReads(p, s.io[p], s.t.LiveWr(), s.w.cacheable, k.iReadOnly && p == 0);
  }

  /** A load that hits returns the flat memory's word. */
  lemma BeatReadOk(k: Setup, s: Snap, p: nat, idx: nat, s': Snap)
    requires Ok(k, s) && p < 2 && BeatRead(s, p, idx, s')
    ensures Ok(k, s') && Follows(s, s')
    ensures s'.h[|s.h|..] == [s'.h[|s.h|]] && s'.h[|s.h|].Load?
    ensures s'.h[|s.h|].line < |s.w.flat| && s'.h[|s.h|].word < |s.w.flat[s'.h[|s.h|].line]|
    ensures s'.h[|s.h|].data == s.w.flat[s'.h[|s.h|].line][s'.h[|s.h|].word]
  {
    hide Inv, RoutePart, PortPart, HistoryPart, OldPart, ReplacePart, TablePart, Service, Follows, Agrees, NextReadBeat, BeatAddr, Held;
    var x := s.io[p];
    BusyPort(s, p);
    NothingComes(s.w, s.t.LiveRd(), s.t.LiveWr(), p);
    BeatReadKeeps(s, p, idx, s');
    SlotBounds(s.w, idx);
    ActiveDuty(p, x, DutyFor(s.w.e, p), s.t.LiveWr(), s.w.cacheable, k.iReadOnly && p == 0);
    PortReads(p, x, s.t.LiveWr(), s.w.cacheable, k.iReadOnly && p == 0);
    HistoryGrows(k.flat0, s.h, s.w.flat, s'.h[|s.h|]);
    OldAppend(k.flat0, s.h, s.w.mem, s.w.e, s'.h[|s.h|]);
    PortDelivers(p, x.(port := NextReadBeat(x.port)), s'.io[p], NoDuty, s.t.LiveWr(), s.w.cacheable, k.iReadOnly && p == 0);
  }

  lemma BeatWrittenFacts(k: Setup, s: Snap, p: nat, idx: nat)
    requires Ok(k, s) && p < 2 && |s.io| == 2 && s.io[p].port.state == Write && s.io[p].wFifo != []
    requires Holds(s.w, idx, LineOf(s.io[p].port.addr))
    ensures var port := s.io[p].port;
            && port.beat <= port.aw.len && |port.aw.beats| == port.aw.len + 1 && s.io[p].wFifo[0] == port.aw.beats[port.beat]
            && port.addr == BeatAddr(port.aw.addr, port.aw.size, port.aw.burst, port.beat)
    ensures LineOf(s.io[p].port.addr) < LINES && MemoryShape(s.w.flat) && idx < |s.w.c.data| && |s.w.c.data[idx]| == LINE_WORDS
  {
    hide Inv, RoutePart, PortPart, HistoryPart, OldPart, ReplacePart, TablePart, Service, Agrees, MemoryShape, Held, BeatAddr;
    SlotBounds(s.w, idx);
    ActiveDuty(p, s.io[p], DutyFor(s.w.e, p), s.t.LiveWr(), s.w.cacheable, k.iReadOnly && p == 0);
    PortWrites(p, s.io[p], s.t.LiveWr(), s.w.cacheable, k.iReadOnly && p == 0);
  }

  lemma BeatWrittenOk(k: Setup, s: Snap, p: nat, idx: nat, s': Snap)
    requires Ok(k, s) && p < 2 && BeatWritten(s, p, idx, s')
    ensures Ok(k, s') && Follows(s, s')
  {
    hide Inv, RoutePart, PortPart, HistoryPart, OldPart, ReplacePart, TablePart, Service, Follows, Agrees, NextWriteBeat, BeatAddr,
      WordStored, MemoryShape, Holds, WritePending, Live;
    var x := s.io[p];
    ActiveDuty(p, x, DutyFor(s.w.e, p), s.t.LiveWr(), s.w.cacheable, k.iReadOnly && p == 0);
    PortWrites(p, x, s.t.LiveWr(), s.w.cacheable, k.iReadOnly && p == 0);
    BeatWrittenKeeps(s, p, idx, s');
    PortDelivers(p, x.(wFifo := x.wFifo[1..], port := NextWriteBeat(x.port)), s'.io[p], NoDuty, s.t.LiveWr(), s.w.cacheable,
                 k.iReadOnly && p == 0);
    WordStoredOk(k, s, p, idx, s');
  }

  /** The arrays, the flat memory and the history after a cached write beat. */
  lemma WordStoredOk(k: Setup, s: Snap, p: nat, idx: nat, s': Snap)
    requires Core(k, s) && p < 2 && BeatWritten(s, p, idx, s') && DutyFor(s.w.e, p) == NoDuty && !(k.iReadOnly && p == 0)
    ensures Inv(s'.w) && HistoryPart(k.flat0, s'.h, s'.w.flat) && s'.w.b == s.w.b && s'.w.e == s.w.e && s'.w.g == s.w.g
    ensures s'.w.cacheable == s.w.cacheable && (k.iReadOnly ==> Agrees(s'.w.c, s'.w.e))
    ensures s'.w.mem == s.w.mem && OldPart(k.flat0, s'.h, s.w.mem, s.w.e)
  {
    hide Inv, RoutePart, PortPart, HistoryPart, OldPart, ReplacePart, TablePart, Agrees, NextWriteBeat, BeatAddr, MemoryShape,
      StoreAt, WriteSlot, Merge, Held, Sized;
    var x := s.io[p];
    var w, l, n := x.wFifo[0], LineOf(x.port.addr), WordOf(x.port.addr);
    InvSized(s.w);
    SlotBounds(s.w, idx);
    StoreHit(s.w, s'.w, idx, n, w.data, w.strb);
    var st := Store(p, l, n, w.data, w.strb);
    HistoryGrows(k.flat0, s.h, s.w.flat, st);
    OldAppend(k.flat0, s.h, s.w.mem, s.w.e, st);
    if x.port.beat == x.port.aw.len {
      OldAppend(k.flat0, s.h + [st], s.w.mem, s.w.e, Ack(p, x.port.aw.id));
      HistoryNotes(k.flat0, s.h + [st], s'.w.flat, Ack(p, x.port.aw.id));
    } else {
      assert s'.h == s.h + [st];
    }
    if k.iReadOnly {
      NoRace(s.io[0], s.w.e, s.t.LiveWr(), s.w.cacheable);
    }
  }

  lemma StartBypassReadOk(k: Setup, s: Snap, p: nat, full: bool, s': Snap)
    requires Ok(k, s) && BypassReadStep(s, k.cfg, p, full, s') && p < 2
    requires s.io[p].port.state == Idle && !IsCmo(s.io[p].arFifo[0].user) && s.io[p].arFifo[0].cache == 0
    ensures Ok(k, s') && Follows(s, s')
  {
    hide Inv, PortPart, HistoryPart, OldPart, RoutePart, ReplacePart, Service, Follows, Agrees;
    if s' != s {
      PortTakesAr(p, s.io[p], DutyFor(s.w.e, p), s.t.LiveWr(), s.w.cacheable, k.iReadOnly && p == 0);
      RouteReadIssued(s.w.b, s.t.LiveRd(), s.t.LiveWr(), s.w.cacheable, p, s.io[p].arFifo[0]);
      ReadBusOk(s.w.b, s.t.LiveRd(), s.t.LiveWr(), s.w.cacheable);
      assert s'.t.LiveRd() == s.t.LiveRd() + [p];
      IdleBus(s.w, s'.w);
      BypassReadKeeps(s, k.cfg, p, full, s');
    } else {
      Unchanged(s);
    }
  }

  lemma StartBypassWriteOk(k: Setup, s: Snap, p: nat, full: bool, s': Snap)
    requires Ok(k, s) && BypassWriteStep(s, k.cfg, p, full, s') && p < 2
    requires s.io[p].port.state == Idle && s.io[p].awFifo[0].cache == 0
    ensures Ok(k, s') && Follows(s, s')
  {
    hide Inv, PortPart, HistoryPart, OldPart, RoutePart, ReplacePart, Service, Follows, Agrees;
    if s' != s {
      var aw, live := s.io[p].awFifo[0], s.t.LiveWr();
      var c := WrCtx(p, 0, aw, false);
      PortTakesBypassWrite(p, s.io[p], DutyFor(s.w.e, p), live, s.w.cacheable, k.iReadOnly && p == 0);
      OtherTakesBypassWrite(1 - p, s.io[1 - p], DutyFor(s.w.e, 1 - p), live, s.w.cacheable, k.iReadOnly && 1 - p == 0, c);
      RouteWriteIssued(s.w.b, s.t.LiveRd(), live, s.w.cacheable, p, aw);
      WriteBusOk(s.w.b, s.t.LiveRd(), live, s.w.cacheable);
      assert s'.t.LiveWr() == live + [c];
      IdleBus(s.w, s'.w);
      BypassWriteKeeps(s, k.cfg, p, full, s');
    } else {
      Unchanged(s);
    }
  }

  lemma StartWriteOk(k: Setup, s: Snap, p: nat)
    requires Ok(k, s) && p < 2 && |s.io| == 2 && s.io[p].port.state == Idle && s.io[p].awFifo != []
    requires s.io[p].awFifo[0].cache != 0 && !BypassPending(s.t, p)
    ensures var s' := WithPort(s, p, s.io[p].(awFifo := s.io[p].awFifo[1..], port := TakeWrite(s.io[p].port, s.io[p].awFifo[0])));
            Ok(k, s') && Follows(s, s')
  {
    hide Inv, PortPart, HistoryPart, OldPart, RoutePart, ReplacePart, TablePart, Service, Follows, Agrees, WritePending, TakeWrite, Live;
    TakeWriteKeeps(s, p);
    ActiveDuty(p, s.io[p], DutyFor(s.w.e, p), s.t.LiveWr(), s.w.cacheable, k.iReadOnly && p == 0);
    PortTakesWrite(p, s.io[p], s.t.LiveWr(), s.w.cacheable, k.iReadOnly && p == 0);
  }

  lemma StartReadOk(k: Setup, s: Snap, p: nat)
    requires Ok(k, s) && p < 2 && |s.io| == 2 && s.io[p].port.state == Idle && s.io[p].arFifo != []
    requires !IsCmo(s.io[p].arFifo[0].user) && s.io[p].arFifo[0].cache != 0 && !BypassPending(s.t, p)
    ensures var s' := WithPort(s, p, s.io[p].(arFifo := s.io[p].arFifo[1..], port := TakeRead(s.io[p].port, s.io[p].arFifo[0])));
            Ok(k, s') && Follows(s, s')
  {
    hide Inv, PortPart, HistoryPart, OldPart, RoutePart, ReplacePart, TablePart, Service, Follows, Agrees, WritePending, Live;
    TakeReadKeeps(s, p, TakeRead(s.io[p].port, s.io[p].arFifo[0]));
    ActiveDuty(p, s.io[p], DutyFor(s.w.e, p), s.t.LiveWr(), s.w.cacheable, k.iReadOnly && p == 0);
    PortTakesRead(p, s.io[p], s.t.LiveWr(), s.w.cacheable, k.iReadOnly && p == 0);
  }

  lemma CmoRspOk(k: Setup, s: Snap, p: nat, full: bool, s': Snap)
    requires Ok(k, s) && p < 2 && |s.io| == 2 && s.io[p].port.state == CmoRsp && CmoRspStep(s, p, full, s')
    ensures Ok(k, s') && Follows(s, s')
  {
    hide Inv, PortPart, HistoryPart, OldPart, RoutePart, ReplacePart, TablePart, Service, Follows, Agrees, Live;
    if full {
      Unchanged(s);
    } else {
      PortAnswers(p, s.io[p], DutyFor(s.w.e, p), s.t.LiveWr(), s.w.cacheable, k.iReadOnly && p == 0);
      BusyPort(s, p);
      NothingComes(s.w, s.t.LiveRd(), s.t.LiveWr(), p);
      HistoryNotes(k.flat0, s.h, s.w.flat, s'.h[|s.h|]);
      OldAppend(k.flat0, s.h, s.w.mem, s.w.e, s'.h[|s.h|]);
      CmoRspKeeps(s, p, full, s');
    }
  }

  // ----- cache-block operations -----

  lemma StartCmoOk(k: Setup, s: Snap, p: nat, s': Snap)
    requires Ok(k, s) && p < 2 && |s.io| == 2 && s.io[p].port.state == Idle
    requires CmoStep(s, p, s') && IsCmo(s.io[p].arFifo[0].user)
    ensures Ok(k, s') && Follows(s, s')
  {
    hide Core, Service, Follows, Absent, CmoHit;
    CmoKeeps(s, p, s');
    if s.w.e.state != EIdle || !s.t.Empty() {
    } else if Absent(s.w, LineOf(s.io[p].arFifo[0].addr)) {
      CmoMissCore(k, s, p, s');
    } else {
      var i: nat :| CmoHit(s, p, i, s');
      if Cleans(s.io[p].arFifo[0].user) && CmoDirty(s.w, i) {
        CmoWritebackCore(k, s, p, i, s');
      } else {
        CmoAtOnceCore(k, s, p, i, s');
      }
    }
  }

  predicate CmoDirty(w: World, i: nat) { i < |w.c.dirtys| && w.c.dirtys[i] }

  lemma CmoMissCore(k: Setup, s: Snap, p: nat, s': Snap)
    requires Core(k, s) && p < 2 && |s.io| == 2 && s.io[p].port.state == Idle && s.io[p].arFifo != []
    requires IsCmo(s.io[p].arFifo[0].user) && s.w.e.state == EIdle && s.t.Empty()
    requires Absent(s.w, LineOf(s.io[p].arFifo[0].addr)) && LineOf(s.io[p].arFifo[0].addr) < |s.w.mem|
    requires s' == CmoTaken(s, p, false).(w := s.w.(e := s.w.e.(owner := p, cmoUser := s.io[p].arFifo[0].user)),
                                          h := SaveLog(s, p, s.io[p].arFifo[0]))
    ensures Core(k, s')
  {
    hide Inv, PortPart, HistoryPart, OldPart, RoutePart, ReplacePart, SavedBy, MemoryShape;
    AbsentLine(s.w, LineOf(s.io[p].arFifo[0].addr));
    PortTakesCmo(p, s.io[p], NoDuty, [], s.w.cacheable, k.iReadOnly && p == 0);
    IdleEngine(s.w, s'.w);
    OldEngine(k.flat0, s.h, s.w.mem, s.w.e, s'.w.e);
    SaveGrows(k, s, p, s.io[p].arFifo[0], s'.w.e);
  }

  /** With the engine idle, memory holds every line that is not cached. */
  lemma AbsentLine(w: World, line: nat)
    requires Inv(w) && w.e.state == EIdle && Absent(w, line) && line < |w.mem|
    ensures line < LINES && MemoryShape(w.mem) && MemoryShape(w.flat) && w.mem[line] == w.flat[line]
  {
    assert Backed(w, line);
  }

  lemma CmoWritebackCore(k: Setup, s: Snap, p: nat, i: nat, s': Snap)
    requires Core(k, s) && p < 2 && |s.io| == 2 && s.io[p].port.state == Idle && s.w.e.state == EIdle && s.t.Empty()
    requires CmoHit(s, p, i, s') && IsCmo(s.io[p].arFifo[0].user) && Cleans(s.io[p].arFifo[0].user) && CmoDirty(s.w, i)
    ensures Core(k, s')
  {
    hide Inv, PortPart, HistoryPart, OldPart, RoutePart, ReplacePart, Held;
    DrainedIsQuiet(s.w.b, s.w.cacheable);
    PortTakesCmo(p, s.io[p], CmoDuty(s'.w.e.wbLine), [], s.w.cacheable, k.iReadOnly && p == 0);
    CmoStarts(s.w, p, s.io[p].arFifo[0].user, i);
    OldEngine(k.flat0, s.h, s.w.mem, s.w.e, s'.w.e);
    RouteBusy(s.w.b, s.w.cacheable);
  }

  lemma CmoAtOnceCore(k: Setup, s: Snap, p: nat, i: nat, s': Snap)
    requires Core(k, s) && p < 2 && |s.io| == 2 && s.io[p].port.state == Idle && s.w.e.state == EIdle && s.t.Empty()
    requires CmoHit(s, p, i, s') && IsCmo(s.io[p].arFifo[0].user) && !(Cleans(s.io[p].arFifo[0].user) && CmoDirty(s.w, i))
    ensures Core(k, s')
  {
    hide Inv, PortPart, HistoryPart, OldPart, RoutePart, ReplacePart, Held, DropLine, Coherent;
    var ar := s.io[p].arFifo[0];
    PortTakesCmo(p, s.io[p], NoDuty, [], s.w.cacheable, k.iReadOnly && p == 0);
    SlotBounds(s.w, i);
    CmoClears(s.w, s'.w, i, ar.user);
    OldEngine(k.flat0, s.h, s.w.mem, s.w.e, s'.w.e);
    if CmoOp(ar.user) == 1 {
      HistoryGrows(k.flat0, s.h, s.w.flat, s'.h[|s.h|]);
      OldAppend(k.flat0, s.h, s.w.mem, s'.w.e, s'.h[|s.h|]);
    } else if Cleans(ar.user) {
      SaveGrows(k, s, p, ar, s'.w.e);
    }
  }

  /** A cache-block operation that needs no write-back keeps the arrays and the memories coherent. */
  lemma CmoClears(w: World, w': World, i: nat, user: bv32)
    requires Inv(w) && w.e.state == EIdle && w'.e.state == EIdle && i < |w.c.valids| && i < |w.c.dirtys| && w.c.valids[i]
    requires w.g.ways > 0 && i < |w.c.tags| && Held(w.g, w.c, i) < LINES && CmoOp(user) != 0 && !(Cleans(user) && w.c.dirtys[i])
    requires Held(w.g, w.c, i) < |w.mem| && Held(w.g, w.c, i) < |w.flat|
    requires w' == w.(c := DropLine(w.c, i, Invalidates(user)), e := w'.e, flat := w'.flat)
    requires w'.flat == if CmoOp(user) == 1 then w.flat[Held(w.g, w.c, i) := w.mem[Held(w.g, w.c, i)]] else w.flat
    ensures Inv(w')
  {
    hide Inv, Coherent, Held, DropLine;
    OpCases(user);
    SlotBounds(w, i);
    if CmoOp(user) == 1 {
      DiscardLine(w, w', i);
    } else {
      InvCoherent(w);
      DropLineIff(w, w', i, Invalidates(user));
      IdleInv(w');
    }
  }

  // ----- memory and the requesters -----

  lemma MemStoreFacts(k: Setup, s: Snap)
    requires Ok(k, s) && s.w.b.aw != [] && s.w.b.w != []
    ensures MemoryShape(s.w.mem) && MemoryShape(s.w.flat)
    ensures s.w.e.state == EIdle ==>
              && s.w.b.aw[0].BypassAw?
              && var aw := s.w.b.aw[0].aw;
              && s.w.b.applied <= aw.len && |aw.beats| == aw.len + 1 && s.w.b.w[0] == aw.beats[s.w.b.applied]
              && LineOf(BeatAddr(aw.addr, aw.size, aw.burst, s.w.b.applied)) < LINES
    ensures s.w.e.state != EIdle ==> s.w.e.wbLine < LINES && s.w.b.applied < LINE_WORDS
  {
    hide Inv, PortPart, HistoryPart, OldPart, RoutePart, ReplacePart, TablePart, BeatAddr, MemoryShape, Live, Service, Agrees;
    MemoriesSized(s.w);
    if s.w.e.state == EIdle {
      RouteWriteStored(s.w.b, s.t.LiveRd(), s.t.LiveWr(), s.w.cacheable);
    } else {
      EngineWrites(s.w);
    }
  }

  lemma MemStoreOk(k: Setup, s: Snap, s': Snap)
    requires Ok(k, s) && MemStoreStep(s, s')
    ensures Ok(k, s') && Follows(s, s')
  {
    hide Inv, PortPart, HistoryPart, OldPart, RoutePart, ReplacePart, TablePart, BeatAddr, MemoryShape, Live, Service, Agrees, Follows,
      StoreAt, Stored1, LineStored;
    if s.w.b.aw == [] || s.w.b.w == [] {
      Unchanged(s);
    } else {
      TablesOk(s.t, k.cfg.ostDepth, s.w.e.state == EIdle);
      MemStoreKeeps(s, s');
      if s.w.e.state == EIdle {
        RouteWriteStored(s.w.b, s.t.LiveRd(), s.t.LiveWr(), s.w.cacheable);
        var aw, w := s.w.b.aw[0].aw, s.w.b.w[0];
        var a := BeatAddr(aw.addr, aw.size, aw.burst, s.w.b.applied);
        MemStoresBypass(s.w, s'.w, LineOf(a), WordOf(a), w.data, w.strb);
        HistoryGrows(k.flat0, s.h, s.w.flat, s'.h[|s.h|]);
        BypassWord(s'.w, LineOf(a));
        OldBypass(k.flat0, s.h, s.w.mem, s.w.e, s'.h[|s.h|], s'.w.mem, s'.w.flat);
      } else {
        EngineWrites(s.w);
        MemStoresLine(s.w);
        OldStored(k.flat0, s.h, s.w);
        LineStoredTakes(s.w);
        RouteStillBusy(s'.w.b, s.t.LiveRd(), s.t.LiveWr(), s.w.cacheable);
      }
    }
  }

  lemma LineStoredTakes(w: World)
    requires MemoryShape(w.mem) && w.e.wbLine < LINES && w.b.applied < LINE_WORDS && w.b.w != [] && w.b.aw != []
    ensures var w' := LineStored(w);
            w'.e == w.e && w'.c == w.c && w'.g == w.g && w'.cacheable == w.cacheable && w'.flat == w.flat
  {
  }

  lemma MemServeFacts(k: Setup, s: Snap)
    requires Ok(k, s) && s.w.b.ar != []
    ensures MemoryShape(s.w.mem) && MemoryShape(s.w.flat)
    ensures s.w.e.state == EIdle ==>
              && s.w.b.ar[0].BypassAr?
              && var ar := s.w.b.ar[0].ar;
              && s.w.b.served <= ar.len && !IsCmo(ar.user)
              && var l := LineOf(BeatAddr(ar.addr, ar.size, ar.burst, s.w.b.served));
              l < LINES && s.w.mem[l] == s.w.flat[l]
    ensures s.w.e.state != EIdle ==> s.w.e.missLine < LINES && s.w.b.served < LINE_WORDS && s.w.b.ar[0].LineAr?
  {
    hide Inv, PortPart, HistoryPart, OldPart, RoutePart, ReplacePart, TablePart, BeatAddr, MemoryShape, Live, Service, Agrees;
    MemoriesSized(s.w);
    if s.w.e.state == EIdle {
      BypassReadAt(s.w.b, s.t.LiveRd(), s.t.LiveWr(), s.w.cacheable);
      BypassReadLine(s.w, s.t.LiveRd(), s.t.LiveWr());
    } else {
      EngineReads(s.w);
    }
  }

  lemma MemServeOk(k: Setup, s: Snap, s': Snap)
    requires Ok(k, s) && MemServeStep(s, s')
    ensures Ok(k, s') && Follows(s, s')
  {
    hide Inv, PortPart, HistoryPart, OldPart, RoutePart, ReplacePart, TablePart, BeatAddr, Live, Service, Agrees, Follows, Served1;
    if s.w.b.ar == [] {
      Unchanged(s);
    } else {
      TablesOk(s.t, k.cfg.ostDepth, s.w.e.state == EIdle);
      MemServeKeeps(s, s');
      if s.w.e.state == EIdle {
        BypassReadLine(s.w, s.t.LiveRd(), s.t.LiveWr());
        var ar := s.w.b.ar[0].ar;
        var a := BeatAddr(ar.addr, ar.size, ar.burst, s.w.b.served);
        RouteReadServed(s.w.b, s.t.LiveRd(), s.t.LiveWr(), s.w.cacheable, s.w.mem[LineOf(a)][WordOf(a)]);
        IdleBus(s.w, s'.w);
        HistoryGrows(k.flat0, s.h, s.w.flat, s'.h[|s.h|]);
        OldAppend(k.flat0, s.h, s.w.mem, s.w.e, s'.h[|s.h|]);
      } else {
        EngineReads(s.w);
        MemServesLine(s.w);
        RouteStillBusy(s'.w.b, s.t.LiveRd(), s.t.LiveWr(), s.w.cacheable);
      }
    }
  }

  lemma OtherFacts(k: Setup, s: Snap)
    requires Ok(k, s)
    ensures MemoryShape(s.w.mem) && MemoryShape(s.w.flat)
  {
    hide Inv, PortPart, HistoryPart, OldPart, RoutePart, ReplacePart, TablePart, Service, Agrees, MemoryShape;
    MemoriesSized(s.w);
  }

  /** A store of another master outside the cacheable lines keeps the whole invariant. */
  lemma OtherOk(k: Setup, s: Snap, line: nat, word: nat, data: Word, strb: Strobe, s': Snap)
    requires Ok(k, s) && OtherStep(s, line, word, data, strb, s') && line !in s.w.cacheable
    ensures Ok(k, s') && Follows(s, s')
  {
    hide Inv, PortPart, HistoryPart, OldPart, RoutePart, ReplacePart, TablePart, Service, Agrees, Follows, StoreAt, MemoryShape;
    OtherKeeps(s, line, word, data, strb, s');
    MemoryWritten(s.w, line, word, data, strb);
    var ev := Foreign(line, word, data, strb);
    HistoryGrows(k.flat0, s.h, s.w.flat, ev);
    StoredAlike(s.w.mem, s.w.flat, line, word, data, strb);
    OldBypass(k.flat0, s.h, s.w.mem, s.w.e, ev, s'.w.mem, s'.w.flat);
  }

  lemma StoredAlike(mem: seq<Line>, flat: seq<Line>, line: nat, word: nat, data: Word, strb: Strobe)
    requires MemoryShape(mem) && MemoryShape(flat) && line < LINES && word < LINE_WORDS && mem[line] == flat[line]
    ensures StoreAt(mem, line, word, data, strb)[line] == StoreAt(flat, line, word, data, strb)[line]
  {
  }

  lemma AskedOk(k: Setup, s: Snap, p: nat, ar: Ar)
    requires Ok(k, s) && p < 2 && |s.io| == 2 && Allowed(AskRead(p, ar), s.w.cacheable, k.iReadOnly)
    ensures Ok(k, Asked(s, p, ar))
  {
    hide Inv, PortPart, HistoryPart, OldPart, RoutePart, ReplacePart, TablePart, WellFormedAr, Service, Agrees;
    PortRequests(p, s.io[p], DutyFor(s.w.e, p), s.t.LiveWr(), s.w.cacheable, k.iReadOnly && p == 0, ar);
    AskedKeeps(s, p, ar);
  }

  lemma AskedWriteOk(k: Setup, s: Snap, p: nat, aw: Aw)
    requires Ok(k, s) && p < 2 && |s.io| == 2 && Allowed(AskWrite(p, aw), s.w.cacheable, k.iReadOnly)
    ensures Ok(k, AskedWrite(s, p, aw))
  {
    hide Inv, PortPart, HistoryPart, OldPart, RoutePart, ReplacePart, TablePart, WellFormedAw, Service, Agrees;
    PortRequestsWrite(p, s.io[p], DutyFor(s.w.e, p), s.t.LiveWr(), s.w.cacheable, k.iReadOnly && p == 0, aw);
    AskedWriteKeeps(s, p, aw);
  }

  ghost function ResetSnap(g: Geometry, cacheable: iset<nat>, mem: seq<Line>): (s: Snap)
  {
    Snap(World(g, cacheable, ResetCache(g.sets * g.ways), RESET_ENGINE, QUIET, mem, mem), [RESET_IO, RESET_IO],
         RESET_TABLES, ResetWays(g.sets), false, [])
  }

  lemma ResetOk(k: Setup, g: Geometry, cacheable: iset<nat>)
    requires g.sets > 0 && g.ways > 0 && MemoryShape(k.flat0)
    ensures Ok(k, ResetSnap(g, cacheable, k.flat0))
  {
    hide Inv, PortPart, RoutePart, HistoryPart, OldPart, ReplacePart, TablePart, MemoryShape, ResetCache, ResetWays, Service, Agrees;
    ResetFacts(g, k.cfg.ostDepth, cacheable, k.iReadOnly, k.flat0);
    var s := ResetSnap(g, cacheable, k.flat0);
    ResetService(s.w, s.ways);
    OldReset(k.flat0);
  }

  /** What the invariant and the record of a run say at its end. */
  lemma RunMeans(k: Setup, s: Snap, schedule: seq<Action>, s': Snap)
    requires Ok(k, s') && Advanced(s, schedule, s')
    ensures MemoryShape(k.flat0) && Legal(k.flat0, s'.h) && s'.w.flat == Replay(k.flat0, s'.h) && DropsOld(k.flat0, s'.h)
    ensures |s.io| == |s'.io| == 2 && Delivered(s', 0) && Delivered(s', 1) && s.h <= s'.h
    ensures AnswersSaved(s'.h, 0) && AnswersSaved(s'.h, 1)
    ensures forall p | 0 <= p < 2 ::
              && s'.io[p].arAsked == s.io[p].arAsked + ReadsAsked(schedule, p)
              && s'.io[p].awAsked == s.io[p].awAsked + WritesAsked(schedule, p)
              && s.io[p].rOut <= s'.io[p].rOut && s.io[p].bOut <= s'.io[p].bOut
  {
    hide Inv, PortPart, RoutePart, TablePart, ReplacePart, Service, Legal, Replay, DropsOld, Seen, ReadsAsked, WritesAsked, Delivered;
    ServiceDelivers(s', 0);
    ServiceDelivers(s', 1);
    ServiceCleans(s');
  }
}
