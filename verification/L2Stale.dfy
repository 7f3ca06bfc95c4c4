/** A run of the L2 cache in which a requester reads back an old word: a flush of a dirty line is
    answered after another port has stored into the line, and the store is lost. */
module L2Stale {
  import opened Words
  import OstQueue
  import opened L2Types
  import opened FlatMemory
  import opened L2Coherence
  import opened L2Traffic
  import opened L2Ports
  import opened L2Steps
  import opened L2Invariant

  // ----- what is lost, in every state -----

  /** When a late answer is taken, memory is left without a word that the requesters were promised,
      and no slot is marked as holding it. */
  lemma LateIsLost(s: World) returns (k: nat)
    requires Inv(s) && Late(s)
    ensures s.e.cmoIdx < |s.c.dirtys| && s.e.cmoIdx < |s.c.valids| && s.e.wbLine < LINES && k < LINE_WORDS
    ensures var s' := CmoEnds(s);
            && Sized(s') && s'.mem[s.e.wbLine][k] == s.e.sent[k] != s'.flat[s.e.wbLine][k]
            && (if Invalidates(s.e.cmoUser) then NotCached(s'.g, s'.c, s.e.wbLine) else !s'.c.dirtys[s.e.cmoIdx])
  {
    CmoLineCopied(s);
    var d, sent := s.c.data[s.e.cmoIdx], s.e.sent;
    assert |d| == |sent| == LINE_WORDS;
    k := Differs(d, sent);
    assert forall i: nat | i < |s.c.tags| :: Held(s.g, CmoEnds(s).c, i) == Held(s.g, s.c, i);
  }

  lemma Differs<T>(a: seq<T>, b: seq<T>) returns (k: nat)
    requires |a| == |b| && a != b
    ensures k < |a| && a[k] != b[k]
  {
    k :| k < |a| && a[k] != b[k];
  }

  // ----- runs as lists of states -----

  ghost predicate Path(cfg: Config, acts: seq<Action>, trail: seq<Snap>)
  {
    && |trail| == |acts| + 1
    && forall i | 0 <= i < |acts| :: StepOk(trail[i], cfg, acts[i], trail[i + 1])
  }

  lemma Join(cfg: Config, acts: seq<Action>, trail: seq<Snap>, acts': seq<Action>, trail': seq<Snap>)
    requires Path(cfg, acts, trail) && Path(cfg, acts', trail') && trail[|acts|] == trail'[0]
    ensures Path(cfg, acts + acts', trail + trail'[1..])
    ensures (trail + trail'[1..])[0] == trail[0] && (trail + trail'[1..])[|acts| + |acts'|] == trail'[|acts'|]
  {
    hide StepOk;
    var a, t := acts + acts', trail + trail'[1..];
    forall i | 0 <= i < |a|
      ensures StepOk(t[i], cfg, a[i], t[i + 1])
    {
      if i >= |acts| {
        assert t[i] == trail'[i - |acts|] && t[i + 1] == trail'[i + 1 - |acts|];
        assert StepOk(trail'[i - |acts|], cfg, acts'[i - |acts|], trail'[i - |acts| + 1]);
      } else {
        assert t[i] == trail[i] && t[i + 1] == trail[i + 1];
      }
    }
  }

  lemma Extend(cfg: Config, acts: seq<Action>, trail: seq<Snap>, a: Action, s': Snap)
    requires Path(cfg, acts, trail) && StepOk(trail[|acts|], cfg, a, s')
    ensures Path(cfg, acts + [a], trail + [s']) && (trail + [s'])[0] == trail[0] && (trail + [s'])[|acts| + 1] == s'
  {
    hide StepOk;
  }

  lemma PathLength(cfg: Config, acts: seq<Action>, trail: seq<Snap>)
    requires Path(cfg, acts, trail)
    ensures |trail| == |acts| + 1
  {
  }

  lemma Start(cfg: Config, s: Snap)
    ensures Path(cfg, [], [s])
  {
  }

  // ----- clocks without back-pressure -----

  const OPEN := PortStall(false, false, false, false, false, false, false)
  const FREE := Stall(false, false, false, OPEN, OPEN)

  /** Nothing to capture and nothing to do for this port. */
  predicate Parked(x: PortIo)
  {
    && x.arLink == [] && x.awLink == [] && x.wLink == []
    && (x.port.state == MissWait || x.port.state == CmoWait || (x.port.state == Idle && x.arFifo == [] && x.awFifo == []))
  }

  lemma ParkedRests(s: Snap, cfg: Config, p: nat)
    requires p < |s.io| && Parked(s.io[p])
    ensures Captured(s.io[p], cfg.stgDepth, OPEN) == s.io[p] && PortStep(s, cfg, p, OPEN, s)
  {
  }

  predicate Calm(s: Snap) { |s.io| == 2 && s.t == RESET_TABLES }

  /** A clock in which only the ports work. */
  lemma PortsTick(cfg: Config, s: Snap, s1: Snap, s2: Snap)
    requires Calm(s) && (s.w.e.state == EIdle || (s.w.e.state == CmoWbB && s.w.b.b == []))
    requires PortStep(Staged(s, cfg, FREE), cfg, 0, OPEN, s1) && PortStep(s1, cfg, 1, OPEN, s2)
    ensures StepOk(s, cfg, Tick(FREE), s2)
  {
    hide PortStep, Captured;
    var c := Staged(s, cfg, FREE);
    var m := [c, c, c, c, c, c, c, c, c, s1];
    assert ClockPath(s, cfg, FREE, m, s2);
  }

  /** The clock before the engine and the ports work, when both ports are parked. */
  lemma ParkedStage(cfg: Config, s: Snap)
    requires Calm(s) && Parked(s.io[0]) && Parked(s.io[1])
    ensures Staged(s, cfg, FREE) == s.(used := false)
  {
    hide PortStep, Captured, Parked;
    ParkedRests(s, cfg, 0);
    ParkedRests(s, cfg, 1);
  }

  /** A clock in which only the engine works, by one of its steps. */
  lemma EngineTick(cfg: Config, s: Snap, s': Snap)
    requires Calm(s) && Parked(s.io[0]) && Parked(s.io[1]) && s'.io == s.io && s'.t == s.t
    requires var c := s.(used := false);
             || (s.w.e.state == CmoWbAw && s'.w.e.state == CmoWbW && WbAwStep(c, false, s'))
             || (s.w.e.state == CmoWbW && (s'.w.e.state == CmoWbW || s'.w.e.state == CmoWbB) && WbWStep(c, false, s'))
             || (s.w.e.state == RefillAr && s'.w.e.state == RefillR && RefillArStep(c, false, s'))
             || (s.w.e.state == RefillR && s'.w.e.state == RefillR && RefillRStep(c, s'))
    ensures StepOk(s, cfg, Tick(FREE), s')
  {
    hide PortStep, Captured, Parked, WbAwStep, WbWStep, WbBStep, RefillArStep, RefillRStep, CmoBStep, Staged, BypassRStep,
      BypassWStep, BypassBStep;
    ParkedStage(cfg, s);
    ParkedRests(s', cfg, 0);
    ParkedRests(s', cfg, 1);
    var c := s.(used := false);
    Resting(c);
    Resting(s');
    var m := [c, c, c, c, c] +
             if s.w.e.state == RefillR then [s', s', s', s', s']
             else if s.w.e.state == CmoWbW then [c, s', s', s', s']
             else if s.w.e.state == CmoWbAw then [c, c, s', s', s']
             else [c, c, c, s', s'];
    assert ClockPath(s, cfg, FREE, m, s');
  }

  /** The steps that do not apply in a state change nothing. */
  lemma Resting(s: Snap)
    requires s.t == RESET_TABLES
    ensures BypassRStep(s, FREE, s) && BypassWStep(s, false, s) && BypassBStep(s, FREE, s)
    ensures s.w.e.state != CmoWbB ==> CmoBStep(s, s)
    ensures s.w.e.state != WbB ==> WbBStep(s, s)
    ensures s.w.e.state != RefillR ==> RefillRStep(s, s)
    ensures s.w.e.state != WbW && s.w.e.state != CmoWbW ==> WbWStep(s, false, s)
    ensures s.w.e.state != WbAw && s.w.e.state != CmoWbAw ==> WbAwStep(s, false, s)
    ensures s.w.e.state != RefillAr ==> RefillArStep(s, false, s)
  {
  }

  /** The clock that takes the last refill beat and lets the resumed port work. */
  lemma RefillTick(cfg: Config, s: Snap, m: Snap, s': Snap)
    requires Calm(s) && Parked(s.io[0]) && Parked(s.io[1]) && s.w.e.state == RefillR
    requires RefillRStep(s.(used := false), m) && m.w.e.state == EIdle && |m.io| == 2 && m.io[0] == s.io[0] && m.t == s.t
    requires PortStep(m, cfg, 1, OPEN, s')
    ensures StepOk(s, cfg, Tick(FREE), s')
  {
    hide PortStep, Captured, Parked, RefillRStep, Staged, WbAwStep, WbWStep, WbBStep, RefillArStep, CmoBStep, BypassRStep,
      BypassWStep, BypassBStep;
    ParkedStage(cfg, s);
    ParkedRests(m, cfg, 0);
    var c := s.(used := false);
    Resting(c);
    Resting(m);
    assert ClockPath(s, cfg, FREE, [c, c, c, c, c, m, m, m, m, m], s');
  }

  /** The clock that takes the answer to a cache-block write-back and lets its port answer. */
  lemma EndTick(cfg: Config, s: Snap, m: Snap, s': Snap)
    requires Calm(s) && Parked(s.io[0]) && Parked(s.io[1]) && s.w.e.state == CmoWbB
    requires CmoBStep(s.(used := false), m) && m.w.e.state == EIdle && |m.io| == 2 && m.t == s.t
    requires PortStep(m, cfg, 0, OPEN, s') && |s'.io| == 2 && Parked(s'.io[1])
    ensures StepOk(s, cfg, Tick(FREE), s')
  {
    hide PortStep, Captured, Parked, CmoBStep, Staged, WbAwStep, WbWStep, WbBStep, RefillArStep, RefillRStep, BypassRStep,
      BypassWStep, BypassBStep;
    ParkedStage(cfg, s);
    ParkedRests(s', cfg, 1);
    var c := s.(used := false);
    Resting(c);
    Resting(m);
    assert ClockPath(s, cfg, FREE, [c, c, c, m, m, m, m, m, m, s'], s');
  }

  // ----- a cache of one line -----

  const ONE := Geometry(1, 1)

  /** The arrays of a cache with one slot, which holds line 0 if anything. */
  function Slot(valid: bool, dirty: bool, data: Line): Cache { Cache([0], [valid], [dirty], [data]) }

  /** Port 1 waits for line 0, whose first `k` words are in the slot. */
  ghost predicate RefillAt(s: Snap, k: nat)
  {
    && Calm(s) && Parked(s.io[0]) && Parked(s.io[1])
    && s.io[1].port.state == MissWait && (s.io[1].port.missReturn == Read || s.io[1].port.missReturn == Write)
    && MemoryShape(s.w.mem) && s.w.e.owner == 1 && s.w.e.missLine == 0 && s.w.e.missIdx == 0 && s.w.e.missTag == 0
    && s.w.e.state == RefillR
    && s.w.e.beat == k < LINE_WORDS
    && |s.w.c.data| == 1 && |s.w.c.data[0]| == LINE_WORDS && s.w.c == Slot(false, false, s.w.c.data[0])
    && s.w.c.data[0][..k] == s.w.mem[0][..k]
  }

  /** Nothing but the slot's words, the beat counter and the bus differ. */
  ghost predicate RefillMoved(s: Snap, s': Snap)
  {
    s' == s.(w := s.w.(c := s'.w.c, e := s.w.e.(beat := s'.w.e.beat), b := s'.w.b), used := s'.used)
  }

  const LAST := LINE_WORDS - 1

  function Asking(served: nat): Bus { QUIET.(ar := [LineAr(0)], served := served) }

  lemma ServeBeat(cfg: Config, s: Snap, k: nat)
    requires RefillAt(s, k) && s.w.b == Asking(k)
    ensures s.w.e.missLine < |s.w.mem| && s.w.b.served < |s.w.mem[s.w.e.missLine]|
    ensures StepOk(s, cfg, MemoryServes, s.(w := LineServed(s.w)))
    ensures LineServed(s.w) == s.w.(b := if k == LAST then QUIET.(r := [MemR(ForEngine, 0, s.w.mem[0][k], true)])
                                         else Asking(k + 1).(r := [MemR(ForEngine, 0, s.w.mem[0][k], false)]))
  {
  }

  lemma TakeBeat(cfg: Config, s: Snap, k: nat) returns (s': Snap)
    requires RefillAt(s, k) && k < LAST && s.w.b == Asking(k + 1).(r := [MemR(ForEngine, 0, s.w.mem[0][k], false)])
    ensures StepOk(s, cfg, Tick(FREE), s') && RefillAt(s', k + 1) && s'.w.b == Asking(k + 1) && RefillMoved(s, s')
  {
    hide StepOk, Parked;
    s' := s.(w := RefillTaken(s.w), used := true);
    assert s'.w.c.data[0][..k + 1] == s.w.mem[0][..k + 1];
    assert RefillRStep(s.(used := false), s');
    EngineTick(cfg, s, s');
  }

  lemma {:induction false} RefillLoop(cfg: Config, s: Snap, k: nat) returns (acts: seq<Action>, trail: seq<Snap>)
    requires RefillAt(s, k) && s.w.b == Asking(k)
    ensures Path(cfg, acts, trail) && trail[0] == s && RefillMoved(s, trail[|acts|])
    ensures RefillAt(trail[|acts|], LAST) && trail[|acts|].w.b == QUIET.(r := [MemR(ForEngine, 0, s.w.mem[0][LAST], true)])
    ensures forall a | a in acts :: a.Tick? || a.MemoryStores? || a.MemoryServes?
    decreases LINE_WORDS - k
  {
    hide StepOk, Path;
    ServeBeat(cfg, s, k);
    var m := s.(w := LineServed(s.w));
    Start(cfg, s);
    Extend(cfg, [], [s], MemoryServes, m);
    acts, trail := [] + [MemoryServes], [s] + [m];
    if k < LAST {
      var n := TakeBeat(cfg, m, k);
      Extend(cfg, acts, trail, Tick(FREE), n);
      acts, trail := acts + [Tick(FREE)], trail + [n];
      var more, rest := RefillLoop(cfg, n, k + 1);
      PathLength(cfg, more, rest);
      Join(cfg, acts, trail, more, rest);
      acts, trail := acts + more, trail + rest[1..];
    }
  }

  // ----- the write-back -----

  /** The first `k` words of the slot have been sent to memory and stored there. */
  ghost predicate SendingAt(s: Snap, k: nat, d: Line)
  {
    && Calm(s) && Parked(s.io[0]) && Parked(s.io[1])
    && MemoryShape(s.w.mem) && s.w.c == Slot(true, true, d) && |d| == LINE_WORDS
    && s.w.e.state == CmoWbW && s.w.e.beat == k < LINE_WORDS && s.w.e.wbLine == 0 && s.w.e.cmoIdx == 0
    && s.w.e.sent == d[..k] && s.w.b == QUIET.(aw := [LineAw(0)], applied := k) && s.w.mem[0][..k] == d[..k]
  }

  /** All words have been sent; memory has still to store the last one. */
  ghost predicate SentAll(s: Snap, d: Line)
  {
    && Calm(s) && MemoryShape(s.w.mem) && |d| == LINE_WORDS
    && s.w.e.state == CmoWbB && s.w.e.wbLine == 0 && s.w.e.cmoIdx == 0 && s.w.e.sent == d
    && s.w.b == QUIET.(aw := [LineAw(0)], applied := LAST, w := [LineBeat(d[LAST], LAST)]) && s.w.mem[0][..LAST] == d[..LAST]
  }

  ghost predicate SendMoved(s: Snap, s': Snap)
  {
    s' == s.(w := s.w.(e := s.w.e.(beat := s'.w.e.beat, sent := s'.w.e.sent, state := s'.w.e.state), b := s'.w.b, mem := s'.w.mem),
             used := s'.used)
  }

  lemma SendBeat(cfg: Config, s: Snap, k: nat, d: Line) returns (s': Snap)
    requires SendingAt(s, k, d)
    ensures StepOk(s, cfg, Tick(FREE), s') && SendMoved(s, s')
    ensures s'.w.e == BeatGone(s.w.e, d[k]) && s'.w.mem == s.w.mem && s'.w.b == s.w.b.(w := [LineBeat(d[k], k)])
  {
    hide StepOk, Parked;
    s' := s.(w := BeatSent(s.w), used := false);
    EngineTick(cfg, s, s');
  }

  lemma StoreBeat(cfg: Config, s: Snap, k: nat, word: Word)
    requires MemoryShape(s.w.mem) && s.w.e.state != EIdle && s.w.e.wbLine == 0 && k < LINE_WORDS
    requires s.w.b == QUIET.(aw := [LineAw(0)], applied := k, w := [LineBeat(word, k)])
    ensures StepOk(s, cfg, MemoryStores, s.(w := LineStored(s.w)))
    ensures LineStored(s.w) == s.w.(mem := s.w.mem[0 := s.w.mem[0][k := word]],
                                    b := if k == LAST then QUIET.(b := [ForEngine]) else QUIET.(aw := [LineAw(0)], applied := k + 1))
  {
    MergeAll(s.w.mem[0][k], word);
  }

  lemma MergeAll(prev: Word, data: Word)
    ensures Merge(prev, data, ALL_LANES) == data
  {
  }

  lemma {:induction false} SendLoop(cfg: Config, s: Snap, k: nat, d: Line) returns (acts: seq<Action>, trail: seq<Snap>)
    requires SendingAt(s, k, d)
    ensures Path(cfg, acts, trail) && trail[0] == s && SendMoved(s, trail[|acts|]) && SentAll(trail[|acts|], d)
    ensures forall a | a in acts :: a.Tick? || a.MemoryStores? || a.MemoryServes?
    decreases LINE_WORDS - k
  {
    hide StepOk, Path, Parked;
    var m := SendBeat(cfg, s, k, d);
    Start(cfg, s);
    Extend(cfg, [], [s], Tick(FREE), m);
    acts, trail := [] + [Tick(FREE)], [s] + [m];
    assert d[..k] + [d[k]] == d[..k + 1];
    if k < LAST {
      StoreBeat(cfg, m, k, d[k]);
      var n := m.(w := LineStored(m.w));
      Extend(cfg, acts, trail, MemoryStores, n);
      acts, trail := acts + [MemoryStores], trail + [n];
      assert n.w.mem[0][..k + 1] == d[..k + 1];
      var more, rest := SendLoop(cfg, n, k + 1, d);
      PathLength(cfg, more, rest);
      Join(cfg, acts, trail, more, rest);
      acts, trail := acts + more, trail + rest[1..];
    } else {
      assert d[..LINE_WORDS] == d;
    }
  }

  // ----- what the ports do -----

  const FLUSH := Ar(2, 0, 0, 2, Incr, 0, 0xC3)
  const LOAD := Ar(3, 0, 0, 2, Incr, 15, 0)

  /** A store of one word at address 0. */
  function StoreOf(word: Word): Aw { Aw(1, 0, 0, 2, Incr, 15, [W(word, ALL_LANES, true)]) }

  /** Port 1 takes up a cached write. */
  lemma TakesWrite(cfg: Config, s: Snap, word: Word) returns (s': Snap)
    requires Calm(s) && Parked(s.io[0]) && (s.w.e.state == EIdle || (s.w.e.state == CmoWbB && s.w.b.b == [])) && cfg.stgDepth > 0
    requires var x := s.io[1];
             && x.port.state == Idle && x.arFifo == x.arLink == [] && x.awFifo == [] && x.wFifo == []
             && x.awLink == [StoreOf(word)] && x.wLink == StoreOf(word).beats
    ensures StepOk(s, cfg, Tick(FREE), s')
    ensures var x := s.io[1];
            s' == s.(used := false, io := s.io[1 := x.(awLink := [], wLink := [], wFifo := StoreOf(word).beats,
                                                       port := TakeWrite(x.port, StoreOf(word)))])
  {
    var x := s.io[1];
    s' := s.(used := false, io := s.io[1 := x.(awLink := [], wLink := [], wFifo := StoreOf(word).beats,
                                               port := TakeWrite(x.port, StoreOf(word)))]);
    var c := Staged(s, cfg, FREE);
    assert [] + [StoreOf(word)] == [StoreOf(word)] && [StoreOf(word)][1..] == [] && StoreOf(word).beats[1..] == [];
    assert [] + [StoreOf(word).beats[0]] == StoreOf(word).beats;
    assert c.io[1] == x.(awLink := [], awFifo := [StoreOf(word)], wLink := [], wFifo := StoreOf(word).beats);
    ParkedRests(s, cfg, 0);
    ParkedRests(c, cfg, 0);
    assert PortIdleStep(c, cfg, 1, OPEN, s');
    PortsTick(cfg, s, c, s');
  }

  lemma TakesRead(cfg: Config, s: Snap) returns (s': Snap)
    requires Calm(s) && Parked(s.io[0]) && s.w.e.state == EIdle && cfg.stgDepth > 0
    requires var x := s.io[1];
             && x.port.state == Idle && x.awFifo == x.awLink == [] && x.arFifo == [] && x.wLink == [] && x.arLink == [LOAD]
    ensures StepOk(s, cfg, Tick(FREE), s')
    ensures var x := s.io[1]; s' == s.(used := false, io := s.io[1 := x.(arLink := [], port := TakeRead(x.port, LOAD))])
  {
    var x := s.io[1];
    s' := s.(used := false, io := s.io[1 := x.(arLink := [], port := TakeRead(x.port, LOAD))]);
    var c := Staged(s, cfg, FREE);
    assert [] + [LOAD] == [LOAD] && [LOAD][1..] == [];
    assert c.io[1] == x.(arLink := [], arFifo := [LOAD]);
    ParkedRests(s, cfg, 0);
    ParkedRests(c, cfg, 0);
    assert PortIdleStep(c, cfg, 1, OPEN, s');
    PortsTick(cfg, s, c, s');
  }

  /** Port 1 works on address 0. */
  predicate AtZero(x: PortIo)
  {
    && x.arLink == [] && x.awLink == [] && x.wLink == [] && x.port.addr == 0
    && (x.port.state == Read || (x.port.state == Write && x.wFifo != []))
  }

  /** Port 1 misses, and the refill of line 0 is asked for. */
  lemma Misses(cfg: Config, s: Snap) returns (m: Snap, s': Snap)
    requires Calm(s) && Parked(s.io[0]) && AtZero(s.io[1]) && cfg.latency == 0 && s.w.e.state == EIdle && s.w.b == QUIET
    requires s.w.g == ONE && |s.w.c.data| == 1 && |s.w.c.data[0]| == LINE_WORDS && s.w.c == Slot(false, false, s.w.c.data[0])
    requires |s.ways| == 1 && MemoryShape(s.w.mem)
    ensures StepOk(s, cfg, Tick(FREE), m) && StepOk(m, cfg, Tick(FREE), s') && RefillAt(s', 0) && s'.w.b == Asking(0)
    ensures var port := s.io[1].port.(latencyActive := false, delay := 0, state := MissWait, missReturn := s.io[1].port.state);
            s' == s.(w := s.w.(e := s'.w.e, b := Asking(0)), used := false, io := s.io[1 := s.io[1].(port := port)])
  {
    hide StepOk, Parked;
    m := MissTick(cfg, s);
    s' := m.(w := RefillAsked(m.w));
    ParkedPort(s.io[1], m.io[1].port);
    EngineTick(cfg, m, s');
  }

  lemma ParkedPort(x: PortIo, port: Port)
    requires AtZero(x) && port.state == MissWait
    ensures Parked(x.(port := port))
  {
  }

  lemma MissTick(cfg: Config, s: Snap) returns (s': Snap)
    requires Calm(s) && Parked(s.io[0]) && AtZero(s.io[1]) && cfg.latency == 0 && s.w.e.state == EIdle
    requires s.w.g == ONE && |s.w.c.data| == 1 && |s.w.c.data[0]| == LINE_WORDS && s.w.c == Slot(false, false, s.w.c.data[0])
    requires |s.ways| == 1
    ensures StepOk(s, cfg, Tick(FREE), s')
    ensures var port := s.io[1].port.(latencyActive := false, delay := 0, state := MissWait, missReturn := s.io[1].port.state);
            s' == s.(w := s.w.(e := Claim(s.w.g, s.w.c, s.w.e, 1, 0, 0)), used := false, io := s.io[1 := s.io[1].(port := port)])
  {
    hide StepOk, Parked, Claim;
    var c := Staged(s, cfg, FREE);
    ParkedRests(s, cfg, 0);
    assert c == s.(used := false);
    ParkedRests(c, cfg, 0);
    var d := Delayed(c, 1, 0);
    var port := s.io[1].port.(latencyActive := false, delay := 0, state := MissWait, missReturn := s.io[1].port.state);
    s' := s.(w := s.w.(e := Claim(s.w.g, s.w.c, s.w.e, 1, 0, 0)), used := false, io := s.io[1 := s.io[1].(port := port)]);
    assert s.w.c.valids[0 := false] == s.w.c.valids;
    assert MissAt(d, 1, 0, s');
    assert Absent(c.w, 0);
    assert PortStep(c, cfg, 1, OPEN, s');
    PortsTick(cfg, s, c, s');
  }

  /** What the last refill beat does. */
  lemma LastBeat(s: Snap) returns (m: Snap)
    requires RefillAt(s, LAST) && s.w.b == QUIET.(r := [MemR(ForEngine, 0, s.w.mem[0][LAST], true)])
    ensures RefillRStep(s.(used := false), m)
    ensures var port := s.io[1].port.(state := s.io[1].port.missReturn, missResolved := true);
            m == s.(w := s.w.(c := Slot(true, false, s.w.mem[0]), e := s.w.e.(state := EIdle), b := QUIET), used := true,
                    io := s.io[1 := s.io[1].(port := port)])
  {
    hide Parked;
    var port := s.io[1].port.(state := s.io[1].port.missReturn, missResolved := true);
    m := s.(w := RefillTaken(s.w), used := true, io := s.io[1 := s.io[1].(port := port)]);
    assert s.w.c.data[0][LAST := s.w.mem[0][LAST]] == s.w.mem[0];
    assert m.w.c == Slot(true, false, s.w.mem[0]);
  }

  /** The port resumed by its refill finds the data array in use. */
  lemma ResumesWrite(cfg: Config, s: Snap) returns (s': Snap)
    requires RefillAt(s, LAST) && s.w.b == QUIET.(r := [MemR(ForEngine, 0, s.w.mem[0][LAST], true)]) && s.w.g == ONE
    requires s.io[1].port.missReturn == Write && s.io[1].wFifo != [] && s.io[1].port.addr == 0
    ensures StepOk(s, cfg, Tick(FREE), s')
    ensures var port := s.io[1].port.(state := Write, missResolved := true, latencyActive := false, delay := 0);
            s' == s.(w := s.w.(c := Slot(true, false, s.w.mem[0]), e := s.w.e.(state := EIdle), b := QUIET), used := true,
                     io := s.io[1 := s.io[1].(port := port)])
  {
    hide StepOk, Parked, RefillRStep;
    var m := LastBeat(s);
    s' := Delayed(m, 1, cfg.latency);
    HitSlot(m.w, s.w.mem[0], false);
    assert PortStep(m, cfg, 1, OPEN, s');
    RefillTick(cfg, s, m, s');
  }

  lemma HitSlot(w: World, d: Line, dirty: bool)
    requires w.g == ONE && |d| == LINE_WORDS && w.c == Slot(true, dirty, d)
    ensures Holds(w, 0, 0) && !Absent(w, 0)
  {
    assert Held(w.g, w.c, 0) == 0;
  }

  lemma StoreSlot(w: World, word: Word, d: Line, dirty: bool)
    requires w.g == ONE && |d| == LINE_WORDS && w.c == Slot(true, dirty, d) && MemoryShape(w.flat)
    ensures Held(w.g, w.c, 0) == 0
    ensures WordStored(w, 0, 0, word, ALL_LANES)
              == w.(c := Slot(true, true, d[0 := word]), flat := w.flat[0 := w.flat[0][0 := word]])
  {
    MergeAll(d[0], word);
    MergeAll(w.flat[0][0], word);
  }

  /** Port 1 is about to store into the slot. */
  ghost predicate Storing(s: Snap, cfg: Config, word: Word, d: Line, dirty: bool)
  {
    && Calm(s) && Parked(s.io[0]) && (s.w.e.state == EIdle || (s.w.e.state == CmoWbB && s.w.b.b == []))
    && s.w.g == ONE && |d| == LINE_WORDS && s.w.c == Slot(true, dirty, d) && MemoryShape(s.w.flat)
    && AtZero(s.io[1]) && s.io[1].port.state == Write && s.io[1].port.aw == StoreOf(word) && s.io[1].port.beat == 0
    && s.io[1].wFifo == StoreOf(word).beats && cfg.latency == 0
  }

  ghost predicate StoredZero(s: Snap, s': Snap, word: Word, d: Line)
  {
    && Calm(s) && Calm(s') && s'.io[0] == s.io[0] && s'.io[1].port.state == Idle && s'.ways == s.ways
    && s'.io[1] == s.io[1].(wFifo := [], bOut := s.io[1].bOut + [1], port := s'.io[1].port)
    && |d| == LINE_WORDS && MemoryShape(s.w.flat)
    && s'.w == s.w.(c := Slot(true, true, d[0 := word]), flat := s.w.flat[0 := s.w.flat[0][0 := word]])
  }

  lemma StoreStep(e: Snap, cfg: Config, word: Word, d: Line, dirty: bool) returns (s': Snap)
    requires Storing(e, cfg, word, d, dirty)
    ensures BeatWritten(e, 1, 0, s') && StoredZero(e, s', word, d)
  {
    hide Parked, WordStored;
    StoreSlot(e.w, word, d, dirty);
    HitSlot(e.w, d, dirty);
    assert BeatAddr(0, 2, Incr, 0) == 0;
    var x := e.io[1];
    s' := WithPort(e, 1, x.(wFifo := x.wFifo[1..], port := NextWriteBeat(x.port), bOut := x.bOut + [1]))
            .(w := WordStored(e.w, 0, 0, word, ALL_LANES), used := true,
              h := e.h + [Store(1, 0, 0, word, ALL_LANES)] + [Ack(1, 1)]);
  }

  /** Port 1 stores into the slot. */
  lemma WriteHits(cfg: Config, s: Snap, word: Word, d: Line, dirty: bool) returns (s': Snap)
    requires Storing(s, cfg, word, d, dirty)
    ensures StepOk(s, cfg, Tick(FREE), s') && StoredZero(s, s', word, d)
  {
    hide StepOk, Parked, BeatWritten;
    var c := Staged(s, cfg, FREE);
    ParkedRests(s, cfg, 0);
    assert c == s.(used := false);
    ParkedRests(c, cfg, 0);
    HitSlot(c.w, d, dirty);
    s' := StoreStep(Delayed(c, 1, 0), cfg, word, d, dirty);
    assert PortWriteStep(c, cfg, 1, false, s');
    PortsTick(cfg, s, c, s');
  }

  /** The resumed port reads the word that memory had. */
  lemma ResumesRead(cfg: Config, s: Snap) returns (s': Snap)
    requires RefillAt(s, LAST) && s.w.b == QUIET.(r := [MemR(ForEngine, 0, s.w.mem[0][LAST], true)]) && s.w.g == ONE
    requires s.io[1].port.missReturn == Read && s.io[1].port.addr == 0 && s.io[1].port.ar == LOAD && s.io[1].port.beat == 0
    ensures StepOk(s, cfg, Tick(FREE), s') && |s'.io| == 2 && s'.w.flat == s.w.flat
    ensures s'.h == s.h + [Load(1, 3, 0, 0, s.w.mem[0][0], true)]
    ensures s'.io[1] == s.io[1].(rOut := s.io[1].rOut + [R(3, s.w.mem[0][0], true)], port := s'.io[1].port)
  {
    hide StepOk, Parked, RefillRStep;
    var m := LastBeat(s);
    var d := Delayed(m, 1, cfg.latency);
    var x := d.io[1];
    s' := WithPort(d, 1, x.(rOut := x.rOut + [R(3, s.w.mem[0][0], true)], port := NextReadBeat(x.port)))
            .(h := s.h + [Load(1, 3, 0, 0, s.w.mem[0][0], true)]);
    HitSlot(m.w, s.w.mem[0], false);
    assert BeatAddr(0, 2, Incr, 0) == 0;
    assert BeatRead(d, 1, 0, s');
    assert PortStep(m, cfg, 1, OPEN, s');
    RefillTick(cfg, s, m, s');
  }

  /** Port 0 starts the flush. */
  lemma FlushTick(cfg: Config, s: Snap, d: Line) returns (s': Snap)
    requires Calm(s) && Parked(s.io[1]) && s.w.e.state == EIdle && cfg.stgDepth > 0
    requires s.w.g == ONE && |d| == LINE_WORDS && s.w.c == Slot(true, true, d)
    requires var x := s.io[0];
             && x.port.state == Idle && x.awFifo == x.awLink == [] && x.arFifo == [] && x.wLink == [] && x.arLink == [FLUSH]
    ensures StepOk(s, cfg, Tick(FREE), s')
    ensures var x := s.io[0];
            s' == s.(used := false, w := CmoStarted(s.w, 0, 0xC3, 0),
                     io := s.io[0 := x.(arLink := [], port := TakeCmo(x.port, FLUSH, true))])
  {
    hide StepOk, Parked;
    var x := s.io[0];
    s' := s.(used := false, w := CmoStarted(s.w, 0, 0xC3, 0),
             io := s.io[0 := x.(arLink := [], port := TakeCmo(x.port, FLUSH, true))]);
    var c := Staged(s, cfg, FREE);
    assert [] + [FLUSH] == [FLUSH] && [FLUSH][1..] == [];
    assert c.io[0] == x.(arLink := [], arFifo := [FLUSH]);
    ParkedRests(s, cfg, 1);
    HitSlot(c.w, d, true);
    assert CmoHit(c, 0, 0, s');
    assert PortIdleStep(c, cfg, 0, OPEN, s');
    ParkedRests(s', cfg, 1);
    PortsTick(cfg, s, s', s');
  }

  /** The flush begins to send. */
  lemma Flushes(cfg: Config, s: Snap, d: Line) returns (m: Snap, s': Snap)
    requires Calm(s) && Parked(s.io[1]) && s.w.e.state == EIdle && cfg.stgDepth > 0 && s.w.b == QUIET && MemoryShape(s.w.mem)
    requires s.w.g == ONE && |d| == LINE_WORDS && s.w.c == Slot(true, true, d)
    requires Rested(s.io[0].(arLink := [])) && s.io[0].arLink == [FLUSH]
    ensures StepOk(s, cfg, Tick(FREE), m) && StepOk(m, cfg, Tick(FREE), s') && SendingAt(s', 0, d)
    ensures s' == s.(used := false, w := s.w.(e := s'.w.e, b := s'.w.b), io := s.io[0 := s'.io[0]])
    ensures s'.w.e.owner == 0 && s'.w.e.cmoUser == 0xC3 && Waiting(s'.io[0])
  {
    hide StepOk;
    m := FlushTick(cfg, s, d);
    s' := m.(w := AwSent(m.w));
    assert d[..0] == [] && s.w.mem[0][..0] == [];
    EngineTick(cfg, m, s');
  }

  /** Nothing queued and nothing in work. */
  predicate Rested(x: PortIo)
  {
    && x.port.state == Idle && x.arLink == [] && x.awLink == [] && x.wLink == []
    && x.arFifo == [] && x.awFifo == [] && x.wFifo == []
  }

  /** The port whose flush is being written back. */
  predicate Waiting(x: PortIo)
  {
    Rested(x.(port := x.port.(state := Idle))) && x.port.state == CmoWait && x.port.ar == FLUSH
  }

  /** The answer to the flush is taken: the line is dropped, and the port answers. */
  lemma FlushEnds(cfg: Config, s: Snap, d: Line) returns (s': Snap)
    requires Calm(s) && Waiting(s.io[0]) && Rested(s.io[1]) && s.w.e.state == CmoWbB && s.w.b == QUIET.(b := [ForEngine])
    requires s.w.e.owner == 0 && s.w.e.cmoIdx == 0 && s.w.e.cmoUser == 0xC3 && s.w.c == Slot(true, true, d)
    requires LineOf(s.io[0].port.ar.addr) == s.w.e.wbLine < |s.w.mem|
    ensures StepOk(s, cfg, Tick(FREE), s') && Calm(s') && Rested(s'.io[0]) && s'.io[1] == s.io[1] && s'.ways == s.ways
    ensures s'.w == s.w.(c := Slot(false, false, d), e := s.w.e.(state := EIdle), b := QUIET)
  {
    hide StepOk;
    var x := s.io[0];
    var m := s.(used := false, w := s.w.(c := Slot(false, false, d), e := s.w.e.(state := EIdle), b := QUIET),
                h := s.h + [SavedBy(s, 0, x.port.ar)], io := s.io[0 := x.(port := x.port.(state := CmoRsp))]);
    assert CmoBStep(s.(used := false), m);
    s' := WithPort(m, 0, x.(rOut := x.rOut + [R(x.port.ar.id, ZERO, true)], port := x.port.(state := Idle)))
            .(h := m.h + [Answer(0, x.port.ar.id, LineOf(x.port.ar.addr), x.port.ar.user)]);
    assert PortStep(m, cfg, 0, OPEN, s');
    EndTick(cfg, s, m, s');
  }

  // ----- the run -----

  /** Everything is at rest, with the given slot and the given contents of line 0 in memory and in the
      flat memory. */
  ghost predicate AtRest(s: Snap, c: Cache, stored: Line, seen: Line)
  {
    && Calm(s) && s.w.g == ONE && |s.ways| == 1 && s.w.c == c && |c.data| == 1 && |c.data[0]| == LINE_WORDS
    && MemoryShape(s.w.mem) && MemoryShape(s.w.flat) && s.w.mem[0] == stored && s.w.flat[0] == seen
    && s.w.e.state == EIdle && s.w.b == QUIET && Rested(s.io[0]) && Rested(s.io[1])
  }

  /** The requests of the run. */
  predicate Asks(a: Action, word: Word)
  {
    (a.AskRead? ==> a == AskRead(0, FLUSH) || a == AskRead(1, LOAD)) && (a.AskWrite? ==> a == AskWrite(1, StoreOf(word)))
    && !a.OtherWrites?
  }

  ghost predicate RunFrom(cfg: Config, acts: seq<Action>, trail: seq<Snap>, s: Snap, s': Snap, word: Word)
  {
    Path(cfg, acts, trail) && trail[0] == s && trail[|acts|] == s' && forall a | a in acts :: Asks(a, word)
  }

  lemma RunStart(cfg: Config, s: Snap, word: Word)
    ensures RunFrom(cfg, [], [s], s, s, word)
  {
  }

  lemma RunStep(cfg: Config, acts: seq<Action>, trail: seq<Snap>, s: Snap, m: Snap, a: Action, s': Snap, word: Word)
    requires RunFrom(cfg, acts, trail, s, m, word) && StepOk(m, cfg, a, s') && Asks(a, word)
    ensures RunFrom(cfg, acts + [a], trail + [s'], s, s', word)
  {
    hide StepOk, Asks;
    Extend(cfg, acts, trail, a, s');
  }

  lemma RunOn(cfg: Config, acts: seq<Action>, trail: seq<Snap>, s: Snap, acts': seq<Action>, trail': seq<Snap>, m: Snap, s': Snap,
              word: Word)
    requires RunFrom(cfg, acts, trail, s, m, word) && Path(cfg, acts', trail') && trail'[0] == m && trail'[|acts'|] == s'
    requires forall a | a in acts' :: Asks(a, word)
    ensures RunFrom(cfg, acts + acts', trail + trail'[1..], s, s', word)
  {
    hide StepOk, Asks;
    Join(cfg, acts, trail, acts', trail');
  }

  /** From a miss of port 1 to the last beat of its refill. */
  lemma MissRun(cfg: Config, s: Snap, word: Word) returns (acts: seq<Action>, trail: seq<Snap>, s': Snap)
    requires Calm(s) && Parked(s.io[0]) && AtZero(s.io[1]) && cfg.latency == 0 && s.w.e.state == EIdle && s.w.b == QUIET
    requires s.w.g == ONE && |s.w.c.data| == 1 && |s.w.c.data[0]| == LINE_WORDS && s.w.c == Slot(false, false, s.w.c.data[0])
    requires |s.ways| == 1 && MemoryShape(s.w.mem)
    ensures RunFrom(cfg, acts, trail, s, s', word)
    ensures RefillAt(s', LAST) && s'.w.b == QUIET.(r := [MemR(ForEngine, 0, s.w.mem[0][LAST], true)])
    ensures s'.h == s.h && s'.t == s.t && s'.ways == s.ways && s'.w.g == s.w.g && s'.w.mem == s.w.mem && s'.w.flat == s.w.flat
    ensures var port := s.io[1].port.(latencyActive := false, delay := 0, state := MissWait, missReturn := s.io[1].port.state);
            s'.io == s.io[1 := s.io[1].(port := port)]
  {
    hide StepOk, Path, RunFrom, RefillMoved, RefillAt, Parked;
    RunStart(cfg, s, word);
    var m, n := Misses(cfg, s);
    RunStep(cfg, [], [s], s, s, Tick(FREE), m, word);
    RunStep(cfg, [] + [Tick(FREE)], [s] + [m], s, m, Tick(FREE), n, word);
    acts, trail := [] + [Tick(FREE)] + [Tick(FREE)], [s] + [m] + [n];
    var a, b := RefillLoop(cfg, n, 0);
    PathLength(cfg, a, b);
    s' := b[|a|];
    RunOn(cfg, acts, trail, s, a, b, n, s', word);
    acts, trail := acts + a, trail + b[1..];
    RefillKept(n, s');
  }

  /** Port 1 stores into a line that is not cached. */
  lemma StoreAllocates(cfg: Config, s: Snap, word: Word, z: Line, stored: Line, seen: Line)
    returns (acts: seq<Action>, trail: seq<Snap>, s': Snap)
    requires AtRest(s, Slot(false, false, z), stored, seen) && cfg.latency == 0 && cfg.stgDepth > 0
    ensures RunFrom(cfg, acts, trail, s, s', word) && AtRest(s', Slot(true, true, stored[0 := word]), stored, seen[0 := word])
    ensures s'.io[1].rOut == s.io[1].rOut && s'.io[1].bOut == s.io[1].bOut + [1] && s'.io[1].awAsked == s.io[1].awAsked + [StoreOf(word)]
  {
    hide StepOk, Path, RunFrom, Storing, RefillAt;
    RunStart(cfg, s, word);
    var s1 := AskedWrite(s, 1, StoreOf(word));
    AskStep(cfg, s, word);
    RunStep(cfg, [], [s], s, s, AskWrite(1, StoreOf(word)), s1, word);
    acts, trail := [] + [AskWrite(1, StoreOf(word))], [s] + [s1];
    assert [] + [StoreOf(word)] == [StoreOf(word)] && [] + StoreOf(word).beats == StoreOf(word).beats;
    var s2 := TakesWrite(cfg, s1, word);
    RunStep(cfg, acts, trail, s, s1, Tick(FREE), s2, word);
    acts, trail := acts + [Tick(FREE)], trail + [s2];
    var a, b, s4 := MissRun(cfg, s2, word);
    RunIs(cfg, a, b, s2, s4, word);
    RunOn(cfg, acts, trail, s, a, b, s2, s4, word);
    acts, trail := acts + a, trail + b[1..];
    var s5 := ResumesWrite(cfg, s4);
    RunStep(cfg, acts, trail, s, s4, Tick(FREE), s5, word);
    acts, trail := acts + [Tick(FREE)], trail + [s5];
    ReadyToStore(s5, cfg, word, stored);
    s' := WriteHits(cfg, s5, word, stored, false);
    RunStep(cfg, acts, trail, s, s5, Tick(FREE), s', word);
    acts, trail := acts + [Tick(FREE)], trail + [s'];
  }

  lemma AskStep(cfg: Config, s: Snap, word: Word)
    requires |s.io| == 2
    ensures StepOk(s, cfg, AskWrite(1, StoreOf(word)), AskedWrite(s, 1, StoreOf(word)))
  {
  }

  lemma RefillKept(s: Snap, s': Snap)
    requires RefillMoved(s, s')
    ensures s'.io == s.io && s'.h == s.h && s'.t == s.t && s'.ways == s.ways && s'.w.g == s.w.g
    ensures s'.w.mem == s.w.mem && s'.w.flat == s.w.flat
  {
  }

  lemma ReadyToStore(s: Snap, cfg: Config, word: Word, d: Line)
    requires Calm(s) && Rested(s.io[0]) && s.w.e.state == EIdle && s.w.g == ONE && |d| == LINE_WORDS && s.w.c == Slot(true, false, d)
    requires MemoryShape(s.w.flat) && AtZero(s.io[1]) && s.io[1].port.state == Write && s.io[1].port.aw == StoreOf(word)
    requires s.io[1].port.beat == 0 && s.io[1].wFifo == StoreOf(word).beats && cfg.latency == 0
    ensures Storing(s, cfg, word, d, false)
  {
  }

  /** Port 0 flushes the line; when all its words have been sent, port 1 stores into it; the answer
      drops the line. */
  lemma FlushLoses(cfg: Config, s: Snap, word: Word, d: Line, stored: Line, seen: Line)
    returns (acts: seq<Action>, trail: seq<Snap>, s': Snap)
    requires AtRest(s, Slot(true, true, d), stored, seen) && cfg.latency == 0 && cfg.stgDepth > 0
    ensures RunFrom(cfg, acts, trail, s, s', word) && AtRest(s', Slot(false, false, d[0 := word]), d, seen[0 := word])
    ensures s'.io[1].rOut == s.io[1].rOut && s'.io[1].bOut == s.io[1].bOut + [1] && s'.io[1].awAsked == s.io[1].awAsked + [StoreOf(word)]
  {
    hide StepOk, Path, RunFrom, SendMoved, SentAll, SendingAt, StoredZero;
    RunStart(cfg, s, word);
    var s1 := Asked(s, 0, FLUSH);
    AskReadStep(cfg, s, 0, FLUSH);
    RunStep(cfg, [], [s], s, s, AskRead(0, FLUSH), s1, word);
    acts, trail := [] + [AskRead(0, FLUSH)], [s] + [s1];
    assert [] + [FLUSH] == [FLUSH];
    var m, s2 := Flushes(cfg, s1, d);
    RunStep(cfg, acts, trail, s, s1, Tick(FREE), m, word);
    acts, trail := acts + [Tick(FREE)], trail + [m];
    RunStep(cfg, acts, trail, s, m, Tick(FREE), s2, word);
    acts, trail := acts + [Tick(FREE)], trail + [s2];
    var a, b := SendLoop(cfg, s2, 0, d);
    PathLength(cfg, a, b);
    var s3 := b[|a|];
    RunOn(cfg, acts, trail, s, a, b, s2, s3, word);
    acts, trail := acts + a, trail + b[1..];
    SendKept(s2, s3);
    var more, rest := StoresLate(cfg, s3, word, d);
    PathLength(cfg, more, rest);
    s' := rest[|more|];
    RunOn(cfg, acts, trail, s, more, rest, s3, s', word);
    acts, trail := acts + more, trail + rest[1..];
  }

  lemma AskReadStep(cfg: Config, s: Snap, p: nat, ar: Ar)
    requires p < |s.io|
    ensures StepOk(s, cfg, AskRead(p, ar), Asked(s, p, ar))
  {
  }

  lemma SendKept(s: Snap, s': Snap)
    requires SendMoved(s, s')
    ensures s'.io == s.io && s'.h == s.h && s'.t == s.t && s'.ways == s.ways && s'.w.g == s.w.g && s'.w.c == s.w.c
    ensures s'.w.flat == s.w.flat && s'.w.e.owner == s.w.e.owner && s'.w.e.cmoUser == s.w.e.cmoUser
  {
  }

  /** The second half of `FlushLoses`. */
  lemma StoresLate(cfg: Config, s: Snap, word: Word, d: Line) returns (acts: seq<Action>, trail: seq<Snap>)
    requires SentAll(s, d) && Waiting(s.io[0]) && Rested(s.io[1]) && s.w.c == Slot(true, true, d) && s.w.g == ONE
    requires MemoryShape(s.w.flat) && s.w.e.owner == 0 && s.w.e.cmoUser == 0xC3 && |s.ways| == 1
    requires cfg.latency == 0 && cfg.stgDepth > 0
    ensures Path(cfg, acts, trail) && trail[0] == s && forall a | a in acts :: Asks(a, word)
    ensures AtRest(trail[|acts|], Slot(false, false, d[0 := word]), d, s.w.flat[0][0 := word])
    ensures trail[|acts|].io[1] == s.io[1].(bOut := s.io[1].bOut + [1], awAsked := s.io[1].awAsked + [StoreOf(word)],
                                           port := trail[|acts|].io[1].port)
  {
    hide StepOk, Path, RunFrom, Storing, Waiting, SentAll;
    RunStart(cfg, s, word);
    SentFacts(s, d);
    var s1 := AskedWrite(s, 1, StoreOf(word));
    AskStep(cfg, s, word);
    RunStep(cfg, [], [s], s, s, AskWrite(1, StoreOf(word)), s1, word);
    acts, trail := [] + [AskWrite(1, StoreOf(word))], [s] + [s1];
    assert [] + [StoreOf(word)] == [StoreOf(word)] && [] + StoreOf(word).beats == StoreOf(word).beats;
    WaitingParked(s.io[0]);
    var s2 := TakesWrite(cfg, s1, word);
    RunStep(cfg, acts, trail, s, s1, Tick(FREE), s2, word);
    acts, trail := acts + [Tick(FREE)], trail + [s2];
    ReadyToStoreLate(s2, cfg, word, d);
    var s3 := WriteHits(cfg, s2, word, d, true);
    RunStep(cfg, acts, trail, s, s2, Tick(FREE), s3, word);
    acts, trail := acts + [Tick(FREE)], trail + [s3];
    SentKept(s, s3, d);
    var s4, s5 := FlushAnswered(cfg, s3, d, d[0 := word]);
    RunStep(cfg, acts, trail, s, s3, MemoryStores, s4, word);
    acts, trail := acts + [MemoryStores], trail + [s4];
    RunStep(cfg, acts, trail, s, s4, Tick(FREE), s5, word);
    acts, trail := acts + [Tick(FREE)], trail + [s5];
    RunIs(cfg, acts, trail, s, s5, word);
  }

  lemma SentFacts(s: Snap, d: Line)
    requires SentAll(s, d)
    ensures Calm(s) && MemoryShape(s.w.mem) && |d| == LINE_WORDS && s.w.e.state == CmoWbB && s.w.b.b == [] && s.w.e.cmoIdx == 0
  {
  }

  lemma SentKept(s: Snap, s': Snap, d: Line)
    requires SentAll(s, d) && Calm(s') && s'.w.e == s.w.e && s'.w.b == s.w.b && s'.w.mem == s.w.mem
    ensures SentAll(s', d)
  {
  }

  lemma WaitingLine(x: PortIo)
    requires Waiting(x)
    ensures LineOf(x.port.ar.addr) == 0
  {
  }

  lemma WaitingParked(x: PortIo)
    requires Waiting(x)
    ensures Parked(x)
  {
  }

  /** Memory stores the last word, and the answer is taken. */
  lemma FlushAnswered(cfg: Config, s: Snap, d: Line, d': Line) returns (m: Snap, s': Snap)
    requires SentAll(s, d) && Waiting(s.io[0]) && Rested(s.io[1]) && s.w.c == Slot(true, true, d') && |d'| == LINE_WORDS
    requires s.w.g == ONE && MemoryShape(s.w.flat) && s.w.e.owner == 0 && s.w.e.cmoUser == 0xC3 && |s.ways| == 1
    ensures StepOk(s, cfg, MemoryStores, m) && StepOk(m, cfg, Tick(FREE), s')
    ensures AtRest(s', Slot(false, false, d'), d, s.w.flat[0]) && s'.io[1] == s.io[1] && (Late(m.w) <==> d != d')
  {
    hide StepOk, Waiting, Rested;
    StoreBeat(cfg, s, LAST, d[LAST]);
    m := s.(w := LineStored(s.w));
    assert m.w.mem[0] == d by {
      assert s.w.mem[0][..LAST] == d[..LAST];
    }
    WaitingLine(s.io[0]);
    s' := FlushEnds(cfg, m, d');
  }

  lemma RunIs(cfg: Config, acts: seq<Action>, trail: seq<Snap>, s: Snap, s': Snap, word: Word)
    requires RunFrom(cfg, acts, trail, s, s', word)
    ensures Path(cfg, acts, trail) && |trail| == |acts| + 1 && trail[0] == s && trail[|acts|] == s'
    ensures forall a | a in acts :: Asks(a, word)
  {
    hide StepOk, Asks;
  }

  lemma ReadyToStoreLate(s: Snap, cfg: Config, word: Word, d: Line)
    requires Calm(s) && Waiting(s.io[0]) && s.w.e.state == CmoWbB && s.w.b.b == [] && s.w.g == ONE && |d| == LINE_WORDS
    requires s.w.c == Slot(true, true, d) && MemoryShape(s.w.flat) && AtZero(s.io[1]) && s.io[1].port.state == Write
    requires s.io[1].port.aw == StoreOf(word) && s.io[1].port.beat == 0 && s.io[1].wFifo == StoreOf(word).beats && cfg.latency == 0
    ensures Storing(s, cfg, word, d, true)
  {
  }

  /** Port 1 reads a line that is not cached: it gets what memory holds. */
  lemma ReadsBack(cfg: Config, s: Snap, word: Word, z: Line, stored: Line, seen: Line)
    returns (acts: seq<Action>, trail: seq<Snap>, s': Snap)
    requires AtRest(s, Slot(false, false, z), stored, seen) && cfg.latency == 0 && cfg.stgDepth > 0
    ensures RunFrom(cfg, acts, trail, s, s', word) && |s'.io| == 2 && MemoryShape(s'.w.flat) && s'.w.flat[0] == seen
    ensures |s'.h| > 0 && s'.h[|s'.h| - 1] == Load(1, 3, 0, 0, stored[0], true)
    ensures s'.io[1].rOut == s.io[1].rOut + [R(3, stored[0], true)]
    ensures s'.io[1].bOut == s.io[1].bOut && s'.io[1].awAsked == s.io[1].awAsked
  {
    hide StepOk, Path, RunFrom, RefillAt;
    RunStart(cfg, s, word);
    var s1 := Asked(s, 1, LOAD);
    AskReadStep(cfg, s, 1, LOAD);
    RunStep(cfg, [], [s], s, s, AskRead(1, LOAD), s1, word);
    acts, trail := [] + [AskRead(1, LOAD)], [s] + [s1];
    assert [] + [LOAD] == [LOAD];
    var s2 := TakesRead(cfg, s1);
    RunStep(cfg, acts, trail, s, s1, Tick(FREE), s2, word);
    acts, trail := acts + [Tick(FREE)], trail + [s2];
    var a, b, s4 := MissRun(cfg, s2, word);
    RunIs(cfg, a, b, s2, s4, word);
    RunOn(cfg, acts, trail, s, a, b, s2, s4, word);
    acts, trail := acts + a, trail + b[1..];
    s' := ResumesRead(cfg, s4);
    RunStep(cfg, acts, trail, s, s4, Tick(FREE), s', word);
    acts, trail := acts + [Tick(FREE)], trail + [s'];
  }

  lemma AskedAllowed(a: Action, word: Word, cacheable: iset<nat>)
    requires Asks(a, word) && 0 in cacheable
    ensures Allowed(a, cacheable, false)
  {
    assert WellFormedBeats(StoreOf(word).beats, 0);
    assert forall k: nat | k <= 0 :: BeatAddr(0, 2, Incr, k) == 0;
  }

  /** From reset, over any memory: port 1 stores `x` and then `y` at address 0, both stores are
      answered, and then it reads `x`. */
  lemma StaleLoad(cfg: Config, cacheable: iset<nat>, mem0: seq<Line>, x: Word, y: Word)
    returns (acts: seq<Action>, trail: seq<Snap>)
    requires cfg.latency == 0 && cfg.stgDepth > 0 && MemoryShape(mem0) && 0 in cacheable
    ensures Path(cfg, acts, trail) && trail[0] == ResetSnap(ONE, cacheable, mem0)
    ensures forall a | a in acts :: Allowed(a, cacheable, false)
    ensures var s := trail[|acts|];
            && |s.io| == 2 && s.io[1].awAsked == [StoreOf(x), StoreOf(y)] && s.io[1].bOut == [1, 1]
            && |s.h| > 0 && s.h[|s.h| - 1] == Load(1, 3, 0, 0, x, true) && s.io[1].rOut == [R(3, x, true)]
            && MemoryShape(s.w.flat) && s.w.flat[0][0] == y
  {
    hide StepOk, Path, RunFrom, AtRest, Allowed;
    var s := ResetSnap(ONE, cacheable, mem0);
    var z := seq(LINE_WORDS, _ => ZERO);
    ResetAtRest(cacheable, mem0);
    var d := mem0[0][0 := x];
    var a1, t1, s1 := StoreAllocates(cfg, s, x, z, mem0[0], mem0[0]);
    var a2, t2, s2 := FlushLoses(cfg, s1, y, d, mem0[0], d);
    var a3, t3, s3 := ReadsBack(cfg, s2, y, d[0 := y], d, d[0 := y]);
    RunIs(cfg, a1, t1, s, s1, x);
    RunIs(cfg, a2, t2, s1, s2, y);
    RunIs(cfg, a3, t3, s2, s3, y);
    Join(cfg, a1, t1, a2, t2);
    Join(cfg, a1 + a2, t1 + t2[1..], a3, t3);
    acts, trail := a1 + a2 + a3, t1 + t2[1..] + t3[1..];
    forall a | a in acts
      ensures Allowed(a, cacheable, false)
    {
      AskedAllowed(a, if a in a1 then x else y, cacheable);
    }
  }

  lemma ResetAtRest(cacheable: iset<nat>, mem0: seq<Line>)
    requires MemoryShape(mem0)
    ensures AtRest(ResetSnap(ONE, cacheable, mem0), Slot(false, false, seq(LINE_WORDS, _ => ZERO)), mem0[0], mem0[0])
    ensures var s := ResetSnap(ONE, cacheable, mem0); |s.io| == 2 && s.io[1].awAsked == [] && s.io[1].bOut == [] && s.io[1].rOut == []
  {
    var z := seq(LINE_WORDS, _ => ZERO);
    var c := ResetCache(1);
    assert c.tags == [0] && c.valids == [false] && c.dirtys == [false];
    assert c.data[0] == z;
    assert c == Slot(false, false, z);
  }
}
