/** The relation between the cache arrays, the miss/write-back engine, the traffic in
    flight to memory and the flat memory that the requesters see, and why every step
    of the engine keeps it. */
module L2Coherence {
  import opened Words
  import opened DivMod
  import opened L2Types
  import opened FlatMemory

  // ----- slots, sets and tags -----

  lemma SlotInSet(g: Geometry, i: nat)
    requires g.sets > 0 && g.ways > 0 && i < g.sets * g.ways
    ensures i / g.ways < g.sets
  {
    assert i == (i / g.ways) * g.ways + i % g.ways;
    if i / g.ways >= g.sets {
      MulMono(g.sets, i / g.ways, g.ways);
    }
  }

  /** A slot holds a line exactly when it sits in the line's set with the line's tag. */
  lemma HeldIff(g: Geometry, c: Cache, i: nat, line: nat)
    requires Shape(g, c) && i < |c.tags|
    ensures Held(g, c, i) == line <==> c.tags[i] == line / g.sets && i / g.ways == line % g.sets
  {
    SlotInSet(g, i);
    DivModUnique(c.tags[i], i / g.ways, g.sets);
    assert line == (line / g.sets) * g.sets + line % g.sets;
  }

  lemma SlotIndex(g: Geometry, set_: nat, way: nat)
    requires g.sets > 0 && g.ways > 0 && set_ < g.sets && way < g.ways
    ensures set_ * g.ways + way < g.sets * g.ways
    ensures (set_ * g.ways + way) / g.ways == set_
  {
    DivModUnique(set_, way, g.ways);
    MulMono(set_ + 1, g.sets, g.ways);
  }

  // ----- the invariant -----

  datatype World = World(
    g: Geometry, cacheable: iset<nat>, c: Cache, e: Engine, b: Bus, mem: seq<Line>, flat: seq<Line>)

  ghost predicate Sized(s: World)
  {
    Shape(s.g, s.c) && MemoryShape(s.mem) && MemoryShape(s.flat)
  }

  ghost predicate SlotOk(s: World, i: nat)
    requires Sized(s) && i < |s.c.valids|
  {
    var l := Held(s.g, s.c, i);
    && l < LINES && l in s.cacheable
    && s.flat[l] == s.c.data[i]
    && (!s.c.dirtys[i] ==> s.mem[l] == s.c.data[i])
  }

  /** The flat memory is the valid line, else the line being written back, else memory;
      clean lines equal memory; no line is held twice. */
  ghost predicate Coherent(s: World)
  {
    && Sized(s)
    && (forall i: nat, j: nat | i < j < |s.c.valids| && s.c.valids[i] && s.c.valids[j] ::
          Held(s.g, s.c, i) != Held(s.g, s.c, j))
    && (forall i: nat | i < |s.c.valids| && s.c.valids[i] :: SlotOk(s, i))
    && (forall l: nat | l < LINES && NotCached(s.g, s.c, l) :: Backed(s, l))
  }

  ghost predicate Backed(s: World, l: nat)
    requires Sized(s) && l < LINES
  {
    (WritingBack(s.e) && l == s.e.wbLine) || s.flat[l] == s.mem[l]
  }

  ghost predicate MissOk(s: World)
    requires Sized(s)
  {
    var e := s.e;
    && e.missIdx < |s.c.valids| && !s.c.valids[e.missIdx]
    && e.missLine < LINES && e.missLine in s.cacheable
    && e.missSet == e.missLine % s.g.sets && e.missTag == e.missLine / s.g.sets
    && e.missIdx / s.g.ways == e.missSet
    && NotCached(s.g, s.c, e.missLine)
  }

  ghost predicate EvictOk(s: World)
    requires Sized(s) && s.e.missIdx < |s.c.valids|
  {
    var e := s.e;
    && e.wbLine == Held(s.g, s.c, e.missIdx)
    && e.wbLine < LINES && e.wbLine in s.cacheable && e.wbLine != e.missLine
    && NotCached(s.g, s.c, e.wbLine)
    && s.flat[e.wbLine] == s.c.data[e.missIdx]
  }

  function LineBeat(word: Word, k: nat): W { W(word, ALL_LANES, k == LINE_WORDS - 1) }

  /** The words sent have left for `wbLine`; memory has stored a prefix of them. */
  ghost predicate Sending(s: World)
    requires Sized(s) && s.e.wbLine < LINES && |s.e.sent| <= LINE_WORDS
  {
    var sent := s.e.sent;
    && s.b.ar == [] && s.b.r == [] && s.b.served == 0
    && (|| (&& s.b.aw == [LineAw(s.e.wbLine)] && s.b.b == []
            && s.b.applied <= |sent| && s.b.applied < LINE_WORDS
            && |s.b.w| == |sent| - s.b.applied
            && (forall j | 0 <= j < |s.b.w| :: s.b.w[j] == LineBeat(sent[s.b.applied + j], s.b.applied + j))
            && (forall k | 0 <= k < s.b.applied :: s.mem[s.e.wbLine][k] == sent[k]))
        || (|sent| == LINE_WORDS && s.b == QUIET.(b := [ForEngine]) && s.mem[s.e.wbLine] == sent))
  }

  /** The words sent are still those of slot `i`. */
  predicate SentFrom(c: Cache, e: Engine, i: nat)
  {
    i < |c.data| && |e.sent| <= |c.data[i]| && e.sent == c.data[i][..|e.sent|]
  }

  function Served(b: Bus): nat { if b.ar == [] then LINE_WORDS else b.served }

  /** The first `beat` words of the missing line have arrived, the next ones are in flight. */
  ghost predicate Refilling(s: World)
    requires Sized(s) && s.e.missIdx < |s.c.data| && s.e.missLine < LINES
  {
    var e, b := s.e, s.b;
    && e.beat < LINE_WORDS
    && b.aw == [] && b.w == [] && b.applied == 0 && b.b == []
    && ((b.ar == [LineAr(e.missLine)] && b.served < LINE_WORDS) || (b.ar == [] && b.served == 0))
    && e.beat + |b.r| == Served(b)
    && (forall j | 0 <= j < |b.r| ::
          b.r[j] == MemR(ForEngine, 0, s.mem[e.missLine][e.beat + j], e.beat + j == LINE_WORDS - 1))
    && (forall k | 0 <= k < e.beat :: s.c.data[e.missIdx][k] == s.mem[e.missLine][k])
  }

  ghost predicate CmoOk(s: World)
    requires Sized(s)
  {
    var e := s.e;
    && e.cmoIdx < |s.c.valids| && s.c.valids[e.cmoIdx] && s.c.dirtys[e.cmoIdx]
    && e.wbLine == Held(s.g, s.c, e.cmoIdx) && e.wbLine < LINES
  }

  ghost predicate EngineOk(s: World)
    requires Sized(s)
  {
    match s.e.state
    case EIdle => true
    case WbAw => MissOk(s) && EvictOk(s) && s.b == QUIET
    case WbW =>
      && MissOk(s) && EvictOk(s) && s.e.beat < LINE_WORDS && |s.e.sent| == s.e.beat
      && SentFrom(s.c, s.e, s.e.missIdx) && Sending(s)
    case WbB =>
      MissOk(s) && EvictOk(s) && |s.e.sent| == LINE_WORDS && SentFrom(s.c, s.e, s.e.missIdx) && Sending(s)
    case RefillAr => MissOk(s) && s.b == QUIET
    case RefillR => MissOk(s) && Refilling(s)
    case CmoWbAw => CmoOk(s) && s.b == QUIET
    case CmoWbW => CmoOk(s) && s.e.beat < LINE_WORDS && |s.e.sent| == s.e.beat && Sending(s)
    case CmoWbB => CmoOk(s) && |s.e.sent| == LINE_WORDS && Sending(s)
  }

  ghost predicate Inv(s: World)
  {
    var ok := Coherent(s) && EngineOk(s);
    ok
  }

  // ----- steps -----

  /** The engine registers when a miss on `line` claims slot `idx`. */
  function Claim(g: Geometry, c: Cache, e: Engine, owner: nat, line: nat, idx: nat): (e': Engine)
    requires g.sets > 0 && g.ways > 0 && idx < |c.tags| && idx < |c.valids| && idx < |c.dirtys|
    ensures Missing(e') && e'.owner == owner
  {
    e.(owner := owner, missLine := line, missSet := line % g.sets, missTag := line / g.sets,
       missIdx := idx, wbLine := Held(g, c, idx), beat := 0,
       state := if c.valids[idx] && c.dirtys[idx] then WbAw else RefillAr)
  }

  /** A miss takes slot `idx` of the line's set out of service. */
  function MissStarted(s: World, owner: nat, line: nat, idx: nat): (s': World)
    requires s.g.sets > 0 && s.g.ways > 0 && idx < |s.c.tags| && idx < |s.c.valids| && idx < |s.c.dirtys|
  {
    s.(c := s.c.(valids := s.c.valids[idx := false]), e := Claim(s.g, s.c, s.e, owner, line, idx))
  }

  lemma StartMiss(s: World, line: nat, idx: nat, owner: nat)
    requires Inv(s) && s.e.state == EIdle && s.b == QUIET
    requires line < LINES && line in s.cacheable && NotCached(s.g, s.c, line)
    requires idx < |s.c.valids| && idx / s.g.ways == line % s.g.sets
    ensures Inv(MissStarted(s, owner, line, idx))
  {
    var s' := MissStarted(s, owner, line, idx);
    assert forall i: nat | i < |s.c.tags| :: Held(s'.g, s'.c, i) == Held(s.g, s.c, i);
    assert forall i: nat | i < |s.c.valids| && s'.c.valids[i] :: s.c.valids[i] && SlotOk(s, i);
    forall l: nat | l < LINES && NotCached(s'.g, s'.c, l)
      ensures Backed(s', l)
    {
      if l != Held(s.g, s.c, idx) {
        assert NotCached(s.g, s.c, l);
        assert Backed(s, l);
      } else if s.c.valids[idx] {
        assert SlotOk(s, idx);
      } else {
        assert NotCached(s.g, s.c, l);
        assert Backed(s, l);
      }
    }
    assert NotCached(s'.g, s'.c, line);
    if s.c.valids[idx] {
      assert SlotOk(s, idx);
      assert NotCached(s'.g, s'.c, Held(s.g, s.c, idx));
    }
  }

  /** The write-back address leaves. */
  function AwSent(s: World): (s': World)
  {
    s.(e := s.e.(beat := 0, sent := [], state := if s.e.state == WbAw then WbW else CmoWbW),
       b := s.b.(aw := s.b.aw + [LineAw(s.e.wbLine)]))
  }

  lemma SendAw(s: World)
    requires Inv(s) && s.e.state in {WbAw, CmoWbAw}
    ensures Inv(AwSent(s))
  {
    SameCoherence(s, AwSent(s));
  }

  /** Coherence only looks at the arrays, the memories and the line being written back. */
  lemma SameCoherence(s: World, s': World)
    requires Coherent(s)
    requires s'.g == s.g && s'.c == s.c && s'.mem == s.mem && s'.flat == s.flat && s'.cacheable == s.cacheable
    requires WritingBack(s.e) ==> WritingBack(s'.e) && s'.e.wbLine == s.e.wbLine
    ensures Coherent(s')
  {
    assert forall i: nat | i < |s.c.valids| && s.c.valids[i] :: SlotOk(s, i) ==> SlotOk(s', i);
    assert forall l: nat | l < LINES && NotCached(s.g, s.c, l) :: Backed(s, l) ==> Backed(s', l);
  }

  /** The slot a write-back is sent from. */
  function WbSlot(e: Engine): nat { if e.state == WbW then e.missIdx else e.cmoIdx }

  /** The engine after a write-back beat has left. */
  function BeatGone(e: Engine, w: Word): (e': Engine)
  {
    if e.beat == LINE_WORDS - 1 then e.(sent := e.sent + [w], state := if e.state == WbW then WbB else CmoWbB)
    else e.(sent := e.sent + [w], beat := e.beat + 1)
  }

  /** One write-back data beat leaves, straight from the slot. */
  function BeatSent(s: World): (s': World)
    requires WbSlot(s.e) < |s.c.data| && s.e.beat < |s.c.data[WbSlot(s.e)]|
  {
    var w := s.c.data[WbSlot(s.e)][s.e.beat];
    s.(e := BeatGone(s.e, w), b := s.b.(w := s.b.w + [LineBeat(w, s.e.beat)]))
  }

  lemma SendW(s: World)
    requires Inv(s) && s.e.state in {WbW, CmoWbW}
    requires WbSlot(s.e) < |s.c.data| && s.e.beat < |s.c.data[WbSlot(s.e)]|
    ensures Inv(BeatSent(s))
  {
    SameCoherence(s, BeatSent(s));
    var idx := WbSlot(s.e);
    var w := s.c.data[idx][s.e.beat];
    if s.e.state == WbW {
      assert s.c.data[idx][..s.e.beat] + [w] == s.c.data[idx][..s.e.beat + 1];
    }
  }

  /** Memory stores one beat of a write-back. */
  function LineStored(s: World): (s': World)
    requires MemoryShape(s.mem) && s.e.wbLine < LINES && s.b.applied < LINE_WORDS && s.b.w != [] && s.b.aw != []
  {
    s.(mem := StoreAt(s.mem, s.e.wbLine, s.b.applied, s.b.w[0].data, s.b.w[0].strb),
       b := if s.b.applied == LINE_WORDS - 1
            then s.b.(aw := s.b.aw[1..], w := s.b.w[1..], applied := 0, b := s.b.b + [ForEngine])
            else s.b.(w := s.b.w[1..], applied := s.b.applied + 1))
  }

  lemma MemStoresLine(s: World)
    requires Inv(s) && s.e.state in {WbW, WbB, CmoWbW, CmoWbB} && s.b.w != [] && s.b.aw != []
    ensures s.e.wbLine < LINES && s.b.applied < LINE_WORDS && MemoryShape(s.mem)
    ensures Inv(LineStored(s))
  {
    var s' := LineStored(s);
    var wb, sent := s.e.wbLine, s.e.sent;
    assert s.b.w[0] == LineBeat(sent[s.b.applied], s.b.applied);
    assert s'.mem[wb][s.b.applied] == sent[s.b.applied];
    forall i: nat | i < |s.c.valids| && s.c.valids[i]
      ensures SlotOk(s', i)
    {
      assert SlotOk(s, i);
      if Held(s.g, s.c, i) == wb {
        assert CmoWriting(s.e) && i == s.e.cmoIdx;
      }
    }
    forall l: nat | l < LINES && NotCached(s'.g, s'.c, l)
      ensures Backed(s', l)
    {
      assert NotCached(s.g, s.c, l) && Backed(s, l);
    }
    if s.b.applied == LINE_WORDS - 1 {
      assert s'.mem[wb] == sent;
    }
  }

  /** The write-back response arrives: the evicted line now lives in memory. */
  function Evicted(s: World): (s': World)
    requires s.e.missIdx < |s.c.dirtys| && s.b.b != []
  {
    s.(c := s.c.(dirtys := s.c.dirtys[s.e.missIdx := false]), e := s.e.(beat := 0, state := RefillAr),
       b := s.b.(b := s.b.b[1..]))
  }

  lemma EvictionDone(s: World)
    requires Inv(s) && s.e.state == WbB && s.b.b != []
    ensures s.e.missIdx < |s.c.dirtys| && Inv(Evicted(s))
  {
    var s' := Evicted(s);
    assert forall i: nat | i < |s.c.tags| :: Held(s'.g, s'.c, i) == Held(s.g, s.c, i);
    assert forall i: nat | i < |s.c.valids| && s.c.valids[i] :: SlotOk(s, i) ==> SlotOk(s', i);
    forall l: nat | l < LINES && NotCached(s'.g, s'.c, l)
      ensures Backed(s', l)
    {
      assert NotCached(s.g, s.c, l) && Backed(s, l);
    }
    assert NotCached(s'.g, s'.c, s.e.missLine);
  }

  /** The refill address leaves. */
  function RefillAsked(s: World): (s': World)
  {
    s.(e := s.e.(beat := 0, state := RefillR), b := s.b.(ar := s.b.ar + [LineAr(s.e.missLine)]))
  }

  lemma SendRefill(s: World)
    requires Inv(s) && s.e.state == RefillAr
    ensures Inv(RefillAsked(s))
  {
    SameCoherence(s, RefillAsked(s));
  }

  /** Memory returns one beat of a refill. */
  function LineServed(s: World): (s': World)
    requires s.e.missLine < |s.mem| && s.b.served < |s.mem[s.e.missLine]| && s.b.ar != []
  {
    var last := s.b.served == LINE_WORDS - 1;
    s.(b := s.b.(r := s.b.r + [MemR(ForEngine, 0, s.mem[s.e.missLine][s.b.served], last)],
                 ar := if last then s.b.ar[1..] else s.b.ar, served := if last then 0 else s.b.served + 1))
  }

  lemma MemServesLine(s: World)
    requires Inv(s) && s.e.state == RefillR && s.b.ar != []
    ensures s.e.missLine < |s.mem| && s.b.served < |s.mem[s.e.missLine]| && Inv(LineServed(s))
  {
    SameCoherence(s, LineServed(s));
  }

  function RefillWord(c: Cache, e: Engine, data: Word): (c': Cache)
    requires e.missIdx < |c.data| && e.beat < |c.data[e.missIdx]|
  {
    c.(data := c.data[e.missIdx := c.data[e.missIdx][e.beat := data]])
  }

  /** The last refill word, with the slot marked valid and clean under the missing line's tag. */
  function Install(c: Cache, e: Engine, data: Word): (c': Cache)
    requires e.missIdx < |c.data| && e.beat < |c.data[e.missIdx]|
    requires e.missIdx < |c.tags| && e.missIdx < |c.valids| && e.missIdx < |c.dirtys|
  {
    RefillWord(c, e, data).(tags := c.tags[e.missIdx := e.missTag],
                            valids := c.valids[e.missIdx := true],
                            dirtys := c.dirtys[e.missIdx := false])
  }

  /** A refill beat is taken; the last one installs the line. */
  function RefillTaken(s: World): (s': World)
    requires s.e.missIdx < |s.c.data| && s.e.beat < |s.c.data[s.e.missIdx]| && s.b.r != []
    requires s.e.missIdx < |s.c.tags| && s.e.missIdx < |s.c.valids| && s.e.missIdx < |s.c.dirtys|
  {
    var b' := s.b.(r := s.b.r[1..]);
    if s.b.r[0].last || s.e.beat == LINE_WORDS - 1 then
      s.(c := Install(s.c, s.e, s.b.r[0].data), e := s.e.(state := EIdle), b := b')
    else
      s.(c := RefillWord(s.c, s.e, s.b.r[0].data), e := s.e.(beat := s.e.beat + 1), b := b')
  }

  /** A refill beat other than the last lands in a slot that holds no line. */
  lemma RefillBeat(s: World)
    requires Inv(s) && s.e.state == RefillR && s.b.r != [] && s.e.beat < LINE_WORDS - 1
    requires s.e.missIdx < |s.c.data| == |s.c.tags| == |s.c.valids| == |s.c.dirtys| && |s.c.data[s.e.missIdx]| == LINE_WORDS
    ensures Inv(RefillTaken(s))
  {
    var s' := RefillTaken(s);
    KeepOtherSlots(s, s');
    assert NotCached(s'.g, s'.c, s.e.missLine);
  }

  lemma KeepOtherSlots(s: World, s': World)
    requires Coherent(s) && s.e.missIdx < |s.c.valids| && !s.c.valids[s.e.missIdx]
    requires !WritingBack(s.e) && !WritingBack(s'.e)
    requires s'.g == s.g && s'.mem == s.mem && s'.flat == s.flat && s'.cacheable == s.cacheable
    requires s'.c.tags == s.c.tags && s'.c.valids == s.c.valids && s'.c.dirtys == s.c.dirtys
    requires Shape(s'.g, s'.c)
    requires forall i | 0 <= i < |s.c.data| && i != s.e.missIdx :: s'.c.data[i] == s.c.data[i]
    ensures Coherent(s')
  {
    assert forall i: nat | i < |s.c.tags| :: Held(s'.g, s'.c, i) == Held(s.g, s.c, i);
    assert forall i: nat | i < |s.c.valids| && s.c.valids[i] :: SlotOk(s, i) ==> SlotOk(s', i);
    forall l: nat | l < LINES && NotCached(s'.g, s'.c, l)
      ensures Backed(s', l)
    {
      assert NotCached(s.g, s.c, l) && Backed(s, l);
    }
  }

  /** The last refill beat makes the slot hold the missing line, clean. */
  lemma RefillDone(s: World)
    requires Inv(s) && s.e.state == RefillR && s.b.r != [] && s.e.beat == LINE_WORDS - 1
    requires s.e.missIdx < |s.c.data| == |s.c.tags| == |s.c.valids| == |s.c.dirtys| && |s.c.data[s.e.missIdx]| == LINE_WORDS
    ensures Inv(RefillTaken(s)) && RefillTaken(s).b == QUIET
  {
    var s' := RefillTaken(s);
    var idx, line := s.e.missIdx, s.e.missLine;
    assert s'.c.data[idx] == s.mem[line];
    HeldIff(s'.g, s'.c, idx, line);
    assert forall i: nat | i < |s.c.tags| && i != idx :: Held(s'.g, s'.c, i) == Held(s.g, s.c, i);
    assert Backed(s, line);
    forall i: nat | i < |s.c.valids| && s'.c.valids[i]
      ensures SlotOk(s', i)
    {
      if i != idx {
        assert SlotOk(s, i);
      }
    }
    forall l: nat | l < LINES && NotCached(s'.g, s'.c, l)
      ensures Backed(s', l)
    {
      assert l != line;
      assert NotCached(s.g, s.c, l) && Backed(s, l);
    }
  }

  // ----- requester steps -----

  function WriteSlot(c: Cache, i: nat, k: nat, w: Word): (c': Cache)
    requires i < |c.data| && i < |c.dirtys| && k < |c.data[i]|
  {
    c.(data := c.data[i := c.data[i][k := w]], dirtys := c.dirtys[i := true])
  }

  /** A store that hits: the slot and the flat memory change alike. */
  function WordStored(s: World, i: nat, k: nat, data: Word, strb: Strobe): (s': World)
    requires s.g.ways > 0 && i < |s.c.tags| && i < |s.c.data| && i < |s.c.dirtys| && k < |s.c.data[i]| && k < LINE_WORDS
    requires MemoryShape(s.flat) && Held(s.g, s.c, i) < LINES
  {
    s.(c := WriteSlot(s.c, i, k, Merge(s.c.data[i][k], data, strb)),
       flat := StoreAt(s.flat, Held(s.g, s.c, i), k, data, strb))
  }

  ghost predicate Stored(s: World, s': World, i: nat, k: nat, data: Word, strb: Strobe)
  {
    && Sized(s) && i < |s.c.valids| && s.c.valids[i] && k < LINE_WORDS && Held(s.g, s.c, i) < LINES
    && s' == WordStored(s, i, k, data, strb)
  }

  /** A store that hits changes the flat memory at exactly the addressed word, whatever the engine is doing. */
  lemma StoreHit(s: World, s': World, i: nat, k: nat, data: Word, strb: Strobe)
    requires Inv(s) && Stored(s, s', i, k, data, strb)
    ensures Inv(s')
  {
    StoreHitCoherent(s, s', i, k, data, strb);
    StoreHitEngine(s, s', i, k, data, strb);
  }

  lemma StoreHitCoherent(s: World, s': World, i: nat, k: nat, data: Word, strb: Strobe)
    requires Coherent(s) && EngineOk(s) && Stored(s, s', i, k, data, strb)
    ensures Coherent(s')
  {
    var l := Held(s.g, s.c, i);
    assert SlotOk(s, i);
    assert forall j: nat | j < |s.c.tags| :: Held(s'.g, s'.c, j) == Held(s.g, s.c, j);
    forall j: nat | j < |s.c.valids| && s'.c.valids[j]
      ensures SlotOk(s', j)
    {
      assert SlotOk(s, j);
    }
    forall x: nat | x < LINES && NotCached(s'.g, s'.c, x)
      ensures Backed(s', x)
    {
      assert x != l;
      assert NotCached(s.g, s.c, x) && Backed(s, x);
    }
  }

  lemma StoreHitEngine(s: World, s': World, i: nat, k: nat, data: Word, strb: Strobe)
    requires Coherent(s) && EngineOk(s) && Stored(s, s', i, k, data, strb)
    ensures Sized(s') && EngineOk(s')
  {
    if Missing(s.e) {
      StoreHitMissing(s, s', i, k, data, strb);
    } else if CmoWriting(s.e) {
      assert Held(s'.g, s'.c, s.e.cmoIdx) == Held(s.g, s.c, s.e.cmoIdx);
    }
  }

  lemma StoreHitMissing(s: World, s': World, i: nat, k: nat, data: Word, strb: Strobe)
    requires Coherent(s) && EngineOk(s) && Stored(s, s', i, k, data, strb) && Missing(s.e)
    ensures Sized(s') && EngineOk(s')
  {
    var l := Held(s.g, s.c, i);
    assert forall j: nat | j < |s.c.tags| :: Held(s'.g, s'.c, j) == Held(s.g, s.c, j);
    assert NotCached(s'.g, s'.c, s.e.missLine);
    assert MissOk(s');
    assert s'.c.data[s.e.missIdx] == s.c.data[s.e.missIdx];
    if WritingBack(s.e) {
      assert l != s.e.wbLine;
      assert NotCached(s'.g, s'.c, s.e.wbLine);
    }
  }

  /** A load that hits returns the flat memory's word. */
  lemma LoadHit(s: World, i: nat, k: nat)
    requires Inv(s) && i < |s.c.valids| && s.c.valids[i] && k < LINE_WORDS
    ensures Held(s.g, s.c, i) < LINES
    ensures s.c.data[i][k] == s.flat[Held(s.g, s.c, i)][k]
  {
    assert SlotOk(s, i);
  }

  /** Memory stores a beat of a bypass write: outside the cacheable lines memory and the
      flat memory are the same thing. */
  lemma MemStoresBypass(s: World, s': World, l: nat, k: nat, data: Word, strb: Strobe)
    requires Inv(s) && s.e.state == EIdle && l < LINES && l !in s.cacheable && k < LINE_WORDS
    requires s'.g == s.g && s'.cacheable == s.cacheable && s'.c == s.c && s'.e == s.e
    requires s'.mem == StoreAt(s.mem, l, k, data, strb) && s'.flat == StoreAt(s.flat, l, k, data, strb)
    ensures Inv(s')
  {
    UncacheableNotCached(s, l);
    assert Backed(s, l);
    forall i: nat | i < |s.c.valids| && s.c.valids[i]
      ensures SlotOk(s', i)
    {
      assert SlotOk(s, i);
    }
    forall x: nat | x < LINES && NotCached(s'.g, s'.c, x)
      ensures Backed(s', x)
    {
      assert NotCached(s.g, s.c, x) && Backed(s, x);
    }
  }

  /** Another master writes memory outside the cacheable lines, whatever the engine is doing. */
  function MemoryWrote(s: World, l: nat, k: nat, data: Word, strb: Strobe): (s': World)
    requires MemoryShape(s.mem) && MemoryShape(s.flat) && l < LINES && k < LINE_WORDS
  {
    s.(mem := StoreAt(s.mem, l, k, data, strb), flat := StoreAt(s.flat, l, k, data, strb))
  }

  lemma MemoryWritten(s: World, l: nat, k: nat, data: Word, strb: Strobe)
    requires Inv(s) && l < LINES && l !in s.cacheable && k < LINE_WORDS
    ensures MemoryShape(s.mem) && MemoryShape(s.flat) && s.mem[l] == s.flat[l] && Inv(MemoryWrote(s, l, k, data, strb))
  {
    OutsideEngine(s, l);
    WrittenCoherent(s, l, k, data, strb);
    WrittenEngine(s, l, k, data, strb);
  }

  lemma WrittenEngine(s: World, l: nat, k: nat, data: Word, strb: Strobe)
    requires Sized(s) && EngineOk(s) && l < LINES && k < LINE_WORDS
    requires Missing(s.e) ==> s.e.missLine != l
    requires WritingBack(s.e) || CmoWriting(s.e) ==> s.e.wbLine != l
    ensures Sized(MemoryWrote(s, l, k, data, strb)) && EngineOk(MemoryWrote(s, l, k, data, strb))
  {
  }

  lemma WrittenCoherent(s: World, l: nat, k: nat, data: Word, strb: Strobe)
    requires Coherent(s) && l < LINES && l !in s.cacheable && k < LINE_WORDS
    requires WritingBack(s.e) ==> s.e.wbLine != l
    ensures s.mem[l] == s.flat[l] && Coherent(MemoryWrote(s, l, k, data, strb))
  {
    UncacheableNotCached(s, l);
    assert Backed(s, l);
    var s' := MemoryWrote(s, l, k, data, strb);
    forall i: nat | i < |s.c.valids| && s.c.valids[i]
      ensures SlotOk(s', i)
    {
      assert SlotOk(s, i);
    }
    forall x: nat | x < LINES && NotCached(s'.g, s'.c, x)
      ensures Backed(s', x)
    {
      assert NotCached(s.g, s.c, x) && Backed(s, x);
    }
  }

  /** The engine only works on cacheable lines. */
  lemma OutsideEngine(s: World, l: nat)
    requires Inv(s) && l < LINES && l !in s.cacheable
    ensures Missing(s.e) ==> s.e.missLine != l
    ensures WritingBack(s.e) || CmoWriting(s.e) ==> s.e.wbLine != l
  {
    if CmoWriting(s.e) {
      assert SlotOk(s, s.e.cmoIdx);
    }
  }

  lemma UncacheableNotCached(s: World, l: nat)
    requires Coherent(s) && l < LINES && l !in s.cacheable
    ensures NotCached(s.g, s.c, l)
  {
    forall i: nat | i < |s.c.valids| && s.c.valids[i]
      ensures Held(s.g, s.c, i) != l
    {
      assert SlotOk(s, i);
    }
  }

  // ----- cache-block operations -----

  function DropLine(c: Cache, i: nat, invalidate: bool): (c': Cache)
    requires i < |c.dirtys| && i < |c.valids|
  {
    c.(dirtys := c.dirtys[i := false], valids := if invalidate then c.valids[i := false] else c.valids)
  }

  /** Clearing the dirty bit of a valid slot, and perhaps dropping the slot, keeps the flat
      memory exactly when the slot equals memory. */
  lemma DropLineIff(s: World, s': World, i: nat, invalidate: bool)
    requires Coherent(s) && !WritingBack(s.e) && !WritingBack(s'.e)
    requires i < |s.c.valids| && s.c.valids[i]
    requires Held(s.g, s.c, i) < LINES
    requires s'.g == s.g && s'.cacheable == s.cacheable && s'.mem == s.mem && s'.flat == s.flat
    requires s'.c == DropLine(s.c, i, invalidate)
    ensures Coherent(s') <==> s.c.data[i] == s.mem[Held(s.g, s.c, i)]
  {
    var l := Held(s.g, s.c, i);
    assert SlotOk(s, i);
    assert forall j: nat | j < |s.c.tags| :: Held(s'.g, s'.c, j) == Held(s.g, s.c, j);
    if s.c.data[i] == s.mem[l] {
      forall j: nat | j < |s.c.valids| && s'.c.valids[j]
        ensures SlotOk(s', j)
      {
        assert SlotOk(s, j);
      }
      forall x: nat | x < LINES && NotCached(s'.g, s'.c, x)
        ensures Backed(s', x)
      {
        if x != l {
          assert NotCached(s.g, s.c, x) && Backed(s, x);
        }
      }
    }
    if Coherent(s') {
      if invalidate {
        assert NotCached(s'.g, s'.c, l);
        assert Backed(s', l);
      } else {
        assert SlotOk(s', i);
      }
    }
  }

  /** An invalidate without write-back makes the flat memory revert to memory on that
      line and nowhere else. */
  lemma DiscardLine(s: World, s': World, i: nat)
    requires Inv(s) && s.e.state == EIdle && s'.e.state == EIdle
    requires i < |s.c.valids| && s.c.valids[i]
    requires Held(s.g, s.c, i) < LINES
    requires s'.g == s.g && s'.cacheable == s.cacheable && s'.mem == s.mem
    requires s'.c == DropLine(s.c, i, true)
    requires s'.flat == s.flat[Held(s.g, s.c, i) := s.mem[Held(s.g, s.c, i)]]
    ensures Inv(s')
  {
    var l := Held(s.g, s.c, i);
    assert forall j: nat | j < |s.c.tags| :: Held(s'.g, s'.c, j) == Held(s.g, s.c, j);
    forall j: nat | j < |s.c.valids| && s'.c.valids[j]
      ensures SlotOk(s', j)
    {
      assert SlotOk(s, j);
    }
    forall x: nat | x < LINES && NotCached(s'.g, s'.c, x)
      ensures Backed(s', x)
    {
      if x != l {
        assert NotCached(s.g, s.c, x) && Backed(s, x);
      }
    }
  }

  /** A cache-block write-back of slot `i` starts. */
  function CmoStarted(s: World, owner: nat, user: bv32, i: nat): (s': World)
    requires s.g.ways > 0 && i < |s.c.tags|
  {
    s.(e := s.e.(owner := owner, cmoUser := user, cmoIdx := i, wbLine := Held(s.g, s.c, i), beat := 0, state := CmoWbAw))
  }

  lemma CmoStarts(s: World, owner: nat, user: bv32, i: nat)
    requires Inv(s) && s.e.state == EIdle && s.b == QUIET
    requires Shape(s.g, s.c) && i < |s.c.valids| && s.c.valids[i] && s.c.dirtys[i]
    ensures Inv(CmoStarted(s, owner, user, i))
  {
    assert SlotOk(s, i);
    SameCoherence(s, CmoStarted(s, owner, user, i));
  }

  /** A cache-block write-back whose response has arrived: memory holds the words that were sent. */
  lemma CmoLineCopied(s: World)
    requires Inv(s) && s.e.state == CmoWbB && s.b.b != []
    ensures s.e.cmoIdx < |s.c.valids| && s.c.valids[s.e.cmoIdx]
    ensures Held(s.g, s.c, s.e.cmoIdx) == s.e.wbLine < LINES
    ensures s.mem[s.e.wbLine] == s.e.sent && s.flat[s.e.wbLine] == s.c.data[s.e.cmoIdx]
    ensures s.b == QUIET.(b := [ForEngine])
  {
    assert SlotOk(s, s.e.cmoIdx);
  }

  /** The end of a cache-block write-back: the response is taken, the dirty bit cleared whatever has
      happened to the line, and the line dropped if asked for. */
  function CmoEnds(s: World): (s': World)
    requires s.e.cmoIdx < |s.c.dirtys| && s.e.cmoIdx < |s.c.valids| && s.b.b != []
  {
    s.(c := DropLine(s.c, s.e.cmoIdx, Invalidates(s.e.cmoUser)), e := s.e.(state := EIdle), b := s.b.(b := s.b.b[1..]))
  }

  /** The unconditional clear keeps the flat memory exactly when every word of the slot is still the
      word that was sent. */
  lemma ClearIff(s: World)
    requires Inv(s) && s.e.state == CmoWbB && s.b.b != []
    ensures s.e.cmoIdx < |s.c.dirtys| && s.e.cmoIdx < |s.c.valids|
    ensures Coherent(CmoEnds(s)) <==> s.c.data[s.e.cmoIdx] == s.e.sent
    ensures s.c.data[s.e.cmoIdx] == s.e.sent ==> Inv(CmoEnds(s)) && CmoEnds(s).b == QUIET
  {
    CmoLineCopied(s);
    DropLineIff(s, CmoEnds(s), s.e.cmoIdx, Invalidates(s.e.cmoUser));
  }

  // ----- the flat memory is determined by the hardware state -----

  /** A line as the requesters see it: the valid slot, else the line being written back, else memory. */
  ghost function ViewLine(s: World, l: nat): (line: Line)
    requires Inv(s) && l < LINES
  {
    if i: nat :| i < |s.c.valids| && s.c.valids[i] && Held(s.g, s.c, i) == l then s.c.data[i]
    else if WritingBack(s.e) && l == s.e.wbLine then s.c.data[s.e.missIdx]
    else s.mem[l]
  }

  lemma FlatIsView(s: World, l: nat)
    requires Inv(s) && l < LINES
    ensures s.flat[l] == ViewLine(s, l)
  {
    if i: nat :| i < |s.c.valids| && s.c.valids[i] && Held(s.g, s.c, i) == l {
      var j: nat :| j < |s.c.valids| && s.c.valids[j] && Held(s.g, s.c, j) == l && ViewLine(s, l) == s.c.data[j];
      assert SlotOk(s, j);
    } else {
      assert NotCached(s.g, s.c, l);
      assert Backed(s, l);
    }
  }
}
