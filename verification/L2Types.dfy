/** Data of the L2 cache model: AXI packets, the cache arrays, the port and engine
    registers, and the memory side of the bus. */
module L2Types {
  import opened Words

  /** 64-byte lines of sixteen words over a 32-bit address space. */
  const LINE_SIZE: nat := 64
  const LINE_WORDS: nat := 16
  const LINES: nat := 0x400_0000
  const ADDR_SPACE: nat := 0x1_0000_0000

  type Line = seq<Word>

  function LineOf(addr: nat): nat { addr / LINE_SIZE }
  function WordOf(addr: nat): nat { (addr % LINE_SIZE) / 4 }

  datatype Burst = Fixed | Incr | Wrap

  /** A read request.  `user` carries the cache-block operation code. */
  datatype Ar = Ar(id: nat, addr: nat, len: nat, size: nat, burst: Burst, cache: nat, user: bv32)

  /** A write request together with the data beats its master sends for it. */
  datatype Aw = Aw(id: nat, addr: nat, len: nat, size: nat, burst: Burst, cache: nat, beats: seq<W>)

  datatype W = W(data: Word, strb: Strobe, last: bool)

  /** A beat handed to a requester on its read channel. */
  datatype R = R(id: nat, data: Word, last: bool)

  /** Bytes per beat of an AXI size code, `1 << size`. */
  function StepBytes(size: nat): (n: nat)
  {
    if size == 0 then 1 else 2 * StepBytes(size - 1)
  }

  function NextAddr(addr: nat, size: nat, burst: Burst): (a: nat)
    ensures addr < ADDR_SPACE ==> a < ADDR_SPACE
  {
    if burst == Fixed then addr else (addr + StepBytes(size)) % ADDR_SPACE
  }

  /** Address of beat `k` of a burst that starts at `addr`. */
  function BeatAddr(addr: nat, size: nat, burst: Burst, k: nat): (a: nat)
    ensures addr < ADDR_SPACE ==> a < ADDR_SPACE
  {
    if k == 0 then addr else NextAddr(BeatAddr(addr, size, burst, k - 1), size, burst)
  }

  lemma WrapStep(x: nat, step: nat)
    ensures (x % ADDR_SPACE + step) % ADDR_SPACE == (x + step) % ADDR_SPACE
  {
    var q, r := x / ADDR_SPACE, x % ADDR_SPACE;
    assert x + step == (r + step) + q * ADDR_SPACE;
    WrapTurns(r + step, q);
  }

  lemma {:induction false} WrapTurns(x: nat, turns: nat)
    ensures (x + turns * ADDR_SPACE) % ADDR_SPACE == x % ADDR_SPACE
  {
    if turns > 0 {
      WrapTurns(x, turns - 1);
      WrapTurn(x + (turns - 1) * ADDR_SPACE);
      assert x + turns * ADDR_SPACE == x + (turns - 1) * ADDR_SPACE + ADDR_SPACE;
    }
  }

  lemma WrapTurn(x: nat)
    ensures (x + ADDR_SPACE) % ADDR_SPACE == x % ADDR_SPACE
  {
  }

  /** Incrementing bursts walk consecutive addresses, modulo the address space. */
  lemma {:induction false} IncrBeatAddr(addr: nat, size: nat, k: nat)
    requires addr < ADDR_SPACE
    ensures BeatAddr(addr, size, Incr, k) == (addr + k * StepBytes(size)) % ADDR_SPACE
  {
    hide StepBytes, NextAddr;
    if k > 0 {
      IncrBeatAddr(addr, size, k - 1);
      var step := StepBytes(size);
      NextIncr(BeatAddr(addr, size, Incr, k - 1), size);
      WrapStep(addr + (k - 1) * step, step);
      OneMore(k, step);
    }
  }

  lemma NextIncr(addr: nat, size: nat)
    ensures NextAddr(addr, size, Incr) == (addr + StepBytes(size)) % ADDR_SPACE
  {
  }

  lemma OneMore(k: nat, step: nat)
    requires k > 0
    ensures (k - 1) * step + step == k * step
  {
  }

  // ----- cache-block operation codes (axi4_user_cmo) -----

  function CmoOp(user: bv32): bv32 { user & 3 }
  predicate IsCmo(user: bv32) { (user >> 2) & 0x3f == 0x30 && user >> 8 == 0 }
  predicate Invalidates(user: bv32) { CmoOp(user) == 1 || CmoOp(user) == 3 }
  predicate Cleans(user: bv32) { CmoOp(user) == 2 || CmoOp(user) == 3 }

  // ----- requests the model is specified for -----

  /** Every beat of the burst falls in (or outside) the cacheable lines. */
  ghost predicate BurstIn(addr: nat, size: nat, burst: Burst, len: nat, cacheable: iset<nat>, inside: bool)
  {
    forall k: nat | k <= len :: (LineOf(BeatAddr(addr, size, burst, k)) in cacheable) == inside
  }

  ghost predicate WellFormedAr(ar: Ar, cacheable: iset<nat>)
  {
    && ar.addr < ADDR_SPACE
    && (if IsCmo(ar.user) then
          ar.len == 0 && ar.size == 2 && CmoOp(ar.user) != 0
        else if ar.cache == 0 then
          BurstIn(ar.addr, ar.size, ar.burst, ar.len, cacheable, false)
        else
          && ar.size == 2 && ar.burst == Incr
          && BurstIn(ar.addr, ar.size, ar.burst, ar.len, cacheable, true))
  }

  /** `len + 1` beats, the last one marked. */
  predicate WellFormedBeats(beats: seq<W>, len: nat)
  {
    |beats| == len + 1 && forall k | 0 <= k < |beats| :: beats[k].last == (k == len)
  }

  ghost predicate WellFormedAw(aw: Aw, cacheable: iset<nat>)
  {
    && aw.addr < ADDR_SPACE
    && WellFormedBeats(aw.beats, aw.len)
    && (if aw.cache == 0 then
          BurstIn(aw.addr, aw.size, aw.burst, aw.len, cacheable, false)
        else
          && aw.size == 2 && aw.burst == Incr
          && BurstIn(aw.addr, aw.size, aw.burst, aw.len, cacheable, true))
  }

  // ----- cache arrays -----

  datatype Geometry = Geometry(sets: nat, ways: nat)

  /** The tag, valid, dirty and data arrays, indexed by `set * ways + way`. */
  datatype Cache = Cache(tags: seq<nat>, valids: seq<bool>, dirtys: seq<bool>, data: seq<Line>)

  /** The line whose contents slot `i` holds. */
  function Held(g: Geometry, c: Cache, i: nat): (line: nat)
    requires g.ways > 0 && i < |c.tags|
  {
    c.tags[i] * g.sets + i / g.ways
  }

  predicate Shape(g: Geometry, c: Cache)
  {
    && g.sets > 0 && g.ways > 0
    && |c.tags| == |c.valids| == |c.dirtys| == |c.data| == g.sets * g.ways
    && forall i | 0 <= i < |c.data| :: |c.data[i]| == LINE_WORDS
  }

  /** No slot holds `line`. */
  ghost predicate NotCached(g: Geometry, c: Cache, line: nat)
    requires Shape(g, c)
  {
    forall i: nat | i < |c.valids| && c.valids[i] :: Held(g, c, i) != line
  }

  predicate MemoryShape(m: seq<Line>)
  {
    |m| == LINES && forall l | 0 <= l < |m| :: |m[l]| == LINE_WORDS
  }

  // ----- ports and the miss/write-back engine -----

  datatype PortState = Idle | Read | Write | MissWait | CmoWait | CmoRsp

  datatype Port = Port(
    state: PortState, missReturn: PortState, ar: Ar, aw: Aw, addr: nat, beat: nat,
    missResolved: bool, latencyActive: bool, delay: nat)

  datatype EngineState = EIdle | WbAw | WbW | WbB | RefillAr | RefillR | CmoWbAw | CmoWbW | CmoWbB

  /** `sent` are the words of the current write-back that are on their way to memory or stored there. */
  datatype Engine = Engine(
    state: EngineState, owner: nat, missLine: nat, missSet: nat, missTag: nat, missIdx: nat,
    wbLine: nat, beat: nat, cmoUser: bv32, cmoIdx: nat, sent: seq<Word>)

  predicate Missing(e: Engine) { WritingBack(e) || e.state.RefillAr? || e.state.RefillR? }
  predicate WritingBack(e: Engine) { e.state.WbAw? || e.state.WbW? || e.state.WbB? }
  predicate CmoWriting(e: Engine) { e.state.CmoWbAw? || e.state.CmoWbW? || e.state.CmoWbB? }

  // ----- the memory side of the bus -----

  /** Write requests accepted by memory and not yet complete. */
  datatype MemAw = LineAw(line: nat) | BypassAw(port: nat, aw: Aw)
  datatype MemAr = LineAr(line: nat) | BypassAr(port: nat, ar: Ar)

  /** Which part of the cache a response from memory belongs to. */
  datatype Source = ForEngine | ForPort(port: nat)
  datatype MemR = MemR(src: Source, id: nat, data: Word, last: bool)

  /** In-flight memory traffic.  `applied` counts the beats of `aw[0]` that memory has
      stored, `served` the beats of `ar[0]` it has returned. */
  datatype Bus = Bus(
    aw: seq<MemAw>, w: seq<W>, applied: nat, b: seq<Source>,
    ar: seq<MemAr>, served: nat, r: seq<MemR>)

  const QUIET := Bus([], [], 0, [], [], 0, [])

  /** Outstanding bypass writes, oldest first. */
  datatype WrCtx = WrCtx(port: nat, beatIdx: nat, aw: Aw, wDone: bool)
}

/** Flat-memory histories: what a requester may observe of a memory without caches. */
module FlatMemory {
  import opened Words
  import opened L2Types

  /** What happens at the two ports, in the order in which the memory they share sees it. */
  datatype Event =
    | Load(port: nat, id: nat, line: nat, word: nat, data: Word, last: bool)
    | Answer(port: nat, id: nat, line: nat, user: bv32)   // a cache-block operation is complete
    | Store(port: nat, line: nat, word: nat, data: Word, strb: Strobe)
    | Ack(port: nat, id: nat)                             // the response to a write
    | Discard(port: nat, id: nat, line: nat, user: bv32, words: Line)   // invalidate: the line reverts to `words`
    | Saved(port: nat, id: nat, line: nat, user: bv32, words: Line)     // clean or flush: memory holds `words`
    | Foreign(line: nat, word: nat, data: Word, strb: Strobe)           // a store by another master

  predicate InBounds(ev: Event)
  {
    match ev
    case Load(_, _, line, word, _, _) => line < LINES && word < LINE_WORDS
    case Store(_, line, word, _, _) => line < LINES && word < LINE_WORDS
    case Discard(_, _, line, _, words) => line < LINES && |words| == LINE_WORDS
    case Saved(_, _, line, _, words) => line < LINES && |words| == LINE_WORDS
    case Foreign(line, word, _, _) => line < LINES && word < LINE_WORDS
    case _ => true
  }

  function StoreAt(m: seq<Line>, line: nat, word: nat, data: Word, strb: Strobe): (m': seq<Line>)
    requires MemoryShape(m) && line < LINES && word < LINE_WORDS
    ensures MemoryShape(m')
  {
    m[line := m[line][word := Merge(m[line][word], data, strb)]]
  }

  function Apply(m: seq<Line>, ev: Event): (m': seq<Line>)
    requires MemoryShape(m) && InBounds(ev)
    ensures MemoryShape(m')
  {
    match ev
    case Store(_, line, word, data, strb) => StoreAt(m, line, word, data, strb)
    case Discard(_, _, line, _, words) => m[line := words]
    case Foreign(line, word, data, strb) => StoreAt(m, line, word, data, strb)
    case _ => m
  }

  predicate AllInBounds(h: seq<Event>) { forall j | 0 <= j < |h| :: InBounds(h[j]) }

  /** The memory after a history. */
  function Replay(m: seq<Line>, h: seq<Event>): (m': seq<Line>)
    requires MemoryShape(m) && AllInBounds(h)
    ensures MemoryShape(m')
  {
    if h == [] then m else Apply(Replay(m, h[..|h| - 1]), h[|h| - 1])
  }

  /** Every load returned what the stores before it left in memory, and every clean or flush found
      just that in the memory behind the cache. */
  ghost predicate Legal(m: seq<Line>, h: seq<Event>)
    requires MemoryShape(m)
  {
    && AllInBounds(h)
    && (forall j | 0 <= j < |h| && h[j].Load? :: h[j].data == Replay(m, h[..j])[h[j].line][h[j].word])
    && (forall j | 0 <= j < |h| && h[j].Saved? :: h[j].words == Replay(m, h[..j])[h[j].line])
  }

  lemma ReplayAppend(m: seq<Line>, h: seq<Event>, ev: Event)
    requires MemoryShape(m) && AllInBounds(h) && InBounds(ev)
    ensures AllInBounds(h + [ev]) && Replay(m, h + [ev]) == Apply(Replay(m, h), ev)
  {
    assert (h + [ev])[..|h|] == h;
  }

  lemma LegalAppend(m: seq<Line>, h: seq<Event>, ev: Event)
    requires MemoryShape(m) && Legal(m, h) && InBounds(ev)
    requires ev.Load? ==> ev.data == Replay(m, h)[ev.line][ev.word]
    requires ev.Saved? ==> ev.words == Replay(m, h)[ev.line]
    ensures Legal(m, h + [ev]) && Replay(m, h + [ev]) == Apply(Replay(m, h), ev)
  {
    ReplayAppend(m, h, ev);
    var h' := h + [ev];
    forall j | 0 <= j < |h'| && h'[j].Load?
      ensures h'[j].data == Replay(m, h'[..j])[h'[j].line][h'[j].word]
    {
      assert h'[..j] == h[..j];
      if j == |h| {
        assert h[..j] == h;
      }
    }
    forall j | 0 <= j < |h'| && h'[j].Saved?
      ensures h'[j].words == Replay(m, h'[..j])[h'[j].line]
    {
      assert h'[..j] == h[..j];
      if j == |h| {
        assert h[..j] == h;
      }
    }
  }

  /** One byte of memory after a history, found by searching backwards for the most
      recent event that wrote it. */
  function LastByte(m: seq<Line>, h: seq<Event>, line: nat, word: nat, lane: nat): (b: bv8)
    requires MemoryShape(m) && AllInBounds(h) && line < LINES && word < LINE_WORDS && lane < 4
  {
    if h == [] then m[line][word].Lane(lane)
    else
      var ev := h[|h| - 1];
      if (ev.Store? || ev.Foreign?) && ev.line == line && ev.word == word && ev.strb.On(lane) then ev.data.Lane(lane)
      else if ev.Discard? && ev.line == line then ev.words[word].Lane(lane)
      else LastByte(m, h[..|h| - 1], line, word, lane)
  }

  /** Replay is the byte memory in which the last store to a byte wins. */
  lemma {:induction false} ReplayIsLastWriter(m: seq<Line>, h: seq<Event>, line: nat, word: nat, lane: nat)
    requires MemoryShape(m) && AllInBounds(h) && line < LINES && word < LINE_WORDS && lane < 4
    ensures Replay(m, h)[line][word].Lane(lane) == LastByte(m, h, line, word, lane)
  {
    if h != [] {
      ReplayIsLastWriter(m, h[..|h| - 1], line, word, lane);
    }
  }

  /** The memory held `v` at this word after the first `j` events. */
  ghost predicate SeenAt(m: seq<Line>, h: seq<Event>, j: nat, line: nat, word: nat, v: Word)
  {
    && MemoryShape(m) && j <= |h| && AllInBounds(h[..j]) && line < LINES && word < LINE_WORDS
    && v == Replay(m, h[..j])[line][word]
  }

  /** The memory held `v` at this word at some point of the history. */
  ghost predicate Seen(m: seq<Line>, h: seq<Event>, line: nat, word: nat, v: Word)
  {
    exists j: nat :: SeenAt(m, h, j, line, word, v)
  }

  lemma SeenNow(m: seq<Line>, h: seq<Event>, line: nat, word: nat)
    requires MemoryShape(m) && AllInBounds(h) && line < LINES && word < LINE_WORDS
    ensures Seen(m, h, line, word, Replay(m, h)[line][word])
  {
    assert h[..|h|] == h;
    assert SeenAt(m, h, |h|, line, word, Replay(m, h)[line][word]);
  }

  lemma SeenMore(m: seq<Line>, h: seq<Event>, ev: Event, line: nat, word: nat, v: Word)
    requires Seen(m, h, line, word, v)
    ensures Seen(m, h + [ev], line, word, v)
  {
    var j: nat :| SeenAt(m, h, j, line, word, v);
    assert (h + [ev])[..j] == h[..j];
    assert SeenAt(m, h + [ev], j, line, word, v);
  }
}
