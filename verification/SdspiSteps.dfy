/** Why every step of the controller, the card and memory keeps the lockstep and DMA invariants. */
module SdspiSteps {
  import opened Words
  import opened SdspiTypes
  import opened SdspiInvariant

  lemma CoreHead(q: seq<DataPkt>)
    requires q != []
    ensures q[0].Status? ==> Core(q[1..]) == Core(q)
    ensures !q[0].Status? ==> Core(q) != [] && Core(q)[0] == q[0] && Core(q[1..]) == Core(q)[1..]
  {
  }

  // ----- the controller takes a packet -----

  /** A response only ever arrives while the controller waits for it. */
  lemma TakesResponse(pr: Proto, card: Card, q: seq<CmdPkt>, d: seq<DataPkt>, src: seq<Word>, image: seq<Word>)
    requires LinkPart(pr, card, q, d, src, image) && d != [] && d[0].Response?
    ensures pr.state == WaitRsp && pr.off == 0 && !pr.configPending
    ensures !d[0].error && pr.len > 0 ==>
              |src| == pr.len &&
              LinkPart(pr.(state := if pr.dataWrite then WriteStream else ReadStream), card, q, d[1..], src, image)
    ensures d[0].error || pr.len == 0 ==> LinkPart(pr.(state := Idle), card, q, d[1..], src, image)
  {
  }

  lemma EntersStream(pr: Proto, fifo: seq<Word>, dma: Dma, addr: nat, x: Axi, mem: seq<Word>, src: seq<Word>)
    requires DmaPart(pr, fifo, dma, addr, x, mem, src) && pr.state == WaitRsp && pr.off == 0
    ensures pr.len > 0 && |src| == pr.len ==>
              DmaPart(pr.(state := if pr.dataWrite then WriteStream else ReadStream), fifo, dma, addr, x, mem, src)
    ensures pr.len == 0 || x == QUIET ==> DmaPart(pr.(state := Idle), [], dma.(st := DIdle), addr, x, mem, src)
  {
  }

  /** A read word only ever arrives in the read stream, in order, with the right last flag. */
  lemma TakesWord(pr: Proto, card: Card, q: seq<CmdPkt>, d: seq<DataPkt>, src: seq<Word>, image: seq<Word>)
    requires LinkPart(pr, card, q, d, src, image) && d != [] && d[0].ReadData?
    ensures pr.state == ReadStream && pr.off < pr.len == |src|
    ensures d[0] == ReadData(src[pr.off], pr.off + 1 == pr.len)
    ensures LinkPart(pr.(off := pr.off + 1, inputDone := d[0].last), card, q, d[1..], src, image)
  {
  }

  lemma BuffersWord(pr: Proto, fifo: seq<Word>, dma: Dma, addr: nat, x: Axi, mem: seq<Word>, src: seq<Word>, done: bool)
    requires DmaPart(pr, fifo, dma, addr, x, mem, src) && pr.state == ReadStream && !pr.dataWrite
    requires pr.off < pr.len == |src| && |fifo| < FIFO_WORDS
    ensures DmaPart(pr.(off := pr.off + 1, inputDone := done), fifo + [src[pr.off]], dma, addr, x, mem, src)
  {
    assert src[Drained(dma)..pr.off + 1] == src[Drained(dma)..pr.off] + [src[pr.off]];
  }

  /** The write acknowledgement arrives only when every word has been sent, and then the image
      holds them. */
  lemma TakesDone(pr: Proto, card: Card, q: seq<CmdPkt>, d: seq<DataPkt>, src: seq<Word>, image: seq<Word>)
    requires LinkPart(pr, card, q, d, src, image) && d != [] && d[0].WriteDone?
    ensures pr.state == WaitWriteDone && pr.off == pr.len > 0 && pr.dataWrite && !d[0].error
    ensures card.regular && |src| == pr.len && InImage(image, card.imgOff, src)
    ensures Serves(card) && card.cmd == pr.cmd && card.len == pr.len && card.st == CIdle
    ensures LinkPart(pr.(state := Idle), card, q, d[1..], src, image)
  {
  }

  /** Once every word has been sent, every word has been fetched and the DMA side is idle. */
  lemma AllFetched(pr: Proto, fifo: seq<Word>, dma: Dma, addr: nat, x: Axi, mem: seq<Word>, src: seq<Word>)
    requires DmaPart(pr, fifo, dma, addr, x, mem, src) && pr.state == WaitWriteDone && pr.dataWrite
    requires pr.off == pr.len > 0
    ensures dma.off == pr.len && dma.st == DIdle && fifo == []
    ensures |mem| == MEM_WORDS && InMemory(mem, addr, src, pr.len)
    ensures DmaPart(pr.(state := Idle), [], dma, addr, x, mem, src)
  {
  }

  // ----- DMA to memory (card reads) -----

  lemma AwSent(pr: Proto, fifo: seq<Word>, dma: Dma, addr: nat, x: Axi, mem: seq<Word>, src: seq<Word>)
    requires DmaPart(pr, fifo, dma, addr, x, mem, src) && dma.st == ToMemAw
    ensures DmaPart(pr, fifo, dma.(st := ToMemW), addr, x.(aw := x.aw + [Req(Buf(addr, dma.off), dma.burst)]), mem, src)
  {
  }

  lemma WSent(pr: Proto, fifo: seq<Word>, dma: Dma, addr: nat, x: Axi, mem: seq<Word>, src: seq<Word>)
    requires DmaPart(pr, fifo, dma, addr, x, mem, src) && dma.st == ToMemW && fifo != []
    ensures DmaPart(pr, fifo[1..], dma.(beat := dma.beat + 1, st := if dma.beat + 1 == dma.burst then ToMemB else ToMemW),
                    addr, x.(w := x.w + [Beat(fifo[0], dma.beat + 1 == dma.burst)]), mem, src)
  {
    hide InMemory, BurstOk, Buf;
    var i := dma.off + dma.beat;
    assert fifo == src[i..pr.off] && fifo[0] == src[i] && fifo[1..] == src[i + 1..pr.off];
  }

  lemma BTaken(pr: Proto, fifo: seq<Word>, dma: Dma, addr: nat, x: Axi, mem: seq<Word>, src: seq<Word>, dma': Dma)
    requires DmaPart(pr, fifo, dma, addr, x, mem, src) && dma.st == ToMemB && x.b > 0
    requires if dma.off + dma.burst == pr.len
             then dma' == Dma(SyncAr, pr.len, 0, dma'.burst, 0) && BurstOk(addr, pr.len, 0, dma'.burst)
             else dma' == dma.(off := dma.off + dma.burst, st := DIdle)
    ensures DmaPart(pr, fifo, dma', addr, x.(b := x.b - 1), mem, src)
  {
  }

  lemma BurstFits(addr: nat, len: nat, off: nat, burst: nat)
    requires BurstOk(addr, len, off, burst)
    ensures 1 <= burst && off + burst <= len
  {
  }

  lemma ReadBounds(pr: Proto, fifo: seq<Word>, dma: Dma, addr: nat, x: Axi, mem: seq<Word>, src: seq<Word>)
    requires DmaPart(pr, fifo, dma, addr, x, mem, src) && dma.st != DIdle
    ensures pr.state != Idle && 0 < pr.len == |src| && addr % 4 == 0 && pr.len <= MAX_DATA_SIZE / 4
    ensures dma.st.SyncR? || dma.st.FromMemR? ==> dma.beat < dma.burst
    ensures dma.st.ToMemAw? || dma.st.ToMemW? || dma.st.ToMemB? || SyncBurst(dma.st) ==>
              pr.state == ReadStream && !pr.dataWrite
    ensures dma.st.FromMemAr? || dma.st.FromMemR? ==> pr.dataWrite && BurstOk(addr, pr.len, dma.off, dma.burst)
    ensures dma.st.ToMemB? ==> dma.off + dma.burst <= pr.len
    ensures SyncBurst(dma.st) ==> BurstOk(addr, pr.len, dma.sync, dma.burst) && dma.off == pr.len == pr.off
    ensures dma.st.SyncR? && x.r != [] ==> x.r[0].last == (dma.beat + 1 == dma.burst)
    ensures dma.st.FromMemR? && x.r != [] ==>
              |fifo| < FIFO_WORDS && x.r[0].last == (dma.beat + 1 == dma.burst)
  {
  }

  lemma SyncSent(pr: Proto, fifo: seq<Word>, dma: Dma, addr: nat, x: Axi, mem: seq<Word>, src: seq<Word>)
    requires DmaPart(pr, fifo, dma, addr, x, mem, src) && dma.st == SyncAr
    ensures DmaPart(pr, fifo, dma.(st := SyncR), addr, x.(ar := x.ar + [Req(Buf(addr, dma.sync), dma.burst)]), mem, src)
  {
  }

  lemma SyncTaken(pr: Proto, fifo: seq<Word>, dma: Dma, addr: nat, x: Axi, mem: seq<Word>, src: seq<Word>)
    requires DmaPart(pr, fifo, dma, addr, x, mem, src) && dma.st == SyncR && x.r != []
    ensures dma.beat + 1 < dma.burst ==>
              DmaPart(pr, fifo, dma.(beat := dma.beat + 1), addr, x.(r := x.r[1..]), mem, src)
    ensures dma.beat + 1 == dma.burst ==>
              && x.(r := x.r[1..]) == QUIET && fifo == [] && |mem| == MEM_WORDS
              && InMemory(mem, addr, src, pr.len) && |src| == pr.len
  {
  }

  lemma NextSync(pr: Proto, dma: Dma, addr: nat, mem: seq<Word>, src: seq<Word>, burst: nat)
    requires |mem| == MEM_WORDS && pr.state == ReadStream && !pr.dataWrite && 0 < pr.len == |src| == pr.off == dma.off
    requires pr.len <= MAX_DATA_SIZE / 4 && addr % 4 == 0 && addr < U32
    requires InMemory(mem, addr, src, pr.len) && dma.st == SyncAr && dma.beat == 0 && dma.burst == burst
    requires BurstOk(addr, pr.len, dma.sync, burst)
    ensures DmaPart(pr, [], dma, addr, QUIET, mem, src)
  {
  }

  // ----- DMA from memory (card writes) -----

  lemma ArSent(pr: Proto, fifo: seq<Word>, dma: Dma, addr: nat, x: Axi, mem: seq<Word>, src: seq<Word>)
    requires DmaPart(pr, fifo, dma, addr, x, mem, src) && dma.st == FromMemAr
    ensures DmaPart(pr, fifo, dma.(st := FromMemR), addr, x.(ar := x.ar + [Req(Buf(addr, dma.off), dma.burst)]), mem, src)
  {
  }

  /** A fetched word always finds room: the burst was sized to the space left in the FIFO. */
  lemma RTaken(pr: Proto, fifo: seq<Word>, dma: Dma, addr: nat, x: Axi, mem: seq<Word>, src: seq<Word>)
    requires DmaPart(pr, fifo, dma, addr, x, mem, src) && dma.st == FromMemR && x.r != []
    ensures |fifo| < FIFO_WORDS && x.r[0].last == (dma.beat + 1 == dma.burst)
    ensures DmaPart(pr, fifo + [x.r[0].data],
                    if x.r[0].last then dma.(off := dma.off + dma.burst, beat := dma.beat + 1, st := DIdle)
                    else dma.(beat := dma.beat + 1),
                    addr, x.(r := x.r[1..]), mem, src)
  {
    hide InMemory, BurstOk, Buf;
    BurstFits(addr, pr.len, dma.off, dma.burst);
    var i := dma.off + dma.beat;
    assert src[pr.off..i + 1] == src[pr.off..i] + [src[i]];
  }

  // ----- starting bursts -----

  lemma Scheduled(pr: Proto, fifo: seq<Word>, dma: Dma, addr: nat, x: Axi, mem: seq<Word>, src: seq<Word>, burst: nat)
    requires DmaPart(pr, fifo, dma, addr, x, mem, src) && dma.st == DIdle && pr.state != Idle && pr.len > 0
    requires BurstOk(addr, pr.len, dma.off, burst)
    ensures pr.dataWrite && |fifo| + burst <= FIFO_WORDS ==>
              DmaPart(pr, fifo, dma.(st := FromMemAr, burst := burst, beat := 0), addr, x, mem, src)
    ensures pr.state == ReadStream && !pr.dataWrite ==>
              DmaPart(pr, fifo, dma.(st := ToMemAw, burst := burst, beat := 0), addr, x, mem, src)
  {
  }

  // ----- memory -----

  /** The DMA traffic after memory stores a beat. */
  function BeatStored(x: Axi): (x': Axi)
    requires x.aw != [] && x.w != []
  {
    if x.applied + 1 == x.aw[0].beats then x.(aw := x.aw[1..], w := x.w[1..], applied := 0, b := x.b + 1)
    else x.(w := x.w[1..], applied := x.applied + 1)
  }

  lemma MemoryGrows(mem: seq<Word>, addr: nat, src: seq<Word>, i: nat)
    requires |mem| == MEM_WORDS && i < |src| <= MAX_DATA_SIZE / 4 && InMemory(mem, addr, src, i)
    ensures InMemory(mem[Buf(addr, i) := src[i]], addr, src, i + 1)
  {
    var mem' := mem[Buf(addr, i) := src[i]];
    forall j: nat | j < i + 1
      ensures mem'[Buf(addr, j)] == src[j]
    {
      if j != i && Buf(addr, j) == Buf(addr, i) {
        BufInjective(addr, j, i);
      }
    }
  }

  lemma StoredBeat(x: Axi, mem: seq<Word>, addr: nat, off: nat, burst: nat, sent: nat, src: seq<Word>)
    requires |mem| == MEM_WORDS && |src| <= MAX_DATA_SIZE / 4
    requires Storing(x, mem, addr, off, burst, sent, src) && x.aw != [] && x.w != []
    ensures x.aw == [Req(Buf(addr, off), burst)] && x.applied < burst && x.w[0].last == (x.applied + 1 == burst)
    ensures Storing(BeatStored(x), mem[(x.aw[0].word + x.applied) % MEM_WORDS := x.w[0].data], addr, off, burst, sent, src)
  {
    var i := off + x.applied;
    BufStep(addr, off, x.applied);
    MemoryGrows(mem, addr, src, i);
    hide InMemory, Buf;
    assert x.w[0].data == src[i];
  }

  /** Memory stores the next beat of the burst write. */
  lemma MemStores(pr: Proto, fifo: seq<Word>, dma: Dma, addr: nat, x: Axi, mem: seq<Word>, src: seq<Word>)
    requires DmaPart(pr, fifo, dma, addr, x, mem, src) && x.aw != [] && x.w != []
    ensures |mem| == MEM_WORDS && x.aw == [Req(Buf(addr, dma.off), dma.burst)] && x.applied < dma.burst
    ensures x.w[0].last == (x.applied + 1 == dma.burst)
    ensures DmaPart(pr, fifo, dma, addr, BeatStored(x), mem[(x.aw[0].word + x.applied) % MEM_WORDS := x.w[0].data], src)
  {
    WhoWrites(pr, fifo, dma, addr, x, mem, src);
    hide BurstOk, Buf, InMemory, Storing, BeatStored;
    StoredBeat(x, mem, addr, dma.off, dma.burst, if dma.st == ToMemW then dma.beat else dma.burst, src);
  }

  /** The beat memory stores is the next word of the card read, at its place in the buffer. */
  lemma WhatIsStored(pr: Proto, fifo: seq<Word>, dma: Dma, addr: nat, x: Axi, mem: seq<Word>, src: seq<Word>)
    requires DmaPart(pr, fifo, dma, addr, x, mem, src) && x.aw != [] && x.w != []
    ensures pr.state == ReadStream && dma.off + x.applied < pr.len == |src|
    ensures x.w[0].data == src[dma.off + x.applied]
    ensures (x.aw[0].word + x.applied) % MEM_WORDS == Buf(addr, dma.off + x.applied)
  {
    WhoWrites(pr, fifo, dma, addr, x, mem, src);
    hide InMemory, BurstOk;
    BufStep(addr, dma.off, x.applied);
  }

  /** Write traffic belongs to a card read whose data burst is under way. */
  lemma WhoWrites(pr: Proto, fifo: seq<Word>, dma: Dma, addr: nat, x: Axi, mem: seq<Word>, src: seq<Word>)
    requires DmaPart(pr, fifo, dma, addr, x, mem, src) && x.aw != []
    ensures pr.state == ReadStream && !pr.dataWrite && pr.len > 0 && (dma.st == ToMemW || dma.st == ToMemB)
  {
    hide BurstOk, Buf, InMemory;
  }

  /** Read traffic belongs to a fetch for a card write or to the read-back of a card read. */
  lemma WhoReads(pr: Proto, fifo: seq<Word>, dma: Dma, addr: nat, x: Axi, mem: seq<Word>, src: seq<Word>)
    requires DmaPart(pr, fifo, dma, addr, x, mem, src) && x.ar != []
    ensures pr.state != Idle && pr.len > 0
    ensures dma.st == FromMemR || dma.st == SyncR
    ensures pr.dataWrite <==> dma.st == FromMemR
    ensures !pr.dataWrite ==> pr.state == ReadStream
  {
    hide BurstOk, Buf, InMemory;
  }

  /** The DMA traffic after memory returns a beat. */
  function BeatServed(x: Axi, beat: Beat): (x': Axi)
    requires x.ar != []
  {
    if beat.last then x.(ar := x.ar[1..], served := 0, r := x.r + [beat])
    else x.(served := x.served + 1, r := x.r + [beat])
  }

  lemma ServedBeat(x: Axi, mem: seq<Word>, addr: nat, off: nat, burst: nat, beat: nat, src: seq<Word>)
    requires |mem| == MEM_WORDS && InMemory(mem, addr, src, |src|)
    requires Fetching(x, addr, off, burst, beat, src) && x.ar != []
    ensures x.served < x.ar[0].beats
    ensures Fetching(BeatServed(x, Beat(mem[(x.ar[0].word + x.served) % MEM_WORDS], x.served + 1 == x.ar[0].beats)),
                     addr, off, burst, beat, src)
  {
    BufStep(addr, off, x.served);
    assert mem[Buf(addr, off + x.served)] == src[off + x.served];
  }

  /** Memory returns the next beat of the burst read. */
  lemma MemServes(pr: Proto, fifo: seq<Word>, dma: Dma, addr: nat, x: Axi, mem: seq<Word>, src: seq<Word>)
    requires DmaPart(pr, fifo, dma, addr, x, mem, src) && x.ar != []
    ensures |mem| == MEM_WORDS && x.served < x.ar[0].beats
    ensures DmaPart(pr, fifo, dma, addr,
                    BeatServed(x, Beat(mem[(x.ar[0].word + x.served) % MEM_WORDS], x.served + 1 == x.ar[0].beats)), mem, src)
  {
    WhoReads(pr, fifo, dma, addr, x, mem, src);
    hide BurstOk, Buf, InMemory, Fetching, BeatServed;
    ServedBeat(x, mem, addr, if dma.st == SyncR then dma.sync else dma.off, dma.burst, dma.beat, src);
  }

  /** A store by another master outside the buffer does not disturb the transfer. */
  lemma OtherStores(pr: Proto, fifo: seq<Word>, dma: Dma, addr: nat, x: Axi, mem: seq<Word>, src: seq<Word>, at: nat, w: Word)
    requires DmaPart(pr, fifo, dma, addr, x, mem, src) && at < |mem|
    requires pr.state == Idle || forall j: nat | j < pr.len :: Buf(addr, j) != at
    ensures DmaPart(pr, fifo, dma, addr, x, mem[at := w], src)
  {
  }

  // ----- command boundaries -----

  lemma NotBusy(dma: Dma, addr: nat, len: nat, data: seq<(nat, nat)>, sync: seq<(nat, nat)>)
    ensures TilePart(false, dma, addr, len, data, sync)
  {
  }

  lemma FreshTiles(dma: Dma, addr: nat, len: nat)
    requires dma.st == DIdle && dma.off == 0
    ensures TilePart(true, dma, addr, len, [], [])
  {
  }

  /** The data bursts of a completed card write. */
  lemma WriteTiles(dma: Dma, addr: nat, len: nat, data: seq<(nat, nat)>, sync: seq<(nat, nat)>)
    requires TilePart(true, dma, addr, len, data, sync) && dma.st == DIdle && dma.off == len
    ensures Tiles(data, len) && AllBurstsOk(data, addr, len)
  {
  }

  lemma ReadMode(pr: Proto, card: Card, q: seq<CmdPkt>, d: seq<DataPkt>, src: seq<Word>, image: seq<Word>)
    requires LinkPart(pr, card, q, d, src, image) && pr.state == ReadStream
    ensures !pr.dataWrite && pr.len > 0
  {
  }

  /** When every word has been received the card is done and the link is empty. */
  lemma ReadComplete(pr: Proto, card: Card, q: seq<CmdPkt>, d: seq<DataPkt>, src: seq<Word>, image: seq<Word>)
    requires LinkPart(pr, card, q, d, src, image) && pr.state == ReadStream && pr.off == pr.len
    ensures pr.inputDone && (card.regular ==> InImage(image, card.imgOff, src))
    ensures Serves(card) && card.cmd == pr.cmd && card.len == pr.len && !card.write
    ensures LinkPart(pr.(state := Idle), card, q, d, src, image)
  {
  }

  lemma IdleDma(pr: Proto, dma: Dma, addr: nat, mem: seq<Word>, src: seq<Word>)
    requires pr.state == Idle && dma.st == DIdle && |mem| == MEM_WORDS
    ensures DmaPart(pr, [], dma, addr, QUIET, mem, src)
  {
  }

  lemma IdleFinish(pr: Proto, fifo: seq<Word>, dma: Dma, addr: nat, x: Axi, mem: seq<Word>, src: seq<Word>)
    requires DmaPart(pr, fifo, dma, addr, x, mem, src) && pr.state == Idle
    ensures DmaPart(pr, [], dma.(st := DIdle), addr, x, mem, src)
  {
  }

  lemma MemSize(pr: Proto, fifo: seq<Word>, dma: Dma, addr: nat, x: Axi, mem: seq<Word>, src: seq<Word>)
    requires DmaPart(pr, fifo, dma, addr, x, mem, src)
    ensures |mem| == MEM_WORDS && |fifo| <= FIFO_WORDS
  {
  }

  lemma Prefetched(pr: Proto, card: Card, q: seq<CmdPkt>, d: seq<DataPkt>, src: seq<Word>, image: seq<Word>)
    requires LinkPart(pr, card, q, d, src, image) && pr.state == WritePrefetch
    ensures pr.dataWrite && LinkPart(pr.(state := SendCmd), card, q, d, src, image)
  {
  }

  lemma CanSchedule(pr: Proto, card: Card, q: seq<CmdPkt>, d: seq<DataPkt>, src: seq<Word>, image: seq<Word>,
                    fifo: seq<Word>, dma: Dma, addr: nat, x: Axi, mem: seq<Word>)
    requires LinkPart(pr, card, q, d, src, image) && DmaPart(pr, fifo, dma, addr, x, mem, src)
    requires pr.state == WritePrefetch || pr.state == WriteStream || pr.state == ReadStream
    requires dma.st == DIdle && dma.off != pr.len
    ensures pr.len > 0 && dma.off < pr.len && addr % 4 == 0
    ensures pr.dataWrite <==> pr.state != ReadStream
  {
  }

  lemma IdleRegs(pr: Proto, card: Card, q: seq<CmdPkt>, d: seq<DataPkt>, src: seq<Word>, image: seq<Word>, pending: bool)
    requires LinkPart(pr, card, q, d, src, image) && pr.state == Idle
    ensures LinkPart(pr.(configPending := pending), card, q, d, src, image)
  {
  }

  lemma IdleAddr(pr: Proto, fifo: seq<Word>, dma: Dma, addr: nat, addr': nat, x: Axi, mem: seq<Word>, src: seq<Word>, pending: bool)
    requires DmaPart(pr, fifo, dma, addr, x, mem, src) && pr.state == Idle
    ensures DmaPart(pr.(configPending := pending), fifo, dma, addr', x, mem, src)
  {
  }
}
