/** How the SD-SPI controller, the card, the links between them and the DMA traffic fit
    together in every reachable state. */
module SdspiInvariant {
  import opened Words
  import opened SdspiTypes

  // ----- links -----

  /** The data link without the status packets, which may appear anywhere on it. */
  function Core(q: seq<DataPkt>): (core: seq<DataPkt>)
  {
    if q == [] then [] else if q[0].Status? then Core(q[1..]) else [q[0]] + Core(q[1..])
  }

  lemma {:induction false} CoreAppend(q: seq<DataPkt>, x: DataPkt)
    ensures Core(q + [x]) == if x.Status? then Core(q) else Core(q) + [x]
  {
    if q == [] {
      assert [x][1..] == [];
    } else {
      CoreAppend(q[1..], x);
      assert (q + [x])[1..] == q[1..] + [x];
    }
  }

  predicate OnlyConfig(q: seq<CmdPkt>) { forall i | 0 <= i < |q| :: q[i].Config? }

  /** The command on the link is the one the controller latched. */
  predicate Matches(c: CmdPkt, pr: Proto)
  {
    c.Command? && c == pr.cmd && c.dataPresent == (pr.len != 0) && c.write == pr.dataWrite && c.dataLen == 4 * pr.len
  }

  /** The image holds the words of the transfer. */
  ghost predicate InImage(image: seq<Word>, imgOff: nat, words: seq<Word>)
  {
    imgOff + |words| <= |image| && image[imgOff..imgOff + |words|] == words
  }

  /** What the card serves is what its command asks for: length and direction, and for a block
      command the sectors from its argument on. */
  predicate Serves(card: Card)
  {
    && card.cmd.Command? && card.cmd.dataLen == 4 * card.len && card.cmd.write == card.write
    && (card.regular <==> !card.app && Block(card.cmd))
    && (card.regular ==>
          card.imgOff == card.cmd.arg * SECTOR_WORDS && 4 * card.len == card.cmd.blockSize * card.cmd.blockCount)
  }

  /** The card has accepted the command: both sides agree on the length and direction, and a
      read has its words ready. */
  ghost predicate Agreed(pr: Proto, card: Card, src: seq<Word>, image: seq<Word>)
  {
    && card.len == pr.len && card.write == pr.dataWrite && |card.buf| == card.len
    && card.cmd == pr.cmd && Serves(card)
    && (pr.len > 0 ==> |src| == pr.len)
    && (pr.dataWrite ==> card.regular && card.imgOff + pr.len <= |image|)
    && (pr.len > 0 && !pr.dataWrite ==>
          card.buf == src && (card.regular ==> InImage(image, card.imgOff, src)))
  }

  ghost predicate ReadPackets(d: seq<DataPkt>, src: seq<Word>, from: nat, to: nat)
  {
    && from <= to <= |src| && |d| == to - from
    && forall j | 0 <= j < |d| :: d[j] == ReadData(src[from + j], from + j == |src| - 1)
  }

  ghost predicate WritePackets(q: seq<CmdPkt>, src: seq<Word>, from: nat, to: nat)
  {
    && from <= to <= |src| && |q| == to - from
    && forall j | 0 <= j < |q| :: q[j] == WriteData(src[from + j], from + j == |src| - 1)
  }

  /** The card streams `src`; the controller has taken `from` words. */
  ghost predicate ReadLink(pr: Proto, card: Card, d: seq<DataPkt>, from: nat, src: seq<Word>, image: seq<Word>)
  {
    && Agreed(pr, card, src, image) && pr.len > 0 && !pr.dataWrite
    && (if card.st == CSendReadData then card.off < pr.len && ReadPackets(d, src, from, card.off)
        else card.st == CIdle && ReadPackets(d, src, from, pr.len))
  }

  /** The controller has sent `pr.off` words of `src`, the card has stored `card.off` of them. */
  ghost predicate WriteLink(pr: Proto, card: Card, q: seq<CmdPkt>, src: seq<Word>, image: seq<Word>)
  {
    && Agreed(pr, card, src, image) && pr.dataWrite && card.st == CRecvWriteData
    && card.off < pr.len && WritePackets(q, src, card.off, pr.off)
    && (forall j | 0 <= j < card.off :: card.buf[j] == src[j])
  }

  /** The response is on the link; what may follow it depends on the command. */
  ghost predicate Answered(pr: Proto, card: Card, d: seq<DataPkt>, src: seq<Word>, image: seq<Word>)
  {
    && d != [] && d[0].Response?
    && (if d[0].error || pr.len == 0 then card.st == CIdle && |d| == 1
        else if pr.dataWrite then WriteLink(pr, card, [], src, image) && card.off == 0 && |d| == 1
        else ReadLink(pr, card, d[1..], 0, src, image))
  }

  /** Lockstep of the two protocol machines, phase by phase. */
  ghost predicate LinkPart(pr: Proto, card: Card, q: seq<CmdPkt>, d: seq<DataPkt>, src: seq<Word>, image: seq<Word>)
  {
    var ok :=
    && (pr.dataWrite && pr.state != Idle ==> pr.len > 0)
    && match pr.state
       case Idle => card.st == CIdle && OnlyConfig(q) && d == []
       case WritePrefetch => pr.dataWrite && pr.off == 0 && !pr.inputDone && card.st == CIdle && OnlyConfig(q) && d == []
       case SendCmd => pr.off == 0 && !pr.inputDone && card.st == CIdle && OnlyConfig(q) && d == []
       case WaitRsp =>
         && pr.off == 0 && !pr.inputDone && !pr.configPending
         && (|| (&& card.st == CIdle && d == [] && q != [] && Matches(q[|q| - 1], pr)
                 && OnlyConfig(q[..|q| - 1]))
             || (&& card.st == CSendResponse && q == [] && d == []
                 && (!card.error ==> Agreed(pr, card, src, image) && card.off == 0))
             || (q == [] && Answered(pr, card, d, src, image)))
       case ReadStream =>
         && !pr.configPending && q == [] && ReadLink(pr, card, d, pr.off, src, image)
         && (pr.inputDone <==> pr.off == pr.len)
       case WriteStream =>
         !pr.configPending && d == [] && pr.off < pr.len && WriteLink(pr, card, q, src, image)
       case WaitWriteDone =>
         && !pr.configPending && pr.off == pr.len && pr.dataWrite
         && (|| (d == [] && WriteLink(pr, card, q, src, image))
             || (&& card.st == CSendWriteDone && !card.error && q == [] && d == []
                 && Agreed(pr, card, src, image) && InImage(image, card.imgOff, src))
             || (&& card.st == CIdle && q == [] && d == [WriteDone(false)]
                 && Agreed(pr, card, src, image) && InImage(image, card.imgOff, src)));
    ok
  }

  // ----- DMA -----

  ghost predicate InMemory(mem: seq<Word>, addr: nat, src: seq<Word>, n: nat)
    requires |mem| == MEM_WORDS
  {
    n <= |src| && forall j: nat | j < n :: mem[Buf(addr, j)] == src[j]
  }

  /** A burst read in flight: `beat` beats taken, the next ones on the bus, the rest still to be served. */
  ghost predicate Fetching(x: Axi, addr: nat, off: nat, burst: nat, beat: nat, src: seq<Word>)
  {
    && x.aw == [] && x.w == [] && x.applied == 0 && x.b == 0
    && ((x.ar == [Req(Buf(addr, off), burst)] && x.served < burst) || (x.ar == [] && x.served == 0))
    && beat + |x.r| == (if x.ar == [] then burst else x.served)
    && off + burst <= |src|
    && forall j | 0 <= j < |x.r| :: x.r[j] == Beat(src[off + beat + j], beat + j == burst - 1)
  }

  /** A burst write in flight: `sent` beats on the bus, a prefix of them stored in memory. */
  ghost predicate Storing(x: Axi, mem: seq<Word>, addr: nat, off: nat, burst: nat, sent: nat, src: seq<Word>)
    requires |mem| == MEM_WORDS
  {
    && x.ar == [] && x.r == [] && x.served == 0
    && off + burst <= |src| && sent <= burst
    && (|| (&& x.aw == [Req(Buf(addr, off), burst)] && x.b == 0
            && x.applied <= sent && x.applied < burst && |x.w| == sent - x.applied
            && (forall j | 0 <= j < |x.w| :: x.w[j] == Beat(src[off + x.applied + j], x.applied + j == burst - 1))
            && InMemory(mem, addr, src, off + x.applied))
        || (&& sent == burst && x == QUIET.(b := 1) && InMemory(mem, addr, src, off + burst)))
  }

  /** Words that have entered the stream FIFO of a card write. */
  function Fetched(dma: Dma): nat { if dma.st == FromMemR then dma.off + dma.beat else dma.off }

  /** Words that have left the stream FIFO of a card read. */
  function Drained(dma: Dma): nat { if dma.st == ToMemW || dma.st == ToMemB then dma.off + dma.beat else dma.off }

  /** Card write: words fetched = words sent + words in the FIFO, and the FIFO keeps room for every
      beat still to come of the current burst. */
  ghost predicate WriteDma(pr: Proto, fifo: seq<Word>, dma: Dma, addr: nat, x: Axi, mem: seq<Word>, src: seq<Word>)
    requires |mem| == MEM_WORDS
  {
    && |src| == pr.len && InMemory(mem, addr, src, pr.len)
    && pr.off <= Fetched(dma) <= pr.len && fifo == src[pr.off..Fetched(dma)]
    && match dma.st
       case DIdle => x == QUIET
       case FromMemAr =>
         && x == QUIET && dma.beat == 0 && BurstOk(addr, pr.len, dma.off, dma.burst)
         && |fifo| + dma.burst <= FIFO_WORDS
       case FromMemR =>
         && dma.beat < dma.burst && BurstOk(addr, pr.len, dma.off, dma.burst)
         && |fifo| + (dma.burst - dma.beat) <= FIFO_WORDS
         && Fetching(x, addr, dma.off, dma.burst, dma.beat, src)
       case _ => false
  }

  /** Card read: words received = words sent to memory + words in the FIFO. */
  ghost predicate ReadDma(pr: Proto, fifo: seq<Word>, dma: Dma, addr: nat, x: Axi, mem: seq<Word>, src: seq<Word>)
    requires |mem| == MEM_WORDS
  {
    && |src| == pr.len && Drained(dma) <= pr.off <= pr.len && fifo == src[Drained(dma)..pr.off]
    && match dma.st
       case DIdle => x == QUIET && dma.off < pr.len && InMemory(mem, addr, src, dma.off)
       case ToMemAw =>
         && x == QUIET && dma.beat == 0 && BurstOk(addr, pr.len, dma.off, dma.burst)
         && InMemory(mem, addr, src, dma.off)
       case ToMemW =>
         && dma.beat < dma.burst && BurstOk(addr, pr.len, dma.off, dma.burst)
         && Storing(x, mem, addr, dma.off, dma.burst, dma.beat, src)
       case ToMemB =>
         && dma.beat == dma.burst && BurstOk(addr, pr.len, dma.off, dma.burst)
         && Storing(x, mem, addr, dma.off, dma.burst, dma.burst, src)
       case SyncAr =>
         && x == QUIET && dma.off == pr.len && InMemory(mem, addr, src, pr.len)
         && dma.beat == 0 && BurstOk(addr, pr.len, dma.sync, dma.burst)
       case SyncR =>
         && dma.off == pr.len && InMemory(mem, addr, src, pr.len)
         && dma.beat < dma.burst && BurstOk(addr, pr.len, dma.sync, dma.burst)
         && Fetching(x, addr, dma.sync, dma.burst, dma.beat, src)
       case _ => false
  }

  ghost predicate DmaPart(pr: Proto, fifo: seq<Word>, dma: Dma, addr: nat, x: Axi, mem: seq<Word>, src: seq<Word>)
  {
    var ok :=
    && |mem| == MEM_WORDS && |fifo| <= FIFO_WORDS
    && (pr.state != Idle && pr.len > 0 ==> addr % 4 == 0 && addr < U32 && pr.len <= MAX_DATA_SIZE / 4)
    && (if pr.state == Idle || pr.len == 0 then dma.st == DIdle && fifo == [] && x == QUIET
        else if pr.dataWrite then WriteDma(pr, fifo, dma, addr, x, mem, src)
        else if pr.state == ReadStream then ReadDma(pr, fifo, dma, addr, x, mem, src)
        else dma.st == DIdle && dma.off == 0 && fifo == [] && x == QUIET && pr.off == 0);
    ok
  }

  // ----- burst records -----

  predicate DataBurst(st: DmaState) { st.ToMemAw? || st.ToMemW? || st.ToMemB? || st.FromMemAr? || st.FromMemR? }
  predicate SyncBurst(st: DmaState) { st.SyncAr? || st.SyncR? }

  predicate AllBurstsOk(s: seq<(nat, nat)>, addr: nat, len: nat)
  {
    forall i | 0 <= i < |s| :: BurstOk(addr, len, s[i].0, s[i].1)
  }

  /** The bursts issued so far tile what is done and under way, in both passes. */
  ghost predicate TilePart(
    busy: bool, dma: Dma, addr: nat, len: nat, data: seq<(nat, nat)>, sync: seq<(nat, nat)>)
  {
    busy ==>
      && Tiles(data, dma.off + if DataBurst(dma.st) then dma.burst else 0)
      && AllBurstsOk(data, addr, len) && AllBurstsOk(sync, addr, len)
      && Tiles(sync, if SyncBurst(dma.st) then dma.sync + dma.burst else 0)
  }

  // ----- completed transfers -----

  /** A data command that finished without error: the command as it was sent, whether the card took
      it as an application command, and what the buffer and the image held at that moment. */
  datatype Xfer = Xfer(
    cmd: CmdPkt, app: bool, addr: nat, imgOff: nat, len: nat, buffer: seq<Word>, image: seq<Word>,
    bursts: seq<(nat, nat)>, syncs: seq<(nat, nat)>)

  /** The command moves a stretch of the image. */
  predicate OnImage(t: Xfer) requires t.cmd.Command? { !t.app && Block(t.cmd) }

  function BufferWords(mem: seq<Word>, addr: nat, len: nat): (words: seq<Word>)
    requires |mem| == MEM_WORDS
  {
    seq(len, j requires 0 <= j => mem[Buf(addr, j)])
  }

  /** CMD17, 18, 24 and 25 leave the DMA buffer equal to the image from sector `arg` on, for block
      size times block count bytes; nothing else writes to the card.  The data bursts, and for
      card reads also the read-back bursts, cover the buffer exactly once in order. */
  ghost predicate XferOk(t: Xfer)
  {
    && t.cmd.Command? && t.cmd.dataLen == 4 * t.len == 4 * |t.buffer| && t.len > 0
    && (t.cmd.write ==> OnImage(t))
    && (OnImage(t) ==>
          && t.imgOff == t.cmd.arg * SECTOR_WORDS && 4 * t.len == t.cmd.blockSize * t.cmd.blockCount
          && t.buffer == t.image)
    && Tiles(t.bursts, t.len) && AllBurstsOk(t.bursts, t.addr, t.len)
    && (!t.cmd.write ==> Tiles(t.syncs, t.len) && AllBurstsOk(t.syncs, t.addr, t.len))
  }

  /** The entry of a finished data command. */
  predicate EntryOf(t: Xfer, pr: Proto) { t.cmd == pr.cmd && t.len == pr.len }

  /** A data command reported as done has its own entry at the end of the log. */
  ghost predicate LastPart(done: bool, pr: Proto, log: seq<Xfer>)
  {
    done ==> pr.state == Idle && (pr.len > 0 ==> log != [] && EntryOf(log[|log| - 1], pr))
  }

  ghost predicate LogPart(log: seq<Xfer>) { forall i | 0 <= i < |log| :: XferOk(log[i]) }
}
