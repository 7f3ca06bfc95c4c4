/** Every step of the SD-SPI system keeps what holds in every state. */
module SdspiKeeps {
  import opened Words
  import opened SdspiTypes
  import opened SdspiInvariant
  import opened SdspiSteps
  import opened SdspiLink
  import opened SdspiMachine

  // ----- burst records -----

  lemma BurstsAppend(s: seq<(nat, nat)>, off: nat, beats: nat, addr: nat, len: nat)
    requires AllBurstsOk(s, addr, len) && BurstOk(addr, len, off, beats)
    ensures AllBurstsOk(s + [(off, beats)], addr, len)
  {
    hide BurstOk;
  }

  /** A data burst is started at the current offset. */
  lemma DataBurstStarts(dma: Dma, dma': Dma, addr: nat, len: nat, data: seq<(nat, nat)>, sync: seq<(nat, nat)>)
    requires TilePart(true, dma, addr, len, data, sync) && dma.st == DIdle
    requires dma' == dma.(st := dma'.st, burst := dma'.burst, beat := 0) && (dma'.st == ToMemAw || dma'.st == FromMemAr)
    requires BurstOk(addr, len, dma.off, dma'.burst)
    ensures TilePart(true, dma', addr, len, data + [(dma.off, dma'.burst)], sync)
  {
    hide BurstOk, Tiles, AllBurstsOk;
    BurstFits(addr, len, dma.off, dma'.burst);
    TilesAppend(data, dma.off, dma'.burst);
    BurstsAppend(data, dma.off, dma'.burst, addr, len);
  }

  lemma SyncBurstStarts(dma: Dma, dma': Dma, addr: nat, len: nat, data: seq<(nat, nat)>, sync: seq<(nat, nat)>)
    requires TilePart(true, dma, addr, len, data, sync)
    requires dma.st == ToMemB || dma.st == SyncR
    requires if dma.st == ToMemB then dma'.off == dma.off + dma.burst && dma'.sync == 0
             else dma'.off == dma.off && dma'.sync == dma.sync + dma.burst
    requires dma'.st == SyncAr && BurstOk(addr, len, dma'.sync, dma'.burst)
    ensures TilePart(true, dma', addr, len, data, sync + [(dma'.sync, dma'.burst)])
  {
    hide BurstOk, Tiles, AllBurstsOk;
    BurstFits(addr, len, dma'.sync, dma'.burst);
    TilesAppend(sync, dma'.sync, dma'.burst);
    BurstsAppend(sync, dma'.sync, dma'.burst, addr, len);
  }

  /** Progress inside a burst, and the end of a data burst. */
  lemma BurstProgress(dma: Dma, dma': Dma, addr: nat, len: nat, data: seq<(nat, nat)>, sync: seq<(nat, nat)>)
    requires TilePart(true, dma, addr, len, data, sync)
    requires dma'.sync == dma.sync
    requires || (dma'.off == dma.off && dma'.burst == dma.burst
                 && (DataBurst(dma.st) <==> DataBurst(dma'.st)) && (SyncBurst(dma.st) <==> SyncBurst(dma'.st)))
             || (dma'.off == dma.off + dma.burst && DataBurst(dma.st) && dma'.st == DIdle)
    ensures TilePart(true, dma', addr, len, data, sync)
  {
  }

  /** A finished transfer belongs in the log. */
  lemma LogGrows(log: seq<Xfer>, t: Xfer)
    requires LogPart(log) && XferOk(t)
    ensures LogPart(log + [t])
  {
  }

  lemma BufferIs(mem: seq<Word>, addr: nat, src: seq<Word>)
    requires |mem| == MEM_WORDS && InMemory(mem, addr, src, |src|)
    ensures BufferWords(mem, addr, |src|) == src
  {
  }

  /** The acknowledgement of a card write meets every condition the controller checks. */
  lemma WriteCompletes(pr: Proto, card: Card, q: seq<CmdPkt>, d: seq<DataPkt>, src: seq<Word>, image: seq<Word>,
                       fifo: seq<Word>, dma: Dma, addr: nat, x: Axi, mem: seq<Word>,
                       data: seq<(nat, nat)>, sync: seq<(nat, nat)>, log: seq<Xfer>)
    requires LinkPart(pr, card, q, d, src, image) && d != [] && d[0].WriteDone?
    requires DmaPart(pr, fifo, dma, addr, x, mem, src) && LogPart(log)
    requires TilePart(pr.state != Idle && pr.len > 0, dma, addr, pr.len, data, sync)
    ensures pr.state == WaitWriteDone && pr.off == pr.len == dma.off && dma.st == DIdle && fifo == [] && !d[0].error
    ensures pr.len > 0 && pr.dataWrite && card.st == CIdle
    ensures LinkPart(Finished(pr), card, q, d[1..], src, image)
    ensures DmaPart(Finished(pr), [], Stopped(dma), addr, x, mem, src)
    ensures var t := Record(pr, card, addr, mem, image, data, sync);
            && t.cmd.Command? && t.cmd.write && t.buffer == t.image == src && EntryOf(t, pr) && t.imgOff == card.imgOff
            && LogPart(log + [t])
  {
    TakesDone(pr, card, q, d, src, image);
    AllFetched(pr, fifo, dma, addr, x, mem, src);
    hide LinkPart, DmaPart, LogPart, AllBurstsOk, Tiles, BurstOk, InMemory;
    BufferIs(mem, addr, src);
    WriteTiles(dma, addr, pr.len, data, sync);
    LogGrows(log, Record(pr, card, addr, mem, image, data, sync));
    assert dma == Stopped(dma);
  }

  /** A card read is complete when its read-back pass is. */
  lemma ReadCompletes(pr: Proto, card: Card, q: seq<CmdPkt>, d: seq<DataPkt>, src: seq<Word>, image: seq<Word>,
                      dma: Dma, addr: nat, mem: seq<Word>,
                      data: seq<(nat, nat)>, sync: seq<(nat, nat)>, log: seq<Xfer>)
    requires LinkPart(pr, card, q, d, src, image) && LogPart(log)
    requires TilePart(true, dma, addr, pr.len, data, sync)
    requires pr.state == ReadStream && !pr.dataWrite && 0 < pr.len == |src| == pr.off == dma.off && dma.st == SyncR
    requires dma.sync + dma.burst == pr.len && |mem| == MEM_WORDS && InMemory(mem, addr, src, pr.len)
    ensures pr.inputDone
    ensures LinkPart(Finished(pr), card, q, d, src, image)
    ensures DmaPart(Finished(pr), [], Stopped(dma), addr, QUIET, mem, src)
    ensures var t := Record(pr, card, addr, mem, image, data, sync);
            && t.cmd.Command? && !t.cmd.write && EntryOf(t, pr) && LogPart(log + [t])
            && (OnImage(t) ==> t.imgOff + t.len <= |image| && t.buffer == t.image)
  {
    ReadComplete(pr, card, q, d, src, image);
    hide LinkPart, DmaPart, LogPart, AllBurstsOk, Tiles, BurstOk, InMemory;
    BufferIs(mem, addr, src);
    LogGrows(log, Record(pr, card, addr, mem, image, data, sync));
    IdleDma(Finished(pr), Stopped(dma), addr, mem, src);
  }

  /** A response ends a command without data; with data it starts the data phase, or, when the card
      refuses and no burst is in flight, ends the command cleanly. */
  lemma ResponseStep(pr: Proto, card: Card, q: seq<CmdPkt>, d: seq<DataPkt>, src: seq<Word>, image: seq<Word>,
                     fifo: seq<Word>, dma: Dma, addr: nat, x: Axi, mem: seq<Word>)
    requires LinkPart(pr, card, q, d, src, image) && d != [] && d[0].Response?
    requires DmaPart(pr, fifo, dma, addr, x, mem, src)
    ensures pr.state == WaitRsp && !pr.configPending
    ensures (d[0].error && x == QUIET) || (!d[0].error && pr.len == 0) ==>
              && LinkPart(Finished(pr), card, q, d[1..], src, image)
              && DmaPart(Finished(pr), [], Stopped(dma), addr, x, mem, src)
    ensures !d[0].error && pr.len > 0 ==>
              && LinkPart(Streaming(pr), card, q, d[1..], src, image)
              && DmaPart(Streaming(pr), fifo, dma, addr, x, mem, src)
  {
    hide LinkPart, DmaPart;
    TakesResponse(pr, card, q, d, src, image);
    EntersStream(pr, fifo, dma, addr, x, mem, src);
  }

  lemma LaunchStep(pr: Proto, card: Card, q: seq<CmdPkt>, d: seq<DataPkt>, src: seq<Word>, image: seq<Word>,
                   fifo: seq<Word>, dma: Dma, addr: nat, x: Axi, mem: seq<Word>, len: nat, write: bool, words: seq<Word>)
    requires LinkPart(pr, card, q, d, src, image) && DmaPart(pr, fifo, dma, addr, x, mem, src) && pr.state == Idle
    requires (write ==> len > 0) && (len > 0 ==> addr % 4 == 0 && addr < U32 && len <= MAX_DATA_SIZE / 4)
    requires write ==> |mem| == MEM_WORDS && words == BufferWords(mem, addr, len)
    ensures LinkPart(Launched(pr, len, write), card, q, d, words, image)
    ensures DmaPart(Launched(pr, len, write), [], Cleared(dma), addr, x, mem, words)
    ensures TilePart(len > 0, Cleared(dma), addr, len, [], [])
  {
    MemSize(pr, fifo, dma, addr, x, mem, src);
    var next := Launched(pr, len, write);
    StartsLink(pr, next, card, q, d, src, words, image);
    StartsDma(pr, next, fifo, dma, addr, x, mem, src, words);
    FreshTiles(Cleared(dma), addr, len);
  }

  lemma LengthOk(regs: Regs, hasData: bool, write: bool)
    requires !BadRequest(regs, hasData, write)
    ensures write ==> hasData
    ensures hasData ==> 0 < Length(regs) / 4 <= MAX_DATA_SIZE / 4 && regs.dmaAddr % 4 == 0 && Length(regs) % 4 == 0
  {
  }

  // ----- the disk -----

  /** As long as the image is not ahead, the disk does not depend on the transfer under way. */
  lemma DiskAlone(base: seq<Word>, log: seq<Xfer>, imgOff: nat, src: seq<Word>, image: seq<Word>, imgOff': nat, src': seq<Word>)
    requires DiskPart(base, log, false, imgOff, src, image)
    ensures DiskPart(base, log, false, imgOff', src', image)
  {
  }

  /** A finished write moves from the image ahead of the log into the log. */
  lemma DiskWritten(base: seq<Word>, log: seq<Xfer>, t: Xfer, src: seq<Word>, image: seq<Word>)
    requires DiskPart(base, log, true, t.imgOff, src, image) && t.cmd.Command? && t.cmd.write && t.buffer == src
    ensures DiskPart(base, log + [t], false, t.imgOff, src, image)
  {
    hide Stored;
    assert (log + [t])[..|log|] == log;
  }

  lemma DiskRead(base: seq<Word>, log: seq<Xfer>, t: Xfer, imgOff: nat, src: seq<Word>, image: seq<Word>)
    requires DiskPart(base, log, false, imgOff, src, image) && t.cmd.Command? && !t.cmd.write
    ensures DiskPart(base, log + [t], false, imgOff, src, image)
  {
    hide Stored;
    assert (log + [t])[..|log|] == log;
  }

  lemma HistoryGrows(base: seq<Word>, log: seq<Xfer>, t: Xfer)
    requires HistoryPart(base, log) && ReadsDisk(base, log, t)
    ensures HistoryPart(base, log + [t])
  {
    hide ReadsDisk;
    var log' := log + [t];
    forall i | 0 <= i < |log'|
      ensures ReadsDisk(base, log'[..i], log'[i])
    {
      assert log'[..i] == log[..i];
    }
  }

  /** A block read takes the words of the image, which is the disk. */
  lemma ReadsNow(base: seq<Word>, log: seq<Xfer>, t: Xfer, imgOff: nat, src: seq<Word>, image: seq<Word>)
    requires DiskPart(base, log, false, imgOff, src, image)
    requires t.imgOff + t.len <= |image| ==> t.image == image[t.imgOff..t.imgOff + t.len]
    requires t.cmd.Command? && OnImage(t) ==> t.imgOff + t.len <= |image| && t.buffer == t.image
    ensures ReadsDisk(base, log, t)
  {
  }

  // ----- packets from the card -----

  lemma RespondedOk(s: Snap, present: bool, imageBytes: nat)
    requires Ok(s, imageBytes) && s.dataQ != [] && s.dataQ[0].Response?
    ensures s.pr.state == WaitRsp
    ensures var s' := Responded(s, present);
            if CutOff(s) then CutShort(s, s') else Ok(s', imageBytes)
  {
    hide LinkPart, DmaPart, TilePart, LogPart, Core, DiskPart, HistoryPart;
    CoreHead(s.dataQ);
    ResponseStep(s.pr, s.card, s.cmdQ, Core(s.dataQ), s.tr.src, s.image, s.fifo, s.dma, s.regs.dmaAddr, s.axi, s.mem);
    NotBusy(Stopped(s.dma), s.regs.dmaAddr, s.pr.len, s.tr.bursts, s.tr.syncs);
  }

  lemma WordReceivedOk(s: Snap, present: bool, imageBytes: nat)
    requires Ok(s, imageBytes) && s.dataQ != [] && s.dataQ[0].ReadData? && |s.fifo| < FIFO_WORDS
    ensures s.pr.state == ReadStream && s.pr.off < s.pr.len && s.dataQ[0].last == (s.pr.off + 1 == s.pr.len)
    ensures Ok(WordReceived(s, present), imageBytes)
  {
    hide LinkPart, DmaPart, TilePart, LogPart, Core, DiskPart, HistoryPart;
    CoreHead(s.dataQ);
    TakesWord(s.pr, s.card, s.cmdQ, Core(s.dataQ), s.tr.src, s.image);
    ReadMode(s.pr, s.card, s.cmdQ, Core(s.dataQ), s.tr.src, s.image);
    BuffersWord(s.pr, s.fifo, s.dma, s.regs.dmaAddr, s.axi, s.mem, s.tr.src, s.dataQ[0].last);
  }

  lemma WriteAckedOk(s: Snap, present: bool, imageBytes: nat)
    requires Ok(s, imageBytes) && s.dataQ != [] && s.dataQ[0].WriteDone?
    ensures s.pr.state == WaitWriteDone && s.pr.off == s.pr.len == s.dma.off && s.dma.st == DIdle && s.fifo == []
    ensures s.pr.len > 0 && s.pr.dataWrite && !s.dataQ[0].error
    ensures Ok(WriteAcked(s, present), imageBytes)
  {
    hide LinkPart, DmaPart, TilePart, LogPart, Core, DiskPart, HistoryPart, Record;
    CoreHead(s.dataQ);
    WriteCompletes(s.pr, s.card, s.cmdQ, Core(s.dataQ), s.tr.src, s.image, s.fifo, s.dma, s.regs.dmaAddr, s.axi, s.mem,
                   s.tr.bursts, s.tr.syncs, s.log);
    NotBusy(Stopped(s.dma), s.regs.dmaAddr, s.pr.len, s.tr.bursts, s.tr.syncs);
    var t := Entry(s);
    assert Popped(s, present).tr == s.tr && Entry(Popped(s, present)) == t;
    DiskWritten(s.tr.base, s.log, t, s.tr.src, s.image);
    HistoryGrows(s.tr.base, s.log, t);
  }

  lemma ReceivedOk(s: Snap, present: bool, imageBytes: nat)
    requires Ok(s, imageBytes)
    ensures var s' := Received(s, present);
            if CutOff(s) then CutShort(s, s') else Ok(s', imageBytes)
  {
    if !NothingToTake(s) {
      hide Responded, WordReceived, WriteAcked;
      match s.dataQ[0]
      case Status(p) =>
        hide LinkPart, DmaPart, TilePart, LogPart, Core, DiskPart, HistoryPart;
        CoreHead(s.dataQ);
      case Response(_) => hide Ok; RespondedOk(s, present, imageBytes);
      case ReadData(_, _) => hide Ok; WordReceivedOk(s, present, imageBytes);
      case WriteDone(_) => hide Ok; WriteAckedOk(s, present, imageBytes);
    }
  }

  // ----- DMA -----

  lemma AwOk(s: Snap, full: bool, imageBytes: nat)
    requires Ok(s, imageBytes) && s.dma.st == ToMemAw
    ensures Ok(AwNext(s, full), imageBytes)
  {
    hide LinkPart, DmaPart, TilePart, LogPart, Core, DiskPart, HistoryPart;
    ReadBounds(s.pr, s.fifo, s.dma, s.regs.dmaAddr, s.axi, s.mem, s.tr.src);
    AwSent(s.pr, s.fifo, s.dma, s.regs.dmaAddr, s.axi, s.mem, s.tr.src);
    BurstProgress(s.dma, s.dma.(st := ToMemW), s.regs.dmaAddr, s.pr.len, s.tr.bursts, s.tr.syncs);
  }

  lemma WOk(s: Snap, full: bool, imageBytes: nat)
    requires Ok(s, imageBytes) && s.dma.st == ToMemW
    ensures Ok(WNext(s, full), imageBytes)
  {
    hide LinkPart, DmaPart, TilePart, LogPart, Core, DiskPart, HistoryPart;
    if s.fifo != [] && !full {
      ReadBounds(s.pr, s.fifo, s.dma, s.regs.dmaAddr, s.axi, s.mem, s.tr.src);
      WSent(s.pr, s.fifo, s.dma, s.regs.dmaAddr, s.axi, s.mem, s.tr.src);
      BurstProgress(s.dma, WNext(s, full).dma, s.regs.dmaAddr, s.pr.len, s.tr.bursts, s.tr.syncs);
    }
  }

  lemma BeatsOk(addr: nat, len: nat, off: nat, maxBeats: nat)
    requires off < len && 0 < maxBeats <= MAX_BURST_BEATS && addr % 4 == 0
    ensures BurstOk(addr, len, off, Beats(addr, len, off, maxBeats))
    ensures Beats(addr, len, off, maxBeats) <= maxBeats
  {
    BurstBytesOk(addr, len, off, maxBeats);
  }

  lemma BOk(s: Snap, imageBytes: nat)
    requires Ok(s, imageBytes) && s.dma.st == ToMemB
    ensures s.axi.b > 0 ==> s.dma.off + s.dma.burst <= s.pr.len
    ensures Ok(BNext(s), imageBytes)
  {
    hide LinkPart, DmaPart, TilePart, LogPart, Core, DiskPart, HistoryPart, BurstOk, Beats;
    if s.axi.b > 0 {
      ReadBounds(s.pr, s.fifo, s.dma, s.regs.dmaAddr, s.axi, s.mem, s.tr.src);
      BeatsOk(s.regs.dmaAddr, s.pr.len, 0, MAX_BURST_BEATS);
      var dma' := BNext(s).dma;
      BTaken(s.pr, s.fifo, s.dma, s.regs.dmaAddr, s.axi, s.mem, s.tr.src, dma');
      if dma'.off == s.pr.len {
        SyncBurstStarts(s.dma, dma', s.regs.dmaAddr, s.pr.len, s.tr.bursts, s.tr.syncs);
      } else {
        BurstProgress(s.dma, dma', s.regs.dmaAddr, s.pr.len, s.tr.bursts, s.tr.syncs);
      }
    }
  }

  lemma SyncArOk(s: Snap, full: bool, imageBytes: nat)
    requires Ok(s, imageBytes) && s.dma.st == SyncAr
    ensures Ok(SyncArNext(s, full), imageBytes)
  {
    hide LinkPart, DmaPart, TilePart, LogPart, Core, DiskPart, HistoryPart;
    ReadBounds(s.pr, s.fifo, s.dma, s.regs.dmaAddr, s.axi, s.mem, s.tr.src);
    SyncSent(s.pr, s.fifo, s.dma, s.regs.dmaAddr, s.axi, s.mem, s.tr.src);
    BurstProgress(s.dma, s.dma.(st := SyncR), s.regs.dmaAddr, s.pr.len, s.tr.bursts, s.tr.syncs);
  }

  /** A read-back beat has the right last flag. */
  lemma SyncROk(s: Snap, imageBytes: nat)
    requires Ok(s, imageBytes) && s.dma.st == SyncR
    ensures Ok(SyncRNext(s), imageBytes)
  {
    hide LinkPart, DmaPart, TilePart, LogPart, Core, DiskPart, HistoryPart, BurstOk, InMemory, SyncBurstRead;
    if s.axi.r != [] {
      ReadBounds(s.pr, s.fifo, s.dma, s.regs.dmaAddr, s.axi, s.mem, s.tr.src);
      SyncTaken(s.pr, s.fifo, s.dma, s.regs.dmaAddr, s.axi, s.mem, s.tr.src);
      if !s.axi.r[0].last {
        BurstProgress(s.dma, SyncRNext(s).dma, s.regs.dmaAddr, s.pr.len, s.tr.bursts, s.tr.syncs);
      } else if s.dma.sync + s.dma.burst == s.pr.len {
        ReadEnds(s, imageBytes);
      } else {
        SyncContinues(s, imageBytes);
      }
    }
  }

  /** A read-back burst is over, and its beats are off the bus. */
  ghost predicate AtSyncEnd(s: Snap, imageBytes: nat)
  {
    && Ok(s, imageBytes) && s.dma.st == SyncR && s.axi.r != [] && s.axi.r[0].last && s.dma.beat + 1 == s.dma.burst
    && s.pr.state == ReadStream && !s.pr.dataWrite && 0 < s.pr.len == |s.tr.src| == s.pr.off == s.dma.off
    && s.pr.len <= MAX_DATA_SIZE / 4 && s.regs.dmaAddr % 4 == 0 && BurstOk(s.regs.dmaAddr, s.pr.len, s.dma.sync, s.dma.burst)
    && s.axi.(r := s.axi.r[1..]) == QUIET && s.fifo == [] && |s.mem| == MEM_WORDS
    && InMemory(s.mem, s.regs.dmaAddr, s.tr.src, s.pr.len)
  }

  lemma SyncContinues(s: Snap, imageBytes: nat)
    requires AtSyncEnd(s, imageBytes) && s.dma.sync + s.dma.burst != s.pr.len
    ensures Ok(SyncRNext(s), imageBytes)
  {
    hide LinkPart, DmaPart, TilePart, LogPart, Core, DiskPart, HistoryPart, BurstOk, InMemory, Beats;
    BurstFits(s.regs.dmaAddr, s.pr.len, s.dma.sync, s.dma.burst);
    BeatsOk(s.regs.dmaAddr, s.pr.len, s.dma.sync + s.dma.burst, MAX_BURST_BEATS);
    var dma' := SyncRNext(s).dma;
    NextSync(s.pr, dma', s.regs.dmaAddr, s.mem, s.tr.src, dma'.burst);
    SyncBurstStarts(s.dma, dma', s.regs.dmaAddr, s.pr.len, s.tr.bursts, s.tr.syncs);
  }

  lemma ReadEnds(s: Snap, imageBytes: nat)
    requires AtSyncEnd(s, imageBytes) && s.dma.sync + s.dma.burst == s.pr.len
    ensures s.pr.inputDone && Ok(SyncRNext(s), imageBytes)
  {
    hide LinkPart, DmaPart, TilePart, LogPart, Core, DiskPart, HistoryPart, BurstOk, InMemory, Beats, Record;
    ReadCompletes(s.pr, s.card, s.cmdQ, Core(s.dataQ), s.tr.src, s.image, s.dma, s.regs.dmaAddr, s.mem,
                  s.tr.bursts, s.tr.syncs, s.log);
    var s' := SyncRNext(s);
    IdleDma(Finished(s.pr), s'.dma, s.regs.dmaAddr, s.mem, s.tr.src);
    NotBusy(s'.dma, s.regs.dmaAddr, s.pr.len, s.tr.bursts, s.tr.syncs);
    var t := Entry(s);
    assert s'.log == s.log + [t];
    RecordImage(s);
    ReadsNow(s.tr.base, s.log, t, s.card.imgOff, s.tr.src, s.image);
    DiskRead(s.tr.base, s.log, t, s.card.imgOff, s.tr.src, s.image);
    HistoryGrows(s.tr.base, s.log, t);
  }

  lemma RecordImage(s: Snap)
    ensures var t := Entry(s);
            t.len == s.pr.len && t.imgOff == s.card.imgOff
            && (t.imgOff + t.len <= |s.image| ==> t.image == s.image[t.imgOff..t.imgOff + t.len])
  {
  }

  lemma ArOk(s: Snap, full: bool, imageBytes: nat)
    requires Ok(s, imageBytes) && s.dma.st == FromMemAr
    ensures Ok(ArNext(s, full), imageBytes)
  {
    hide LinkPart, DmaPart, TilePart, LogPart, Core, DiskPart, HistoryPart;
    ReadBounds(s.pr, s.fifo, s.dma, s.regs.dmaAddr, s.axi, s.mem, s.tr.src);
    ArSent(s.pr, s.fifo, s.dma, s.regs.dmaAddr, s.axi, s.mem, s.tr.src);
    BurstProgress(s.dma, s.dma.(st := FromMemR), s.regs.dmaAddr, s.pr.len, s.tr.bursts, s.tr.syncs);
  }

  /** A fetched word always finds room, and its last flag is right. */
  lemma ROk(s: Snap, imageBytes: nat)
    requires Ok(s, imageBytes) && s.dma.st == FromMemR
    ensures s.axi.r != [] ==> |s.fifo| < FIFO_WORDS && s.axi.r[0].last == (s.dma.beat + 1 == s.dma.burst)
    ensures Ok(RNext(s), imageBytes)
  {
    hide LinkPart, DmaPart, TilePart, LogPart, Core, DiskPart, HistoryPart, BurstOk;
    if s.axi.r != [] {
      ReadBounds(s.pr, s.fifo, s.dma, s.regs.dmaAddr, s.axi, s.mem, s.tr.src);
      RTaken(s.pr, s.fifo, s.dma, s.regs.dmaAddr, s.axi, s.mem, s.tr.src);
      BurstProgress(s.dma, RNext(s).dma, s.regs.dmaAddr, s.pr.len, s.tr.bursts, s.tr.syncs);
    }
  }

  lemma DmaOk(s: Snap, stall: Stall, imageBytes: nat)
    requires Ok(s, imageBytes)
    ensures Ok(DmaNext(s, stall), imageBytes)
  {
    hide Ok, AwNext, WNext, BNext, SyncArNext, SyncRNext, ArNext, RNext;
    match s.dma.st
    case DIdle =>
    case ToMemAw => AwOk(s, stall.aw, imageBytes);
    case ToMemW => WOk(s, stall.w, imageBytes);
    case ToMemB => BOk(s, imageBytes);
    case SyncAr => SyncArOk(s, stall.ar, imageBytes);
    case SyncR => SyncROk(s, imageBytes);
    case FromMemAr => ArOk(s, stall.ar, imageBytes);
    case FromMemR => ROk(s, imageBytes);
  }

  lemma PrefetchOk(s: Snap, imageBytes: nat)
    requires Ok(s, imageBytes)
    ensures Ok(PrefetchNext(s), imageBytes)
  {
    hide LinkPart, DmaPart, TilePart, LogPart, Core, DiskPart, HistoryPart, PrefetchDone;
    if s.pr.state == WritePrefetch {
      Prefetched(s.pr, s.card, s.cmdQ, Core(s.dataQ), s.tr.src, s.image);
      StateChanges(s.pr, s.fifo, s.dma, s.regs.dmaAddr, s.axi, s.mem, s.tr.src, s.pr.(state := SendCmd));
    }
  }

  lemma ScheduleOk(s: Snap, imageBytes: nat)
    requires Ok(s, imageBytes)
    ensures Ok(ScheduleNext(s), imageBytes)
  {
    hide LinkPart, DmaPart, TilePart, LogPart, Core, DiskPart, HistoryPart, BurstOk, Beats;
    if CanBurst(s.pr, s.fifo, s.dma) {
      CanSchedule(s.pr, s.card, s.cmdQ, Core(s.dataQ), s.tr.src, s.image, s.fifo, s.dma, s.regs.dmaAddr, s.axi, s.mem);
      MemSize(s.pr, s.fifo, s.dma, s.regs.dmaAddr, s.axi, s.mem, s.tr.src);
      BeatsOk(s.regs.dmaAddr, s.pr.len, s.dma.off, MaxBeats(s.pr, s.fifo));
      var dma' := ScheduleNext(s).dma;
      Scheduled(s.pr, s.fifo, s.dma, s.regs.dmaAddr, s.axi, s.mem, s.tr.src, dma'.burst);
      DataBurstStarts(s.dma, dma', s.regs.dmaAddr, s.pr.len, s.tr.bursts, s.tr.syncs);
    }
  }

  // ----- packets to the card -----

  lemma SentOk(s: Snap, full: bool, imageBytes: nat)
    requires Ok(s, imageBytes)
    ensures Ok(Sent(s, full), imageBytes)
  {
    hide LinkPart, DmaPart, TilePart, LogPart, Core, DiskPart, HistoryPart;
    if full {
    } else if s.pr.configPending {
      SendsConfig(s.pr, s.card, s.cmdQ, Core(s.dataQ), s.tr.src, s.image, s.regs.enable);
      StateChanges(s.pr, s.fifo, s.dma, s.regs.dmaAddr, s.axi, s.mem, s.tr.src, s.pr.(configPending := false));
    } else if s.pr.state == SendCmd {
      var cmd := CommandOf(s.regs, s.pr);
      SendsCommand(s.pr, s.card, s.cmdQ, Core(s.dataQ), s.tr.src, s.image, cmd);
      StateChanges(s.pr, s.fifo, s.dma, s.regs.dmaAddr, s.axi, s.mem, s.tr.src, s.pr.(state := WaitRsp, cmd := cmd));
    } else if s.pr.state == WriteStream && s.fifo != [] {
      WordSentOk(s, imageBytes);
    }
  }

  lemma WordSentOk(s: Snap, imageBytes: nat)
    requires Ok(s, imageBytes) && !s.pr.configPending && s.pr.state == WriteStream && s.fifo != []
    ensures Ok(Sent(s, false), imageBytes)
  {
    hide LinkPart, DmaPart, TilePart, LogPart, Core, DiskPart, HistoryPart;
    SendsWord(s.pr, s.card, s.cmdQ, Core(s.dataQ), s.tr.src, s.image);
    SentFromFifo(s.pr, s.fifo, s.dma, s.regs.dmaAddr, s.axi, s.mem, s.tr.src, Sent(s, false).pr.state);
  }

  lemma AdvancedOk(s: Snap, stall: Stall, imageBytes: nat)
    requires Ok(s, imageBytes)
    ensures Ok(Advanced(s, stall), imageBytes)
  {
    hide Ok, DmaNext, PrefetchNext, ScheduleNext, Sent;
    DmaOk(s, stall, imageBytes);
    var d := DmaNext(s, stall);
    PrefetchOk(d, imageBytes);
    ScheduleOk(PrefetchNext(d), imageBytes);
    SentOk(ScheduleNext(PrefetchNext(d)), stall.cmd, imageBytes);
  }

  lemma CutIff(s: Snap, present: bool, imageBytes: nat)
    requires Ok(s, imageBytes)
    ensures Received(s, present).errs.cut <==> CutOff(s)
  {
    ReceivedOk(s, present, imageBytes);
    hide Received;
  }

  /** With nothing under way the rest of a clock does nothing. */
  lemma Nothing(t: Snap, stall: Stall)
    requires t.pr.state == Idle && t.dma.st == DIdle && !t.pr.configPending
    ensures Advanced(t, stall) == t
  {
    hide Beats;
  }

  /** A clock of the controller keeps everything, unless it takes a refusal that cuts off a burst. */
  lemma ControllerOk(s: Snap, stall: Stall, present: bool, imageBytes: nat)
    requires Ok(s, imageBytes)
    ensures var s' := ControllerNext(s, stall, present);
            if CutOff(s) then CutShort(s, s') else Ok(s', imageBytes)
  {
    ReceivedOk(s, present, imageBytes);
    var t := Received(s, present);
    hide Received, Advanced, Ok;
    if CutOff(s) {
      Nothing(t, stall);
    } else {
      AdvancedOk(t, stall, imageBytes);
    }
  }

  lemma CutEnds(s: Snap, stall: Stall, present: bool, imageBytes: nat)
    requires Ok(s, imageBytes)
    ensures CutOff(s) ==> ControllerNext(s, stall, present) == Received(s, present)
  {
    ReceivedOk(s, present, imageBytes);
    hide Received, Advanced, Ok;
    if CutOff(s) {
      Nothing(Received(s, present), stall);
    }
  }

  /** The refusal alone decides: without the mark it leaves, the state after a clock of the controller is
      sound exactly when the clock did not cut off a burst. */
  lemma CutOffIff(s: Snap, stall: Stall, present: bool, imageBytes: nat)
    requires Ok(s, imageBytes)
    ensures Ok(ControllerNext(s, stall, present).(errs := NONE), imageBytes) <==> !CutOff(s)
  {
    ControllerOk(s, stall, present, imageBytes);
    var s' := ControllerNext(s, stall, present);
    hide ControllerNext;
    if CutOff(s) {
      IdleQuiet(s'.(errs := NONE), imageBytes);
    } else {
      NoErrors(s', imageBytes);
      assert s'.(errs := NONE) == s';
    }
  }

  lemma IdleQuiet(s: Snap, imageBytes: nat)
    ensures Ok(s, imageBytes) && s.pr.state == Idle ==> s.axi == QUIET
  {
    hide LinkPart, TilePart, LogPart, DiskPart, HistoryPart, Core, WriteDma, ReadDma;
  }

  // ----- software -----

  lemma LaunchOk(s: Snap, hasData: bool, write: bool, imageBytes: nat)
    requires Ok(s, imageBytes) && s.pr.state == Idle && !BadRequest(s.regs, hasData, write)
    ensures Ok(LaunchNext(s, if hasData then Length(s.regs) / 4 else 0, write), imageBytes)
  {
    hide LinkPart, DmaPart, TilePart, LogPart, Core, DiskPart, HistoryPart, BufferWords, BadRequest, Length;
    LengthOk(s.regs, hasData, write);
    MemSize(s.pr, s.fifo, s.dma, s.regs.dmaAddr, s.axi, s.mem, s.tr.src);
    var len := if hasData then Length(s.regs) / 4 else 0;
    LaunchStep(s.pr, s.card, s.cmdQ, Core(s.dataQ), s.tr.src, s.image, s.fifo, s.dma, s.regs.dmaAddr, s.axi, s.mem,
               len, write, LaunchNext(s, len, write).tr.src);
    DiskAlone(s.tr.base, s.log, s.card.imgOff, s.tr.src, s.image, s.card.imgOff, LaunchNext(s, len, write).tr.src);
  }

  lemma StartedOk(s: Snap, opcode: nat, hasData: bool, write: bool, imageBytes: nat)
    requires Ok(s, imageBytes)
    ensures Ok(Started(s, opcode, hasData, write), imageBytes)
  {
    hide LinkPart, DmaPart, TilePart, LogPart, Core, DiskPart, HistoryPart, BadRequest, Length, LaunchNext;
    if !BusyAt(s) {
      var t := s.(regs := s.regs.(opcode := opcode % 64));
      assert Ok(t, imageBytes);
      if BadRequest(t.regs, hasData, write) {
        IdleFinish(s.pr, s.fifo, s.dma, s.regs.dmaAddr, s.axi, s.mem, s.tr.src);
      } else {
        LaunchOk(t, hasData, write, imageBytes);
      }
    }
  }

  lemma IdleChanged(s: Snap, regs: Regs, pending: bool, imageBytes: nat)
    requires Ok(s, imageBytes) && s.pr.state == Idle && regs.dmaAddr < U32
    ensures Ok(s.(regs := regs, pr := s.pr.(configPending := pending)), imageBytes)
  {
    hide LinkPart, DmaPart, TilePart, LogPart, Core, DiskPart, HistoryPart;
    IdleRegs(s.pr, s.card, s.cmdQ, Core(s.dataQ), s.tr.src, s.image, pending);
    IdleAddr(s.pr, s.fifo, s.dma, s.regs.dmaAddr, regs.dmaAddr, s.axi, s.mem, s.tr.src, pending);
    NotBusy(s.dma, regs.dmaAddr, s.pr.len, s.tr.bursts, s.tr.syncs);
  }

  lemma BusyChanged(s: Snap, regs: Regs, imageBytes: nat)
    requires Ok(s, imageBytes) && regs.dmaAddr == s.regs.dmaAddr
    ensures Ok(s.(regs := regs), imageBytes)
  {
    hide LinkPart, DmaPart, TilePart, LogPart, Core, DiskPart, HistoryPart;
  }

  lemma RegisteredOk(s: Snap, a: Action, imageBytes: nat)
    requires Ok(s, imageBytes) && a.Registers?
    ensures Ok(Next(s, a, imageBytes), imageBytes)
  {
    hide Ok;
    if RegistersAllowed(s, a.enable, a.clockChanged, a.addr) {
      var regs := Regs(a.enable, a.arg, a.opcode % 64, a.addr, a.size, a.count, s.regs.cardPresent);
      if BusyAt(s) {
        assert s.pr.(configPending := s.pr.configPending) == s.pr;
        BusyChanged(s, regs, imageBytes);
      } else {
        IdleChanged(s, regs, s.pr.configPending || a.enable != s.regs.enable || a.clockChanged, imageBytes);
      }
    }
  }

  // ----- card -----

  lemma StatusOk(s: Snap, imageBytes: nat)
    requires Ok(s, imageBytes)
    ensures Ok(StatusSent(s), imageBytes)
  {
    hide LinkPart, DmaPart, TilePart, LogPart, Core, DiskPart, HistoryPart;
    CoreAppend(s.dataQ, Status(s.card.present));
    CardStatus(s.pr, s.card, s.card.(statusPending := false), s.cmdQ, Core(s.dataQ), s.tr.src, s.image);
  }

  lemma ConfigOk(s: Snap, imageBytes: nat)
    requires Ok(s, imageBytes) && s.cmdQ != [] && s.cmdQ[0].Config?
    ensures s.card.st == CIdle && Ok(ConfigTaken(s), imageBytes)
  {
    hide LinkPart, DmaPart, TilePart, LogPart, Core, DiskPart, HistoryPart;
    CardTakesConfig(s.pr, s.card, s.cmdQ, Core(s.dataQ), s.tr.src, s.image);
    CardStatus(s.pr, s.card, ConfigTaken(s).card, s.cmdQ[1..], Core(s.dataQ), s.tr.src, s.image);
  }

  lemma CommandOk(s: Snap, words: seq<Word>, imageBytes: nat)
    requires Ok(s, imageBytes) && s.cmdQ != [] && s.cmdQ[0].Command?
    ensures s.card.st == CIdle && Ok(CommandTaken(s, words, imageBytes), imageBytes)
    ensures var card := CommandTaken(s, words, imageBytes).card;
            !card.error ==> |card.buf| == card.len && Serves(card)
                            && (card.regular && !card.write ==> InImage(s.image, card.imgOff, card.buf))
  {
    hide LinkPart, DmaPart, TilePart, LogPart, Core, DiskPart, HistoryPart, Source, Prepare;
    CommandStep(s.pr, s.card, s.cmdQ, Core(s.dataQ), s.tr.src, s.image, s.fifo, s.dma, s.regs.dmaAddr, s.axi, s.mem,
                imageBytes, Leftover(s.cmdQ[0], words));
    var s' := CommandTaken(s, words, imageBytes);
    DiskAlone(s.tr.base, s.log, s.card.imgOff, s.tr.src, s.image, s'.card.imgOff, s'.tr.src);
  }

  /** A data word finds the card ready for it, and the last one the image for the whole buffer. */
  lemma WordOk(s: Snap, imageBytes: nat)
    requires Ok(s, imageBytes) && s.cmdQ != [] && s.cmdQ[0].WriteData?
    ensures s.card.st == CRecvWriteData && s.card.off < s.card.len && WordFits(s)
    ensures s.cmdQ[0].last == (s.card.off + 1 == s.card.len)
    ensures Ok(WordTaken(s), imageBytes)
  {
    hide LinkPart, DmaPart, TilePart, LogPart, Core, DiskPart, HistoryPart, Stored;
    CardTakesWord(s.pr, s.card, s.cmdQ, Core(s.dataQ), s.tr.src, s.image);
    if s.cmdQ[0].last {
      DiskAhead(s.tr.base, s.log, s.card.imgOff, s.tr.src, s.image);
    }
  }

  lemma DiskAhead(base: seq<Word>, log: seq<Xfer>, imgOff: nat, src: seq<Word>, image: seq<Word>)
    requires DiskPart(base, log, false, imgOff, src, image) && imgOff + |src| <= |image|
    ensures DiskPart(base, log, true, imgOff, src, Stored(image, imgOff, src))
  {
    hide Stored;
  }

  lemma ResponseSentOk(s: Snap, imageBytes: nat)
    requires Ok(s, imageBytes) && s.card.st == CSendResponse
    ensures Ok(ResponseSent(s), imageBytes)
  {
    hide LinkPart, DmaPart, TilePart, LogPart, Core, DiskPart, HistoryPart;
    CoreAppend(s.dataQ, Response(s.card.error));
    CardAnswers(s.pr, s.card, s.cmdQ, Core(s.dataQ), s.tr.src, s.image);
  }

  lemma WordServedOk(s: Snap, imageBytes: nat)
    requires Ok(s, imageBytes) && s.card.st == CSendReadData
    ensures s.card.off < s.card.len == |s.card.buf| && Ok(WordSent(s), imageBytes)
  {
    hide LinkPart, DmaPart, TilePart, LogPart, Core, DiskPart, HistoryPart;
    CardSendsWord(s.pr, s.card, s.cmdQ, Core(s.dataQ), s.tr.src, s.image);
    CoreAppend(s.dataQ, ReadData(s.card.buf[s.card.off], s.card.off + 1 == s.card.len));
  }

  lemma AckSentOk(s: Snap, imageBytes: nat)
    requires Ok(s, imageBytes) && s.card.st == CSendWriteDone
    ensures Ok(AckSent(s), imageBytes)
  {
    hide LinkPart, DmaPart, TilePart, LogPart, Core, DiskPart, HistoryPart;
    CoreAppend(s.dataQ, WriteDone(s.card.error));
    CardAcknowledges(s.pr, s.card, s.cmdQ, Core(s.dataQ), s.tr.src, s.image);
  }

  lemma PacketTakenOk(s: Snap, words: seq<Word>, imageBytes: nat)
    requires Ok(s, imageBytes)
    ensures Ok(PacketTaken(s, words, imageBytes), imageBytes)
  {
    hide Ok, ConfigTaken, CommandTaken, WordTaken;
    if s.cmdQ != [] {
      match s.cmdQ[0]
      case Config(_) => ConfigOk(s, imageBytes);
      case Command(_, _, _, _, _, _, _) => CommandOk(s, words, imageBytes);
      case WriteData(_, _) => WordOk(s, imageBytes);
    }
  }

  /** Every clock of the card keeps everything. */
  lemma CardOk(s: Snap, full: bool, words: seq<Word>, imageBytes: nat)
    requires Ok(s, imageBytes)
    ensures Ok(CardNext(s, full, words, imageBytes), imageBytes)
  {
    hide Ok, StatusSent, PacketTaken, ResponseSent, WordSent, AckSent;
    if s.card.statusPending && !full {
      StatusOk(s, imageBytes);
    } else if s.card.st == CIdle || s.card.st == CRecvWriteData {
      PacketTakenOk(s, words, imageBytes);
    } else if !full {
      match s.card.st
      case CSendResponse => ResponseSentOk(s, imageBytes);
      case CSendReadData => WordServedOk(s, imageBytes);
      case CSendWriteDone => AckSentOk(s, imageBytes);
    }
  }

  lemma CardChanged(s: Snap, present: bool, readOnly: bool, idle: bool, app: bool, imageBytes: nat)
    requires Ok(s, imageBytes)
    ensures Ok(s.(card := s.card.(present := present, readOnly := readOnly, statusPending := true, idle := idle, appCmd := app)),
               imageBytes)
  {
    hide LinkPart, DmaPart, TilePart, LogPart, LastPart, Core, DiskPart, HistoryPart;
    var card := s.card.(present := present, readOnly := readOnly, statusPending := true, idle := idle, appCmd := app);
    CardStatus(s.pr, s.card, card, s.cmdQ, Core(s.dataQ), s.tr.src, s.image);
  }

  lemma InsertedOk(s: Snap, present: bool, readOnly: bool, imageBytes: nat)
    requires Ok(s, imageBytes)
    ensures Ok(Inserted(s, present, readOnly, imageBytes), imageBytes)
  {
    hide Ok;
    var now := present && imageBytes >= SECTOR_SIZE;
    CardChanged(s, now, now && readOnly, s.card.idle || !now, s.card.appCmd && now, imageBytes);
  }

  // ----- memory -----

  lemma MemStoredOk(s: Snap, imageBytes: nat)
    requires Ok(s, imageBytes)
    ensures |s.mem| == MEM_WORDS && Ok(MemStored(s), imageBytes)
    ensures s.axi.aw != [] && s.axi.w != [] ==>
              && s.axi.w[0].last == (s.axi.applied + 1 == s.axi.aw[0].beats)
              && s.pr.state == ReadStream && s.dma.off + s.axi.applied < s.pr.len == |s.tr.src|
              && MemStored(s).mem == s.mem[Buf(s.regs.dmaAddr, s.dma.off + s.axi.applied) := s.tr.src[s.dma.off + s.axi.applied]]
  {
    hide LinkPart, DmaPart, TilePart, LogPart, Core, DiskPart, HistoryPart, BeatStored, Buf;
    MemSize(s.pr, s.fifo, s.dma, s.regs.dmaAddr, s.axi, s.mem, s.tr.src);
    if s.axi.aw != [] && s.axi.w != [] {
      MemStores(s.pr, s.fifo, s.dma, s.regs.dmaAddr, s.axi, s.mem, s.tr.src);
      WhatIsStored(s.pr, s.fifo, s.dma, s.regs.dmaAddr, s.axi, s.mem, s.tr.src);
    }
  }

  lemma MemServedOk(s: Snap, imageBytes: nat)
    requires Ok(s, imageBytes)
    ensures |s.mem| == MEM_WORDS && Ok(MemServed(s), imageBytes)
  {
    hide LinkPart, DmaPart, TilePart, LogPart, Core, DiskPart, HistoryPart, BeatServed;
    MemSize(s.pr, s.fifo, s.dma, s.regs.dmaAddr, s.axi, s.mem, s.tr.src);
    if s.axi.ar != [] {
      MemServes(s.pr, s.fifo, s.dma, s.regs.dmaAddr, s.axi, s.mem, s.tr.src);
    }
  }

  lemma OtherStoredOk(s: Snap, at: nat, w: Word, imageBytes: nat)
    requires Ok(s, imageBytes)
    ensures |s.mem| == MEM_WORDS && Ok(OtherStored(s, at, w), imageBytes)
  {
    hide LinkPart, DmaPart, TilePart, LogPart, Core, DiskPart, HistoryPart;
    MemSize(s.pr, s.fifo, s.dma, s.regs.dmaAddr, s.axi, s.mem, s.tr.src);
    if OtherAllowed(s, at) {
      OtherStores(s.pr, s.fifo, s.dma, s.regs.dmaAddr, s.axi, s.mem, s.tr.src, at, w);
    }
  }

  /** Every step keeps everything, except a clock of the controller that takes a refusal which cuts
      off a burst; that one only sets the mark. */
  lemma NextOk(s: Snap, a: Action, imageBytes: nat)
    requires Ok(s, imageBytes)
    ensures var s' := Next(s, a, imageBytes);
            if a.Controller? && CutOff(s) then CutShort(s, s') else Ok(s', imageBytes)
  {
    if a.Registers? {
      RegisteredOk(s, a, imageBytes);
    } else {
      hide Ok, ControllerNext, CardNext, MemStored, MemServed, Inserted, Started, OtherStored;
      match a
      case Controller(stall, present) => ControllerOk(s, stall, present, imageBytes);
      case CardStep(full, words) => CardOk(s, full, words, imageBytes);
      case Store => MemStoredOk(s, imageBytes);
      case Serve => MemServedOk(s, imageBytes);
      case Insert(present, readOnly) => InsertedOk(s, present, readOnly, imageBytes);
      case Start(opcode, hasData, write) => StartedOk(s, opcode, hasData, write, imageBytes);
      case Other(at, w) => OtherStoredOk(s, at, w, imageBytes);
    }
  }

  // ----- what a step means -----

  /** What a clock of the controller leaves alone. */
  predicate LeftAlone(s: Snap, s': Snap)
  {
    && s'.mem == s.mem && s'.image == s.image && s'.card == s.card && s'.regs.dmaAddr == s.regs.dmaAddr
    && s'.tr.base == s.tr.base
  }

  /** Nothing happens to the command. */
  predicate Goes(s: Snap, s': Snap) { LeftAlone(s, s') && s'.log == s.log && s'.pr == s.pr && s'.outcome == s.outcome }

  /** The command ends without error and is logged. */
  ghost predicate EndsLogged(s: Snap, s': Snap)
  {
    LeftAlone(s, s') && s'.log == s.log + [Entry(s)] && s'.pr == Finished(s.pr) && s'.outcome == Done
  }

  lemma SyncRMeans(s: Snap)
    ensures Goes(s, SyncRNext(s)) || EndsLogged(s, SyncRNext(s))
  {
    hide Record, Beats;
  }

  lemma SendMeans(s: Snap, stall: Stall)
    requires s.dma.st != SyncR && s.dma.st != ToMemB && s.dma.st != FromMemR
    ensures Goes(s, DmaNext(s, stall))
  {
    hide SyncRNext, BNext, RNext;
  }

  lemma TakeMeans(s: Snap, stall: Stall)
    requires s.dma.st == ToMemB || s.dma.st == FromMemR
    ensures Goes(s, DmaNext(s, stall))
  {
    hide SyncRNext, Beats;
  }

  lemma DmaMeans(s: Snap, stall: Stall)
    ensures var s' := DmaNext(s, stall); Goes(s, s') || EndsLogged(s, s')
    ensures s.dma.st == DIdle ==> DmaNext(s, stall) == s
  {
    hide Goes, EndsLogged, SyncRNext;
    if s.dma.st == SyncR {
      SyncRMeans(s);
    } else if s.dma.st == ToMemB || s.dma.st == FromMemR {
      TakeMeans(s, stall);
    } else {
      SendMeans(s, stall);
    }
  }

  lemma RestMeans(s: Snap, full: bool)
    ensures var s' := Sent(ScheduleNext(PrefetchNext(s)), full);
            LeftAlone(s, s') && s'.log == s.log && s'.outcome == s.outcome && (s'.pr.state == Idle <==> s.pr.state == Idle)
  {
    hide Beats, PrefetchDone;
  }

  /** A packet that does not end a write: the command goes on, or ends without a log entry. */
  lemma TakesMeans(s: Snap, present: bool)
    requires !NothingToTake(s) && !s.dataQ[0].WriteDone?
    ensures var t := Received(s, present);
            && LeftAlone(s, t) && t.log == s.log && t.pr.cmd == s.pr.cmd && t.pr.len == s.pr.len
            && (if s.dataQ[0].Response? && (s.dataQ[0].error || s.pr.len == 0) then
                  t.pr.state == Idle && (s.dataQ[0].error ==> t.outcome == Failed)
                else t.outcome == s.outcome && (s.dataQ[0].Response? || t.pr.state == s.pr.state))
            && (s.dataQ[0].Response? && !s.dataQ[0].error && s.pr.len > 0 ==> t.pr == Streaming(s.pr))
  {
    hide WriteAcked;
    match s.dataQ[0]
    case Status(_) =>
    case Response(_) =>
    case ReadData(_, _) =>
  }

  lemma AckMeans(s: Snap, present: bool)
    requires s.dataQ != [] && s.dataQ[0] == WriteDone(false)
    ensures EndsLogged(s, Received(s, present))
  {
    hide Record;
  }

  lemma WordsAgree(mem: seq<Word>, addr: nat, image: seq<Word>, imgOff: nat, len: nat)
    requires |mem| == MEM_WORDS && imgOff + len <= |image|
    requires BufferWords(mem, addr, len) == image[imgOff..imgOff + len]
    ensures SameWords(mem, addr, image, imgOff, len)
  {
    forall j: nat | j < len
      ensures mem[Buf(addr, j)] == image[imgOff + j]
    {
      assert BufferWords(mem, addr, len)[j] == image[imgOff..imgOff + len][j];
    }
  }

  lemma RecordAgrees(t: Xfer, pr: Proto, card: Card, addr: nat, mem: seq<Word>, image: seq<Word>)
    requires |mem| == MEM_WORDS && XferOk(t) && t == Record(pr, card, addr, mem, image, t.bursts, t.syncs)
    ensures t.buffer == BufferWords(mem, addr, pr.len)
    ensures OnImage(t) ==> SameWords(mem, addr, image, pr.cmd.arg * SECTOR_WORDS, pr.len)
  {
    hide Tiles, AllBurstsOk, BufferWords, SameWords;
    if OnImage(t) {
      WordsAgree(mem, addr, image, t.imgOff, pr.len);
    }
  }

  /** The entry that was just made. */
  lemma EntryIs(s: Snap, t: Snap, s': Snap)
    requires LeftAlone(s, t) && LeftAlone(t, s') && t.pr.cmd == s.pr.cmd && t.pr.len == s.pr.len
    requires |s.mem| == MEM_WORDS && XferOk(Entry(t))
    ensures EntryMeans(s, s', Entry(t))
  {
    hide XferOk, BufferWords, SameWords;
    RecordAgrees(Entry(t), s.pr, s'.card, s'.regs.dmaAddr, s'.mem, s'.image);
  }

  lemma OkFacts(s: Snap, imageBytes: nat)
    requires Ok(s, imageBytes)
    ensures |s.mem| == MEM_WORDS && LogPart(s.log) && (s.outcome == Done ==> s.pr.state == Idle)
    ensures s.pr.state == Idle || s.pr.len == 0 ==> s.dma.st == DIdle
    ensures s.pr.state == Idle && s.dataQ != [] ==> s.dataQ[0].Status?
    ensures s.dataQ != [] && s.dataQ[0].Response? ==> s.pr.state == WaitRsp
    ensures s.dataQ != [] && s.dataQ[0].WriteDone? ==> !s.dataQ[0].error && s.pr.state != Idle && s.pr.len > 0
  {
    hide TilePart, LogPart, DiskPart, HistoryPart, LinkPart, Core;
    MemSize(s.pr, s.fifo, s.dma, s.regs.dmaAddr, s.axi, s.mem, s.tr.src);
    if s.dataQ != [] {
      CoreHead(s.dataQ);
      HeadFacts(s.pr, s.card, s.cmdQ, Core(s.dataQ), s.tr.src, s.image);
    }
  }

  lemma HeadFacts(pr: Proto, card: Card, q: seq<CmdPkt>, d: seq<DataPkt>, src: seq<Word>, image: seq<Word>)
    requires LinkPart(pr, card, q, d, src, image)
    ensures pr.state == Idle ==> d == []
    ensures d != [] && d[0].Response? ==> pr.state == WaitRsp
    ensures d != [] && d[0].WriteDone? ==> !d[0].error && pr.state != Idle && pr.len > 0
  {
  }

  /** A data command ends and is logged, and the rest of the clock leaves that alone. */
  lemma EndLogs(s: Snap, t: Snap, d: Snap, s': Snap)
    requires LeftAlone(s, t) && t.log == s.log && t.pr.cmd == s.pr.cmd && t.pr.len == s.pr.len
    requires EndsLogged(t, d) && LeftAlone(d, s') && s'.log == d.log && s'.outcome == d.outcome && s'.pr.state == Idle
    requires s.pr.state != Idle && s.pr.len > 0 && |s.mem| == MEM_WORDS && LogPart(d.log)
    ensures LogStep(s, s') && LeftAlone(s, s')
  {
    hide LogPart, EntryMeans, Entry, XferOk;
    LastOk(t.log, Entry(t));
    EntryIs(s, t, s');
  }

  /** One clock of the controller after the data link: it logs what the DMA side completes. */
  lemma AdvancedMeans(s: Snap, t: Snap, stall: Stall, imageBytes: nat)
    requires Ok(t, imageBytes) && t.log == s.log && LeftAlone(s, t) && t.pr.cmd == s.pr.cmd && t.pr.len == s.pr.len
    requires s.pr.state != Idle && t.pr.state != Idle
    ensures LogStep(s, Advanced(t, stall)) && LeftAlone(s, Advanced(t, stall))
  {
    OkFacts(t, imageBytes);
    DmaOk(t, stall, imageBytes);
    var d := DmaNext(t, stall);
    OkFacts(d, imageBytes);
    hide Ok, DmaNext, LogPart, Sent, ScheduleNext, PrefetchNext, EntryMeans, Entry, XferOk;
    DmaMeans(t, stall);
    RestMeans(d, stall.cmd);
    if EndsLogged(t, d) && s.pr.len > 0 {
      hide LogStep;
      EndLogs(s, t, d, Advanced(t, stall));
    }
  }

  lemma LastOk(log: seq<Xfer>, t: Xfer)
    requires LogPart(log + [t])
    ensures XferOk(t)
  {
    hide XferOk;
    assert (log + [t])[|log|] == t;
  }

  lemma IdleMeans(t: Snap, stall: Stall, imageBytes: nat)
    requires Ok(t, imageBytes) && t.pr.state == Idle
    ensures var s' := Advanced(t, stall);
            LeftAlone(t, s') && s'.log == t.log && s'.outcome == t.outcome && s'.pr.state == Idle
  {
    OkFacts(t, imageBytes);
    hide Ok, DmaNext, Sent, ScheduleNext, PrefetchNext;
    DmaMeans(t, stall);
    RestMeans(t, stall.cmd);
  }

  lemma EndsIdle(s: Snap, s': Snap)
    requires EndsLogged(s, s')
    ensures s'.pr.state == Idle
  {
    hide Entry;
  }

  /** The acknowledgement of a write. */
  lemma WriteEnds(s: Snap, stall: Stall, present: bool, imageBytes: nat)
    requires Ok(s, imageBytes) && s.dataQ != [] && s.dataQ[0].WriteDone?
    ensures var s' := ControllerNext(s, stall, present); LogStep(s, s') && LeftAlone(s, s')
  {
    OkFacts(s, imageBytes);
    ReceivedOk(s, present, imageBytes);
    var t := Received(s, present);
    OkFacts(t, imageBytes);
    AckMeans(s, present);
    CutIff(s, present, imageBytes);
    hide Ok, Received, Advanced, LogPart, Entry, LogStep, EndsLogged;
    EndsIdle(s, t);
    IdleMeans(t, stall, imageBytes);
    EndLogs(s, s, t, ControllerNext(s, stall, present));
  }

  /** A clock in which no data command ends without error. */
  lemma CommandOver(s: Snap, t: Snap, stall: Stall, imageBytes: nat)
    requires Advanced(t, stall) == t || Ok(t, imageBytes)
    requires LeftAlone(s, t) && t.log == s.log && t.pr.state == Idle
    requires s.pr.state == Idle || s.pr.len == 0 || t.outcome != Done
    ensures LogStep(s, Advanced(t, stall)) && LeftAlone(s, Advanced(t, stall))
  {
    if Advanced(t, stall) != t {
      IdleMeans(t, stall, imageBytes);
    }
  }

  /** A clock of the controller logs exactly the data command it completes. */
  lemma ControllerMeans(s: Snap, stall: Stall, present: bool, imageBytes: nat)
    requires Ok(s, imageBytes)
    ensures var s' := ControllerNext(s, stall, present); LogStep(s, s') && LeftAlone(s, s')
  {
    var t := Received(s, present);
    ReceivedOk(s, present, imageBytes);
    OkFacts(s, imageBytes);
    if !NothingToTake(s) && s.dataQ[0].WriteDone? {
      WriteEnds(s, stall, present, imageBytes);
    } else {
      if !NothingToTake(s) {
        TakesMeans(s, present);
      }
      if CutOff(s) {
        Nothing(t, stall);
      }
      hide Received, Advanced, Ok, LogStep, LogPart;
      if t.pr.state == Idle {
        CommandOver(s, t, stall, imageBytes);
      } else {
        AdvancedMeans(s, t, stall, imageBytes);
      }
    }
  }

  /** The words of a card write are those of its buffer. */
  lemma SourceIsBuffer(pr: Proto, fifo: seq<Word>, dma: Dma, addr: nat, x: Axi, mem: seq<Word>, src: seq<Word>)
    requires DmaPart(pr, fifo, dma, addr, x, mem, src) && pr.dataWrite && pr.len > 0 && pr.state != Idle
    ensures |mem| == MEM_WORDS && BufferWords(mem, addr, pr.len) == src
  {
    hide Fetching, BurstOk, InMemory, BufferWords;
    BufferIs(mem, addr, src);
  }

  /** The last word of a write puts the buffer at DMA_ADDR on the image. */
  lemma LastWordMeans(s: Snap, a: Action, imageBytes: nat)
    requires Ok(s, imageBytes) && LastWord(s, a)
    ensures ImageStep(s, a, WordTaken(s))
  {
    hide LinkPart, DmaPart, TilePart, LogPart, Core, DiskPart, HistoryPart, Stored, BufferWords;
    CardTakesWord(s.pr, s.card, s.cmdQ, Core(s.dataQ), s.tr.src, s.image);
    SourceIsBuffer(s.pr, s.fifo, s.dma, s.regs.dmaAddr, s.axi, s.mem, s.tr.src);
  }

  /** What a clock of the card leaves alone. */
  predicate OnlyCard(s: Snap, s': Snap)
  {
    s' == s.(card := s'.card, image := s'.image, cmdQ := s'.cmdQ, dataQ := s'.dataQ, errs := s'.errs,
             tr := s.tr.(src := s'.tr.src))
  }

  lemma PacketLeaves(s: Snap, words: seq<Word>, imageBytes: nat)
    ensures OnlyCard(s, PacketTaken(s, words, imageBytes))
    ensures !(s.cmdQ != [] && s.cmdQ[0].WriteData? && s.cmdQ[0].last) ==> PacketTaken(s, words, imageBytes).image == s.image
  {
    hide Prepare, Stored, Source;
    if s.cmdQ != [] {
      match s.cmdQ[0]
      case Config(_) =>
      case Command(_, _, _, _, _, _, _) =>
      case WriteData(_, _) =>
    }
  }

  lemma CardLeaves(s: Snap, full: bool, words: seq<Word>, imageBytes: nat)
    ensures OnlyCard(s, CardNext(s, full, words, imageBytes))
    ensures !LastWord(s, CardStep(full, words)) && s.card.st == CRecvWriteData ==>
              CardNext(s, full, words, imageBytes).image == s.image
    ensures s.card.st != CIdle && s.card.st != CRecvWriteData ==> CardNext(s, full, words, imageBytes).image == s.image
  {
    hide PacketTaken;
    PacketLeaves(s, words, imageBytes);
  }

  lemma CardMeans(s: Snap, a: Action, imageBytes: nat)
    requires Ok(s, imageBytes) && a.CardStep?
    ensures StepMeans(s, a, Next(s, a, imageBytes))
  {
    CardLeaves(s, a.full, a.words, imageBytes);
    if LastWord(s, a) {
      LastWordMeans(s, a, imageBytes);
    } else if s.card.st == CIdle && s.cmdQ != [] && s.cmdQ[0].WriteData? {
      WordOk(s, imageBytes);
      assert false;
    }
    hide Ok, Prepare, Stored, Source, WordTaken, OnImage, EntryMeans;
  }

  lemma ClockMeans(s: Snap, a: Action, imageBytes: nat)
    requires Ok(s, imageBytes) && a.Controller?
    ensures StepMeans(s, a, Next(s, a, imageBytes))
  {
    hide Ok, ControllerNext, EntryMeans, LogStep;
    ControllerMeans(s, a.stall, a.present, imageBytes);
  }

  lemma StoreMeans(s: Snap, imageBytes: nat)
    requires Ok(s, imageBytes)
    ensures StepMeans(s, Store, Next(s, Store, imageBytes))
  {
    hide Ok, BeatStored, EntryMeans, Buf;
    MemStoredOk(s, imageBytes);
  }

  lemma SoftwareMeans(s: Snap, a: Action, imageBytes: nat)
    requires !a.Controller? && !a.CardStep? && !a.Store?
    ensures StepMeans(s, a, Next(s, a, imageBytes))
  {
    hide ControllerNext, CardNext, MemStored, BeatServed, EntryMeans, BadRequest, BufferWords;
    match a
    case Serve =>
    case Insert(_, _) =>
    case Start(_, _, _) =>
    case Registers(_, _, _, _, _, _, _) =>
    case Other(_, _) =>
  }

  /** Every step logs exactly the data command it completes, with buffer and image as they are,
      changes the image only by a finished block write, and memory only inside the buffer. */
  lemma NextMeans(s: Snap, a: Action, imageBytes: nat)
    requires Ok(s, imageBytes)
    ensures StepMeans(s, a, Next(s, a, imageBytes))
  {
    hide Ok, StepMeans, Next;
    if a.Controller? {
      ClockMeans(s, a, imageBytes);
    } else if a.CardStep? {
      CardMeans(s, a, imageBytes);
    } else if a.Store? {
      StoreMeans(s, imageBytes);
    } else {
      SoftwareMeans(s, a, imageBytes);
    }
  }

  /** An idle controller has left on the card exactly the writes it has logged. */
  lemma IdleDisk(s: Snap, imageBytes: nat)
    requires Ok(s, imageBytes) && s.pr.state != WaitWriteDone
    ensures s.image == Disk(s.tr.base, s.log)
  {
    hide LinkPart, DmaPart, TilePart, LogPart, HistoryPart, Core, Disk;
  }

  /** What is left of a state when a run has ended: no error met, and a sound log. */
  ghost predicate Sound(errs: Errors, base: seq<Word>, log: seq<Xfer>)
  {
    errs.protocol == 0 && errs.packets == 0 && errs.dma == 0 && LogPart(log) && HistoryPart(base, log)
  }

  lemma StepSound(s: Snap, a: Action, imageBytes: nat)
    requires Ok(s, imageBytes)
    ensures var s' := Next(s, a, imageBytes);
            && Sound(s'.errs, s'.tr.base, s'.log) && s'.tr.base == s.tr.base && Took(s, a, s', imageBytes)
            && (s'.errs.cut <==> Cuts(s, a))
  {
    NextOk(s, a, imageBytes);
    NextMeans(s, a, imageBytes);
    hide LinkPart, DmaPart, TilePart, LogPart, DiskPart, HistoryPart, Core, Next, LogStep, ImageStep, MemoryStep;
  }

  // ----- runs -----

  /** The step takes a refusal that cuts off a burst. */
  predicate Cuts(s: Snap, a: Action) { a.Controller? && CutOff(s) }

  /** The states of a run: every step is taken in a sound state, and only the last one may be cut off. */
  ghost predicate IsRun(schedule: seq<Action>, trail: seq<Snap>, imageBytes: nat)
  {
    && 0 < |trail| <= |schedule| + 1
    && (forall i | 0 <= i < |trail| - 1 :: Took(trail[i], schedule[i], trail[i + 1], imageBytes))
    && (forall i | 0 <= i < |trail| - 2 :: !Cuts(trail[i], schedule[i]))
  }

  /** The last step of the run was cut off. */
  predicate RunCut(schedule: seq<Action>, trail: seq<Snap>)
    requires 0 < |trail| <= |schedule| + 1
  {
    |trail| > 1 && Cuts(trail[|trail| - 2], schedule[|trail| - 2])
  }

  lemma RunGrows(schedule: seq<Action>, trail: seq<Snap>, s': Snap, imageBytes: nat)
    requires IsRun(schedule, trail, imageBytes) && |trail| <= |schedule| && !RunCut(schedule, trail)
    requires Took(trail[|trail| - 1], schedule[|trail| - 1], s', imageBytes)
    ensures IsRun(schedule, trail + [s'], imageBytes)
    ensures RunCut(schedule, trail + [s']) <==> Cuts(trail[|trail| - 1], schedule[|trail| - 1])
  {
    hide Took, Cuts;
  }

  lemma OkSound(s: Snap, imageBytes: nat)
    requires Ok(s, imageBytes)
    ensures Sound(s.errs, s.tr.base, s.log) && !s.errs.cut
  {
    hide LinkPart, DmaPart, TilePart, LogPart, DiskPart, HistoryPart, Core;
  }

  lemma NoErrors(s: Snap, imageBytes: nat)
    requires Ok(s, imageBytes)
    ensures s.errs == NONE
  {
    hide LinkPart, DmaPart, TilePart, LogPart, DiskPart, HistoryPart, Core;
  }

  lemma MemoryWhole(s: Snap, imageBytes: nat)
    requires Ok(s, imageBytes)
    ensures |s.mem| == MEM_WORDS
  {
    hide LinkPart, TilePart, LogPart, DiskPart, HistoryPart, Core;
  }

  /** The read-back completes the card read exactly with its last beat, and then the input is done. */
  ghost predicate SyncStep(s: Snap, s': Snap)
  {
    && s'.errs == s.errs
    && if s.axi.r != [] && s.dma.beat + 1 == s.dma.burst && s.dma.sync + s.dma.burst == s.pr.len
       then s.pr.len > 0 && s.pr.inputDone && EndsLogged(s, s') else s'.pr.state != Idle && Goes(s, s')
  }

  lemma SyncFacts(s: Snap, imageBytes: nat)
    requires Ok(s, imageBytes) && s.dma.st == SyncR
    ensures SyncStep(s, SyncRNext(s))
  {
    hide LinkPart, DmaPart, TilePart, LogPart, DiskPart, HistoryPart, Core, BurstOk, Beats, Record;
    ReadBounds(s.pr, s.fifo, s.dma, s.regs.dmaAddr, s.axi, s.mem, s.tr.src);
    ReadComplete(s.pr, s.card, s.cmdQ, Core(s.dataQ), s.tr.src, s.image);
  }
}
