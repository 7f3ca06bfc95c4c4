/** The SD-SPI controller with its DMA engine, the card it talks to, and the memory behind the
    DMA port.  Full interfaces, memory latency and the moments at which the parts act are inputs
    of a run, so every contract holds for every back-pressure schedule. */
module Sdspi {
  import opened Words
  import opened SdspiTypes
  import opened SdspiInvariant
  import opened SdspiSteps
  import opened SdspiLink
  import opened SdspiMachine
  import opened SdspiKeeps
  import opened SdspiStale

  class SdspiSystem {
    // controller
    var regs: Regs
    var pr: Proto
    var dma: Dma
    /** Contents of the 64-word stream FIFO, oldest first. */
    var fifo: seq<Word>
    var outcome: Outcome
    /** What should never happen, counted; and whether a refusal has cut off a burst. */
    var errs: Errors

    // links
    var cmdQ: seq<CmdPkt>
    var dataQ: seq<DataPkt>

    // card
    var card: Card
    var image: seq<Word>
    const imageBytes: nat

    // DMA port and memory
    var axi: Axi
    var mem: seq<Word>

    ghost var tr: Trace
    /** The finished transfers. */
    ghost var log: seq<Xfer>

    ghost function Now(): Snap
      reads this
    {
      Snap(regs, pr, dma, fifo, outcome, errs, cmdQ, dataQ, card, image, axi, mem, tr, log)
    }

    ghost predicate Valid()
      reads this
    {
      Ok(Now(), imageBytes)
    }

    method Finish(ok: bool)
      modifies `pr, `dma, `fifo, `outcome
      ensures Now() == Ended(old(Now()), ok)
    {
      pr := pr.(state := Idle);
      dma := dma.(st := DIdle);
      fifo := [];
      outcome := if ok then Done else Failed;
    }

    // ----- protocol: packets from the card -----

    /** `present` is the card presence reported by a packet that is not a status. */
    method RecvData(present: bool)
      requires Valid()
      modifies `regs, `pr, `dma, `fifo, `outcome, `dataQ, `errs, `log
      ensures Now() == Received(old(Now()), present)
      ensures if CutOff(old(Now())) then CutShort(old(Now()), Now()) else Valid()
    {
      ReceivedOk(Now(), present, imageBytes);
      hide Ok, CutShort, Responded, WordReceived, WriteAcked;
      if dataQ == [] {
        return;
      }
      var pkt := dataQ[0];
      if pkt.ReadData? && |fifo| >= FIFO_WORDS {
        return;
      }
      match pkt
      case Status(_) => RecvStatus();
      case Response(_) => RecvResponse(present);
      case ReadData(_, _) => RecvReadData(present);
      case WriteDone(_) => RecvWriteDone(present);
    }

    method RecvStatus()
      requires Valid() && dataQ != [] && dataQ[0].Status?
      modifies `regs, `dataQ
      ensures Now() == Popped(old(Now()), old(dataQ)[0].present)
    {
      hide Ok;
      regs := regs.(cardPresent := dataQ[0].present);
      dataQ := dataQ[1..];
    }

    /** The answer to the command: the data phase starts, or the command is over.  Only a refusal
        makes the command fail. */
    method RecvResponse(present: bool)
      requires Valid() && dataQ != [] && dataQ[0].Response?
      modifies `regs, `pr, `dma, `fifo, `outcome, `dataQ, `errs
      ensures Now() == Responded(old(Now()), present)
      ensures if CutOff(old(Now())) then CutShort(old(Now()), Now()) else Valid()
      ensures old(pr).state == WaitRsp
      ensures !old(dataQ)[0].error && pr.len > 0 ==> pr == Streaming(old(pr)) && outcome == old(outcome) && fifo == old(fifo)
      ensures !old(dataQ)[0].error && pr.len == 0 ==> pr == Finished(old(pr)) && outcome == Done
      ensures old(dataQ)[0].error ==> pr == Finished(old(pr)) && outcome == Failed
    {
      hide Ok, CutShort;
      RespondedOk(Now(), present, imageBytes);
      var error := dataQ[0].error;
      regs := regs.(cardPresent := present);
      dataQ := dataQ[1..];
      errs := BadPacket(errs, pr.state != WaitRsp);
      if error {
        Finish(false);
        errs := errs.(cut := errs.cut || axi != QUIET);
      } else if pr.len == 0 {
        Finish(true);
      } else {
        pr := Streaming(pr);
      }
    }

    /** A word of a card read enters the FIFO. */
    method RecvReadData(present: bool)
      requires Valid() && dataQ != [] && dataQ[0].ReadData? && |fifo| < FIFO_WORDS
      modifies `regs, `pr, `fifo, `dataQ, `errs
      ensures Valid() && Now() == WordReceived(old(Now()), present) && errs == old(errs)
      ensures old(pr).state == ReadStream && pr.off == old(pr).off + 1 <= pr.len
      ensures pr == old(pr).(off := pr.off, inputDone := pr.off == pr.len)
      ensures fifo == old(fifo) + [old(dataQ)[0].data]
    {
      hide Ok;
      WordReceivedOk(Now(), present, imageBytes);
      var pkt := dataQ[0];
      regs := regs.(cardPresent := present);
      dataQ := dataQ[1..];
      errs := BadPacket(errs, pr.state != ReadStream || pr.off + 1 > pr.len || pkt.last != (pr.off + 1 == pr.len));
      fifo := fifo + [pkt.data];
      pr := pr.(off := pr.off + 1, inputDone := pkt.last);
    }

    /** The acknowledgement of a card write: the command is over, and the image holds the buffer. */
    method RecvWriteDone(present: bool)
      requires Valid() && dataQ != [] && dataQ[0].WriteDone?
      modifies `regs, `pr, `dma, `fifo, `outcome, `dataQ, `errs, `log
      ensures Valid() && Now() == WriteAcked(old(Now()), present) && errs == old(errs)
      ensures old(pr).state == WaitWriteDone && pr == Finished(old(pr)) && pr.len > 0 && pr.dataWrite && outcome == Done
      ensures log == old(log) + [Record(old(pr), card, regs.dmaAddr, mem, image, tr.bursts, tr.syncs)]
    {
      hide Ok, Record;
      WriteAckedOk(Now(), present, imageBytes);
      var error := dataQ[0].error;
      regs := regs.(cardPresent := present);
      dataQ := dataQ[1..];
      errs := BadPacket(errs, pr.state != WaitWriteDone || pr.off != pr.len || dma.off != pr.len || dma.st != DIdle || fifo != []);
      if !error {
        log := log + [Entry(Now())];
      }
      Finish(!error);
    }

    // ----- DMA -----

    method DmaProc(stall: Stall)
      requires Valid()
      modifies `pr, `dma, `fifo, `outcome, `axi, `tr, `errs, `log
      ensures Valid() && Now() == DmaNext(old(Now()), stall)
    {
      hide Ok, AwNext, WNext, BNext, SyncArNext, SyncRNext, ArNext, RNext, Record;
      match dma.st
      case DIdle =>
      case ToMemAw => SendAw(stall.aw);
      case ToMemW => SendW(stall.w);
      case ToMemB => RecvB();
      case SyncAr => SendSyncAr(stall.ar);
      case SyncR => RecvSyncR();
      case FromMemAr => SendAr(stall.ar);
      case FromMemR => RecvR();
    }

    method SendAw(full: bool)
      requires Valid() && dma.st == ToMemAw
      modifies `dma, `axi
      ensures Valid() && Now() == AwNext(old(Now()), full)
    {
      hide Ok;
      AwOk(Now(), full, imageBytes);
      if full {
        return;
      }
      axi := axi.(aw := axi.aw + [Req(Buf(regs.dmaAddr, dma.off), dma.burst)]);
      dma := dma.(st := ToMemW);
    }

    method SendW(full: bool)
      requires Valid() && dma.st == ToMemW
      modifies `dma, `axi, `fifo
      ensures Valid() && Now() == WNext(old(Now()), full)
    {
      hide Ok;
      WOk(Now(), full, imageBytes);
      if fifo == [] || full {
        return;
      }
      var last := dma.beat + 1 == dma.burst;
      axi := axi.(w := axi.w + [Beat(fifo[0], last)]);
      fifo := fifo[1..];
      dma := dma.(beat := dma.beat + 1, st := if last then ToMemB else ToMemW);
    }

    /** A data burst is stored; after the last one the buffer is read back from the start. */
    method RecvB()
      requires Valid() && dma.st == ToMemB
      modifies `dma, `axi, `tr
      ensures Valid() && Now() == BNext(old(Now()))
      ensures old(axi).b > 0 ==>
                && dma.off == old(dma).off + old(dma).burst <= pr.len
                && (if dma.off == pr.len then dma.st == SyncAr && dma.sync == 0 else dma.st == DIdle)
    {
      hide Ok, Beats;
      BOk(Now(), imageBytes);
      if axi.b == 0 {
        return;
      }
      axi := axi.(b := axi.b - 1);
      dma := dma.(off := dma.off + dma.burst);
      if dma.off == pr.len {
        dma := dma.(sync := 0);
        BeginSync();
      } else {
        dma := dma.(st := DIdle);
      }
    }

    /** Starts the read-back burst at the offset reached. */
    method BeginSync()
      modifies `dma, `tr
      ensures Now() == SyncBegun(old(Now()), old(dma))
    {
      dma := dma.(st := SyncAr, burst := Beats(regs.dmaAddr, pr.len, dma.sync, MAX_BURST_BEATS), beat := 0);
      tr := tr.(syncs := tr.syncs + [(dma.sync, dma.burst)]);
    }

    method SendSyncAr(full: bool)
      requires Valid() && dma.st == SyncAr
      modifies `dma, `axi
      ensures Valid() && Now() == SyncArNext(old(Now()), full)
    {
      hide Ok;
      SyncArOk(Now(), full, imageBytes);
      if full {
        return;
      }
      axi := axi.(ar := axi.ar + [Req(Buf(regs.dmaAddr, dma.sync), dma.burst)]);
      dma := dma.(st := SyncR);
    }

    /** A read-back beat; the last one of the buffer completes the card read. */
    method RecvSyncR()
      requires Valid() && dma.st == SyncR
      modifies `pr, `dma, `fifo, `outcome, `axi, `tr, `errs, `log
      ensures Valid() && Now() == SyncRNext(old(Now())) && SyncStep(old(Now()), Now())
    {
      hide Ok, SyncBurstRead, SyncStep;
      SyncROk(Now(), imageBytes);
      SyncFacts(Now(), imageBytes);
      if axi.r == [] {
        return;
      }
      var r := axi.r[0];
      axi := axi.(r := axi.r[1..]);
      errs := BadBeat(errs, r.last != (dma.beat + 1 == dma.burst));
      dma := dma.(beat := dma.beat + 1);
      if r.last {
        EndSync();
      }
    }

    /** A read-back burst is over: the next one, or the end of the card read. */
    method EndSync()
      modifies `pr, `dma, `fifo, `outcome, `tr, `errs, `log
      ensures Now() == SyncBurstRead(old(Now()))
    {
      hide Record, Beats;
      dma := dma.(sync := dma.sync + dma.burst);
      if dma.sync == pr.len {
        errs := BadPacket(errs, !pr.inputDone);
        log := log + [Entry(Now())];
        Finish(true);
      } else {
        BeginSync();
      }
    }

    method SendAr(full: bool)
      requires Valid() && dma.st == FromMemAr
      modifies `dma, `axi
      ensures Valid() && Now() == ArNext(old(Now()), full)
    {
      hide Ok;
      ArOk(Now(), full, imageBytes);
      if full {
        return;
      }
      axi := axi.(ar := axi.ar + [Req(Buf(regs.dmaAddr, dma.off), dma.burst)]);
      dma := dma.(st := FromMemR);
    }

    /** A fetched word enters the FIFO; the FIFO-full stall is never taken. */
    method RecvR()
      requires Valid() && dma.st == FromMemR
      modifies `dma, `axi, `fifo, `errs
      ensures Valid() && Now() == RNext(old(Now())) && errs == old(errs)
      ensures old(axi).r != [] ==>
                && |old(fifo)| < FIFO_WORDS && fifo == old(fifo) + [old(axi).r[0].data]
                && (if dma.beat == dma.burst then dma.st == DIdle && dma.off == old(dma).off + dma.burst
                    else dma.st == FromMemR && dma.off == old(dma).off)
    {
      hide Ok;
      ROk(Now(), imageBytes);
      if axi.r == [] || |fifo| >= FIFO_WORDS {
        return;
      }
      var r := axi.r[0];
      axi := axi.(r := axi.r[1..]);
      errs := BadBeat(errs, r.last != (dma.beat + 1 == dma.burst));
      fifo := fifo + [r.data];
      dma := dma.(beat := dma.beat + 1);
      if r.last {
        dma := dma.(off := dma.off + dma.burst, st := DIdle);
      }
    }

    /** The command is sent once enough words have been prefetched. */
    method UpdatePrefetch()
      requires Valid()
      modifies `pr
      ensures Valid() && Now() == PrefetchNext(old(Now()))
    {
      hide Ok;
      PrefetchOk(Now(), imageBytes);
      if pr.state != WritePrefetch {
        return;
      }
      var target := if pr.len > PREFETCH_WORDS then PREFETCH_WORDS else pr.len;
      if |fifo| >= target || (dma.off == pr.len && dma.st == DIdle) {
        pr := pr.(state := SendCmd);
      }
    }

    /** Starts the next data burst: for a card write no longer than the room left in the FIFO. */
    method DmaSchedule()
      requires Valid()
      modifies `dma, `tr
      ensures Valid() && Now() == ScheduleNext(old(Now()))
    {
      ScheduleOk(Now(), imageBytes);
      hide Ok, BurstBegun;
      if dma.st != DIdle || dma.off == pr.len {
        return;
      }
      var write := pr.state == WritePrefetch || pr.state == WriteStream;
      var maxBeats := MAX_BURST_BEATS;
      if write {
        if |fifo| >= FIFO_WORDS {
          return;
        }
        var free := FIFO_WORDS - |fifo|;
        if free < maxBeats {
          maxBeats := free;
        }
      } else if pr.state != ReadStream || fifo == [] {
        return;
      }
      BeginBurst(!write, maxBeats);
    }

    method BeginBurst(toMem: bool, maxBeats: nat)
      modifies `dma, `tr
      ensures Now() == BurstBegun(old(Now()), toMem, maxBeats)
    {
      var burst := Beats(regs.dmaAddr, pr.len, dma.off, maxBeats);
      tr := tr.(bursts := tr.bursts + [(dma.off, burst)]);
      dma := dma.(st := if toMem then ToMemAw else FromMemAr, burst := burst, beat := 0);
    }

    // ----- protocol: packets to the card -----

    method ProtocolTx(full: bool)
      requires Valid()
      modifies `pr, `cmdQ, `fifo
      ensures Valid() && Now() == Sent(old(Now()), full)
    {
      hide Ok;
      SentOk(Now(), full, imageBytes);
      if full {
        return;
      }
      if pr.configPending {
        cmdQ := cmdQ + [Config(regs.enable)];
        pr := pr.(configPending := false);
      } else if pr.state == SendCmd {
        var cmd := CommandOf(regs, pr);
        cmdQ := cmdQ + [cmd];
        pr := pr.(state := WaitRsp, cmd := cmd);
      } else if pr.state == WriteStream && fifo != [] {
        var last := pr.off + 1 == pr.len;
        cmdQ := cmdQ + [WriteData(fifo[0], last)];
        fifo := fifo[1..];
        pr := pr.(off := pr.off + 1, state := if last then WaitWriteDone else WriteStream);
      }
    }

    /** One clock of the controller.  After a refusal that cuts off a burst its other parts have nothing to do. */
    method Clock(stall: Stall, present: bool)
      requires Valid()
      modifies `regs, `pr, `dma, `fifo, `outcome, `dataQ, `cmdQ, `errs, `tr, `axi, `log
      ensures Now() == ControllerNext(old(Now()), stall, present)
      ensures if CutOff(old(Now())) then CutShort(old(Now()), Now()) else Valid()
      ensures LogStep(old(Now()), Now())
    {
      ControllerOk(Now(), stall, present, imageBytes);
      ControllerMeans(Now(), stall, present, imageBytes);
      CutIff(Now(), present, imageBytes);
      CutEnds(Now(), stall, present, imageBytes);
      hide Ok, CutShort, Received, DmaNext, PrefetchNext, ScheduleNext, Sent, LogStep;
      RecvData(present);
      if !errs.cut {
        DmaProc(stall);
        UpdatePrefetch();
        DmaSchedule();
        ProtocolTx(stall.cmd);
      }
    }

    // ----- software -----

    predicate Busy()
      reads this
    {
      pr.state != Idle || dma.st != DIdle
    }

    /** A write to CMD_CTRL with the start bit: refused while busy, failed at once on a bad
        parameter, else the command starts. */
    method StartCmd(opcode: nat, hasData: bool, write: bool) returns (accepted: bool)
      requires Valid()
      modifies `regs, `pr, `dma, `fifo, `outcome, `tr
      ensures Valid() && Now() == Started(old(Now()), opcode, hasData, write)
      ensures accepted <==> !old(Busy())
      ensures accepted && !BadRequest(regs, hasData, write) ==>
                && pr.state == (if write then WritePrefetch else SendCmd) && pr.dataWrite == write && outcome == Pending
                && 4 * pr.len == if hasData then Length(regs) else 0
    {
      StartedOk(Now(), opcode, hasData, write, imageBytes);
      hide Ok, BadRequest, BufferWords, Length;
      if Busy() {
        return false;
      }
      accepted := true;
      MemoryWhole(Now(), imageBytes);
      regs := regs.(opcode := opcode % 64);
      if BadRequest(regs, hasData, write) {
        Finish(false);
      } else {
        LengthOk(regs, hasData, write);
        Launch(if hasData then Length(regs) / 4 else 0, write);
      }
    }

    /** Latches length and direction of a well-formed request. */
    method Launch(len: nat, write: bool)
      requires |mem| == MEM_WORDS
      modifies `pr, `dma, `fifo, `outcome, `tr
      ensures Now() == LaunchNext(old(Now()), len, write)
    {
      ghost var words := if write then BufferWords(mem, regs.dmaAddr, len) else tr.src;
      fifo := [];
      pr := Proto(if write then WritePrefetch else SendCmd, write, len, 0, false, pr.configPending, pr.cmd);
      dma := dma.(st := DIdle, off := 0, sync := 0);
      outcome := Pending;
      tr := tr.(src := words, bursts := [], syncs := []);
    }

    /** Other register writes.  The buffer address is left alone while a command runs, as the
        controller does not latch it; enabling is refused while busy. */
    method WriteRegs(enable: bool, clockChanged: bool, arg: nat, opcode: nat, addr: nat, size: nat, count: nat)
      requires Valid()
      modifies `regs, `pr
      ensures Valid() && Now() == Registered(old(Now()), enable, clockChanged, arg, opcode, addr, size, count)
    {
      hide Ok;
      RegisteredOk(Now(), Registers(enable, clockChanged, arg, opcode, addr, size, count), imageBytes);
      if addr >= U32 || (Busy() && (addr != regs.dmaAddr || enable != regs.enable || clockChanged)) {
        return;
      }
      if enable != regs.enable || clockChanged {
        pr := pr.(configPending := true);
      }
      regs := regs.(enable := enable, cmdArg := arg, opcode := opcode % 64, dmaAddr := addr, blockSize := size, blockCount := count);
    }

    // ----- the card -----

    /** One clock of the card: a pending status goes first, else the state machine moves.  `words`
        is what the buffer holds when a command does not read the image. */
    method CardClock(full: bool, words: seq<Word>)
      requires Valid()
      modifies `card, `cmdQ, `dataQ, `image, `errs, `tr
      ensures Valid() && Now() == CardNext(old(Now()), full, words, imageBytes) && errs == old(errs)
      ensures ImageStep(old(Now()), CardStep(full, words), Now())
    {
      CardOk(Now(), full, words, imageBytes);
      CardMeans(Now(), CardStep(full, words), imageBytes);
      NoErrors(Now(), imageBytes);
      NoErrors(CardNext(Now(), full, words, imageBytes), imageBytes);
      hide Ok, StatusSent, PacketTaken, ResponseSent, WordSent, AckSent, ImageStep, LogStep;
      if card.statusPending && !full {
        CardSendStatus();
        return;
      }
      match card.st
      case CIdle => CardRecv(words);
      case CRecvWriteData => CardRecv(words);
      case CSendResponse => if !full { CardSendResponse(); }
      case CSendReadData => if !full { CardSendReadData(); }
      case CSendWriteDone => if !full { CardSendWriteDone(); }
    }

    method CardSendStatus()
      modifies `card, `dataQ
      ensures Now() == StatusSent(old(Now()))
    {
      dataQ := dataQ + [Status(card.present)];
      card := card.(statusPending := false);
    }

    /** The next packet from the controller: it is always one the card expects. */
    method CardRecv(words: seq<Word>)
      requires Valid()
      modifies `card, `cmdQ, `image, `errs, `tr
      ensures Valid() && Now() == PacketTaken(old(Now()), words, imageBytes)
    {
      hide Ok, CommandTaken, WordTaken, ConfigTaken;
      if cmdQ == [] {
        return;
      }
      match cmdQ[0]
      case Config(_) => CardRecvConfig();
      case Command(_, _, _, _, _, _, _) => CardRecvCommand(words);
      case WriteData(_, _) => CardRecvWord();
    }

    method CardRecvConfig()
      requires Valid() && cmdQ != [] && cmdQ[0].Config?
      modifies `card, `cmdQ, `errs
      ensures Valid() && Now() == ConfigTaken(old(Now())) && old(card).st == CIdle
    {
      hide Ok;
      ConfigOk(Now(), imageBytes);
      errs := CardBadPacket(errs, card.st != CIdle);
      card := card.(enabled := cmdQ[0].enable);
      cmdQ := cmdQ[1..];
    }

    /** A command: the card prepares its answer, and for a block read its data. */
    method CardRecvCommand(words: seq<Word>)
      requires Valid() && cmdQ != [] && cmdQ[0].Command?
      modifies `card, `cmdQ, `errs, `tr
      ensures Valid() && Now() == CommandTaken(old(Now()), words, imageBytes)
      ensures old(card).st == CIdle && card.st == CSendResponse && card.error == !Accepts(old(card), old(cmdQ)[0], imageBytes)
      ensures card.cmd == old(cmdQ)[0] && card.app == AppCommand(old(card), card.cmd) && card.off == 0
      ensures !card.error ==> Serves(card) && |card.buf| == card.len
      ensures !card.error && card.regular && !card.write ==> InImage(image, card.imgOff, card.buf)
    {
      hide Ok, Accepts, Source, InImage, Serves;
      CommandOk(Now(), words, imageBytes);
      errs := CardBadPacket(errs, card.st != CIdle);
      card := Prepare(card, cmdQ[0], image, imageBytes, Leftover(cmdQ[0], words));
      tr := tr.(src := Source(card, tr.src));
      cmdQ := cmdQ[1..];
    }

    /** A data word; after the last one the whole buffer goes to the image. */
    method CardRecvWord()
      requires Valid() && cmdQ != [] && cmdQ[0].WriteData?
      modifies `card, `cmdQ, `image, `errs
      ensures Valid() && Now() == WordTaken(old(Now())) && errs == old(errs)
      ensures old(card).st == CRecvWriteData && card.off == old(card).off + 1 <= card.len
      ensures old(cmdQ)[0].last == (card.off == card.len)
      ensures old(cmdQ)[0].last ==> card.imgOff + |card.buf| <= |old(image)| && image == Stored(old(image), card.imgOff, card.buf)
      ensures !old(cmdQ)[0].last ==> image == old(image)
    {
      hide Ok, Stored;
      WordOk(Now(), imageBytes);
      var pkt := cmdQ[0];
      errs := CardBadPacket(errs, card.st != CRecvWriteData || card.off + 1 > card.len || pkt.last != (card.off + 1 == card.len));
      card := card.(buf := card.buf[card.off := pkt.data], off := card.off + 1);
      cmdQ := cmdQ[1..];
      if pkt.last {
        image := Stored(image, card.imgOff, card.buf);
        card := card.(st := CSendWriteDone, error := false);
      }
    }

    method CardSendResponse()
      modifies `card, `dataQ
      ensures Now() == ResponseSent(old(Now()))
    {
      dataQ := dataQ + [Response(card.error)];
      card := card.(st := if card.error || card.len == 0 then CIdle else if card.write then CRecvWriteData else CSendReadData);
    }

    method CardSendReadData()
      requires Valid() && card.st == CSendReadData
      modifies `card, `dataQ
      ensures Now() == WordSent(old(Now())) && old(card).off < old(card).len == |old(card).buf|
    {
      hide Ok;
      WordServedOk(Now(), imageBytes);
      var last := card.off + 1 == card.len;
      dataQ := dataQ + [ReadData(card.buf[card.off], last)];
      card := card.(off := card.off + 1, st := if last then CIdle else CSendReadData);
    }

    method CardSendWriteDone()
      modifies `card, `dataQ
      ensures Now() == AckSent(old(Now()))
    {
      dataQ := dataQ + [WriteDone(card.error)];
      card := card.(st := CIdle);
    }

    /** The card is inserted or removed; an image smaller than a sector never counts as a card. */
    method SetCardPresent(present: bool, imageReadOnly: bool)
      requires Valid()
      modifies `card
      ensures Valid() && Now() == Inserted(old(Now()), present, imageReadOnly, imageBytes)
      ensures card.present == (present && imageBytes >= SECTOR_SIZE)
    {
      hide Ok;
      InsertedOk(Now(), present, imageReadOnly, imageBytes);
      var now := present && imageBytes >= SECTOR_SIZE;
      if card.present == now {
        return;
      }
      card := card.(present := now, readOnly := now && imageReadOnly, statusPending := true,
                    idle := card.idle || !now, appCmd := card.appCmd && now);
    }

    // ----- memory -----

    /** Memory stores one beat of the oldest write burst; the last beat posts the response. */
    method MemStore()
      requires Valid()
      modifies `axi, `mem, `errs
      ensures Valid() && Now() == MemStored(old(Now()))
    {
      hide Ok, BeatStored;
      MemStoredOk(Now(), imageBytes);
      if axi.aw == [] || axi.w == [] {
        return;
      }
      errs := BadBeat(errs, axi.w[0].last != (axi.applied + 1 == axi.aw[0].beats));
      mem := mem[(axi.aw[0].word + axi.applied) % MEM_WORDS := axi.w[0].data];
      axi := BeatStored(axi);
    }

    /** Memory returns one beat of the oldest read burst. */
    method MemServe()
      requires Valid()
      modifies `axi
      ensures Valid() && Now() == MemServed(old(Now()))
    {
      hide Ok, BeatServed;
      MemServedOk(Now(), imageBytes);
      if axi.ar == [] {
        return;
      }
      axi := BeatServed(axi, Beat(mem[(axi.ar[0].word + axi.served) % MEM_WORDS], axi.served + 1 == axi.ar[0].beats));
    }

    /** Another master stores a word; the buffer of a running command is left alone. */
    method OtherStore(at: nat, w: Word)
      requires Valid()
      modifies `mem
      ensures Valid() && Now() == OtherStored(old(Now()), at, w)
    {
      hide Ok;
      OtherStoredOk(Now(), at, w, imageBytes);
      if at < MEM_WORDS && (Busy() ==> forall j: nat | j < pr.len :: Buf(regs.dmaAddr, j) != at) {
        mem := mem[at := w];
      }
    }

    // ----- runs -----

    constructor (image: seq<Word>, imageBytes: nat, readOnly: bool, mem: seq<Word>)
      requires |image| == imageBytes / 4 && |mem| == MEM_WORDS
      ensures Valid() && Now() == Fresh(image, imageBytes, readOnly, mem) && this.imageBytes == imageBytes
    {
      regs := Regs(false, 0, 0, 0, 0, 0, false);
      pr := Proto(Idle, false, 0, 0, false, true, Config(false));
      dma := Dma(DIdle, 0, 0, 0, 0);
      fifo := [];
      outcome := Pending;
      errs := NONE;
      cmdQ := [];
      dataQ := [];
      card := Card(CIdle, 0, 0, 0, false, false, [], false, false, imageBytes >= SECTOR_SIZE, readOnly, true, false, true,
                   Config(false), false);
      this.image := image;
      this.imageBytes := imageBytes;
      axi := QUIET;
      this.mem := mem;
      tr := Trace(image, [], [], []);
      log := [];
    }

    /** One step of a run. */
    method Step(act: Action)
      requires Valid()
      modifies this
      ensures Now() == Next(old(Now()), act, imageBytes) && StepMeans(old(Now()), act, Now())
      ensures if act.Controller? && CutOff(old(Now())) then CutShort(old(Now()), Now()) else Valid()
    {
      NextOk(Now(), act, imageBytes);
      NextMeans(Now(), act, imageBytes);
      hide Ok, CutShort, StepMeans, LogStep, ImageStep, ControllerNext, CardNext, MemStored, MemServed, Inserted, Started, Registered, OtherStored;
      match act
      case Controller(stall, present) => Clock(stall, present);
      case CardStep(full, words) => CardClock(full, words);
      case Store => MemStore();
      case Serve => MemServe();
      case Insert(present, readOnly) => SetCardPresent(present, readOnly);
      case Start(opcode, hasData, write) => var _ := StartCmd(opcode, hasData, write);
      case Registers(enable, clockChanged, arg, opcode, addr, size, count) =>
        WriteRegs(enable, clockChanged, arg, opcode, addr, size, count);
      case Other(at, w) => OtherStore(at, w);
    }

    /** Every run takes exactly the steps of its schedule.  Up to the first refusal that cuts off a
        burst, both machines only ever meet packets and beats they expect; every data command that
        completes is logged as it is, with its buffer equal to its stretch of the image; and the
        image is at all times the disk made by the logged writes, which is what the logged reads
        have read. */
    method Run(schedule: seq<Action>) returns (ghost trail: seq<Snap>)
      requires Valid()
      modifies this
      ensures IsRun(schedule, trail, imageBytes) && trail[0] == old(Now()) && trail[|trail| - 1] == Now()
      ensures errs.cut <==> RunCut(schedule, trail)
      ensures !errs.cut ==> Valid() && |trail| == |schedule| + 1
      ensures tr.base == old(tr.base) && Sound(errs, tr.base, log)
      ensures !errs.cut && pr.state != WaitWriteDone ==> image == Disk(tr.base, log)
    {
      trail := [Now()];
      OkSound(Now(), imageBytes);
      hide Ok, Next, Took, StepMeans, Cuts, CutOff, Sound, CutShort, Disk;
      assert IsRun(schedule, trail, imageBytes) && !RunCut(schedule, trail);
      hide IsRun, RunCut;
      var i := 0;
      while i < |schedule| && !errs.cut
        invariant |trail| == i + 1 <= |schedule| + 1 && IsRun(schedule, trail, imageBytes)
        invariant trail[0] == old(Now()) && trail[|trail| - 1] == Now()
        invariant errs.cut <==> RunCut(schedule, trail)
        invariant !errs.cut ==> Valid()
        invariant Sound(errs, tr.base, log) && tr.base == old(tr.base)
      {
        StepSound(Now(), schedule[i], imageBytes);
        Step(schedule[i]);
        RunGrows(schedule, trail, Now(), imageBytes);
        trail := trail + [Now()];
        i := i + 1;
      }
      if !errs.cut && pr.state != WaitWriteDone {
        IdleDisk(Now(), imageBytes);
      }
    }
  }

  // ----- what the invariant says about the data in flight -----

  /** Card read: words received = words written to memory and of the current burst + words in the FIFO. */
  lemma ReadConserved(sys: SdspiSystem)
    requires sys.Valid() && sys.pr.state == ReadStream
    ensures sys.pr.off == Drained(sys.dma) + |sys.fifo|
    ensures SyncBurst(sys.dma.st) ==> sys.pr.inputDone
  {
    hide InMemory, BurstOk, Storing, Fetching, TilePart, LogPart, DiskPart, HistoryPart;
    ReadMode(sys.pr, sys.card, sys.cmdQ, Core(sys.dataQ), sys.tr.src, sys.image);
  }

  /** Card write: words fetched = words sent + words in the FIFO, and the FIFO has room for every
      beat still outstanding. */
  lemma WriteConserved(sys: SdspiSystem)
    requires sys.Valid() && sys.pr.state != Idle && sys.pr.dataWrite
    ensures Fetched(sys.dma) == sys.pr.off + |sys.fifo|
    ensures sys.dma.st == FromMemR ==> |sys.fifo| + (sys.dma.burst - sys.dma.beat) <= FIFO_WORDS
    ensures sys.dma.st == FromMemAr ==> |sys.fifo| + sys.dma.burst <= FIFO_WORDS
  {
    hide InMemory, BurstOk, Fetching, TilePart, LogPart, DiskPart, HistoryPart;
  }
}
