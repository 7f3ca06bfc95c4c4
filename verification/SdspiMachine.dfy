/** The SD-SPI controller, the card, the links, the DMA traffic and memory as one state machine:
    its state, what each part does at a clock, and what holds in every reachable state. */
module SdspiMachine {
  import opened Words
  import opened SdspiTypes
  import opened SdspiInvariant
  import opened SdspiSteps
  import opened SdspiLink

  datatype Outcome = Pending | Done | Failed

  /** Times the controller met a packet the protocol does not allow or a read-back that ended
      before the card's data had all arrived; the card met such a packet; a beat on the DMA port
      had the wrong last flag.  `cut` says that the card has refused a
      command while a DMA burst was in flight: the controller then forgets the burst, and runs
      are followed up to that point. */
  datatype Errors = Errors(protocol: nat, packets: nat, dma: nat, cut: bool)

  const NONE := Errors(0, 0, 0, false)

  /** What the proofs remember: the image before the logged transfers, the words of the transfer
      under way and its bursts so far. */
  datatype Trace = Trace(base: seq<Word>, src: seq<Word>, bursts: seq<(nat, nat)>, syncs: seq<(nat, nat)>)

  /** The state of the system at one moment. */
  datatype Snap = Snap(
    regs: Regs, pr: Proto, dma: Dma, fifo: seq<Word>, outcome: Outcome, errs: Errors, cmdQ: seq<CmdPkt>,
    dataQ: seq<DataPkt>, card: Card, image: seq<Word>, axi: Axi, mem: seq<Word>, tr: Trace, log: seq<Xfer>)

  /** Which interfaces are full at a clock of the controller. */
  datatype Stall = Stall(aw: bool, w: bool, ar: bool, cmd: bool)

  /** What may happen next: a clock of the controller or the card, a beat stored or served by
      memory, the card inserted or removed, a command started, registers written, a store by
      another master.  `present` is the card presence that a packet other than a status reports,
      `words` what the card's buffer holds when the command does not read the image. */
  datatype Action =
    | Controller(stall: Stall, present: bool)
    | CardStep(full: bool, words: seq<Word>)
    | Store
    | Serve
    | Insert(present: bool, readOnly: bool)
    | Start(opcode: nat, hasData: bool, write: bool)
    | Registers(enable: bool, clockChanged: bool, arg: nat, opcode: nat, addr: nat, size: nat, count: nat)
    | Other(at: nat, w: Word)

  // ----- small changes -----

  function Finished(pr: Proto): Proto { pr.(state := Idle) }
  function Stopped(dma: Dma): Dma { dma.(st := DIdle) }
  function Streaming(pr: Proto): Proto { pr.(state := if pr.dataWrite then WriteStream else ReadStream) }

  function Launched(pr: Proto, len: nat, write: bool): Proto
  {
    Proto(if write then WritePrefetch else SendCmd, write, len, 0, false, pr.configPending, pr.cmd)
  }

  function Cleared(dma: Dma): Dma { Dma(DIdle, 0, 0, dma.burst, dma.beat) }

  function BadPacket(e: Errors, bad: bool): Errors { if bad then e.(protocol := e.protocol + 1) else e }
  function CardBadPacket(e: Errors, bad: bool): Errors { if bad then e.(packets := e.packets + 1) else e }
  function BadBeat(e: Errors, bad: bool): Errors { if bad then e.(dma := e.dma + 1) else e }

  /** Beats of the next burst. */
  function Beats(addr: nat, len: nat, off: nat, maxBeats: nat): nat
  {
    if off < len && maxBeats > 0 then BurstBytes(addr, len, off, maxBeats) / 4 else 0
  }

  /** The log entry of a transfer that finished without error: the DMA buffer and the stretch of the
      image the card served, as they are now. */
  ghost function Record(pr: Proto, card: Card, addr: nat, mem: seq<Word>, image: seq<Word>,
                        data: seq<(nat, nat)>, sync: seq<(nat, nat)>): Xfer
  {
    Xfer(pr.cmd, card.app, addr, card.imgOff, pr.len,
         if |mem| == MEM_WORDS then BufferWords(mem, addr, pr.len) else [],
         if card.imgOff + pr.len <= |image| then image[card.imgOff..card.imgOff + pr.len] else [],
         data, sync)
  }

  ghost function Entry(s: Snap): Xfer
  {
    Record(s.pr, s.card, s.regs.dmaAddr, s.mem, s.image, s.tr.bursts, s.tr.syncs)
  }

  ghost function Logged(s: Snap): Snap { s.(log := s.log + [Entry(s)]) }

  function Ended(s: Snap, ok: bool): Snap
  {
    s.(pr := Finished(s.pr), dma := Stopped(s.dma), fifo := [], outcome := if ok then Done else Failed)
  }

  // ----- controller: packets from the card -----

  function Popped(s: Snap, present: bool): Snap
    requires s.dataQ != []
  {
    s.(dataQ := s.dataQ[1..], regs := s.regs.(cardPresent := present))
  }

  /** The answer to the command: the data phase starts, or the command is over. */
  function Responded(s: Snap, present: bool): Snap
    requires s.dataQ != [] && s.dataQ[0].Response?
  {
    var t := Popped(s, present).(errs := BadPacket(s.errs, s.pr.state != WaitRsp));
    if s.dataQ[0].error then Ended(t, false).(errs := t.errs.(cut := t.errs.cut || t.axi != QUIET))
    else if s.pr.len == 0 then Ended(t, true)
    else t.(pr := Streaming(s.pr))
  }

  /** A word of a card read enters the FIFO. */
  function WordReceived(s: Snap, present: bool): Snap
    requires s.dataQ != [] && s.dataQ[0].ReadData?
  {
    var pkt := s.dataQ[0];
    Popped(s, present).(
      fifo := s.fifo + [pkt.data],
      pr := s.pr.(off := s.pr.off + 1, inputDone := pkt.last),
      errs := BadPacket(s.errs, s.pr.state != ReadStream || s.pr.off + 1 > s.pr.len || pkt.last != (s.pr.off + 1 == s.pr.len)))
  }

  /** The acknowledgement of a card write ends the command. */
  ghost function WriteAcked(s: Snap, present: bool): Snap
    requires s.dataQ != [] && s.dataQ[0].WriteDone?
  {
    var bad := s.pr.state != WaitWriteDone || s.pr.off != s.pr.len || s.dma.off != s.pr.len || s.dma.st != DIdle || s.fifo != [];
    var t := Popped(s, present).(errs := BadPacket(s.errs, bad));
    if s.dataQ[0].error then Ended(t, false) else Ended(Logged(t), true)
  }

  /** Only a read word waits, for room in the FIFO. */
  predicate NothingToTake(s: Snap) { s.dataQ == [] || (s.dataQ[0].ReadData? && |s.fifo| >= FIFO_WORDS) }

  ghost function Received(s: Snap, present: bool): Snap
  {
    if NothingToTake(s) then s
    else
      match s.dataQ[0]
      case Status(p) => Popped(s, p)
      case Response(_) => Responded(s, present)
      case ReadData(_, _) => WordReceived(s, present)
      case WriteDone(_) => WriteAcked(s, present)
  }

  // ----- controller: DMA -----

  function AwNext(s: Snap, full: bool): Snap
  {
    if full then s
    else s.(dma := s.dma.(st := ToMemW),
            axi := s.axi.(aw := s.axi.aw + [Req(Buf(s.regs.dmaAddr, s.dma.off), s.dma.burst)]))
  }

  function WNext(s: Snap, full: bool): Snap
  {
    if s.fifo == [] || full then s
    else
      var last := s.dma.beat + 1 == s.dma.burst;
      s.(axi := s.axi.(w := s.axi.w + [Beat(s.fifo[0], last)]), fifo := s.fifo[1..],
         dma := s.dma.(beat := s.dma.beat + 1, st := if last then ToMemB else ToMemW))
  }

  /** The read-back burst at `dma.sync`. */
  function SyncBegun(s: Snap, dma: Dma): Snap
  {
    var burst := Beats(s.regs.dmaAddr, s.pr.len, dma.sync, MAX_BURST_BEATS);
    s.(dma := dma.(st := SyncAr, burst := burst, beat := 0), tr := s.tr.(syncs := s.tr.syncs + [(dma.sync, burst)]))
  }

  /** A data burst is stored; after the last one the buffer is read back from the start. */
  function BNext(s: Snap): Snap
  {
    if s.axi.b == 0 then s
    else
      var t := s.(axi := s.axi.(b := s.axi.b - 1));
      var dma := s.dma.(off := s.dma.off + s.dma.burst);
      if dma.off == s.pr.len then SyncBegun(t, dma.(sync := 0)) else t.(dma := Stopped(dma))
  }

  function SyncArNext(s: Snap, full: bool): Snap
  {
    if full then s
    else s.(dma := s.dma.(st := SyncR),
            axi := s.axi.(ar := s.axi.ar + [Req(Buf(s.regs.dmaAddr, s.dma.sync), s.dma.burst)]))
  }

  /** A read-back beat; the last one of the buffer completes the card read. */
  ghost function SyncRNext(s: Snap): Snap
  {
    if s.axi.r == [] then s
    else
      var r := s.axi.r[0];
      var dma := s.dma.(beat := s.dma.beat + 1);
      var t := s.(dma := dma, axi := s.axi.(r := s.axi.r[1..]), errs := BadBeat(s.errs, r.last != (dma.beat == dma.burst)));
      if r.last then SyncBurstRead(t) else t
  }

  /** A read-back burst is over: the next one, or the end of the card read. */
  ghost function SyncBurstRead(s: Snap): Snap
  {
    var t := s.(dma := s.dma.(sync := s.dma.sync + s.dma.burst));
    if t.dma.sync != s.pr.len then SyncBegun(t, t.dma)
    else Ended(Logged(t).(errs := BadPacket(s.errs, !s.pr.inputDone)), true)
  }

  function ArNext(s: Snap, full: bool): Snap
  {
    if full then s
    else s.(dma := s.dma.(st := FromMemR),
            axi := s.axi.(ar := s.axi.ar + [Req(Buf(s.regs.dmaAddr, s.dma.off), s.dma.burst)]))
  }

  /** A fetched word enters the FIFO. */
  function RNext(s: Snap): Snap
  {
    if s.axi.r == [] || |s.fifo| >= FIFO_WORDS then s
    else
      var r := s.axi.r[0];
      var dma := s.dma.(beat := s.dma.beat + 1);
      s.(axi := s.axi.(r := s.axi.r[1..]), fifo := s.fifo + [r.data],
         errs := BadBeat(s.errs, r.last != (dma.beat == dma.burst)),
         dma := if r.last then dma.(off := dma.off + dma.burst, st := DIdle) else dma)
  }

  ghost function DmaNext(s: Snap, stall: Stall): Snap
  {
    match s.dma.st
    case DIdle => s
    case ToMemAw => AwNext(s, stall.aw)
    case ToMemW => WNext(s, stall.w)
    case ToMemB => BNext(s)
    case SyncAr => SyncArNext(s, stall.ar)
    case SyncR => SyncRNext(s)
    case FromMemAr => ArNext(s, stall.ar)
    case FromMemR => RNext(s)
  }

  /** Enough words are prefetched to send a write command. */
  predicate PrefetchDone(pr: Proto, fifo: seq<Word>, dma: Dma)
  {
    |fifo| >= (if pr.len > PREFETCH_WORDS then PREFETCH_WORDS else pr.len) || (dma.off == pr.len && dma.st == DIdle)
  }

  function PrefetchNext(s: Snap): Snap
  {
    if s.pr.state == WritePrefetch && PrefetchDone(s.pr, s.fifo, s.dma) then s.(pr := s.pr.(state := SendCmd)) else s
  }

  /** The DMA side is idle with words left to move and can move some. */
  predicate CanBurst(pr: Proto, fifo: seq<Word>, dma: Dma)
  {
    && dma.st == DIdle && dma.off != pr.len
    && (((pr.state == WritePrefetch || pr.state == WriteStream) && |fifo| < FIFO_WORDS) || (pr.state == ReadStream && fifo != []))
  }

  /** The longest burst: what fits the FIFO, for a card write. */
  function MaxBeats(pr: Proto, fifo: seq<Word>): nat
  {
    if pr.state != ReadStream && FIFO_WORDS - MAX_BURST_BEATS < |fifo| <= FIFO_WORDS then FIFO_WORDS - |fifo|
    else MAX_BURST_BEATS
  }

  function BurstBegun(s: Snap, toMem: bool, maxBeats: nat): Snap
  {
    var burst := Beats(s.regs.dmaAddr, s.pr.len, s.dma.off, maxBeats);
    s.(dma := s.dma.(st := if toMem then ToMemAw else FromMemAr, burst := burst, beat := 0),
       tr := s.tr.(bursts := s.tr.bursts + [(s.dma.off, burst)]))
  }

  /** The next data burst. */
  function ScheduleNext(s: Snap): Snap
  {
    if !CanBurst(s.pr, s.fifo, s.dma) then s
    else
      BurstBegun(s, s.pr.state == ReadStream, MaxBeats(s.pr, s.fifo))
  }

  // ----- controller: packets to the card -----

  /** The command packet made from the registers. */
  function CommandOf(regs: Regs, pr: Proto): CmdPkt
  {
    Command(regs.opcode, regs.cmdArg, pr.len != 0, pr.dataWrite, regs.blockSize, regs.blockCount, 4 * pr.len)
  }

  /** Configuration first, then the command, then data. */
  function Sent(s: Snap, full: bool): Snap
  {
    if full then s
    else if s.pr.configPending then
      s.(cmdQ := s.cmdQ + [Config(s.regs.enable)], pr := s.pr.(configPending := false))
    else if s.pr.state == SendCmd then
      var cmd := CommandOf(s.regs, s.pr);
      s.(cmdQ := s.cmdQ + [cmd], pr := s.pr.(state := WaitRsp, cmd := cmd))
    else if s.pr.state == WriteStream && s.fifo != [] then
      var last := s.pr.off + 1 == s.pr.len;
      s.(cmdQ := s.cmdQ + [WriteData(s.fifo[0], last)], fifo := s.fifo[1..],
         pr := s.pr.(off := s.pr.off + 1, state := if last then WaitWriteDone else WriteStream))
    else s
  }

  /** The rest of a clock: one DMA step, the prefetch test, the next burst, one packet to the card. */
  ghost function Advanced(s: Snap, stall: Stall): Snap
  {
    Sent(ScheduleNext(PrefetchNext(DmaNext(s, stall))), stall.cmd)
  }

  ghost function ControllerNext(s: Snap, stall: Stall, present: bool): Snap
  {
    Advanced(Received(s, present), stall)
  }

  /** The card refuses a command while a DMA burst is in flight. */
  predicate CutOff(s: Snap) { s.dataQ != [] && s.dataQ[0] == Response(true) && s.axi != QUIET }

  // ----- software -----

  function Length(regs: Regs): nat { regs.blockSize * regs.blockCount }

  /** The requests that fail at once. */
  predicate BadRequest(regs: Regs, hasData: bool, write: bool)
  {
    || !regs.enable || !regs.cardPresent || (write && !hasData)
    || (hasData && (Length(regs) == 0 || Length(regs) > MAX_DATA_SIZE || regs.dmaAddr % 4 != 0 || Length(regs) % 4 != 0))
  }

  predicate BusyAt(s: Snap) { s.pr.state != Idle || s.dma.st != DIdle }

  function LaunchNext(s: Snap, len: nat, write: bool): Snap
  {
    var words := if write && |s.mem| == MEM_WORDS then BufferWords(s.mem, s.regs.dmaAddr, len) else s.tr.src;
    s.(pr := Launched(s.pr, len, write), dma := Cleared(s.dma), fifo := [], outcome := Pending,
       tr := s.tr.(src := words, bursts := [], syncs := []))
  }

  /** A start is ignored while busy, fails at once on a bad request, else launches the command. */
  function Started(s: Snap, opcode: nat, hasData: bool, write: bool): Snap
  {
    if BusyAt(s) then s
    else
      var t := s.(regs := s.regs.(opcode := opcode % 64));
      if BadRequest(t.regs, hasData, write) then Ended(t, false)
      else LaunchNext(t, if hasData then Length(t.regs) / 4 else 0, write)
  }

  /** Software leaves the buffer address and the configuration alone while busy. */
  predicate RegistersAllowed(s: Snap, enable: bool, clockChanged: bool, addr: nat)
  {
    addr < U32 && (BusyAt(s) ==> addr == s.regs.dmaAddr && enable == s.regs.enable && !clockChanged)
  }

  /** A register access that software must not make in the present state does nothing. */
  function Registered(s: Snap, enable: bool, clockChanged: bool, arg: nat, opcode: nat, addr: nat, size: nat, count: nat): Snap
  {
    if !RegistersAllowed(s, enable, clockChanged, addr) then s
    else s.(regs := Regs(enable, arg, opcode % 64, addr, size, count, s.regs.cardPresent),
            pr := s.pr.(configPending := s.pr.configPending || enable != s.regs.enable || clockChanged))
  }

  // ----- card -----

  function StatusSent(s: Snap): Snap
  {
    s.(dataQ := s.dataQ + [Status(s.card.present)], card := s.card.(statusPending := false))
  }

  function ConfigTaken(s: Snap): Snap
    requires s.cmdQ != [] && s.cmdQ[0].Config?
  {
    s.(card := s.card.(enabled := s.cmdQ[0].enable), cmdQ := s.cmdQ[1..], errs := CardBadPacket(s.errs, s.card.st != CIdle))
  }

  /** What the buffer holds when the command does not read the image. */
  function Leftover(c: CmdPkt, words: seq<Word>): seq<Word>
    requires c.Command?
  {
    var len := if c.dataPresent then c.dataLen / 4 else 0;
    if |words| == len then words else seq(len, _ => ZERO)
  }

  function CommandTaken(s: Snap, words: seq<Word>, imageBytes: nat): Snap
    requires s.cmdQ != [] && s.cmdQ[0].Command?
  {
    var card := Prepare(s.card, s.cmdQ[0], s.image, imageBytes, Leftover(s.cmdQ[0], words));
    s.(card := card, tr := s.tr.(src := Source(card, s.tr.src)), cmdQ := s.cmdQ[1..],
       errs := CardBadPacket(s.errs, s.card.st != CIdle))
  }

  /** The card has room for the next word and the image for its buffer. */
  predicate WordFits(s: Snap) { s.card.off < |s.card.buf| && s.card.imgOff + |s.card.buf| <= |s.image| }

  /** A data word; after the last one the whole buffer goes to the image. */
  function WordTaken(s: Snap): Snap
    requires s.cmdQ != [] && s.cmdQ[0].WriteData?
  {
    var pkt := s.cmdQ[0];
    var bad := s.card.st != CRecvWriteData || s.card.off + 1 > s.card.len || pkt.last != (s.card.off + 1 == s.card.len);
    var t := s.(cmdQ := s.cmdQ[1..], errs := CardBadPacket(s.errs, bad || !WordFits(s)));
    if !WordFits(s) then t
    else
      var card := s.card.(buf := s.card.buf[s.card.off := pkt.data], off := s.card.off + 1);
      if pkt.last then
        t.(card := card.(st := CSendWriteDone, error := false), image := Stored(s.image, card.imgOff, card.buf))
      else t.(card := card)
  }

  function PacketTaken(s: Snap, words: seq<Word>, imageBytes: nat): Snap
  {
    if s.cmdQ == [] then s
    else
      match s.cmdQ[0]
      case Config(_) => ConfigTaken(s)
      case Command(_, _, _, _, _, _, _) => CommandTaken(s, words, imageBytes)
      case WriteData(_, _) => WordTaken(s)
  }

  function ResponseSent(s: Snap): Snap
  {
    s.(dataQ := s.dataQ + [Response(s.card.error)],
       card := s.card.(st := if s.card.error || s.card.len == 0 then CIdle
                             else if s.card.write then CRecvWriteData else CSendReadData))
  }

  function WordSent(s: Snap): Snap
  {
    if s.card.off >= |s.card.buf| then s
    else
      var last := s.card.off + 1 == s.card.len;
      s.(dataQ := s.dataQ + [ReadData(s.card.buf[s.card.off], last)],
         card := s.card.(off := s.card.off + 1, st := if last then CIdle else CSendReadData))
  }

  function AckSent(s: Snap): Snap
  {
    s.(dataQ := s.dataQ + [WriteDone(s.card.error)], card := s.card.(st := CIdle))
  }

  /** One clock of the card: a pending status goes first, else the state machine moves. */
  function CardNext(s: Snap, full: bool, words: seq<Word>, imageBytes: nat): Snap
  {
    if s.card.statusPending && !full then StatusSent(s)
    else if s.card.st == CIdle || s.card.st == CRecvWriteData then PacketTaken(s, words, imageBytes)
    else if full then s
    else
      match s.card.st
      case CSendResponse => ResponseSent(s)
      case CSendReadData => WordSent(s)
      case _ => AckSent(s)
  }

  /** The card is inserted or removed; an image smaller than a sector never counts as a card. */
  function Inserted(s: Snap, present: bool, readOnly: bool, imageBytes: nat): Snap
  {
    var now := present && imageBytes >= SECTOR_SIZE;
    if s.card.present == now then s
    else s.(card := s.card.(present := now, readOnly := now && readOnly, statusPending := true,
                            idle := s.card.idle || !now, appCmd := s.card.appCmd && now))
  }

  // ----- memory -----

  /** Memory stores one beat of the oldest write burst; the last beat posts the response. */
  function MemStored(s: Snap): Snap
  {
    if s.axi.aw == [] || s.axi.w == [] || |s.mem| != MEM_WORDS then s
    else s.(axi := BeatStored(s.axi), mem := s.mem[(s.axi.aw[0].word + s.axi.applied) % MEM_WORDS := s.axi.w[0].data],
            errs := BadBeat(s.errs, s.axi.w[0].last != (s.axi.applied + 1 == s.axi.aw[0].beats)))
  }

  /** Memory returns one beat of the oldest read burst. */
  function MemServed(s: Snap): Snap
  {
    if s.axi.ar == [] || |s.mem| != MEM_WORDS then s
    else s.(axi := BeatServed(s.axi, Beat(s.mem[(s.axi.ar[0].word + s.axi.served) % MEM_WORDS],
                                          s.axi.served + 1 == s.axi.ar[0].beats)))
  }

  /** Other masters leave the buffer of a running command alone. */
  predicate OtherAllowed(s: Snap, at: nat)
  {
    at < MEM_WORDS && (BusyAt(s) ==> forall j: nat | j < s.pr.len :: Buf(s.regs.dmaAddr, j) != at)
  }

  function OtherStored(s: Snap, at: nat, w: Word): Snap
  {
    if OtherAllowed(s, at) && |s.mem| == MEM_WORDS then s.(mem := s.mem[at := w]) else s
  }

  // ----- one step -----

  ghost function Next(s: Snap, a: Action, imageBytes: nat): Snap
  {
    match a
    case Controller(stall, present) => ControllerNext(s, stall, present)
    case CardStep(full, words) => CardNext(s, full, words, imageBytes)
    case Store => MemStored(s)
    case Serve => MemServed(s)
    case Insert(present, readOnly) => Inserted(s, present, readOnly, imageBytes)
    case Start(opcode, hasData, write) => Started(s, opcode, hasData, write)
    case Registers(enable, clockChanged, arg, opcode, addr, size, count) =>
      Registered(s, enable, clockChanged, arg, opcode, addr, size, count)
    case Other(at, w) => OtherStored(s, at, w)
  }

  // ----- the disk -----

  /** A disk after the writes among the logged transfers, in order. */
  ghost function Disk(base: seq<Word>, log: seq<Xfer>): (d: seq<Word>)
    ensures |d| == |base|
    decreases |log|
  {
    if log == [] then base
    else
      var d := Disk(base, log[..|log| - 1]);
      var t := log[|log| - 1];
      if t.cmd.Command? && t.cmd.write && t.imgOff + |t.buffer| <= |d| then Stored(d, t.imgOff, t.buffer) else d
  }

  /** The image has the words of a write whose acknowledgement is still to come. */
  predicate Unacknowledged(pr: Proto, card: Card) { pr.state == WaitWriteDone && card.st != CRecvWriteData }

  /** The image is the disk, with the words of the running write once the card has stored them. */
  ghost predicate DiskPart(base: seq<Word>, log: seq<Xfer>, ahead: bool, imgOff: nat, src: seq<Word>, image: seq<Word>)
  {
    var ok :=
    && |base| == |image|
    && (if ahead then imgOff + |src| <= |image| && image == Stored(Disk(base, log), imgOff, src)
        else image == Disk(base, log));
    ok
  }

  /** A block read delivers what the block writes before it have left at its sectors. */
  ghost predicate ReadsDisk(base: seq<Word>, before: seq<Xfer>, t: Xfer)
  {
    t.cmd.Command? && OnImage(t) && !t.cmd.write ==>
      t.imgOff + t.len <= |base| && t.buffer == Disk(base, before)[t.imgOff..t.imgOff + t.len]
  }

  ghost predicate HistoryPart(base: seq<Word>, log: seq<Xfer>)
  {
    forall i | 0 <= i < |log| :: ReadsDisk(base, log[..i], log[i])
  }

  // ----- what holds in every state -----

  ghost predicate Ok(s: Snap, imageBytes: nat)
  {
    var ok :=
    && LinkPart(s.pr, s.card, s.cmdQ, Core(s.dataQ), s.tr.src, s.image)
    && DmaPart(s.pr, s.fifo, s.dma, s.regs.dmaAddr, s.axi, s.mem, s.tr.src)
    && TilePart(s.pr.state != Idle && s.pr.len > 0, s.dma, s.regs.dmaAddr, s.pr.len, s.tr.bursts, s.tr.syncs)
    && LogPart(s.log) && LastPart(s.outcome == Done, s.pr, s.log)
    && DiskPart(s.tr.base, s.log, Unacknowledged(s.pr, s.card), s.card.imgOff, s.tr.src, s.image)
    && HistoryPart(s.tr.base, s.log)
    && |s.image| == imageBytes / 4 && s.regs.dmaAddr < U32 && s.errs == NONE;
    ok
  }

  /** A refusal that cuts off a burst: the command fails, nothing is logged, no error has been met. */
  predicate CutShort(s: Snap, s': Snap)
  {
    && s'.errs == NONE.(cut := true) && s'.pr == Finished(s.pr) && s'.outcome == Failed
    && !s.pr.configPending && s'.dma.st == DIdle && s'.axi == s.axi && s'.axi != QUIET
    && s'.log == s.log && s'.tr == s.tr && s'.image == s.image && s'.mem == s.mem
  }

  // ----- what one step means -----

  /** A data command finishes without error. */
  predicate Completes(s: Snap, s': Snap)
  {
    s.pr.state != Idle && s.pr.len > 0 && s'.pr.state == Idle && s'.outcome == Done
  }

  /** The DMA buffer and a stretch of the image agree word by word. */
  ghost predicate SameWords(mem: seq<Word>, addr: nat, image: seq<Word>, imgOff: nat, len: nat)
    requires |mem| == MEM_WORDS
  {
    imgOff + len <= |image| && forall j: nat | j < len :: mem[Buf(addr, j)] == image[imgOff + j]
  }

  /** The new log entry is the command that ran, with the buffer at DMA_ADDR and the stretch of the
      image as they are; for a block command the two agree word by word. */
  ghost predicate EntryMeans(s: Snap, s': Snap, t: Xfer)
  {
    && t == Record(s.pr, s'.card, s'.regs.dmaAddr, s'.mem, s'.image, t.bursts, t.syncs) && XferOk(t)
    && s'.regs.dmaAddr == s.regs.dmaAddr && s'.card == s.card && s'.mem == s.mem && s'.image == s.image
    && |s'.mem| == MEM_WORDS && t.buffer == BufferWords(s'.mem, s.regs.dmaAddr, s.pr.len)
    && (OnImage(t) ==> SameWords(s'.mem, s.regs.dmaAddr, s'.image, s.pr.cmd.arg * SECTOR_WORDS, s.pr.len))
  }

  /** The log grows by its entry exactly when a data command finishes without error. */
  ghost predicate LogStep(s: Snap, s': Snap)
  {
    if Completes(s, s') then s.log <= s'.log && |s'.log| == |s.log| + 1 && EntryMeans(s, s', s'.log[|s.log|])
    else s'.log == s.log
  }

  /** The card takes the last word of a write. */
  predicate LastWord(s: Snap, a: Action)
  {
    && a.CardStep? && !(s.card.statusPending && !a.full) && s.card.st == CRecvWriteData
    && s.cmdQ != [] && s.cmdQ[0].WriteData? && s.cmdQ[0].last
  }

  /** The image changes only when the card takes the last word of a block write: then the stretch from
      the sector of its argument on becomes the buffer at DMA_ADDR, and the rest stays. */
  ghost predicate ImageStep(s: Snap, a: Action, s': Snap)
  {
    if LastWord(s, a) then
      && s.pr.state == WaitWriteDone && s.pr.cmd.Command? && s.pr.cmd.write && Block(s.pr.cmd) && |s.mem| == MEM_WORDS
      && s.pr.cmd.arg * SECTOR_WORDS + s.pr.len <= |s.image|
      && s'.image == Stored(s.image, s.pr.cmd.arg * SECTOR_WORDS, BufferWords(s.mem, s.regs.dmaAddr, s.pr.len))
    else s'.image == s.image
  }

  /** Memory changes only by other masters, and by a card read inside its own buffer: the next
      word of the transfer goes to its place. */
  ghost predicate MemoryStep(s: Snap, a: Action, s': Snap)
  {
    if a.Store? && s.axi.aw != [] && s.axi.w != [] then
      var j := s.dma.off + s.axi.applied;
      && s.pr.state == ReadStream && j < s.pr.len == |s.tr.src| && |s.mem| == MEM_WORDS
      && s'.mem == s.mem[Buf(s.regs.dmaAddr, j) := s.tr.src[j]]
    else a.Other? || s'.mem == s.mem
  }

  /** A step taken in a sound state. */
  ghost predicate Took(s: Snap, a: Action, s': Snap, imageBytes: nat)
  {
    Ok(s, imageBytes) && s' == Next(s, a, imageBytes) && StepMeans(s, a, s')
  }

  ghost predicate StepMeans(s: Snap, a: Action, s': Snap)
  {
    LogStep(s, s') && ImageStep(s, a, s') && MemoryStep(s, a, s') && s'.tr.base == s.tr.base
  }
}
