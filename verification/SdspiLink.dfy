/** Link-side steps: packets the controller sends, and the card's handling of them. */
module SdspiLink {
  import opened Words
  import opened SdspiTypes
  import opened SdspiInvariant

  // ----- the controller sends -----

  lemma SendsConfig(pr: Proto, card: Card, q: seq<CmdPkt>, d: seq<DataPkt>, src: seq<Word>, image: seq<Word>, e: bool)
    requires LinkPart(pr, card, q, d, src, image) && pr.configPending
    ensures LinkPart(pr.(configPending := false), card, q + [Config(e)], d, src, image)
  {
  }

  lemma SendsCommand(pr: Proto, card: Card, q: seq<CmdPkt>, d: seq<DataPkt>, src: seq<Word>, image: seq<Word>, c: CmdPkt)
    requires LinkPart(pr, card, q, d, src, image) && pr.state == SendCmd && !pr.configPending && Matches(c, pr.(cmd := c))
    ensures LinkPart(pr.(state := WaitRsp, cmd := c), card, q + [c], d, src, image)
  {
    assert (q + [c])[..|q|] == q;
  }

  lemma SendsWord(pr: Proto, card: Card, q: seq<CmdPkt>, d: seq<DataPkt>, src: seq<Word>, image: seq<Word>)
    requires LinkPart(pr, card, q, d, src, image) && pr.state == WriteStream
    ensures pr.dataWrite && pr.off < pr.len == |src| && card.st == CRecvWriteData
    ensures LinkPart(pr.(off := pr.off + 1, state := if pr.off + 1 == pr.len then WaitWriteDone else WriteStream), card,
                     q + [WriteData(src[pr.off], pr.off + 1 == pr.len)], d, src, image)
  {
  }

  lemma StateChanges(pr: Proto, fifo: seq<Word>, dma: Dma, addr: nat, x: Axi, mem: seq<Word>, src: seq<Word>, pr': Proto)
    requires DmaPart(pr, fifo, dma, addr, x, mem, src)
    requires pr' == pr.(state := pr'.state, configPending := pr'.configPending, inputDone := pr'.inputDone, cmd := pr'.cmd)
    requires pr.state == Idle <==> pr'.state == Idle
    requires pr.dataWrite || pr.len == 0 || (pr.state == ReadStream <==> pr'.state == ReadStream)
    ensures DmaPart(pr', fifo, dma, addr, x, mem, src)
  {
  }

  /** A sent word leaves the FIFO in order. */
  lemma SentFromFifo(pr: Proto, fifo: seq<Word>, dma: Dma, addr: nat, x: Axi, mem: seq<Word>, src: seq<Word>, st: CtlState)
    requires DmaPart(pr, fifo, dma, addr, x, mem, src) && pr.dataWrite && pr.state == WriteStream && fifo != []
    requires pr.off < pr.len && st != Idle
    ensures pr.off < |src| && fifo[0] == src[pr.off]
    ensures DmaPart(pr.(off := pr.off + 1, state := st), fifo[1..], dma, addr, x, mem, src)
  {
    hide InMemory, BurstOk, Buf, Fetching;
    assert fifo[1..] == src[pr.off + 1..Fetched(dma)];
  }

  // ----- starting a command -----

  lemma StartsLink(pr: Proto, pr': Proto, card: Card, q: seq<CmdPkt>, d: seq<DataPkt>, src: seq<Word>, src': seq<Word>, image: seq<Word>)
    requires LinkPart(pr, card, q, d, src, image) && pr.state == Idle
    requires pr' == Proto(if pr'.dataWrite then WritePrefetch else SendCmd, pr'.dataWrite, pr'.len, 0, false, pr.configPending, pr.cmd)
    requires pr'.dataWrite ==> pr'.len > 0
    ensures LinkPart(pr', card, q, d, src', image)
  {
  }

  lemma StartsDma(pr: Proto, pr': Proto, fifo: seq<Word>, dma: Dma, addr: nat, x: Axi, mem: seq<Word>, src: seq<Word>, src': seq<Word>)
    requires DmaPart(pr, fifo, dma, addr, x, mem, src) && pr.state == Idle
    requires pr' == Proto(if pr'.dataWrite then WritePrefetch else SendCmd, pr'.dataWrite, pr'.len, 0, false, pr.configPending, pr.cmd)
    requires pr'.len > 0 ==> addr % 4 == 0 && addr < U32 && pr'.len <= MAX_DATA_SIZE / 4
    requires |mem| == MEM_WORDS && (pr'.dataWrite ==> src' == BufferWords(mem, addr, pr'.len))
    ensures DmaPart(pr', [], Dma(DIdle, 0, 0, dma.burst, dma.beat), addr, x, mem, src')
  {
  }

  // ----- the card -----

  /** The cards differ in presence, configuration and status only. */
  predicate SameWork(card: Card, card': Card)
  {
    && card'.st == card.st && card'.len == card.len && card'.off == card.off && card'.imgOff == card.imgOff
    && card'.write == card.write && card'.regular == card.regular && card'.buf == card.buf && card'.error == card.error
    && card'.cmd == card.cmd && card'.app == card.app
  }

  /** Presence, configuration and status do not affect a transfer under way. */
  lemma CardStatus(pr: Proto, card: Card, card': Card, q: seq<CmdPkt>, d: seq<DataPkt>, src: seq<Word>, image: seq<Word>)
    requires LinkPart(pr, card, q, d, src, image) && SameWork(card, card')
    ensures LinkPart(pr, card', q, d, src, image)
  {
  }

  /** Configuration only ever reaches an idle card. */
  lemma CardTakesConfig(pr: Proto, card: Card, q: seq<CmdPkt>, d: seq<DataPkt>, src: seq<Word>, image: seq<Word>)
    requires LinkPart(pr, card, q, d, src, image) && q != [] && q[0].Config?
    ensures card.st == CIdle
    ensures LinkPart(pr, card, q[1..], d, src, image)
  {
    if |q| > 1 {
      assert q[1..][..|q| - 2] == q[..|q| - 1][1..];
    }
  }

  /** A command only ever reaches an idle card, and it is the one the controller latched. */
  lemma CardTakesCommand(pr: Proto, card: Card, card': Card, q: seq<CmdPkt>, d: seq<DataPkt>, src: seq<Word>, src': seq<Word>,
                         image: seq<Word>)
    requires LinkPart(pr, card, q, d, src, image) && q != [] && q[0].Command?
    ensures card.st == CIdle && pr.state == WaitRsp && Matches(q[0], pr) && q[1..] == []
    ensures pr.len == 0 ==> !pr.dataWrite
    ensures card'.st == CSendResponse && (!card'.error ==> Agreed(pr, card', src', image) && card'.off == 0) ==>
              LinkPart(pr, card', q[1..], d, src', image)
  {
  }

  lemma NewSource(pr: Proto, fifo: seq<Word>, dma: Dma, addr: nat, x: Axi, mem: seq<Word>, src: seq<Word>, src': seq<Word>)
    requires DmaPart(pr, fifo, dma, addr, x, mem, src) && pr.state == WaitRsp
    ensures pr.dataWrite ==> |src| == pr.len || pr.len == 0
    ensures !pr.dataWrite ==> DmaPart(pr, fifo, dma, addr, x, mem, src')
  {
  }

  lemma CardAnswers(pr: Proto, card: Card, q: seq<CmdPkt>, d: seq<DataPkt>, src: seq<Word>, image: seq<Word>)
    requires LinkPart(pr, card, q, d, src, image) && card.st == CSendResponse
    ensures pr.state == WaitRsp
    ensures LinkPart(pr, card.(st := if card.error || card.len == 0 then CIdle
                                     else if card.write then CRecvWriteData else CSendReadData),
                     q, d + [Response(card.error)], src, image)
  {
    hide InImage;
    assert (d + [Response(card.error)])[1..] == [];
  }

  lemma CardSendsWord(pr: Proto, card: Card, q: seq<CmdPkt>, d: seq<DataPkt>, src: seq<Word>, image: seq<Word>)
    requires LinkPart(pr, card, q, d, src, image) && card.st == CSendReadData
    ensures card.off < card.len == |card.buf|
    ensures LinkPart(pr, card.(off := card.off + 1, st := if card.off + 1 == card.len then CIdle else CSendReadData),
                     q, d + [ReadData(card.buf[card.off], card.off + 1 == card.len)], src, image)
  {
    hide InImage;
    var d' := d + [ReadData(card.buf[card.off], card.off + 1 == card.len)];
    if pr.state == WaitRsp {
      assert d'[1..] == d[1..] + [ReadData(card.buf[card.off], card.off + 1 == card.len)];
    }
  }

  /** The image after the card stores its buffer. */
  function Stored(image: seq<Word>, imgOff: nat, words: seq<Word>): (image': seq<Word>)
    requires imgOff + |words| <= |image|
    ensures |image'| == |image|
    ensures forall j | 0 <= j < |image| ::
              image'[j] == if imgOff <= j < imgOff + |words| then words[j - imgOff] else image[j]
  {
    image[..imgOff] + words + image[imgOff + |words|..]
  }

  /** A data word only ever reaches a card that expects it, in order and with the right last flag. */
  lemma CardTakesWord(pr: Proto, card: Card, q: seq<CmdPkt>, d: seq<DataPkt>, src: seq<Word>, image: seq<Word>)
    requires LinkPart(pr, card, q, d, src, image) && q != [] && q[0].WriteData?
    ensures card.st == CRecvWriteData && card.off < card.len == |card.buf| && q[0].last == (card.off + 1 == card.len)
    ensures card.imgOff + card.len <= |image|
    ensures pr.len > 0 && pr.dataWrite && pr.state != Idle && card.regular && card.write && card.cmd == pr.cmd && card.len == pr.len
    ensures Serves(card)
    ensures q[0].last ==> pr.state == WaitWriteDone && card.buf[card.off := q[0].data] == src
    ensures var buf' := card.buf[card.off := q[0].data];
            if q[0].last then
              LinkPart(pr, card.(buf := buf', off := card.off + 1, st := CSendWriteDone, error := false), q[1..], d, src,
                       Stored(image, card.imgOff, buf'))
            else
              LinkPart(pr, card.(buf := buf', off := card.off + 1), q[1..], d, src, image)
  {
    hide Answered, ReadLink;
    assert |q| > 1 ==> q[..|q| - 1][0] == q[0];
    var buf' := card.buf[card.off := q[0].data];
    if q[0].last {
      assert pr.state == WaitWriteDone && q[1..] == [];
      assert buf' == src;
      var image' := Stored(image, card.imgOff, buf');
      assert image'[card.imgOff..card.imgOff + |src|] == src;
    }
  }

  lemma CardAcknowledges(pr: Proto, card: Card, q: seq<CmdPkt>, d: seq<DataPkt>, src: seq<Word>, image: seq<Word>)
    requires LinkPart(pr, card, q, d, src, image) && card.st == CSendWriteDone
    ensures LinkPart(pr, card.(st := CIdle), q, d + [WriteDone(card.error)], src, image)
  {
  }

  // ----- what the card accepts -----

  predicate ValidShape(c: CmdPkt)
    requires c.Command?
  {
    || (!c.dataPresent && c.dataLen == 0 && !c.write)
    || (c.dataPresent && c.dataLen != 0 && c.dataLen <= MAX_DATA_SIZE && c.dataLen % 4 == 0)
  }

  /** The block range of a block command lies in the image. */
  predicate RangeOk(c: CmdPkt, imageBytes: nat)
    requires c.Command?
  {
    && c.blockSize != 0 && c.blockCount != 0
    && c.blockSize * c.blockCount == c.dataLen && c.dataLen <= MAX_DATA_SIZE
    && (c.opcode == 17 || c.opcode == 24 ==> c.blockCount == 1)
    && c.arg * SECTOR_SIZE <= imageBytes && c.dataLen <= imageBytes - c.arg * SECTOR_SIZE
  }

  predicate AcceptsApp(c: CmdPkt)
    requires c.Command?
  {
    match c.opcode
    case 13 => c.dataLen == 64 && !c.write
    case 23 => c.dataLen == 0
    case 41 => c.dataLen == 0
    case 51 => c.dataLen == 8 && !c.write
    case _ => false
  }

  predicate AcceptsCmd(c: CmdPkt, imageBytes: nat, readOnly: bool)
    requires c.Command?
  {
    match c.opcode
    case 0 => c.dataLen == 0
    case 6 => c.dataLen == 64 && !c.write
    case 8 => c.dataLen == 0
    case 9 => c.dataLen == 16 && !c.write
    case 10 => c.dataLen == 16 && !c.write
    case 12 => c.dataLen == 0
    case 13 => c.dataLen == 0
    case 16 => 0 < c.arg <= SECTOR_SIZE && c.dataLen == 0
    case 17 => !c.write && RangeOk(c, imageBytes)
    case 18 => !c.write && RangeOk(c, imageBytes)
    case 23 => c.dataLen == 0
    case 24 => c.write && RangeOk(c, imageBytes) && !readOnly
    case 25 => c.write && RangeOk(c, imageBytes) && !readOnly
    case 55 => c.dataLen == 0
    case 58 => c.dataLen == 0
    case 59 => c.dataLen == 0
    case _ => false
  }

  /** Only block writes carry data to the card, and their range lies in the image. */
  lemma AcceptedShape(c: CmdPkt, app: bool, imageBytes: nat, readOnly: bool)
    requires c.Command? && ValidShape(c)
    requires if app then AcceptsApp(c) else AcceptsCmd(c, imageBytes, readOnly)
    ensures c.write ==> !app && Block(c)
    ensures !app && Block(c) ==> c.blockSize * c.blockCount == c.dataLen
    ensures !app && Block(c) ==> c.arg * SECTOR_WORDS + c.dataLen / 4 <= imageBytes / 4 && c.dataLen > 0
  {
  }

  /** Whether the card accepts a command in its present state. */
  predicate Accepts(card: Card, c: CmdPkt, imageBytes: nat)
    requires c.Command?
  {
    && card.enabled && card.present && ValidShape(c)
    && if AppCommand(card, c) then AcceptsApp(c) else AcceptsCmd(c, imageBytes, card.readOnly)
  }

  /** An application command follows CMD55; CMD55 itself never is one. */
  predicate AppCommand(card: Card, c: CmdPkt) requires c.Command? { card.appCmd && c.opcode != 55 }

  /** The card after it has looked at a command.  `words` stands for what its buffer holds when
      the command does not read the image: a register image, or leftovers before a write. */
  function Prepare(card: Card, c: CmdPkt, image: seq<Word>, imageBytes: nat, words: seq<Word>): (card': Card)
    requires c.Command?
  {
    var looked := card.enabled && card.present && ValidShape(c);
    var app := AppCommand(card, c);
    var ok := Accepts(card, c, imageBytes);
    var len := if c.dataPresent then c.dataLen / 4 else 0;
    var regular := !app && Block(c);
    var imgOff := if ok && regular then c.arg * SECTOR_WORDS else card.imgOff;
    card.(st := CSendResponse, len := len, off := 0, write := c.dataPresent && c.write, regular := regular,
          imgOff := imgOff, error := !ok, cmd := c, app := app,
          buf := if ok && regular && !c.write && imgOff + len <= |image| then image[imgOff..imgOff + len] else words,
          idle := if !looked then card.idle
                  else if app then card.idle && c.opcode != 41 else card.idle || c.opcode == 0,
          appCmd := if !looked then card.appCmd else if app then false else c.opcode == 55 || (card.appCmd && c.opcode != 0))
  }

  /** The words the transfer moves, once the card has answered. */
  function Source(card': Card, src: seq<Word>): seq<Word>
  {
    if !card'.error && card'.len > 0 && !card'.write then card'.buf else src
  }

  /** An accepted command leaves controller and card agreed on the transfer. */
  lemma Prepared(pr: Proto, card: Card, c: CmdPkt, src: seq<Word>, image: seq<Word>, imageBytes: nat, words: seq<Word>)
    requires Matches(c, pr) && |image| == imageBytes / 4 && |words| == pr.len
    requires pr.len == 0 ==> !pr.dataWrite
    requires pr.dataWrite ==> |src| == pr.len
    ensures var card' := Prepare(card, c, image, imageBytes, words);
            card'.st == CSendResponse && (!card'.error ==> Agreed(pr, card', Source(card', src), image) && card'.off == 0)
  {
    var card' := Prepare(card, c, image, imageBytes, words);
    if !card'.error {
      AcceptedShape(c, AppCommand(card, c), imageBytes, card.readOnly);
    }
  }

  /** The whole step of taking a command off the link. */
  lemma CommandStep(pr: Proto, card: Card, q: seq<CmdPkt>, d: seq<DataPkt>, src: seq<Word>, image: seq<Word>,
                    fifo: seq<Word>, dma: Dma, addr: nat, x: Axi, mem: seq<Word>, imageBytes: nat, words: seq<Word>)
    requires LinkPart(pr, card, q, d, src, image) && DmaPart(pr, fifo, dma, addr, x, mem, src)
    requires q != [] && q[0].Command? && |image| == imageBytes / 4
    requires |words| == if q[0].dataPresent then q[0].dataLen / 4 else 0
    ensures card.st == CIdle && pr.state == WaitRsp
    ensures var card' := Prepare(card, q[0], image, imageBytes, words);
            !card'.error ==> |card'.buf| == card'.len && Serves(card')
                             && (card'.regular && !card'.write ==> InImage(image, card'.imgOff, card'.buf))
    ensures var card' := Prepare(card, q[0], image, imageBytes, words);
            && LinkPart(pr, card', q[1..], d, Source(card', src), image)
            && DmaPart(pr, fifo, dma, addr, x, mem, Source(card', src))
  {
    var card' := Prepare(card, q[0], image, imageBytes, words);
    CardTakesCommand(pr, card, card', q, d, src, Source(card', src), image);
    hide LinkPart, DmaPart, Prepare;
    NewSource(pr, fifo, dma, addr, x, mem, src, Source(card', src));
    Prepared(pr, card, q[0], src, image, imageBytes, words);
    PreparedWrite(card, q[0], image, imageBytes, words);
  }

  lemma PreparedWrite(card: Card, c: CmdPkt, image: seq<Word>, imageBytes: nat, words: seq<Word>)
    requires c.Command? && |image| == imageBytes / 4
    ensures Prepare(card, c, image, imageBytes, words).write == (c.dataPresent && c.write)
  {
  }
}
