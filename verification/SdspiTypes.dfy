/** Data of the SD-SPI controller, its card and the memory behind its DMA port.

    A data phase only ever moves whole words: the controller refuses a buffer address or a
    length that is not a multiple of four.  Offsets, bursts, the card's buffer and its image
    are therefore counted in words. */
module SdspiTypes {
  import opened DivMod
  import opened Words

  const FIFO_WORDS: nat := 64
  const PREFETCH_WORDS: nat := 16
  const MAX_BURST_BEATS: nat := 16
  const MAX_DATA_SIZE: nat := 65536
  const SECTOR_SIZE: nat := 512
  const SECTOR_WORDS: nat := 128
  const MEM_WORDS: nat := 0x4000_0000
  const U32: nat := 0x1_0000_0000

  // ----- controller -----

  datatype CtlState = Idle | WritePrefetch | SendCmd | WaitRsp | ReadStream | WriteStream | WaitWriteDone

  datatype DmaState = DIdle | ToMemAw | ToMemW | ToMemB | SyncAr | SyncR | FromMemAr | FromMemR

  /** The protocol side: `off` words have crossed the link of `len`; `cmd` is the command last sent. */
  datatype Proto = Proto(
    state: CtlState, dataWrite: bool, len: nat, off: nat, inputDone: bool, configPending: bool, cmd: CmdPkt)

  /** The DMA side: `off` words (and in the read-back pass `sync` words) are done; the current
      burst has `burst` beats, `beat` of which have passed. */
  datatype Dma = Dma(st: DmaState, off: nat, sync: nat, burst: nat, beat: nat)

  /** Software-visible registers. */
  datatype Regs = Regs(
    enable: bool, cmdArg: nat, opcode: nat, dmaAddr: nat, blockSize: nat, blockCount: nat, cardPresent: bool)

  // ----- packets between controller and card -----

  datatype CmdPkt =
    | Command(opcode: nat, arg: nat, dataPresent: bool, write: bool, blockSize: nat, blockCount: nat, dataLen: nat)
    | WriteData(data: Word, last: bool)
    | Config(enable: bool)

  datatype DataPkt =
    | Status(present: bool)
    | Response(error: bool)
    | ReadData(data: Word, last: bool)
    | WriteDone(error: bool)

  // ----- card -----

  datatype CardState = CIdle | CSendResponse | CSendReadData | CRecvWriteData | CSendWriteDone

  /** `regular` marks the block commands 17, 18, 24 and 25, whose data is a stretch of the image;
      `cmd` is the command last taken, `app` whether it was taken as an application command. */
  datatype Card = Card(
    st: CardState, len: nat, off: nat, imgOff: nat, write: bool, regular: bool, buf: seq<Word>, error: bool,
    enabled: bool, present: bool, readOnly: bool, idle: bool, appCmd: bool, statusPending: bool,
    cmd: CmdPkt, app: bool)

  predicate Block(c: CmdPkt) requires c.Command? { c.opcode == 17 || c.opcode == 18 || c.opcode == 24 || c.opcode == 25 }

  // ----- DMA port -----

  datatype Req = Req(word: nat, beats: nat)
  datatype Beat = Beat(data: Word, last: bool)

  /** In-flight AXI traffic: `applied` beats of `aw[0]` are stored, `served` beats of `ar[0]` returned. */
  datatype Axi = Axi(
    aw: seq<Req>, w: seq<Beat>, applied: nat, b: nat, ar: seq<Req>, served: nat, r: seq<Beat>)

  const QUIET := Axi([], [], 0, 0, [], 0, [])

  /** Memory word of the `j`-th word of a DMA buffer (addresses wrap at 2^32). */
  function Buf(addr: nat, j: nat): (w: nat)
    ensures w < MEM_WORDS
  {
    (addr / 4 + j) % MEM_WORDS
  }

  lemma BufInjective(addr: nat, i: nat, j: nat)
    requires i < MEM_WORDS && j < MEM_WORDS && Buf(addr, i) == Buf(addr, j)
    ensures i == j
  {
  }

  lemma BufStep(addr: nat, off: nat, k: nat)
    ensures (Buf(addr, off) + k) % MEM_WORDS == Buf(addr, off + k)
  {
  }

  // ----- bursts -----

  /** What remains, cut at the end of the page (`page` is the offset in it) and at `maxBeats`. */
  function Cut(page: nat, remaining: nat, maxBeats: nat): (bytes: nat)
    requires page < 0x1000
  {
    var boundary := 0x1000 - page;
    var bytes := if remaining > boundary then boundary else remaining;
    if bytes > 4 * maxBeats then 4 * maxBeats else bytes
  }

  /** Bytes of the next burst. */
  function BurstBytes(addr: nat, len: nat, off: nat, maxBeats: nat): (bytes: nat)
    requires off < len && maxBeats > 0
  {
    Cut((addr + 4 * off) % U32 % 0x1000, 4 * len - 4 * off, maxBeats)
  }

  /** A burst of `beats` words at `off`: inside the transfer, at most 16 beats, word aligned and
      within one 4 KB page. */
  predicate BurstOk(addr: nat, len: nat, off: nat, beats: nat)
  {
    && 1 <= beats <= MAX_BURST_BEATS && off + beats <= len
    && addr % 4 == 0
    && (addr + 4 * off) % 0x1000 + 4 * beats <= 0x1000
  }

  /** Wrapping at 2^32 does not change the place in the page. */
  lemma PageOffset(a: nat)
    requires a % 4 == 0
    ensures a % U32 % 0x1000 == a % 0x1000 && a % 0x1000 % 4 == 0
  {
    var q, t, m := a / U32, a % U32 / 0x1000, a % U32 % 0x1000;
    DivModUnique(0x10_0000 * q + t, m, 0x1000);
    assert a == (0x10_0000 * q + t) * 0x1000 + m;
  }

  lemma CutOk(page: nat, left: nat, maxBeats: nat)
    requires page < 0x1000 && page % 4 == 0 && left > 0 && 0 < maxBeats <= MAX_BURST_BEATS
    ensures var bytes := Cut(page, 4 * left, maxBeats);
            && bytes % 4 == 0 && 1 <= bytes / 4 <= maxBeats && bytes / 4 <= left && page + bytes <= 0x1000
  {
  }

  lemma BurstBytesOk(addr: nat, len: nat, off: nat, maxBeats: nat)
    requires off < len && 0 < maxBeats <= MAX_BURST_BEATS && addr % 4 == 0
    ensures BurstBytes(addr, len, off, maxBeats) % 4 == 0
    ensures BurstOk(addr, len, off, BurstBytes(addr, len, off, maxBeats) / 4)
    ensures BurstBytes(addr, len, off, maxBeats) / 4 <= maxBeats
  {
    PageOffset(addr + 4 * off);
    CutOk((addr + 4 * off) % 0x1000, len - off, maxBeats);
    hide Cut;
    assert 4 * (len - off) == 4 * len - 4 * off;
  }

  /** Consecutive stretches that cover `[0, n)` exactly once, in order. */
  predicate Tiles(s: seq<(nat, nat)>, n: nat)
    decreases |s|
  {
    if s == [] then n == 0
    else
      var (off, beats) := s[|s| - 1];
      beats > 0 && off + beats == n && Tiles(s[..|s| - 1], off)
  }

  lemma TilesAppend(s: seq<(nat, nat)>, off: nat, beats: nat)
    requires Tiles(s, off) && beats > 0
    ensures Tiles(s + [(off, beats)], off + beats)
  {
    assert (s + [(off, beats)])[..|s|] == s;
  }

  /** What tiling means: every word lies in exactly one stretch. */
  lemma {:induction false} TilesCover(s: seq<(nat, nat)>, n: nat, j: nat)
    requires Tiles(s, n) && j < n
    ensures exists i :: 0 <= i < |s| && s[i].0 <= j < s[i].0 + s[i].1
    ensures forall i, i' | 0 <= i < |s| && 0 <= i' < |s| && s[i].0 <= j < s[i].0 + s[i].1 && s[i'].0 <= j < s[i'].0 + s[i'].1 ::
              i == i'
  {
    var last := |s| - 1;
    TilesBelow(s[..last], s[last].0);
    if s[last].0 <= j {
      assert s[last].0 <= j < s[last].0 + s[last].1;
    } else {
      TilesCover(s[..last], s[last].0, j);
      var i :| 0 <= i < last && s[..last][i].0 <= j < s[..last][i].0 + s[..last][i].1;
      assert s[i].0 <= j < s[i].0 + s[i].1;
    }
    forall i, i' | 0 <= i < |s| && 0 <= i' < |s| && s[i].0 <= j < s[i].0 + s[i].1 && s[i'].0 <= j < s[i'].0 + s[i'].1
      ensures i == i'
    {
      if i < last {
        assert s[..last][i] == s[i];
      }
      if i' < last {
        assert s[..last][i'] == s[i'];
      }
    }
  }

  lemma {:induction false} TilesBelow(s: seq<(nat, nat)>, n: nat)
    requires Tiles(s, n)
    ensures forall i | 0 <= i < |s| :: s[i].0 + s[i].1 <= n
  {
    if s != [] {
      var last := |s| - 1;
      TilesBelow(s[..last], s[last].0);
      forall i | 0 <= i < |s|
        ensures s[i].0 + s[i].1 <= n
      {
        if i < last {
          assert s[..last][i] == s[i];
        }
      }
    }
  }
}
