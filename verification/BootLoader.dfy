/** The boot loader: media access, header validation and section loading, with the 32-bit
    arithmetic of the target written out. */
module BootLoader {
  import opened BootFormat

  const FLASH_SIZE: nat := 0x0200_0000
  const FIRMWARE_BASE: nat := 0x4000_0000
  const FIRMWARE_WINDOW: nat := 0x0020_0000
  const STACK_SIZE: nat := 0x2000
  const STACK_ADDR: nat := FIRMWARE_BASE + FIRMWARE_WINDOW - STACK_SIZE
  const DDR_BASE: nat := 0x4000_0000
  const DDR_END: nat := 0x5000_0000
  const DDR_SIZE: nat := DDR_END - DDR_BASE
  const STAGE_ADDR: nat := 0x4fff_0000
  const STAGE_SIZE: nat := 0x1_0000
  const CHUNK: nat := 0x4000
  const SECTOR: nat := 512
  const MAX_BLOCKS: nat := STAGE_SIZE / SECTOR
  const PART_TYPE_RAW: Byte := 0xda

  /** A 32-bit sum that must not wrap. */
  function Sum(a: nat, b: nat): (c: U32)
    requires a + b < U32_END
  {
    a + b
  }

  // ----- ranges -----

  /** `[a, a + m)` and `[b, b + n)` share no address. */
  predicate Disjoint(a: nat, m: nat, b: nat, n: nat) { a + m <= b || b + n <= a }

  predicate Within(x: nat, a: nat, n: nat) { a <= x < a + n }

  predicate RangesOverlap(addr: U32, size: U32, reserved: U32, reservedSize: U32)
    requires addr + size < U32_END && reserved + reservedSize < U32_END
  {
    size != 0 && addr < Sum(reserved, reservedSize) && reserved < Sum(addr, size)
  }

  /** The overlap test is exact for ranges that do not wrap. */
  lemma OverlapExact(addr: U32, size: U32, reserved: U32, reservedSize: U32)
    requires addr + size < U32_END && reserved + reservedSize < U32_END && reservedSize > 0
    ensures RangesOverlap(addr, size, reserved, reservedSize) <==>
            exists x: nat :: Within(x, addr, size) && Within(x, reserved, reservedSize)
  {
    if RangesOverlap(addr, size, reserved, reservedSize) {
      var x: nat := if addr < reserved then reserved else addr;
      assert Within(x, addr, size) && Within(x, reserved, reservedSize);
    }
  }

  function LoadRangeValid(addr: U32, size: U32): (ok: bool)
    ensures ok <==> RangeOk(addr, size)
  {
    if size == 0 then true
    else if addr % 4 != 0 || addr < DDR_BASE || addr >= DDR_END || size > DDR_END - addr then false
    else !RangesOverlap(addr, size, STACK_ADDR, STACK_SIZE) && !RangesOverlap(addr, size, STAGE_ADDR, STAGE_SIZE)
  }

  /** Where a section may go: in DDR, word aligned, clear of the loader's stack and its staging buffer. */
  predicate RangeOk(addr: nat, size: nat)
  {
    var ok :=
    size > 0 ==>
      && addr % 4 == 0 && DDR_BASE <= addr && addr + size <= DDR_END
      && Disjoint(addr, size, STACK_ADDR, STACK_SIZE) && Disjoint(addr, size, STAGE_ADDR, STAGE_SIZE);
    ok
  }

  // ----- sections and headers -----

  datatype Section = Section(load: U32, size: U32)

  function Sections(h: Header): (ss: seq<Section>)
    ensures |ss| == if h.kind == TYPE_BARE then 1 else 4
  {
    var all := [Section(FIRMWARE_BASE, h.firmwareSize), Section(h.kernelLoad, h.kernelSize),
                Section(h.initrdLoad, h.initrdSize), Section(h.dtbLoad, h.dtbSize)];
    if h.kind == TYPE_BARE then all[..1] else all
  }

  function SectionSizes(ss: seq<Section>): (sizes: seq<nat>)
    ensures |sizes| == |ss|
  {
    seq(|ss|, i requires 0 <= i < |ss| => ss[i].size)
  }

  /** Sectors needed for `end` bytes. */
  function SectorsFor(end: nat): nat { (end + SECTOR - 1) / SECTOR }

  /** The checks on the header fields alone. */
  predicate FieldsOk(h: Header)
  {
    && h.kind <= TYPE_LINUX && h.reserved == 0 && h.padding == 0
    && 0 < h.firmwareSize <= FIRMWARE_WINDOW - STACK_SIZE
    && (h.kind == TYPE_BARE ==> h.kernelSize == 0 && h.initrdSize == 0 && h.dtbSize == 0)
  }

  /** What an accepted header promises, in unbounded arithmetic. */
  predicate Acceptable(h: Header, sectors: nat)
  {
    var ss := Sections(h);
    && FieldsOk(h)
    && (forall i | 0 <= i < |ss| :: RangeOk(ss[i].load, ss[i].size))
    && SectionOffset(SectionSizes(ss), |ss|) < U32_END
    && SectorsFor(SectionOffset(SectionSizes(ss), |ss|)) <= sectors
  }

  /** Whether a media range lies in the media, computed in 32 bits. */
  function MediaRangeValid(sectors: U32, offset: U32, size: U32): (ok: bool)
    ensures ok <==> offset + size < U32_END && SectorsFor(offset + size) <= sectors
  {
    if size > 0xffff_ffff - offset then false
    else
      var end := Sum(offset, size);
      var needed := if end == 0 then 0 else (end - 1) / SECTOR + 1;
      needed <= sectors
  }

  lemma Align4Padded(size: U32)
    ensures Align4(size) == Padded(size) % U32_END
    ensures Align4(size) >= size <==> Padded(size) < U32_END
  {
    hide Align4, Padded;
    if size + 3 < U32_END {
      var q := PaddedBlocks(size);
      assert q < 0x4000_0000;
      AlignedLow(size);
    } else {
      AlignedHigh(size);
    }
  }

  lemma PaddedBlocks(size: nat) returns (q: nat)
    ensures Padded(size) == 4 * q && 4 * q <= size + 3 < 4 * q + 4
  {
    q := (size + 3) / 4;
  }

  lemma AlignedLow(size: U32)
    requires size + 3 < U32_END
    ensures Align4(size) == Padded(size) == Padded(size) % U32_END && Align4(size) >= size
  {
    var q := PaddedBlocks(size);
    assert (size + 3) % U32_END == size + 3;
  }

  lemma AlignedHigh(size: U32)
    requires size + 3 >= U32_END
    ensures Align4(size) == 0 == Padded(size) % U32_END && Padded(size) == U32_END && size > 0
  {
    var q := PaddedBlocks(size);
    assert q == 0x4000_0000;
    assert (size + 3) % U32_END == size + 3 - U32_END < 3;
  }

  /** The header check, section by section, with its guards against wrap-around. */
  method HeaderValid(h: Header, sectors: U32) returns (ok: bool)
    ensures ok <==> Acceptable(h, sectors)
  {
    hide RangeOk, LoadRangeValid, SectorsFor, MediaRangeValid, Align4, Padded;
    var total: U32 := HEADER_SIZE;
    if h.kind > TYPE_LINUX || h.reserved != 0 || h.padding != 0 || h.firmwareSize == 0
       || h.firmwareSize > FIRMWARE_WINDOW - STACK_SIZE {
      return false;
    }
    if h.kind == TYPE_BARE && (h.kernelSize != 0 || h.initrdSize != 0 || h.dtbSize != 0) {
      return false;
    }
    var ss := Sections(h);
    ghost var sizes := SectionSizes(ss);
    var i := 0;
    while i < |ss|
      invariant 0 <= i <= |ss| && total == SectionOffset(sizes, i)
      invariant forall k | 0 <= k < i :: RangeOk(ss[k].load, ss[k].size)
    {
      var aligned := Align4(ss[i].size);
      Align4Padded(ss[i].size);
      if !LoadRangeValid(ss[i].load, ss[i].size) || aligned < ss[i].size || aligned > 0xffff_ffff - total {
        BeforeMonotone(sizes, i + 1, |ss|);
        return false;
      }
      total := Sum(total, aligned);
      i := i + 1;
    }
    ok := MediaRangeValid(sectors, 0, total);
  }

  // ----- memory contents -----

  function Put(s: seq<Byte>, at: nat, bytes: seq<Byte>): (s': seq<Byte>)
    requires at + |bytes| <= |s|
    ensures |s'| == |s|
    ensures forall x: nat | x < |s| :: s'[x] == if at <= x < at + |bytes| then bytes[x - at] else s[x]
  {
    s[..at] + bytes + s[at + |bytes|..]
  }

  /** Where an address lies in DDR. */
  function DdrOffset(addr: nat): nat { if addr >= DDR_BASE then addr - DDR_BASE else 0 }

  const STAGE: nat := STAGE_ADDR - DDR_BASE

  predicate InStage(x: nat) { STAGE <= x < STAGE + STAGE_SIZE }

  /** DDR after `bytes` are put at offset `at`: everything else outside the staging buffer is as before. */
  ghost predicate Loads(before: seq<Byte>, after: seq<Byte>, at: nat, bytes: seq<Byte>)
  {
    var ok :=
    && |before| == |after| == DDR_SIZE
    && forall x: nat | x < DDR_SIZE && !InStage(x) ::
         after[x] == if at <= x < at + |bytes| then bytes[x - at] else before[x];
    ok
  }

  /** Only the staging buffer and `[at, at + size)` have changed. */
  ghost predicate Confined(before: seq<Byte>, after: seq<Byte>, at: nat, size: nat)
  {
    var ok :=
    && |before| == |after| == DDR_SIZE
    && forall x: nat | x < DDR_SIZE && !InStage(x) && !(at <= x < at + size) :: after[x] == before[x];
    ok
  }

  lemma LoadsCompose(a: seq<Byte>, b: seq<Byte>, c: seq<Byte>, at: nat, x: seq<Byte>, y: seq<Byte>)
    requires Loads(a, b, at, x) && Loads(b, c, at + |x|, y)
    ensures Loads(a, c, at, x + y)
  {
  }

  /** A destination for loading: in DDR and clear of the staging buffer. */
  predicate Target(addr: nat, size: nat)
  {
    var ok :=
    DDR_BASE <= addr && addr + size <= DDR_END && Disjoint(addr, size, STAGE_ADDR, STAGE_SIZE);
    ok
  }

  datatype MediaResult = MediaOk | ErrRange | ErrIo | ErrSdInit | ErrMbrRead | ErrMbrSignature | ErrPartType | ErrPartRange

  datatype LoadResult = LoadOk | ErrHeaderRead | ErrHeaderInvalid | ErrSectionRead(section: nat)

  datatype Kind = Qspi | SdCard

  /** A block read of the card. */
  datatype BlockRead = BlockRead(lba: nat, blocks: nat)

  /** Every block read from index `from` on lies in the partition and fits the staging buffer. */
  ghost predicate InPartition(issued: seq<BlockRead>, from: nat, startLba: nat, sectors: nat)
  {
    var ok :=
    forall i | from <= i < |issued| ::
      && startLba <= issued[i].lba && issued[i].lba + issued[i].blocks <= startLba + sectors
      && 0 < issued[i].blocks <= MAX_BLOCKS;
    ok
  }

  lemma NoReads(issued: seq<BlockRead>, startLba: nat, sectors: nat)
    ensures InPartition(issued, |issued|, startLba, sectors)
  {
  }

  lemma OneRead(issued: seq<BlockRead>, lba: nat, blocks: nat, startLba: nat, sectors: nat)
    requires startLba <= lba && lba + blocks <= startLba + sectors && 0 < blocks <= MAX_BLOCKS
    ensures InPartition(issued + [BlockRead(lba, blocks)], |issued|, startLba, sectors)
  {
  }

  lemma TargetPart(addr: nat, size: nat, part: nat)
    requires Target(addr, size) && part <= size
    ensures Target(addr, part) && DDR_BASE <= addr && addr + part <= DDR_END
  {
  }

  lemma PartitionGrows(a: seq<BlockRead>, b: seq<BlockRead>, c: seq<BlockRead>, startLba: nat, sectors: nat)
    requires a <= b <= c && InPartition(b, |a|, startLba, sectors) && InPartition(c, |b|, startLba, sectors)
    ensures a <= c && InPartition(c, |a|, startLba, sectors)
  {
    forall i | |a| <= i < |b|
      ensures c[i] == b[i]
    {
    }
  }

  /** The blocks of one round of a staged read. */
  lemma RoundBlocks(offset: nat, size: nat, sectors: nat, blocks: nat, copy: nat)
    requires size > 0 && SectorsFor(offset + size) <= sectors
    requires copy == if STAGE_SIZE - offset % SECTOR > size then size else STAGE_SIZE - offset % SECTOR
    requires blocks == (offset % SECTOR + copy + SECTOR - 1) / SECTOR
    ensures 0 < blocks <= MAX_BLOCKS && offset / SECTOR + blocks <= sectors
    ensures 0 < copy && offset % SECTOR + copy <= blocks * SECTOR
  {
  }

  /** The media holds the stretch (a stretch of nothing is always held). */
  predicate Holds(contents: seq<Byte>, offset: nat, size: nat) { size > 0 ==> offset + size <= |contents| }

  /** The stretch of the media at `offset`. */
  function Slice(contents: seq<Byte>, offset: nat, size: nat): (bytes: seq<Byte>)
    ensures Holds(contents, offset, size) ==> |bytes| == size
  {
    if offset + size <= |contents| then contents[offset..offset + size] else []
  }

  lemma SliceIs(s: seq<Byte>, from: nat, offset: nat, size: nat)
    requires from + offset + size <= |s|
    ensures Slice(s[from..], offset, size) == s[from..][offset..offset + size]
  {
  }

  /** The staged sectors contain the wanted stretch of the partition. */
  lemma SectorBytes(card: seq<Byte>, startLba: nat, offset: nat, copied: nat, blocks: nat)
    requires SECTOR * (startLba + offset / SECTOR + blocks) <= |card|
    requires offset % SECTOR + copied <= blocks * SECTOR
    ensures var lba := startLba + offset / SECTOR;
            && SECTOR * startLba + offset + copied <= |card|
            && card[SECTOR * lba..SECTOR * (lba + blocks)][offset % SECTOR..offset % SECTOR + copied]
               == card[SECTOR * startLba..][offset..offset + copied]
  {
    var lba, within := startLba + offset / SECTOR, offset % SECTOR;
    var a := SECTOR * lba + within;
    assert a == SECTOR * startLba + offset;
    SubSlice(card, SECTOR * lba, SECTOR * (lba + blocks), within, within + copied);
    SubSlice(card, SECTOR * startLba, |card|, offset, offset + copied);
    assert card[SECTOR * startLba..] == card[SECTOR * startLba..|card|];
  }

  lemma SubSlice(s: seq<Byte>, lo: nat, hi: nat, i: nat, j: nat)
    requires lo <= hi <= |s| && i <= j <= hi - lo
    ensures s[lo..hi][i..j] == s[lo + i..lo + j]
  {
    assert forall k | 0 <= k < j - i :: s[lo..hi][i..j][k] == s[lo + i..lo + j][k];
  }

  lemma PutNothing(s: seq<Byte>, at: nat, bytes: seq<Byte>)
    requires at <= |s| && bytes == []
    ensures Put(s, at, bytes) == s
  {
  }

  /** A copy in pieces. */
  lemma PutMore(s: seq<Byte>, at: nat, bytes: seq<Byte>, done: nat, n: nat)
    requires done + n <= |bytes| && at + |bytes| <= |s|
    ensures Put(Put(s, at, bytes[..done]), at + done, bytes[done..done + n]) == Put(s, at, bytes[..done + n])
  {
  }

  /** Stores outside the staging buffer leave it alone. */
  lemma StageKept(s: seq<Byte>, at: nat, bytes: seq<Byte>, lo: nat, hi: nat)
    requires |s| == DDR_SIZE && at + |bytes| <= DDR_SIZE && STAGE <= lo <= hi <= STAGE + STAGE_SIZE
    requires Disjoint(at, |bytes|, STAGE, STAGE_SIZE)
    ensures Put(s, at, bytes)[lo..hi] == s[lo..hi]
  {
  }

  lemma LoadsNothing(ddr: seq<Byte>, at: nat)
    requires |ddr| == DDR_SIZE
    ensures Loads(ddr, ddr, at, []) && forall c, offset :: Slice(c, offset, 0) == []
  {
  }

  lemma PutLoads(s: seq<Byte>, at: nat, bytes: seq<Byte>)
    requires |s| == DDR_SIZE && at + |bytes| <= DDR_SIZE
    ensures Loads(s, Put(s, at, bytes), at, bytes)
  {
  }

  lemma LoadsAfterStage(a: seq<Byte>, b: seq<Byte>, c: seq<Byte>, at: nat, x: seq<Byte>)
    requires Loads(a, b, 0, []) && Loads(b, c, at, x)
    ensures Loads(a, c, at, x)
  {
  }

  /** A round puts the wanted stretch of the partition in place. */
  lemma RoundLoads(before: seq<Byte>, staged: seq<Byte>, after: seq<Byte>, card: seq<Byte>, startLba: nat, offset: nat,
                   copied: nat, blocks: nat, at: nat)
    requires Loads(before, staged, 0, []) && |staged| == DDR_SIZE && blocks <= MAX_BLOCKS && at + copied <= DDR_SIZE
    requires offset % SECTOR + copied <= blocks * SECTOR
    requires SECTOR * (startLba + offset / SECTOR + blocks) <= |card|
    requires staged[STAGE..STAGE + SECTOR * blocks] ==
             card[SECTOR * (startLba + offset / SECTOR)..SECTOR * (startLba + offset / SECTOR + blocks)]
    requires after == Put(staged, at, staged[STAGE + offset % SECTOR..STAGE + offset % SECTOR + copied])
    ensures SECTOR * startLba + offset + copied <= |card|
    ensures Loads(before, after, at, Slice(card[SECTOR * startLba..], offset, copied))
  {
    hide Loads, Put, Slice;
    var within := offset % SECTOR;
    SectorBytes(card, startLba, offset, copied, blocks);
    SubSlice(staged, STAGE, STAGE + SECTOR * blocks, within, within + copied);
    SliceIs(card, SECTOR * startLba, offset, copied);
    var bytes := Slice(card[SECTOR * startLba..], offset, copied);
    assert staged[STAGE + within..STAGE + within + copied] == bytes;
    PutLoads(staged, at, bytes);
    LoadsAfterStage(before, staged, after, at, bytes);
  }

  lemma LoadsConfined(a: seq<Byte>, b: seq<Byte>, at: nat, x: seq<Byte>, size: nat)
    requires Loads(a, b, at, x) && |x| <= size
    ensures Confined(a, b, at, size)
  {
  }

  lemma ConfinedAfter(a: seq<Byte>, b: seq<Byte>, c: seq<Byte>, at: nat, x: seq<Byte>, size: nat)
    requires Loads(a, b, at, x) && Loads(b, c, 0, []) && |x| <= size
    ensures Confined(a, c, at, size)
  {
  }

  lemma ConfinedInside(a: seq<Byte>, b: seq<Byte>, c: seq<Byte>, at: nat, x: seq<Byte>, more: nat, size: nat)
    requires Loads(a, b, at, x) && Confined(b, c, at + |x|, more) && |x| + more <= size
    ensures Confined(a, c, at, size)
  {
  }

  /** Two stretches in a row make one. */
  lemma LoadsMore(a: seq<Byte>, b: seq<Byte>, c: seq<Byte>, at: nat, contents: seq<Byte>, offset: nat, done: nat, more: nat)
    requires Holds(contents, offset, done) && Loads(a, b, at, Slice(contents, offset, done))
    requires more > 0 && Holds(contents, offset + done, more) && Loads(b, c, at + done, Slice(contents, offset + done, more))
    ensures Loads(a, c, at, Slice(contents, offset, done + more))
  {
    var x, y := Slice(contents, offset, done), Slice(contents, offset + done, more);
    assert x + y == Slice(contents, offset, done + more);
    LoadsCompose(a, b, c, at, x, y);
  }

  // ----- final contents -----

  predicate Covers(s: Section, x: nat) { s.load <= DDR_BASE + x < s.load + s.size }

  /** The byte at `x` once the first `k` sections are in place: the last one that covers `x` decides. */
  ghost function Expected(before: seq<Byte>, ss: seq<Section>, contents: seq<Byte>, k: nat, x: nat): (b: Byte)
    requires k <= |ss| && x < |before|
  {
    if k == 0 then before[x]
    else
      var at := SectionOffset(SectionSizes(ss), k - 1) + DDR_BASE + x - ss[k - 1].load;
      if Covers(ss[k - 1], x) && at < |contents| then contents[at] else Expected(before, ss, contents, k - 1, x)
  }

  ghost predicate Placed(before: seq<Byte>, after: seq<Byte>, ss: seq<Section>, contents: seq<Byte>, k: nat)
    requires k <= |ss|
  {
    && |before| == |after| == DDR_SIZE
    && forall x: nat | x < DDR_SIZE && !InStage(x) :: after[x] == Expected(before, ss, contents, k, x)
  }

  /** Only the staging buffer, the header structure at `hdr` and the sections have changed. */
  ghost predicate Untouched(before: seq<Byte>, after: seq<Byte>, ss: seq<Section>, hdr: nat)
  {
    && |before| == |after| == DDR_SIZE
    && forall x: nat | x < DDR_SIZE && !InStage(x) && !(hdr <= DDR_BASE + x < hdr + HEADER_SIZE)
                       && (forall i | 0 <= i < |ss| :: !Covers(ss[i], x)) :: after[x] == before[x]
  }

  /** One more section in place. */
  lemma PlacedNext(a: seq<Byte>, b: seq<Byte>, c: seq<Byte>, ss: seq<Section>, contents: seq<Byte>, k: nat)
    requires k < |ss| && Placed(a, b, ss, contents, k) && (ss[k].size > 0 ==> DDR_BASE <= ss[k].load)
    requires var at := SectionOffset(SectionSizes(ss), k);
             Holds(contents, at, ss[k].size) && Loads(b, c, DdrOffset(ss[k].load), Slice(contents, at, ss[k].size))
    ensures Placed(a, c, ss, contents, k + 1)
  {
  }

  /** A byte that no section covers is as before. */
  lemma {:induction false} ExpectedUncovered(before: seq<Byte>, ss: seq<Section>, contents: seq<Byte>, k: nat, x: nat)
    requires k <= |ss| && x < |before| && forall i | 0 <= i < k :: !Covers(ss[i], x)
    ensures Expected(before, ss, contents, k, x) == before[x]
  {
    if k > 0 {
      ExpectedUncovered(before, ss, contents, k - 1, x);
    }
  }

  /** A byte that one of the sections covers, and no later one does. */
  lemma {:induction false} ExpectedLast(before: seq<Byte>, ss: seq<Section>, contents: seq<Byte>, k: nat, i: nat, x: nat)
    requires i < k <= |ss| && x < |before| && Covers(ss[i], x) && forall j | i < j < k :: !Covers(ss[j], x)
    requires SectionOffset(SectionSizes(ss), i) + ss[i].size <= |contents|
    ensures Expected(before, ss, contents, k, x) == contents[SectionOffset(SectionSizes(ss), i) + DDR_BASE + x - ss[i].load]
  {
    if i < k - 1 {
      ExpectedLast(before, ss, contents, k - 1, i, x);
    }
  }

  /** The header structure lies in the loader's stack. */
  predicate OnStack(hdr: nat) { STACK_ADDR <= hdr && hdr + HEADER_SIZE <= STACK_ADDR + STACK_SIZE }

  lemma StackTarget(hdr: nat)
    requires OnStack(hdr)
    ensures Target(hdr, HEADER_SIZE) && DDR_BASE <= hdr
  {
  }

  /** DDR with the header in its structure. */
  function WithHeader(before: seq<Byte>, hdr: nat, contents: seq<Byte>): (ddr: seq<Byte>)
    requires |before| == DDR_SIZE && OnStack(hdr) && |contents| >= HEADER_SIZE
    ensures |ddr| == DDR_SIZE
  {
    Put(before, hdr - DDR_BASE, contents[..HEADER_SIZE])
  }

  /** The media holds the first `k` sections. */
  predicate AllHeld(ss: seq<Section>, contents: seq<Byte>, k: nat)
    requires k <= |ss|
  {
    forall i | 0 <= i < k :: Holds(contents, SectionOffset(SectionSizes(ss), i), ss[i].size)
  }

  /** The image is in place: every byte of DDR outside the staging buffer comes from the last
      section that covers it, or else from the header structure or from before. */
  ghost predicate Loaded(before: seq<Byte>, after: seq<Byte>, h: Header, contents: seq<Byte>, hdr: nat)
  {
    && |before| == DDR_SIZE && OnStack(hdr) && |contents| >= HEADER_SIZE
    && AllHeld(Sections(h), contents, |Sections(h)|)
    && Placed(WithHeader(before, hdr, contents), after, Sections(h), contents, |Sections(h)|)
  }

  lemma HeaderUnread(before: seq<Byte>, after: seq<Byte>, hdr: nat)
    requires OnStack(hdr) && Confined(before, after, hdr - DDR_BASE, HEADER_SIZE)
    ensures Untouched(before, after, [], hdr)
  {
  }

  lemma HeaderRange(sectors: U32)
    ensures MediaRangeValid(sectors, 0, HEADER_SIZE) <==> sectors > 0
  {
  }

  /** After the header read: the structure holds the header of the media. */
  lemma HeaderInMemory(before: seq<Byte>, after: seq<Byte>, hdr: nat, contents: seq<Byte>)
    requires OnStack(hdr) && Holds(contents, 0, HEADER_SIZE)
    requires Loads(before, after, hdr - DDR_BASE, Slice(contents, 0, HEADER_SIZE))
    ensures |contents| >= HEADER_SIZE && |after| == DDR_SIZE
    ensures Decode(after[hdr - DDR_BASE..hdr - DDR_BASE + HEADER_SIZE]) == Decode(contents)
    ensures Untouched(before, after, [], hdr)
    ensures forall ss :: Placed(WithHeader(before, hdr, contents), after, ss, contents, 0)
  {
    var s := after[hdr - DDR_BASE..hdr - DDR_BASE + HEADER_SIZE];
    forall i: nat | i < HEADER_SIZE
      ensures s[i] == contents[i]
    {
      var x := hdr - DDR_BASE + i;
      assert !InStage(x) && after[x] == Slice(contents, 0, HEADER_SIZE)[i];
    }
  }

  /** Whatever an accepted section may have written. */
  lemma SectionConfined(before: seq<Byte>, b: seq<Byte>, c: seq<Byte>, ss: seq<Section>, contents: seq<Byte>, hdr: nat, k: nat)
    requires |before| == DDR_SIZE && OnStack(hdr) && |contents| >= HEADER_SIZE && k < |ss|
    requires Placed(WithHeader(before, hdr, contents), b, ss, contents, k)
    requires ss[k].size > 0 ==> DDR_BASE <= ss[k].load
    requires Confined(b, c, DdrOffset(ss[k].load), ss[k].size)
    ensures Untouched(before, c, ss, hdr)
  {
    var d := WithHeader(before, hdr, contents);
    forall x: nat | x < DDR_SIZE && !InStage(x) && !(hdr <= DDR_BASE + x < hdr + HEADER_SIZE)
                    && (forall i | 0 <= i < |ss| :: !Covers(ss[i], x))
      ensures c[x] == before[x]
    {
      ExpectedUncovered(d, ss, contents, k, x);
      assert !Covers(ss[k], x);
    }
  }

  lemma PlacedUntouched(before: seq<Byte>, after: seq<Byte>, ss: seq<Section>, contents: seq<Byte>, hdr: nat)
    requires |before| == DDR_SIZE && OnStack(hdr) && |contents| >= HEADER_SIZE
    requires Placed(WithHeader(before, hdr, contents), after, ss, contents, |ss|)
    ensures Untouched(before, after, ss, hdr)
  {
    forall x: nat | x < DDR_SIZE && !InStage(x) && !(hdr <= DDR_BASE + x < hdr + HEADER_SIZE)
                    && (forall i | 0 <= i < |ss| :: !Covers(ss[i], x))
      ensures after[x] == before[x]
    {
      ExpectedUncovered(WithHeader(before, hdr, contents), ss, contents, |ss|, x);
    }
  }

  /** The stack, but for the header structure, survives loading any acceptable image. */
  lemma StackSurvives(before: seq<Byte>, after: seq<Byte>, h: Header, sectors: nat, hdr: nat, x: nat)
    requires Acceptable(h, sectors) && Untouched(before, after, Sections(h), hdr)
    requires Within(DDR_BASE + x, STACK_ADDR, STACK_SIZE) && !Within(DDR_BASE + x, hdr, HEADER_SIZE)
    ensures after[x] == before[x]
  {
    var ss := Sections(h);
    forall i | 0 <= i < |ss|
      ensures !Covers(ss[i], x)
    {
      assert RangeOk(ss[i].load, ss[i].size);
    }
  }

  /** Every section of an accepted header lies in the media, and its offset never wraps. */
  lemma SectionFits(h: Header, sectors: U32, i: nat)
    requires Acceptable(h, sectors) && i < |Sections(h)|
    ensures var ss, at := Sections(h), SectionOffset(SectionSizes(Sections(h)), i);
            && RangeOk(ss[i].load, ss[i].size) && (ss[i].size > 0 ==> DDR_BASE <= ss[i].load)
            && at < U32_END && MediaRangeValid(sectors, at, ss[i].size)
            && SectionOffset(SectionSizes(ss), i + 1) < U32_END
            && at + Align4(ss[i].size) == SectionOffset(SectionSizes(ss), i + 1)
  {
    hide Sections, FieldsOk, Align4;
    var ss := Sections(h);
    var sizes := SectionSizes(ss);
    BeforeMonotone(sizes, i, |ss|);
    BeforeMonotone(sizes, i + 1, |ss|);
    assert sizes[i] == ss[i].size;
    assert RangeOk(ss[i].load, ss[i].size);
    Align4Padded(ss[i].size);
  }

  /** Every chunk of an accepted section is in range on the media and in memory. */
  lemma ChunkFits(s: Section, offset: U32, loaded: nat, chunk: U32, sectors: U32)
    requires RangeOk(s.load, s.size) && MediaRangeValid(sectors, offset, s.size)
    requires 0 < chunk && loaded + chunk <= s.size
    ensures offset + loaded < U32_END && s.load + loaded < U32_END
    ensures MediaRangeValid(sectors, offset + loaded, chunk)
    ensures Target(s.load + loaded, chunk) && DdrOffset(s.load) + loaded == s.load + loaded - DDR_BASE
  {
  }

  /** A card with one usable raw partition in its first entry. */
  predicate HasPartition(card: seq<Byte>)
    requires |card| >= SECTOR
  {
    && card[510] == 0x55 && card[511] == 0xaa && card[450] == PART_TYPE_RAW
    && ReadLe32(card, 454) > 0 && ReadLe32(card, 458) > 0 && ReadLe32(card, 454) + ReadLe32(card, 458) < U32_END
  }

  // ----- the machine -----

  /** The loader's machine: its media, its view of the boot partition, and DDR. */
  class Machine {
    const kind: Kind
    const flash: seq<Byte>
    const card: seq<Byte>
    /** The card or its controller may fail any access. */
    const faulty: bool

    var startLba: U32
    var sectors: U32
    var ddr: seq<Byte>
    /** Block reads issued so far. */
    var issued: seq<BlockRead>
    /** Reads that an accepted header did not leave in range. */
    var rangeErrors: nat

    ghost predicate Valid()
      reads this
    {
      var ok :=
      && |ddr| == DDR_SIZE && |flash| == FLASH_SIZE
      && startLba + sectors < U32_END
      && (kind == Qspi ==> startLba == 0 && sectors == FLASH_SIZE / SECTOR);
      ok
    }

    /** What the media holds, from the start of the boot partition. */
    ghost function Contents(): seq<Byte>
      reads this
    {
      if kind == Qspi then flash else if SECTOR * startLba <= |card| then card[SECTOR * startLba..] else []
    }

    /** Nothing can fail: the media works and holds the whole partition. */
    ghost predicate Reliable()
      reads this
    {
      kind == SdCard ==> !faulty && SECTOR * (startLba + sectors) <= |card|
    }

    constructor (kind: Kind, flash: seq<Byte>, card: seq<Byte>, faulty: bool, ddr: seq<Byte>)
      requires |ddr| == DDR_SIZE && |flash| == FLASH_SIZE
      ensures this.kind == kind && this.flash == flash && this.card == card && this.faulty == faulty && this.ddr == ddr
      ensures rangeErrors == 0
    {
      this.kind, this.flash, this.card, this.faulty, this.ddr := kind, flash, card, faulty, ddr;
      startLba, sectors, issued, rangeErrors := 0, 0, [], 0;
    }

    /** The card driver: the blocks land in the staging buffer, or the call fails. */
    method ReadBlocks(lba: U32, blocks: nat) returns (ok: bool)
      requires |ddr| == DDR_SIZE && blocks <= MAX_BLOCKS
      modifies `ddr, `issued
      ensures issued == old(issued) + [BlockRead(lba, blocks)]
      ensures Loads(old(ddr), ddr, 0, [])
      ensures !faulty && SECTOR * (lba + blocks) <= |card| ==> ok
      ensures ok ==> SECTOR * (lba + blocks) <= |card|
      ensures ok ==> ddr[STAGE..STAGE + SECTOR * blocks] == card[SECTOR * lba..SECTOR * (lba + blocks)]
    {
      issued := issued + [BlockRead(lba, blocks)];
      var fails: bool := *;
      if (faulty && fails) || SECTOR * (lba + blocks) > |card| {
        return false;
      }
      ddr := Put(ddr, STAGE, card[SECTOR * lba..SECTOR * (lba + blocks)]);
      return true;
    }

    /** Bytes a copy reads: from the staging buffer or from flash. */
    function Source(staged: bool, from: nat, size: nat): (bytes: seq<Byte>)
      reads this
      requires |ddr| == DDR_SIZE && |flash| == FLASH_SIZE && from + size <= if staged then STAGE_SIZE else FLASH_SIZE
    {
      if staged then ddr[STAGE + from..STAGE + from + size] else flash[from..from + size]
    }

    /** Copies word by word while both ends are aligned, then byte by byte. */
    method CopyBytes(staged: bool, from: nat, dst: nat, size: nat)
      requires |ddr| == DDR_SIZE && |flash| == FLASH_SIZE
      requires from + size <= if staged then STAGE_SIZE else FLASH_SIZE
      requires Target(dst, size)
      modifies `ddr
      ensures ddr == Put(old(ddr), dst - DDR_BASE, old(Source(staged, from, size)))
    {
      hide Put;
      ghost var bytes := Source(staged, from, size);
      var at := dst - DDR_BASE;
      var done := 0;
      PutNothing(ddr, at, bytes[..0]);
      while size - done >= 4 && (from + done) % 4 == 0 && (dst + done) % 4 == 0
        invariant 0 <= done <= size && |ddr| == DDR_SIZE
        invariant ddr == Put(old(ddr), at, bytes[..done])
      {
        CopyPiece(old(ddr), staged, from, at, bytes, done, 4);
        ddr := Put(ddr, at + done, Source(staged, from + done, 4));
        done := done + 4;
      }
      while done < size
        invariant 0 <= done <= size && |ddr| == DDR_SIZE
        invariant ddr == Put(old(ddr), at, bytes[..done])
      {
        CopyPiece(old(ddr), staged, from, at, bytes, done, 1);
        ddr := Put(ddr, at + done, Source(staged, from + done, 1));
        done := done + 1;
      }
      assert bytes[..size] == bytes;
    }

    /** The source of a copy does not change under it, and the next piece goes where it belongs. */
    lemma CopyPiece(before: seq<Byte>, staged: bool, from: nat, at: nat, bytes: seq<Byte>, done: nat, n: nat)
      requires |before| == DDR_SIZE && |flash| == FLASH_SIZE && done + n <= |bytes|
      requires from + |bytes| <= if staged then STAGE_SIZE else FLASH_SIZE
      requires at + |bytes| <= DDR_SIZE && Disjoint(at, |bytes|, STAGE, STAGE_SIZE)
      requires bytes == if staged then before[STAGE + from..STAGE + from + |bytes|] else flash[from..from + |bytes|]
      requires ddr == Put(before, at, bytes[..done])
      ensures Source(staged, from + done, n) == bytes[done..done + n]
      ensures Put(ddr, at + done, bytes[done..done + n]) == Put(before, at, bytes[..done + n])
    {
      hide Put;
      PutMore(before, at, bytes, done, n);
      if staged {
        StageKept(before, at, bytes[..done], STAGE + from + done, STAGE + from + done + n);
        SubSlice(before, STAGE + from, STAGE + from + |bytes|, done, done + n);
      } else {
        SubSlice(flash, from, from + |bytes|, done, done + n);
      }
    }

    /** One round of a staged read: the sectors around the next stretch, and the copy out of the buffer. */
    method SdRound(offset: U32, dst: nat, size: U32) returns (ok: bool, copied: nat)
      requires Valid() && kind == SdCard && Target(dst, size) && size > 0
      requires offset + size < U32_END && SectorsFor(offset + size) <= sectors
      modifies `ddr, `issued
      ensures 0 < copied <= size
      ensures |issued| == |old(issued)| + 1 && old(issued) <= issued && InPartition(issued, |old(issued)|, startLba, sectors)
      ensures Reliable() ==> ok
      ensures ok ==> offset + copied <= |Contents()|
      ensures ok ==> Loads(old(ddr), ddr, dst - DDR_BASE, Slice(Contents(), offset, copied))
      ensures !ok ==> Loads(old(ddr), ddr, 0, [])
    {
      hide Loads, Put, InPartition, Slice, SectorsFor, Target;
      var within := offset % SECTOR;
      copied := STAGE_SIZE - within;
      if copied > size {
        copied := size;
      }
      var blocks := (within + copied + SECTOR - 1) / SECTOR;
      RoundBlocks(offset, size, sectors, blocks, copied);
      ok := false;
      if blocks != 0 && blocks <= MAX_BLOCKS {
        ok := ReadBlocks(Sum(startLba, offset / SECTOR), blocks);
      }
      OneRead(old(issued), startLba + offset / SECTOR, blocks, startLba, sectors);
      if ok {
        ghost var staged := ddr;
        TargetPart(dst, size, copied);
        CopyBytes(true, within, dst, copied);
        RoundLoads(old(ddr), staged, ddr, card, startLba, offset, copied, blocks, dst - DDR_BASE);
      }
    }

    /** Reads from the card through the staging buffer, round by round. */
    method SdRead(offset: U32, dst: nat, size: U32) returns (result: MediaResult)
      requires Valid() && kind == SdCard && Target(dst, size)
      requires offset + size < U32_END && SectorsFor(offset + size) <= sectors
      modifies `ddr, `issued
      ensures result == MediaOk || result == ErrIo
      ensures Reliable() ==> result == MediaOk
      ensures old(issued) <= issued && InPartition(issued, |old(issued)|, startLba, sectors)
      ensures Confined(old(ddr), ddr, dst - DDR_BASE, size)
      ensures result == MediaOk ==> Holds(Contents(), offset, size)
      ensures result == MediaOk ==> Loads(old(ddr), ddr, dst - DDR_BASE, Slice(Contents(), offset, size))
    {
      hide Loads, Confined, InPartition, Slice, SectorsFor;
      var done: nat := 0;
      NoReads(issued, startLba, sectors);
      LoadsNothing(ddr, dst - DDR_BASE);
      while done < size
        invariant 0 <= done <= size && |ddr| == DDR_SIZE
        invariant old(issued) <= issued && InPartition(issued, |old(issued)|, startLba, sectors)
        invariant Holds(Contents(), offset, done)
        invariant Loads(old(ddr), ddr, dst - DDR_BASE, Slice(Contents(), offset, done))
      {
        ghost var before, earlier := ddr, issued;
        assert Sum(offset, done) + (size - done) == offset + size;
        var ok, copied := SdRound(Sum(offset, done), dst + done, size - done);
        PartitionGrows(old(issued), earlier, issued, startLba, sectors);
        if !ok {
          ConfinedAfter(old(ddr), before, ddr, dst - DDR_BASE, Slice(Contents(), offset, done), size);
          return ErrIo;
        }
        LoadsMore(old(ddr), before, ddr, dst - DDR_BASE, Contents(), offset, done, copied);
        done := done + copied;
      }
      LoadsConfined(old(ddr), ddr, dst - DDR_BASE, Slice(Contents(), offset, size), size);
      return MediaOk;
    }

    /** Reads a stretch of the media. */
    method MediaRead(offset: U32, dst: nat, size: U32) returns (result: MediaResult)
      requires Valid() && Target(dst, size)
      modifies `ddr, `issued
      ensures result == ErrRange <==> !MediaRangeValid(sectors, offset, size)
      ensures result == MediaOk || result == ErrRange || result == ErrIo
      ensures result == ErrIo ==> !Reliable()
      ensures old(issued) <= issued && InPartition(issued, |old(issued)|, startLba, sectors)
      ensures Confined(old(ddr), ddr, dst - DDR_BASE, size)
      ensures result == MediaOk ==> Holds(Contents(), offset, size)
      ensures result == MediaOk ==> Loads(old(ddr), ddr, dst - DDR_BASE, Slice(Contents(), offset, size))
    {
      if !MediaRangeValid(sectors, offset, size) {
        return ErrRange;
      }
      if kind == Qspi {
        CopyBytes(false, offset, dst, size);
        return MediaOk;
      }
      result := SdRead(offset, dst, size);
    }

    /** Loads one section in chunks. */
    method LoadSection(s: Section, offset: U32) returns (ok: bool)
      requires Valid() && RangeOk(s.load, s.size) && MediaRangeValid(sectors, offset, s.size)
      modifies `ddr, `issued, `rangeErrors
      ensures rangeErrors == old(rangeErrors) && |ddr| == DDR_SIZE
      ensures !ok ==> !Reliable()
      ensures old(issued) <= issued && InPartition(issued, |old(issued)|, startLba, sectors)
      ensures Confined(old(ddr), ddr, DdrOffset(s.load), s.size)
      ensures ok ==> Holds(Contents(), offset, s.size)
      ensures ok ==> Loads(old(ddr), ddr, DdrOffset(s.load), Slice(Contents(), offset, s.size))
    {
      hide Loads, Confined, InPartition, Slice, SectorsFor, RangeOk;
      NoReads(issued, startLba, sectors);
      var loaded: nat := 0;
      LoadsNothing(ddr, DdrOffset(s.load));
      while loaded < s.size
        invariant 0 <= loaded <= s.size && |ddr| == DDR_SIZE && rangeErrors == old(rangeErrors)
        invariant old(issued) <= issued && InPartition(issued, |old(issued)|, startLba, sectors)
        invariant Holds(Contents(), offset, loaded)
        invariant Loads(old(ddr), ddr, DdrOffset(s.load), Slice(Contents(), offset, loaded))
      {
        var chunk := s.size - loaded;
        if chunk > CHUNK {
          chunk := CHUNK;
        }
        ghost var before, earlier := ddr, issued;
        ChunkFits(s, offset, loaded, chunk, sectors);
        var result := MediaRead(Sum(offset, loaded), Sum(s.load, loaded), chunk);
        PartitionGrows(old(issued), earlier, issued, startLba, sectors);
        rangeErrors := rangeErrors + if result == ErrRange then 1 else 0;
        if result != MediaOk {
          ConfinedInside(old(ddr), before, ddr, DdrOffset(s.load), Slice(Contents(), offset, loaded), chunk, s.size);
          return false;
        }
        LoadsMore(old(ddr), before, ddr, DdrOffset(s.load), Contents(), offset, loaded, chunk);
        loaded := loaded + chunk;
      }
      LoadsConfined(old(ddr), ddr, DdrOffset(s.load), Slice(Contents(), offset, s.size), s.size);
      return true;
    }

    /** Reads the partition table; the media is usable exactly when it has one raw partition
        with a sound extent in its first entry. */
    method Open(initFails: bool) returns (result: MediaResult)
      requires |ddr| == DDR_SIZE && |flash| == FLASH_SIZE
      modifies `startLba, `sectors, `ddr, `issued
      ensures result == MediaOk ==> Valid() && sectors > 0
      ensures result == MediaOk && kind == SdCard ==>
                && startLba > 0 && |card| >= SECTOR && HasPartition(card)
                && startLba == ReadLe32(card, 454) && sectors == ReadLe32(card, 458)
      ensures kind == SdCard && !initFails && !faulty && |card| >= SECTOR && HasPartition(card) ==> result == MediaOk
      ensures Loads(old(ddr), ddr, 0, [])
    {
      startLba, sectors := 0, 0;
      if kind == Qspi {
        sectors := FLASH_SIZE / SECTOR;
        return MediaOk;
      }
      if initFails {
        return ErrSdInit;
      }
      var ok := ReadBlocks(0, 1);
      if !ok {
        return ErrMbrRead;
      }
      var stage := ddr[STAGE..STAGE + SECTOR];
      assert forall i: nat | i < SECTOR :: stage[i] == card[i];
      if stage[510] != 0x55 || stage[511] != 0xaa {
        return ErrMbrSignature;
      }
      if stage[450] != PART_TYPE_RAW {
        return ErrPartType;
      }
      startLba := ReadLe32(stage, 454);
      sectors := ReadLe32(stage, 458);
      if startLba == 0 || sectors == 0 || sectors > 0xffff_ffff - startLba {
        return ErrPartRange;
      }
      return MediaOk;
    }

    /** Loads the sections of an accepted header one after the other. */
    method LoadSections(h: Header, hdr: nat, ghost before: seq<Byte>) returns (result: LoadResult)
      requires Valid() && OnStack(hdr) && |before| == DDR_SIZE && |Contents()| >= HEADER_SIZE && Acceptable(h, sectors)
      requires Placed(WithHeader(before, hdr, Contents()), ddr, Sections(h), Contents(), 0)
      modifies `ddr, `issued, `rangeErrors
      ensures Valid() && rangeErrors == old(rangeErrors)
      ensures old(issued) <= issued && InPartition(issued, |old(issued)|, startLba, sectors)
      ensures result.LoadOk? || result.ErrSectionRead?
      ensures result.ErrSectionRead? ==> !Reliable()
      ensures Untouched(before, ddr, Sections(h), hdr)
      ensures result.LoadOk? ==> Loaded(before, ddr, h, Contents(), hdr)
    {
      hide Loads, InPartition, Slice, SectorsFor, Confined, Untouched, Acceptable, Placed, RangeOk, MediaRangeValid, WithHeader, Align4;
      NoReads(issued, startLba, sectors);
      var ss := Sections(h);
      ghost var sizes := SectionSizes(ss);
      var offset: U32 := HEADER_SIZE;
      var i := 0;
      while i < |ss|
        invariant 0 <= i <= |ss| && |ddr| == DDR_SIZE && rangeErrors == old(rangeErrors)
        invariant offset == SectionOffset(sizes, i)
        invariant old(issued) <= issued && InPartition(issued, |old(issued)|, startLba, sectors)
        invariant Placed(WithHeader(before, hdr, Contents()), ddr, ss, Contents(), i)
        invariant AllHeld(ss, Contents(), i)
      {
        ghost var b, earlier := ddr, issued;
        SectionFits(h, sectors, i);
        var ok := LoadSection(ss[i], offset);
        PartitionGrows(old(issued), earlier, issued, startLba, sectors);
        if !ok {
          SectionConfined(before, b, ddr, ss, Contents(), hdr, i);
          return ErrSectionRead(i);
        }
        PlacedNext(WithHeader(before, hdr, Contents()), b, ddr, ss, Contents(), i);
        offset := Sum(offset, Align4(ss[i].size));
        i := i + 1;
      }
      PlacedUntouched(before, ddr, ss, Contents(), hdr);
      return LoadOk;
    }

    /** Loads the image: the header first, into the structure at `hdr` on the stack, then every
        section to its load address. */
    method LoadImage(hdr: nat) returns (result: LoadResult, h: Header)
      requires Valid() && OnStack(hdr)
      modifies `ddr, `issued, `rangeErrors
      ensures Valid() && rangeErrors == old(rangeErrors)
      ensures InPartition(issued, |old(issued)|, startLba, sectors)
      ensures result == ErrHeaderRead ==> !Reliable() || sectors == 0
      ensures result != ErrHeaderRead ==> |Contents()| >= HEADER_SIZE && h == Decode(Contents())
      ensures result == ErrHeaderInvalid <==> result != ErrHeaderRead && !Acceptable(h, sectors)
      ensures result.ErrSectionRead? ==> !Reliable()
      ensures Untouched(old(ddr), ddr, if result.LoadOk? || result.ErrSectionRead? then Sections(h) else [], hdr)
      ensures result.LoadOk? ==> Loaded(old(ddr), ddr, h, Contents(), hdr)
    {
      hide Loads, InPartition, Slice, SectorsFor, Confined, Untouched, Decode, Acceptable, Target;
      StackTarget(hdr);
      var read := MediaRead(0, hdr, HEADER_SIZE);
      if read != MediaOk {
        HeaderUnread(old(ddr), ddr, hdr);
        HeaderRange(sectors);
        h := Header(0, 0, 0, 0, 0, 0, 0, 0, 0, 0);
        return ErrHeaderRead, h;
      }
      HeaderInMemory(old(ddr), ddr, hdr, Contents());
      h := Decode(ddr[hdr - DDR_BASE..hdr - DDR_BASE + HEADER_SIZE]);
      var valid := HeaderValid(h, sectors);
      if !valid {
        return ErrHeaderInvalid, h;
      }
      ghost var earlier := issued;
      result := LoadSections(h, hdr, old(ddr));
      PartitionGrows(old(issued), earlier, issued, startLba, sectors);
    }
  }
}
