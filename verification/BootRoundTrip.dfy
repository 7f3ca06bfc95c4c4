/** What the packer writes, the loader puts in memory. */
module BootRoundTrip {
  import opened BootFormat
  import opened BootLoader

  // ----- which images the loader accepts -----

  /** The sections of a packed image are its blobs. */
  lemma PackedSections(p: Parts)
    ensures var ss := Sections(HeaderOf(p));
            && |ss| == |Blobs(p)| && SectionSizes(ss) == Sizes(Blobs(p))
            && forall i | 0 <= i < |ss| :: ss[i].size == |Blobs(p)[i]|
  {
  }

  lemma ImageLength(p: Parts)
    ensures |Image(p)| == SectionOffset(Sizes(Blobs(p)), |Blobs(p)|)
  {
    hide Encode;
    ConcatAt(Blobs(p), 0);
  }

  /** The loader accepts a packed image exactly when its sizes and load ranges are sound and it fits the media. */
  lemma AcceptedIff(p: Parts, sectors: U32)
    ensures var ss := Sections(HeaderOf(p));
            Acceptable(HeaderOf(p), sectors) <==>
              && 0 < |Blob(p.firmware)| <= FIRMWARE_WINDOW - STACK_SIZE
              && (forall i | 0 <= i < |ss| :: RangeOk(ss[i].load, |Blobs(p)[i]|))
              && |Image(p)| < U32_END && SectorsFor(|Image(p)|) <= sectors
  {
    PackedSections(p);
    ImageLength(p);
    hide RangeOk, SectorsFor, Image, Before;
  }

  // ----- what survives -----

  /** Section `i` ends up in memory byte for byte. */
  ghost predicate Intact(before: seq<Byte>, ss: seq<Section>, contents: seq<Byte>, i: nat)
    requires i < |ss| && |before| == DDR_SIZE
  {
    forall x: nat | x < DDR_SIZE && Covers(ss[i], x) ::
      && SectionOffset(SectionSizes(ss), i) + DDR_BASE + x - ss[i].load < |contents|
      && Expected(before, ss, contents, |ss|, x) == contents[SectionOffset(SectionSizes(ss), i) + DDR_BASE + x - ss[i].load]
  }

  /** No later section is loaded over section `i`. */
  predicate NotOverwritten(ss: seq<Section>, i: nat)
    requires i < |ss|
  {
    forall j | i < j < |ss| && ss[j].size > 0 && ss[i].size > 0 :: Disjoint(ss[i].load, ss[i].size, ss[j].load, ss[j].size)
  }

  lemma IntactWhenClear(before: seq<Byte>, ss: seq<Section>, contents: seq<Byte>, i: nat)
    requires i < |ss| && |before| == DDR_SIZE && NotOverwritten(ss, i)
    requires Holds(contents, SectionOffset(SectionSizes(ss), i), ss[i].size)
    ensures Intact(before, ss, contents, i)
  {
    forall x: nat | x < DDR_SIZE && Covers(ss[i], x)
      ensures SectionOffset(SectionSizes(ss), i) + DDR_BASE + x - ss[i].load < |contents|
      ensures Expected(before, ss, contents, |ss|, x) == contents[SectionOffset(SectionSizes(ss), i) + DDR_BASE + x - ss[i].load]
    {
      ExpectedLast(before, ss, contents, |ss|, i, x);
    }
  }

  /** The latest of the sections that cover an address. */
  lemma {:induction false} LastCover(ss: seq<Section>, k: nat, j: nat, x: nat) returns (last: nat)
    requires j < k <= |ss| && Covers(ss[j], x)
    ensures j <= last < k && Covers(ss[last], x) && forall m | last < m < k :: !Covers(ss[m], x)
  {
    if Covers(ss[k - 1], x) {
      last := k - 1;
    } else {
      last := LastCover(ss, k - 1, j, x);
    }
  }

  /** The same parts with every file overwritten: ones in section `i`, zeros elsewhere. */
  function Fill(data: seq<Byte>, on: bool): seq<Byte> { seq(|data|, _ => if on then 1 else 0) }

  function Refill(p: Parts, i: nat): (p': Parts)
  {
    match p
    case Bare(f) => Bare(Fill(f, i == 0))
    case Linux(f, k, n, d, kl, nl, dl) => Linux(Fill(f, i == 0), Fill(k, i == 1), Fill(n, i == 2), Fill(d, i == 3), kl, nl, dl)
  }

  lemma FillFacts(data: seq<Byte>, on: bool)
    ensures (Fill(data, on) == [] <==> data == []) && Size32(Fill(data, on)) == Size32(data)
    ensures |Blob(Fill(data, on))| == |Blob(data)|
    ensures forall o: nat | o < |Blob(Fill(data, on))| :: Blob(Fill(data, on))[o] == if on then 1 else 0
  {
  }

  lemma RefillFacts(p: Parts, i: nat)
    ensures var p' := Refill(p, i);
            && HeaderOf(p') == HeaderOf(p) && (Missing(p') <==> Missing(p)) && |Blobs(p')| == |Blobs(p)|
            && forall k: nat | k < |Blobs(p)| ::
                 && |Blobs(p')[k]| == |Blobs(p)[k]|
                 && forall o: nat | o < |Blobs(p')[k]| :: Blobs(p')[k][o] == if k == i then 1 else 0
  {
    FillFacts(p.firmware, i == 0);
    if p.Linux? {
      FillFacts(p.kernel, i == 1);
      FillFacts(p.initrd, i == 2);
      FillFacts(p.dtb, i == 3);
    }
    hide Fill, Blob, Size32;
  }

  /** Byte `o` of a blob, found in the packed image. */
  lemma ByteInImage(p: Parts, k: nat, o: nat)
    requires k < |Blobs(p)| && o < |Blobs(p)[k]|
    ensures var at := SectionOffset(Sizes(Blobs(p)), k) + o;
            at < |Image(p)| && Image(p)[at] == Blobs(p)[k][o]
  {
    hide Image, Blobs, Sizes, Before, HeaderOf, Decode;
    ImageLayout(p, Image(p), k);
    var at := SectionOffset(Sizes(Blobs(p)), k);
    assert Image(p)[at..at + |Blobs(p)[k]|][o] == Image(p)[at + o];
  }

  /** A packed image of the same header that shows the damage: section `i` all ones under a later
      section of zeros. */
  lemma Clobbered(before: seq<Byte>, p: Parts, sectors: U32, i: nat)
    requires Acceptable(HeaderOf(p), sectors) && |before| == DDR_SIZE
    requires i < |Sections(HeaderOf(p))| == |Blobs(p)| && !NotOverwritten(Sections(HeaderOf(p)), i)
    ensures !Intact(before, Sections(HeaderOf(p)), Image(Refill(p, i)), i)
  {
    hide Sections, Blobs, HeaderOf, Image, FieldsOk, Before, SectionSizes, Sizes, Missing, Expected, Refill;
    RefillFacts(p, i);
    var p' := Refill(p, i);
    PackedSections(p');
    var ss, contents := Sections(HeaderOf(p)), Image(p');
    var x, last := Overlapped(ss, i);
    ByteInImage(p', i, DDR_BASE + x - ss[i].load);
    ByteInImage(p', last, DDR_BASE + x - ss[last].load);
    LastHeld(p', last);
    ExpectedLast(before, ss, contents, |ss|, last, x);
  }

  lemma LastHeld(p: Parts, k: nat)
    requires k < |Blobs(p)|
    ensures SectionOffset(Sizes(Blobs(p)), k) + |Blobs(p)[k]| <= |Image(p)|
  {
    ImageLayout(p, Image(p), k);
  }

  /** An address of section `i` that a later section covers too, and the last one that does. */
  lemma Overlapped(ss: seq<Section>, i: nat) returns (x: nat, last: nat)
    requires i < |ss| && !NotOverwritten(ss, i) && forall k | 0 <= k < |ss| :: RangeOk(ss[k].load, ss[k].size)
    ensures i < last < |ss| && x < DDR_SIZE && Covers(ss[i], x) && Covers(ss[last], x)
    ensures forall m | last < m < |ss| :: !Covers(ss[m], x)
  {
    var j :| i < j < |ss| && ss[j].size > 0 && ss[i].size > 0 && !Disjoint(ss[i].load, ss[i].size, ss[j].load, ss[j].size);
    assert RangeOk(ss[i].load, ss[i].size) && RangeOk(ss[j].load, ss[j].size);
    x := (if ss[i].load < ss[j].load then ss[j].load else ss[i].load) - DDR_BASE;
    assert Covers(ss[i], x) && Covers(ss[j], x);
    last := LastCover(ss, |ss|, j, x);
  }

  lemma HeldInImage(p: Parts, i: nat)
    requires i < |Blobs(p)|
    ensures var ss := Sections(HeaderOf(p));
            |ss| == |Blobs(p)| && Holds(Image(p), SectionOffset(SectionSizes(ss), i), ss[i].size)
  {
    PackedSections(p);
    LastHeld(p, i);
    hide Sections, Blobs, HeaderOf, Image, Before, SectionSizes, Sizes;
  }

  /** The header check does not compare sections with each other: among the packed images with an
      accepted header, a section reaches memory whole on every one exactly when no later section
      is loaded over it. */
  lemma IntactIff(before: seq<Byte>, p: Parts, sectors: U32, i: nat)
    requires Acceptable(HeaderOf(p), sectors) && !Missing(p) && |before| == DDR_SIZE && i < |Sections(HeaderOf(p))|
    ensures (forall q: Parts | HeaderOf(q) == HeaderOf(p) && !Missing(q) ::
               Intact(before, Sections(HeaderOf(p)), Image(q), i)) <==> NotOverwritten(Sections(HeaderOf(p)), i)
  {
    hide Sections, Blobs, HeaderOf, Image, Missing, Acceptable, NotOverwritten, Intact;
    PackedSections(p);
    var ss := Sections(HeaderOf(p));
    if NotOverwritten(ss, i) {
      forall q: Parts | HeaderOf(q) == HeaderOf(p) && !Missing(q)
        ensures Intact(before, ss, Image(q), i)
      {
        PackedSections(q);
        HeldInImage(q, i);
        IntactWhenClear(before, ss, Image(q), i);
      }
    } else {
      RefillFacts(p, i);
      Clobbered(before, p, sectors, i);
      assert !Intact(before, ss, Image(Refill(p, i)), i);
    }
  }

  // ----- the round trip -----

  /** A blob stands at its load address. */
  ghost predicate InPlace(ddr: seq<Byte>, load: nat, blob: seq<Byte>)
  {
    blob != [] ==> DDR_BASE <= load && load + |blob| <= DDR_BASE + |ddr| && ddr[load - DDR_BASE..][..|blob|] == blob
  }

  lemma PlacedBlob(d: seq<Byte>, after: seq<Byte>, ss: seq<Section>, contents: seq<Byte>, i: nat, blob: seq<Byte>)
    requires i < |ss| && Placed(d, after, ss, contents, |ss|) && NotOverwritten(ss, i)
    requires RangeOk(ss[i].load, ss[i].size) && |blob| == ss[i].size > 0
    requires Holds(contents, SectionOffset(SectionSizes(ss), i), |blob|)
    requires Slice(contents, SectionOffset(SectionSizes(ss), i), |blob|) == blob
    ensures InPlace(after, ss[i].load, blob)
  {
    IntactWhenClear(d, ss, contents, i);
    hide NotOverwritten, Expected;
    var at := SectionOffset(SectionSizes(ss), i);
    forall k: nat | k < |blob|
      ensures after[ss[i].load - DDR_BASE + k] == blob[k]
    {
      var x := ss[i].load - DDR_BASE + k;
      assert Covers(ss[i], x) && !InStage(x);
      assert blob[k] == contents[at..at + |blob|][k] == contents[at + k];
    }
  }

  lemma BlobInPlace(p: Parts, before: seq<Byte>, after: seq<Byte>, contents: seq<Byte>, hdr: nat, sectors: U32, i: nat)
    requires Image(p) <= contents && Acceptable(HeaderOf(p), sectors) && i < |Blobs(p)|
    requires |Sections(HeaderOf(p))| == |Blobs(p)|
    requires Loaded(before, after, HeaderOf(p), contents, hdr) && NotOverwritten(Sections(HeaderOf(p)), i)
    ensures InPlace(after, Sections(HeaderOf(p))[i].load, Blobs(p)[i])
  {
    hide Sections, Blobs, HeaderOf, Image, WithHeader, NotOverwritten, Placed, RangeOk, FieldsOk, Before, SectionSizes, Sizes, Decode;
    PackedSections(p);
    ImageLayout(p, contents, i);
    var ss, blob := Sections(HeaderOf(p)), Blobs(p)[i];
    if blob != [] {
      PlacedBlob(WithHeader(before, hdr, contents), after, ss, contents, i, blob);
    }
  }

  /** Loading a packed image, from flash or through staged card reads, puts every blob that no
      later one overwrites at its load address. */
  method LoadPacked(m: Machine, p: Parts, hdr: nat) returns (result: LoadResult)
    requires m.Valid() && OnStack(hdr) && m.Reliable() && Image(p) <= m.Contents() && Acceptable(HeaderOf(p), m.sectors)
    modifies m
    ensures result == LoadOk && |Sections(HeaderOf(p))| == |Blobs(p)|
    ensures forall i | 0 <= i < |Blobs(p)| && NotOverwritten(Sections(HeaderOf(p)), i) ::
              InPlace(m.ddr, Sections(HeaderOf(p))[i].load, Blobs(p)[i])
  {
    hide Acceptable, Loaded, Image, InPlace, NotOverwritten, Untouched, InPartition, Blobs, HeaderOf, Sections, Decode, Sizes,
         SectionSizes, Before;
    PackedSections(p);
    SomeBlob(p);
    ImageLayout(p, m.Contents(), 0);
    ghost var before, contents, sectors := m.ddr, m.Contents(), m.sectors;
    assert m.sectors > 0 by { NonEmpty(p, m.sectors); }
    var h;
    result, h := m.LoadImage(hdr);
    forall i | 0 <= i < |Blobs(p)| && NotOverwritten(Sections(HeaderOf(p)), i)
      ensures InPlace(m.ddr, Sections(HeaderOf(p))[i].load, Blobs(p)[i])
    {
      BlobInPlace(p, before, m.ddr, contents, hdr, sectors, i);
    }
  }

  // ----- overlapping sections are accepted -----

  /** A kernel linked to the address of the firmware. */
  const OVERLAP: Parts := Linux([1], [2], [3], [4], 0x4000_0000, 0x4100_0000, 0x4200_0000)

  /** The header check accepts it. */
  lemma OverlapAccepted(sectors: U32)
    requires sectors > 0
    ensures Acceptable(HeaderOf(OVERLAP), sectors) && !Missing(OVERLAP)
    ensures Sections(HeaderOf(OVERLAP))[0].load == Sections(HeaderOf(OVERLAP))[1].load == DDR_BASE
    ensures !NotOverwritten(Sections(HeaderOf(OVERLAP)), 0)
  {
    var ss := Sections(HeaderOf(OVERLAP));
    OverlapSections();
    assert ss[1].size > 0 && ss[0].size > 0 && !Disjoint(ss[0].load, ss[0].size, ss[1].load, ss[1].size);
    assert SectionOffset(SectionSizes(ss), 4) == HEADER_SIZE + 16 by {
      assert Before(SectionSizes(ss), 0) == 0;
      assert Before(SectionSizes(ss), 1) == 4;
      assert Before(SectionSizes(ss), 2) == 8;
      assert Before(SectionSizes(ss), 3) == 12;
    }
  }

  lemma OverlapSections()
    ensures Sections(HeaderOf(OVERLAP)) ==
              [Section(FIRMWARE_BASE, 1), Section(0x4000_0000, 1), Section(0x4100_0000, 1), Section(0x4200_0000, 1)]
    ensures Blobs(OVERLAP) == [[1], [2], [3], [4]]
  {
    assert [1][..1] == [1] && [2][..1] == [2] && [3][..1] == [3] && [4][..1] == [4];
  }

  lemma KernelByte(before: seq<Byte>, after: seq<Byte>, contents: seq<Byte>, hdr: nat)
    requires Image(OVERLAP) <= contents && Loaded(before, after, HeaderOf(OVERLAP), contents, hdr)
    ensures |after| == DDR_SIZE && after[0] == 2
  {
    hide HeaderOf, Image, Blobs, WithHeader, Before, SectionSizes, Sizes, Expected, Decode, AllHeld;
    OverlapSections();
    PackedSections(OVERLAP);
    ImageLayout(OVERLAP, contents, 1);
    var ss := Sections(HeaderOf(OVERLAP));
    var at := SectionOffset(SectionSizes(ss), 1);
    assert contents[at..at + 1][0] == contents[at];
    assert Covers(ss[1], 0) && !Covers(ss[2], 0) && !Covers(ss[3], 0) && !InStage(0);
    ExpectedLast(WithHeader(before, hdr, contents), ss, contents, 4, 1, 0);
  }

  /** The loader reports success, and the first byte of the firmware's place is the kernel's. */
  method LoadOverlap(m: Machine, hdr: nat) returns (result: LoadResult)
    requires m.Valid() && OnStack(hdr) && m.Reliable() && Image(OVERLAP) <= m.Contents() && m.sectors > 0
    modifies m
    ensures result == LoadOk && Blobs(OVERLAP)[0] == [1] && |m.ddr| == DDR_SIZE && m.ddr[FIRMWARE_BASE - DDR_BASE] == 2
  {
    hide Acceptable, Loaded, Image, Untouched, InPartition, HeaderOf, Decode, NotOverwritten;
    OverlapAccepted(m.sectors);
    OverlapSections();
    ImageLayout(OVERLAP, m.Contents(), 0);
    ghost var before, contents := m.ddr, m.Contents();
    var h;
    result, h := m.LoadImage(hdr);
    KernelByte(before, m.ddr, contents, hdr);
  }

  lemma SomeBlob(p: Parts)
    ensures |Blobs(p)| > 0
  {
  }

  lemma NonEmpty(p: Parts, sectors: U32)
    requires Acceptable(HeaderOf(p), sectors)
    ensures sectors > 0
  {
  }

  /** Pack, then load: below 4 GB every file comes back whole. */
  lemma BlobIsFile(data: seq<Byte>)
    ensures Blob(data) == data <==> |data| < U32_END
  {
  }
}
