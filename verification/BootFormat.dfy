/** The boot image: a header of ten little-endian words, then the sections, each padded to a
    multiple of four bytes; and the packer that writes it. */
module BootFormat {
  const U32_END: nat := 0x1_0000_0000
  const HEADER_SIZE: nat := 40
  const TYPE_BARE: U32 := 0
  const TYPE_LINUX: U32 := 1

  type Byte = x: int | 0 <= x < 256
  type U32 = x: int | 0 <= x < 0x1_0000_0000

  datatype Option<T> = None | Some(value: T)

  datatype Header = Header(
    kind: U32, firmwareSize: U32, reserved: U32, kernelSize: U32, initrdSize: U32, dtbSize: U32,
    kernelLoad: U32, initrdLoad: U32, dtbLoad: U32, padding: U32)

  // ----- words -----

  /** Byte `j` of a little-endian word. */
  function LeByte(v: U32, j: nat): (b: Byte)
    requires j < 4
  {
    if j == 0 then v % 0x100
    else if j == 1 then v / 0x100 % 0x100
    else if j == 2 then v / 0x1_0000 % 0x100
    else v / 0x100_0000
  }

  function ReadLe32(s: seq<Byte>, at: nat): (v: U32)
    requires at + 4 <= |s|
  {
    var b0: int, b1: int, b2: int, b3: int := s[at], s[at + 1], s[at + 2], s[at + 3];
    b0 + 0x100 * b1 + 0x1_0000 * b2 + 0x100_0000 * b3
  }

  /** The four bytes of a word make it up again. */
  lemma Digits(v: U32)
    ensures v == LeByte(v, 0) + 0x100 * LeByte(v, 1) + 0x1_0000 * LeByte(v, 2) + 0x100_0000 * LeByte(v, 3)
  {
    var q1: int := v / 0x100;
    var q2: int := q1 / 0x100;
    assert v / 0x1_0000 == q2;
    assert v / 0x100_0000 == q2 / 0x100;
    assert v == 0x100 * q1 + v % 0x100;
    assert q1 == 0x100 * q2 + q1 % 0x100;
    assert q2 == 0x100 * (q2 / 0x100) + q2 % 0x100;
  }

  lemma Le32RoundTrip(v: U32, s: seq<Byte>, at: nat)
    requires at + 4 <= |s| && forall j | 0 <= j < 4 :: s[at + j] == LeByte(v, j)
    ensures ReadLe32(s, at) == v
  {
    assert s[at] == LeByte(v, 0) && s[at + 1] == LeByte(v, 1) && s[at + 2] == LeByte(v, 2) && s[at + 3] == LeByte(v, 3);
    Digits(v);
    hide LeByte;
  }

  // ----- header -----

  function Fields(h: Header): (fs: seq<U32>)
    ensures |fs| == 10
  {
    [h.kind, h.firmwareSize, h.reserved, h.kernelSize, h.initrdSize, h.dtbSize, h.kernelLoad, h.initrdLoad, h.dtbLoad, h.padding]
  }

  function Encode(h: Header): (s: seq<Byte>)
    ensures |s| == HEADER_SIZE
  {
    seq(HEADER_SIZE, i requires 0 <= i < HEADER_SIZE => LeByte(Fields(h)[i / 4], i % 4))
  }

  function Decode(s: seq<Byte>): (h: Header)
    requires |s| >= HEADER_SIZE
  {
    Header(ReadLe32(s, 0), ReadLe32(s, 4), ReadLe32(s, 8), ReadLe32(s, 12), ReadLe32(s, 16), ReadLe32(s, 20),
           ReadLe32(s, 24), ReadLe32(s, 28), ReadLe32(s, 32), ReadLe32(s, 36))
  }

  lemma FieldRoundTrip(h: Header, s: seq<Byte>, k: nat)
    requires Encode(h) <= s && k < 10
    ensures 4 * k + 4 <= |s| && ReadLe32(s, 4 * k) == Fields(h)[k]
  {
    forall j | 0 <= j < 4
      ensures s[4 * k + j] == LeByte(Fields(h)[k], j)
    {
      assert s[4 * k + j] == Encode(h)[4 * k + j];
      assert (4 * k + j) / 4 == k && (4 * k + j) % 4 == j;
    }
    Le32RoundTrip(Fields(h)[k], s, 4 * k);
  }

  /** Reading back the header of any image that starts with it. */
  lemma HeaderRoundTrip(h: Header, s: seq<Byte>)
    requires Encode(h) <= s
    ensures Decode(s) == h
  {
    hide Encode, ReadLe32;
    FieldRoundTrip(h, s, 0);
    FieldRoundTrip(h, s, 1);
    FieldRoundTrip(h, s, 2);
    FieldRoundTrip(h, s, 3);
    FieldRoundTrip(h, s, 4);
    FieldRoundTrip(h, s, 5);
    FieldRoundTrip(h, s, 6);
    FieldRoundTrip(h, s, 7);
    FieldRoundTrip(h, s, 8);
    FieldRoundTrip(h, s, 9);
  }

  // ----- layout -----

  /** `(value + 3) & ~3` without and with 32-bit wrap-around. */
  function Padded(size: nat): nat { (size + 3) / 4 * 4 }
  function Align4(size: U32): U32 { (size + 3) % 0x1_0000_0000 / 4 * 4 }

  /** Bytes the sections before section `i` take, padding included. */
  function Before(sizes: seq<nat>, i: nat): (n: nat)
    requires i <= |sizes|
  {
    if i == 0 then 0 else Before(sizes, i - 1) + Padded(sizes[i - 1])
  }

  /** Where section `i` starts in the image. */
  function SectionOffset(sizes: seq<nat>, i: nat): (n: nat)
    requires i <= |sizes|
  {
    HEADER_SIZE + Before(sizes, i)
  }

  lemma {:induction false} BeforeMonotone(sizes: seq<nat>, i: nat, j: nat)
    requires i <= j <= |sizes|
    ensures Before(sizes, i) <= Before(sizes, j)
    ensures i < j ==> Before(sizes, i) + sizes[i] <= Before(sizes, j)
  {
    if i < j - 1 {
      BeforeMonotone(sizes, i, j - 1);
    }
  }

  // ----- the packer -----

  function Zeros(n: nat): (s: seq<Byte>) { seq(n, _ => 0) }

  /** A section as it stands in the file. */
  function Aligned(data: seq<Byte>): (s: seq<Byte>)
    ensures |s| == Padded(|data|)
  {
    data + Zeros(Padded(|data|) - |data|)
  }

  function Concat(blobs: seq<seq<Byte>>): (s: seq<Byte>)
  {
    if blobs == [] then [] else Concat(blobs[..|blobs| - 1]) + Aligned(blobs[|blobs| - 1])
  }

  function Sizes(blobs: seq<seq<Byte>>): (sizes: seq<nat>)
    ensures |sizes| == |blobs|
  {
    seq(|blobs|, i requires 0 <= i < |blobs| => |blobs[i]|)
  }

  lemma {:induction false} BeforeExtends(sizes: seq<nat>, sizes': seq<nat>, i: nat)
    requires i <= |sizes| && sizes <= sizes'
    ensures Before(sizes, i) == Before(sizes', i)
  {
    if i > 0 {
      BeforeExtends(sizes, sizes', i - 1);
    }
  }

  /** Every section stands at its offset. */
  lemma {:induction false} ConcatAt(blobs: seq<seq<Byte>>, i: nat)
    requires i < |blobs|
    ensures |Concat(blobs)| == Before(Sizes(blobs), |blobs|)
    ensures Before(Sizes(blobs), i) + |blobs[i]| <= |Concat(blobs)|
    ensures Concat(blobs)[Before(Sizes(blobs), i)..][..|blobs[i]|] == blobs[i]
  {
    hide Padded;
    var k := |blobs| - 1;
    var rest := blobs[..k];
    var all := Concat(blobs);
    assert Sizes(rest) <= Sizes(blobs);
    BeforeExtends(Sizes(rest), Sizes(blobs), k);
    if k > 0 {
      ConcatAt(rest, if i < k then i else 0);
    }
    assert |Concat(rest)| == Before(Sizes(blobs), k);
    if i < k {
      BeforeExtends(Sizes(rest), Sizes(blobs), i);
      var at := Before(Sizes(blobs), i);
      assert all[at..][..|blobs[i]|] == Concat(rest)[at..][..|blobs[i]|];
    } else {
      assert all[|Concat(rest)|..][..|blobs[k]|] == blobs[k];
    }
  }

  /** Appends a blob and its padding, as `write_blob_aligned` does. */
  method WriteBlobAligned(file: seq<Byte>, data: seq<Byte>, size: U32) returns (file': seq<Byte>)
    requires size <= |data|
    ensures file' == file + Aligned(data[..size])
  {
    if size == 0 {
      return file;
    }
    file' := file + data[..size];
    var pad := (U32_END - size) % 4;
    if pad != 0 {
      file' := file' + Zeros(pad);
    }
  }

  /** What the packer takes: firmware alone, or a Linux image with its load addresses. */
  datatype Parts =
    | Bare(firmware: seq<Byte>)
    | Linux(firmware: seq<Byte>, kernel: seq<Byte>, initrd: seq<Byte>, dtb: seq<Byte>,
            kernelLoad: U32, initrdLoad: U32, dtbLoad: U32)

  /** The size of a file as the packer holds it: 32 bits of it. */
  function Size32(data: seq<Byte>): U32 { |data| % 0x1_0000_0000 }

  /** The part of a file the packer writes: all of it, below 4 GB. */
  function Blob(data: seq<Byte>): (s: seq<Byte>) { data[..Size32(data)] }

  function Blobs(p: Parts): (bs: seq<seq<Byte>>)
  {
    match p
    case Bare(f) => [Blob(f)]
    case Linux(f, k, i, d, _, _, _) => [Blob(f), Blob(k), Blob(i), Blob(d)]
  }

  function HeaderOf(p: Parts): (h: Header)
  {
    match p
    case Bare(f) => Header(TYPE_BARE, Size32(f), 0, 0, 0, 0, 0, 0, 0, 0)
    case Linux(f, k, i, d, kl, il, dl) => Header(TYPE_LINUX, Size32(f), 0, Size32(k), Size32(i), Size32(d), kl, il, dl, 0)
  }

  /** The image of a set of parts. */
  function Image(p: Parts): (s: seq<Byte>) { Encode(HeaderOf(p)) + Concat(Blobs(p)) }

  predicate Missing(p: Parts)
  {
    p.firmware == [] || (p.Linux? && (p.kernel == [] || p.initrd == [] || p.dtb == []))
  }

  /** One more section in the file. */
  lemma FileGrows(file: seq<Byte>, head: seq<Byte>, blobs: seq<seq<Byte>>, b: seq<Byte>)
    requires file == head + Concat(blobs)
    ensures file + Aligned(b) == head + Concat(blobs + [b])
  {
    assert (blobs + [b])[..|blobs|] == blobs;
    assert (head + Concat(blobs)) + Aligned(b) == head + (Concat(blobs) + Aligned(b));
  }

  /** The sections after the firmware. */
  method WriteLinux(p: Parts, ghost head: seq<Byte>, file0: seq<Byte>) returns (file: seq<Byte>)
    requires p.Linux? && file0 == head + Concat([Blob(p.firmware)])
    ensures file == head + Concat(Blobs(p))
  {
    hide Aligned, Concat;
    ghost var f, k, i, d := Blob(p.firmware), Blob(p.kernel), Blob(p.initrd), Blob(p.dtb);
    FileGrows(file0, head, [f], k);
    file := WriteBlobAligned(file0, p.kernel, Size32(p.kernel));
    assert [f] + [k] == [f, k];
    FileGrows(file, head, [f, k], i);
    file := WriteBlobAligned(file, p.initrd, Size32(p.initrd));
    assert [f, k] + [i] == [f, k, i];
    FileGrows(file, head, [f, k, i], d);
    file := WriteBlobAligned(file, p.dtb, Size32(p.dtb));
    assert [f, k, i] + [d] == [f, k, i, d];
  }

  /** The packer: a missing or empty input file stops it. */
  method Mkbin(p: Parts) returns (bin: Option<seq<Byte>>)
    ensures bin == if Missing(p) then None else Some(Image(p))
  {
    if p.firmware == [] {
      return None;
    }
    if p.Linux? && (p.kernel == [] || p.initrd == [] || p.dtb == []) {
      return None;
    }
    hide Encode, Aligned;
    var head := Encode(HeaderOf(p));
    var file := WriteBlobAligned(head, p.firmware, Size32(p.firmware));
    ghost var f := Blob(p.firmware);
    assert head == head + Concat([]);
    FileGrows(head, head, [], f);
    assert [] + [f] == [f];
    if p.Linux? {
      file := WriteLinux(p, head, file);
    }
    bin := Some(file);
  }

  /** Where the packer puts things: the header reads back, and every blob stands at its offset. */
  lemma ImageLayout(p: Parts, s: seq<Byte>, i: nat)
    requires Image(p) <= s && i < |Blobs(p)|
    ensures Decode(s) == HeaderOf(p)
    ensures var at := SectionOffset(Sizes(Blobs(p)), i);
            at + |Blobs(p)[i]| <= |s| && s[at..at + |Blobs(p)[i]|] == Blobs(p)[i]
  {
    hide Encode, Decode, Concat, Blobs, HeaderOf, Sizes, Before;
    HeaderRoundTrip(HeaderOf(p), s);
    ConcatAt(Blobs(p), i);
    var b := Before(Sizes(Blobs(p)), i);
    var n := |Blobs(p)[i]|;
    assert s[HEADER_SIZE + b..HEADER_SIZE + b + n] == Concat(Blobs(p))[b..][..n];
  }
}
