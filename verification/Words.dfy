/** 32-bit bus words as four byte lanes (lane 0 is bits 7..0), strobed stores, and
    the address stepping of AXI bursts.  The models only ever move byte lanes, so
    a word is a record of lanes rather than an integer. */
module Words {

  datatype Word = Word(b0: bv8, b1: bv8, b2: bv8, b3: bv8) {
    function Lane(j: nat): (b: bv8)
      requires j < 4
    {
      if j == 0 then b0 else if j == 1 then b1 else if j == 2 then b2 else b3
    }

    function WithLane(j: nat, b: bv8): (w: Word)
      requires j < 4
      ensures forall i: nat | i < 4 :: w.Lane(i) == if i == j then b else Lane(i)
    {
      if j == 0 then this.(b0 := b) else if j == 1 then this.(b1 := b)
      else if j == 2 then this.(b2 := b) else this.(b3 := b)
    }
  }

  /** A byte strobe: which lanes of a word a store writes. */
  datatype Strobe = Strobe(s0: bool, s1: bool, s2: bool, s3: bool) {
    predicate On(j: nat)
      requires j < 4
    {
      if j == 0 then s0 else if j == 1 then s1 else if j == 2 then s2 else s3
    }
  }

  const ZERO := Word(0, 0, 0, 0)
  const ALL_LANES := Strobe(true, true, true, true)

  /** A strobed store into a word. */
  function Merge(prev: Word, data: Word, strb: Strobe): (w: Word)
    ensures forall j: nat | j < 4 :: w.Lane(j) == if strb.On(j) then data.Lane(j) else prev.Lane(j)
  {
    Word(if strb.s0 then data.b0 else prev.b0, if strb.s1 then data.b1 else prev.b1,
         if strb.s2 then data.b2 else prev.b2, if strb.s3 then data.b3 else prev.b3)
  }

  /** The byte-by-byte read-modify-write loop of the C models computes `Merge`. */
  method MergeBytes(prev: Word, data: Word, strb: Strobe) returns (w: Word)
    ensures w == Merge(prev, data, strb)
  {
    w := prev;
    for lane := 0 to 4
      invariant forall j: nat | j < 4 ::
                  w.Lane(j) == if j < lane && strb.On(j) then data.Lane(j) else prev.Lane(j)
    {
      if strb.On(lane) {
        w := w.WithLane(lane, data.Lane(lane));
      }
    }
    assert w.Lane(0) == Merge(prev, data, strb).Lane(0);
    assert w.Lane(1) == Merge(prev, data, strb).Lane(1);
    assert w.Lane(2) == Merge(prev, data, strb).Lane(2);
    assert w.Lane(3) == Merge(prev, data, strb).Lane(3);
  }
}
